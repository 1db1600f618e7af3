/**
 * The part of Zod 3 that the edge functions' request schemas use, as data plus
 * one interpreter: `Parse(schema, slot)` is `schema.safeParse(value)`, where a
 * slot is a JSON value or `undefined`. A schema is a value, so each endpoint's
 * schema stays the declaration it is in the source.
 */
module Zod {
  import opened Wrappers
  import opened Json

  /** The character class of a `.regex(...)` check. */
  datatype Pattern =
    | AnyText       // no regex
    | LocationText  // /^[a-zA-Z0-9\-_\s]+$/

  /** What `z.object` does with keys its shape does not name. */
  datatype UnknownKeys = Strip | Passthrough

  datatype Schema =
    | ZString(minLength: nat, maxLength: nat, pattern: Pattern)  // z.string().min(a).max(b)[.regex(...)]
    | ZArray(element: Schema, minItems: nat, maxItems: nat)       // z.array(e).min(a).max(b)
    | ZRecordAny                                                   // z.record(z.any())
    | ZOptional(inner: Schema)                                     // s.optional()
    | ZDefault(inner: Schema, fallback: Json)                      // s.default(d)
    | ZObject(fields: Fields, unknownKeys: UnknownKeys)            // z.object({...})[.passthrough()]

  /** The shape of a `z.object`, in declaration order. */
  datatype Fields = NoFields | Field(key: string, schema: Schema, rest: Fields)

  /** The outcome of `safeParse`: failure, or success with the parsed output. */
  datatype Verdict = Rejected | Accepted(output: Slot)

  /** The keys a shape declares. */
  function Keys(fs: Fields): set<string> {
    match fs
    case NoFields => {}
    case Field(k, _, rest) => {k} + Keys(rest)
  }

  /** JavaScript's `\s`: the WhiteSpace and LineTerminator code points of ECMAScript. */
  predicate JsWhitespace(c: char) {
    || '\U{9}' <= c <= '\U{D}'      // tab, line feed, vertical tab, form feed, carriage return
    || c == ' ' || c == '\U{A0}' || c == '\U{1680}'
    || '\U{2000}' <= c <= '\U{200A}'
    || c == '\U{2028}' || c == '\U{2029}' || c == '\U{202F}' || c == '\U{205F}'
    || c == '\U{3000}' || c == '\U{FEFF}'
  }

  /** One character of the class `[a-zA-Z0-9\-_\s]`. */
  predicate LocationChar(c: char) {
    || 'a' <= c <= 'z' || 'A' <= c <= 'Z' || '0' <= c <= '9'
    || c == '-' || c == '_' || JsWhitespace(c)
  }

  /** Whether the whole string matches the pattern (`^...+$`: at least one character, all in the class). */
  predicate Matches(p: Pattern, s: string) {
    match p
    case AnyText => true
    case LocationText => |s| >= 1 && forall i :: 0 <= i < |s| ==> LocationChar(s[i])
  }

  /** Members of `m` that the shape does not declare. */
  function Unknown(m: map<string, Json>, fs: Fields): (r: map<string, Json>)
    ensures r.Keys == m.Keys - Keys(fs)
  {
    map k | k in m && k !in Keys(fs) :: m[k]
  }

  /**
   * `schema.safeParse(v)`. A present value never parses to `undefined`, and
   * `null` is never accepted: `.optional()` admits only `undefined`.
   */
  function Parse(s: Schema, v: Slot): (r: Verdict)
    ensures r.Accepted? && v.Present? ==> r.output.Present?
    ensures v == Present(JNull) ==> r == Rejected
    decreases s, 0
  {
    match s
    case ZString(lo, hi, p) =>
      if v.Present? && v.value.JString? && lo <= |v.value.s| <= hi && Matches(p, v.value.s)
      then Accepted(v) else Rejected
    case ZArray(e, lo, hi) =>
      if v.Present? && v.value.JArray? then
        match ParseItems(e, v.value.items)
        case None => Rejected
        case Some(out) =>
          if lo <= |v.value.items| <= hi then Accepted(Present(JArray(out))) else Rejected
      else Rejected
    case ZRecordAny =>
      if v.Present? && v.value.JObject? then Accepted(v) else Rejected
    case ZOptional(inner) =>
      if v.Absent? then Accepted(Absent) else Parse(inner, v)
    case ZDefault(inner, d) =>
      Parse(inner, if v.Absent? then Present(d) else v)
    case ZObject(fs, mode) =>
      if v.Present? && v.value.JObject? then
        match ParseFields(fs, v.value.members)
        case None => Rejected
        case Some(known) =>
          Accepted(Present(JObject(if mode == Passthrough then Unknown(v.value.members, fs) + known else known)))
      else Rejected
  }

  /** Every element must parse; the output holds the parsed elements in order. */
  function ParseItems(e: Schema, items: seq<Json>): (r: Option<seq<Json>>)
    ensures r.Some? ==> |r.value| == |items|
    decreases e, |items| + 1
  {
    if items == [] then Some([])
    else
      match Parse(e, Present(items[0]))
      case Rejected => None
      case Accepted(o) =>
        match ParseItems(e, items[1..])
        case None => None
        case Some(rest) => Some([o.value] + rest)
  }

  /**
   * Every declared key must parse from the object's member (or `undefined`);
   * the output holds the declared keys whose parsed value is not `undefined`.
   */
  function ParseFields(fs: Fields, m: map<string, Json>): (r: Option<map<string, Json>>)
    ensures r.Some? ==> r.value.Keys <= Keys(fs)
    decreases fs, 0
  {
    match fs
    case NoFields => Some(map[])
    case Field(k, sch, rest) =>
      match Parse(sch, Member(m, k))
      case Rejected => None
      case Accepted(o) =>
        match ParseFields(rest, m)
        case None => None
        case Some(out) => Some(if o.Present? then out[k := o.value] else out)
  }

  /** Schemas whose successful output is their input: no defaults, no stripping. */
  predicate Preserving(s: Schema) {
    match s
    case ZString(_, _, _) => true
    case ZArray(e, _, _) => Preserving(e)
    case ZRecordAny => true
    case ZOptional(inner) => Preserving(inner)
    case ZDefault(_, _) => false
    case ZObject(fs, mode) => mode == Passthrough && PreservingFields(fs)
  }

  predicate PreservingFields(fs: Fields) {
    match fs
    case NoFields => true
    case Field(_, sch, rest) => Preserving(sch) && PreservingFields(rest)
  }

  /** A preserving schema hands back exactly the value it accepted (what `.passthrough()` buys). */
  lemma {:induction false} PreservingParse(s: Schema, v: Slot)
    requires Preserving(s)
    ensures Parse(s, v).Accepted? ==> Parse(s, v).output == v
    decreases s, 0
  {
    match s
    case ZString(_, _, _) =>
    case ZRecordAny =>
    case ZArray(e, _, _) =>
      if v.Present? && v.value.JArray? {
        PreservingItems(e, v.value.items);
      }
    case ZOptional(inner) =>
      if v.Present? {
        PreservingParse(inner, v);
      }
    case ZObject(fs, mode) =>
      if v.Present? && v.value.JObject? && ParseFields(fs, v.value.members).Some? {
        var m := v.value.members;
        var known := ParseFields(fs, m).value;
        PreservingKnown(fs, m);
        assert Unknown(m, fs) + known == m;
      }
  }

  lemma {:induction false} PreservingItems(e: Schema, items: seq<Json>)
    requires Preserving(e)
    ensures ParseItems(e, items).Some? ==> ParseItems(e, items).value == items
    decreases e, |items| + 1
  {
    if items != [] {
      PreservingParse(e, Present(items[0]));
      PreservingItems(e, items[1..]);
    }
  }

  /** The declared part of a preserving object's output is the declared part of its input. */
  lemma {:induction false} PreservingKnown(fs: Fields, m: map<string, Json>)
    requires PreservingFields(fs)
    ensures ParseFields(fs, m).Some? ==>
      var known := ParseFields(fs, m).value;
      && (forall k :: k in known ==> k in m && known[k] == m[k])
      && (forall k :: k in Keys(fs) && k in m ==> k in known)
    decreases fs, 0
  {
    match fs
    case NoFields =>
    case Field(k, sch, rest) =>
      PreservingParse(sch, Member(m, k));
      PreservingKnown(rest, m);
  }

  /** A string within the bounds that matches the pattern: what `ZString(lo, hi, p)` accepts. */
  predicate StringWithin(v: Json, lo: nat, hi: nat, p: Pattern) {
    v.JString? && lo <= |v.s| <= hi && Matches(p, v.s)
  }

  predicate StringsWithin(items: seq<Json>, lo: nat, hi: nat, p: Pattern) {
    forall i :: 0 <= i < |items| ==> StringWithin(items[i], lo, hi, p)
  }

  /** `z.array(z.string()...)` accepts exactly the arrays of such strings, and changes none. */
  lemma {:induction false} StringItems(items: seq<Json>, lo: nat, hi: nat, p: Pattern)
    ensures ParseItems(ZString(lo, hi, p), items) ==
      if StringsWithin(items, lo, hi, p) then Some(items) else None
  {
    if items != [] {
      StringItems(items[1..], lo, hi, p);
      assert [items[0]] + items[1..] == items;
      if !StringsWithin(items[1..], lo, hi, p) {
        var i :| 0 <= i < |items[1..]| && !StringWithin(items[1..][i], lo, hi, p);
        assert !StringWithin(items[i + 1], lo, hi, p);
      }
    }
  }

  /** `z.array(z.record(z.any()))` accepts exactly the arrays of objects, and changes none. */
  lemma {:induction false} ObjectItems(items: seq<Json>)
    ensures ParseItems(ZRecordAny, items) ==
      if forall i :: 0 <= i < |items| ==> items[i].JObject? then Some(items) else None
  {
    if items != [] {
      ObjectItems(items[1..]);
      assert [items[0]] + items[1..] == items;
      if !items[0].JObject? {
        assert !(forall i :: 0 <= i < |items| ==> items[i].JObject?);
      }
      if !(forall i :: 0 <= i < |items[1..]| ==> items[1..][i].JObject?) {
        var i :| 0 <= i < |items[1..]| && !items[1..][i].JObject?;
        assert !items[i + 1].JObject?;
      }
    }
  }

  /** Every declared key parses from the object's member. */
  predicate AllFieldsAccepted(fs: Fields, m: map<string, Json>) {
    match fs
    case NoFields => true
    case Field(k, sch, rest) => Parse(sch, Member(m, k)).Accepted? && AllFieldsAccepted(rest, m)
  }

  /** An object's declared part parses exactly when every declared key does: no key is checked against another. */
  lemma {:induction false} FieldsAccepted(fs: Fields, m: map<string, Json>)
    ensures ParseFields(fs, m).Some? <==> AllFieldsAccepted(fs, m)
  {
    match fs
    case NoFields =>
    case Field(k, sch, rest) => FieldsAccepted(rest, m);
  }

  /** `z.string()...optional()` on a member: absent, or a string within bounds. */
  lemma OptionalString(v: Slot, lo: nat, hi: nat, p: Pattern)
    ensures Parse(ZOptional(ZString(lo, hi, p)), v).Accepted? <==>
      (v.Present? ==> StringWithin(v.value, lo, hi, p))
  {
  }

  /** `z.array(z.string()...).max(n).optional()` on a member: absent, or at most `n` strings within bounds. */
  lemma OptionalStrings(v: Slot, lo: nat, hi: nat, n: nat)
    ensures Parse(ZOptional(ZArray(ZString(lo, hi, AnyText), 0, n)), v).Accepted? <==>
      (v.Present? ==> v.value.JArray? && |v.value.items| <= n && StringsWithin(v.value.items, lo, hi, AnyText))
  {
    if v.Present? && v.value.JArray? {
      StringItems(v.value.items, lo, hi, AnyText);
    }
  }

  /** `z.record(z.any()).optional()` on a member: absent, or an object. */
  lemma OptionalRecord(v: Slot)
    ensures Parse(ZOptional(ZRecordAny), v).Accepted? <==> (v.Present? ==> v.value.JObject?)
  {
  }
}
