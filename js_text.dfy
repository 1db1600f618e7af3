/**
 * The few JavaScript string operations the modelled code relies on:
 * `s.split(c)` for a one-character separator, `s.includes(p)`,
 * `s.startsWith(p)` and the decimal rendering of a non-negative integer.
 * A Dafny `char` is one Unicode scalar value; JavaScript counts UTF-16 code
 * units, so the two agree on the Basic Multilingual Plane only.
 */
module JsText {

  /** `p` occurs in `s` at position 0. */
  predicate StartsWith(s: string, p: string) {
    |p| <= |s| && s[..|p|] == p
  }

  /** `s.includes(p)`: `p` occurs somewhere in `s`. */
  predicate Includes(s: string, p: string)
    decreases |s|
  {
    StartsWith(s, p) || (|s| > 0 && Includes(s[1..], p))
  }

  /** `p` occurs in `s` starting at index `i`. */
  predicate OccursAt(s: string, p: string, i: int) {
    0 <= i && i + |p| <= |s| && s[i..i + |p|] == p
  }

  /** `Includes` agrees with the positional reading of "occurs somewhere". */
  lemma {:induction false} IncludesAt(s: string, p: string)
    ensures Includes(s, p) <==> exists i :: OccursAt(s, p, i)
    decreases |s|
  {
    if StartsWith(s, p) {
      assert OccursAt(s, p, 0);
    } else if |s| > 0 {
      IncludesAt(s[1..], p);
      if exists i :: OccursAt(s, p, i) {
        var i :| OccursAt(s, p, i);
        assert i > 0;
        assert s[1..][i - 1..i - 1 + |p|] == s[i..i + |p|];
        assert OccursAt(s[1..], p, i - 1);
      }
      if Includes(s[1..], p) {
        var i :| OccursAt(s[1..], p, i);
        assert s[i + 1..i + 1 + |p|] == s[1..][i..i + |p|];
        assert OccursAt(s, p, i + 1);
      }
    }
  }

  /** A text shorter than `p` cannot contain it. */
  lemma {:induction false} IncludesShorter(s: string, p: string)
    requires |s| < |p|
    ensures !Includes(s, p)
    decreases |s|
  {
    if |s| > 0 {
      IncludesShorter(s[1..], p);
    }
  }

  /** Between texts of one length, containing is being equal. */
  lemma IncludesSameLength(s: string, p: string)
    requires |s| == |p|
    ensures Includes(s, p) <==> s == p
  {
    if |s| > 0 {
      IncludesShorter(s[1..], p);
    }
  }

  /** Texts of one length that differ at some index do not contain each other. */
  lemma DiffersSameLength(s: string, p: string, k: nat)
    requires |s| == |p| && k < |s| && s[k] != p[k]
    ensures !Includes(s, p)
  {
    IncludesSameLength(s, p);
  }

  /** The pieces of `s.join(sep)` put back together. */
  function Join(parts: seq<string>, sep: char): (s: string)
    requires |parts| >= 1
  {
    if |parts| == 1 then parts[0] else parts[0] + [sep] + Join(parts[1..], sep)
  }

  /** `s.split(sep)`: the maximal runs between occurrences of `sep`; one more piece than separators. */
  function Split(s: string, sep: char): (parts: seq<string>)
    ensures |parts| >= 1
    ensures forall i :: 0 <= i < |parts| ==> sep !in parts[i]
    ensures Join(parts, sep) == s
    ensures |parts| == Count(s, sep) + 1
  {
    if s == [] then [""]
    else
      var rest := Split(s[1..], sep);
      if s[0] == sep then [""] + rest
      else
        var r := [[s[0]] + rest[0]] + rest[1..];
        assert r[1..] == rest[1..];
        r
  }

  /** Number of occurrences of `c` in `s`. */
  function Count(s: string, c: char): nat {
    if s == [] then 0 else (if s[0] == c then 1 else 0) + Count(s[1..], c)
  }

  /** How `Split` treats the first character. */
  lemma SplitCons(c: char, s: string, sep: char)
    ensures c == sep ==> Split([c] + s, sep) == [""] + Split(s, sep)
    ensures c != sep ==> Split([c] + s, sep) == [[c] + Split(s, sep)[0]] + Split(s, sep)[1..]
  {
    assert ([c] + s)[1..] == s;
  }

  /** Splitting what was joined gives back the pieces, provided no piece holds the separator. */
  lemma {:induction false} SplitJoin(parts: seq<string>, sep: char)
    requires |parts| >= 1
    requires forall i :: 0 <= i < |parts| ==> sep !in parts[i]
    ensures Split(Join(parts, sep), sep) == parts
    decreases |parts|, |parts[0]|
  {
    if |parts| == 1 {
      SplitNoSeparator(parts[0], sep);
    } else if parts[0] == [] {
      var tail := parts[1..];
      SplitJoin(tail, sep);
      SplitJoinEmptyHead(tail, sep);
      assert parts == [""] + tail;
    } else {
      var shorter := [parts[0][1..]] + parts[1..];
      assert shorter[1..] == parts[1..];
      assert forall i :: 0 <= i < |shorter| ==> sep !in shorter[i];
      SplitJoin(shorter, sep);
      SplitJoinLongerHead(parts[0][0], shorter, sep);
      assert [parts[0][0]] + shorter[0] == parts[0];
      assert [[parts[0][0]] + shorter[0]] + shorter[1..] == parts;
    }
  }

  /** The step of `SplitJoin` for an empty first piece. */
  lemma SplitJoinEmptyHead(tail: seq<string>, sep: char)
    requires |tail| >= 1
    requires Split(Join(tail, sep), sep) == tail
    ensures Split(Join([""] + tail, sep), sep) == [""] + tail
  {
    var parts := [""] + tail;
    assert parts[1..] == tail;
    assert Join(parts, sep) == [sep] + Join(tail, sep);
    SplitCons(sep, Join(tail, sep), sep);
  }

  /** The step of `SplitJoin` for a first piece that starts with `c`. */
  lemma SplitJoinLongerHead(c: char, shorter: seq<string>, sep: char)
    requires |shorter| >= 1 && c != sep
    requires Split(Join(shorter, sep), sep) == shorter
    ensures Split(Join([[c] + shorter[0]] + shorter[1..], sep), sep) == [[c] + shorter[0]] + shorter[1..]
  {
    var parts := [[c] + shorter[0]] + shorter[1..];
    assert parts[1..] == shorter[1..];
    if |shorter| == 1 {
      assert Join(parts, sep) == [c] + Join(shorter, sep);
    } else {
      assert Join(shorter, sep) == shorter[0] + [sep] + Join(shorter[1..], sep);
      assert Join(parts, sep) == [c] + Join(shorter, sep);
    }
    SplitCons(c, Join(shorter, sep), sep);
  }

  lemma {:induction false} SplitNoSeparator(s: string, sep: char)
    requires sep !in s
    ensures Split(s, sep) == [s]
  {
    if s != [] {
      SplitNoSeparator(s[1..], sep);
      assert [s[0]] + s[1..] == s;
    }
  }

  function Digit(d: nat): (c: char)
    requires d < 10
  {
    "0123456789"[d]
  }

  /** `String(n)` / template interpolation of a non-negative integer, in decimal without leading zeros. */
  function NatToString(n: nat): (s: string)
    ensures |s| >= 1
    ensures n >= 10 ==> |s| >= 2
    ensures s[|s| - 1] == Digit(n % 10)
    decreases n
  {
    if n < 10 then [Digit(n)] else NatToString(n / 10) + [Digit(n % 10)]
  }

  /** Different numbers render differently, so `data-${i}` identifiers are distinct. */
  lemma {:induction false} NatToStringInjective(m: nat, n: nat)
    requires NatToString(m) == NatToString(n)
    ensures m == n
    decreases m
  {
    var s := NatToString(m);
    assert Digit(m % 10) == Digit(n % 10);
    assert m % 10 == n % 10;
    if m >= 10 && n >= 10 {
      assert NatToString(m / 10) == s[..|s| - 1] == NatToString(n / 10);
      NatToStringInjective(m / 10, n / 10);
    }
  }
}
