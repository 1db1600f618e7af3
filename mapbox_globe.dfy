/**
 * The globe of AI nodes: where a node's region puts it, the colour of its
 * marker, and the neural links drawn between consecutive nodes.
 */
module MapboxGlobe {
  import opened Wrappers

  /** A `[lng, lat]` pair; every listed region has whole-degree coordinates. */
  datatype LngLat = LngLat(lng: int, lat: int)

  const Origin := LngLat(0, 0)

  /** `locationMap`: the ten regions the globe knows. */
  const Regions: map<string, LngLat> := map[
    "US-East" := LngLat(-77, 39),
    "EU-West" := LngLat(2, 48),
    "Asia-Pacific" := LngLat(139, 35),
    "US-West" := LngLat(-122, 37),
    "EU-Central" := LngLat(13, 52),
    "South America" := LngLat(-47, -23),
    "Africa" := LngLat(18, -33),
    "Middle East" := LngLat(51, 25),
    "Australia" := LngLat(151, -33),
    "Canada" := LngLat(-79, 43)
  ]

  /** A point on the globe: longitude within ±180, latitude within ±90. */
  predicate OnGlobe(c: LngLat) {
    -180 <= c.lng <= 180 && -90 <= c.lat <= 90
  }

  /**
   * `getCoordinatesForLocation` as evidently intended: a listed region's
   * coordinates, `[0, 0]` for any other name (a case variant included).
   */
  function CoordinatesFor(location: string): (c: LngLat)
    ensures location in Regions ==> c == Regions[location]
    ensures location !in Regions ==> c == Origin
    ensures OnGlobe(c)
  {
    if location in Regions then Regions[location] else Origin
  }

  /** No listed region sits at `[0, 0]`, so the origin marks exactly the unknown names. */
  lemma OriginMeansUnknown(location: string)
    ensures CoordinatesFor(location) == Origin <==> location !in Regions
  {
    if location in Regions {
      assert Regions[location] != Origin;
    }
  }

  /** Matching is exact: a different spelling of a region is not that region. */
  lemma CaseVariantIsUnknown()
    ensures CoordinatesFor("africa") == Origin && CoordinatesFor("Africa") == LngLat(18, -33)
  {
    assert "africa" !in Regions by {
      assert "africa"[0] != "Africa"[0];
    }
  }

  // --- The lookup as written -----------------------------------------------

  /** What indexing a plain object literal yields in JavaScript. */
  datatype Property =
    | OwnCoordinates(c: LngLat)
    | Inherited(name: string)  // a member of `Object.prototype`: a function or an object, truthy
    | Undefined

  /** The names every plain object inherits from `Object.prototype`. */
  const InheritedNames: set<string> := {
    "constructor", "toString", "toLocaleString", "valueOf", "hasOwnProperty",
    "isPrototypeOf", "propertyIsEnumerable", "__proto__",
    "__defineGetter__", "__defineSetter__", "__lookupGetter__", "__lookupSetter__"
  }

  /** `locationMap[location]`: own entries first, then the prototype chain. */
  function LookupAsWritten(location: string): (p: Property)
    ensures p.OwnCoordinates? <==> location in Regions
    ensures p.Undefined? <==> location !in Regions && location !in InheritedNames
  {
    if location in Regions then OwnCoordinates(Regions[location])
    else if location in InheritedNames then Inherited(location)
    else Undefined
  }

  /** `locationMap[location] || [0, 0]`: only `undefined` falls through to the default. */
  function CoordinatesAsWritten(location: string): (p: Property)
    ensures p.Undefined? == false
    ensures p.Inherited? <==> location in InheritedNames && location !in Regions
  {
    match LookupAsWritten(location)
    case Undefined => OwnCoordinates(Origin)
    case other => other
  }

  /** Off the prototype's names, the lookup as written and the intended one agree. */
  lemma AsWrittenAgrees(location: string)
    requires location !in InheritedNames
    ensures CoordinatesAsWritten(location) == OwnCoordinates(CoordinatesFor(location))
  {
  }

  /** A node in region "toString" gets a function where its coordinates should be. */
  lemma InheritedNameEscapes()
    ensures CoordinatesAsWritten("toString") == Inherited("toString")
    ensures CoordinatesFor("toString") == Origin
  {
    assert "toString" !in Regions by {
      assert forall r :: r in Regions ==> r[0] != 't';
    }
  }

  // --- Markers and links ------------------------------------------------------

  datatype AiNode = AiNode(name: string, location: string, status: string)

  const ActiveColor := "#00ff80"
  const IdleColor := "#ff00ff"

  /** A marker's colour: green for an active node, magenta for every other status. */
  function MarkerColor(status: string): (color: string)
    ensures color == ActiveColor <==> status == "Active"
    ensures color == IdleColor <==> status != "Active"
  {
    if status == "Active" then ActiveColor else IdleColor
  }

  /** One neural link: a `[start, end]` line. */
  datatype Segment = Segment(start: LngLat, end: LngLat)

  /**
   * The neural links: none at all for at most one node; otherwise one per
   * consecutive pair of nodes, in order, so that the links form one chain.
   */
  method NeuralLinks(nodes: seq<AiNode>) returns (links: Option<seq<Segment>>)
    ensures links.None? <==> |nodes| <= 1
    ensures links.Some? ==> |links.value| == |nodes| - 1
    ensures links.Some? ==> forall i :: 0 <= i < |links.value| ==>
      links.value[i] == Segment(CoordinatesFor(nodes[i].location), CoordinatesFor(nodes[i + 1].location))
    ensures links.Some? ==> forall i :: 0 < i < |links.value| ==> links.value[i - 1].end == links.value[i].start
  {
    if |nodes| <= 1 {
      return None;
    }
    var lines: seq<Segment> := [];
    for i := 0 to |nodes| - 1
      invariant |lines| == i
      invariant forall j :: 0 <= j < i ==>
        lines[j] == Segment(CoordinatesFor(nodes[j].location), CoordinatesFor(nodes[j + 1].location))
      invariant forall j :: 0 < j < i ==> lines[j - 1].end == lines[j].start
    {
      var start := CoordinatesFor(nodes[i].location);
      var end := CoordinatesFor(nodes[i + 1].location);
      lines := lines + [Segment(start, end)];
    }
    return Some(lines);
  }
}
