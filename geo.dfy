/** The boundary engine of geo_utils.py: ray casting on one ring, the
    exterior-minus-holes rule for a ring group, the any-group rule for a
    MultiPolygon, the dispatch on the geometry type, and the inclusive
    bounding box used when no geometry is available.

    Coordinates are exact reals; a query point is `(x, y)` =
    `(longitude, latitude)`, as GeoJSON orders a vertex `[lon, lat]`. */
module GeoUtils {
  import opened Common
  import opened JsonValue

  // ---------------------------------------------------------------------
  // Vertices as the ring test reads them

  /** A ring vertex after `p2x, p2y = polygon[i % n]`. Every vertex's `y`
      takes part in a comparison, so it must be a number; its `x` is only
      compared for edges that straddle the query's `y`, so a non-number
      there (None) raises only when such an edge is tested. */
  datatype Vertex = Vertex(x: Option<real>, y: real)

  /** A JSON value compared as a Python number (booleans are 0 and 1). */
  function Number(j: Json): (r: Option<real>)
    ensures j.JNum? ==> r == Some(j.n)
    ensures r.Some? <==> j.JNum? || j.JBool?
  {
    match j
    case JNum(n) => Some(n)
    case JBool(b) => Some(if b then 1.0 else 0.0)
    case _ => None
  }

  /** Unpacking a vertex into two names needs exactly two elements; a
      string or dict of length two unpacks too, but then its `y` is a
      string and the first comparison raises, so only lists get through. */
  function DecodeVertex(j: Json): (r: Outcome<Vertex>)
    ensures r.Value? <==> j.JArr? && |j.items| == 2 && Number(j.items[1]).Some?
    ensures r.Value? ==> r.value == Vertex(Number(j.items[0]), Number(j.items[1]).value)
  {
    if j.JArr? && |j.items| == 2 && Number(j.items[1]).Some? then
      Value(Vertex(Number(j.items[0]), Number(j.items[1]).value))
    else Raised
  }

  /** A ring as `_point_in_polygon` walks it: a non-empty list (it reads
      `polygon[0]` first) whose every vertex unpacks. */
  function DecodeRing(j: Json): (r: Outcome<seq<Vertex>>)
    ensures r.Value? <==> j.JArr? && j.items != [] && forall i :: 0 <= i < |j.items| ==> DecodeVertex(j.items[i]).Value?
    ensures r.Value? ==> |r.value| == |j.items| && forall i :: 0 <= i < |j.items| ==> Value(r.value[i]) == DecodeVertex(j.items[i])
  {
    if j.JArr? && j.items != [] && forall i :: 0 <= i < |j.items| ==> DecodeVertex(j.items[i]).Value? then
      Value(seq(|j.items|, i requires 0 <= i < |j.items| && DecodeVertex(j.items[i]).Value? => DecodeVertex(j.items[i]).value))
    else Raised
  }

  /** The JSON ring `[[x0, y0], [x1, y1], ...]`. */
  function RingJson(coords: seq<(real, real)>): (j: Json)
    ensures j.JArr? && |j.items| == |coords|
  {
    JArr(seq(|coords|, i requires 0 <= i < |coords| => JArr([JNum(coords[i].0), JNum(coords[i].1)])))
  }

  /** Decoding a ring written as numeric pairs gives back those pairs. */
  lemma DecodeRingJson(coords: seq<(real, real)>)
    requires coords != []
    ensures DecodeRing(RingJson(coords)).Value?
    ensures var ring := DecodeRing(RingJson(coords)).value;
            |ring| == |coords| && forall i :: 0 <= i < |coords| ==> ring[i] == Vertex(Some(coords[i].0), coords[i].1)
  {
    var j := RingJson(coords);
    forall i | 0 <= i < |coords|
      ensures DecodeVertex(j.items[i]) == Value(Vertex(Some(coords[i].0), coords[i].1))
    {
      assert j.items[i] == JArr([JNum(coords[i].0), JNum(coords[i].1)]);
    }
  }

  // ---------------------------------------------------------------------
  // The crossing test and its parity

  function Min(a: real, b: real): real { if a <= b then a else b }
  function Max(a: real, b: real): real { if a >= b then a else b }

  /** One step of the ray cast for the edge p1 -> p2: does the horizontal
      ray from (x, y) towards +x cross it? The intersection abscissa is
      +inf for a horizontal edge; a non-numeric `x` raises once it is read. */
  function Crosses(p1: Vertex, p2: Vertex, x: real, y: real): (r: Outcome<bool>)
    ensures r == Value(true) ==> Min(p1.y, p2.y) < y <= Max(p1.y, p2.y)
    ensures r.Raised? ==> Min(p1.y, p2.y) < y <= Max(p1.y, p2.y) && (p1.x.None? || p2.x.None?)
    ensures p1.y == p2.y ==> r == Value(false)
  {
    if !(y > Min(p1.y, p2.y)) then Value(false)
    else if !(y <= Max(p1.y, p2.y)) then Value(false)
    else if p1.x.None? || p2.x.None? then Raised
    else
      var x1, x2 := p1.x.value, p2.x.value;
      if !(x <= Max(x1, x2)) then Value(false)
      else
        var xinters := if p1.y != p2.y then Finite((y - p1.y) * (x2 - x1) / (p2.y - p1.y) + x1) else PosInf;
        Value(x1 == x2 || !FloatLess(xinters, Finite(x)))
  }

  /** `i % n` for 1 <= i <= n: the next vertex, wrapping to 0 after the last. */
  function Wrap(i: int, n: int): (j: int)
    requires 1 <= i <= n
    ensures 0 <= j < n && j == i % n
  {
    if i < n then i else 0
  }

  /** Edge `i` (1 <= i <= n) joins vertex i - 1 to vertex i mod n, so the
      last edge closes the ring back to vertex 0. */
  function EdgeCrosses(ring: seq<Vertex>, x: real, y: real, i: int): Outcome<bool>
    requires 1 <= i <= |ring|
  {
    Crosses(ring[i - 1], ring[Wrap(i, |ring|)], x, y)
  }

  /** Some edge among 1..k raises. */
  predicate EdgeRaises(ring: seq<Vertex>, x: real, y: real, k: int)
    requires k <= |ring|
  {
    exists i :: 1 <= i <= k && EdgeCrosses(ring, x, y, i).Raised?
  }

  /** How many of the edges 1..k the ray crosses. */
  function CrossCount(ring: seq<Vertex>, x: real, y: real, k: nat): (c: nat)
    requires k <= |ring|
    ensures c <= k
  {
    if k == 0 then 0
    else CrossCount(ring, x, y, k - 1) + (if EdgeCrosses(ring, x, y, k) == Value(true) then 1 else 0)
  }

  /** The ray-casting verdict: inside exactly when the ray crosses an odd
      number of the ring's n edges; raised when some edge raises. */
  function InsideRing(ring: seq<Vertex>, x: real, y: real): Outcome<bool>
    requires ring != []
  {
    if EdgeRaises(ring, x, y, |ring|) then Raised
    else Value(CrossCount(ring, x, y, |ring|) % 2 == 1)
  }

  /** `_point_in_polygon` on a JSON ring. */
  function PointInRing(x: real, y: real, polygon: Json): Outcome<bool>
  {
    match DecodeRing(polygon)
    case Raised => Raised
    case Value(ring) => InsideRing(ring, x, y)
  }

  /** `_point_in_polygon`: read the ring, then walk its edges. */
  method PointInPolygon(x: real, y: real, polygon: Json) returns (r: Outcome<bool>)
    ensures r == PointInRing(x, y, polygon)
  {
    var decoded := DecodeRing(polygon);
    if decoded.Raised? {
      return Raised;
    }
    r := CastRay(decoded.value, x, y);
  }

  /** The loop of `_point_in_polygon`: carry the previous vertex and
      toggle `inside` on each crossing edge. */
  method CastRay(ring: seq<Vertex>, x: real, y: real) returns (r: Outcome<bool>)
    requires ring != []
    ensures r == InsideRing(ring, x, y)
  {
    var n := |ring|;
    var inside := false;
    var p1 := ring[0];
    for i := 1 to n + 1
      invariant i <= n ==> p1 == ring[i - 1]
      invariant forall j :: 1 <= j < i ==> EdgeCrosses(ring, x, y, j).Value?
      invariant inside <==> CrossCount(ring, x, y, i - 1) % 2 == 1
    {
      var p2 := ring[Wrap(i, n)];
      var crossing := Crosses(p1, p2, x, y);
      assert crossing == EdgeCrosses(ring, x, y, i);
      CrossCountParityStep(ring, x, y, i);
      if crossing.Raised? {
        return Raised;
      }
      if crossing.value {
        inside := !inside;
      }
      p1 := p2;
    }
    return Value(inside);
  }

  /** Counting one more edge flips the parity exactly when that edge crosses. */
  lemma CrossCountParityStep(ring: seq<Vertex>, x: real, y: real, i: nat)
    requires 1 <= i <= |ring|
    ensures (CrossCount(ring, x, y, i) % 2 == 1) <==>
            ((CrossCount(ring, x, y, i - 1) % 2 == 1) != (EdgeCrosses(ring, x, y, i) == Value(true)))
  {
  }

  /** No edge crosses: the count is zero. */
  lemma {:induction false} NoCrossingMeansZero(ring: seq<Vertex>, x: real, y: real, k: nat)
    requires k <= |ring|
    requires forall i :: 1 <= i <= k ==> EdgeCrosses(ring, x, y, i) == Value(false)
    ensures CrossCount(ring, x, y, k) == 0
  {
    if k > 0 {
      NoCrossingMeansZero(ring, x, y, k - 1);
    }
  }

  /** No edge raises and none crosses: the ring reports the point outside. */
  lemma OutsideWhenNoEdgeCrosses(ring: seq<Vertex>, x: real, y: real)
    requires ring != []
    requires forall i :: 1 <= i <= |ring| ==> EdgeCrosses(ring, x, y, i) == Value(false)
    ensures InsideRing(ring, x, y) == Value(false)
  {
    NoCrossingMeansZero(ring, x, y, |ring|);
  }

  /** A query at or below every vertex's y is outside (the test needs
      `y > min(p1y, p2y)`), and so is one above every vertex's y. */
  lemma OutsideBelowOrAboveAllVertices(ring: seq<Vertex>, x: real, y: real)
    requires ring != []
    requires (forall i :: 0 <= i < |ring| ==> y <= ring[i].y) || (forall i :: 0 <= i < |ring| ==> y > ring[i].y)
    ensures InsideRing(ring, x, y) == Value(false)
  {
    forall i | 1 <= i <= |ring|
      ensures EdgeCrosses(ring, x, y, i) == Value(false)
    {
      var a, b := ring[i - 1], ring[i % |ring|];
      assert y <= a.y || y > Max(a.y, b.y);
    }
    OutsideWhenNoEdgeCrosses(ring, x, y);
  }

  /** A query right of every (numeric) vertex x is outside. */
  lemma OutsideRightOfAllVertices(ring: seq<Vertex>, x: real, y: real)
    requires ring != []
    requires forall i :: 0 <= i < |ring| ==> ring[i].x.Some? && x > ring[i].x.value
    ensures InsideRing(ring, x, y) == Value(false)
  {
    forall i | 1 <= i <= |ring|
      ensures EdgeCrosses(ring, x, y, i) == Value(false)
    {
      var a, b := ring[i - 1], ring[i % |ring|];
      assert x > Max(a.x.value, b.x.value);
    }
    OutsideWhenNoEdgeCrosses(ring, x, y);
  }

  /** The axis-aligned rectangle [x0, x1] x [y0, y1], counter-clockwise
      from its lower-left corner. */
  function Rectangle(x0: real, y0: real, x1: real, y1: real): (r: seq<(real, real)>)
    ensures |r| == 4
  {
    [(x0, y0), (x1, y0), (x1, y1), (x0, y1)]
  }

  /** A point strictly inside a rectangle is inside: of the four edges only
      the right side crosses the ray. */
  lemma RectangleInterior(x0: real, y0: real, x1: real, y1: real, x: real, y: real)
    requires x0 < x < x1 && y0 < y < y1
    ensures PointInRing(x, y, RingJson(Rectangle(x0, y0, x1, y1))) == Value(true)
  {
    var coords := Rectangle(x0, y0, x1, y1);
    DecodeRingJson(coords);
    var ring := DecodeRing(RingJson(coords)).value;
    assert ring == [Vertex(Some(x0), y0), Vertex(Some(x1), y0), Vertex(Some(x1), y1), Vertex(Some(x0), y1)];
    assert EdgeCrosses(ring, x, y, 1) == Value(false);
    assert EdgeCrosses(ring, x, y, 2) == Value(true);
    assert EdgeCrosses(ring, x, y, 3) == Value(false);
    assert EdgeCrosses(ring, x, y, 4) == Value(false);
    assert CrossCount(ring, x, y, 1) == 0;
    assert CrossCount(ring, x, y, 2) == 1;
    assert CrossCount(ring, x, y, 3) == 1;
    assert CrossCount(ring, x, y, 4) == 1;
    assert !EdgeRaises(ring, x, y, 4) by {
      forall i | 1 <= i <= 4
        ensures EdgeCrosses(ring, x, y, i).Value?
      {
      }
    }
  }

  /** The unit square, counter-clockwise. */
  const UNIT_SQUARE: seq<(real, real)> := Rectangle(0.0, 0.0, 1.0, 1.0)

  /** The centre of the unit square is inside (one crossing, the right
      side); a point to its right and a point on its bottom edge are not. */
  lemma UnitSquareExamples()
    ensures PointInRing(0.5, 0.5, RingJson(UNIT_SQUARE)) == Value(true)
    ensures PointInRing(2.0, 0.5, RingJson(UNIT_SQUARE)) == Value(false)
    ensures PointInRing(0.5, 0.0, RingJson(UNIT_SQUARE)) == Value(false)
  {
    RectangleInterior(0.0, 0.0, 1.0, 1.0, 0.5, 0.5);
    DecodeRingJson(UNIT_SQUARE);
    var ring := DecodeRing(RingJson(UNIT_SQUARE)).value;
    OutsideRightOfAllVertices(ring, 2.0, 0.5);
    OutsideBelowOrAboveAllVertices(ring, 0.5, 0.0);
  }

  // ---------------------------------------------------------------------
  // Ring groups (exterior + holes) and MultiPolygons

  /** The point lies in one of the given holes, scanning them in order and
      stopping at the first that contains it (the `break`). */
  function InAnyHole(x: real, y: real, holes: seq<Json>): Outcome<bool>
  {
    if holes == [] then Value(false)
    else
      match PointInRing(x, y, holes[0])
      case Raised => Raised
      case Value(inHole) => if inHole then Value(true) else InAnyHole(x, y, holes[1..])
  }

  /** One ring group: an empty (falsy) group is skipped; otherwise its
      first ring is the exterior and the rest are holes. */
  function InGroup(x: real, y: real, group: Json): Outcome<bool>
  {
    if !Truthy(group) then Value(false)
    else if !group.JArr? then Raised
    else
      match PointInRing(x, y, group.items[0])
      case Raised => Raised
      case Value(inExterior) =>
        if !inExterior then Value(false)
        else
          match InAnyHole(x, y, group.items[1..])
          case Raised => Raised
          case Value(inHole) => Value(!inHole)
  }

  /** Groups scanned in order until one contains the point. */
  function InAnyGroup(x: real, y: real, groups: seq<Json>): Outcome<bool>
  {
    if groups == [] then Value(false)
    else
      match InGroup(x, y, groups[0])
      case Raised => Raised
      case Value(inside) => if inside then Value(true) else InAnyGroup(x, y, groups[1..])
  }

  /** `_point_in_multipolygon` on a JSON value. */
  function InMultipolygon(x: real, y: real, multipolygon: Json): Outcome<bool>
  {
    match PyIter(multipolygon)
    case Raised => Raised
    case Value(groups) => InAnyGroup(x, y, groups)
  }

  /** When no hole test raises, the point is in some hole exactly when one
      of the holes contains it. */
  lemma {:induction false} InAnyHoleIsExists(x: real, y: real, holes: seq<Json>)
    requires forall i :: 0 <= i < |holes| ==> PointInRing(x, y, holes[i]).Value?
    ensures InAnyHole(x, y, holes) == Value(exists i :: 0 <= i < |holes| && PointInRing(x, y, holes[i]) == Value(true))
  {
    if holes != [] {
      var rest := holes[1..];
      assert forall i :: 0 <= i < |rest| ==> rest[i] == holes[i + 1];
      InAnyHoleIsExists(x, y, rest);
      if PointInRing(x, y, holes[0]) == Value(false) {
        if exists i :: 0 <= i < |rest| && PointInRing(x, y, rest[i]) == Value(true) {
          var i :| 0 <= i < |rest| && PointInRing(x, y, rest[i]) == Value(true);
          assert PointInRing(x, y, holes[i + 1]) == Value(true);
        }
        if exists i :: 0 <= i < |holes| && PointInRing(x, y, holes[i]) == Value(true) {
          var i :| 0 <= i < |holes| && PointInRing(x, y, holes[i]) == Value(true);
          assert PointInRing(x, y, rest[i - 1]) == Value(true);
        }
      }
    }
  }

  /** A group holds the point exactly when it is a non-empty list whose
      exterior ring contains the point and none of whose holes do. */
  lemma InGroupIsExteriorMinusHoles(x: real, y: real, group: Json)
    requires group.JArr? && group.items != []
    requires forall i :: 0 <= i < |group.items| ==> PointInRing(x, y, group.items[i]).Value?
    ensures InGroup(x, y, group) == Value(
              PointInRing(x, y, group.items[0]) == Value(true) &&
              forall i :: 1 <= i < |group.items| ==> PointInRing(x, y, group.items[i]) == Value(false))
  {
    var holes := group.items[1..];
    assert forall i :: 0 <= i < |holes| ==> holes[i] == group.items[i + 1];
    InAnyHoleIsExists(x, y, holes);
    if exists i :: 1 <= i < |group.items| && PointInRing(x, y, group.items[i]) == Value(true) {
      var i :| 1 <= i < |group.items| && PointInRing(x, y, group.items[i]) == Value(true);
      assert holes[i - 1] == group.items[i];
    }
  }

  /** When no group raises, a MultiPolygon list holds the point exactly when
      some group holds it. */
  lemma {:induction false} InAnyGroupIsExists(x: real, y: real, groups: seq<Json>)
    requires forall i :: 0 <= i < |groups| ==> InGroup(x, y, groups[i]).Value?
    ensures InAnyGroup(x, y, groups) == Value(exists i :: 0 <= i < |groups| && InGroup(x, y, groups[i]) == Value(true))
  {
    if groups != [] {
      var rest := groups[1..];
      assert forall i :: 0 <= i < |rest| ==> rest[i] == groups[i + 1];
      InAnyGroupIsExists(x, y, rest);
      if InGroup(x, y, groups[0]) == Value(false) {
        if exists i :: 0 <= i < |rest| && InGroup(x, y, rest[i]) == Value(true) {
          var i :| 0 <= i < |rest| && InGroup(x, y, rest[i]) == Value(true);
          assert InGroup(x, y, groups[i + 1]) == Value(true);
        }
        if exists i :: 0 <= i < |groups| && InGroup(x, y, groups[i]) == Value(true) {
          var i :| 0 <= i < |groups| && InGroup(x, y, groups[i]) == Value(true);
          assert InGroup(x, y, rest[i - 1]) == Value(true);
        }
      }
    }
  }

  /** Empty groups are skipped: they never hold the point and never raise. */
  lemma EmptyGroupSkipped(x: real, y: real, groups: seq<Json>)
    ensures InAnyGroup(x, y, [JArr([])] + groups) == InAnyGroup(x, y, groups)
  {
    assert ([JArr([])] + groups)[1..] == groups;
  }

  /** The hole loop over `rings[1:]`: stop at the first ring holding the
      point (the `break`), and raise when a ring test raises. */
  method HoleScan(x: real, y: real, rings: seq<Json>) returns (r: Outcome<bool>)
    requires rings != []
    ensures r == InAnyHole(x, y, rings[1..])
  {
    var i := 1;
    while i < |rings|
      invariant 1 <= i <= |rings|
      invariant InAnyHole(x, y, rings[1..]) == InAnyHole(x, y, rings[i..])
    {
      assert rings[i..][1..] == rings[i + 1..];
      var inRing := PointInPolygon(x, y, rings[i]);
      if inRing.Raised? {
        return Raised;
      }
      if inRing.value {
        return Value(true);
      }
      i := i + 1;
    }
    return Value(false);
  }

  /** `_point_in_multipolygon`: the group loop with its early return, and
      inside it the hole loop. */
  method PointInMultipolygon(x: real, y: real, multipolygon: Json) returns (r: Outcome<bool>)
    ensures r == InMultipolygon(x, y, multipolygon)
  {
    var iterated := PyIter(multipolygon);
    if iterated.Raised? {
      return Raised;
    }
    var groups := iterated.value;
    var k := 0;
    while k < |groups|
      invariant 0 <= k <= |groups|
      invariant InAnyGroup(x, y, groups) == InAnyGroup(x, y, groups[k..])
    {
      assert groups[k..][1..] == groups[k + 1..];
      var polygonGroup := groups[k];
      if !Truthy(polygonGroup) {
        k := k + 1;
        continue;
      }
      if !polygonGroup.JArr? {
        return Raised;
      }
      var inExterior := PointInPolygon(x, y, polygonGroup.items[0]);
      if inExterior.Raised? {
        return Raised;
      }
      if inExterior.value {
        var inHole := HoleScan(x, y, polygonGroup.items);
        if inHole.Raised? {
          return Raised;
        }
        if !inHole.value {
          return Value(true);
        }
      }
      k := k + 1;
    }
    return Value(false);
  }

  // ---------------------------------------------------------------------
  // The bounding box, the loaded geometry and the dispatch

  /** `_is_in_brazil_bbox`. */
  predicate IsInBrazilBbox(latitude: real, longitude: real)
  {
    -33.75 <= latitude <= 5.27 && -73.99 <= longitude <= -28.83
  }

  /** The box is closed: all four corners are in, and a point any
      positive distance past one side (with the other coordinate inside)
      is out. */
  lemma BboxIsInclusive(d: real)
    requires d > 0.0
    ensures IsInBrazilBbox(-33.75, -73.99) && IsInBrazilBbox(-33.75, -28.83)
    ensures IsInBrazilBbox(5.27, -73.99) && IsInBrazilBbox(5.27, -28.83)
    ensures !IsInBrazilBbox(-33.75 - d, -50.0) && !IsInBrazilBbox(5.27 + d, -50.0)
    ensures !IsInBrazilBbox(-10.0, -73.99 - d) && !IsInBrazilBbox(-10.0, -28.83 + d)
  {
  }

  /** Rio de Janeiro, São Paulo and Brasília are in the box; points south,
      north, west and east of it are not. */
  lemma BboxExamples()
    ensures IsInBrazilBbox(-22.9068, -43.1729) && IsInBrazilBbox(-23.5505, -46.6333)
    ensures IsInBrazilBbox(-15.7939, -47.8828)
    ensures !IsInBrazilBbox(-35.0, -50.0) && !IsInBrazilBbox(10.0, -50.0)
    ensures !IsInBrazilBbox(-15.0, -80.0) && !IsInBrazilBbox(-15.0, -20.0)
  {
  }

  /** The selection part of `_load_brazil_geometry` on the parsed file
      (None: the file is missing or is not JSON). Any exception inside
      (a document that is not a dict, a `features` that cannot be indexed
      by 0, a first feature that is not a dict) also gives None. */
  function LoadBrazilGeometry(doc: Option<Json>): (r: Option<Json>)
    ensures r.Some? ==> Truthy(r.value)
  {
    if doc.None? || !doc.value.JObj? then None
    else
      var fields := doc.value.fields;
      var features := Lookup(fields, "features");
      if Lookup(fields, "type") != Some(JStr("FeatureCollection")) || features.None? || !Truthy(features.value) then None
      else if !features.value.JArr? then None
      else
        var feature := features.value.items[0];
        if !feature.JObj? then None
        else
          match Lookup(feature.fields, "geometry")
          case Some(g) => if Truthy(g) then Some(g) else None
          case None => None
  }

  /** Any FeatureCollection document whose first feature is a dict yields
      that feature's `geometry` when it is present and truthy, and None
      otherwise; the document's and the feature's other keys play no part. */
  lemma LoadBrazilGeometrySelects(doc: Json, first: Json, rest: seq<Json>)
    requires doc.JObj? && Lookup(doc.fields, "type") == Some(JStr("FeatureCollection"))
    requires Lookup(doc.fields, "features") == Some(JArr([first] + rest))
    requires first.JObj?
    ensures var g := Lookup(first.fields, "geometry");
            LoadBrazilGeometry(Some(doc)) == if g.Some? && Truthy(g.value) then g else None
  {
  }

  /** The failure paths: no file (or not JSON), a document that is not a
      dict, a type other than FeatureCollection, missing or empty
      `features`, `features` that is not a list, and a first feature that
      is not a dict each give None. */
  lemma LoadBrazilGeometryRejects(doc: Json, first: Json, rest: seq<Json>)
    ensures LoadBrazilGeometry(None).None?
    ensures !doc.JObj? ==> LoadBrazilGeometry(Some(doc)).None?
    ensures doc.JObj? && Lookup(doc.fields, "type") != Some(JStr("FeatureCollection")) ==>
              LoadBrazilGeometry(Some(doc)).None?
    ensures doc.JObj? && (Lookup(doc.fields, "features").None? || !Truthy(Lookup(doc.fields, "features").value)) ==>
              LoadBrazilGeometry(Some(doc)).None?
    ensures doc.JObj? && Lookup(doc.fields, "features").Some? && !Lookup(doc.fields, "features").value.JArr? ==>
              LoadBrazilGeometry(Some(doc)).None?
    ensures doc.JObj? && Lookup(doc.fields, "features") == Some(JArr([first] + rest)) && !first.JObj? ==>
              LoadBrazilGeometry(Some(doc)).None?
  {
  }

  /** A GeoJSON feature as the boundary file writes it. */
  function Feature(properties: Json, geometry: Json): Json
  {
    JObj([("type", JStr("Feature")), ("properties", properties), ("geometry", geometry)])
  }

  /** A FeatureCollection of such features, with its own `type` and `name`. */
  function FeatureCollection(name: string, features: seq<Json>): Json
  {
    JObj([("type", JStr("FeatureCollection")), ("name", JStr(name)), ("features", JArr(features))])
  }

  /** Loading a document shaped like the boundary file gives the first
      feature's geometry when it is truthy. */
  lemma FeatureFileSelectsFirstGeometry(name: string, properties: Json, geometry: Json, rest: seq<Json>)
    ensures LoadBrazilGeometry(Some(FeatureCollection(name, [Feature(properties, geometry)] + rest))) ==
              (if Truthy(geometry) then Some(geometry) else None)
  {
    var doc := FeatureCollection(name, [Feature(properties, geometry)] + rest);
    var first := Feature(properties, geometry);
    assert doc.fields[1..][1..] == [("features", JArr([first] + rest))];
    assert Lookup(doc.fields, "type") == Some(JStr("FeatureCollection"));
    assert Lookup(doc.fields, "features") == Some(JArr([first] + rest));
    assert first.fields[1..][1..] == [("geometry", geometry)];
    assert Lookup(first.fields, "geometry") == Some(geometry);
    LoadBrazilGeometrySelects(doc, first, rest);
  }

  /** Geometry dicts `{"type": ..., "coordinates": ...}`. */
  function Geometry(geometryType: string, coordinates: Json): Json
  {
    JObj([("type", JStr(geometryType)), ("coordinates", coordinates)])
  }

  /** What `is_in_brazil` answers for the loaded geometry. */
  function InBrazil(geometry: Option<Json>, latitude: real, longitude: real): bool
  {
    if geometry.None? then IsInBrazilBbox(latitude, longitude)
    else if !geometry.value.JObj? then false
    else
      var fields := geometry.value.fields;
      var coordinates := PyGet(geometry.value, "coordinates", JArr([])).value;
      var tested :=
        if Lookup(fields, "type") == Some(JStr("MultiPolygon")) then Some(InMultipolygon(longitude, latitude, coordinates))
        else if Lookup(fields, "type") == Some(JStr("Polygon")) then Some(InGroup(longitude, latitude, coordinates))
        else None;
      match tested
      case None => IsInBrazilBbox(latitude, longitude)
      case Some(outcome) => outcome.Value? && outcome.value
  }

  /** `is_in_brazil`: dispatch on `type` with the point swapped to
      (longitude, latitude); the Polygon branch has its own hole loop. */
  method IsInBrazil(geometry: Option<Json>, latitude: real, longitude: real) returns (r: bool)
    ensures r == InBrazil(geometry, latitude, longitude)
  {
    if geometry.None? {
      return IsInBrazilBbox(latitude, longitude);
    }
    var g := geometry.value;
    if !g.JObj? {
      return false;
    }
    var x, y := longitude, latitude;
    var geometryType := Lookup(g.fields, "type");
    var coordinates := PyGet(g, "coordinates", JArr([])).value;
    if geometryType == Some(JStr("MultiPolygon")) {
      var inside := PointInMultipolygon(x, y, coordinates);
      return inside.Value? && inside.value;
    } else if geometryType == Some(JStr("Polygon")) {
      r := InPolygonCoordinates(x, y, coordinates);
    } else {
      return IsInBrazilBbox(latitude, longitude);
    }
  }

  /** The Polygon branch of `is_in_brazil`: in the exterior ring and in
      none of the holes, with empty coordinates or a raising ring test
      counted as outside. */
  method InPolygonCoordinates(x: real, y: real, coordinates: Json) returns (r: bool)
    ensures r == (InGroup(x, y, coordinates) == Value(true))
  {
    if !Truthy(coordinates) {
      return false;
    }
    if !coordinates.JArr? {
      return false;
    }
    var inExterior := PointInPolygon(x, y, coordinates.items[0]);
    if inExterior.Raised? || !inExterior.value {
      return false;
    }
    var inHole := HoleScan(x, y, coordinates.items);
    return inHole.Value? && !inHole.value;
  }

  /** Without a geometry, or with a type other than MultiPolygon and
      Polygon, the answer is the bounding box; a geometry that is not a
      dict, or a ring test that raises, gives false. */
  lemma InBrazilFallbacks(geometry: Option<Json>, latitude: real, longitude: real)
    ensures geometry.None? ==> InBrazil(geometry, latitude, longitude) == IsInBrazilBbox(latitude, longitude)
    ensures geometry.Some? && geometry.value.JObj? &&
            Lookup(geometry.value.fields, "type") !in {Some(JStr("MultiPolygon")), Some(JStr("Polygon"))} ==>
              InBrazil(geometry, latitude, longitude) == IsInBrazilBbox(latitude, longitude)
    ensures geometry.Some? && !geometry.value.JObj? ==> !InBrazil(geometry, latitude, longitude)
  {
  }

  /** The dispatch on `type`, for a geometry dict with `type` and
      `coordinates`: MultiPolygon and Polygon go to their ring tests (a
      raise counts as false), any other type to the bounding box. */
  lemma InBrazilDispatch(geometryType: string, coordinates: Json, latitude: real, longitude: real)
    ensures geometryType == "MultiPolygon" ==>
              InBrazil(Some(Geometry(geometryType, coordinates)), latitude, longitude) ==
              (InMultipolygon(longitude, latitude, coordinates) == Value(true))
    ensures geometryType == "Polygon" ==>
              InBrazil(Some(Geometry(geometryType, coordinates)), latitude, longitude) ==
              (InGroup(longitude, latitude, coordinates) == Value(true))
    ensures geometryType != "MultiPolygon" && geometryType != "Polygon" ==>
              InBrazil(Some(Geometry(geometryType, coordinates)), latitude, longitude) == IsInBrazilBbox(latitude, longitude)
  {
    var g := Geometry(geometryType, coordinates);
    assert Lookup(g.fields, "type") == Some(JStr(geometryType));
    assert PyGet(g, "coordinates", JArr([])) == Value(coordinates);
  }

  /** A Polygon geometry: in its exterior and in none of its holes. The
      point is tested as (lon, lat). */
  lemma InBrazilPolygon(rings: seq<Json>, latitude: real, longitude: real)
    requires rings != []
    requires forall i :: 0 <= i < |rings| ==> PointInRing(longitude, latitude, rings[i]).Value?
    ensures InBrazil(Some(Geometry("Polygon", JArr(rings))), latitude, longitude) <==>
              PointInRing(longitude, latitude, rings[0]) == Value(true) &&
              forall i :: 1 <= i < |rings| ==> PointInRing(longitude, latitude, rings[i]) == Value(false)
  {
    var group := JArr(rings);
    InGroupIsExteriorMinusHoles(longitude, latitude, group);
    InBrazilDispatch("Polygon", group, latitude, longitude);
  }

  /** A Polygon geometry with empty coordinates holds no point. */
  lemma EmptyPolygonHoldsNothing(latitude: real, longitude: real)
    ensures !InBrazil(Some(Geometry("Polygon", JArr([]))), latitude, longitude)
  {
    InBrazilDispatch("Polygon", JArr([]), latitude, longitude);
  }

  /** A MultiPolygon geometry: in some group's exterior and in none of that
      group's holes, when no ring test raises. */
  lemma InBrazilMultipolygon(groups: seq<Json>, latitude: real, longitude: real)
    requires forall i :: 0 <= i < |groups| ==> InGroup(longitude, latitude, groups[i]).Value?
    ensures InBrazil(Some(Geometry("MultiPolygon", JArr(groups))), latitude, longitude) <==>
              exists i :: 0 <= i < |groups| && InGroup(longitude, latitude, groups[i]) == Value(true)
  {
    InBrazilDispatch("MultiPolygon", JArr(groups), latitude, longitude);
    InAnyGroupIsExists(longitude, latitude, groups);
  }

  /** A Polygon geometry with a single ring and no holes holds exactly the
      points that ring holds, tested as (lon, lat). */
  lemma InBrazilSingleRing(ring: Json, latitude: real, longitude: real)
    ensures InBrazil(Some(Geometry("Polygon", JArr([ring]))), latitude, longitude) ==
              (PointInRing(longitude, latitude, ring) == Value(true))
  {
    InBrazilDispatch("Polygon", JArr([ring]), latitude, longitude);
    assert JArr([ring]).items[1..] == [];
  }

  /** A square around lon -43.5..-42.5, lat -23.5..-22.5, written [lon, lat]. */
  const RIO_SQUARE: seq<(real, real)> := Rectangle(-43.5, -23.5, -42.5, -22.5)
  /** The same square written [lat, lon]. */
  const RIO_SQUARE_SWAPPED: seq<(real, real)> := [(-23.5, -43.5), (-23.5, -42.5), (-22.5, -42.5), (-22.5, -43.5)]

  /** The point is swapped before the ring test: the square Polygon written
      [lon, lat] holds Rio (-22.9068, -43.1729), ... */
  lemma InBrazilSwapsToLonLat()
    ensures InBrazil(Some(Geometry("Polygon", JArr([RingJson(RIO_SQUARE)]))), -22.9068, -43.1729)
  {
    RectangleInterior(-43.5, -23.5, -42.5, -22.5, -43.1729, -22.9068);
    InBrazilSingleRing(RingJson(RIO_SQUARE), -22.9068, -43.1729);
  }

  /** ... while the same square with its vertices written [lat, lon] does
      not: every vertex `y` is then below the latitude. */
  lemma SwappedSquareMissesRio()
    ensures !InBrazil(Some(Geometry("Polygon", JArr([RingJson(RIO_SQUARE_SWAPPED)]))), -22.9068, -43.1729)
  {
    DecodeRingJson(RIO_SQUARE_SWAPPED);
    OutsideBelowOrAboveAllVertices(DecodeRing(RingJson(RIO_SQUARE_SWAPPED)).value, -43.1729, -22.9068);
    InBrazilSingleRing(RingJson(RIO_SQUARE_SWAPPED), -22.9068, -43.1729);
  }
}
