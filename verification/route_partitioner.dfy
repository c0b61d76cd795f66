/** The route partitioner: turns a polyline into a denser polyline by
    emitting, for every leg, its start point followed by `segments - 1`
    points interpolated linearly between the leg's endpoints, and then
    the last point of the route once more. */
module RoutePartitioner {
  import opened Outcomes
  import opened Geo

  datatype TravelMode = Foot | Bike | Car

  /** The reference speed of each travel mode, in km/h. */
  function SpeedKmPerHour(mode: TravelMode): (v: real)
    ensures v > 0.0
    ensures mode == Foot ==> v == 5.0
    ensures mode == Bike ==> v == 20.0
    ensures mode == Car ==> v == 60.0
  {
    match mode
    case Foot => 5.0
    case Bike => 20.0
    case Car => 60.0
  }

  /** A partitioner is configured with a travel mode and a distance metric. */
  datatype Partitioner = Partitioner(travelMode: TravelMode, distanceMetric: (GeoPoint, GeoPoint) -> real)

  const SegmentsMessage := "Number of segments must be greater than 0"
  const RouteMessage := "Route must have at least 2 GeoPoints"

  /** The coordinate differences between two points, divided by their
      metric distance. */
  function GetDirection(p: Partitioner, v1: GeoPoint, v2: GeoPoint): (d: (real, real))
    requires p.distanceMetric(v1, v2) != 0.0
    ensures d.0 * p.distanceMetric(v1, v2) == v2.lat - v1.lat
    ensures d.1 * p.distanceMetric(v1, v2) == v2.lon - v1.lon
  {
    var dist := p.distanceMetric(v1, v2);
    ((v2.lat - v1.lat) / dist, (v2.lon - v1.lon) / dist)
  }

  /** Time to cover a leg at the travel mode's speed converted to m/s. */
  function GetTravelTime(p: Partitioner, v1: GeoPoint, v2: GeoPoint): (t: real)
    ensures t * (SpeedKmPerHour(p.travelMode) / 3.6) == p.distanceMetric(v1, v2)
  {
    p.distanceMetric(v1, v2) / (SpeedKmPerHour(p.travelMode) / 3.6)
  }

  /** The point a leg from `a` to `b` emits at offset `j`: the start point
      itself, then the ratios j / denominator for j = 1 .. segments - 1.
      With one segment there is only the start point, so no division
      takes place. */
  function LegPoint(a: GeoPoint, b: GeoPoint, segments: nat, denominator: nat, j: nat): GeoPoint
    requires j < segments
    requires segments >= 2 ==> denominator > 0
  {
    if j == 0 then a else Lerp(a, b, j as real / denominator as real)
  }

  /** Everything one leg emits, in order. */
  function Leg(a: GeoPoint, b: GeoPoint, segments: nat, denominator: nat): (r: seq<GeoPoint>)
    requires segments >= 2 ==> denominator > 0
    ensures |r| == segments
  {
    seq(segments, j requires 0 <= j < segments => LegPoint(a, b, segments, denominator, j))
  }

  /** Where leg `i` starts in the output: `i` legs of `segments` points
      each. Kept recursive so that proofs about offsets stay linear. */
  function Offset(i: nat, segments: nat): nat
  {
    if i == 0 then 0 else Offset(i - 1, segments) + segments
  }

  lemma {:induction false} OffsetIsProduct(i: nat, segments: nat)
    ensures Offset(i, segments) == i * segments
  {
    if i > 0 {
      OffsetIsProduct(i - 1, segments);
      assert (i - 1) * segments + segments == i * segments;
    }
  }

  /** A leg's ratio reaches 1 at offset `denominator`. */
  lemma RatioOne(denominator: nat)
    requires denominator > 0
    ensures denominator as real / denominator as real == 1.0
  {
  }

  /** The legs of a route, one after the other (without the final append). */
  function Legs(route: seq<GeoPoint>, segments: nat, denominator: nat): (r: seq<GeoPoint>)
    requires segments >= 1
    requires segments >= 2 ==> denominator > 0
    ensures |r| == if |route| < 2 then 0 else Offset(|route| - 1, segments)
    decreases |route|
  {
    if |route| < 2 then []
    else Legs(route[..|route| - 1], segments, denominator) + Leg(route[|route| - 2], route[|route| - 1], segments, denominator)
  }

  /** The partitioner's result on a route and a segment count, as written:
      ratios are j / (segments - 1), and the last point is appended after
      the last leg. */
  function Partition(route: seq<GeoPoint>, segments: int): (r: Result<seq<GeoPoint>>)
    ensures segments <= 0 ==> r == Err(IllegalArgument(SegmentsMessage))
    ensures segments > 0 && |route| < 2 ==> r == Err(IllegalArgument(RouteMessage))
    ensures r.Ok? <==> segments > 0 && |route| >= 2
    ensures r.Ok? ==> |r.value| == Offset(|route| - 1, segments) + 1
    ensures r.Ok? ==> r.value[|r.value| - 1] == route[|route| - 1]
  {
    if segments <= 0 then Err(IllegalArgument(SegmentsMessage))
    else if |route| < 2 then Err(IllegalArgument(RouteMessage))
    else Ok(Legs(route, segments, segments - 1) + [route[|route| - 1]])
  }

  /** On success the output holds `segments` points per leg plus the
      appended last point. */
  lemma {:induction false} PartitionLength(route: seq<GeoPoint>, segments: int)
    requires segments > 0
    requires |route| >= 2
    ensures Partition(route, segments).Ok?
    ensures |Partition(route, segments).value| == (|route| - 1) * segments + 1
  {
    OffsetIsProduct(|route| - 1, segments);
  }

  /** The partitioner's loops, step by step. The travel time of each leg
      is computed and dropped, so the travel mode has no effect on the
      result, and the route is a value, so it cannot be modified. */
  method PartitionRouteIntoEqualSegments(p: Partitioner, route: seq<GeoPoint>, segments: int)
    returns (r: Result<seq<GeoPoint>>)
    ensures r == Partition(route, segments)
  {
    if segments <= 0 {
      return Err(IllegalArgument(SegmentsMessage));
    }
    var totalPoints := |route|;
    if totalPoints < 2 {
      return Err(IllegalArgument(RouteMessage));
    }
    var partitioned: seq<GeoPoint> := [];
    var i := 0;
    while i < totalPoints - 1
      invariant 0 <= i <= totalPoints - 1
      invariant partitioned == Legs(route[..i + 1], segments, segments - 1)
    {
      var startPoint := route[i];
      var endPoint := route[i + 1];
      var travelTime := GetTravelTime(p, startPoint, endPoint);
      var numSubSegments := segments - 1;
      ghost var before := partitioned;
      ghost var leg := Leg(startPoint, endPoint, segments, segments - 1);
      partitioned := partitioned + [startPoint];
      assert leg[..1] == [startPoint];
      var j := 1;
      while j < segments
        invariant 1 <= j <= segments
        invariant partitioned == before + leg[..j]
      {
        var ratio := j as real / numSubSegments as real;
        var interpolated := Lerp(startPoint, endPoint, ratio);
        assert leg[..j + 1] == leg[..j] + [interpolated];
        partitioned := partitioned + [interpolated];
        j := j + 1;
      }
      assert leg[..segments] == leg;
      assert route[..i + 2][..i + 1] == route[..i + 1];
      i := i + 1;
    }
    assert route[..totalPoints] == route;
    partitioned := partitioned + [route[totalPoints - 1]];
    r := Ok(partitioned);
  }

  /** Within the legs, leg `i` occupies the offsets from `Offset(i, segments)`
      on, and holds there what the leg emits. */
  lemma {:induction false} LegsAt(route: seq<GeoPoint>, segments: nat, denominator: nat, i: nat, j: nat)
    requires segments >= 1
    requires segments >= 2 ==> denominator > 0
    requires i < |route| - 1
    requires j < segments
    ensures Offset(i, segments) + j < |Legs(route, segments, denominator)|
    ensures Legs(route, segments, denominator)[Offset(i, segments) + j]
            == LegPoint(route[i], route[i + 1], segments, denominator, j)
    decreases |route|
  {
    var n := |route|;
    var prefix := Legs(route[..n - 1], segments, denominator);
    var leg := Leg(route[n - 2], route[n - 1], segments, denominator);
    assert Legs(route, segments, denominator) == prefix + leg;
    if i == n - 2 {
      assert |prefix| == Offset(i, segments);
    } else {
      LegsAt(route[..n - 1], segments, denominator, i, j);
      assert route[..n - 1][i] == route[i] && route[..n - 1][i + 1] == route[i + 1];
    }
  }

  /** Every leg starts with the route point it starts from; in particular
      the output starts with the route's first point. */
  lemma {:induction false} PartitionLegStart(route: seq<GeoPoint>, segments: int, i: nat)
    requires segments > 0
    requires i < |route| - 1
    ensures Partition(route, segments).Ok?
    ensures i * segments < |Partition(route, segments).value|
    ensures Partition(route, segments).value[i * segments] == route[i]
  {
    var legs := Legs(route, segments, segments - 1);
    var out := legs + [route[|route| - 1]];
    assert Partition(route, segments) == Ok(out);
    OffsetIsProduct(i, segments);
    LegsAt(route, segments, segments - 1, i, 0);
    assert out[Offset(i, segments)] == legs[Offset(i, segments)];
  }

  /** The `j`-th point after a leg's start lies at ratio j / (segments - 1)
      between the leg's endpoints. */
  lemma {:induction false} PartitionInterpolant(route: seq<GeoPoint>, segments: int, i: nat, j: nat)
    requires segments > 0
    requires i < |route| - 1
    requires 1 <= j < segments
    ensures Partition(route, segments).Ok?
    ensures i * segments + j < |Partition(route, segments).value|
    ensures Partition(route, segments).value[i * segments + j]
            == Lerp(route[i], route[i + 1], j as real / (segments - 1) as real)
  {
    var legs := Legs(route, segments, segments - 1);
    var out := legs + [route[|route| - 1]];
    assert Partition(route, segments) == Ok(out);
    OffsetIsProduct(i, segments);
    LegsAt(route, segments, segments - 1, i, j);
    assert out[Offset(i, segments) + j] == legs[Offset(i, segments) + j];
  }

  /** With two or more segments each leg already ends on its endpoint, so
      every inner route point appears twice in a row, and so does the last. */
  lemma {:induction false} PartitionSeamDuplicates(route: seq<GeoPoint>, segments: int, i: nat)
    requires segments >= 2
    requires i < |route| - 1
    ensures Partition(route, segments).Ok?
    ensures (i + 1) * segments < |Partition(route, segments).value|
    ensures Partition(route, segments).value[(i + 1) * segments - 1] == route[i + 1]
    ensures Partition(route, segments).value[(i + 1) * segments] == route[i + 1]
  {
    var n := |route|;
    var legs := Legs(route, segments, segments - 1);
    var out := legs + [route[n - 1]];
    assert Partition(route, segments) == Ok(out);
    OffsetIsProduct(i + 1, segments);
    var seam := Offset(i + 1, segments);
    assert seam == Offset(i, segments) + (segments - 1) + 1;
    LegsAt(route, segments, segments - 1, i, segments - 1);
    RatioOne(segments - 1);
    assert out[seam - 1] == legs[seam - 1] == route[i + 1];
    if i + 1 < n - 1 {
      LegsAt(route, segments, segments - 1, i + 1, 0);
      assert out[seam] == legs[seam];
    } else {
      assert seam == |legs|;
    }
  }

  /** The last two points of a partition with two or more segments are
      both the route's last point. */
  lemma {:induction false} PartitionEndsTwice(route: seq<GeoPoint>, segments: int)
    requires segments >= 2
    requires |route| >= 2
    ensures Partition(route, segments).Ok?
    ensures |Partition(route, segments).value| >= 2
    ensures Partition(route, segments).value[|Partition(route, segments).value| - 2] == route[|route| - 1]
    ensures Partition(route, segments).value[|Partition(route, segments).value| - 1] == route[|route| - 1]
  {
    PartitionSeamDuplicates(route, segments, |route| - 2);
    OffsetIsProduct(|route| - 1, segments);
  }

  /** With one segment per leg each leg emits only its start point. */
  lemma {:induction false} LegsOfOneSegment(route: seq<GeoPoint>)
    requires |route| >= 1
    ensures Legs(route, 1, 0) == route[..|route| - 1]
    decreases |route|
  {
    var n := |route|;
    if n >= 2 {
      var prefix := route[..n - 1];
      LegsOfOneSegment(prefix);
      assert prefix[..n - 2] == route[..n - 2];
      var leg := Leg(route[n - 2], route[n - 1], 1, 0);
      assert leg[0] == route[n - 2];
      assert leg == [route[n - 2]];
      assert Legs(route, 1, 0) == Legs(prefix, 1, 0) + leg;
      assert route[..n - 2] + [route[n - 2]] == prefix;
    }
  }

  /** With one segment per leg the inner loop is empty: the output is the route. */
  lemma {:induction false} PartitionOneSegmentIsIdentity(route: seq<GeoPoint>)
    requires |route| >= 2
    ensures Partition(route, 1) == Ok(route)
  {
    LegsOfOneSegment(route);
    assert route[..|route| - 1] + [route[|route| - 1]] == route;
  }

  /** The two-point route from (0, 0) to (0, 10) with five segments gives
      steps of 2.5 inside the leg and then the end point twice. */
  lemma {:induction false} PartitionExample()
    ensures Partition([GeoPoint(0.0, 0.0), GeoPoint(0.0, 10.0)], 5)
            == Ok([GeoPoint(0.0, 0.0), GeoPoint(0.0, 2.5), GeoPoint(0.0, 5.0),
                   GeoPoint(0.0, 7.5), GeoPoint(0.0, 10.0), GeoPoint(0.0, 10.0)])
  {
    var a, b := GeoPoint(0.0, 0.0), GeoPoint(0.0, 10.0);
    var route := [a, b];
    assert route[..1] == [a];
    var leg := Leg(a, b, 5, 4);
    assert Legs(route, 5, 4) == Legs([a], 5, 4) + leg;
    assert leg[1] == GeoPoint(0.0, 2.5);
    assert leg[2] == GeoPoint(0.0, 5.0);
    assert leg[3] == GeoPoint(0.0, 7.5);
    assert leg[4] == GeoPoint(0.0, 10.0);
    assert leg == [a, GeoPoint(0.0, 2.5), GeoPoint(0.0, 5.0), GeoPoint(0.0, 7.5), b];
    assert Legs([a], 5, 4) == [];
    assert Legs(route, 5, 4) == leg;
    assert Partition(route, 5) == Ok(leg + [b]);
    assert leg + [b] == [a, GeoPoint(0.0, 2.5), GeoPoint(0.0, 5.0), GeoPoint(0.0, 7.5), b, b];
  }

  /** The partition with evenly spread ratios j / segments: each leg is cut
      into `segments` equal pieces and no point repeats at a seam. */
  function PartitionEvenly(route: seq<GeoPoint>, segments: int): (r: Result<seq<GeoPoint>>)
    ensures r.Ok? <==> segments > 0 && |route| >= 2
    ensures segments <= 0 ==> r == Err(IllegalArgument(SegmentsMessage))
    ensures segments > 0 && |route| < 2 ==> r == Err(IllegalArgument(RouteMessage))
    ensures r.Ok? ==> |r.value| == Offset(|route| - 1, segments) + 1
  {
    if segments <= 0 then Err(IllegalArgument(SegmentsMessage))
    else if |route| < 2 then Err(IllegalArgument(RouteMessage))
    else Ok(Legs(route, segments, segments) + [route[|route| - 1]])
  }

  /** In the evenly spread partition, the point at `i * segments + j` lies
      at ratio j / segments on leg `i`, for every j up to and including
      `segments` (which is the next leg's start, or the final point). */
  lemma {:induction false} EvenlySpaced(route: seq<GeoPoint>, segments: int, i: nat, j: nat)
    requires segments > 0
    requires i < |route| - 1
    requires j <= segments
    ensures PartitionEvenly(route, segments).Ok?
    ensures i * segments + j < |PartitionEvenly(route, segments).value|
    ensures PartitionEvenly(route, segments).value[i * segments + j]
            == Lerp(route[i], route[i + 1], j as real / segments as real)
  {
    var n := |route|;
    var legs := Legs(route, segments, segments);
    var out := legs + [route[n - 1]];
    assert PartitionEvenly(route, segments) == Ok(out);
    OffsetIsProduct(i, segments);
    var k := Offset(i, segments) + j;
    if j < segments {
      LegsAt(route, segments, segments, i, j);
      assert out[k] == legs[k];
    } else {
      assert k == Offset(i + 1, segments);
      RatioOne(segments);
      if i + 1 < n - 1 {
        LegsAt(route, segments, segments, i + 1, 0);
        assert out[k] == legs[k];
      } else {
        assert k == |legs|;
      }
    }
  }

  /** When consecutive route points differ, consecutive points of the
      evenly spread partition differ too: no point is emitted twice in a
      row, at a seam or inside a leg. */
  lemma {:induction false} EvenlySpacedHasNoRepeats(route: seq<GeoPoint>, segments: int, i: nat, j: nat)
    requires segments > 0
    requires i < |route| - 1
    requires j < segments
    requires route[i] != route[i + 1]
    ensures PartitionEvenly(route, segments).Ok?
    ensures i * segments + j + 1 < |PartitionEvenly(route, segments).value|
    ensures PartitionEvenly(route, segments).value[i * segments + j]
            != PartitionEvenly(route, segments).value[i * segments + j + 1]
  {
    EvenlySpaced(route, segments, i, j);
    EvenlySpaced(route, segments, i, j + 1);
    var r1 := j as real / segments as real;
    var r2 := (j + 1) as real / segments as real;
    RatiosDiffer(j, segments);
    LerpInjective(route[i], route[i + 1], r1, r2);
  }

  /** Consecutive ratios j / segments and (j + 1) / segments differ. */
  lemma RatiosDiffer(j: nat, segments: int)
    requires segments > 0
    ensures j as real / segments as real != (j + 1) as real / segments as real
  {
    var d := segments as real;
    assert (j as real / d) * d == j as real;
    assert ((j + 1) as real / d) * d == j as real + 1.0;
  }
}
