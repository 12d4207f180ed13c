/**
 * `OSMFile.write_to_SDF`: the loop that turns the building and road maps
 * extracted from an OpenStreetMap file into calls on a `GetSdf` builder.
 *
 * The maps come in as sequences in key order (keys distinct, as in a
 * Python dict); latitude and longitude as the numbers `getLat()` and
 * `getLon()` return; the Catmull-Rom spline as a function parameter. The
 * method returns the finished document, which the source then serialises,
 * and the three per-road lists the loop accumulates.
 */
module OsmParser {
  import opened Numbers
  import opened SdfTree
  import opened Dict2Sdf
  import opened Dict2SdfFacts

  /** An entry of `buildingLocationMap`: centroid, boundary points and colour. */
  datatype BuildingInfo = BuildingInfo(mean: Mean, points: seq<Point2>, color: string)

  /** An entry of `roadPointWidthMap`: texture, width and the 2 x N point array. */
  datatype RoadInfo = RoadInfo(texture: string, width: Num, points: seq<Point2>)

  /** `catmull_rom(xData, yData, n)`: the interpolated x and y lists. */
  type Spline = (seq<real>, seq<real>, nat) -> (seq<real>, seq<real>)

  /** The density argument the source passes to `catmull_rom`. */
  const SplineDensity: nat := 10

  /** A road with fewer points than this is written point by point, unsmoothed. */
  const MinSplinePoints: nat := 3

  /** `points[0, :]`. */
  function Xs(pts: seq<Point2>): (r: seq<real>)
    ensures |r| == |pts| && forall k :: 0 <= k < |pts| ==> r[k] == pts[k].x
  {
    seq(|pts|, k requires 0 <= k < |pts| => pts[k].x)
  }

  /** `points[1, :]`. */
  function Ys(pts: seq<Point2>): (r: seq<real>)
    ensures |r| == |pts| && forall k :: 0 <= k < |pts| ==> r[k] == pts[k].y
  {
    seq(|pts|, k requires 0 <= k < |pts| => pts[k].y)
  }

  predicate IsShort(pts: seq<Point2>)
  {
    |pts| < MinSplinePoints
  }

  /** The road's centre line: its own points when short, else the spline through them. */
  function CentreLine(spline: Spline, pts: seq<Point2>): (seq<real>, seq<real>)
  {
    if IsShort(pts) then (Xs(pts), Ys(pts)) else spline(Xs(pts), Ys(pts), SplineDensity)
  }

  /** A short road's centre line is its own coordinates; a longer one's is `catmull_rom(x, y, 10)`. */
  lemma CentreLineChoice(spline: Spline, pts: seq<Point2>)
    ensures var line := CentreLine(spline, pts);
      IsShort(pts) ==> (|line.0| == |pts| && |line.1| == |pts|
                        && forall k :: 0 <= k < |pts| ==> line.0[k] == pts[k].x && line.1[k] == pts[k].y)
    ensures !IsShort(pts) ==> CentreLine(spline, pts) == spline(Xs(pts), Ys(pts), 10)
  {
  }

  /**
   * What the point loop needs of the spline: a `y` entry for every `x`
   * entry, so that `y[point]` exists for each `point in range(len(x))`.
   */
  predicate SplineFits(spline: Spline, pts: seq<Point2>)
  {
    |CentreLine(spline, pts).0| <= |CentreLine(spline, pts).1|
  }

  /** Dict keys: no road name occurs twice. */
  predicate DistinctNames(roads: seq<(string, RoadInfo)>)
  {
    forall j, k :: 0 <= j < k < |roads| ==> roads[j].0 != roads[k].0
  }

  /** The `point` children `addRoadPoint([x[k], y[k], 0], road)` appends, in order. */
  function RoadPoints(num: Numerics, xs: seq<real>, ys: seq<real>): (r: seq<Node>)
    requires |xs| <= |ys|
    ensures |r| == |xs|
    ensures forall k :: 0 <= k < |xs| ==> r[k] == PointNode(num, Vec3(Float(xs[k]), Float(ys[k]), Int(0)))
  {
    seq(|xs|, k requires 0 <= k < |xs| => PointNode(num, Vec3(Float(xs[k]), Float(ys[k]), Int(0))))
  }

  /** The road element of one map entry once its iteration of the road loop is over. */
  function RoadNodeFull(num: Numerics, name: string, info: RoadInfo, spline: Spline): Node
    requires SplineFits(spline, info.points)
  {
    var line := CentreLine(spline, info.points);
    Appended(Appended(RoadNode(name), [WidthNode(num, info.width)]), RoadPoints(num, line.0, line.1))
  }

  function BuildingOf(num: Numerics, entry: (string, BuildingInfo)): Node
  {
    BuildingNode(num, entry.1.mean, entry.1.points, entry.0, entry.1.color)
  }

  function BuildingNodes(num: Numerics, buildings: seq<(string, BuildingInfo)>): (r: seq<Node>)
    ensures |r| == |buildings|
    ensures forall k :: 0 <= k < |buildings| ==> r[k] == BuildingOf(num, buildings[k])
  {
    seq(|buildings|, k requires 0 <= k < |buildings| => BuildingOf(num, buildings[k]))
  }

  predicate AllFit(spline: Spline, roads: seq<(string, RoadInfo)>)
  {
    forall k :: 0 <= k < |roads| ==> SplineFits(spline, roads[k].1.points)
  }

  function RoadNodes(num: Numerics, roads: seq<(string, RoadInfo)>, spline: Spline): (r: seq<Node>)
    requires AllFit(spline, roads)
    ensures |r| == |roads|
    ensures forall k :: 0 <= k < |roads| ==> r[k] == RoadNodeFull(num, roads[k].0, roads[k].1, spline)
  {
    seq(|roads|, k requires 0 <= k < |roads| => RoadNodeFull(num, roads[k].0, roads[k].1, spline))
  }

  /** The two elements written before any building or road. */
  function Preamble(num: Numerics, lat: Num, lon: Num): seq<Node>
  {
    [SphericalCoordsNode(num, lat, lon, Float(0.0), Int(0)), IncludeNode("sun")]
  }

  /** The children of `world` in the document `write_to_SDF` serialises. */
  function ExpectedWorld(num: Numerics, lat: Num, lon: Num, buildings: seq<(string, BuildingInfo)>,
                         roads: seq<(string, RoadInfo)>, spline: Spline): seq<Node>
    requires AllFit(spline, roads)
  {
    Preamble(num, lat, lon) + BuildingNodes(num, buildings) + RoadNodes(num, roads, spline)
  }

  /** `roadLaneSegments`: `[lanePoint, lanePoint]` for each short road, in order; nothing for the others. */
  function ShortRoadLanes(roads: seq<(string, RoadInfo)>): (r: seq<(seq<Point2>, seq<Point2>)>)
    ensures |r| <= |roads|
  {
    if roads == [] then []
    else ShortRoadLanes(roads[..|roads| - 1]) + ShortLane(roads[|roads| - 1].1.points)
  }

  /** The number of short roads: how many entries `roadLaneSegments` gets. */
  function ShortCount(roads: seq<(string, RoadInfo)>): nat
  {
    if roads == [] then 0
    else ShortCount(roads[..|roads| - 1]) + (if IsShort(roads[|roads| - 1].1.points) then 1 else 0)
  }

  function ShortLane(pts: seq<Point2>): seq<(seq<Point2>, seq<Point2>)>
  {
    if IsShort(pts) then [(pts, pts)] else []
  }

  /** `centerLaneSegments`: one centre line per road. */
  function CentreLines(roads: seq<(string, RoadInfo)>, spline: Spline): (r: seq<(seq<real>, seq<real>)>)
    ensures |r| == |roads|
    ensures forall k :: 0 <= k < |roads| ==> r[k] == CentreLine(spline, roads[k].1.points)
  {
    seq(|roads|, k requires 0 <= k < |roads| => CentreLine(spline, roads[k].1.points))
  }

  /** `laneSegmentWidths`: one width per road. */
  function Widths(roads: seq<(string, RoadInfo)>): (r: seq<Num>)
    ensures |r| == |roads|
    ensures forall k :: 0 <= k < |roads| ==> r[k] == roads[k].1.width
  {
    seq(|roads|, k requires 0 <= k < |roads| => roads[k].1.width)
  }

  predicate NoRoadNamed(cs: seq<Node>, roadName: string)
  {
    forall j :: 0 <= j < |cs| ==> !IsRoadNamed(cs[j], roadName)
  }

  // ----------------------------------------------------------------------
  // Loop-step lemmas
  // ----------------------------------------------------------------------

  lemma BuildingNodesStep(num: Numerics, buildings: seq<(string, BuildingInfo)>, b: nat)
    requires b < |buildings|
    ensures BuildingNodes(num, buildings[..b + 1]) == BuildingNodes(num, buildings[..b]) + [BuildingOf(num, buildings[b])]
  {
    assert buildings[..b + 1][..b] == buildings[..b];
  }

  lemma RoadNodesStep(num: Numerics, roads: seq<(string, RoadInfo)>, spline: Spline, r: nat)
    requires r < |roads| && AllFit(spline, roads)
    ensures AllFit(spline, roads[..r]) && AllFit(spline, roads[..r + 1])
    ensures RoadNodes(num, roads[..r + 1], spline)
         == RoadNodes(num, roads[..r], spline) + [RoadNodeFull(num, roads[r].0, roads[r].1, spline)]
  {
    assert roads[..r + 1][..r] == roads[..r];
  }

  /** No element of `cs` is a road. */
  predicate NoRoads(cs: seq<Node>)
  {
    forall j :: 0 <= j < |cs| ==> cs[j].tag != "road"
  }

  /** The spherical coordinates, the sun and the buildings are no roads. */
  lemma PreambleAndBuildingsNoRoads(num: Numerics, lat: Num, lon: Num, buildings: seq<(string, BuildingInfo)>)
    ensures NoRoads(Preamble(num, lat, lon) + BuildingNodes(num, buildings))
  {
    var cs := Preamble(num, lat, lon) + BuildingNodes(num, buildings);
    forall j | 0 <= j < |cs|
      ensures cs[j].tag != "road"
    {
      if j >= 2 {
        assert cs[j] == BuildingOf(num, buildings[j - 2]);
      }
    }
  }

  /** Nothing before road r in the world is a road with road r's name. */
  lemma NoEarlierRoad(num: Numerics, base: seq<Node>, roads: seq<(string, RoadInfo)>, spline: Spline, r: nat)
    requires NoRoads(base) && r < |roads| && AllFit(spline, roads) && DistinctNames(roads)
    ensures AllFit(spline, roads[..r])
    ensures NoRoadNamed(base + RoadNodes(num, roads[..r], spline), roads[r].0)
  {
    var done := RoadNodes(num, roads[..r], spline);
    var cs := base + done;
    forall j | 0 <= j < |cs|
      ensures !IsRoadNamed(cs[j], roads[r].0)
    {
      if j >= |base| {
        var k := j - |base|;
        assert cs[j] == done[k];
        assert Get(done[k], "name") == Some(roads[k].0);
      }
    }
  }

  lemma ShortRoadLanesStep(roads: seq<(string, RoadInfo)>, r: nat)
    requires r < |roads|
    ensures ShortRoadLanes(roads[..r + 1]) == ShortRoadLanes(roads[..r]) + ShortLane(roads[r].1.points)
  {
    assert roads[..r + 1][..r] == roads[..r];
  }

  lemma CentreLinesStep(roads: seq<(string, RoadInfo)>, spline: Spline, r: nat)
    requires r < |roads|
    ensures CentreLines(roads[..r + 1], spline) == CentreLines(roads[..r], spline) + [CentreLine(spline, roads[r].1.points)]
  {
    assert roads[..r + 1][..r] == roads[..r];
  }

  lemma WidthsStep(roads: seq<(string, RoadInfo)>, r: nat)
    requires r < |roads|
    ensures Widths(roads[..r + 1]) == Widths(roads[..r]) + [roads[r].1.width]
  {
    assert roads[..r + 1][..r] == roads[..r];
  }

  /** One turn of the road loop extends the three lists by road r's entries. */
  lemma ListsStep(roads: seq<(string, RoadInfo)>, spline: Spline, r: nat)
    requires r < |roads|
    ensures ShortRoadLanes(roads[..r + 1]) == ShortRoadLanes(roads[..r]) + ShortLane(roads[r].1.points)
    ensures CentreLines(roads[..r + 1], spline) == CentreLines(roads[..r], spline) + [CentreLine(spline, roads[r].1.points)]
    ensures Widths(roads[..r + 1]) == Widths(roads[..r]) + [roads[r].1.width]
  {
    ShortRoadLanesStep(roads, r);
    CentreLinesStep(roads, spline, r);
    WidthsStep(roads, r);
  }

  // ----------------------------------------------------------------------
  // The orchestration
  // ----------------------------------------------------------------------

  /** The last child of `cs` is the road `road` being filled in, and no earlier one bears its name. */
  predicate FillingRoad(cs: seq<Node>, road: string)
  {
    |cs| >= 1 && NoRoadNamed(cs[..|cs| - 1], road)
    && cs[|cs| - 1].tag == "road" && cs[|cs| - 1].attrs == map["name" := road]
  }

  /**
   * One `addRoadPoint([x, y, 0], road)` while `road` is being filled in:
   * the lookup finds it, and it gains the point as its last child.
   */
  method AppendRoadPoint(sdfFile: GetSdf, road: string, ghost before: seq<Node>, ghost current: Node, x: real, y: real)
    requires sdfFile.Valid() && sdfFile.WorldChildren() == before + [current]
    requires FillingRoad(before + [current], road)
    modifies sdfFile`sdf
    ensures sdfFile.Valid()
    ensures sdfFile.WorldChildren() == before + [Appended(current, [PointNode(sdfFile.num, Vec3(Float(x), Float(y), Int(0)))])]
  {
    assert (before + [current])[..|before|] == before;
    AppendedRoadIsFirst(before, current, road);
    var status := sdfFile.AddRoadPoint(Vec3(Float(x), Float(y), Int(0)), road);
    assert status == Done;
    AppendBelowLast(before, current, PointNode(sdfFile.num, Vec3(Float(x), Float(y), Int(0))));
  }

  /**
   * `for point in range(len(x)): addRoadPoint([x[point], y[point], 0], road)`:
   * every lookup finds the road being filled in, which gains one `point`
   * per entry of `xs`.
   */
  method AddRoadPoints(sdfFile: GetSdf, road: string, xs: seq<real>, ys: seq<real>)
    requires sdfFile.Valid() && FillingRoad(sdfFile.WorldChildren(), road) && |xs| <= |ys|
    modifies sdfFile`sdf
    ensures sdfFile.Valid()
    ensures var before := old(sdfFile.WorldChildren());
      sdfFile.WorldChildren()
      == before[..|before| - 1] + [Appended(before[|before| - 1], RoadPoints(sdfFile.num, xs, ys))]
  {
    ghost var all := sdfFile.WorldChildren();
    ghost var before := all[..|all| - 1];
    ghost var head := all[|all| - 1];
    ghost var points := RoadPoints(sdfFile.num, xs, ys);
    assert all == before + [head];
    assert Appended(head, points[..0]) == head;
    for point := 0 to |xs|
      invariant sdfFile.Valid()
      invariant sdfFile.WorldChildren() == before + [Appended(head, points[..point])]
    {
      AppendRoadPoint(sdfFile, road, before, Appended(head, points[..point]), xs[point], ys[point]);
      AppendedPrefixStep(head, points, point);
    }
    assert points[..|xs|] == points;
  }

  /**
   * The loop for a road of fewer than three points: the same `addRoadPoint`
   * calls, on the road's own points, while collecting them as `lanePoint`
   * and as the `x` and `y` lists.
   */
  method AddShortRoadPoints(sdfFile: GetSdf, road: string, pts: seq<Point2>)
    returns (x: seq<real>, y: seq<real>, lanePoint: seq<Point2>)
    requires sdfFile.Valid() && FillingRoad(sdfFile.WorldChildren(), road)
    modifies sdfFile`sdf
    ensures sdfFile.Valid()
    ensures var before := old(sdfFile.WorldChildren());
      sdfFile.WorldChildren()
      == before[..|before| - 1] + [Appended(before[|before| - 1], RoadPoints(sdfFile.num, Xs(pts), Ys(pts)))]
    ensures x == Xs(pts) && y == Ys(pts) && lanePoint == pts
  {
    var xData := Xs(pts);
    var yData := Ys(pts);
    ghost var all := sdfFile.WorldChildren();
    ghost var before := all[..|all| - 1];
    ghost var head := all[|all| - 1];
    ghost var points := RoadPoints(sdfFile.num, xData, yData);
    assert all == before + [head];
    assert Appended(head, points[..0]) == head;
    x, y, lanePoint := [], [], [];
    for j := 0 to |xData|
      invariant sdfFile.Valid()
      invariant sdfFile.WorldChildren() == before + [Appended(head, points[..j])]
      invariant x == xData[..j] && y == yData[..j] && lanePoint == pts[..j]
    {
      AppendRoadPoint(sdfFile, road, before, Appended(head, points[..j]), xData[j], yData[j]);
      AppendedPrefixStep(head, points, j);
      lanePoint := lanePoint + [Point2(xData[j], yData[j])];
      x := x + [xData[j]];
      y := y + [yData[j]];
      PrefixStep(pts, j);
      PrefixStep(xData, j);
      PrefixStep(yData, j);
    }
    assert points[..|xData|] == points;
    assert xData[..|xData|] == xData && yData[..|yData|] == yData && pts[..|pts|] == pts;
  }

  /**
   * One turn of the road loop of `write_to_SDF`: `addRoad`, `setRoadWidth`,
   * then one `addRoadPoint` per point of the centre line. Returns what it
   * appends to `roadLaneSegments` (nothing for a splined road) and to
   * `centerLaneSegments`. The lookups succeed because no earlier child of
   * `world` is a road of this name.
   */
  method WriteRoad(sdfFile: GetSdf, road: string, info: RoadInfo, spline: Spline)
    returns (lane: seq<(seq<Point2>, seq<Point2>)>, centre: (seq<real>, seq<real>))
    requires sdfFile.Valid() && NoRoadNamed(sdfFile.WorldChildren(), road)
    requires SplineFits(spline, info.points)
    modifies sdfFile`sdf
    ensures sdfFile.Valid()
    ensures sdfFile.WorldChildren() == old(sdfFile.WorldChildren()) + [RoadNodeFull(sdfFile.num, road, info, spline)]
    ensures lane == ShortLane(info.points)
    ensures centre == CentreLine(spline, info.points)
  {
    ghost var before := sdfFile.WorldChildren();
    sdfFile.AddRoad(road, info.texture);
    AppendedRoadIsFirst(before, RoadNode(road), road);
    var status := sdfFile.SetRoadWidth(info.width, road);
    assert status == Done;
    ghost var head := Appended(RoadNode(road), [WidthNode(sdfFile.num, info.width)]);
    AppendBelowLast(before, RoadNode(road), WidthNode(sdfFile.num, info.width));
    assert (before + [head])[..|before|] == before;
    var xData := Xs(info.points);
    var yData := Ys(info.points);
    if |xData| < MinSplinePoints {
      var x, y, lanePoint := AddShortRoadPoints(sdfFile, road, info.points);
      lane := [(lanePoint, lanePoint)];
      centre := (x, y);
    } else {
      var line := spline(xData, yData, SplineDensity);
      var x, y := line.0, line.1;
      lane := [];
      centre := (x, y);
      AddRoadPoints(sdfFile, road, x, y);
    }
  }

  /** The building loop: one `addBuilding` per entry of `buildingLocationMap`, in order. */
  method AddBuildings(sdfFile: GetSdf, buildings: seq<(string, BuildingInfo)>)
    requires sdfFile.Valid()
    modifies sdfFile`sdf
    ensures sdfFile.Valid()
    ensures sdfFile.WorldChildren() == old(sdfFile.WorldChildren()) + BuildingNodes(sdfFile.num, buildings)
  {
    ghost var before := sdfFile.WorldChildren();
    assert before == before + BuildingNodes(sdfFile.num, buildings[..0]);
    for b := 0 to |buildings|
      invariant sdfFile.Valid()
      invariant sdfFile.WorldChildren() == before + BuildingNodes(sdfFile.num, buildings[..b])
    {
      var (building, info) := buildings[b];
      sdfFile.AddBuilding(info.mean, info.points, building, info.color);
      BuildingNodesStep(sdfFile.num, buildings, b);
    }
    assert buildings[..|buildings|] == buildings;
  }

  /**
   * The road loop: for each entry of `roadPointWidthMap`, in order, one
   * turn of `WriteRoad`, and the road's width, centre line and (when
   * short) lane points appended to the three lists.
   */
  method AddRoads(sdfFile: GetSdf, roads: seq<(string, RoadInfo)>, spline: Spline)
    returns (roadLaneSegments: seq<(seq<Point2>, seq<Point2>)>,
             centerLaneSegments: seq<(seq<real>, seq<real>)>, laneSegmentWidths: seq<Num>)
    requires sdfFile.Valid() && NoRoads(sdfFile.WorldChildren())
    requires DistinctNames(roads) && AllFit(spline, roads)
    modifies sdfFile`sdf
    ensures sdfFile.Valid()
    ensures sdfFile.WorldChildren() == old(sdfFile.WorldChildren()) + RoadNodes(sdfFile.num, roads, spline)
    ensures roadLaneSegments == ShortRoadLanes(roads)
    ensures centerLaneSegments == CentreLines(roads, spline)
    ensures laneSegmentWidths == Widths(roads)
  {
    ghost var base := sdfFile.WorldChildren();
    roadLaneSegments, centerLaneSegments, laneSegmentWidths := [], [], [];
    assert AllFit(spline, roads[..0]);
    assert base == base + RoadNodes(sdfFile.num, roads[..0], spline);
    for idx := 0 to |roads|
      invariant AllFit(spline, roads[..idx])
      invariant sdfFile.Valid()
      invariant sdfFile.WorldChildren() == base + RoadNodes(sdfFile.num, roads[..idx], spline)
      invariant roadLaneSegments == ShortRoadLanes(roads[..idx])
      invariant centerLaneSegments == CentreLines(roads[..idx], spline)
      invariant laneSegmentWidths == Widths(roads[..idx])
    {
      var (road, info) := roads[idx];
      NoEarlierRoad(sdfFile.num, base, roads, spline, idx);
      laneSegmentWidths := laneSegmentWidths + [info.width];
      var lane, centre := WriteRoad(sdfFile, road, info, spline);
      roadLaneSegments := roadLaneSegments + lane;
      centerLaneSegments := centerLaneSegments + [centre];
      RoadNodesStep(sdfFile.num, roads, spline, idx);
      ListsStep(roads, spline, idx);
    }
    assert roads[..|roads|] == roads;
  }

  /**
   * `write_to_SDF` up to `writeToFile`: a fresh builder, the spherical
   * coordinates and the sun, every building, then every road.
   */
  method WriteToSdf(num: Numerics, lat: Num, lon: Num, buildings: seq<(string, BuildingInfo)>,
                    roads: seq<(string, RoadInfo)>, spline: Spline)
    returns (tree: Node, roadLaneSegments: seq<(seq<Point2>, seq<Point2>)>,
             centerLaneSegments: seq<(seq<real>, seq<real>)>, laneSegmentWidths: seq<Num>)
    requires DistinctNames(roads) && AllFit(spline, roads)
    ensures tree == Root(ExpectedWorld(num, lat, lon, buildings, roads, spline))
    ensures roadLaneSegments == ShortRoadLanes(roads)
    ensures centerLaneSegments == CentreLines(roads, spline)
    ensures laneSegmentWidths == Widths(roads)
  {
    var sdfFile := new GetSdf(num);
    sdfFile.AddSphericalCoords(lat, lon);
    var sun := sdfFile.IncludeModel("sun");
    assert sdfFile.WorldChildren() == Preamble(num, lat, lon);
    AddBuildings(sdfFile, buildings);
    PreambleAndBuildingsNoRoads(num, lat, lon, buildings);
    roadLaneSegments, centerLaneSegments, laneSegmentWidths := AddRoads(sdfFile, roads, spline);
    assert sdfFile.WorldChildren() == ExpectedWorld(num, lat, lon, buildings, roads, spline);
    tree := sdfFile.sdf;
  }
}
