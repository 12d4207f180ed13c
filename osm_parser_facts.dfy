/**
 * What the world `write_to_SDF` produces contains: the anchor and the sun
 * once each and first, one model per building and one road per map entry
 * in map order, each road findable by its name, and the point-count policy
 * (raw points below three, the spline otherwise).
 */
module OsmParserFacts {
  import opened Numbers
  import opened SdfTree
  import opened Dict2Sdf
  import opened Dict2SdfFacts
  import opened OsmParser

  /** The first road named `roadName` is at i when child i is one and none before it is. */
  lemma FirstRoadNamedAt(cs: seq<Node>, roadName: string, i: nat)
    requires i < |cs| && IsRoadNamed(cs[i], roadName)
    requires NoRoadNamed(cs[..i], roadName)
    ensures FirstRoadNamed(cs, roadName) == Some(i)
  {
    assert forall j :: 0 <= j < i ==> cs[..i][j] == cs[j];
  }

  /** The world opens with the spherical coordinates (elevation 0.0, heading 0) and the sun. */
  lemma WorldPreamble(num: Numerics, lat: Num, lon: Num, buildings: seq<(string, BuildingInfo)>,
                      roads: seq<(string, RoadInfo)>, spline: Spline)
    requires AllFit(spline, roads)
    ensures var w := ExpectedWorld(num, lat, lon, buildings, roads, spline);
      && |w| == 2 + |buildings| + |roads|
      && w[0] == SphericalCoordsNode(num, lat, lon, Float(0.0), Int(0))
      && TextAt(w[0], ["latitude_deg"]) == Some(NumStr(num, lat))
      && TextAt(w[0], ["longitude_deg"]) == Some(NumStr(num, lon))
      && TextAt(w[0], ["heading_deg"]) == Some("0")
      && w[1].tag == "include" && TextAt(w[1], ["uri"]) == Some("model://sun")
  {
    var w := ExpectedWorld(num, lat, lon, buildings, roads, spline);
    assert w[0] == SphericalCoordsNode(num, lat, lon, Float(0.0), Int(0));
    assert w[1] == IncludeNode("sun");
    SphericalCoordsFields(num, lat, lon, Float(0.0), Int(0));
    DefaultHeadingText(num);
    IncludeOnlyUri("sun");
    assert "model://" + "sun" == "model://sun";
  }

  /** After the preamble come the buildings, in map order. */
  lemma BuildingsInOrder(num: Numerics, lat: Num, lon: Num, buildings: seq<(string, BuildingInfo)>,
                         roads: seq<(string, RoadInfo)>, spline: Spline, k: nat)
    requires AllFit(spline, roads) && k < |buildings|
    ensures ExpectedWorld(num, lat, lon, buildings, roads, spline)[2 + k]
         == BuildingNode(num, buildings[k].1.mean, buildings[k].1.points, buildings[k].0, buildings[k].1.color)
  {
    var bs := BuildingNodes(num, buildings);
    assert ExpectedWorld(num, lat, lon, buildings, roads, spline)[2 + k] == bs[k];
  }

  /** After the buildings come the roads, in map order, and nothing else. */
  lemma RoadsInOrder(num: Numerics, lat: Num, lon: Num, buildings: seq<(string, BuildingInfo)>,
                     roads: seq<(string, RoadInfo)>, spline: Spline, k: nat)
    requires AllFit(spline, roads) && k < |roads|
    ensures |ExpectedWorld(num, lat, lon, buildings, roads, spline)| == 2 + |buildings| + |roads|
    ensures ExpectedWorld(num, lat, lon, buildings, roads, spline)[2 + |buildings| + k]
         == RoadNodeFull(num, roads[k].0, roads[k].1, spline)
  {
    var front := Preamble(num, lat, lon) + BuildingNodes(num, buildings);
    var rs := RoadNodes(num, roads, spline);
    var w := ExpectedWorld(num, lat, lon, buildings, roads, spline);
    assert w == front + rs && |front| == 2 + |buildings|;
    assert w[|front| + k] == rs[k];
  }

  /** Exactly one anchor and one include: the sun, as the model loop is disabled. */
  lemma OneAnchorOneSun(num: Numerics, lat: Num, lon: Num, buildings: seq<(string, BuildingInfo)>,
                        roads: seq<(string, RoadInfo)>, spline: Spline)
    requires AllFit(spline, roads)
    ensures var w := ExpectedWorld(num, lat, lon, buildings, roads, spline);
      && CountTag(w, "spherical_coordinates") == 1
      && CountTag(w, "include") == 1
  {
    var pre := Preamble(num, lat, lon);
    var bs := BuildingNodes(num, buildings);
    var rs := RoadNodes(num, roads, spline);
    assert ExpectedWorld(num, lat, lon, buildings, roads, spline) == pre + bs + rs;
    assert forall k :: 0 <= k < |bs| ==> bs[k].tag == "model";
    assert forall k :: 0 <= k < |rs| ==> rs[k].tag == "road";
    CountTagsOfPreamble(num, lat, lon);
    CountTagAbsent(bs, "spherical_coordinates");
    CountTagAbsent(bs, "include");
    CountTagAbsent(rs, "spherical_coordinates");
    CountTagAbsent(rs, "include");
    CountTagAppend(pre, bs, "spherical_coordinates");
    CountTagAppend(pre, bs, "include");
    CountTagAppend(pre + bs, rs, "spherical_coordinates");
    CountTagAppend(pre + bs, rs, "include");
  }

  /** One `model` per building and one `road` per map entry. */
  lemma ModelAndRoadCounts(num: Numerics, lat: Num, lon: Num, buildings: seq<(string, BuildingInfo)>,
                           roads: seq<(string, RoadInfo)>, spline: Spline)
    requires AllFit(spline, roads)
    ensures var w := ExpectedWorld(num, lat, lon, buildings, roads, spline);
      && CountTag(w, "model") == |buildings|
      && CountTag(w, "road") == |roads|
  {
    var pre := Preamble(num, lat, lon);
    var bs := BuildingNodes(num, buildings);
    var rs := RoadNodes(num, roads, spline);
    assert ExpectedWorld(num, lat, lon, buildings, roads, spline) == pre + bs + rs;
    assert forall k :: 0 <= k < |bs| ==> bs[k].tag == "model";
    assert forall k :: 0 <= k < |rs| ==> rs[k].tag == "road";
    CountTagsOfPreamble(num, lat, lon);
    CountTagAll(bs, "model");
    CountTagAbsent(bs, "road");
    CountTagAll(rs, "road");
    CountTagAbsent(rs, "model");
    CountTagAppend(pre, bs, "model");
    CountTagAppend(pre, bs, "road");
    CountTagAppend(pre + bs, rs, "model");
    CountTagAppend(pre + bs, rs, "road");
  }

  lemma CountTagsOfPreamble(num: Numerics, lat: Num, lon: Num)
    ensures var pre := Preamble(num, lat, lon);
      && CountTag(pre, "spherical_coordinates") == 1
      && CountTag(pre, "include") == 1
      && CountTag(pre, "model") == 0
      && CountTag(pre, "road") == 0
  {
    var pre := Preamble(num, lat, lon);
    assert pre[1..][1..] == [];
  }

  /**
   * Every road is found by its name, as `setRoadWidth` and `addRoadPoint`
   * look it up: the first `road` named `roads[k].0` is road k's element.
   */
  lemma RoadsResolve(num: Numerics, lat: Num, lon: Num, buildings: seq<(string, BuildingInfo)>,
                     roads: seq<(string, RoadInfo)>, spline: Spline, k: nat)
    requires AllFit(spline, roads) && DistinctNames(roads) && k < |roads|
    ensures FirstRoadNamed(ExpectedWorld(num, lat, lon, buildings, roads, spline), roads[k].0)
         == Some(2 + |buildings| + k)
  {
    var base := Preamble(num, lat, lon) + BuildingNodes(num, buildings);
    var w := ExpectedWorld(num, lat, lon, buildings, roads, spline);
    PreambleAndBuildingsNoRoads(num, lat, lon, buildings);
    NoEarlierRoad(num, base, roads, spline, k);
    WorldSplitsAtRoad(num, lat, lon, buildings, roads, spline, k);
    FirstRoadNamedAt(w, roads[k].0, 2 + |buildings| + k);
  }

  /** Before road k's element come the preamble, the buildings and the roads before k. */
  lemma WorldSplitsAtRoad(num: Numerics, lat: Num, lon: Num, buildings: seq<(string, BuildingInfo)>,
                          roads: seq<(string, RoadInfo)>, spline: Spline, k: nat)
    requires AllFit(spline, roads) && k < |roads|
    ensures AllFit(spline, roads[..k])
    ensures var w := ExpectedWorld(num, lat, lon, buildings, roads, spline);
      var i := 2 + |buildings| + k;
      && i < |w|
      && w[..i] == Preamble(num, lat, lon) + BuildingNodes(num, buildings) + RoadNodes(num, roads[..k], spline)
      && IsRoadNamed(w[i], roads[k].0)
  {
    var base := Preamble(num, lat, lon) + BuildingNodes(num, buildings);
    var rs := RoadNodes(num, roads, spline);
    var w := ExpectedWorld(num, lat, lon, buildings, roads, spline);
    assert w == base + rs;
    assert rs[..k] == RoadNodes(num, roads[..k], spline);
    assert w[..|base| + k] == base + rs[..k];
    assert w[|base| + k] == RoadNodeFull(num, roads[k].0, roads[k].1, spline);
  }

  /** A road element is named after its map key and holds one `width`, first, with `str(width)`. */
  lemma RoadWidth(num: Numerics, name: string, info: RoadInfo, spline: Spline)
    requires SplineFits(spline, info.points)
    ensures var n := RoadNodeFull(num, name, info, spline);
      && n.tag == "road" && Get(n, "name") == Some(name)
      && |n.children| == 1 + |CentreLine(spline, info.points).0|
      && TextAt(n, ["width"]) == Some(NumStr(num, info.width))
      && CountTag(n.children, "width") == 1
  {
    var n := RoadNodeFull(num, name, info, spline);
    var line := CentreLine(spline, info.points);
    var points := RoadPoints(num, line.0, line.1);
    assert n.children == [WidthNode(num, info.width)] + points;
    LeafText(n, "width", 0);
    assert forall k :: 0 <= k < |points| ==> points[k].tag == "point";
    CountTagAbsent(points, "width");
    CountTagAppend([WidthNode(num, info.width)], points, "width");
  }

  /** The text `addRoadPoint([x, y, 0], road)` gives its `point`. */
  lemma PointText(num: Numerics, x: real, y: real)
    ensures PointNode(num, Vec3(Float(x), Float(y), Int(0))).tag == "point"
    ensures PointNode(num, Vec3(Float(x), Float(y), Int(0))).text == Some(num.floatStr(x) + " " + num.floatStr(y) + " 0")
  {
    DefaultHeadingText(num);
    var a := num.floatStr(x) + " " + num.floatStr(y);
    assert Triple(num, Vec3(Float(x), Float(y), Int(0))) == a + " " + "0";
    assert a + " " + "0" == a + " 0";
  }

  /** After the width, one `point` per centre-line entry, with text `str(x) + " " + str(y) + " 0"`. */
  lemma RoadPointTexts(num: Numerics, name: string, info: RoadInfo, spline: Spline, k: nat)
    requires SplineFits(spline, info.points) && k < |CentreLine(spline, info.points).0|
    ensures var n := RoadNodeFull(num, name, info, spline);
      var line := CentreLine(spline, info.points);
      && n.children[1 + k].tag == "point"
      && n.children[1 + k].text == Some(num.floatStr(line.0[k]) + " " + num.floatStr(line.1[k]) + " 0")
  {
    var line := CentreLine(spline, info.points);
    var points := RoadPoints(num, line.0, line.1);
    assert RoadNodeFull(num, name, info, spline).children[1 + k] == points[k];
    PointText(num, line.0[k], line.1[k]);
  }

  /** The road holds as many `point`s as its centre line has entries. */
  lemma RoadPointCount(num: Numerics, name: string, info: RoadInfo, spline: Spline)
    requires SplineFits(spline, info.points)
    ensures CountTag(RoadNodeFull(num, name, info, spline).children, "point") == |CentreLine(spline, info.points).0|
  {
    var line := CentreLine(spline, info.points);
    var points := RoadPoints(num, line.0, line.1);
    assert RoadNodeFull(num, name, info, spline).children == [WidthNode(num, info.width)] + points;
    assert forall k :: 0 <= k < |points| ==> points[k].tag == "point";
    CountTagAll(points, "point");
    CountTagAppend([WidthNode(num, info.width)], points, "point");
  }

  /** A road of fewer than three points keeps exactly its own points, unsmoothed. */
  lemma ShortRoadKeepsPoints(num: Numerics, name: string, info: RoadInfo, spline: Spline)
    requires IsShort(info.points)
    ensures SplineFits(spline, info.points)
    ensures var n := RoadNodeFull(num, name, info, spline);
      && |n.children| == 1 + |info.points|
      && forall k :: 0 <= k < |info.points| ==>
           n.children[1 + k] == PointNode(num, Vec3(Float(info.points[k].x), Float(info.points[k].y), Int(0)))
  {
    var n := RoadNodeFull(num, name, info, spline);
    var points := RoadPoints(num, Xs(info.points), Ys(info.points));
    assert n.children == [WidthNode(num, info.width)] + points;
    assert forall k :: 0 <= k < |info.points| ==> n.children[1 + k] == points[k];
  }

  /** A road of three or more points holds the spline's points, `catmull_rom(x, y, 10)`. */
  lemma LongRoadIsSplined(num: Numerics, name: string, info: RoadInfo, spline: Spline)
    requires !IsShort(info.points) && SplineFits(spline, info.points)
    ensures var n := RoadNodeFull(num, name, info, spline);
      var line := spline(Xs(info.points), Ys(info.points), 10);
      && |n.children| == 1 + |line.0|
      && forall k :: 0 <= k < |line.0| ==>
           n.children[1 + k] == PointNode(num, Vec3(Float(line.0[k]), Float(line.1[k]), Int(0)))
  {
    var n := RoadNodeFull(num, name, info, spline);
    var line := spline(Xs(info.points), Ys(info.points), 10);
    var points := RoadPoints(num, line.0, line.1);
    assert n.children == [WidthNode(num, info.width)] + points;
    assert forall k :: 0 <= k < |line.0| ==> n.children[1 + k] == points[k];
  }

  /**
   * `roadLaneSegments` holds one entry per short road, in road order: the
   * entry of short road k, `[lanePoint, lanePoint]`, is road k's own point
   * list twice, at the position given by the number of short roads before
   * it; and every entry is such a road's.
   */
  lemma {:induction false} ShortRoadLanesShape(roads: seq<(string, RoadInfo)>)
    ensures var lanes := ShortRoadLanes(roads);
      && |lanes| == ShortCount(roads)
      && (forall k :: 0 <= k < |roads| && IsShort(roads[k].1.points) ==>
            ShortCount(roads[..k]) < |lanes|
            && lanes[ShortCount(roads[..k])] == (roads[k].1.points, roads[k].1.points))
      && (forall e :: e in lanes ==>
            exists k :: 0 <= k < |roads| && IsShort(roads[k].1.points) && e == (roads[k].1.points, roads[k].1.points))
  {
    if roads != [] {
      var n := |roads| - 1;
      var init := roads[..n];
      var last := roads[n].1.points;
      ShortRoadLanesShape(init);
      var lanes0 := ShortRoadLanes(init);
      assert ShortRoadLanes(roads) == lanes0 + ShortLane(last);
      assert ShortCount(roads) == ShortCount(init) + (if IsShort(last) then 1 else 0);
      forall k | 0 <= k < |roads| && IsShort(roads[k].1.points)
        ensures ShortCount(roads[..k]) < |ShortRoadLanes(roads)|
        ensures ShortRoadLanes(roads)[ShortCount(roads[..k])] == (roads[k].1.points, roads[k].1.points)
      {
        if k < n {
          assert roads[..k] == init[..k];
          assert init[k] == roads[k];
        } else {
          assert roads[..k] == init;
        }
      }
      forall e | e in ShortRoadLanes(roads)
        ensures exists k :: 0 <= k < |roads| && IsShort(roads[k].1.points) && e == (roads[k].1.points, roads[k].1.points)
      {
        if e in lanes0 {
          var k :| 0 <= k < |init| && IsShort(init[k].1.points) && e == (init[k].1.points, init[k].1.points);
          assert init[k] == roads[k];
        } else {
          assert e == (last, last) && IsShort(last);
        }
      }
    }
  }

  /** When every road is short, each gets an entry; when none is, the list stays empty. */
  lemma {:induction false} ShortCountExtremes(roads: seq<(string, RoadInfo)>)
    ensures (forall k :: 0 <= k < |roads| ==> IsShort(roads[k].1.points)) ==> ShortCount(roads) == |roads|
    ensures (forall k :: 0 <= k < |roads| ==> !IsShort(roads[k].1.points)) ==> ShortCount(roads) == 0
  {
    if roads != [] {
      var init := roads[..|roads| - 1];
      ShortCountExtremes(init);
      assert forall k :: 0 <= k < |init| ==> init[k] == roads[k];
    }
  }
}
