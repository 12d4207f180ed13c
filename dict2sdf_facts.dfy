/**
 * What the subtrees of the `GetSDF` builder contain, stated through the
 * same `find(path)` queries a consumer of the document would make.
 */
module Dict2SdfFacts {
  import opened Numbers
  import opened SdfTree
  import opened Dict2Sdf

  /** The tags of a child list, in order. */
  function Tags(cs: seq<Node>): (r: seq<string>)
    ensures |r| == |cs| && forall k :: 0 <= k < |cs| ==> r[k] == cs[k].tag
  {
    seq(|cs|, k requires 0 <= k < |cs| => cs[k].tag)
  }

  /** `find(tag)` on a leaf child i that is the first of its tag gives its text. */
  lemma LeafText(n: Node, tag: string, i: nat)
    requires i < |n.children| && n.children[i].tag == tag
    requires forall j :: 0 <= j < i ==> n.children[j].tag != tag
    ensures TextAt(n, [tag]) == n.children[i].text
  {
    FindVia(n, tag, i, []);
    assert [tag] + [] == [tag];
  }

  // ----------------------------------------------------------------------
  // Spherical coordinates, scene, includes
  // ----------------------------------------------------------------------

  /** Surface model, then latitude, longitude, elevation and heading, passed through as text. */
  lemma SphericalCoordsFields(num: Numerics, lat: Num, lon: Num, elevation: Num, heading: Num)
    ensures var n := SphericalCoordsNode(num, lat, lon, elevation, heading);
      && n.tag == "spherical_coordinates"
      && Tags(n.children) == ["surface_model", "latitude_deg", "longitude_deg", "elevation", "heading_deg"]
      && TextAt(n, ["surface_model"]) == Some("EARTH_WGS84")
      && TextAt(n, ["latitude_deg"]) == Some(NumStr(num, lat))
      && TextAt(n, ["longitude_deg"]) == Some(NumStr(num, lon))
      && TextAt(n, ["elevation"]) == Some(NumStr(num, elevation))
      && TextAt(n, ["heading_deg"]) == Some(NumStr(num, heading))
  {
    var n := SphericalCoordsNode(num, lat, lon, elevation, heading);
    LeafText(n, "surface_model", 0);
    LeafText(n, "latitude_deg", 1);
    LeafText(n, "longitude_deg", 2);
    LeafText(n, "elevation", 3);
    LeafText(n, "heading_deg", 4);
  }

  /** The default heading is the int 0, whose text is "0". */
  lemma DefaultHeadingText(num: Numerics)
    ensures NumStr(num, Int(0)) == "0"
  {
    assert NatStr(0) == [DigitChar(0)];
  }

  lemma SceneToggles(grid: bool, originVisual: bool)
    ensures var s := SceneNode(grid, originVisual);
      && Tags(s.children) == ["grid", "origin_visual"]
      && TextAt(s, ["grid"]) == Some(if grid then "true" else "false")
      && TextAt(s, ["origin_visual"]) == Some(if originVisual then "true" else "false")
  {
    var s := SceneNode(grid, originVisual);
    LeafText(s, "grid", 0);
    LeafText(s, "origin_visual", 1);
  }

  lemma IncludeOnlyUri(modelName: string)
    ensures var n := IncludeNode(modelName);
      n.tag == "include" && |n.children| == 1 && TextAt(n, ["uri"]) == Some("model://" + modelName)
  {
    LeafText(IncludeNode(modelName), "uri", 0);
  }

  /** `addModel`: an include of the main model with the given name, then a static flag and a pose. */
  lemma ModelFields(num: Numerics, mainModel: string, modelName: string, pose: Vec3)
    ensures var n := ModelNode(num, mainModel, modelName, pose);
      && n.tag == "include"
      && Tags(n.children) == ["uri", "name", "static", "pose"]
      && TextAt(n, ["uri"]) == Some("model://" + mainModel)
      && TextAt(n, ["name"]) == Some(modelName)
  {
    var n := ModelNode(num, mainModel, modelName, pose);
    assert n.children == [Leaf("uri", "model://" + mainModel), Leaf("name", modelName),
                          Leaf("static", "true"), Leaf("pose", Triple(num, pose) + " 0 0 0")];
    LeafText(n, "uri", 0);
    LeafText(n, "name", 1);
  }

  /** `addModel`: the model is static, posed at `pose` with zero rotation. */
  lemma ModelPose(num: Numerics, mainModel: string, modelName: string, pose: Vec3)
    ensures var n := ModelNode(num, mainModel, modelName, pose);
      && TextAt(n, ["static"]) == Some("true")
      && TextAt(n, ["pose"]) == Some(NumStr(num, pose.x) + " " + NumStr(num, pose.y) + " " + NumStr(num, pose.z) + " 0 0 0")
  {
    var n := ModelNode(num, mainModel, modelName, pose);
    assert n.children == [Leaf("uri", "model://" + mainModel), Leaf("name", modelName),
                          Leaf("static", "true"), Leaf("pose", Triple(num, pose) + " 0 0 0")];
    LeafText(n, "static", 2);
    LeafText(n, "pose", 3);
  }

  // ----------------------------------------------------------------------
  // Ground plane
  // ----------------------------------------------------------------------

  lemma GroundCollisionFields(num: Numerics, width: Num, height: Num)
    ensures var c := GroundCollision(num, width, height);
      && Get(c, "name") == Some("collision")
      && TextAt(c, ["pose"]) == Some("0 0 0 0 0 0")
      && TextAt(c, ["geometry", "plane", "size"]) == Some(PlaneSize(num, width, height))
      && TextAt(c, ["geometry", "plane", "normal"]) == Some("0 0 1")
  {
    var c := GroundCollision(num, width, height);
    LeafText(c, "pose", 0);
    var geometry := c.children[1];
    var plane := geometry.children[0];
    FindVia(c, "geometry", 1, ["plane", "size"]);
    FindVia(c, "geometry", 1, ["plane", "normal"]);
    FindVia(geometry, "plane", 0, ["size"]);
    FindVia(geometry, "plane", 0, ["normal"]);
    LeafText(plane, "size", 0);
    LeafText(plane, "normal", 1);
  }

  lemma GroundFriction(num: Numerics, width: Num, height: Num)
    ensures var c := GroundCollision(num, width, height);
      && TextAt(c, ["surface", "friction", "ode", "mu"]) == Some("100")
      && TextAt(c, ["surface", "friction", "ode", "mu2"]) == Some("50")
  {
    var c := GroundCollision(num, width, height);
    var surface := c.children[2];
    var friction := surface.children[0];
    var ode := friction.children[0];
    FindVia(c, "surface", 2, ["friction", "ode", "mu"]);
    FindVia(c, "surface", 2, ["friction", "ode", "mu2"]);
    FindVia(surface, "friction", 0, ["ode", "mu"]);
    FindVia(surface, "friction", 0, ["ode", "mu2"]);
    FindVia(friction, "ode", 0, ["mu"]);
    FindVia(friction, "ode", 0, ["mu2"]);
    LeafText(ode, "mu", 0);
    LeafText(ode, "mu2", 1);
  }

  lemma GroundVisualFields(num: Numerics, width: Num, height: Num)
    ensures var v := GroundVisual(num, width, height);
      && Get(v, "name") == Some("visual")
      && TextAt(v, ["pose"]) == Some("0 0 -1 0 0 0")
      && TextAt(v, ["geometry", "plane", "size"]) == Some(PlaneSize(num, width, height))
      && TextAt(v, ["geometry", "plane", "normal"]) == Some("0 0 1")
      && TextAt(v, ["material", "script", "name"]) == Some("Gazebo/Grass")
  {
    var v := GroundVisual(num, width, height);
    LeafText(v, "pose", 0);
    var geometry := v.children[1];
    var plane := geometry.children[0];
    FindVia(v, "geometry", 1, ["plane", "size"]);
    FindVia(v, "geometry", 1, ["plane", "normal"]);
    FindVia(geometry, "plane", 0, ["size"]);
    FindVia(geometry, "plane", 0, ["normal"]);
    LeafText(plane, "size", 1);
    LeafText(plane, "normal", 0);
    var material := v.children[2];
    var script := material.children[0];
    FindVia(v, "material", 2, ["script", "name"]);
    FindVia(material, "script", 0, ["name"]);
    LeafText(script, "name", 1);
  }

  /**
   * The ground is a static model whose collision and visual planes are both
   * sized `str(width) + " " + str(height)`, the visual one a unit lower.
   */
  lemma GroundPlanes(num: Numerics, width: Num, height: Num)
    ensures var g := GroundNode(num, width, height);
      var size := NumStr(num, width) + " " + NumStr(num, height);
      && Get(g, "name") == Some("ground")
      && TextAt(g, ["static"]) == Some("true")
      && TextAt(g, ["link", "collision", "geometry", "plane", "size"]) == Some(size)
      && TextAt(g, ["link", "visual", "geometry", "plane", "size"]) == Some(size)
      && TextAt(g, ["link", "collision", "pose"]) == Some("0 0 0 0 0 0")
      && TextAt(g, ["link", "visual", "pose"]) == Some("0 0 -1 0 0 0")
      && TextAt(g, ["link", "collision", "surface", "friction", "ode", "mu"]) == Some("100")
      && TextAt(g, ["link", "collision", "surface", "friction", "ode", "mu2"]) == Some("50")
  {
    var g := GroundNode(num, width, height);
    var link := g.children[1];
    LeafText(g, "static", 0);
    FindVia(g, "link", 1, ["collision"]);
    FindVia(link, "collision", 0, []);
    FindVia(g, "link", 1, ["visual"]);
    FindVia(link, "visual", 1, []);
    assert Find(g, ["link", "collision"]) == Some(GroundCollision(num, width, height));
    assert Find(g, ["link", "visual"]) == Some(GroundVisual(num, width, height));
    GroundCollisionFields(num, width, height);
    GroundFriction(num, width, height);
    GroundVisualFields(num, width, height);
    FindConcat(g, ["link", "collision"], ["geometry", "plane", "size"]);
    FindConcat(g, ["link", "visual"], ["geometry", "plane", "size"]);
    FindConcat(g, ["link", "collision"], ["pose"]);
    FindConcat(g, ["link", "visual"], ["pose"]);
    FindConcat(g, ["link", "collision"], ["surface", "friction", "ode", "mu"]);
    FindConcat(g, ["link", "collision"], ["surface", "friction", "ode", "mu2"]);
  }

  // ----------------------------------------------------------------------
  // Buildings
  // ----------------------------------------------------------------------

  /** A boundary of N >= 1 points gives a static model at the centroid with N - 1 links, in edge order. */
  lemma BuildingShape(num: Numerics, mean: Mean, pts: seq<Point2>, buildingName: string, color: string)
    ensures var b := BuildingNode(num, mean, pts, buildingName, color);
      && b.tag == "model"
      && Get(b, "name") == Some(buildingName)
      && |b.children| == 2 + EdgeCount(pts)
      && (|pts| >= 1 ==> |b.children| == |pts| + 1)
      && TextAt(b, ["static"]) == Some("true")
      && TextAt(b, ["pose"]) == Some(num.floatStr(mean.x) + " " + num.floatStr(mean.y) + " "
                                     + num.floatStr(mean.z) + " 0 0 0")
      && CountTag(b.children, "link") == EdgeCount(pts)
      && forall i :: 0 <= i < EdgeCount(pts) ==>
           b.children[2 + i].tag == "link" && Get(b.children[2 + i], "name") == Some(buildingName + "_" + NatStr(i))
  {
    var b := BuildingNode(num, mean, pts, buildingName, color);
    var head := BuildingHead(num, buildingName, mean).children;
    var walls := Walls(num, buildingName, color, mean, pts);
    assert b.children == head + walls;
    LeafText(b, "static", 0);
    LeafText(b, "pose", 1);
    CountTagAppend(head, walls, "link");
    assert CountTag(head, "link") == 0;
    CountTagAll(walls, "link");
  }

  lemma WallCollisionFields(num: Numerics, name: string, length: real)
    ensures var c := WallCollision(num, name, length);
      && Get(c, "name") == Some(name)
      && TextAt(c, ["geometry", "box", "size"]) == Some(num.floatStr(length) + " 0.2 " + num.floatStr(20.0))
  {
    var c := WallCollision(num, name, length);
    var geometry := c.children[0];
    FindVia(c, "geometry", 0, ["box", "size"]);
    FindVia(geometry, "box", 0, ["size"]);
    LeafText(geometry.children[0], "size", 0);
  }

  lemma WallVisualFields(num: Numerics, name: string, length: real, color: string)
    ensures var v := WallVisual(num, name, length, color);
      && Get(v, "name") == Some(name)
      && TextAt(v, ["geometry", "box", "size"]) == Some(num.floatStr(length) + " 0.2 " + num.floatStr(20.0))
      && TextAt(v, ["material", "script", "name"]) == Some("Gazebo/" + color)
  {
    var v := WallVisual(num, name, length, color);
    var geometry := v.children[0];
    FindVia(v, "geometry", 0, ["box", "size"]);
    FindVia(geometry, "box", 0, ["size"]);
    LeafText(geometry.children[0], "size", 0);
    var material := v.children[1];
    FindVia(v, "material", 1, ["script", "name"]);
    FindVia(material, "script", 0, ["name"]);
    LeafText(material.children[0], "name", 1);
  }

  /** Wall i of a building is named `<name>_<i>` on its link, collision and visual alike. */
  lemma WallNames(num: Numerics, mean: Mean, pts: seq<Point2>, buildingName: string, color: string, i: nat)
    requires i < EdgeCount(pts)
    ensures var w := BuildingNode(num, mean, pts, buildingName, color).children[2 + i];
      var name := buildingName + "_" + NatStr(i);
      && Get(w, "name") == Some(name)
      && Tags(w.children) == ["collision", "visual", "pose"]
      && Get(w.children[0], "name") == Some(name)
      && Get(w.children[1], "name") == Some(name)
  {
    var walls := Walls(num, buildingName, color, mean, pts);
    assert BuildingNode(num, mean, pts, buildingName, color).children[2 + i] == walls[i];
    assert walls[i] == Wall(num, buildingName, color, mean, pts, i);
  }

  /** Both boxes of wall i measure (edge length, 0.2, 20.0); it is painted `Gazebo/<color>`. */
  lemma WallAppearance(num: Numerics, mean: Mean, pts: seq<Point2>, buildingName: string, color: string, i: nat)
    requires i < EdgeCount(pts)
    ensures var w := BuildingNode(num, mean, pts, buildingName, color).children[2 + i];
      var p, q := pts[i], pts[i + 1];
      var size := num.floatStr(num.sqrt((p.y - q.y) * (p.y - q.y) + (p.x - q.x) * (p.x - q.x)))
                  + " 0.2 " + num.floatStr(20.0);
      && TextAt(w, ["collision", "geometry", "box", "size"]) == Some(size)
      && TextAt(w, ["visual", "geometry", "box", "size"]) == Some(size)
      && TextAt(w, ["visual", "material", "script", "name"]) == Some("Gazebo/" + color)
  {
    var walls := Walls(num, buildingName, color, mean, pts);
    assert BuildingNode(num, mean, pts, buildingName, color).children[2 + i] == walls[i];
    var name := WallName(buildingName, i);
    var length := EdgeLength(num, pts[i], pts[i + 1]);
    var w := walls[i];
    assert w == Wall(num, buildingName, color, mean, pts, i);
    WallCollisionFields(num, name, length);
    WallVisualFields(num, name, length, color);
    FindVia(w, "collision", 0, ["geometry", "box", "size"]);
    FindVia(w, "visual", 1, ["geometry", "box", "size"]);
    FindVia(w, "visual", 1, ["material", "script", "name"]);
  }

  /**
   * Wall i is posed at the edge midpoint minus the centroid, at z = 9, with
   * yaw the angle of current minus next point.
   */
  lemma WallPlacement(num: Numerics, mean: Mean, pts: seq<Point2>, buildingName: string, color: string, i: nat)
    requires i < EdgeCount(pts)
    ensures var w := BuildingNode(num, mean, pts, buildingName, color).children[2 + i];
      var p, q := pts[i], pts[i + 1];
      TextAt(w, ["pose"]) == Some(num.floatStr((p.x + q.x) / 2.0 - mean.x) + " "
                                     + num.floatStr((p.y + q.y) / 2.0 - mean.y) + " "
                                     + num.floatStr(9.0) + " 0 0 "
                                     + num.floatStr(num.atan2(p.y - q.y, p.x - q.x)))
  {
    var walls := Walls(num, buildingName, color, mean, pts);
    assert BuildingNode(num, mean, pts, buildingName, color).children[2 + i] == walls[i];
    var w := walls[i];
    assert w == Wall(num, buildingName, color, mean, pts, i);
    LeafText(w, "pose", 2);
    assert WallHeight / 2.0 - 1.0 == 9.0;
  }

  /** No two walls of one building share a name. */
  lemma WallNamesDistinct(buildingName: string, i: nat, j: nat)
    requires i != j
    ensures WallName(buildingName, i) != WallName(buildingName, j)
  {
    if WallName(buildingName, i) == WallName(buildingName, j) {
      var k := |buildingName + "_"|;
      assert WallName(buildingName, i)[k..] == NatStr(i);
      assert WallName(buildingName, j)[k..] == NatStr(j);
      NatStrInjective(i, j);
    }
  }

  /**
   * The boundary [(0, 0), (10, 0)] around centroid (5, 0, 0) has one edge,
   * at offset (0, 0), with yaw atan2(0, -10) and length sqrt(100).
   */
  lemma TwoPointBoundary(num: Numerics)
    ensures var pts := [Point2(0.0, 0.0), Point2(10.0, 0.0)];
      var mean := Mean(5.0, 0.0, 0.0);
      && EdgeCount(pts) == 1
      && EdgeOffset(pts[0], pts[1], mean) == Point2(0.0, 0.0)
      && EdgeYaw(num, pts[0], pts[1]) == num.atan2(0.0, -10.0)
      && EdgeLength(num, pts[0], pts[1]) == num.sqrt(100.0)
  {
    assert (0.0 - 0.0) * (0.0 - 0.0) + (0.0 - 10.0) * (0.0 - 10.0) == 100.0;
  }

  /**
   * A boundary that repeats one point is not refused: it still gets one
   * wall, whose boxes have length `sqrt(0)`.
   */
  lemma DegenerateEdgeWall(num: Numerics, mean: Mean, p: Point2, buildingName: string, color: string)
    ensures var b := BuildingNode(num, mean, [p, p], buildingName, color);
      var size := num.floatStr(num.sqrt(0.0)) + " 0.2 " + num.floatStr(20.0);
      && |b.children| == 3
      && TextAt(b.children[2], ["collision", "geometry", "box", "size"]) == Some(size)
      && TextAt(b.children[2], ["visual", "geometry", "box", "size"]) == Some(size)
  {
    var pts := [p, p];
    assert EdgeCount(pts) == 1 && pts[0] == p && pts[1] == p;
    var sq := (p.y - p.y) * (p.y - p.y) + (p.x - p.x) * (p.x - p.x);
    assert sq == 0.0;
    var size := num.floatStr(num.sqrt(0.0)) + " 0.2 " + num.floatStr(20.0);
    assert num.floatStr(num.sqrt(sq)) + " 0.2 " + num.floatStr(20.0) == size;
    WallAppearance(num, mean, pts, buildingName, color, 0);
  }

  /** The wall of a repeated point sits at that point minus the centroid, with yaw `atan2(0, 0)`. */
  lemma DegenerateEdgePose(num: Numerics, mean: Mean, p: Point2, buildingName: string, color: string)
    ensures var b := BuildingNode(num, mean, [p, p], buildingName, color);
      && |b.children| == 3
      && TextAt(b.children[2], ["pose"]) == Some(num.floatStr(p.x - mean.x) + " "
                                                + num.floatStr(p.y - mean.y) + " "
                                                + num.floatStr(9.0) + " 0 0 "
                                                + num.floatStr(num.atan2(0.0, 0.0)))
  {
    assert EdgeCount([p, p]) == 1;
    WallPlacement(num, mean, [p, p], buildingName, color, 0);
    assert (p.x + p.x) / 2.0 == p.x && (p.y + p.y) / 2.0 == p.y;
    assert p.y - p.y == 0.0 && p.x - p.x == 0.0;
  }

  /** The first road named `roadName` after a prefix with none is the one appended. */
  lemma AppendedRoadIsFirst(prefix: seq<Node>, road: Node, roadName: string)
    requires forall j :: 0 <= j < |prefix| ==> !IsRoadNamed(prefix[j], roadName)
    requires IsRoadNamed(road, roadName)
    ensures FirstRoadNamed(prefix + [road], roadName) == Some(|prefix|)
  {
    var cs := prefix + [road];
    assert cs[|prefix|] == road;
    assert forall j :: 0 <= j < |prefix| ==> cs[j] == prefix[j];
  }
}
