/**
 * The `GetSDF` scene-document builder.
 *
 * A `GetSdf` object owns one document: a root `sdf` element (version 1.4)
 * whose single child is the `world` element named `default`. Every builder
 * method appends one fixed-shape subtree at the end of `world`'s children,
 * except `SetRoadWidth` and `AddRoadPoint`, which append one child to the
 * first road of the given name. The shapes are the functions of the first
 * half of this module; the class's methods are proved to append exactly
 * them, and the lemmas at the end state what the shapes contain.
 */
module Dict2Sdf {
  import opened Numbers
  import opened SdfTree

  /** A three-element pose or point list `[a, b, c]` as the source indexes it. */
  datatype Vec3 = Vec3(x: Num, y: Num, z: Num)

  /** One column of a 2 x N numpy point array: a planar (x, y) point. */
  datatype Point2 = Point2(x: real, y: real)

  /** A building's 3 x 1 numpy centroid `mean`. */
  datatype Mean = Mean(x: real, y: real, z: real)

  /** How a road lookup ends: `IndexError` is `roadWanted[0]` on an empty list. */
  datatype Status = Done | IndexError

  /** Height of every building wall. */
  const WallHeight: real := 20.0

  const MaterialScripts: string := "file://media/materials/scripts/gazebo.material"

  // ----------------------------------------------------------------------
  // The document and the subtrees the builder methods append
  // ----------------------------------------------------------------------

  /** The document: root `sdf` with one `world` holding `world` as its children. */
  function Root(world: seq<Node>): Node
  {
    Node("sdf", map["version" := "1.4"], None, [Named("world", "default", world)])
  }

  /** `str(v[0]) + " " + str(v[1]) + " " + str(v[2])`. */
  function Triple(num: Numerics, v: Vec3): string
  {
    NumStr(num, v.x) + " " + NumStr(num, v.y) + " " + NumStr(num, v.z)
  }

  function SphericalCoordsNode(num: Numerics, lat: Num, lon: Num, elevation: Num, heading: Num): Node
  {
    Elem("spherical_coordinates", [
      Leaf("surface_model", "EARTH_WGS84"),
      Leaf("latitude_deg", NumStr(num, lat)),
      Leaf("longitude_deg", NumStr(num, lon)),
      Leaf("elevation", NumStr(num, elevation)),
      Leaf("heading_deg", NumStr(num, heading))])
  }

  /** `str(width) + ' ' + str(height)`. */
  function PlaneSize(num: Numerics, width: Num, height: Num): string
  {
    NumStr(num, width) + " " + NumStr(num, height)
  }

  function GroundCollision(num: Numerics, width: Num, height: Num): Node
  {
    Named("collision", "collision", [
      Leaf("pose", "0 0 0 0 0 0"),
      Elem("geometry", [Elem("plane", [
        Leaf("size", PlaneSize(num, width, height)),
        Leaf("normal", "0 0 1")])]),
      Elem("surface", [Elem("friction", [Elem("ode", [
        Leaf("mu", "100"),
        Leaf("mu2", "50")])])])])
  }

  function GroundVisual(num: Numerics, width: Num, height: Num): Node
  {
    Named("visual", "visual", [
      Leaf("pose", "0 0 -1 0 0 0"),
      Elem("geometry", [Elem("plane", [
        Leaf("normal", "0 0 1"),
        Leaf("size", PlaneSize(num, width, height))])]),
      Elem("material", [Elem("script", [
        Leaf("uri", MaterialScripts),
        Leaf("name", "Gazebo/Grass")])])])
  }

  function GroundNode(num: Numerics, width: Num, height: Num): Node
  {
    Named("model", "ground", [
      Leaf("static", "true"),
      Named("link", "link", [GroundCollision(num, width, height), GroundVisual(num, width, height)])])
  }

  function SceneNode(grid: bool, originVisual: bool): Node
  {
    Elem("scene", [Leaf("grid", BoolText(grid)), Leaf("origin_visual", BoolText(originVisual))])
  }

  function IncludeNode(modelName: string): Node
  {
    Elem("include", [Leaf("uri", "model://" + modelName)])
  }

  /** What `addModel` leaves: the include of `mainModel` with a name, static flag and pose. */
  function ModelNode(num: Numerics, mainModel: string, modelName: string, pose: Vec3): Node
  {
    Appended(IncludeNode(mainModel), [
      Leaf("name", modelName),
      Leaf("static", "true"),
      Leaf("pose", Triple(num, pose) + " 0 0 0")])
  }

  function RoadNode(roadName: string): Node
  {
    Named("road", roadName, [])
  }

  function WidthNode(num: Numerics, width: Num): Node
  {
    Leaf("width", NumStr(num, width))
  }

  function PointNode(num: Numerics, point: Vec3): Node
  {
    Leaf("point", Triple(num, point))
  }

  // ----------------------------------------------------------------------
  // Building walls
  // ----------------------------------------------------------------------

  /** The number of edges `range(numpy.size(pointList, 1) - 1)` visits. */
  function EdgeCount(pts: seq<Point2>): nat
  {
    if |pts| == 0 then 0 else |pts| - 1
  }

  /** Yaw of the wall on edge p -> q: the angle of current minus next. */
  function EdgeYaw(num: Numerics, p: Point2, q: Point2): real
  {
    num.atan2(p.y - q.y, p.x - q.x)
  }

  function EdgeLength(num: Numerics, p: Point2, q: Point2): real
  {
    num.sqrt((p.y - q.y) * (p.y - q.y) + (p.x - q.x) * (p.x - q.x))
  }

  /** Midpoint of edge p -> q relative to the building centroid. */
  function EdgeOffset(p: Point2, q: Point2, mean: Mean): Point2
  {
    Point2((p.x + q.x) / 2.0 - mean.x, (p.y + q.y) / 2.0 - mean.y)
  }

  /** The `yaw` list of `addBuilding`. */
  function Yaws(num: Numerics, pts: seq<Point2>): (r: seq<real>)
    ensures |r| == EdgeCount(pts)
    ensures forall i :: 0 <= i < |r| ==> r[i] == EdgeYaw(num, pts[i], pts[i + 1])
  {
    seq(EdgeCount(pts), i requires 0 <= i < EdgeCount(pts) => EdgeYaw(num, pts[i], pts[i + 1]))
  }

  /** The `distance` list of `addBuilding`. */
  function Distances(num: Numerics, pts: seq<Point2>): (r: seq<real>)
    ensures |r| == EdgeCount(pts)
    ensures forall i :: 0 <= i < |r| ==> r[i] == EdgeLength(num, pts[i], pts[i + 1])
  {
    seq(EdgeCount(pts), i requires 0 <= i < EdgeCount(pts) => EdgeLength(num, pts[i], pts[i + 1]))
  }

  /** The `meanPoint` list of `addBuilding` (its always-zero third entry dropped). */
  function MeanPoints(pts: seq<Point2>, mean: Mean): (r: seq<Point2>)
    ensures |r| == EdgeCount(pts)
    ensures forall i :: 0 <= i < |r| ==> r[i] == EdgeOffset(pts[i], pts[i + 1], mean)
  {
    seq(EdgeCount(pts), i requires 0 <= i < EdgeCount(pts) => EdgeOffset(pts[i], pts[i + 1], mean))
  }

  /** `building_name + '_' + str(i)`. */
  function WallName(buildingName: string, i: nat): string
  {
    buildingName + "_" + NatStr(i)
  }

  /** `str(distance) + ' 0.2 ' + str(height)`. */
  function BoxSize(num: Numerics, length: real): string
  {
    num.floatStr(length) + " 0.2 " + num.floatStr(WallHeight)
  }

  function WallPose(num: Numerics, offset: Point2, yaw: real): string
  {
    num.floatStr(offset.x) + " " + num.floatStr(offset.y) + " "
      + num.floatStr(WallHeight / 2.0 - 1.0) + " 0 0 " + num.floatStr(yaw)
  }

  function WallCollision(num: Numerics, name: string, length: real): Node
  {
    Named("collision", name, [
      Elem("geometry", [Elem("box", [Leaf("size", BoxSize(num, length))])])])
  }

  function WallVisual(num: Numerics, name: string, length: real, color: string): Node
  {
    Named("visual", name, [
      Elem("geometry", [Elem("box", [Leaf("size", BoxSize(num, length))])]),
      Elem("material", [Elem("script", [
        Leaf("uri", MaterialScripts),
        Leaf("name", "Gazebo/" + color)])])])
  }

  /** The link one iteration of the wall loop appends. */
  function WallLink(num: Numerics, buildingName: string, i: nat, color: string,
                    length: real, offset: Point2, yaw: real): Node
  {
    var name := WallName(buildingName, i);
    Named("link", name, [
      WallCollision(num, name, length),
      WallVisual(num, name, length, color),
      Leaf("pose", WallPose(num, offset, yaw))])
  }

  /** The wall link of edge i of a boundary. */
  function Wall(num: Numerics, buildingName: string, color: string, mean: Mean,
                pts: seq<Point2>, i: nat): Node
    requires i < EdgeCount(pts)
  {
    WallLink(num, buildingName, i, color, EdgeLength(num, pts[i], pts[i + 1]),
             EdgeOffset(pts[i], pts[i + 1], mean), EdgeYaw(num, pts[i], pts[i + 1]))
  }

  function Walls(num: Numerics, buildingName: string, color: string, mean: Mean,
                 pts: seq<Point2>): (r: seq<Node>)
    ensures |r| == EdgeCount(pts)
    ensures forall i :: 0 <= i < |r| ==> r[i] == Wall(num, buildingName, color, mean, pts, i)
  {
    seq(EdgeCount(pts), i requires 0 <= i < EdgeCount(pts) => Wall(num, buildingName, color, mean, pts, i))
  }

  /** The building model before its walls: static flag and centroid pose. */
  function BuildingHead(num: Numerics, buildingName: string, mean: Mean): Node
  {
    Named("model", buildingName, [
      Leaf("static", "true"),
      Leaf("pose", num.floatStr(mean.x) + " " + num.floatStr(mean.y) + " "
                   + num.floatStr(mean.z) + " 0 0 0")])
  }

  function BuildingNode(num: Numerics, mean: Mean, pts: seq<Point2>, buildingName: string, color: string): Node
  {
    Appended(BuildingHead(num, buildingName, mean), Walls(num, buildingName, color, mean, pts))
  }

  /** The link built from the three lists is the wall of edge `i`. */
  lemma WallFromLists(num: Numerics, buildingName: string, color: string, mean: Mean, pts: seq<Point2>, i: nat)
    requires i < EdgeCount(pts)
    ensures WallLink(num, buildingName, i, color, Distances(num, pts)[i], MeanPoints(pts, mean)[i], Yaws(num, pts)[i])
         == Wall(num, buildingName, color, mean, pts, i)
  {
    assert Distances(num, pts)[i] == EdgeLength(num, pts[i], pts[i + 1]);
    assert MeanPoints(pts, mean)[i] == EdgeOffset(pts[i], pts[i + 1], mean);
    assert Yaws(num, pts)[i] == EdgeYaw(num, pts[i], pts[i + 1]);
  }

  // ----------------------------------------------------------------------
  // Road lookup
  // ----------------------------------------------------------------------

  /** A `world` child found by `findall('road')` whose `get('name')` equals `roadName`. */
  predicate IsRoadNamed(n: Node, roadName: string)
  {
    n.tag == "road" && Get(n, "name") == Some(roadName)
  }

  /** `roadWanted[0]`: the index of the first road named `roadName`, if any. */
  function FirstRoadNamed(cs: seq<Node>, roadName: string): (r: Option<nat>)
    ensures r.Some? ==> r.value < |cs| && IsRoadNamed(cs[r.value], roadName)
    ensures r.Some? ==> forall j :: 0 <= j < r.value ==> !IsRoadNamed(cs[j], roadName)
    ensures r.None? <==> forall j :: 0 <= j < |cs| ==> !IsRoadNamed(cs[j], roadName)
  {
    if cs == [] then None
    else if IsRoadNamed(cs[0], roadName) then Some(0)
    else match FirstRoadNamed(cs[1..], roadName)
      case None => None
      case Some(i) => Some(i + 1)
  }

  // ----------------------------------------------------------------------
  // The builder
  // ----------------------------------------------------------------------

  class GetSdf {
    /** numpy and `str()` as this builder sees them. */
    const num: Numerics
    var sdf: Node
    /** Created empty and never read or written again. */
    var modelList: map<string, Node>

    ghost predicate Valid()
      reads this
    {
      |sdf.children| == 1 && sdf == Root(sdf.children[0].children)
    }

    /** The children of `self.sdf.find('world')`. */
    function WorldChildren(): seq<Node>
      reads this
      requires Valid()
    {
      sdf.children[0].children
    }

    constructor (num: Numerics)
      ensures Valid() && this.num == num
      ensures sdf == Root([]) && modelList == map[]
    {
      this.num := num;
      sdf := Root([]);
      modelList := map[];
    }

    /** `SubElement(self.sdf.find('world'), …)` with the subtree `n`. */
    method AppendToWorld(n: Node)
      requires Valid()
      modifies this`sdf
      ensures Valid()
      ensures WorldChildren() == old(WorldChildren()) + [n]
    {
      sdf := Root(WorldChildren() + [n]);
    }

    /** `SubElement(e, …)` where `e` is world child number `h`. */
    method AppendChild(h: nat, child: Node)
      requires Valid() && h < |WorldChildren()|
      modifies this`sdf
      ensures Valid()
      ensures WorldChildren() == old(WorldChildren())[h := Appended(old(WorldChildren())[h], [child])]
    {
      var world := WorldChildren();
      sdf := Root(world[h := Appended(world[h], [child])]);
    }

    method AddSphericalCoords(latVal: Num, lonVal: Num, elevationVal: Num := Float(0.0), headingVal: Num := Int(0))
      requires Valid()
      modifies this`sdf
      ensures Valid()
      ensures WorldChildren() == old(WorldChildren()) + [SphericalCoordsNode(num, latVal, lonVal, elevationVal, headingVal)]
    {
      AppendToWorld(SphericalCoordsNode(num, latVal, lonVal, elevationVal, headingVal));
    }

    method AddGround(width: Num, height: Num)
      requires Valid()
      modifies this`sdf
      ensures Valid()
      ensures WorldChildren() == old(WorldChildren()) + [GroundNode(num, width, height)]
    {
      AppendToWorld(GroundNode(num, width, height));
    }

    method AddScene(grid: bool, originVisual: bool)
      requires Valid()
      modifies this`sdf
      ensures Valid()
      ensures WorldChildren() == old(WorldChildren()) + [SceneNode(grid, originVisual)]
    {
      AppendToWorld(SceneNode(grid, originVisual));
    }

    /** Returns the new `include` element as its index among world's children. */
    method IncludeModel(modelName: string) returns (handle: nat)
      requires Valid()
      modifies this`sdf
      ensures Valid()
      ensures WorldChildren() == old(WorldChildren()) + [IncludeNode(modelName)]
      ensures handle == |old(WorldChildren())|
    {
      handle := |WorldChildren()|;
      AppendToWorld(IncludeNode(modelName));
    }

    method AddModel(mainModel: string, modelName: string, pose: Vec3)
      requires Valid()
      modifies this`sdf
      ensures Valid()
      ensures WorldChildren() == old(WorldChildren()) + [ModelNode(num, mainModel, modelName, pose)]
    {
      var includeModel := IncludeModel(mainModel);
      ghost var before := old(WorldChildren());
      ghost var uri := IncludeNode(mainModel).children;
      AppendChild(includeModel, Leaf("name", modelName));
      assert WorldChildren() == before + [Appended(IncludeNode(mainModel), [Leaf("name", modelName)])];
      AppendChild(includeModel, Leaf("static", "true"));
      assert uri + [Leaf("name", modelName)] + [Leaf("static", "true")]
          == uri + [Leaf("name", modelName), Leaf("static", "true")];
      assert WorldChildren() == before + [Appended(IncludeNode(mainModel), [Leaf("name", modelName), Leaf("static", "true")])];
      AppendChild(includeModel, Leaf("pose", Triple(num, pose) + " 0 0 0"));
      assert uri + [Leaf("name", modelName), Leaf("static", "true")] + [Leaf("pose", Triple(num, pose) + " 0 0 0")]
          == uri + [Leaf("name", modelName), Leaf("static", "true"), Leaf("pose", Triple(num, pose) + " 0 0 0")];
    }

    /** The road type is accepted and not stored. */
    method AddRoad(roadName: string, roadType: string)
      requires Valid()
      modifies this`sdf
      ensures Valid()
      ensures WorldChildren() == old(WorldChildren()) + [RoadNode(roadName)]
    {
      AppendToWorld(RoadNode(roadName));
    }

    method AddRoadDebug(pose: Vec3, roadName: string)
      requires Valid()
      modifies this`sdf
      ensures Valid()
      ensures WorldChildren() == old(WorldChildren()) + [ModelNode(num, "wood_cube_10cm", roadName + "_leftLane_debug", pose)]
    {
      AddModel("wood_cube_10cm", roadName + "_leftLane_debug", pose);
    }

    method AddLeftLaneDebug(pose: Vec3, roadName: string)
      requires Valid()
      modifies this`sdf
      ensures Valid()
      ensures WorldChildren() == old(WorldChildren()) + [ModelNode(num, "wood_cube_10cm", roadName + "_rightLane_debug", pose)]
    {
      AddModel("wood_cube_10cm", roadName + "_rightLane_debug", pose);
    }

    method AddRightLaneDebug(pose: Vec3, roadName: string)
      requires Valid()
      modifies this`sdf
      ensures Valid()
      ensures WorldChildren() == old(WorldChildren()) + [ModelNode(num, "wood_cube_10cm", roadName + "_debug", pose)]
    {
      AddModel("wood_cube_10cm", roadName + "_debug", pose);
    }

    /** Appends `width` to the first road named `roadName`; fails if there is none. */
    method SetRoadWidth(width: Num, roadName: string) returns (status: Status)
      requires Valid()
      modifies this`sdf
      ensures Valid()
      ensures status == Done <==> FirstRoadNamed(old(WorldChildren()), roadName).Some?
      ensures status == IndexError ==> WorldChildren() == old(WorldChildren())
      ensures status == Done ==>
        var i := FirstRoadNamed(old(WorldChildren()), roadName).value;
        WorldChildren() == old(WorldChildren())[i := Appended(old(WorldChildren())[i], [WidthNode(num, width)])]
    {
      var roadWanted := FirstRoadNamed(WorldChildren(), roadName);
      if roadWanted.None? {
        return IndexError;
      }
      AppendChild(roadWanted.value, WidthNode(num, width));
      status := Done;
    }

    /** Appends `point` to the first road named `roadName`; fails if there is none. */
    method AddRoadPoint(point: Vec3, roadName: string) returns (status: Status)
      requires Valid()
      modifies this`sdf
      ensures Valid()
      ensures status == Done <==> FirstRoadNamed(old(WorldChildren()), roadName).Some?
      ensures status == IndexError ==> WorldChildren() == old(WorldChildren())
      ensures status == Done ==>
        var i := FirstRoadNamed(old(WorldChildren()), roadName).value;
        WorldChildren() == old(WorldChildren())[i := Appended(old(WorldChildren())[i], [PointNode(num, point)])]
    {
      var roadWanted := FirstRoadNamed(WorldChildren(), roadName);
      if roadWanted.None? {
        return IndexError;
      }
      AppendChild(roadWanted.value, PointNode(num, point));
      status := Done;
    }

    method AddBuilding(mean: Mean, pointList: seq<Point2>, buildingName: string, color: string)
      requires Valid()
      modifies this`sdf
      ensures Valid()
      ensures WorldChildren() == old(WorldChildren()) + [BuildingNode(num, mean, pointList, buildingName, color)]
    {
      var building := |WorldChildren()|;
      AppendToWorld(BuildingHead(num, buildingName, mean));
      var yaw := Yaws(num, pointList);
      var distance := Distances(num, pointList);
      var meanPoint := MeanPoints(pointList, mean);
      ghost var walls := Walls(num, buildingName, color, mean, pointList);
      assert BuildingHead(num, buildingName, mean).children + walls[..0] == BuildingHead(num, buildingName, mean).children;
      for point := 0 to |yaw|
        invariant Valid()
        invariant WorldChildren() == old(WorldChildren()) + [Appended(BuildingHead(num, buildingName, mean), walls[..point])]
      {
        ghost var prefix := Appended(BuildingHead(num, buildingName, mean), walls[..point]);
        var link := WallLink(num, buildingName, point, color, distance[point], meanPoint[point], yaw[point]);
        WallFromLists(num, buildingName, color, mean, pointList, point);
        AppendedPrefixStep(BuildingHead(num, buildingName, mean), walls, point);
        AppendChild(building, link);
        AppendBelowLast(old(WorldChildren()), prefix, link);
      }
      assert walls[..|yaw|] == walls;
    }
  }

  // ----------------------------------------------------------------------
  // What the shapes contain
  // ----------------------------------------------------------------------

  /** Whatever has been appended, `find('world')` reaches the world named `default`. */
  lemma FreshDocument(world: seq<Node>)
    ensures Get(Root(world), "version") == Some("1.4")
    ensures |Root(world).children| == 1
    ensures Find(Root(world), ["world"]) == Some(Named("world", "default", world))
    ensures Get(Named("world", "default", world), "name") == Some("default")
  {
    assert FindChild(Root(world).children, "world") == Some(0);
  }
}
