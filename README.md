# gazebo_osm scene assembly, modelled in Dafny

gazebo_osm turns an OpenStreetMap extract into a Gazebo world file.
This project models the part that assembles the world document:

- the `GetSDF` builder class of `src/lib/dict2sdf.py`;
- the loop of `OSMFile.write_to_SDF` in `src/osm_parser.py` that drives the builder.

The builder owns one XML document. Its root `sdf` element (version 1.4) has one
`world` child named `default`. Each builder call appends one fixed-shape subtree
at the end of `world`'s children:

- spherical coordinates;
- a ground plane;
- scene options;
- an `include` of a database model;
- a named model;
- a road;
- a building, extruded into one wall link per boundary edge.

`setRoadWidth` and `addRoadPoint` are different: they append one child to the
first road of a given name, and fail when there is none. The driver writes these
elements in order:

1. the map anchor;
2. the sun;
3. every building;
4. every road, each with its width and then its centre-line points.

A road with fewer than three points keeps its raw points. A longer road gets the
Catmull-Rom spline's points instead. The driver also collects the lane, centre-line
and width lists.

Files:

- `numbers.dfy` — Python numbers (`int`, `float`) and their `str()` text. The text of an int is exact. The text of a float is an abstract primitive.
- `sdf_tree.dfy` — the XML element tree as a value, and what it provides: `SubElement` append, `get`, `find(path)` and tag counts.
- `dict2sdf.dfy` — the subtree shapes, the `GetSdf` class, and the road lookup.
- `dict2sdf_facts.dfy` — what the shapes contain, stated as `find(path)` queries.
- `osm_parser.dfy` — `write_to_SDF` as methods over a `GetSdf`, proved to build a stated world.
- `osm_parser_facts.dfy` — properties of that world: counts, order, name resolution and the point policy.

The builder's state is the field `sdf: Node`. Every method reassigns that field
and states the whole new tree. `numpy.sqrt`, `numpy.arctan2` and float `str()` are
fields of a `Numerics` value given to the constructor. `catmull_rom` is a function
parameter of `WriteToSdf`. Two of the three maps of `getMapDetails()`,
`buildingLocationMap` and `roadPointWidthMap`, are sequences of (key, entry)
pairs in iteration order. `getLat()` and `getLon()` are number
parameters.

## Model

| member | source | states |
|---|---|---|
| Dict2Sdf.GetSdf.constructor | src/lib/dict2sdf.py:17-22 | the new document is `sdf` version 1.4 holding one empty `world` named `default`; `modelList` is empty |
| Dict2Sdf.FreshDocument | src/lib/dict2sdf.py:17-21 | whatever `world` holds, the root has version 1.4 and one child, `find('world')` reaches it, and it is named `default` |
| Dict2Sdf.GetSdf.AddSphericalCoords | src/lib/dict2sdf.py:24-43 | appends one `spherical_coordinates` subtree at the end of `world` and changes nothing else; elevation defaults to the float 0.0 and heading to the int 0 |
| Dict2SdfFacts.SphericalCoordsFields | src/lib/dict2sdf.py:27-43 | children in order surface_model, latitude_deg, longitude_deg, elevation, heading_deg; surface model `EARTH_WGS84`; the four values passed through as `str()` |
| Dict2SdfFacts.DefaultHeadingText | src/lib/dict2sdf.py:25 | the default heading, the int 0, is written `0` |
| Dict2Sdf.GetSdf.AddGround | src/lib/dict2sdf.py:45-83 | appends one ground model at the end of `world` and changes nothing else |
| Dict2SdfFacts.GroundPlanes | src/lib/dict2sdf.py:45-83 | the ground is named `ground` and static; the collision and visual planes are both sized `str(w) + " " + str(h)`; poses `0 0 0 0 0 0` and `0 0 -1 0 0 0`; friction mu 100 and mu2 50 |
| Dict2SdfFacts.GroundCollisionFields | src/lib/dict2sdf.py:55-62 | the collision is named `collision`, posed at the origin, and its plane has size `str(w) + " " + str(h)` and normal `0 0 1` |
| Dict2SdfFacts.GroundFriction | src/lib/dict2sdf.py:64-68 | the collision's ode friction is mu `100` and mu2 `50` |
| Dict2SdfFacts.GroundVisualFields | src/lib/dict2sdf.py:70-83 | the visual is named `visual`, one unit lower; its plane has the same size and normal; its material is `Gazebo/Grass` |
| Dict2Sdf.GetSdf.AddScene | src/lib/dict2sdf.py:86-90 | appends one `scene` subtree at the end of `world` and changes nothing else |
| Dict2SdfFacts.SceneToggles | src/lib/dict2sdf.py:86-90 | `grid` then `origin_visual`, each `true` or `false` as the flag is |
| Dict2Sdf.GetSdf.IncludeModel | src/lib/dict2sdf.py:93-98 | appends one `include` at the end of `world`; the returned handle is that element's position |
| Dict2SdfFacts.IncludeOnlyUri | src/lib/dict2sdf.py:95-97 | the include's only child is `uri` with text `model://` + name |
| Dict2Sdf.GetSdf.AddModel | src/lib/dict2sdf.py:100-115 | appends one element at the end of `world`: the include of the main model, extended below its handle with name, static and pose |
| Dict2SdfFacts.ModelFields | src/lib/dict2sdf.py:103-106 | children in order uri, name, static, pose; uri `model://` + main model; name as given |
| Dict2SdfFacts.ModelPose | src/lib/dict2sdf.py:108-115 | static `true`, and pose `str(x) str(y) str(z) 0 0 0`, so rotation is always zero |
| Dict2Sdf.GetSdf.AddRoad | src/lib/dict2sdf.py:117-120 | appends one empty `road` named `roadName` at the end of `world`; the road type is not stored |
| Dict2Sdf.GetSdf.AddRoadDebug | src/lib/dict2sdf.py:128-129 | `addModel('wood_cube_10cm', roadName + '_leftLane_debug', pose)` |
| Dict2Sdf.GetSdf.AddLeftLaneDebug | src/lib/dict2sdf.py:131-132 | `addModel('wood_cube_10cm', roadName + '_rightLane_debug', pose)`, with the suffix kept as written |
| Dict2Sdf.GetSdf.AddRightLaneDebug | src/lib/dict2sdf.py:134-135 | `addModel('wood_cube_10cm', roadName + '_debug', pose)` |
| Dict2Sdf.FirstRoadNamed | src/lib/dict2sdf.py:139-144 | `roadWanted[0]`: the index of a `road` whose name matches, with no matching road before it; `None` exactly when no child matches |
| Dict2Sdf.GetSdf.SetRoadWidth | src/lib/dict2sdf.py:137-145 | succeeds exactly when some road has the name; then it appends `width` with `str(width)` to the first such road and changes nothing else; otherwise it raises IndexError and changes nothing |
| Dict2Sdf.GetSdf.AddRoadPoint | src/lib/dict2sdf.py:147-156 | as `SetRoadWidth`, but appends a `point` with text `str(p[0]) str(p[1]) str(p[2])` |
| Dict2SdfFacts.AppendedRoadIsFirst | src/lib/dict2sdf.py:139-144 | a road appended after children that hold no road of its name is the one the lookup picks |
| Dict2Sdf.Yaws | src/lib/dict2sdf.py:171-173 | one yaw per edge: the numpy `arctan2` of current minus next point |
| Dict2Sdf.Distances | src/lib/dict2sdf.py:175-179 | one length per edge: the numpy `sqrt` of the squared coordinate differences |
| Dict2Sdf.MeanPoints | src/lib/dict2sdf.py:181-185 | one offset per edge: the edge midpoint minus the centroid |
| Dict2Sdf.Walls | src/lib/dict2sdf.py:187-215 | one wall link per edge, in edge order |
| Dict2Sdf.GetSdf.AddBuilding | src/lib/dict2sdf.py:158-215 | appends one building model at the end of `world` and nothing else; the loop adds its wall links below it one at a time |
| Dict2SdfFacts.BuildingShape | src/lib/dict2sdf.py:158-191 | for N >= 1 points the model named `building_name` holds static `true`, pose `mx my mz 0 0 0` and exactly N - 1 links; link i is named `building_name_i` |
| Dict2SdfFacts.WallNames | src/lib/dict2sdf.py:188-198 | link i holds collision, visual and pose in that order; the link, the collision and the visual are all named `building_name_i` |
| Dict2SdfFacts.WallAppearance | src/lib/dict2sdf.py:159-208 | both boxes of wall i are `dist_i 0.2 str(20.0)`, with dist_i the sqrt of the squared differences of points i and i+1; material `Gazebo/` + color |
| Dict2SdfFacts.WallPlacement | src/lib/dict2sdf.py:171-215 | the pose of wall i is the midpoint of edge i minus the centroid, then `str(9.0)`, then `0 0`, then the atan2 of current minus next |
| Dict2SdfFacts.WallNamesDistinct | src/lib/dict2sdf.py:189 | different edges give different link names, because `str()` of distinct ints differs |
| Dict2SdfFacts.TwoPointBoundary | src/lib/dict2sdf.py:171-185 | two points 10 apart around their centroid give one edge at offset (0, 0), with yaw atan2(0, -10) and length sqrt(100) |
| Numbers.ParseNatStr | src/lib/dict2sdf.py:189 | `str()` of a non-negative int parses back to the int |
| OsmParser.WriteToSdf | src/osm_parser.py:51-115 | the document built is the root over the spherical coordinates, then the sun, then every building, then every road; the three lists are exactly their per-road specifications |
| OsmParser.Xs | src/osm_parser.py:88 | `points[0, :]`: the x coordinate of every point, in order |
| OsmParser.Ys | src/osm_parser.py:89 | `points[1, :]`: the y coordinate of every point, in order |
| OsmParser.RoadPoints | src/osm_parser.py:97-114 | one `point` element `[x_k, y_k, 0]` per entry of `x`, in order |
| OsmParser.BuildingNodes | src/osm_parser.py:61-65 | one building element per map entry, in map order |
| OsmParser.RoadNodes | src/osm_parser.py:78-114 | one finished road element per map entry, in map order |
| OsmParser.CentreLines | src/osm_parser.py:104-110 | `centerLaneSegments`: one entry per road, the raw coordinates for a short road and the spline's output otherwise |
| OsmParser.Widths | src/osm_parser.py:85 | `laneSegmentWidths`: one width per road, in map order |
| Numbers.NatStrInjective | src/lib/dict2sdf.py:189 | distinct non-negative ints have distinct `str()` texts |
| OsmParser.AddBuildings | src/osm_parser.py:61-65 | one `addBuilding` per map entry, in order, with its mean, points, key and colour |
| OsmParser.AddRoads | src/osm_parser.py:78-114 | one road element per map entry, in order; the three lists grow by one entry per road, except `roadLaneSegments`, which grows for short roads only |
| OsmParser.WriteRoad | src/osm_parser.py:79-114 | `addRoad` then `setRoadWidth`, which always find the new road; the road ends up holding its width and then its centre-line points |
| OsmParser.AppendRoadPoint | src/osm_parser.py:98 | while a road is being filled in, `addRoadPoint` finds it and appends the point at its end |
| OsmParser.AddShortRoadPoints | src/osm_parser.py:91-101 | the road gains one point `[x_j, y_j, 0]` per input point, in order; `x`, `y` and `lanePoint` are the input coordinates and points |
| OsmParser.AddRoadPoints | src/osm_parser.py:113-114 | the road gains one point `[x_k, y_k, 0]` per entry of the spline's `x`, in order |
| OsmParser.NoEarlierRoad | src/osm_parser.py:78-81 | when road k is added, no earlier `world` child is a road of its name, because the map keys differ |
| OsmParserFacts.WorldPreamble | src/osm_parser.py:51-53 | world child 0 is the spherical coordinates, with the given latitude and longitude and heading `0`; child 1 is the include of `model://sun` |
| OsmParserFacts.OneAnchorOneSun | src/osm_parser.py:51-59 | exactly one `spherical_coordinates` and exactly one `include` in the world, since the model loop is commented out |
| OsmParserFacts.ModelAndRoadCounts | src/osm_parser.py:61-81 | the world holds exactly one `model` per building and one `road` per road entry |
| OsmParserFacts.BuildingsInOrder | src/osm_parser.py:61-65 | world child 2 + k is building k, built from its mean, points, key and colour |
| OsmParserFacts.RoadsInOrder | src/osm_parser.py:78-114 | world child 2 + (number of buildings) + k is road k's finished element, and nothing follows the roads |
| OsmParserFacts.RoadsResolve | src/osm_parser.py:78-81 | in the finished world, looking up road k's name finds road k's own element |
| OsmParserFacts.RoadWidth | src/osm_parser.py:79-81 | a road is named after its key and holds exactly one `width`, first, with `str(width)` |
| OsmParserFacts.RoadPointTexts | src/osm_parser.py:97-114 | after the width, point k has text `str(x_k) str(y_k) 0` |
| OsmParserFacts.RoadPointCount | src/osm_parser.py:97-114 | a road holds as many points as its centre line has entries |
| OsmParserFacts.ShortRoadKeepsPoints | src/osm_parser.py:91-101 | a road of fewer than 3 points holds exactly `len(xData)` points, namely its own points in input order |
| OsmParserFacts.LongRoadIsSplined | src/osm_parser.py:106-114 | a road of 3 or more points holds the points of `catmull_rom(x, y, 10)`, as many as the spline's `x`, each with z = 0 |
| OsmParserFacts.ShortRoadLanesShape | src/osm_parser.py:91-104 | `roadLaneSegments` has exactly one entry per short road; the entry of short road k sits at the number of short roads before k and is `[lanePoint, lanePoint]` with road k's own points; every entry is some short road's |
| OsmParserFacts.ShortCountExtremes | src/osm_parser.py:91-104 | when every road is short there is one entry per road; when none is, there are none |
| OsmParser.ShortRoadLanes | src/osm_parser.py:73-104 | `roadLaneSegments` gains at most one entry per road, so it never outgrows the map |
| OsmParser.CentreLineChoice | src/osm_parser.py:91-110 | a road of fewer than 3 points uses its own x and y coordinates, in order; a longer one uses `catmull_rom(x, y, 10)` |
| Dict2SdfFacts.DegenerateEdgeWall | src/lib/dict2sdf.py:171-208 | a boundary `[p, p]` still yields one wall, whose two boxes both have length `str(sqrt(0))` |
| Dict2SdfFacts.DegenerateEdgePose | src/lib/dict2sdf.py:171-215 | that wall is posed at p minus the centroid, at z = 9, with yaw `atan2(0, 0)` |

## Left out

- `GetSDF.writeToFile` and the `lxml` serialisation and pretty-printing: file output through a foreign library. `WriteToSdf` returns the document that would be written.
- `OSMFile.__init__`, `get_bounding_box`, `get_osm_dictionary`, `Osm2Dict` and `OSMBoundingBox`: these read files, parse XML and call `osmapi`. The anchor and the two maps the driver reads are parameters instead.
- `catmull_rom` and `LaneBoundaries` are not part of this model. The spline is an abstract function parameter. The `LaneBoundaries` result is never used by the driver.
- `numpy.sqrt`, `numpy.arctan2` and Python `str()` on floats are left uninterpreted, so their floating-point results are not modelled.
- The `print` output of `write_to_SDF` is left out. The function does not otherwise depend on it.
- `includeModel` returns a live `lxml` element. The model returns that element's index among `world`'s children, and `AddModel` appends through the index. Aliasing through other references to the element is not modelled.
- Pose and point lists are three-field records. An input list shorter than three, which would raise IndexError in the source, cannot be expressed.
- `Point2` and `Mean` coordinates are reals. Python 2 integer division in `(a + b) / 2` for integer coordinates is not modelled, because the map coordinates are floats.
- `modelPoseMap`, the third map of `getMapDetails()`, is not modelled: the only loop that reads it (src/osm_parser.py:54-59) is commented out.
- `lxml` refuses text and attribute values that are not XML-compatible, such as NUL and most other control characters, raising ValueError from `.text =` and `.set(...)`. `Leaf` and `Named` accept any string, so a map-supplied road or building name with such characters succeeds in the model.
- `modelList` is created empty and never used again. Its value type is chosen arbitrarily.
- OsmParser.WriteToSdf: requires distinct road names. The source gets this from dict keys; the model states it as a precondition.
- OsmParser.WriteToSdf: requires only that the spline's `y` is at least as long as its `x`. That is all the point loop indexes. Equal length is not required.
- Python 2 dict iteration order is unspecified. The model uses the order of the given sequences.

## Notes on the code

- `addRoad` takes `roadType` and ignores it (src/lib/dict2sdf.py:117-120): no texture is stored on the road element, and the model stores none either.
- `addBuilding` does not check for repeated consecutive boundary points (src/lib/dict2sdf.py:171-215). Such an edge still gets a wall of length `sqrt(0)` and yaw `arctan2(0, 0)`; `DegenerateEdgeWall` and `DegenerateEdgePose` state this.
- `setRoadWidth` and `addRoadPoint` use the first road whose name matches and ignore any later ones (src/lib/dict2sdf.py:139-144). The model does the same (`FirstRoadNamed`), and `RoadsResolve` shows that in the finished world each road's own name finds that road.
