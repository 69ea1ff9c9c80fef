/** The layout-to-simulation converter of jupyter-meep-libs/conversions.py:
    a layer table built from a named layer registry, and a single left fold
    over flattened polygon groups that yields the simulation cell and one
    flat prism per polygon on a material layer.

    The source marks the two non-material kinds of table entry with two
    module-level empty dictionaries and dispatches on object identity; here
    they are the tags `CellFootprint` and `Metadata`. This assumes the table
    was built by the same file whose converter reads it: a table from another
    file's `get_layer_mapping` carries different sentinel objects and would
    fall through to the material branch. */
module Conversions {
  import opened Wrappers
  import opened Shapes

  /** What a layer id stands for in the layer table. */
  datatype Material = Physical(medium: Medium) | CellFootprint | Metadata

  /** One group of a flattened layout: the polygons sharing a layer and the
      width and height of their bounding box. */
  datatype PolygonGroup = PolygonGroup(
    layer: int,
    polygons: seq<seq<(real, real)>>,
    xsize: real,
    ysize: real)

  /** A solver prism: vertex list, extrusion height and medium. */
  datatype Prism = Prism(vertices: seq<Vec3>, height: real, material: Medium)

  datatype LayerError = LayerNotFound(name: string)

  /** Raised at the final `return` when no floorplan group bound the cell. */
  datatype ConversionError = CellUnbound

  type LayerTable = map<int, Material>

  const Silicon: Medium := Epsilon(12.0)
  const LayerSource: int := 1
  const LayerPort: int := 2

  /** The registry the module builds for its own examples. */
  const Lys: map<string, int> := map["wg_shallow" := 21, "wg_deep" := 22, "FLOORPLAN" := 99]

  /** The table `get_layer_mapping` must produce for guide layer `wg` and
      floorplan layer `fp`: exactly the four keys, source and port layers
      marked as metadata, and each earlier entry kept only where no later
      write reused its key. */
  predicate IsLayerTable(wg: int, fp: int, t: LayerTable) {
    && t.Keys == {wg, fp, LayerSource, LayerPort}
    && t[LayerSource] == Metadata
    && t[LayerPort] == Metadata
    && (fp != LayerSource && fp != LayerPort ==> t[fp] == CellFootprint)
    && (wg != fp && wg != LayerSource && wg != LayerPort ==> t[wg] == Physical(Silicon))
  }

  /** `get_layer_mapping`: the registry lookups fail for a missing name
      (guide layer first), otherwise the four writes happen in order. */
  function GetLayerMapping(layerset: map<string, int>): (r: Result<LayerTable, LayerError>)
    ensures r.Success? <==> "wg_deep" in layerset && "FLOORPLAN" in layerset
    ensures r.Success? ==> IsLayerTable(layerset["wg_deep"], layerset["FLOORPLAN"], r.value)
    ensures r.Failure? ==>
      r.error == LayerNotFound(if "wg_deep" !in layerset then "wg_deep" else "FLOORPLAN")
  {
    if "wg_deep" !in layerset then Failure(LayerNotFound("wg_deep"))
    else if "FLOORPLAN" !in layerset then Failure(LayerNotFound("FLOORPLAN"))
    else
      var wg := layerset["wg_deep"];
      var fp := layerset["FLOORPLAN"];
      Success(map[][wg := Physical(Silicon)][fp := CellFootprint]
                   [LayerSource := Metadata][LayerPort := Metadata])
  }

  /** A polygon's planar vertices lifted to z = 0. */
  function Lift(poly: seq<(real, real)>): (vs: seq<Vec3>)
    ensures |vs| == |poly|
    ensures forall i :: 0 <= i < |poly| ==> vs[i] == Vec3(poly[i].0, poly[i].1, 0.0)
  {
    seq(|poly|, i requires 0 <= i < |poly| => Vec3(poly[i].0, poly[i].1, 0.0))
  }

  function FlatPrism(poly: seq<(real, real)>, m: Medium): Prism {
    Prism(Lift(poly), 0.0, m)
  }

  function FlatPrisms(polys: seq<seq<(real, real)>>, m: Medium): (ps: seq<Prism>)
    ensures |ps| == |polys|
    ensures forall i :: 0 <= i < |polys| ==> ps[i] == FlatPrism(polys[i], m)
  {
    seq(|polys|, i requires 0 <= i < |polys| => FlatPrism(polys[i], m))
  }

  /** The loop state: the cell slot (unbound until a floorplan group is
      seen) and the geometry list built so far. */
  datatype Accum = Accum(cell: Option<Vec3>, geometry: seq<Prism>)

  /** One iteration of the loop over polygon groups. */
  function Step(acc: Accum, g: PolygonGroup, mapping: LayerTable): Accum {
    if g.layer !in mapping then acc
    else match mapping[g.layer]
      case CellFootprint => acc.(cell := Some(Vec3(g.xsize, g.ysize, 0.0)))
      case Metadata => acc
      case Physical(m) => acc.(geometry := acc.geometry + FlatPrisms(g.polygons, m))
  }

  /** The loop run over `groups` in order. */
  function Fold(groups: seq<PolygonGroup>, mapping: LayerTable): Accum
    decreases |groups|
  {
    if |groups| == 0 then Accum(None, [])
    else Step(Fold(groups[..|groups| - 1], mapping), groups[|groups| - 1], mapping)
  }

  /** `device_to_meep`: the cell and the prisms, or the failure raised at
      the return when the cell was never bound. It succeeds exactly when some
      group lies on a floorplan layer; the cell is then the size of the last
      such group, and there is one prism per polygon on a material layer. */
  function DeviceToMeep(groups: seq<PolygonGroup>, mapping: LayerTable)
    : (r: Result<(Vec3, seq<Prism>), ConversionError>)
    ensures r.Success? <==> exists i :: 0 <= i < |groups| && IsFootprint(groups[i], mapping)
    ensures r.Success? ==>
      exists j :: LastFootprint(groups, mapping, j)
               && r.value.0 == Vec3(groups[j].xsize, groups[j].ysize, 0.0)
    ensures r.Success? ==> |r.value.1| == MaterialPolygons(groups, mapping)
    ensures r.Success? ==> r.value.1 == Fold(groups, mapping).geometry
  {
    CellUnboundIffNoFootprint(groups, mapping);
    FoldCellFromLastFootprint(groups, mapping);
    PrismCount(groups, mapping);
    var acc := Fold(groups, mapping);
    match acc.cell
    case None => Failure(CellUnbound)
    case Some(c) => Success((c, acc.geometry))
  }

  predicate IsFootprint(g: PolygonGroup, mapping: LayerTable) {
    g.layer in mapping && mapping[g.layer] == CellFootprint
  }

  /** Group `j` is on a floorplan layer and no later group is. */
  predicate LastFootprint(groups: seq<PolygonGroup>, mapping: LayerTable, j: int) {
    && 0 <= j < |groups|
    && IsFootprint(groups[j], mapping)
    && forall i :: j < i < |groups| ==> !IsFootprint(groups[i], mapping)
  }

  /** A group that can never affect the output: its layer is unknown, or it
      is a source/port annotation. */
  predicate IsInert(g: PolygonGroup, mapping: LayerTable) {
    g.layer !in mapping || mapping[g.layer] == Metadata
  }

  /** Polygons that the table sends to a medium, counted group by group
      from the front. */
  function MaterialPolygons(groups: seq<PolygonGroup>, mapping: LayerTable): nat
    decreases |groups|
  {
    if |groups| == 0 then 0
    else
      var g := groups[0];
      (if g.layer in mapping && mapping[g.layer].Physical? then |g.polygons| else 0)
      + MaterialPolygons(groups[1..], mapping)
  }

  lemma FoldSnoc(groups: seq<PolygonGroup>, g: PolygonGroup, mapping: LayerTable)
    ensures Fold(groups + [g], mapping) == Step(Fold(groups, mapping), g, mapping)
  {
    assert (groups + [g])[..|groups|] == groups;
  }

  lemma {:induction false} MaterialPolygonsSnoc(groups: seq<PolygonGroup>, g: PolygonGroup, mapping: LayerTable)
    ensures MaterialPolygons(groups + [g], mapping)
         == MaterialPolygons(groups, mapping)
            + (if g.layer in mapping && mapping[g.layer].Physical? then |g.polygons| else 0)
    decreases |groups|
  {
    if |groups| == 0 {
      assert [g][1..] == [];
    } else {
      assert (groups + [g])[1..] == groups[1..] + [g];
      MaterialPolygonsSnoc(groups[1..], g, mapping);
    }
  }

  /** Inert groups are invisible wherever they occur: dropping one from the
      input changes neither the cell nor any prism. */
  lemma {:induction false} InertGroupInvisible(
    before: seq<PolygonGroup>, g: PolygonGroup, after: seq<PolygonGroup>, mapping: LayerTable)
    requires IsInert(g, mapping)
    ensures Fold(before + [g] + after, mapping) == Fold(before + after, mapping)
    ensures DeviceToMeep(before + [g] + after, mapping) == DeviceToMeep(before + after, mapping)
    decreases |after|
  {
    if |after| == 0 {
      assert before + [g] + after == before + [g];
      assert before + after == before;
      FoldSnoc(before, g, mapping);
    } else {
      var init := after[..|after| - 1];
      var last := after[|after| - 1];
      assert after == init + [last];
      assert before + [g] + after == (before + [g] + init) + [last];
      assert before + after == (before + init) + [last];
      InertGroupInvisible(before, g, init, mapping);
      FoldSnoc(before + [g] + init, last, mapping);
      FoldSnoc(before + init, last, mapping);
    }
  }

  /** A group on a layer the table does not know is skipped: it adds no
      prism and leaves the cell alone. */
  lemma UnknownLayerSkipped(
    before: seq<PolygonGroup>, g: PolygonGroup, after: seq<PolygonGroup>, mapping: LayerTable)
    requires g.layer !in mapping
    ensures Fold(before + [g] + after, mapping) == Fold(before + after, mapping)
    ensures DeviceToMeep(before + [g] + after, mapping) == DeviceToMeep(before + after, mapping)
  {
    InertGroupInvisible(before, g, after, mapping);
  }

  /** Adding or removing a source/port annotation group changes nothing. */
  lemma MetadataGroupInvisible(
    before: seq<PolygonGroup>, g: PolygonGroup, after: seq<PolygonGroup>, mapping: LayerTable)
    requires g.layer in mapping && mapping[g.layer] == Metadata
    ensures Fold(before + [g] + after, mapping) == Fold(before + after, mapping)
    ensures DeviceToMeep(before + [g] + after, mapping) == DeviceToMeep(before + after, mapping)
  {
    InertGroupInvisible(before, g, after, mapping);
  }

  /** The number of prisms is the number of polygons on material layers. */
  lemma {:induction false} PrismCount(groups: seq<PolygonGroup>, mapping: LayerTable)
    ensures |Fold(groups, mapping).geometry| == MaterialPolygons(groups, mapping)
    decreases |groups|
  {
    if |groups| > 0 {
      var init := groups[..|groups| - 1];
      assert groups == init + [groups[|groups| - 1]];
      PrismCount(init, mapping);
      MaterialPolygonsSnoc(init, groups[|groups| - 1], mapping);
    }
  }

  /** Polygon `k` of material group `j` becomes the prism right after the
      prisms of all earlier groups: same vertices in the same order at z = 0,
      height 0, the mapped medium. */
  lemma {:induction false} PrismAt(groups: seq<PolygonGroup>, mapping: LayerTable, j: nat, k: nat, m: Medium)
    requires j < |groups|
    requires groups[j].layer in mapping && mapping[groups[j].layer] == Physical(m)
    requires k < |groups[j].polygons|
    ensures MaterialPolygons(groups[..j], mapping) + k < |Fold(groups, mapping).geometry|
    ensures Fold(groups, mapping).geometry[MaterialPolygons(groups[..j], mapping) + k]
         == Prism(Lift(groups[j].polygons[k]), 0.0, m)
    decreases |groups|
  {
    var n := |groups| - 1;
    var init := groups[..n];
    var before := Fold(init, mapping);
    PrismCount(init, mapping);
    if j == n {
      assert init == groups[..j];
    } else {
      assert init[..j] == groups[..j];
      PrismAt(init, mapping, j, k, m);
    }
  }

  /** The cell comes from the last floorplan group, whatever follows it. */
  lemma {:induction false} CellFromLastFootprint(groups: seq<PolygonGroup>, mapping: LayerTable, j: nat)
    requires j < |groups| && IsFootprint(groups[j], mapping)
    requires forall i :: j < i < |groups| ==> !IsFootprint(groups[i], mapping)
    ensures Fold(groups, mapping).cell == Some(Vec3(groups[j].xsize, groups[j].ysize, 0.0))
    ensures DeviceToMeep(groups, mapping).Success?
    ensures DeviceToMeep(groups, mapping).value.0 == Vec3(groups[j].xsize, groups[j].ysize, 0.0)
    decreases |groups|
  {
    var n := |groups| - 1;
    if j < n {
      CellFromLastFootprint(groups[..n], mapping, j);
      assert !IsFootprint(groups[n], mapping);
    }
  }

  /** Without any floorplan group the cell stays unbound, and only then. */
  lemma {:induction false} CellUnboundIffNoFootprint(groups: seq<PolygonGroup>, mapping: LayerTable)
    ensures Fold(groups, mapping).cell.None?
        <==> forall i :: 0 <= i < |groups| ==> !IsFootprint(groups[i], mapping)
    decreases |groups|
  {
    if |groups| > 0 {
      var n := |groups| - 1;
      CellUnboundIffNoFootprint(groups[..n], mapping);
      if IsFootprint(groups[n], mapping) {
        assert Fold(groups, mapping).cell.Some?;
      } else {
        assert forall i :: 0 <= i < n ==> groups[..n][i] == groups[i];
      }
    }
  }

  /** A bound cell always has the size of the last floorplan group. */
  lemma {:induction false} FoldCellFromLastFootprint(groups: seq<PolygonGroup>, mapping: LayerTable)
    ensures Fold(groups, mapping).cell.Some? ==>
      exists j :: LastFootprint(groups, mapping, j)
               && Fold(groups, mapping).cell.value == Vec3(groups[j].xsize, groups[j].ysize, 0.0)
    decreases |groups|
  {
    if |groups| > 0 {
      var n := |groups| - 1;
      if IsFootprint(groups[n], mapping) {
        assert LastFootprint(groups, mapping, n);
      } else if Fold(groups, mapping).cell.Some? {
        var init := groups[..n];
        assert Fold(init, mapping).cell == Fold(groups, mapping).cell;
        FoldCellFromLastFootprint(init, mapping);
        var j :| LastFootprint(init, mapping, j)
              && Fold(init, mapping).cell.value == Vec3(init[j].xsize, init[j].ysize, 0.0);
        assert LastFootprint(groups, mapping, j);
      }
    }
  }

  /** A small layout under the module's layer registry: a 31 x 15
      floorplan centred on the origin, one 8 x 0.35 guide rectangle with a
      corner at the origin, and one marker each on the source and port
      layers. */
  lemma LoopMirrorScenario()
    ensures GetLayerMapping(Lys).Success?
    ensures
      var rect := [(0.0, 0.0), (8.0, 0.0), (8.0, 0.35), (0.0, 0.35)];
      var mark := [(0.0, 0.0), (0.1, 0.0), (0.1, 1.0), (0.0, 1.0)];
      var groups := [
        PolygonGroup(99, [[(-15.5, -7.5), (15.5, -7.5), (15.5, 7.5), (-15.5, 7.5)]], 31.0, 15.0),
        PolygonGroup(22, [rect], 8.0, 0.35),
        PolygonGroup(1, [mark], 0.1, 1.0),
        PolygonGroup(2, [mark], 0.1, 1.0)];
      DeviceToMeep(groups, GetLayerMapping(Lys).value)
        == Success((Vec3(31.0, 15.0, 0.0),
                    [Prism([Vec3(0.0, 0.0, 0.0), Vec3(8.0, 0.0, 0.0),
                            Vec3(8.0, 0.35, 0.0), Vec3(0.0, 0.35, 0.0)], 0.0, Silicon)]))
  {
    var t := GetLayerMapping(Lys).value;
    var rect := [(0.0, 0.0), (8.0, 0.0), (8.0, 0.35), (0.0, 0.35)];
    var mark := [(0.0, 0.0), (0.1, 0.0), (0.1, 1.0), (0.0, 1.0)];
    var g0 := PolygonGroup(99, [[(-15.5, -7.5), (15.5, -7.5), (15.5, 7.5), (-15.5, 7.5)]], 31.0, 15.0);
    var g1 := PolygonGroup(22, [rect], 8.0, 0.35);
    var g2 := PolygonGroup(1, [mark], 0.1, 1.0);
    var g3 := PolygonGroup(2, [mark], 0.1, 1.0);
    assert t[22] == Physical(Silicon) && t[99] == CellFootprint;
    assert t[1] == Metadata && t[2] == Metadata;
    var lifted := [Vec3(0.0, 0.0, 0.0), Vec3(8.0, 0.0, 0.0), Vec3(8.0, 0.35, 0.0), Vec3(0.0, 0.35, 0.0)];
    assert Lift(rect) == lifted;
    FoldSnoc([], g0, t);
    assert [] + [g0] == [g0];
    FoldSnoc([g0], g1, t);
    assert [g0] + [g1] == [g0, g1];
    assert Fold([g0, g1], t) == Accum(Some(Vec3(31.0, 15.0, 0.0)), [Prism(lifted, 0.0, Silicon)]);
    InertGroupInvisible([g0, g1], g2, [g3], t);
    InertGroupInvisible([g0, g1], g3, [], t);
    assert [g0, g1] + [g2] + [g3] == [g0, g1, g2, g3];
    assert [g0, g1] + [g3] + [] == [g0, g1] + [g3];
    assert [g0, g1] + [] == [g0, g1];
  }

  datatype RadiusError = ExitRadiusTooSmall(rExit: real, rMinCheck: real)

  /** The first guard of `loop_mirror_terminator`, checked before any
      device is built: the exit bend radius must reach the minimum. */
  function CheckExitRadius(rExit: real := 5.0, rMinCheck: real := 3.0): (r: Option<RadiusError>)
    ensures r.Some? <==> rExit < rMinCheck
    ensures r.Some? ==> r.value == ExitRadiusTooSmall(rExit, rMinCheck)
  {
    if rExit < rMinCheck then Some(ExitRadiusTooSmall(rExit, rMinCheck)) else None
  }

  /** The guard only gets easier to pass with a larger exit radius or a
      smaller minimum, and the default radii pass it. */
  lemma ExitRadiusMonotone(rExit: real, rExit': real, rMinCheck: real, rMinCheck': real)
    requires rExit <= rExit' && rMinCheck' <= rMinCheck
    ensures CheckExitRadius(rExit, rMinCheck).None? ==> CheckExitRadius(rExit', rMinCheck').None?
    ensures CheckExitRadius().None?
  {
  }
}
