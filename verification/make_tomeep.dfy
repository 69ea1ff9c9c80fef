/** notebooks/Cavities/make_tomeep.py carries its own copy of the layer
    table and the converter. Its table writes the source and port layers as
    the literals 1 and 2; its converter is, statement for statement, the
    one in jupyter-meep-libs/conversions.py, so it is modelled by the same
    fold, under the same assumption that the table it reads was built with
    this file's own sentinels. */
module MakeToMeep {
  import opened Wrappers
  import opened Shapes
  import C = Conversions

  /** `get_layer_mapping` of this file. */
  function GetLayerMapping(layerset: map<string, int>): (r: Result<C.LayerTable, C.LayerError>)
    ensures r.Success? <==> "wg_deep" in layerset && "FLOORPLAN" in layerset
    ensures r.Success? ==> C.IsLayerTable(layerset["wg_deep"], layerset["FLOORPLAN"], r.value)
    ensures r.Failure? ==>
      r.error == C.LayerNotFound(if "wg_deep" !in layerset then "wg_deep" else "FLOORPLAN")
  {
    if "wg_deep" !in layerset then Failure(C.LayerNotFound("wg_deep"))
    else if "FLOORPLAN" !in layerset then Failure(C.LayerNotFound("FLOORPLAN"))
    else
      var wg := layerset["wg_deep"];
      var fp := layerset["FLOORPLAN"];
      Success(map[][wg := C.Physical(C.Silicon)][fp := C.CellFootprint][1 := C.Metadata][2 := C.Metadata])
  }

  /** `device_to_meep` of this file. */
  function DeviceToMeep(groups: seq<C.PolygonGroup>, mapping: C.LayerTable)
    : (r: Result<(Vec3, seq<C.Prism>), C.ConversionError>)
    ensures r.Success? <==> exists i :: 0 <= i < |groups| && C.IsFootprint(groups[i], mapping)
    ensures r.Success? ==>
      exists j :: C.LastFootprint(groups, mapping, j)
               && r.value.0 == Vec3(groups[j].xsize, groups[j].ysize, 0.0)
    ensures r.Success? ==> |r.value.1| == C.MaterialPolygons(groups, mapping)
  {
    C.DeviceToMeep(groups, mapping)
  }

  /** Groups on layers missing from the table are skipped. */
  lemma UnknownLayerSkipped(
    before: seq<C.PolygonGroup>, g: C.PolygonGroup, after: seq<C.PolygonGroup>, mapping: C.LayerTable)
    requires g.layer !in mapping
    ensures DeviceToMeep(before + [g] + after, mapping) == DeviceToMeep(before + after, mapping)
  {
    C.UnknownLayerSkipped(before, g, after, mapping);
  }

  /** Source/port annotation groups emit nothing. */
  lemma MetadataGroupInvisible(
    before: seq<C.PolygonGroup>, g: C.PolygonGroup, after: seq<C.PolygonGroup>, mapping: C.LayerTable)
    requires g.layer in mapping && mapping[g.layer] == C.Metadata
    ensures DeviceToMeep(before + [g] + after, mapping) == DeviceToMeep(before + after, mapping)
  {
    C.MetadataGroupInvisible(before, g, after, mapping);
  }

  /** The last floorplan group sets the cell to its bounding-box size. */
  lemma CellFromLastFootprint(groups: seq<C.PolygonGroup>, mapping: C.LayerTable, j: nat)
    requires j < |groups| && C.IsFootprint(groups[j], mapping)
    requires forall i :: j < i < |groups| ==> !C.IsFootprint(groups[i], mapping)
    ensures DeviceToMeep(groups, mapping).Success?
    ensures DeviceToMeep(groups, mapping).value.0 == Vec3(groups[j].xsize, groups[j].ysize, 0.0)
  {
    C.CellFromLastFootprint(groups, mapping, j);
  }

  /** One flat prism per polygon of a material group, in input order, and
      no other prisms. */
  lemma PrismLayout(groups: seq<C.PolygonGroup>, mapping: C.LayerTable, j: nat, k: nat, m: Medium)
    requires DeviceToMeep(groups, mapping).Success?
    requires j < |groups|
    requires groups[j].layer in mapping && mapping[groups[j].layer] == C.Physical(m)
    requires k < |groups[j].polygons|
    ensures |DeviceToMeep(groups, mapping).value.1| == C.MaterialPolygons(groups, mapping)
    ensures C.MaterialPolygons(groups[..j], mapping) + k < |DeviceToMeep(groups, mapping).value.1|
    ensures DeviceToMeep(groups, mapping).value.1[C.MaterialPolygons(groups[..j], mapping) + k]
         == C.Prism(C.Lift(groups[j].polygons[k]), 0.0, m)
  {
    C.PrismCount(groups, mapping);
    C.PrismAt(groups, mapping, j, k, m);
  }

  /** With no floorplan group the conversion fails, and only then. */
  lemma FailsIffNoFootprint(groups: seq<C.PolygonGroup>, mapping: C.LayerTable)
    ensures DeviceToMeep(groups, mapping).Failure?
        <==> forall i :: 0 <= i < |groups| ==> !C.IsFootprint(groups[i], mapping)
  {
    C.CellUnboundIffNoFootprint(groups, mapping);
  }
}
