# jupyter-meep geometry bookkeeping, in Dafny

This project models the parts of the jupyter-meep notebook helpers that are
plain data transformation. The rest of the repository calls the meep/mpb
electromagnetic solvers and the phidl layout library.

- **Layout-to-simulation converter.** `get_layer_mapping` builds a layer
  table from a phidl layer registry. `device_to_meep` folds over the polygon
  groups of a flattened layout. It yields the simulation cell, which is the
  bounding box of the floorplan layer. It also yields one flat (height-0)
  prism per polygon on a material layer. Groups on unknown layers and on the
  source/port annotation layers are skipped. Both copies are modelled: the
  one in `jupyter-meep-libs/conversions.py` (module `Conversions`) and the one
  in `notebooks/Cavities/make_tomeep.py` (module `MakeToMeep`). The first
  radius guard of `loop_mirror_terminator` is modelled too.
- **Bragg-grating cavity builder** (`lib/ataitbragg.py`, module `Bragg`). It
  covers the cell length, the cell vector, the symmetry choice, and the block
  list: two buffers, two teeth per period, and a cavity block before the
  middle period. It also covers the monitor position and the stop condition.
  `kwargs_to_geo` is modelled as "copy the base bag, then override the copy".
- **The `objview` attribute bag** (`lib/meep_nb.py`, module `ObjView`). It
  covers construction, `update` (dictionaries in order, then keywords, last
  write wins) and `copy`. Objects are kept in a heap and named by reference.
  That way "updating the copy leaves the original alone" is a real statement
  about aliasing.
- **Small dispatch rules in `lib/meep_nb.py`** (module `MeepNb`): where
  `show_geometry` sends its argument, the default `periods` of the mode-solver
  preview, and the `liveplot_1D` legend label.
- **Cross-section and 1D geometry builders.** `get_xs` is in
  `notebooks/partial_waveguides/partial_wgs.py` (module `PartialWgs`).
  `give_1d_microring_geometry` is in `jupyter-meep-libs/default_geometries.py`
  (module `DefaultGeometries`).

Shared vocabulary lives in `Shapes`: vectors, media, axis-aligned blocks,
and the interval a block covers on each axis. `Wrappers` holds `Option` and
`Result`.

Points where the model departs from the text or the code:

- **Missing cell.** With no floorplan group, `device_to_meep` does not
  return an undefined cell. Its final `return cell, geometry` raises
  `UnboundLocalError`. The model follows the code and returns
  `Failure(CellUnbound)`.
- **Sentinels.** The source marks the floorplan and annotation layers with
  two module-level empty dictionaries and tests them with `is`. The model
  uses the tags `CellFootprint` and `Metadata` instead. This assumes that a
  table is read by the converter of the same file that built it. A table
  from the other file's `get_layer_mapping` would carry foreign sentinel
  objects, and the real code would treat those layers as materials.
- **Which `objview` the Bragg code uses.** `lib/ataitbragg.py:1` imports
  `objview`, `silicon`, `oxide` and `liveplot` from `lib/ataitmeep.py`. That
  module defines neither `silicon` nor `oxide`, so as the files stand the
  import itself fails, before any Bragg function can run. Its `objview`
  (lib/ataitmeep.py:10-12) also has neither `copy` nor `update`. The model
  takes both missing pieces from `lib/meep_nb.py`: the `objview` with
  `update` and `copy` (lib/meep_nb.py:21-32), and `Bragg.Silicon`, a medium
  of permittivity 12 (lib/meep_nb.py:15).
- **Numbers.** Python floats are modelled as exact reals. The solver's `inf`
  block size is `Extent.Unbounded`, whose interval is `Everywhere`.
- **Globals.** Module globals such as `default_geo` become parameters.
- **Defaults.** Python default arguments are Dafny default parameter values
  with the same constants: `GetXs`, `GiveMicroringGeometry`,
  `CheckExitRadius` (the `R_exit=5, R_min_check=3` of `loop_mirror_terminator`)
  and `MonitorUntil`.

## Model

| member | source | states |
|---|---|---|
| `Conversions.GetLayerMapping` | jupyter-meep-libs/conversions.py:11-18 | Fails, naming the guide layer first, exactly when the registry lacks `wg_deep` or `FLOORPLAN`. Otherwise the table has exactly the keys {guide, floorplan, 1, 2}. Layers 1 and 2 are metadata. The floorplan is the cell footprint unless 1 or 2 overwrote it. The guide is silicon unless a later write reused its id. |
| `Conversions.Lift` | jupyter-meep-libs/conversions.py:38-40 | A polygon's vertices keep their count and order, and their x and y, and are placed at z = 0. |
| `Conversions.DeviceToMeep` | jupyter-meep-libs/conversions.py:21-42 | The conversion succeeds iff some group lies on a floorplan layer. The cell is then (xsize, ysize, 0) of the last such group. The number of prisms is the number of polygons on material layers, and they are the prisms the loop built. |
| `Conversions.InertGroupInvisible` | jupyter-meep-libs/conversions.py:26-36 | Inserting a group on an unknown or metadata layer anywhere in the input changes neither the loop state nor the conversion result. |
| `Conversions.UnknownLayerSkipped` | jupyter-meep-libs/conversions.py:26-31 | A group whose layer is not in the table contributes no prism and does not touch the cell. Removing it changes nothing. |
| `Conversions.CellFromLastFootprint` | jupyter-meep-libs/conversions.py:32-34 | If group j is on the floorplan layer and no later group is, the conversion succeeds with cell (xsize_j, ysize_j, 0). The last floorplan group wins. |
| `Conversions.MetadataGroupInvisible` | jupyter-meep-libs/conversions.py:35-36 | Adding or removing a source/port group anywhere leaves the conversion result unchanged. |
| `Conversions.PrismCount` | jupyter-meep-libs/conversions.py:37-41 | The number of prisms equals the total number of polygons over the groups mapped to a medium. |
| `Conversions.PrismAt` | jupyter-meep-libs/conversions.py:37-41 | Polygon k of material group j is the prism right after those of all earlier groups. It has the same vertices in order at z = 0, height 0, and the mapped medium. |
| `Conversions.CellUnboundIffNoFootprint` | jupyter-meep-libs/conversions.py:32-42 | After the loop, `cell` is still unbound exactly when no group is on a floorplan layer. |
| `Conversions.FoldCellFromLastFootprint` | jupyter-meep-libs/conversions.py:32-34 | Whenever the loop has bound `cell`, some group is on a floorplan layer with no later one, and `cell` is that group's (xsize, ysize, 0). |
| `Conversions.LoopMirrorScenario` | jupyter-meep-libs/conversions.py:77-80 | With the module's registry (guide 22, floorplan 99), take a 31 x 15 floorplan, one 8 x 0.35 rectangle on layer 22, and markers on layers 1 and 2. The result is cell (31, 15, 0) and a single silicon prism of the rectangle at z = 0. |
| `Conversions.CheckExitRadius` | jupyter-meep-libs/conversions.py:104-111 | Raises the exit-radius error exactly when R_exit < R_min_check, carrying both values. The defaults are 5 and 3. |
| `Conversions.ExitRadiusMonotone` | jupyter-meep-libs/conversions.py:104-111 | A radius pair that passes still passes with a larger exit radius or a smaller minimum. The default radii pass. |
| `MakeToMeep.GetLayerMapping` | notebooks/Cavities/make_tomeep.py:12-19 | Same table contract as the other copy, with the literal 1 and 2 as the annotation layers. It fails exactly when a registry name is missing. |
| `MakeToMeep.DeviceToMeep` | notebooks/Cavities/make_tomeep.py:22-43 | This file's converter succeeds iff some group is on a floorplan layer. The cell is then the last such group's size, with one prism per polygon on a material layer. |
| `MakeToMeep.UnknownLayerSkipped` | notebooks/Cavities/make_tomeep.py:27-32 | Groups on layers missing from the table contribute nothing to this file's conversion. |
| `MakeToMeep.CellFromLastFootprint` | notebooks/Cavities/make_tomeep.py:33-35 | The last floorplan group sets the cell to its (xsize, ysize, 0) and the conversion succeeds. |
| `MakeToMeep.MetadataGroupInvisible` | notebooks/Cavities/make_tomeep.py:36-37 | Metadata groups can be added or removed without changing the result. |
| `MakeToMeep.PrismLayout` | notebooks/Cavities/make_tomeep.py:38-42 | There is one flat prism per polygon of a material group, at its position in group order, and no other prisms. |
| `MakeToMeep.FailsIffNoFootprint` | notebooks/Cavities/make_tomeep.py:43 | The conversion fails exactly when no group is on a floorplan layer. |
| `ObjView.New` | lib/meep_nb.py:22-23 | Construction allocates a fresh object whose fields are exactly the keyword arguments. No existing object changes. |
| `ObjView.UpdateFields` | lib/meep_nb.py:25-28 | After an update the field names are the old names plus every name in the dictionaries and keywords. |
| `ObjView.UpdateKwargsWin` | lib/meep_nb.py:28 | A name given as a keyword ends with the keyword's value, whatever the dictionaries said. |
| `ObjView.UpdateLastDictWins` | lib/meep_nb.py:26-27 | A name not given as a keyword ends with the value from the last dictionary that names it. |
| `ObjView.UpdateKeepsUnnamed` | lib/meep_nb.py:25-28 | A field no argument names keeps its value. |
| `ObjView.Update` | lib/meep_nb.py:25-28 | Updating changes only the object updated. Every other object in the heap is unchanged. |
| `ObjView.Copy` | lib/meep_nb.py:30-32 | A copy is a new object, distinct from the original, with the same field map. No existing object changes. |
| `ObjView.CopyIsolatesOriginal` | lib/meep_nb.py:30-32 | Updating a copy gives the copy the updated fields and leaves the original's field map as it was. |
| `MeepNb.ShowGeometry` | lib/meep_nb.py:35-42 | A mode solver gets the 2D view. A non-simulation gets a TypeError naming its type. A simulation gets the 1D view iff dimensions == 1 or the cell's y and z are both 0; otherwise it gets nothing. |
| `MeepNb.MpbDataKwargs` | lib/meep_nb.py:69-70 | The caller's keyword arguments are never overridden. `periods = 3` is added exactly when none of periods/x/y/z was given. The result always chooses a view. |
| `MeepNb.MpbDataKwargsIdempotent` | lib/meep_nb.py:69-70 | Applying the default twice equals applying it once. |
| `MeepNb.ComponentLabel` | lib/meep_nb.py:108 | The label is "Ey" iff the component is Ey, "Ez" iff it is Ez, and "Ex" for every other component. |
| `MeepNb.LabelComponent` | lib/meep_nb.py:108 | Exactly the three labels the legend can show are read back as a component. |
| `MeepNb.LabelRoundTrip` | lib/meep_nb.py:108 | Ex, Ey and Ez each read back as themselves from their label. Every label that reads back names a component with that label. Every other component (H and dielectric) reads back as Ex. |
| `Bragg.DefaultGeometry` | lib/ataitbragg.py:6-15 | The default bag reads as width 0.35, pitch 0.21, duty 0.5, dw 0.25, 50 periods, buffer 4, cavity 1.25, thickness 0. That gives a cell length of 18.7625 and a cell of (18.7625, 3, 0), monitors at 7.88125, only the y mirror, and 103 blocks. |
| `Bragg.GeoOf` | lib/ataitbragg.py:93-132 | The parameters can be read exactly when all eight fields are present and `n_periods` is a whole number. Each of the eight parameters is the bag's value under its own name. |
| `Bragg.KwargsToGeo` | lib/ataitbragg.py:44-49 | With no bag given, the default bag is the base. The result is a fresh object whose fields are the base's fields overridden by the keywords. Every pre-existing object, the base included, is unchanged. |
| `Bragg.Symmetries` | lib/ataitbragg.py:78-80 | The list starts with the odd y mirror. The even z mirror is present, as the second and last entry, iff thickness != 0. |
| `Bragg.MirrorZMatchesCellDepth` | lib/ataitbragg.py:76-103 | For thickness >= 0, the z mirror is used exactly when the Bragg cell has nonzero depth. |
| `Bragg.CellX` | lib/ataitbragg.py:93-95 | The cell length is two buffers, plus both teeth (pitch*duty and pitch*(1-duty)) for every period, plus one cavity of cavity*pitch. |
| `Bragg.BraggCell` | lib/ataitbragg.py:93-103 | The cell is cell_x long and 3 wide. For non-negative thickness its depth is 0 iff the slab is flat. A slab of nonzero thickness gets 3 more than its thickness. |
| `Bragg.BraggGeometry` | lib/ataitbragg.py:106-132 | There are 2 + (2n + 1 if n >= 1) silicon blocks, all centred on the x axis with the slab's thickness. The buffers span [-cellx/2, -cellx/2 + buffer] and [cellx/2 - buffer, cellx/2], at the guide width. Period p has a tooth of pitch*duty at width sm_width + dw/2, then one of the rest of the pitch at width sm_width - dw/2. The cavity, cavity*pitch long and sm_width + dw/2 wide, comes just before the teeth of period int(n/2). When n >= 1, the teeth and cavity run end to end from buffer - cellx/2 to cellx/2 - buffer. When n = 0, only the two buffers are laid, and their inner edges are cavity*pitch apart. |
| `Bragg.EmptyGratingGap` | lib/ataitbragg.py:95-124 | With no periods the block count is 2, and the space `cell_x` leaves between the buffers' inner edges is cavity*pitch. The cavity is reserved in the length, but its block is only laid inside the period loop. |
| `Bragg.MonitorX` | lib/ataitbragg.py:135-137 | Each flux plane is dpml + 0.5 in from its cell edge. With a buffer of at least that length, the transmission plane lies in the right buffer, short of the PML. |
| `Bragg.MonitorsInBuffers` | lib/ataitbragg.py:135-137 | If the buffer is at least dpml + 0.5 long, both flux planes at +-monitor_x lie inside the buffer sections and outside the PML. |
| `Bragg.MonitorUntil` | lib/ataitbragg.py:160-168 | The result holds exactly one key. It is `until` with the given time when a time is given. Otherwise, and by default, it is `until_after_sources`, waiting for Ey at (monitor_x, 0, 0) to decay by 1e-3 over 20 time units. |
| `Bragg.DecayProbeOnTransmissionPlane` | lib/ataitbragg.py:135-168 | The default stop condition probes the transmission flux plane at +monitor_x (line 149). With buffer >= dpml + 0.5 that point lies in the right buffer, outside the PML. |
| `Bragg.BraggSimulationPreview` | lib/meep_nb.py:35-42 | A simulation over a Bragg cell (3 um across) gets the 1D preview iff it is declared one-dimensional. Otherwise `show_geometry` shows nothing. |
| `PartialWgs.GetXs` | notebooks/partial_waveguides/partial_wgs.py:21-47 | There are 3 + 2·[encapsulation given] + (1 or 2) blocks. The cladding spans z in [0, t_top] and the oxide z in [-t_box, 0], both filling x and y. When given (even as 0), the encapsulation is a slab up to t_ped + e plus a rib of width w + 2e up to t_si + e. Then comes the pedestal: width w_ped, height t_ped. Then the cores: width w, z in [0, t_si], and the single core centred at y = 0. |
| `PartialWgs.TwoCoresGap` | notebooks/partial_waveguides/partial_wgs.py:40-46 | With a gap, the two cores mirror each other about y = 0. Their facing edges are exactly the gap apart, and each is wg_width wide. |
| `PartialWgs.StackOnSubstrate` | notebooks/partial_waveguides/partial_wgs.py:29-46 | Every block after the cladding and the buried oxide has its bottom face at z = 0. |
| `PartialWgs.DefaultCrossSection` | notebooks/partial_waveguides/partial_wgs.py:21-47 | The default call gives four blocks: no encapsulation, and one 0.35 um core centred on y = 0. |
| `DefaultGeometries.GiveMicroringGeometry` | jupyter-meep-libs/default_geometries.py:3-16 | The result is exactly [background, waveguide]. The background spans x in [0, r + w + pad] with index 1. The waveguide spans x in [r, r + w] with index n. Both are infinite in y and z. |
| `DefaultGeometries.RingInsideBackground` | jupyter-meep-libs/default_geometries.py:5-13 | For non-negative r, w and pad, the waveguide's x interval lies inside the background's. |
| `DefaultGeometries.DefaultMicroring` | jupyter-meep-libs/default_geometries.py:3-16 | With the defaults (n 3.4, w 1, r 1, pad 4), the background covers [0, 6] and the index-3.4 guide covers [1, 2]. |

## Left out

- Printing the "layer not in meep mapping" diagnostic. It is console output, and the skip itself is modelled.
- `poly_grp.layers[0]`: each polygon group carries one layer id, on the assumption that flattened groups are layer-homogeneous.
- `gds_to_meep`: it does file I/O, and it calls `device_to_meep` without the required table.
- `put_cell_on_reflector`, `mmi1x2`, the rest of `loop_mirror_terminator`, both `give_loopmirror`s and notebooks/Cavities/make_loopmirror.py. They are phidl device construction (connect, Euler paths, cosines, an `allclose` check) inside a foreign library.
- `bragg_source`, `add_monitors`, `do_simrun`, `livefield`: solver objects and runs.
- The rest of the `sim_kwargs` dictionary: sources, PML layers, resolution and default material. Its cell and geometry are `Bragg.BraggCell` and `Bragg.BraggGeometry`; only the symmetry choice is assembled here.
- `set_sim1/2/3` and the `if False:` block. They mutate the module-global `default_geo` through `objview.update`, which is modelled.
- `show_geometry_1d`, the `show_geometry_2d` body beyond the `periods` default, `show_mode`, `liveplot`, the `liveplot_1D` body and `to_gif`. These are matplotlib/IPython side effects, global artist state and subprocess calls.
- `get_ms`, `get_ks`, `cutoff_k` and notebooks/partial_waveguides/strip_wvg.py. These are mode-solver runs and a floating-point square root of a library-owned permittivity.
- lib/ataitmeep.py: plotting helpers, and an `objview` without `update` or `copy`.
- Floating-point rounding: all lengths are exact reals, so the tiling of the Bragg cell is exact.
- Bragg.GeoOf: requires all eight grating fields at once. The source only fails when a function reads an attribute that is missing.
- Bragg.GeoOf: the bag holds reals, so Python's int/float distinction is lost. `range(50.0)` raises TypeError in `bragg_geometry`, yet `GeoOf` accepts 50.0. `cell_x`, `bragg_cell`, `monitor_x` and `monitor_until` never reach `range` and accept a fractional `n_periods` such as 10.5, which `GeoOf` rejects.
- Bragg.BraggGeometry: the contiguity clause is stated for n >= 1 only. With `n_periods` = 0 the cell keeps a cavity-length gap between the buffers that no block fills, which the contract states separately.
- Bragg.BraggGeometry: takes the resolved parameters. The `geo=None, **kwargs` prelude shared by every Bragg function is `Bragg.KwargsToGeo` followed by `Bragg.GeoOf`.
- MeepNb.MpbDataKwargs: keyword values are modelled as reals only.
- ObjView.New: does not model the TypeError Python raises for a keyword named `self`, which clashes with the parameter of `__init__` (lib/meep_nb.py:22). Field names here are plain map keys, with no Python namespace behind them.
- ObjView.Update: does not model two failures. A keyword named `self` raises TypeError (lib/meep_nb.py:25). A stored field named `update` hides the method, so every later `update` call fails.
- ObjView.Copy: does not model the failures of `objview(**self.__dict__)` (lib/meep_nb.py:31) or of a field named `copy`. A field named `self` raises TypeError. A field named `copy` hides the method. A non-string key cannot arise, because field names are strings in the model.
- Bragg.KwargsToGeo: inherits those gaps. A base bag with a `copy` field makes lib/ataitbragg.py:47 raise, and a `self` keyword makes line 48 raise, while the model always returns a new bag.
