/** The parametric Bragg-grating cavity of lib/ataitbragg.py: a straight
    waveguide with a buffer section at each end and, between them, periods
    of two teeth of alternating width with one longer cavity block before
    the teeth of the middle period. All coordinates are exact rationals. */
module Bragg {
  import opened Wrappers
  import opened Shapes
  import OV = ObjView
  import MeepNb

  /** The grating parameters the geometry functions read from the bag. */
  datatype Geo = Geo(
    smWidth: real,
    pitch: real,
    duty: real,
    dw: real,
    nPeriods: int,
    buffer: real,
    cavity: real,
    thickness: real)

  const GeoKeys: set<string> :=
    {"sm_width", "pitch", "duty", "dw", "n_periods", "buffer", "cavity", "thickness"}

  /** The module's `default_geo` bag. */
  const DefaultGeoFields: map<string, real> := map[
    "sm_width" := 0.35, "pitch" := 0.21, "duty" := 0.5, "dw" := 0.25,
    "n_periods" := 50.0, "buffer" := 4.0, "cavity" := 1.25, "thickness" := 0.0]

  const Silicon: Medium := Epsilon(12.0)
  const Dpml: real := 1.0

  predicate IsWhole(x: real) {
    x.Floor as real == x
  }

  /** Reads the grating parameters out of a bag: every field must be there,
      and `n_periods` must hold a whole number. The bag's values are reals,
      so an integer count and a float with no fractional part read alike. */
  function GeoOf(fields: map<string, real>): (r: Option<Geo>)
    ensures r.Some? <==> GeoKeys <= fields.Keys && IsWhole(fields["n_periods"])
    ensures r.Some? ==> r.value.nPeriods as real == fields["n_periods"]
    ensures r.Some? ==>
      && r.value.smWidth == fields["sm_width"]
      && r.value.pitch == fields["pitch"]
      && r.value.duty == fields["duty"]
      && r.value.dw == fields["dw"]
      && r.value.buffer == fields["buffer"]
      && r.value.cavity == fields["cavity"]
      && r.value.thickness == fields["thickness"]
  {
    if GeoKeys <= fields.Keys && IsWhole(fields["n_periods"]) then
      Some(Geo(fields["sm_width"], fields["pitch"], fields["duty"], fields["dw"],
               fields["n_periods"].Floor, fields["buffer"], fields["cavity"], fields["thickness"]))
    else None
  }

  /** The bag `kwargs_to_geo` starts from: the caller's, or the module
      default when the caller passed none. */
  function BaseBag(geo: Option<OV.Ref>, defaultGeo: OV.Ref): OV.Ref {
    if geo.Some? then geo.value else defaultGeo
  }

  /** `kwargs_to_geo`: copy the given bag, or the default one when none is
      given, and apply the keyword overrides to the copy. The result is a
      new object; no object that existed before, the base included, changes. */
  function KwargsToGeo(h: OV.Heap<real>, geo: Option<OV.Ref>, defaultGeo: OV.Ref, kwargs: map<string, real>)
    : (res: (OV.Heap<real>, OV.Ref))
    requires OV.Live(h, defaultGeo)
    requires geo.Some? ==> OV.Live(h, geo.value)
    ensures OV.Live(res.0, res.1) && !OV.Live(h, res.1)
    ensures res.0.objects[res.1].Keys == h.objects[BaseBag(geo, defaultGeo)].Keys + kwargs.Keys
    ensures forall k :: k in kwargs ==> res.0.objects[res.1][k] == kwargs[k]
    ensures forall k :: k in h.objects[BaseBag(geo, defaultGeo)] && k !in kwargs ==>
      res.0.objects[res.1][k] == h.objects[BaseBag(geo, defaultGeo)][k]
    ensures forall r: OV.Ref :: OV.Live(h, r) ==> res.0.objects[r] == h.objects[r]
  {
    var (h1, copy) := OV.Copy(h, BaseBag(geo, defaultGeo));
    (OV.Update(h1, copy, [], kwargs), copy)
  }

  /** `cell_x`: the length of the whole device along x, room for both
      buffers, both teeth of every period, and the cavity. */
  function CellX(g: Geo): (c: real)
    ensures c == 2.0 * g.buffer + g.nPeriods as real * (ToothLen(g, 0) + ToothLen(g, 1)) + g.cavity * g.pitch
  {
    g.pitch * g.nPeriods as real + g.cavity * g.pitch + 2.0 * g.buffer
  }

  /** `bragg_cell`: 3 um across, flat in 2D, 3 um taller than the slab in 3D. */
  function BraggCell(g: Geo): (c: Vec3)
    ensures c.x == CellX(g) && c.y == 3.0
    ensures g.thickness >= 0.0 ==> (c.z == 0.0 <==> g.thickness == 0.0)
    ensures g.thickness != 0.0 ==> c.z - g.thickness == 3.0
  {
    Vec3(CellX(g), 3.0, if g.thickness == 0.0 then 0.0 else g.thickness + 3.0)
  }

  datatype Direction = X | Y | Z

  datatype Symmetry = Mirror(direction: Direction, phase: int)

  /** The symmetries `sim_kwargs` hands the solver: odd mirror in y always,
      even mirror in z for a slab of nonzero thickness. */
  function Symmetries(g: Geo): (s: seq<Symmetry>)
    ensures 1 <= |s| <= 2 && s[0] == Mirror(Y, -1)
    ensures Mirror(Z, 1) in s <==> g.thickness != 0.0
    ensures |s| == 2 ==> s[1] == Mirror(Z, 1)
  {
    [Mirror(Y, -1)] + (if g.thickness != 0.0 then [Mirror(Z, 1)] else [])
  }

  /** For a physical (non-negative) thickness, the z mirror is used exactly
      when the cell has depth. */
  lemma MirrorZMatchesCellDepth(g: Geo)
    requires g.thickness >= 0.0
    ensures Mirror(Z, 1) in Symmetries(g) <==> BraggCell(g).z != 0.0
  {
  }

  /** `int(n_periods / 2)`: true division then truncation toward zero. */
  function Half(n: int): int {
    if n >= 0 then n / 2 else -((-n) / 2)
  }

  /** A silicon block of the slab's thickness centred on the x axis. */
  function Slab(g: Geo, len: real, width: real, cx: real): Block {
    Block(Size3(Finite(len), Finite(width), Finite(g.thickness)), Vec3(cx, 0.0, 0.0), Silicon)
  }

  /** `tooth_len` and `wg_wid` of tooth `t` (0 or 1) of a period. */
  function ToothLen(g: Geo, t: int): real {
    g.pitch * (if t == 0 then g.duty else 1.0 - g.duty)
  }

  function ToothWidth(g: Geo, t: int): real {
    g.smWidth + g.dw / 2.0 * (if t == 0 then 1.0 else -1.0)
  }

  /** Where period `p` begins: after the left buffer, `p` whole pitches,
      and the cavity once the middle period is behind. */
  function PeriodStart(g: Geo, p: int): real {
    g.buffer - CellX(g) / 2.0 + p as real * g.pitch
    + (if 0 <= Half(g.nPeriods) < p then g.cavity * g.pitch else 0.0)
  }

  /** Where the first tooth of period `p` begins. */
  function ToothStart(g: Geo, p: int): real {
    g.buffer - CellX(g) / 2.0 + p as real * g.pitch
    + (if 0 <= Half(g.nPeriods) <= p then g.cavity * g.pitch else 0.0)
  }

  /** Position of the first tooth of period `p` in the block list. */
  function ToothIndex(g: Geo, p: int): int {
    2 + 2 * p + (if 0 <= Half(g.nPeriods) <= p then 1 else 0)
  }

  /** Two buffers, two teeth per period, and the cavity when there is at
      least one period. */
  function BlockCount(n: int): nat {
    2 + (if n >= 1 then 2 * n + 1 else 0)
  }

  /** Period `p` is in place: its two teeth sit at their list positions,
      end to end from `ToothStart(g, p)`, the first `pitch * duty` long and
      `dw / 2` wider than the guide, the second filling the rest of the
      pitch and `dw / 2` narrower. */
  predicate PeriodLaid(g: Geo, geometry: seq<Block>, p: int) {
    && 0 <= ToothIndex(g, p)
    && ToothIndex(g, p) + 1 < |geometry|
    && XSpan(geometry[ToothIndex(g, p)])
       == Between(ToothStart(g, p), ToothStart(g, p) + g.pitch * g.duty)
    && geometry[ToothIndex(g, p)].size.y == Finite(g.smWidth + g.dw / 2.0)
    && XSpan(geometry[ToothIndex(g, p) + 1])
       == Between(ToothStart(g, p) + g.pitch * g.duty, ToothStart(g, p) + g.pitch)
    && geometry[ToothIndex(g, p) + 1].size.y == Finite(g.smWidth - g.dw / 2.0)
  }

  /** The cavity block sits right after the teeth of the periods before the
      middle one, `cavity * pitch` long and as wide as a wide tooth. */
  predicate CavityLaid(g: Geo, geometry: seq<Block>) {
    var h := Half(g.nPeriods);
    var start := PeriodStart(g, h);
    && 0 <= 2 + 2 * h < |geometry|
    && XSpan(geometry[2 + 2 * h]) == Between(start, start + g.cavity * g.pitch)
    && geometry[2 + 2 * h].size.y == Finite(g.smWidth + g.dw / 2.0)
  }

  predicate SiliconSlab(g: Geo, b: Block) {
    && b.material == Silicon
    && b.center.y == 0.0 && b.center.z == 0.0
    && b.size.z == Finite(g.thickness)
  }

  lemma PeriodLaidExtend(g: Geo, geometry: seq<Block>, extra: seq<Block>, p: int)
    requires PeriodLaid(g, geometry, p)
    ensures PeriodLaid(g, geometry + extra, p)
  {
    var t := ToothIndex(g, p);
    assert (geometry + extra)[t] == geometry[t];
    assert (geometry + extra)[t + 1] == geometry[t + 1];
  }

  /** Appending the two teeth of period `p` at its tooth start lays it. */
  lemma NewPeriodLaid(g: Geo, prefix: seq<Block>, p: int)
    requires 0 <= p && |prefix| == ToothIndex(g, p)
    ensures
      var x0 := ToothStart(g, p);
      var len0 := ToothLen(g, 0);
      var len1 := ToothLen(g, 1);
      PeriodLaid(g, prefix + [Slab(g, len0, ToothWidth(g, 0), x0 + len0 / 2.0),
                              Slab(g, len1, ToothWidth(g, 1), x0 + len0 + len1 / 2.0)], p)
  {
    assert g.pitch * g.duty + g.pitch * (1.0 - g.duty) == g.pitch;
  }

  /** One period moves the next start a pitch further, plus the cavity when
      the period is the middle one. */
  lemma PeriodAdvance(g: Geo, i: int)
    requires 0 <= i
    ensures ToothStart(g, i) == PeriodStart(g, i) + (if i == Half(g.nPeriods) then g.cavity * g.pitch else 0.0)
    ensures PeriodStart(g, i + 1) == ToothStart(g, i) + ToothLen(g, 0) + ToothLen(g, 1)
    ensures ToothLen(g, 0) == g.pitch * g.duty
  {
    assert g.pitch * g.duty + g.pitch * (1.0 - g.duty) == g.pitch;
    assert (i + 1) as real * g.pitch == i as real * g.pitch + g.pitch;
  }

  function LeftBuffer(g: Geo): Block {
    Slab(g, g.buffer, g.smWidth, (CellX(g) - g.buffer) * -1.0 / 2.0)
  }

  function RightBuffer(g: Geo): Block {
    Slab(g, g.buffer, g.smWidth, (CellX(g) - g.buffer) * 1.0 / 2.0)
  }

  /** The blocks one pass of the period loop appends at `x0`: the cavity
      when the period is the middle one, then the two teeth. */
  function PeriodBlocks(g: Geo, i: int, x0: real): seq<Block> {
    var cav := g.cavity * g.pitch;
    var t0 := if i == Half(g.nPeriods) then x0 + cav else x0;
    var len0 := ToothLen(g, 0);
    var len1 := ToothLen(g, 1);
    (if i == Half(g.nPeriods) then [Slab(g, cav, g.smWidth + g.dw / 2.0, x0 + cav / 2.0)] else [])
    + [Slab(g, len0, ToothWidth(g, 0), t0 + len0 / 2.0),
       Slab(g, len1, ToothWidth(g, 1), t0 + len0 + len1 / 2.0)]
  }

  /** The loop state after `i` periods. */
  predicate Laid(g: Geo, geometry: seq<Block>, x0: real, i: int) {
    var half := Half(g.nPeriods);
    && 0 <= i && (i <= g.nPeriods || i == 0)
    && |geometry| == 2 + 2 * i + (if 0 <= half < i then 1 else 0)
    && x0 == PeriodStart(g, i)
    && geometry[0] == LeftBuffer(g)
    && geometry[1] == RightBuffer(g)
    && (forall b :: b in geometry ==> SiliconSlab(g, b))
    && (forall p :: 0 <= p < i ==> PeriodLaid(g, geometry, p))
    && (0 <= half < i ==> CavityLaid(g, geometry))
    && (forall k :: 2 <= k < |geometry| - 1 ==> AbutsX(geometry[k], geometry[k + 1]))
    && (|geometry| > 2 ==>
        && XSpan(geometry[2]).Between?
        && XSpan(geometry[2]).lo == g.buffer - CellX(g) / 2.0
        && XSpan(geometry[|geometry| - 1]).Between?
        && XSpan(geometry[|geometry| - 1]).hi == x0)
  }

  /** The blocks of one period lie end to end from `x0` to the start of
      the next period. */
  lemma PeriodBlocksSpans(g: Geo, i: int)
    requires 0 <= i
    ensures
      var pb := PeriodBlocks(g, i, PeriodStart(g, i));
      && 2 <= |pb|
      && XSpan(pb[0]).Between? && XSpan(pb[0]).lo == PeriodStart(g, i)
      && (forall k :: 0 <= k < |pb| - 1 ==> AbutsX(pb[k], pb[k + 1]))
      && XSpan(pb[|pb| - 1]).Between? && XSpan(pb[|pb| - 1]).hi == PeriodStart(g, i + 1)
  {
    PeriodAdvance(g, i);
  }

  /** Two runs of abutting blocks that meet end to start form one run;
      positions 0 and 1 of the first run (the buffers) are not part of it. */
  lemma AbutsConcat(a: seq<Block>, b: seq<Block>)
    requires 2 <= |a| && 1 <= |b|
    requires forall k :: 2 <= k < |a| - 1 ==> AbutsX(a[k], a[k + 1])
    requires forall k :: 0 <= k < |b| - 1 ==> AbutsX(b[k], b[k + 1])
    requires |a| > 2 ==> XSpan(a[|a| - 1]).Between? && XSpan(b[0]).Between?
                          && XSpan(a[|a| - 1]).hi == XSpan(b[0]).lo
    ensures forall k :: 2 <= k < |a + b| - 1 ==> AbutsX((a + b)[k], (a + b)[k + 1])
  {
    forall k | 2 <= k < |a + b| - 1
      ensures AbutsX((a + b)[k], (a + b)[k + 1])
    {
      if k < |a| - 1 {
        assert (a + b)[k] == a[k] && (a + b)[k + 1] == a[k + 1];
      } else if k == |a| - 1 {
        assert (a + b)[k] == a[k] && (a + b)[k + 1] == b[0];
      } else {
        assert (a + b)[k] == b[k - |a|] && (a + b)[k + 1] == b[k - |a| + 1];
      }
    }
  }

  /** One pass of the period loop keeps the blocks end to end. */
  lemma StepContiguous(g: Geo, geometry: seq<Block>, x0: real, i: int)
    requires Laid(g, geometry, x0, i) && i < g.nPeriods
    ensures
      var next := geometry + PeriodBlocks(g, i, x0);
      && (forall k :: 2 <= k < |next| - 1 ==> AbutsX(next[k], next[k + 1]))
      && XSpan(next[2]).Between?
      && XSpan(next[2]).lo == g.buffer - CellX(g) / 2.0
      && XSpan(next[|next| - 1]).Between?
      && XSpan(next[|next| - 1]).hi == PeriodStart(g, i + 1)
  {
    var pb := PeriodBlocks(g, i, x0);
    PeriodBlocksSpans(g, i);
    AbutsConcat(geometry, pb);
    var next := geometry + pb;
    assert next[|next| - 1] == pb[|pb| - 1];
    if |geometry| == 2 {
      assert next[2] == pb[0];
    } else {
      assert next[2] == geometry[2];
    }
  }

  /** One pass of the period loop lays period `i` and keeps the rest. */
  lemma StepPeriods(g: Geo, geometry: seq<Block>, x0: real, i: int)
    requires Laid(g, geometry, x0, i) && i < g.nPeriods
    ensures
      var next := geometry + PeriodBlocks(g, i, x0);
      && (forall p :: 0 <= p < i + 1 ==> PeriodLaid(g, next, p))
      && (0 <= Half(g.nPeriods) < i + 1 ==> CavityLaid(g, next))
  {
    var half := Half(g.nPeriods);
    var next := geometry + PeriodBlocks(g, i, x0);
    var withCavity := if i == half then next[..|geometry| + 1] else geometry;
    PeriodAdvance(g, i);
    assert |withCavity| == ToothIndex(g, i);
    NewPeriodLaid(g, withCavity, i);
    assert next == withCavity + [next[|next| - 2], next[|next| - 1]];
    forall p | 0 <= p < i
      ensures PeriodLaid(g, next, p)
    {
      PeriodLaidExtend(g, geometry, PeriodBlocks(g, i, x0), p);
    }
    if 0 <= half <= i {
      assert next[2 + 2 * half] == withCavity[2 + 2 * half];
    }
  }

  /** One pass of the period loop keeps the loop state. */
  lemma LaidStep(g: Geo, geometry: seq<Block>, x0: real, i: int)
    requires Laid(g, geometry, x0, i) && i < g.nPeriods
    ensures Laid(g, geometry + PeriodBlocks(g, i, x0), PeriodStart(g, i + 1), i + 1)
  {
    StepContiguous(g, geometry, x0, i);
    StepPeriods(g, geometry, x0, i);
    var next := geometry + PeriodBlocks(g, i, x0);
    assert forall b :: b in next ==> b in geometry || b in PeriodBlocks(g, i, x0);
    assert next[0] == geometry[0] && next[1] == geometry[1];
  }

  /** The two buffers' inner edges are `gap` apart along x. */
  predicate BuffersApart(geometry: seq<Block>, gap: real) {
    && 2 <= |geometry|
    && XSpan(geometry[0]).Between? && XSpan(geometry[1]).Between?
    && XSpan(geometry[1]).lo - XSpan(geometry[0]).hi == gap
  }

  /** `bragg_geometry`. The blocks are the two buffers, then the teeth and
      the cavity laid end to end from the inner edge of the left buffer to
      the inner edge of the right one. */
  method BraggGeometry(g: Geo) returns (geometry: seq<Block>)
    ensures |geometry| == BlockCount(g.nPeriods)
    ensures forall b :: b in geometry ==> SiliconSlab(g, b)
    ensures XSpan(geometry[0]) == Between(-CellX(g) / 2.0, -CellX(g) / 2.0 + g.buffer)
    ensures XSpan(geometry[1]) == Between(CellX(g) / 2.0 - g.buffer, CellX(g) / 2.0)
    ensures geometry[0].size.y == Finite(g.smWidth) && geometry[1].size.y == Finite(g.smWidth)
    ensures forall p :: 0 <= p < g.nPeriods ==> PeriodLaid(g, geometry, p)
    ensures g.nPeriods >= 1 ==> CavityLaid(g, geometry)
    ensures g.nPeriods == 0 ==> BuffersApart(geometry, g.cavity * g.pitch)
    ensures forall i :: 2 <= i < |geometry| - 1 ==> AbutsX(geometry[i], geometry[i + 1])
    ensures g.nPeriods >= 1 ==>
      && XSpan(geometry[2]).Between?
      && XSpan(geometry[2]).lo == g.buffer - CellX(g) / 2.0
      && XSpan(geometry[|geometry| - 1]).Between?
      && XSpan(geometry[|geometry| - 1]).hi == CellX(g) / 2.0 - g.buffer
  {
    var cellx := CellX(g);
    // the left buffer, then the right one
    geometry := [Slab(g, g.buffer, g.smWidth, (cellx - g.buffer) * -1.0 / 2.0)];
    geometry := geometry + [Slab(g, g.buffer, g.smWidth, (cellx - g.buffer) * 1.0 / 2.0)];
    var x0 := g.buffer - cellx / 2.0;
    var i := 0;
    while i < g.nPeriods
      invariant Laid(g, geometry, x0, i)
    {
      ghost var before := geometry;
      ghost var start := x0;
      LaidStep(g, geometry, x0, i);
      if i == Half(g.nPeriods) {
        var toothLen := g.cavity * g.pitch;
        var wgWid := g.smWidth + g.dw / 2.0;
        geometry := geometry + [Slab(g, toothLen, wgWid, x0 + toothLen / 2.0)];
        x0 := x0 + toothLen;
      }
      // the wide tooth, then the narrow one
      var len0 := ToothLen(g, 0);
      geometry := geometry + [Slab(g, len0, ToothWidth(g, 0), x0 + len0 / 2.0)];
      x0 := x0 + len0;
      var len1 := ToothLen(g, 1);
      geometry := geometry + [Slab(g, len1, ToothWidth(g, 1), x0 + len1 / 2.0)];
      x0 := x0 + len1;
      assert geometry == before + PeriodBlocks(g, i, start);
      PeriodAdvance(g, i);
      i := i + 1;
    }
    PeriodAdvance(g, i);
    if g.nPeriods == 0 {
      EmptyGratingGap(g);
      assert BuffersApart(geometry, g.cavity * g.pitch);
    }
  }

  /** `monitor_x`: the flux planes sit half a micron inside the PML. When
      the buffer is longer than that margin, the transmission plane lies in
      the right buffer waveguide, short of the PML. */
  function MonitorX(g: Geo): (m: real)
    ensures CellX(g) / 2.0 - m == Dpml + 0.5
    ensures g.buffer >= Dpml + 0.5 ==> CellX(g) / 2.0 - g.buffer <= m < CellX(g) / 2.0 - Dpml
  {
    CellX(g) / 2.0 - Dpml - 0.5
  }

  /** With no periods the cell still reserves the cavity's length between
      the buffers, but no block is laid there: the two buffers leave a gap
      of `cavity * pitch`. */
  lemma EmptyGratingGap(g: Geo)
    requires g.nPeriods == 0
    ensures BlockCount(g.nPeriods) == 2
    ensures (CellX(g) / 2.0 - g.buffer) - (-CellX(g) / 2.0 + g.buffer) == g.cavity * g.pitch
  {
  }

  /** With a buffer at least as long as the PML plus the half-micron margin,
      both flux planes lie in the buffer waveguides and outside the PML. */
  lemma MonitorsInBuffers(g: Geo)
    requires g.buffer >= Dpml + 0.5
    ensures CellX(g) / 2.0 - g.buffer <= MonitorX(g) < CellX(g) / 2.0 - Dpml
    ensures -CellX(g) / 2.0 + Dpml < -MonitorX(g) <= -CellX(g) / 2.0 + g.buffer
  {
  }

  /** How a run is told to stop. */
  datatype StopCondition =
    | RunFor(time: real)
    | FieldsDecayed(dt: real, component: Component, point: Vec3, decayBy: real)

  /** `monitor_until`: a one-entry keyword map, `until` when a time is
      given, otherwise `until_after_sources` waiting for Ey at the
      transmission plane to decay by 1e-3. */
  function MonitorUntil(g: Geo, until: Option<real> := None): (r: map<string, StopCondition>)
    ensures |r| == 1
    ensures "until" in r <==> until.Some?
    ensures "until_after_sources" in r <==> until.None?
    ensures until.Some? ==> "until" in r && r["until"] == RunFor(until.value)
    ensures until.None? ==>
      && "until_after_sources" in r
      && r["until_after_sources"] == FieldsDecayed(20.0, Ey, Vec3(MonitorX(g), 0.0, 0.0), 0.001)
  {
    match until
    case None => map["until_after_sources" := FieldsDecayed(20.0, Ey, Vec3(MonitorX(g), 0.0, 0.0), 0.001)]
    case Some(t) => map["until" := RunFor(t)]
  }

  /** The decay probe of the default stop condition is the transmission
      flux plane; with a long enough buffer it sits in the right buffer. */
  lemma DecayProbeOnTransmissionPlane(g: Geo)
    requires g.buffer >= Dpml + 0.5
    ensures
      var stop := MonitorUntil(g)["until_after_sources"];
      && stop.FieldsDecayed?
      && stop.point == Vec3(MonitorX(g), 0.0, 0.0)
      && CellX(g) / 2.0 - g.buffer <= stop.point.x < CellX(g) / 2.0 - Dpml
  {
  }

  /** `show_geometry` on a Bragg simulation: the cell is 3 um across, so
      only a simulation declared one-dimensional gets the 1D preview; a 2D
      or 3D grating gets no preview at all. */
  lemma BraggSimulationPreview(g: Geo, dimensions: int)
    ensures MeepNb.ShowGeometry(MeepNb.Simulation(dimensions, BraggCell(g)))
         == (if dimensions == 1 then MeepNb.Preview1D else MeepNb.NoPreview)
  {
  }

  /** The default bag describes a 2D grating of 50 periods in an 18.7625 um
      cell with its monitors at +-7.88125 um. */
  lemma DefaultGeometry()
    ensures GeoOf(DefaultGeoFields) == Some(Geo(0.35, 0.21, 0.5, 0.25, 50, 4.0, 1.25, 0.0))
    ensures
      var g := GeoOf(DefaultGeoFields).value;
      && CellX(g) == 18.7625
      && BraggCell(g) == Vec3(18.7625, 3.0, 0.0)
      && MonitorX(g) == 7.88125
      && Symmetries(g) == [Mirror(Y, -1)]
      && BlockCount(g.nPeriods) == 103
  {
    assert (50.0).Floor == 50;
  }
}
