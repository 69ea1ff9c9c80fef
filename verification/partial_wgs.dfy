/** The cross-section builder `get_xs` of
    notebooks/partial_waveguides/partial_wgs.py: a y-z slice of a partially
    etched silicon rib on a thin pedestal, optionally two ribs side by side
    and an oxide encapsulation, as a layered list of blocks that are
    infinite along the propagation axis x. */
module PartialWgs {
  import opened Wrappers
  import opened Shapes

  const ColdSi: Medium := Index(3.49)
  const SiO2: Medium := Index(1.45)
  const Cladding: Medium := Index(1.0)

  const TSi: real := 0.220
  const TPed: real := 0.050
  const WPed: real := 3.0
  const TBox: real := 1.2
  const TTop: real := 1.2

  /** A block filling x and y, with its bottom face at `bottom`. */
  function Layer(height: real, bottom: real, m: Medium): Block {
    Block(Size3(Unbounded, Unbounded, Finite(height)), Vec3(0.0, 0.0, bottom + height / 2.0), m)
  }

  /** A rib of the given width, centred at `y`, standing on z = 0. */
  function Rib(width: real, height: real, y: real, m: Medium): Block {
    Block(Size3(Unbounded, Finite(width), Finite(height)), Vec3(0.0, y, height / 2.0), m)
  }

  /** The rib centres: one on the axis, or two a gap apart. */
  function CoreOffsets(wgWidth: real, twoWgGap: Option<real>): seq<real> {
    match twoWgGap
    case None => [0.0]
    case Some(gap) => [-1.0 * (wgWidth + gap) / 2.0, 1.0 * (wgWidth + gap) / 2.0]
  }

  /** Number of encapsulation blocks. */
  function EncapCount(encapsulation: Option<real>): nat {
    if encapsulation.Some? then 2 else 0
  }

  /** `get_xs`: cladding above z = 0, buried oxide below it, the two
      encapsulation blocks when an encapsulation thickness is given (even
      0), the pedestal, and one or two silicon cores. */
  function GetXs(wgWidth: real := 0.35, twoWgGap: Option<real> := None, encapsulation: Option<real> := None): (geometry: seq<Block>)
    ensures |geometry| == 3 + EncapCount(encapsulation) + (if twoWgGap.None? then 1 else 2)
    ensures
      var cl := geometry[0];
      && cl.material == Cladding
      && XSpan(cl) == Everywhere && YSpan(cl) == Everywhere && ZSpan(cl) == Between(0.0, TTop)
    ensures
      var box := geometry[1];
      && box.material == SiO2
      && XSpan(box) == Everywhere && YSpan(box) == Everywhere && ZSpan(box) == Between(-TBox, 0.0)
    ensures encapsulation.Some? ==>
      var e := encapsulation.value;
      && geometry[2].material == SiO2
      && XSpan(geometry[2]) == Everywhere && YSpan(geometry[2]) == Everywhere
      && ZSpan(geometry[2]) == Between(0.0, TPed + e)
      && geometry[3].material == SiO2
      && XSpan(geometry[3]) == Everywhere
      && YSpan(geometry[3]) == Between(-(wgWidth + 2.0 * e) / 2.0, (wgWidth + 2.0 * e) / 2.0)
      && ZSpan(geometry[3]) == Between(0.0, TSi + e)
    ensures
      var ped := geometry[2 + EncapCount(encapsulation)];
      && ped.material == ColdSi
      && XSpan(ped) == Everywhere
      && YSpan(ped) == Between(-WPed / 2.0, WPed / 2.0)
      && ZSpan(ped) == Between(0.0, TPed)
    ensures forall i :: 3 + EncapCount(encapsulation) <= i < |geometry| ==>
      && geometry[i].material == ColdSi
      && XSpan(geometry[i]) == Everywhere
      && ZSpan(geometry[i]) == Between(0.0, TSi)
      && geometry[i].size.y == Finite(wgWidth)
    ensures twoWgGap.None? ==>
      YSpan(geometry[3 + EncapCount(encapsulation)]) == Between(-wgWidth / 2.0, wgWidth / 2.0)
  {
    var base := [Layer(TTop, 0.0, Cladding), Layer(TBox, -TBox, SiO2)];
    var encap := match encapsulation
      case None => []
      case Some(e) => [Layer(TPed + e, 0.0, SiO2), Rib(wgWidth + 2.0 * e, TSi + e, 0.0, SiO2)];
    var offsets := CoreOffsets(wgWidth, twoWgGap);
    var cores := seq(|offsets|, k requires 0 <= k < |offsets| => Rib(wgWidth, TSi, offsets[k], ColdSi));
    base + encap + [Rib(WPed, TPed, 0.0, ColdSi)] + cores
  }

  /** With a gap, the two cores mirror each other about y = 0 and their
      facing edges are exactly the gap apart. */
  lemma TwoCoresGap(wgWidth: real, gap: real, encapsulation: Option<real>)
    ensures
      var geometry := GetXs(wgWidth, Some(gap), encapsulation);
      var first := 3 + EncapCount(encapsulation);
      && first + 1 < |geometry|
      && YSpan(geometry[first]).Between? && YSpan(geometry[first + 1]).Between?
      && YSpan(geometry[first]).lo == -YSpan(geometry[first + 1]).hi
      && YSpan(geometry[first + 1]).lo - YSpan(geometry[first]).hi == gap
      && YSpan(geometry[first + 1]).hi - YSpan(geometry[first + 1]).lo == wgWidth
  {
  }

  /** Every block of the silicon stack, and of the encapsulation, stands
      on z = 0: only the buried oxide reaches below. */
  lemma StackOnSubstrate(wgWidth: real, twoWgGap: Option<real>, encapsulation: Option<real>)
    ensures
      var geometry := GetXs(wgWidth, twoWgGap, encapsulation);
      forall i :: 2 <= i < |geometry| ==> ZSpan(geometry[i]).Between? && ZSpan(geometry[i]).lo == 0.0
  {
  }

  /** The default call, as the mode-solver helpers make it: no encapsulation
      and a single 0.35 um core centred on y = 0, four blocks in all. */
  lemma DefaultCrossSection()
    ensures |GetXs()| == 4
    ensures GetXs()[3].size.y == Finite(0.35) && YSpan(GetXs()[3]) == Between(-0.175, 0.175)
  {
  }
}
