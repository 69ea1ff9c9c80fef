/** `give_1d_microring_geometry` of jupyter-meep-libs/default_geometries.py:
    a one-dimensional cut through a microring, as a background block and the
    ring waveguide, both infinite in y and z. */
module DefaultGeometries {
  import opened Shapes

  /** The background of index 1 from x = 0 past the ring, then the
      waveguide of index `n` between radius `r` and `r + w`. */
  function GiveMicroringGeometry(n: real := 3.4, w: real := 1.0, r: real := 1.0, pad: real := 4.0): (geometry: seq<Block>)
    ensures |geometry| == 2
    ensures
      var bg := geometry[0];
      && bg.material == Index(1.0)
      && XSpan(bg) == Between(0.0, r + w + pad)
      && YSpan(bg) == Everywhere && ZSpan(bg) == Everywhere
    ensures
      var wg := geometry[1];
      && wg.material == Index(n)
      && XSpan(wg) == Between(r, r + w)
      && YSpan(wg) == Everywhere && ZSpan(wg) == Everywhere
  {
    var bgRadius := r + w + pad;
    var background := Block(Size3(Finite(bgRadius), Unbounded, Unbounded), Vec3(bgRadius / 2.0, 0.0, 0.0), Index(1.0));
    var waveguide := Block(Size3(Finite(w), Unbounded, Unbounded), Vec3(r + w / 2.0, 0.0, 0.0), Index(n));
    [background, waveguide]
  }

  /** For non-negative dimensions the ring lies inside the background, so
      the later (winning) waveguide block is entirely backed by it. */
  lemma RingInsideBackground(n: real, w: real, r: real, pad: real)
    requires w >= 0.0 && r >= 0.0 && pad >= 0.0
    ensures
      var geometry := GiveMicroringGeometry(n, w, r, pad);
      Within(XSpan(geometry[1]), XSpan(geometry[0]))
  {
  }

  /** The default ring: background over [0, 6], an index-3.4 guide over [1, 2]. */
  lemma DefaultMicroring()
    ensures XSpan(GiveMicroringGeometry()[0]) == Between(0.0, 6.0)
    ensures XSpan(GiveMicroringGeometry()[1]) == Between(1.0, 2.0)
    ensures GiveMicroringGeometry()[1].material == Index(3.4)
  {
  }
}
