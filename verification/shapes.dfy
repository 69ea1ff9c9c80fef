/** The solver-side vocabulary shared by every geometry builder: vectors,
    media, axis-aligned blocks and the intervals they cover. */
module Shapes {

  /** A solver `Vector3`; components left out at the call site are 0. */
  datatype Vec3 = Vec3(x: real, y: real, z: real)

  /** A uniform medium given either by permittivity or by refractive index. */
  datatype Medium = Epsilon(eps: real) | Index(n: real)

  /** One side length of a block: a finite length, or the solver's `inf`. */
  datatype Extent = Finite(len: real) | Unbounded

  datatype Size3 = Size3(x: Extent, y: Extent, z: Extent)

  /** An axis-aligned solid block. */
  datatype Block = Block(size: Size3, center: Vec3, material: Medium)

  /** The part of one axis a block covers. */
  datatype Span = Between(lo: real, hi: real) | Everywhere

  /** Field components a run can watch or plot. */
  datatype Component = Ex | Ey | Ez | Hx | Hy | Hz | Dielectric

  function AxisSpan(center: real, e: Extent): Span {
    match e
    case Finite(len) => Between(center - len / 2.0, center + len / 2.0)
    case Unbounded => Everywhere
  }

  function XSpan(b: Block): Span { AxisSpan(b.center.x, b.size.x) }
  function YSpan(b: Block): Span { AxisSpan(b.center.y, b.size.y) }
  function ZSpan(b: Block): Span { AxisSpan(b.center.z, b.size.z) }

  /** `a` ends along x exactly where `b` begins. */
  predicate AbutsX(a: Block, b: Block) {
    && XSpan(a).Between?
    && XSpan(b).Between?
    && XSpan(a).hi == XSpan(b).lo
  }

  /** Interval `inner` lies within interval `outer`. */
  predicate Within(inner: Span, outer: Span) {
    match outer
    case Everywhere => true
    case Between(lo, hi) => inner.Between? && lo <= inner.lo && inner.hi <= hi
  }
}
