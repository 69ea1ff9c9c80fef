/** The small pure decisions in lib/meep_nb.py: which preview a solver
    object gets, the default `periods` for a mode-solver preview, and the
    legend label of a one-dimensional live plot. */
module MeepNb {
  import opened Shapes
  import opened Wrappers

  /** What `show_geometry` can be handed. */
  datatype Target =
    | ModeSolver
    | Simulation(dimensions: int, cellSize: Vec3)
    | Unsupported(typeName: string)

  /** Where `show_geometry` sends its argument. */
  datatype Preview = Preview2D | Preview1D | NoPreview | TypeError(typeName: string)

  /** A simulation whose cell has no extent beyond x. */
  predicate IsOneDimensional(dimensions: int, cellSize: Vec3) {
    dimensions == 1 || (cellSize.y == 0.0 && cellSize.z == 0.0)
  }

  /** `show_geometry`: mode solvers get the 2D view, one-dimensional
      simulations the 1D view, other simulations nothing, anything else a
      TypeError naming its type. */
  function ShowGeometry(t: Target): (p: Preview)
    ensures p == Preview2D <==> t.ModeSolver?
    ensures p.TypeError? <==> t.Unsupported?
    ensures p.TypeError? ==> p.typeName == t.typeName
    ensures t.Simulation? ==> (p == Preview1D <==> IsOneDimensional(t.dimensions, t.cellSize))
    ensures t.Simulation? ==> (p == NoPreview <==> !IsOneDimensional(t.dimensions, t.cellSize))
  {
    match t
    case ModeSolver => Preview2D
    case Unsupported(name) => TypeError(name)
    case Simulation(dims, cell) =>
      if dims == 1 || (cell.y == 0.0 && cell.z == 0.0) then Preview1D else NoPreview
  }

  /** Keyword arguments that already choose how the mode-solver data is
      tiled or sliced. */
  predicate ChoosesView(kwargs: map<string, real>) {
    "periods" in kwargs || "x" in kwargs || "y" in kwargs || "z" in kwargs
  }

  /** The keyword arguments `show_geometry_2d` passes on for a mode solver:
      three periods unless the caller already chose a view. */
  function MpbDataKwargs(kwargs: map<string, real>): (r: map<string, real>)
    ensures kwargs.Keys <= r.Keys && r.Keys - kwargs.Keys <= {"periods"}
    ensures forall k :: k in kwargs ==> r[k] == kwargs[k]
    ensures r == kwargs <==> ChoosesView(kwargs)
    ensures !ChoosesView(kwargs) ==> "periods" in r && r["periods"] == 3.0
    ensures ChoosesView(r)
  {
    if !("periods" in kwargs || "x" in kwargs || "y" in kwargs || "z" in kwargs)
    then kwargs["periods" := 3.0]
    else kwargs
  }

  /** Applying the default twice is the same as once. */
  lemma MpbDataKwargsIdempotent(kwargs: map<string, real>)
    ensures MpbDataKwargs(MpbDataKwargs(kwargs)) == MpbDataKwargs(kwargs)
  {
  }

  /** The legend label `liveplot_1D` gives a component: its own name for
      Ey and Ez, "Ex" for everything else. */
  function ComponentLabel(c: Component): (name: string)
    ensures name == "Ey" <==> c == Ey
    ensures name == "Ez" <==> c == Ez
    ensures name == "Ex" <==> c != Ey && c != Ez
  {
    if c == Ey then "Ey" else if c == Ez then "Ez" else "Ex"
  }

  /** Reading a legend label back: the component it names. */
  function LabelComponent(name: string): (c: Option<Component>)
    ensures c.Some? <==> name in {"Ex", "Ey", "Ez"}
  {
    if name == "Ex" then Some(Ex)
    else if name == "Ey" then Some(Ey)
    else if name == "Ez" then Some(Ez)
    else None
  }

  /** Labels and the three electric components are inverse: each of Ex,
      Ey, Ez reads back as itself, every other component reads back as Ex,
      and every label that reads back names a component with that label. */
  lemma LabelRoundTrip(c: Component, name: string)
    ensures c in {Ex, Ey, Ez} ==> LabelComponent(ComponentLabel(c)) == Some(c)
    ensures LabelComponent(name).Some? ==> ComponentLabel(LabelComponent(name).value) == name
    ensures c != Ey && c != Ez ==> LabelComponent(ComponentLabel(c)) == Some(Ex)
  {
  }
}
