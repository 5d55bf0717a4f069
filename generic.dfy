/** The generic program (perturbUGeneric): a duct of any shape. The wall
    distance of every cell and a wall-normal unit vector per cell are given;
    the reference height is the largest wall distance. Each cell is
    overwritten with a laminar profile along the bulk velocity plus a
    streamwise streak along the flow direction and a spanwise streak along
    the per-cell direction normal to both the flow and the wall. */
module Generic {
  import opened Vectors
  import opened Numerics
  import opened Streaks

  /** The largest element of a non-empty list, `max(yw)`. */
  function MaxOf(s: seq<real>): (h: real)
    requires |s| > 0
    ensures h in s
    ensures forall i :: 0 <= i < |s| ==> s[i] <= h
  {
    if |s| == 1 then s[0]
    else
      var rest := MaxOf(s[..|s| - 1]);
      if rest < s[|s| - 1] then s[|s| - 1] else rest
  }

  /** Everything the per-cell loop reads besides the cell itself: Retau, the
      reference height, the bulk velocity, the flow direction and the derived
      constants. */
  datatype Setup = Setup(Retau: real, h: real, ubar: V3, xDir: V3, p: StreakParams)

  /** The setup of a run on a non-empty mesh with wall distances `yw`. */
  function SetupOf(Retau: real, nu: real, ubar: V3, m: Math, yw: seq<real>): (st: Setup)
    requires |yw| > 0 && MaxOf(yw) != 0.0 && Retau * nu != 0.0 && Mag(m, ubar) != 0.0
    ensures st.h in yw && forall i :: 0 <= i < |yw| ==> yw[i] <= st.h
    ensures st.xDir == Div(ubar, Mag(m, ubar)) && st.ubar == ubar && st.Retau == Retau
    ensures st.p == Params(Retau, st.h, nu, ubar.x)
  {
    var h := MaxOf(yw);
    Setup(Retau, h, ubar, Div(ubar, Mag(m, ubar)), Params(Retau, h, nu, ubar.x))
  }

  /** The derived constants depend on the bulk velocity only through its
      x component, whichever way the flow points. */
  lemma ParamsUseOnlyX(Retau: real, nu: real, ubar: V3, ubar': V3, m: Math, yw: seq<real>)
    requires |yw| > 0 && MaxOf(yw) != 0.0 && Retau * nu != 0.0
    requires Mag(m, ubar) != 0.0 && Mag(m, ubar') != 0.0 && ubar.x == ubar'.x
    ensures SetupOf(Retau, nu, ubar, m, yw).p == SetupOf(Retau, nu, ubar', m, yw).p
  {
  }

  /** The per-cell spanwise direction: `xDir ^ yDir` scaled by its length. */
  function ZDir(m: Math, xDir: V3, yd: V3): V3
    requires Mag(m, Cross(xDir, yd)) != 0.0
  {
    Div(Cross(xDir, yd), Mag(m, Cross(xDir, yd)))
  }

  /** The spanwise direction, before and after scaling, is orthogonal to the
      flow direction and to the wall-normal direction of the cell. */
  lemma FrameOrthogonal(m: Math, xDir: V3, yd: V3)
    requires Mag(m, Cross(xDir, yd)) != 0.0
    ensures Dot(Cross(xDir, yd), xDir) == 0.0 && Dot(Cross(xDir, yd), yd) == 0.0
    ensures Dot(ZDir(m, xDir, yd), xDir) == 0.0 && Dot(ZDir(m, xDir, yd), yd) == 0.0
  {
    CrossOrthogonal(xDir, yd);
    DotDiv(Cross(xDir, yd), Mag(m, Cross(xDir, yd)), xDir);
    DotDiv(Cross(xDir, yd), Mag(m, Cross(xDir, yd)), yd);
  }

  predicate CellDefined(st: Setup, m: Math, yd: V3)
  {
    st.h != 0.0 && Mag(m, Cross(st.xDir, yd)) != 0.0
  }

  /** The laminar profile at wall distance `yw`: the bulk velocity scaled by
      three times the laminar factor. */
  function Baseline(st: Setup, yw: real): V3
    requires st.h != 0.0
  {
    Scale(3.0 * LaminarFactor(yw / st.h), st.ubar)
  }

  /** The streamwise streak amplitude of a cell with centre `c`, wall
      distance `yw`, wall normal `yd` and jitter draw `g`. */
  function CellStreamwiseStreak(st: Setup, m: Math, c: V3, yw: real, yd: V3, g: real): real
    requires CellDefined(st, m, yd)
  {
    StreamwiseStreak(st.p, m, WallUnits(st.Retau, st.h, yw),
                     WallUnits(st.Retau, st.h, Dot(c, ZDir(m, st.xDir, yd))), Deviation(0.1, g))
  }

  /** The spanwise streak amplitude of the same cell. */
  function CellSpanwiseStreak(st: Setup, m: Math, c: V3, yw: real, yd: V3, g: real): real
    requires CellDefined(st, m, yd)
  {
    SpanwiseStreak(st.p, m, WallUnits(st.Retau, st.h, yw),
                   WallUnits(st.Retau, st.h, Dot(c, st.xDir)), Deviation(0.1, g))
  }

  /** The loop body's three assignments, given the baseline and the two
      streak amplitudes: the baseline overwrites the vector, then the two
      increments along `xDir` and `zDir` are added. */
  function Assemble(base: V3, streak: real, spanStreak: real, xDir: V3, zDir: V3): V3
  {
    Add(Add(base, Scale(streak, xDir)), Scale(spanStreak, zDir))
  }

  /** The new velocity of a cell. It does not depend on the old one. */
  function Cell(st: Setup, m: Math, c: V3, yw: real, yd: V3, g: real): V3
    requires CellDefined(st, m, yd)
  {
    Assemble(Baseline(st, yw), CellStreamwiseStreak(st, m, c, yw, yd, g),
             CellSpanwiseStreak(st, m, c, yw, yd, g), st.xDir, ZDir(m, st.xDir, yd))
  }

  /** The increment over the baseline is a combination of `xDir` and
      `zDir`; its wall-normal part is the streamwise amplitude times
      `xDir & yDir`. */
  lemma AssembleIncrement(base: V3, streak: real, spanStreak: real, xDir: V3, zDir: V3, yd: V3)
    ensures Sub(Assemble(base, streak, spanStreak, xDir, zDir), base) ==
      Add(Scale(streak, xDir), Scale(spanStreak, zDir))
    ensures Dot(zDir, yd) == 0.0 ==>
      Dot(Sub(Assemble(base, streak, spanStreak, xDir, zDir), base), yd) == streak * Dot(xDir, yd)
  {
    var inc := Add(Scale(streak, xDir), Scale(spanStreak, zDir));
    assert Dot(inc, yd) == Dot(Scale(streak, xDir), yd) + Dot(Scale(spanStreak, zDir), yd);
    DotScale(streak, xDir, yd);
    DotScale(spanStreak, zDir, yd);
  }

  /** The increment of a cell over its baseline is a streak along the flow
      direction plus a streak along the spanwise direction, and the spanwise
      one is orthogonal to the wall normal and to the flow direction. When
      the flow is parallel to the wall at that cell the whole increment is. */
  lemma CellIncrement(st: Setup, m: Math, c: V3, yw: real, yd: V3, g: real)
    requires CellDefined(st, m, yd)
    ensures Sub(Cell(st, m, c, yw, yd, g), Baseline(st, yw)) ==
      Add(Scale(CellStreamwiseStreak(st, m, c, yw, yd, g), st.xDir),
          Scale(CellSpanwiseStreak(st, m, c, yw, yd, g), ZDir(m, st.xDir, yd)))
    ensures Dot(Scale(CellSpanwiseStreak(st, m, c, yw, yd, g), ZDir(m, st.xDir, yd)), yd) == 0.0
    ensures Dot(Scale(CellSpanwiseStreak(st, m, c, yw, yd, g), ZDir(m, st.xDir, yd)), st.xDir) == 0.0
    ensures Dot(st.xDir, yd) == 0.0 ==> Dot(Sub(Cell(st, m, c, yw, yd, g), Baseline(st, yw)), yd) == 0.0
  {
    var a, b, z := CellStreamwiseStreak(st, m, c, yw, yd, g), CellSpanwiseStreak(st, m, c, yw, yd, g), ZDir(m, st.xDir, yd);
    FrameOrthogonal(m, st.xDir, yd);
    AssembleIncrement(Baseline(st, yw), a, b, st.xDir, z, yd);
    DotScale(b, z, yd);
    DotScale(b, z, st.xDir);
  }

  /** Between the wall and the reference height the baseline is the bulk
      velocity scaled by a factor in [0, 3/2]: zero at the wall and 1.5
      times the bulk velocity at the reference height. */
  lemma BaselineShape(st: Setup, yw: real)
    requires 0.0 < st.h && 0.0 <= yw <= st.h
    ensures 0.0 <= LaminarFactor(yw / st.h) <= 0.5
    ensures yw == 0.0 ==> Baseline(st, yw) == Zero
    ensures yw == st.h ==> Baseline(st, yw) == Scale(1.5, st.ubar)
  {
    LaminarFactorOfRatio(yw, st.h);
    if yw == 0.0 || yw == st.h {
      BaselineOfFactor(st, yw, LaminarFactor(yw / st.h));
    }
  }

  lemma BaselineOfFactor(st: Setup, yw: real, f: real)
    requires st.h != 0.0 && f == LaminarFactor(yw / st.h)
    ensures f == 0.0 ==> Baseline(st, yw) == Zero
    ensures f == 0.5 ==> Baseline(st, yw) == Scale(1.5, st.ubar)
  {
    TripleScale(f, st.ubar);
  }

  lemma TripleScale(f: real, v: V3)
    ensures f == 0.0 ==> Scale(3.0 * f, v) == Zero
    ensures f == 0.5 ==> Scale(3.0 * f, v) == Scale(1.5, v)
  {
  }

  /** With non-negative wall distances, the cell farthest from the walls
      is the one where the baseline peaks at 1.5 times the bulk velocity;
      every other cell has a laminar factor in [0, 1/2]. */
  lemma BaselinePeaksAtFarthestCell(Retau: real, nu: real, ubar: V3, m: Math, yw: seq<real>)
    requires |yw| > 0 && 0.0 < MaxOf(yw) && Retau * nu != 0.0 && Mag(m, ubar) != 0.0
    requires forall i :: 0 <= i < |yw| ==> 0.0 <= yw[i]
    ensures exists i :: 0 <= i < |yw| && Baseline(SetupOf(Retau, nu, ubar, m, yw), yw[i]) == Scale(1.5, ubar)
    ensures forall i :: 0 <= i < |yw| ==>
      0.0 <= LaminarFactor(yw[i] / SetupOf(Retau, nu, ubar, m, yw).h) <= 0.5
  {
    var st := SetupOf(Retau, nu, ubar, m, yw);
    var k :| 0 <= k < |yw| && yw[k] == st.h;
    BaselineShape(st, yw[k]);
    forall i | 0 <= i < |yw|
      ensures 0.0 <= LaminarFactor(yw[i] / st.h) <= 0.5
    {
      BaselineShape(st, yw[i]);
    }
  }

  /** A cell on a wall is at rest. */
  lemma CellAtWall(st: Setup, m: Math, c: V3, yd: V3, g: real)
    requires CellDefined(st, m, yd) && 0.0 < st.h
    ensures Cell(st, m, c, 0.0, yd, g) == Zero
  {
    CellAtWallAssembles(st, m, c, yd, g);
    AssembleUnchanged(Zero, st.xDir, ZDir(m, st.xDir, yd));
  }

  lemma CellAtWallAssembles(st: Setup, m: Math, c: V3, yd: V3, g: real)
    requires CellDefined(st, m, yd) && 0.0 < st.h
    ensures Cell(st, m, c, 0.0, yd, g) == Assemble(Zero, 0.0, 0.0, st.xDir, ZDir(m, st.xDir, yd))
  {
    BaselineShape(st, 0.0);
    CellStreaksAtWall(st, m, c, yd, g);
  }

  lemma CellStreaksAtWall(st: Setup, m: Math, c: V3, yd: V3, g: real)
    requires CellDefined(st, m, yd)
    ensures CellStreamwiseStreak(st, m, c, 0.0, yd, g) == 0.0
    ensures CellSpanwiseStreak(st, m, c, 0.0, yd, g) == 0.0
  {
    assert WallUnits(st.Retau, st.h, 0.0) == 0.0;
    StreaksAtWallAndJitter(st.p, m, 0.0, WallUnits(st.Retau, st.h, Dot(c, st.xDir)),
                           WallUnits(st.Retau, st.h, Dot(c, ZDir(m, st.xDir, yd))), Deviation(0.1, g));
  }

  /** A bulk velocity with no x component gives no streaks at all: the
      amplitudes are taken from Ubar.x. */
  lemma NoStreaksWithoutX(Retau: real, nu: real, ubar: V3, m: Math, yw: seq<real>, c: V3, i: nat, yd: V3, g: real)
    requires |yw| > 0 && MaxOf(yw) != 0.0 && Retau * nu != 0.0 && Mag(m, ubar) != 0.0
    requires i < |yw| && ubar.x == 0.0
    requires Mag(m, Cross(Div(ubar, Mag(m, ubar)), yd)) != 0.0
    ensures Cell(SetupOf(Retau, nu, ubar, m, yw), m, c, yw[i], yd, g) == Baseline(SetupOf(Retau, nu, ubar, m, yw), yw[i])
  {
    var st := SetupOf(Retau, nu, ubar, m, yw);
    assert st.p.duplus == 0.0 && st.p.epsilon == 0.0;
    var yplus := WallUnits(st.Retau, st.h, yw[i]);
    NoAmplitudeNoStreaks(st.p, m, yplus, WallUnits(st.Retau, st.h, Dot(c, st.xDir)),
                         WallUnits(st.Retau, st.h, Dot(c, ZDir(m, st.xDir, yd))), Deviation(0.1, g));
    AssembleUnchanged(Baseline(st, yw[i]), st.xDir, ZDir(m, st.xDir, yd));
  }

  lemma AssembleUnchanged(base: V3, xDir: V3, zDir: V3)
    ensures Assemble(base, 0.0, 0.0, xDir, zDir) == base
  {
  }

  /** The new field: cell i from centre i, wall distance i, wall normal i and
      jitter draw i. */
  function Field(st: Setup, m: Math, centres: seq<V3>, yw: seq<real>, yDir: seq<V3>, jitter: seq<real>): seq<V3>
    requires |centres| == |yw| && |yDir| == |yw| && |jitter| == |yw|
    requires forall i :: 0 <= i < |yw| ==> CellDefined(st, m, yDir[i])
  {
    seq(|yw|, i requires 0 <= i < |yw| => Cell(st, m, centres[i], yw[i], yDir[i], jitter[i]))
  }

  /** The body of the per-cell loop: the spanwise direction is formed and
      scaled in place, the coordinates are converted to wall units, and the
      velocity is overwritten with the baseline and then incremented twice. */
  method PerturbCell(st: Setup, m: Math, cCentre: V3, yw: real, yd: V3, g: real) returns (u: V3)
    requires CellDefined(st, m, yd)
    ensures u == Cell(st, m, cCentre, yw, yd, g)
  {
    var deviation := Deviation(0.1, g);
    var zDir := Cross(st.xDir, yd);
    zDir := Div(zDir, Mag(m, zDir));
    var zplus := WallUnits(st.Retau, st.h, Dot(cCentre, zDir));
    var yplus := WallUnits(st.Retau, st.h, yw);
    var xplus := WallUnits(st.Retau, st.h, Dot(cCentre, st.xDir));
    u := Baseline(st, yw);
    u := Add(u, Scale(StreamwiseStreak(st.p, m, yplus, zplus, deviation), st.xDir));
    u := Add(u, Scale(SpanwiseStreak(st.p, m, yplus, xplus, deviation), zDir));
  }

  /** The per-cell loop: each cell is visited once, in index order, and
      overwritten from its centre, wall distance, wall normal and jitter
      draw. */
  method PerturbCells(st: Setup, m: Math, centres: seq<V3>, yw: seq<real>, yDir: seq<V3>, jitter: seq<real>,
                      U: array<V3>)
    requires |centres| == U.Length && |yw| == U.Length && |yDir| == U.Length && |jitter| == U.Length
    requires forall i :: 0 <= i < U.Length ==> CellDefined(st, m, yDir[i])
    modifies U
    ensures U[..] == Field(st, m, centres, yw, yDir, jitter)
  {
    for celli := 0 to U.Length
      invariant forall k :: 0 <= k < celli ==> U[k] == Cell(st, m, centres[k], yw[k], yDir[k], jitter[k])
    {
      var u := PerturbCell(st, m, centres[celli], yw[celli], yDir[celli], jitter[celli]);
      U[celli] := u;
    }
  }

  /** The whole program on a field: h is the largest wall distance, xDir
      the bulk velocity scaled by its length, and every cell is overwritten
      once, in index order. A mesh without cells is left as it is. */
  method Run(Retau: real, nu: real, ubar: V3, m: Math,
             centres: seq<V3>, yw: seq<real>, yDir: seq<V3>, jitter: seq<real>, U: array<V3>)
    requires |centres| == U.Length && |yw| == U.Length && |yDir| == U.Length && |jitter| == U.Length
    requires Retau * nu != 0.0 && Mag(m, ubar) != 0.0
    requires U.Length > 0 ==> MaxOf(yw) != 0.0
    requires forall i :: 0 <= i < U.Length ==> Mag(m, Cross(Div(ubar, Mag(m, ubar)), yDir[i])) != 0.0
    modifies U
    ensures U.Length > 0 ==> U[..] == Field(SetupOf(Retau, nu, ubar, m, yw), m, centres, yw, yDir, jitter)
  {
    if U.Length == 0 {
      return;
    }
    var st := SetupOf(Retau, nu, ubar, m, yw);
    PerturbCells(st, m, centres, yw, yDir, jitter, U);
  }
}
