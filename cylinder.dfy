/** The cylinder program (perturbUCylinder): a pipe along the x axis with
    fixed radius and friction Reynolds number. When the velocity field is
    present every cell's axial component is overwritten with a pipe parabola
    plus a streak, and a swirl along the tangential direction is added to the
    two cross-stream components. */
module Cylinder {
  import opened Vectors
  import opened Numerics
  import opened Streaks

  /** The fixed friction Reynolds number. */
  const Retau: real := 300.0

  /** The fixed pipe radius, 7.54/2000. */
  const D: real := 7.54 / 2000.0

  /** The derived constants, from the kinematic viscosity and the bulk
      velocity: friction velocity `Retau*nu/D`, a circulation giving an axial
      streak amplitude of a quarter of `Ubar.x`, a spanwise wavenumber for a
      spacing of 200 wall units, a streamwise one for 800, decay rate 0.0002
      and swirl amplitude `Ubar.x/20`. */
  function CylinderParams(nu: real, ubar: V3): (p: StreakParams)
    requires nu != 0.0
    ensures p.utau * D == Retau * nu
    ensures p.utau * p.duplus / 2.0 == ubar.x / 4.0
    ensures p.betaPlus * 200.0 == 2.0 * Pi && p.alphaPlus * 800.0 == 2.0 * Pi
    ensures p.sigma == 0.0002 && p.epsilon * 20.0 == ubar.x
  {
    var utau := Retau * nu / D;
    assert utau != 0.0;
    StreakParams(
      utau,
      ubar.x * 0.5 / utau,
      2.0 * Pi * (1.0 / 200.0),
      0.0002,
      2.0 * Pi * (1.0 / 800.0),
      ubar.x / 20.0)
  }

  /** The distance of a cell centre from the pipe axis. */
  function Radius(m: Math, c: V3): real
  {
    m.sqrt(Sqr(c.y) + Sqr(c.z))
  }

  /** The pipe parabola at radius `r`: twice the bulk speed on the axis,
      falling to zero at the wall. */
  function PipeProfile(m: Math, ubar: V3, r: real): real
  {
    2.0 * Mag(m, ubar) * (1.0 - Sqr(r / D))
  }

  /** The parabola is twice the bulk speed on the axis and zero at the
      wall; in between its shape factor lies in [0, 1]. */
  lemma PipeProfileShape(m: Math, ubar: V3, r: real)
    requires 0.0 <= r <= D
    ensures 0.0 <= 1.0 - Sqr(r / D) <= 1.0
    ensures r == 0.0 ==> PipeProfile(m, ubar, r) == 2.0 * Mag(m, ubar)
    ensures r == D ==> PipeProfile(m, ubar, r) == 0.0
  {
    var eta := r / D;
    assert 0.0 <= eta <= 1.0;
    assert eta * eta <= eta;
    assert Sqr(eta) == eta * eta;
    if r == 0.0 || r == D {
      ProfileOfFactor(m, ubar, r, 1.0 - Sqr(eta));
    }
  }

  lemma ProfileOfFactor(m: Math, ubar: V3, r: real, f: real)
    requires f == 1.0 - Sqr(r / D)
    ensures r == 0.0 ==> f == 1.0 && PipeProfile(m, ubar, r) == 2.0 * Mag(m, ubar)
    ensures r == D ==> f == 0.0 && PipeProfile(m, ubar, r) == 0.0
  {
    if r == D {
      assert r / D == 1.0;
    }
  }

  /** The tangential direction before scaling, `(0, y, z) ^ (1, 0, 0)`. */
  function Tangential(c: V3): V3
  {
    Cross(V3(0.0, c.y, c.z), V3(1.0, 0.0, 0.0))
  }

  /** The tangential direction is `(0, z, -y)`: it has no axial component,
      it is orthogonal to the radial vector `(0, y, z)`, and its length is the
      radius of the cell. */
  lemma TangentialFrame(m: Math, c: V3)
    ensures Tangential(c) == V3(0.0, c.z, -c.y)
    ensures Dot(Tangential(c), V3(0.0, c.y, c.z)) == 0.0
    ensures Dot(Tangential(c), V3(1.0, 0.0, 0.0)) == 0.0
    ensures Mag(m, Tangential(c)) == Radius(m, c)
  {
    CrossOrthogonal(V3(0.0, c.y, c.z), V3(1.0, 0.0, 0.0));
    assert Dot(Tangential(c), Tangential(c)) == Sqr(c.y) + Sqr(c.z);
  }

  /** The unit tangential direction. */
  function TangentialDir(m: Math, c: V3): (t: V3)
    requires Mag(m, Tangential(c)) != 0.0
    ensures t.x == 0.0
    ensures Dot(t, V3(0.0, c.y, c.z)) == 0.0
  {
    TangentialFrame(m, c);
    DotDiv(Tangential(c), Mag(m, Tangential(c)), V3(0.0, c.y, c.z));
    Div(Tangential(c), Mag(m, Tangential(c)))
  }

  /** The two divisions of the loop body are defined: by `z` in the angle
      and by the length of the tangential direction, which is the radius. */
  predicate CellDefined(m: Math, c: V3)
  {
    c.z != 0.0 && Mag(m, Tangential(c)) != 0.0
  }

  /** The axial streak at angle `theta`, radius `rplus` and wall distance
      `yplus`, the last two in wall units. */
  function AxialStreak(p: StreakParams, m: Math, theta: real, rplus: real, yplus: real): real
  {
    (p.utau * p.duplus / 2.0) * m.cos(p.betaPlus * theta * rplus) * (yplus / 30.0)
    * m.exp(-p.sigma * Sqr(yplus) + 0.5)
  }

  /** The swirl amplitude at axial position `xplus` and wall distance
      `yplus`, both in wall units. */
  function Swirl(p: StreakParams, m: Math, xplus: real, yplus: real): real
  {
    p.epsilon * m.sin(p.alphaPlus * xplus) * yplus * m.exp(-p.sigma * Sqr(yplus))
  }

  /** Both perturbations vanish at the wall, where `yplus` is 0. */
  lemma PerturbationsAtWall(p: StreakParams, m: Math, theta: real, rplus: real, xplus: real)
    ensures AxialStreak(p, m, theta, rplus, 0.0) == 0.0
    ensures Swirl(p, m, xplus, 0.0) == 0.0
  {
  }

  /** The axial streak of a cell. */
  function CellAxialStreak(p: StreakParams, m: Math, c: V3): real
    requires c.z != 0.0
  {
    var r := Radius(m, c);
    AxialStreak(p, m, m.atan(c.y / c.z), r * Retau / D, (D - r) * Retau / D)
  }

  /** The swirl amplitude of a cell. */
  function CellSwirl(p: StreakParams, m: Math, c: V3): real
  {
    Swirl(p, m, c.x * Retau / D, (D - Radius(m, c)) * Retau / D)
  }

  /** The loop body given its computed quantities: the axial component is
      overwritten with `ux`, then `utheta` times the direction `t` is added
      to the whole vector. */
  function Assemble(u: V3, ux: real, utheta: real, t: V3): V3
  {
    Add(u.(x := ux), Scale(utheta, t))
  }

  /** With a direction that has no axial component, the axial component
      ends as `ux` whatever it was, and the other two accumulate. */
  lemma AssembleComponents(u: V3, ux: real, utheta: real, t: V3)
    requires t.x == 0.0
    ensures Assemble(u, ux, utheta, t).x == ux
    ensures Assemble(u, ux, utheta, t).y == u.y + utheta * t.y
    ensures Assemble(u, ux, utheta, t).z == u.z + utheta * t.z
  {
  }

  /** The increment of the cross-stream components, `utheta*t`, is
      orthogonal to any vector `t` is orthogonal to. */
  lemma AssembleIncrement(u: V3, ux: real, utheta: real, t: V3, w: V3)
    requires t.x == 0.0 && Dot(t, w) == 0.0
    ensures Dot(Sub(Assemble(u, ux, utheta, t), u.(x := ux)), w) == 0.0
  {
    assert Sub(Assemble(u, ux, utheta, t), u.(x := ux)) == Scale(utheta, t);
    DotScale(utheta, t, w);
  }

  /** The new velocity of a cell with centre `c` and old velocity `u`. */
  function Cell(p: StreakParams, m: Math, ubar: V3, c: V3, u: V3): V3
    requires CellDefined(m, c)
  {
    Assemble(u, PipeProfile(m, ubar, Radius(m, c)) + CellAxialStreak(p, m, c),
             CellSwirl(p, m, c), TangentialDir(m, c))
  }

  /** The axial component is overwritten: it is the pipe parabola plus the
      axial streak, whatever the old velocity. The cross-stream components
      are the old ones plus the swirl along the unit tangential direction,
      and that increment is orthogonal to the radial vector `(0, y, z)`. */
  lemma CellComponents(p: StreakParams, m: Math, ubar: V3, c: V3, u: V3)
    requires CellDefined(m, c)
    ensures Cell(p, m, ubar, c, u).x == PipeProfile(m, ubar, Radius(m, c)) + CellAxialStreak(p, m, c)
    ensures Cell(p, m, ubar, c, u).y == u.y + CellSwirl(p, m, c) * TangentialDir(m, c).y
    ensures Cell(p, m, ubar, c, u).z == u.z + CellSwirl(p, m, c) * TangentialDir(m, c).z
    ensures Dot(Sub(Cell(p, m, ubar, c, u), u), V3(0.0, c.y, c.z)) == 0.0
  {
    var ux, ut, t := PipeProfile(m, ubar, Radius(m, c)) + CellAxialStreak(p, m, c), CellSwirl(p, m, c), TangentialDir(m, c);
    AssembleComponents(u, ux, ut, t);
    AssembleIncrement(u, ux, ut, t, V3(0.0, c.y, c.z));
    assert Sub(Assemble(u, ux, ut, t), u) == Sub(Assemble(u, ux, ut, t), u.(x := u.x));
    OffAxisIncrement(u, ux, ut, t, V3(0.0, c.y, c.z));
  }

  lemma OffAxisIncrement(u: V3, ux: real, utheta: real, t: V3, w: V3)
    requires t.x == 0.0 && w.x == 0.0 && Dot(Sub(Assemble(u, ux, utheta, t), u.(x := ux)), w) == 0.0
    ensures Dot(Sub(Assemble(u, ux, utheta, t), u), w) == 0.0
  {
  }

  /** The axial component does not depend on the old velocity. */
  lemma AxialIndependentOfOld(p: StreakParams, m: Math, ubar: V3, c: V3, u: V3, u': V3)
    requires CellDefined(m, c)
    ensures Cell(p, m, ubar, c, u).x == Cell(p, m, ubar, c, u').x
  {
    CellComponents(p, m, ubar, c, u);
    CellComponents(p, m, ubar, c, u');
  }

  /** On the wall, at radius D, the wall distance is 0: the axial
      component becomes 0 and the cross-stream components keep their old
      values. */
  lemma CellAtWall(p: StreakParams, m: Math, ubar: V3, c: V3, u: V3)
    requires CellDefined(m, c) && Radius(m, c) == D
    ensures Cell(p, m, ubar, c, u) == u.(x := 0.0)
  {
    CellAtWallAssembles(p, m, ubar, c, u);
    AssembleAtRest(u, TangentialDir(m, c));
  }

  lemma CellAtWallAssembles(p: StreakParams, m: Math, ubar: V3, c: V3, u: V3)
    requires CellDefined(m, c) && Radius(m, c) == D
    ensures Cell(p, m, ubar, c, u) == Assemble(u, 0.0, 0.0, TangentialDir(m, c))
  {
    PipeProfileShape(m, ubar, D);
    assert (D - D) * Retau / D == 0.0;
    PerturbationsAtWall(p, m, m.atan(c.y / c.z), D * Retau / D, c.x * Retau / D);
  }

  lemma AssembleAtRest(u: V3, t: V3)
    requires t.x == 0.0
    ensures Assemble(u, 0.0, 0.0, t) == u.(x := 0.0)
  {
  }

  /** The new field: cell i from centre i and old value i. */
  function Field(p: StreakParams, m: Math, ubar: V3, centres: seq<V3>, u: seq<V3>): seq<V3>
    requires |centres| == |u| && forall i :: 0 <= i < |u| ==> CellDefined(m, centres[i])
  {
    seq(|u|, i requires 0 <= i < |u| => Cell(p, m, ubar, centres[i], u[i]))
  }

  /** The loop body on cell `celli`: the axial component is written through
      a reference, the radius and wall distance are rescaled in place, and
      the swirl is added to the whole vector. No other cell changes. */
  method PerturbCell(p: StreakParams, m: Math, ubar: V3, cCenter: V3, U: array<V3>, celli: nat)
    requires celli < U.Length && CellDefined(m, cCenter)
    modifies U
    ensures U[celli] == Cell(p, m, ubar, cCenter, old(U[celli]))
    ensures forall k :: 0 <= k < U.Length && k != celli ==> U[k] == old(U[k])
  {
    var r := Radius(m, cCenter);
    U[celli] := U[celli].(x := PipeProfile(m, ubar, r));
    var y := D - r;
    r := r * Retau / D;
    y := y * Retau / D;
    var theta := m.atan(cCenter.y / cCenter.z);
    var x := cCenter.x * Retau / D;
    U[celli] := U[celli].(x := U[celli].x + AxialStreak(p, m, theta, r, y));
    var utheta := Swirl(p, m, x, y);
    var tangential := Tangential(cCenter);
    tangential := Div(tangential, Mag(m, tangential));
    U[celli] := Add(U[celli], Scale(utheta, tangential));
  }

  /** The per-cell loop: each cell is visited once, in index order. */
  method PerturbCells(p: StreakParams, m: Math, ubar: V3, centres: seq<V3>, U: array<V3>)
    requires |centres| == U.Length && forall i :: 0 <= i < U.Length ==> CellDefined(m, centres[i])
    modifies U
    ensures U[..] == Field(p, m, ubar, centres, old(U[..]))
  {
    for celli := 0 to U.Length
      invariant forall k :: 0 <= k < celli ==> U[k] == Cell(p, m, ubar, centres[k], old(U[k]))
      invariant forall k :: celli <= k < U.Length ==> U[k] == old(U[k])
    {
      PerturbCell(p, m, ubar, centres[celli], U, celli);
    }
  }

  /** The whole program: without a velocity field nothing is computed or
      written; with one, every cell is rewritten by the loop. */
  method Run(uPresent: bool, nu: real, ubar: V3, m: Math, centres: seq<V3>, U: array<V3>)
    requires |centres| == U.Length
    requires uPresent ==> nu != 0.0 && forall i :: 0 <= i < U.Length ==> CellDefined(m, centres[i])
    modifies U
    ensures !uPresent ==> U[..] == old(U[..])
    ensures uPresent ==> U[..] == Field(CylinderParams(nu, ubar), m, ubar, centres, old(U[..]))
  {
    if uPresent {
      PerturbCells(CylinderParams(nu, ubar), m, ubar, centres, U);
    }
  }
}
