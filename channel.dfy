/** The channel program (perturbUChannel): a channel with walls at
    height 0 and 2h, axes chosen by configuration. After validating the mode
    flags and the axis indices it rewrites, cell by cell and in place, chosen
    components of the velocity field: an optional laminar parabola along the
    streamwise axis (all other components zeroed), then a streak added to the
    streamwise component and a spanwise component that is overwritten. */
module Channel {
  import opened Vectors
  import opened Numerics
  import opened Streaks

  /** OpenFOAM's `direction`, an unsigned 8-bit integer. */
  newtype Direction = d: int | 0 <= d < 256

  /** A `label` read from the dictionary stored into a `direction`: the
      value is reduced modulo 2^8, so a label of 256 selects axis 0. */
  function ToDirection(value: int): (d: Direction)
    ensures (d as int - value) % 256 == 0
    ensures 0 <= value < 256 ==> d as int == value
  {
    (value % 256) as Direction
  }

  /** The entries of perturbUDict: Retau, the half height h, the two mode
      flags and the streamwise and spanwise axis labels. */
  datatype Config = Config(
    Retau: real,
    h: real,
    setBulk: bool,
    perturb: bool,
    streamwise: int,
    spanwise: int)

  /** The two fatal configuration errors. */
  datatype ConfigError = NothingToDo | BadAxes(streamDir: Direction, spanDir: Direction)

  datatype Outcome = Pass | Fail(error: ConfigError)

  /** Both axes are among 0, 1, 2 and they differ. */
  predicate ValidAxes(s: Direction, span: Direction)
  {
    s <= 2 && span <= 2 && s != span
  }

  /** The two checks made before anything is read or written: at least one
      mode flag, then two distinct axes among 0, 1, 2. */
  function Validate(cfg: Config): (r: Outcome)
    ensures !cfg.setBulk && !cfg.perturb ==> r == Fail(NothingToDo)
    ensures r.Pass? <==>
      (cfg.setBulk || cfg.perturb) && ValidAxes(ToDirection(cfg.streamwise), ToDirection(cfg.spanwise))
  {
    if !cfg.setBulk && !cfg.perturb then
      Fail(NothingToDo)
    else
      var streamDir, spanDir := ToDirection(cfg.streamwise), ToDirection(cfg.spanwise);
      if streamDir > 2 || spanDir > 2 || streamDir == spanDir then
        Fail(BadAxes(streamDir, spanDir))
      else
        Pass
  }

  /** The height axis as the program derives it: start at 0 and step past
      the streamwise axis, then past the spanwise axis. It always differs from
      the spanwise axis and agrees with the remaining axis for five of the six
      valid pairs; for streamwise 1 and spanwise 0 it ends at 1, the
      streamwise axis itself. */
  function HeightDirOf(streamDir: Direction, spanDir: Direction): (heightDir: Direction)
    ensures heightDir <= 2
    ensures heightDir != spanDir
    ensures ValidAxes(streamDir, spanDir) ==>
      (heightDir == streamDir <==> streamDir == 1 && spanDir == 0)
    ensures ValidAxes(streamDir, spanDir) && !(streamDir == 1 && spanDir == 0) ==>
      heightDir == HeightDir(streamDir, spanDir)
  {
    var afterStream: Direction := if streamDir == 0 then 1 else 0;
    if spanDir == afterStream then afterStream + 1 else afterStream
  }

  /** The derivation statement by statement, with its two increments. */
  method HeightDirAsWritten(streamDir: Direction, spanDir: Direction) returns (heightDir: Direction)
    ensures heightDir == HeightDirOf(streamDir, spanDir)
  {
    heightDir := 0;
    if streamDir == heightDir {
      heightDir := heightDir + 1;
    }
    if spanDir == heightDir {
      heightDir := heightDir + 1;
    }
  }

  /** The pair the derivation gets wrong: streamwise 1 and spanwise 0 pass
      validation, yet the derived height axis is the streamwise axis. */
  method HeightDirCounterexample() returns (streamDir: Direction, spanDir: Direction, heightDir: Direction)
    ensures ValidAxes(streamDir, spanDir)
    ensures heightDir == streamDir && heightDir != HeightDir(streamDir, spanDir)
  {
    streamDir, spanDir := 1, 0;
    heightDir := HeightDirAsWritten(streamDir, spanDir);
  }

  /** The component normal to the streamwise and spanwise axes. */
  function HeightDir(streamDir: Direction, spanDir: Direction): (heightDir: Direction)
    requires ValidAxes(streamDir, spanDir)
    ensures heightDir <= 2 && heightDir != streamDir && heightDir != spanDir
  {
    3 - streamDir - spanDir
  }

  /** The wall distance of a point at height `c` between walls at 0 and 2h:
      the nearer of the two. */
  function WallDistance(c: real, h: real): (y: real)
    ensures y <= c && y <= 2.0 * h - c && (y == c || y == 2.0 * h - c)
    ensures y <= h
    ensures 0.0 <= c <= 2.0 * h ==> 0.0 <= y
  {
    if c < 2.0 * h - c then c else 2.0 * h - c
  }

  /** The wall distance is symmetric about the mid-plane. */
  lemma WallDistanceMirror(c: real, h: real)
    ensures WallDistance(2.0 * h - c, h) == WallDistance(c, h)
  {
  }

  /** Everything the per-cell loop reads besides the cell itself. */
  datatype Setup = Setup(
    Retau: real,
    h: real,
    setBulk: bool,
    perturb: bool,
    streamDir: nat,
    spanDir: nat,
    heightDir: nat,
    ubar: V3,
    p: StreakParams)

  predicate WellFormed(st: Setup)
  {
    st.streamDir < 3 && st.spanDir < 3 && st.heightDir < 3 && st.h != 0.0
  }

  /** The three axes are distinct. */
  predicate DistinctAxes(st: Setup)
  {
    st.streamDir != st.spanDir && st.heightDir != st.streamDir && st.heightDir != st.spanDir
  }

  /** The setup of a run that passed validation, with the height axis
      derived as the program derives it. Its three axes are distinct except
      for streamwise 1 and spanwise 0, where the height axis is the
      streamwise axis. */
  function SetupOf(cfg: Config, nu: real, ubar: V3): (st: Setup)
    requires Validate(cfg).Pass? && cfg.h != 0.0 && cfg.Retau * nu != 0.0
    ensures WellFormed(st) && st.streamDir != st.spanDir
    ensures st.streamDir == ToDirection(cfg.streamwise) as nat
    ensures st.spanDir == ToDirection(cfg.spanwise) as nat
    ensures st.heightDir == HeightDirOf(ToDirection(cfg.streamwise), ToDirection(cfg.spanwise)) as nat
    ensures DistinctAxes(st) <==> !(st.streamDir == 1 && st.spanDir == 0)
    ensures st.setBulk == cfg.setBulk && st.perturb == cfg.perturb
  {
    var streamDir, spanDir := ToDirection(cfg.streamwise), ToDirection(cfg.spanwise);
    var heightDir := HeightDirOf(streamDir, spanDir);
    Setup(cfg.Retau, cfg.h, cfg.setBulk, cfg.perturb,
          streamDir as nat, spanDir as nat, heightDir as nat,
          ubar, Params(cfg.Retau, cfg.h, nu, Get(ubar, streamDir as nat)))
  }

  /** The setup the program evidently intends: the same, but with the height
      axis normal to the other two. Its axes are always distinct, and it is
      the program's own setup for every valid pair except streamwise 1 and
      spanwise 0. */
  function IntendedSetupOf(cfg: Config, nu: real, ubar: V3): (st: Setup)
    requires Validate(cfg).Pass? && cfg.h != 0.0 && cfg.Retau * nu != 0.0
    ensures WellFormed(st) && DistinctAxes(st)
    ensures st == SetupOf(cfg, nu, ubar).(heightDir := st.heightDir)
    ensures !(ToDirection(cfg.streamwise) == 1 && ToDirection(cfg.spanwise) == 0) ==> st == SetupOf(cfg, nu, ubar)
  {
    var st := SetupOf(cfg, nu, ubar);
    st.(heightDir := HeightDir(ToDirection(cfg.streamwise), ToDirection(cfg.spanwise)) as nat)
  }

  /** The wall distance of a cell centre. */
  function CellWallDistance(st: Setup, c: V3): real
    requires WellFormed(st)
  {
    WallDistance(Get(c, st.heightDir), st.h)
  }

  /** The laminar parabola along the streamwise axis at wall distance `y`. */
  function Baseline(st: Setup, y: real): real
    requires WellFormed(st)
  {
    3.0 * Get(st.ubar, st.streamDir) * LaminarFactor(y / st.h)
  }

  /** The streamwise streak of a cell, with jitter draw `g`. */
  function CellStreamwiseStreak(st: Setup, m: Math, c: V3, g: real): real
    requires WellFormed(st)
  {
    StreamwiseStreak(st.p, m, WallUnits(st.Retau, st.h, CellWallDistance(st, c)),
                     WallUnits(st.Retau, st.h, Get(c, st.spanDir)), Deviation(0.2, g))
  }

  /** The spanwise streak of a cell, with jitter draw `g`. */
  function CellSpanwiseStreak(st: Setup, m: Math, c: V3, g: real): real
    requires WellFormed(st)
  {
    SpanwiseStreak(st.p, m, WallUnits(st.Retau, st.h, CellWallDistance(st, c)),
                   WallUnits(st.Retau, st.h, Get(c, st.streamDir)), Deviation(0.2, g))
  }

  /** The new velocity of a cell with centre `c`, jitter draw `g` and old
      velocity `u`, following the order of the assignments in the loop body. */
  function Cell(st: Setup, m: Math, c: V3, g: real, u: V3): V3
    requires WellFormed(st)
  {
    Assemble(st, Baseline(st, CellWallDistance(st, c)),
             CellStreamwiseStreak(st, m, c, g), CellSpanwiseStreak(st, m, c, g), u)
  }

  /** The assignments of the loop body, given the laminar value `base` and
      the two streaks: with setBulk the vector is zeroed and its streamwise
      component set to `base`; with perturb the streamwise streak is added
      and the spanwise component overwritten. */
  function Assemble(st: Setup, base: real, streak: real, spanStreak: real, u: V3): V3
    requires WellFormed(st)
  {
    var u1 := if st.setBulk then Set(Zero, st.streamDir, base) else u;
    var u2 := if st.perturb then Set(u1, st.streamDir, Get(u1, st.streamDir) + streak) else u1;
    if st.perturb then Set(u2, st.spanDir, spanStreak) else u2
  }

  /** What happens to each component: the streamwise component is `base`
      (with setBulk) or its old value, plus the streak (with perturb); the
      spanwise component is overwritten by the spanwise streak (with perturb),
      else zeroed (with setBulk) or kept; every other component is zeroed with
      setBulk and kept otherwise. */
  lemma AssembleComponents(st: Setup, base: real, streak: real, spanStreak: real, u: V3)
    requires WellFormed(st) && st.streamDir != st.spanDir
    ensures Get(Assemble(st, base, streak, spanStreak, u), st.streamDir) ==
      (if st.setBulk then base else Get(u, st.streamDir)) + (if st.perturb then streak else 0.0)
    ensures Get(Assemble(st, base, streak, spanStreak, u), st.spanDir) ==
      if st.perturb then spanStreak else if st.setBulk then 0.0 else Get(u, st.spanDir)
    ensures forall k :: 0 <= k < 3 && k != st.streamDir && k != st.spanDir ==>
      Get(Assemble(st, base, streak, spanStreak, u), k) == if st.setBulk then 0.0 else Get(u, k)
  {
    var u1 := if st.setBulk then Set(Zero, st.streamDir, base) else u;
    assert forall k :: 0 <= k < 3 && k != st.streamDir ==>
      Get(u1, k) == if st.setBulk then 0.0 else Get(u, k);
  }

  /** With nothing to add, setBulk leaves every component zero; without
      setBulk the streamwise and height components keep their old values and
      perturb zeroes the spanwise one. */
  lemma AssembleAtRest(st: Setup, u: V3)
    requires WellFormed(st) && DistinctAxes(st)
    ensures st.setBulk ==> Assemble(st, 0.0, 0.0, 0.0, u) == Zero
    ensures !st.setBulk ==>
      Get(Assemble(st, 0.0, 0.0, 0.0, u), st.streamDir) == Get(u, st.streamDir) &&
      Get(Assemble(st, 0.0, 0.0, 0.0, u), st.heightDir) == Get(u, st.heightDir) &&
      Get(Assemble(st, 0.0, 0.0, 0.0, u), st.spanDir) == (if st.perturb then 0.0 else Get(u, st.spanDir))
  {
    AssembleComponents(st, 0.0, 0.0, 0.0, u);
    var r := Assemble(st, 0.0, 0.0, 0.0, u);
    if st.setBulk {
      assert Get(r, 0) == 0.0 && Get(r, 1) == 0.0 && Get(r, 2) == 0.0;
    }
  }

  /** The components of a cell, in terms of its wall distance and streaks. */
  lemma CellComponents(st: Setup, m: Math, c: V3, g: real, u: V3)
    requires WellFormed(st) && st.streamDir != st.spanDir
    ensures Get(Cell(st, m, c, g, u), st.streamDir) ==
      (if st.setBulk then Baseline(st, CellWallDistance(st, c)) else Get(u, st.streamDir))
      + (if st.perturb then CellStreamwiseStreak(st, m, c, g) else 0.0)
    ensures Get(Cell(st, m, c, g, u), st.spanDir) ==
      if st.perturb then CellSpanwiseStreak(st, m, c, g)
      else if st.setBulk then 0.0
      else Get(u, st.spanDir)
    ensures forall k :: 0 <= k < 3 && k != st.streamDir && k != st.spanDir ==>
      Get(Cell(st, m, c, g, u), k) == if st.setBulk then 0.0 else Get(u, k)
  {
    AssembleComponents(st, Baseline(st, CellWallDistance(st, c)),
                       CellStreamwiseStreak(st, m, c, g), CellSpanwiseStreak(st, m, c, g), u);
  }

  /** Without setBulk the height component is never written. */
  lemma PerturbKeepsHeight(st: Setup, m: Math, c: V3, g: real, u: V3)
    requires WellFormed(st) && DistinctAxes(st) && !st.setBulk
    ensures Get(Cell(st, m, c, g, u), st.heightDir) == Get(u, st.heightDir)
  {
    CellComponents(st, m, c, g, u);
  }

  /** With streamwise 1 and spanwise 0 the program accepts the run, but its
      height axis is the streamwise axis: the wall distance is measured along
      the flow, and with perturb alone the streak is added to the very
      component that should be left as it was. */
  lemma CollidedAxesMoveHeight(cfg: Config, nu: real, ubar: V3, m: Math, c: V3, g: real, u: V3)
    requires cfg.perturb && !cfg.setBulk && cfg.streamwise == 1 && cfg.spanwise == 0
    requires cfg.h != 0.0 && cfg.Retau * nu != 0.0
    ensures Validate(cfg).Pass?
    ensures SetupOf(cfg, nu, ubar).heightDir == SetupOf(cfg, nu, ubar).streamDir == 1
    ensures CellWallDistance(SetupOf(cfg, nu, ubar), c) == WallDistance(c.y, cfg.h)
    ensures Get(Cell(SetupOf(cfg, nu, ubar), m, c, g, u), 1) ==
      u.y + CellStreamwiseStreak(SetupOf(cfg, nu, ubar), m, c, g)
  {
    var st := SetupOf(cfg, nu, ubar);
    CellComponents(st, m, c, g, u);
  }

  /** With the intended setup, a run without setBulk leaves the height
      component of every cell as it was, for every accepted pair of axes. */
  lemma IntendedKeepsHeight(cfg: Config, nu: real, ubar: V3, m: Math, c: V3, g: real, u: V3)
    requires Validate(cfg).Pass? && !cfg.setBulk && cfg.h != 0.0 && cfg.Retau * nu != 0.0
    ensures Get(Cell(IntendedSetupOf(cfg, nu, ubar), m, c, g, u), IntendedSetupOf(cfg, nu, ubar).heightDir) ==
      Get(u, IntendedSetupOf(cfg, nu, ubar).heightDir)
  {
    PerturbKeepsHeight(IntendedSetupOf(cfg, nu, ubar), m, c, g, u);
  }

  /** The laminar parabola is 0 at the wall and 1.5 times the streamwise
      bulk velocity at the half height, with a laminar factor in [0, 1/2] in
      between. */
  lemma BaselineShape(st: Setup, y: real)
    requires WellFormed(st) && 0.0 < st.h && 0.0 <= y <= st.h
    ensures 0.0 <= LaminarFactor(y / st.h) <= 0.5
    ensures y == 0.0 ==> Baseline(st, y) == 0.0
    ensures y == st.h ==> Baseline(st, y) == 1.5 * Get(st.ubar, st.streamDir)
  {
    LaminarFactorOfRatio(y, st.h);
    var f := LaminarFactor(y / st.h);
    var ubarS := Get(st.ubar, st.streamDir);
    assert Baseline(st, y) == 3.0 * ubarS * f;
    if y == 0.0 {
      assert f == 0.0;
    }
    if y == st.h {
      assert f == 0.5;
      assert 3.0 * ubarS * f == 1.5 * ubarS;
    }
  }

  /** With setBulk alone a cell becomes the laminar parabola along the
      streamwise axis and zero elsewhere; its streamwise component is 0 at
      both walls and 1.5 times the streamwise bulk velocity on the
      mid-plane. */
  lemma BulkProfile(st: Setup, m: Math, c: V3, g: real, u: V3)
    requires WellFormed(st) && st.setBulk && !st.perturb && 0.0 < st.h
    requires 0.0 <= Get(c, st.heightDir) <= 2.0 * st.h
    ensures Cell(st, m, c, g, u) == Set(Zero, st.streamDir, Baseline(st, CellWallDistance(st, c)))
    ensures Get(c, st.heightDir) == 0.0 || Get(c, st.heightDir) == 2.0 * st.h ==>
      Get(Cell(st, m, c, g, u), st.streamDir) == 0.0
    ensures Get(c, st.heightDir) == st.h ==>
      Get(Cell(st, m, c, g, u), st.streamDir) == 1.5 * Get(st.ubar, st.streamDir)
  {
    var y := CellWallDistance(st, c);
    BaselineShape(st, y);
    if Get(c, st.heightDir) == st.h {
      assert y == st.h;
    }
    if Get(c, st.heightDir) == 0.0 || Get(c, st.heightDir) == 2.0 * st.h {
      assert y == 0.0;
    }
  }

  /** At either wall the streaks vanish: with setBulk the cell is at rest,
      without it the streamwise and height components keep their old values
      and the spanwise one is zeroed by perturb. */
  lemma CellAtWall(st: Setup, m: Math, c: V3, g: real, u: V3)
    requires WellFormed(st) && DistinctAxes(st) && 0.0 < st.h
    requires Get(c, st.heightDir) == 0.0 || Get(c, st.heightDir) == 2.0 * st.h
    ensures st.setBulk ==> Cell(st, m, c, g, u) == Zero
    ensures !st.setBulk ==>
      Get(Cell(st, m, c, g, u), st.streamDir) == Get(u, st.streamDir) &&
      Get(Cell(st, m, c, g, u), st.heightDir) == Get(u, st.heightDir) &&
      Get(Cell(st, m, c, g, u), st.spanDir) == (if st.perturb then 0.0 else Get(u, st.spanDir))
  {
    CellAtWallAssembles(st, m, c, g, u);
    AssembleAtRest(st, u);
  }

  /** A cell centre on either wall has wall distance 0, so its laminar
      value and both of its streaks vanish. */
  lemma CellAtWallAssembles(st: Setup, m: Math, c: V3, g: real, u: V3)
    requires WellFormed(st) && 0.0 < st.h
    requires Get(c, st.heightDir) == 0.0 || Get(c, st.heightDir) == 2.0 * st.h
    ensures Cell(st, m, c, g, u) == Assemble(st, 0.0, 0.0, 0.0, u)
  {
    CellStreaksAtWall(st, m, c, g);
    BaselineShape(st, 0.0);
  }

  lemma CellStreaksAtWall(st: Setup, m: Math, c: V3, g: real)
    requires WellFormed(st) && 0.0 < st.h
    requires Get(c, st.heightDir) == 0.0 || Get(c, st.heightDir) == 2.0 * st.h
    ensures CellWallDistance(st, c) == 0.0
    ensures CellStreamwiseStreak(st, m, c, g) == 0.0
    ensures CellSpanwiseStreak(st, m, c, g) == 0.0
  {
    var y := CellWallDistance(st, c);
    assert y == 0.0;
    assert WallUnits(st.Retau, st.h, y) == 0.0;
    StreaksAtWallAndJitter(st.p, m, 0.0, WallUnits(st.Retau, st.h, Get(c, st.streamDir)),
                           WallUnits(st.Retau, st.h, Get(c, st.spanDir)), Deviation(0.2, g));
  }

  /** The new field: cell i from centre i, jitter draw i and old value i. */
  function Field(st: Setup, m: Math, centres: seq<V3>, jitter: seq<real>, u: seq<V3>): seq<V3>
    requires WellFormed(st) && |centres| == |u| && |jitter| == |u|
  {
    seq(|u|, i requires 0 <= i < |u| => Cell(st, m, centres[i], jitter[i], u[i]))
  }

  /** With setBulk alone the old value of a cell is not read. */
  lemma BulkOnlyIgnoresPriorField(st: Setup, m: Math, c: V3, g: real, u: V3, u': V3)
    requires WellFormed(st) && st.setBulk && !st.perturb
    ensures Cell(st, m, c, g, u) == Cell(st, m, c, g, u')
  {
  }

  /** With setBulk alone, running the pass on its own output changes
      nothing. */
  lemma BulkOnlyIdempotent(st: Setup, m: Math, centres: seq<V3>, jitter: seq<real>, u: seq<V3>)
    requires WellFormed(st) && st.setBulk && !st.perturb
    requires |centres| == |u| && |jitter| == |u|
    ensures Field(st, m, centres, jitter, Field(st, m, centres, jitter, u)) == Field(st, m, centres, jitter, u)
  {
    var once := Field(st, m, centres, jitter, u);
    var twice := Field(st, m, centres, jitter, once);
    forall i | 0 <= i < |u|
      ensures twice[i] == once[i]
    {
      BulkOnlyIgnoresPriorField(st, m, centres[i], jitter[i], once[i], u[i]);
    }
  }

  /** The per-cell loop: each cell is visited once, in index order, and
      rewritten from its centre, its jitter draw and its old value. */
  method PerturbCells(st: Setup, m: Math, centres: seq<V3>, jitter: seq<real>, U: array<V3>)
    requires WellFormed(st) && |centres| == U.Length && |jitter| == U.Length
    modifies U
    ensures U[..] == Field(st, m, centres, jitter, old(U[..]))
  {
    for celli := 0 to U.Length
      invariant forall k :: 0 <= k < celli ==> U[k] == Cell(st, m, centres[k], jitter[k], old(U[k]))
      invariant forall k :: celli <= k < U.Length ==> U[k] == old(U[k])
    {
      var deviation := Deviation(0.2, jitter[celli]);
      var cCentre := centres[celli];
      var zplus := WallUnits(st.Retau, st.h, Get(cCentre, st.spanDir));
      var y := WallDistance(Get(cCentre, st.heightDir), st.h);
      var yplus := WallUnits(st.Retau, st.h, y);
      var xplus := WallUnits(st.Retau, st.h, Get(cCentre, st.streamDir));
      var u := U[celli];
      if st.setBulk {
        u := Zero;
        u := Set(u, st.streamDir, Baseline(st, y));
      }
      if st.perturb {
        u := Set(u, st.streamDir, Get(u, st.streamDir) + StreamwiseStreak(st.p, m, yplus, zplus, deviation));
        u := Set(u, st.spanDir, SpanwiseStreak(st.p, m, yplus, xplus, deviation));
      }
      assert u == Cell(st, m, cCentre, jitter[celli], U[celli]);
      U[celli] := u;
    }
  }

  /** The whole program on a field: a rejected configuration leaves the
      field untouched; otherwise every cell is rewritten by the loop. */
  method Run(cfg: Config, nu: real, ubar: V3, m: Math, centres: seq<V3>, jitter: seq<real>, U: array<V3>)
    returns (outcome: Outcome)
    requires |centres| == U.Length && |jitter| == U.Length
    requires Validate(cfg).Pass? ==> cfg.h != 0.0 && cfg.Retau * nu != 0.0
    modifies U
    ensures outcome == Validate(cfg)
    ensures outcome.Fail? ==> U[..] == old(U[..])
    ensures outcome.Pass? ==> U[..] == Field(SetupOf(cfg, nu, ubar), m, centres, jitter, old(U[..]))
  {
    outcome := Validate(cfg);
    if outcome.Fail? {
      return;
    }
    var st := SetupOf(cfg, nu, ubar);
    PerturbCells(st, m, centres, jitter, U);
  }
}
