/** Ingredients common to the channel and generic programs: the parameters of
    the Schoppa–Hussain streak model, the laminar parabola and the two streak
    formulas in wall units. */
module Streaks {
  import opened Numerics

  /** The derived constants of one run: friction velocity `utau`, wall-normal
      circulation `duplus`, spanwise and streamwise wavenumbers `betaPlus` and
      `alphaPlus`, decay rate `sigma` and spanwise amplitude `epsilon`. */
  datatype StreakParams = StreakParams(
    utau: real,
    duplus: real,
    betaPlus: real,
    sigma: real,
    alphaPlus: real,
    epsilon: real)

  /** The derived constants of the channel and generic programs: friction
      velocity `Retau*nu/h`, a circulation giving a streak amplitude of an
      eighth of the bulk velocity `ubarS`, wavenumbers for spacings of 200
      (spanwise) and 500 (streamwise) wall units, decay rate 0.00055 and
      spanwise amplitude `ubarS/200`. */
  function Params(Retau: real, h: real, nu: real, ubarS: real): (p: StreakParams)
    requires h != 0.0 && Retau * nu != 0.0
    ensures p.utau * h == Retau * nu
    ensures p.utau * p.duplus / 2.0 == ubarS / 8.0
    ensures p.betaPlus * 200.0 == 2.0 * Pi && p.alphaPlus * 500.0 == 2.0 * Pi
    ensures p.sigma == 0.00055 && p.epsilon * 200.0 == ubarS
  {
    var utau := Retau * nu / h;
    assert utau * h == Retau * nu;
    StreakParams(
      utau,
      ubarS * 0.25 / utau,
      2.0 * Pi * (1.0 / 200.0),
      0.00055,
      2.0 * Pi * (1.0 / 500.0),
      ubarS / 200.0)
  }

  /** A length `t` in wall units, `t*Retau/h`. */
  function WallUnits(Retau: real, h: real, t: real): real
    requires h != 0.0
  {
    t * Retau / h
  }

  /** The multiplicative jitter `1 + k*g` for a standard-normal draw `g`. */
  function Deviation(k: real, g: real): real
  {
    1.0 + k * g
  }

  /** The shape of the laminar profile, `y/h - 0.5*sqr(y/h)` at `eta = y/h`. */
  function LaminarFactor(eta: real): real
  {
    eta - 0.5 * Sqr(eta)
  }

  /** Between the wall (`eta = 0`) and the reference height (`eta = 1`) the
      laminar factor lies in [0, 1/2]; it is 0 at the wall and reaches its
      maximum 1/2 at the reference height. */
  lemma LaminarFactorBounds(eta: real)
    requires 0.0 <= eta <= 1.0
    ensures 0.0 <= LaminarFactor(eta) <= 0.5
    ensures eta == 0.0 ==> LaminarFactor(eta) == 0.0
    ensures eta == 1.0 ==> LaminarFactor(eta) == 0.5
  {
    assert eta * eta <= eta;
    assert 2.0 * eta - 1.0 <= eta * eta;
    assert LaminarFactor(eta) == eta - 0.5 * (eta * eta);
  }

  /** A wall distance `y` between the wall and a reference height `h > 0`
      gives a ratio `eta = y/h` in [0, 1], 0 at the wall and 1 at `h`. */
  lemma RatioBounds(y: real, h: real, eta: real)
    requires 0.0 < h && 0.0 <= y <= h && eta == y / h
    ensures 0.0 <= eta <= 1.0
    ensures y == 0.0 ==> eta == 0.0
    ensures y == h ==> eta == 1.0
  {
    assert eta * h == y;
  }

  /** The laminar factor at `y/h` for a wall distance `y` between the wall
      and the reference height `h > 0`: in [0, 1/2], 0 at the wall, 1/2 at
      `h`. */
  lemma LaminarFactorOfRatio(y: real, h: real)
    requires 0.0 < h && 0.0 <= y <= h
    ensures 0.0 <= LaminarFactor(y / h) <= 0.5
    ensures y == 0.0 ==> LaminarFactor(y / h) == 0.0
    ensures y == h ==> LaminarFactor(y / h) == 0.5
  {
    RatioBounds(y, h, y / h);
    LaminarFactorBounds(y / h);
  }

  /** The streak added along the streamwise direction, at wall-normal and
      spanwise wall-unit coordinates `yplus` and `zplus`. */
  function StreamwiseStreak(p: StreakParams, m: Math, yplus: real, zplus: real, deviation: real): real
  {
    (p.utau * p.duplus / 2.0) * (yplus / 40.0)
    * m.exp(-p.sigma * Sqr(yplus) + 0.5)
    * m.cos(p.betaPlus * zplus) * deviation
  }

  /** The spanwise streak, at wall-normal and streamwise wall-unit
      coordinates `yplus` and `xplus`. */
  function SpanwiseStreak(p: StreakParams, m: Math, yplus: real, xplus: real, deviation: real): real
  {
    p.epsilon
    * m.sin(p.alphaPlus * xplus)
    * yplus
    * m.exp(-p.sigma * Sqr(yplus))
    * deviation
  }

  /** Both streaks vanish at the wall, whatever the other coordinates and the
      jitter; and they scale linearly with the deviation. */
  lemma StreaksAtWallAndJitter(p: StreakParams, m: Math, yplus: real, xplus: real, zplus: real, deviation: real)
    ensures StreamwiseStreak(p, m, 0.0, zplus, deviation) == 0.0
    ensures SpanwiseStreak(p, m, 0.0, xplus, deviation) == 0.0
    ensures StreamwiseStreak(p, m, yplus, zplus, deviation) == deviation * StreamwiseStreak(p, m, yplus, zplus, 1.0)
    ensures SpanwiseStreak(p, m, yplus, xplus, deviation) == deviation * SpanwiseStreak(p, m, yplus, xplus, 1.0)
  {
  }

  /** Without circulation and spanwise amplitude there is no streak at all. */
  lemma NoAmplitudeNoStreaks(p: StreakParams, m: Math, yplus: real, xplus: real, zplus: real, deviation: real)
    requires p.duplus == 0.0 && p.epsilon == 0.0
    ensures StreamwiseStreak(p, m, yplus, zplus, deviation) == 0.0
    ensures SpanwiseStreak(p, m, yplus, xplus, deviation) == 0.0
  {
  }
}
