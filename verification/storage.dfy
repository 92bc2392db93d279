/** The storage balance rows chain one period to the next. Summed over
    the horizon, the battery chain telescopes to the initial level plus the
    net energy moved, and the thermal chain decays the initial level and
    every later flow geometrically by the retained fraction. */
module StorageChains {
  import opened Parameters
  import opened Lp
  import opened Formulation
  import opened Feasibility

  /** Energy the battery gains in period `k`: charge scaled by the charge
      efficiency, less discharge divided by the discharge efficiency, over
      the period's duration. */
  function BatteryInflow(p: Params, x: VarId -> real, k: int): (e: real)
    requires p.batteryEfficiencyDischarge != 0.0
  {
    p.batteryEfficiencyCharge * p.dt * x(At(BIn, k)) - (1.0 / p.batteryEfficiencyDischarge) * p.dt * x(At(BOut, k))
  }

  /** Total battery inflow over periods 1..t. */
  function BatteryNet(p: Params, x: VarId -> real, t: nat): (e: real)
    requires p.batteryEfficiencyDischarge != 0.0
  {
    if t == 0 then 0.0 else BatteryNet(p, x, t - 1) + BatteryInflow(p, x, t)
  }

  /** Energy the thermal store takes in during period `k`, net of release. */
  function HeatFlow(p: Params, x: VarId -> real, k: int): (e: real) {
    p.dt * x(At(TesIn, k)) - p.dt * x(At(TesOut, k))
  }

  /** The fraction of its content the thermal store keeps per period. */
  function Retained(p: Params): (q: real) {
    1.0 - p.tesLosses
  }

  function Pow(q: real, e: nat): (r: real) {
    if e == 0 then 1.0 else q * Pow(q, e - 1)
  }

  /** Flows of periods 1..j, each decayed by the periods left until `t`. */
  function DecayedFlows(p: Params, x: VarId -> real, t: nat, j: nat): (e: real)
    requires j <= t
  {
    if j == 0 then 0.0 else DecayedFlows(p, x, t, j - 1) + Pow(Retained(p), t - j) * HeatFlow(p, x, j)
  }

  /** One battery row: the level is the previous level (the initial level
      in period 1) plus the period's inflow. */
  lemma BatteryStep(p: Params, x: VarId -> real, t: int)
    requires WellFormed(p) && 1 <= t <= p.n && p.batteryEfficiencyDischarge != 0.0
    ensures Holds(RowOf(p, BatterySoc, t), x) <==>
              x(At(Bel, t)) ==
              (if t == 1 then OfCapacity(p.belIniLevel, p.batteryCapacity) else x(At(Bel, t - 1)))
              + BatteryInflow(p, x, t)
  {
    var r := RowOf(p, BatterySoc, t);
    if t == 1 {
      Eval3(r.terms[0], r.terms[1], r.terms[2], x);
    } else {
      Eval4(r.terms[0], r.terms[1], r.terms[2], r.terms[3], x);
    }
  }

  /** One thermal row: the level is the retained previous level (the
      retained initial level in period 1) plus the period's net flow. */
  lemma HeatStep(p: Params, x: VarId -> real, t: int)
    requires WellFormed(p) && 1 <= t <= p.n
    ensures Holds(RowOf(p, HeatStorageSoc, t), x) <==>
              x(At(Tes, t)) ==
              Retained(p) * (if t == 1 then OfCapacity(p.tesIniLevel, p.tesCapacity) else x(At(Tes, t - 1)))
              + HeatFlow(p, x, t)
  {
    if t == 1 {
      FirstHeatStep(p, x);
    } else {
      LaterHeatStep(p, x, t);
    }
  }

  lemma FirstHeatStep(p: Params, x: VarId -> real)
    requires WellFormed(p) && 1 <= p.n
    ensures Holds(RowOf(p, HeatStorageSoc, 1), x) <==>
              x(At(Tes, 1)) == Retained(p) * OfCapacity(p.tesIniLevel, p.tesCapacity) + HeatFlow(p, x, 1)
  {
    var r := RowOf(p, HeatStorageSoc, 1);
    Eval3(r.terms[0], r.terms[1], r.terms[2], x);
  }

  lemma LaterHeatStep(p: Params, x: VarId -> real, t: int)
    requires WellFormed(p) && 2 <= t <= p.n
    ensures Holds(RowOf(p, HeatStorageSoc, t), x) <==>
              x(At(Tes, t)) == Retained(p) * x(At(Tes, t - 1)) + HeatFlow(p, x, t)
  {
    var r := RowOf(p, HeatStorageSoc, t);
    Eval4(r.terms[0], r.terms[1], r.terms[2], r.terms[3], x);
    assert Value(r.terms[1], x) == -(Retained(p) * x(At(Tes, t - 1)));
  }

  lemma {:induction false} BatteryChain(p: Params, x: VarId -> real, t: nat)
    requires WellFormed(p) && 1 <= t <= p.n && p.batteryEfficiencyDischarge != 0.0
    requires forall k | 1 <= k <= t :: Holds(RowOf(p, BatterySoc, k), x)
    ensures x(At(Bel, t)) == OfCapacity(p.belIniLevel, p.batteryCapacity) + BatteryNet(p, x, t)
  {
    BatteryStep(p, x, t);
    if t > 1 {
      BatteryChain(p, x, t - 1);
    }
  }

  /** Scaling every decayed flow by the retained fraction moves the
      horizon one period on. */
  lemma {:induction false} DecayOnePeriod(p: Params, x: VarId -> real, t: nat, j: nat)
    requires j <= t
    ensures Retained(p) * DecayedFlows(p, x, t, j) == DecayedFlows(p, x, t + 1, j)
  {
    if j > 0 {
      DecayOnePeriod(p, x, t, j - 1);
      var q := Retained(p);
      var a := DecayedFlows(p, x, t, j - 1);
      var w := Pow(q, t - j);
      var f := HeatFlow(p, x, j);
      assert Pow(q, t + 1 - j) == q * w;
      assert q * (a + w * f) == q * a + (q * w) * f;
    }
  }

  /** The closed form of the thermal level at period `t`. */
  function HeatClosedForm(p: Params, x: VarId -> real, t: nat): (e: real) {
    Pow(Retained(p), t) * OfCapacity(p.tesIniLevel, p.tesCapacity) + DecayedFlows(p, x, t, t)
  }

  /** If the closed form holds at `t - 1`, the row of period `t` carries it
      to `t`. */
  lemma HeatChainStep(p: Params, x: VarId -> real, t: nat)
    requires WellFormed(p) && 2 <= t <= p.n
    requires Holds(RowOf(p, HeatStorageSoc, t), x)
    requires x(At(Tes, t - 1)) == HeatClosedForm(p, x, t - 1)
    ensures x(At(Tes, t)) == HeatClosedForm(p, x, t)
  {
    HeatStep(p, x, t);
    var q := Retained(p);
    var ini := OfCapacity(p.tesIniLevel, p.tesCapacity);
    var f := HeatFlow(p, x, t);
    DecayOnePeriod(p, x, t - 1, t - 1);
    var a := Pow(q, t - 1);
    var d := DecayedFlows(p, x, t - 1, t - 1);
    Regroup(q, a, ini, d, f);
    assert DecayedFlows(p, x, t, t) == DecayedFlows(p, x, t, t - 1) + f;
  }

  lemma {:induction false} HeatChain(p: Params, x: VarId -> real, t: nat)
    requires WellFormed(p) && 1 <= t <= p.n
    requires forall k | 1 <= k <= t :: Holds(RowOf(p, HeatStorageSoc, k), x)
    ensures x(At(Tes, t)) == HeatClosedForm(p, x, t)
  {
    if t == 1 {
      HeatStep(p, x, 1);
      assert DecayedFlows(p, x, 1, 1) == HeatFlow(p, x, 1);
      assert Pow(Retained(p), 1) == Retained(p);
    } else {
      HeatChain(p, x, t - 1);
      HeatChainStep(p, x, t);
    }
  }

  lemma Regroup(q: real, a: real, ini: real, d: real, f: real)
    ensures q * (a * ini + d) + f == (q * a) * ini + (q * d + f)
  {
  }

  /** The battery level at every period is the initial level plus all the
      energy moved in and out up to and including that period. */
  lemma BatteryTelescopes(p: Params, sys: Problem, x: VarId -> real, t: int)
    requires Feasible(p, sys, x) && 1 <= t <= p.n
    ensures p.batteryEfficiencyDischarge != 0.0
    ensures x(At(Bel, t)) == OfCapacity(p.belIniLevel, p.batteryCapacity) + BatteryNet(p, x, t)
  {
    BuiltEfficienciesNonZero(p, sys);
    forall k | 1 <= k <= t
      ensures Holds(RowOf(p, BatterySoc, k), x)
    {
      ActiveRowHolds(p, sys, x, BatterySoc, k);
    }
    BatteryChain(p, x, t);
  }

  /** The thermal level at every period is the initial level decayed once
      per period so far, plus each period's net flow decayed once per
      period after it. */
  lemma HeatStorageDecays(p: Params, sys: Problem, x: VarId -> real, t: int)
    requires Feasible(p, sys, x) && 1 <= t <= p.n
    ensures x(At(Tes, t)) == HeatClosedForm(p, x, t)
  {
    forall k | 1 <= k <= t
      ensures Holds(RowOf(p, HeatStorageSoc, k), x)
    {
      ActiveRowHolds(p, sys, x, HeatStorageSoc, k);
    }
    HeatChain(p, x, t);
  }
}
