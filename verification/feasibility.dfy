/** What every feasible point of the built problem satisfies. None of this
    depends on a solver: each fact holds of every assignment that meets the
    rows, bounds and pins, optimal or not. */
module Feasibility {
  import opened Wrappers
  import opened Parameters
  import opened Lp
  import opened Formulation
  import opened Structure

  /** `x` is a feasible point of the problem built from `p`. */
  predicate Feasible(p: Params, sys: Problem, x: VarId -> real) {
    WellFormed(p) && Build(p) == Success(sys) && Satisfies(x, sys)
  }

  lemma ActiveRowHolds(p: Params, sys: Problem, x: VarId -> real, c: Constraint, t: int)
    requires Feasible(p, sys, x) && 1 <= t <= p.n
    requires c == NoGridCharging ==> !p.batteryGridCharging
    ensures Holds(RowOf(p, c, t), x)
  {
    assert Indexed(c, t) in RowIds(p);
    assert sys.rows == Rows(p);
    assert sys.rows[Indexed(c, t)] == RowOf(p, c, t);
  }

  lemma FixedCostRowHolds(p: Params, sys: Problem, x: VarId -> real)
    requires Feasible(p, sys, x)
    ensures Holds(FixedCostRow(p), x)
  {
    RowFamilies(p, sys);
    assert sys.rows == Rows(p);
    assert Holds(sys.rows[GridFixedCost], x);
  }

  /** An unpinned period variable lies in its declared domain and bounds. */
  lemma WithinDeclAt(p: Params, sys: Problem, x: VarId -> real, f: PeriodVar, t: int)
    requires Feasible(p, sys, x) && 1 <= t <= p.n && !Pinned(p, f, t)
    ensures WithinDecl(Decl(p, f), x(At(f, t)))
  {
    PeriodDecl(p, sys, f, t);
    PinnedExactly(p, sys, f, t);
  }

  /** A declaration built by `Decl` pins its variable to zero when the
      capacity that scales its bounds is zero. */
  lemma ZeroCapacityBounds(p: Params, f: PeriodVar, a: real)
    requires WithinDecl(Decl(p, f), a)
    ensures f in {Bel, BIn, BOut} && p.batteryCapacity == 0.0 ==> a == 0.0
    ensures f in {Tes, TesIn, TesOut} && p.tesCapacity == 0.0 ==> a == 0.0
    ensures f == QHp && p.heatPumpCapacity == 0.0 ==> a == 0.0
    ensures f == QBo && p.boilerCapacity == 0.0 ==> a == 0.0
  {
  }

  lemma EnergyCostRow(p: Params, x: VarId -> real, t: int)
    requires WellFormed(p) && 1 <= t <= p.n
    ensures Holds(RowOf(p, EnergyCost, t), x) <==>
              (x(At(CostEnergy, t)) ==
              p.energyPriceBuy[t] * x(At(PBuy, t)) * p.dt - p.energyPriceSell[t] * x(At(PSell, t)) * p.dt)
  {
    var r := RowOf(p, EnergyCost, t);
    Eval3(r.terms[0], r.terms[1], r.terms[2], x);
  }

  lemma GridEnergyImportRow(p: Params, x: VarId -> real, t: int)
    requires WellFormed(p) && 1 <= t <= p.n
    ensures Holds(RowOf(p, GridEnergyImportCost, t), x) <==>
              (x(At(CostGridEnergyImport, t)) == p.gridEnergyImportFee[t] * x(At(PBuy, t)) * p.dt)
  {
    var r := RowOf(p, GridEnergyImportCost, t);
    Eval2(r.terms[0], r.terms[1], x);
  }

  lemma GridEnergyExportRow(p: Params, x: VarId -> real, t: int)
    requires WellFormed(p) && 1 <= t <= p.n
    ensures Holds(RowOf(p, GridEnergyExportCost, t), x) <==>
              (x(At(CostGridEnergyExport, t)) == p.gridEnergyExportFee[t] * x(At(PSell, t)) * p.dt)
  {
    var r := RowOf(p, GridEnergyExportCost, t);
    Eval2(r.terms[0], r.terms[1], x);
  }

  lemma FuelCostRow(p: Params, x: VarId -> real, t: int)
    requires WellFormed(p) && 1 <= t <= p.n
    ensures Holds(RowOf(p, FuelCost, t), x) <==>
              (x(At(CostFuel, t)) == p.fuelPrice * x(At(FBo, t)) * p.dt)
  {
    var r := RowOf(p, FuelCost, t);
    Eval2(r.terms[0], r.terms[1], x);
  }

  lemma GridPowerImportRow(p: Params, x: VarId -> real, t: int)
    requires WellFormed(p) && 1 <= t <= p.n
    ensures Holds(RowOf(p, GridPowerImportCost, t), x) <==>
              (x(At(CostGridPowerImport, t)) >= p.gridPowerImportFee[t] * (x(At(PBuy, t)) - x(At(PSell, t))))
  {
    var r := RowOf(p, GridPowerImportCost, t);
    Eval3(r.terms[0], r.terms[1], r.terms[2], x);
  }

  lemma GridPowerExportRow(p: Params, x: VarId -> real, t: int)
    requires WellFormed(p) && 1 <= t <= p.n
    ensures Holds(RowOf(p, GridPowerExportCost, t), x) <==>
              (x(At(CostGridPowerExport, t)) >= p.gridPowerExportFee[t] * (x(At(PSell, t)) - x(At(PBuy, t))))
  {
    var r := RowOf(p, GridPowerExportCost, t);
    Eval3(r.terms[0], r.terms[1], r.terms[2], x);
  }

  lemma MonthlyImportPeakRow(p: Params, x: VarId -> real, t: int)
    requires WellFormed(p) && 1 <= t <= p.n
    ensures Holds(RowOf(p, MaxGridPowerImportCost, t), x) <==>
              (x(InMonth(CostGridPowerImportMax, MonthOf(p, t))) >= x(At(CostGridPowerImport, t)))
  {
    var r := RowOf(p, MaxGridPowerImportCost, t);
    Eval2(r.terms[0], r.terms[1], x);
  }

  lemma MonthlyExportPeakRow(p: Params, x: VarId -> real, t: int)
    requires WellFormed(p) && 1 <= t <= p.n
    ensures Holds(RowOf(p, MaxGridPowerExportCost, t), x) <==>
              (x(InMonth(CostGridPowerExportMax, MonthOf(p, t))) >= x(At(CostGridPowerExport, t)))
  {
    var r := RowOf(p, MaxGridPowerExportCost, t);
    Eval2(r.terms[0], r.terms[1], x);
  }

  lemma PowerBalanceRow(p: Params, x: VarId -> real, t: int)
    requires WellFormed(p) && 1 <= t <= p.n
    ensures Holds(RowOf(p, PowerBalance, t), x) <==>
              (x(At(PSell, t)) - x(At(PBuy, t)) ==
              p.generation[t] + x(At(BOut, t)) - x(At(BIn, t)) - p.demand[t] - x(At(PHp, t)))
  {
    var r := RowOf(p, PowerBalance, t);
    Eval5(r.terms[0], r.terms[1], r.terms[2], r.terms[3], r.terms[4], x);
  }

  lemma HeatBalanceRow(p: Params, x: VarId -> real, t: int)
    requires WellFormed(p) && 1 <= t <= p.n
    ensures Holds(RowOf(p, HeatBalance, t), x) <==>
              (x(At(QBo, t)) + x(At(QHp, t)) == p.heatDemand[t] - x(At(TesOut, t)) + x(At(TesIn, t)))
  {
    var r := RowOf(p, HeatBalance, t);
    Eval4(r.terms[0], r.terms[1], r.terms[2], r.terms[3], x);
  }

  lemma FuelBoilerRow(p: Params, x: VarId -> real, t: int)
    requires WellFormed(p) && 1 <= t <= p.n && p.boilerEfficiency != 0.0
    ensures Holds(RowOf(p, FuelBoilerGen, t), x) <==>
              (x(At(FBo, t)) == x(At(QBo, t)) / p.boilerEfficiency)
  {
    var r := RowOf(p, FuelBoilerGen, t);
    Eval2(r.terms[0], r.terms[1], x);
  }

  lemma HeatPumpRow(p: Params, x: VarId -> real, t: int)
    requires WellFormed(p) && 1 <= t <= p.n
    ensures Holds(RowOf(p, HeatPumpGen, t), x) <==>
              (x(At(QHp, t)) == p.heatPumpCop * x(At(PHp, t)))
  {
    var r := RowOf(p, HeatPumpGen, t);
    Eval2(r.terms[0], r.terms[1], x);
  }

  lemma NoGridChargingRow(p: Params, x: VarId -> real, t: int)
    requires WellFormed(p) && 1 <= t <= p.n
    ensures Holds(RowOf(p, NoGridCharging, t), x) <==>
              (x(At(PBuy, t)) <= p.demand[t] + x(At(PHp, t)))
  {
    var r := RowOf(p, NoGridCharging, t);
    Eval2(r.terms[0], r.terms[1], x);
  }

  lemma IdleHeatPump(p: Params, x: VarId -> real, t: int)
    requires WellFormed(p) && 1 <= t <= p.n && p.heatPumpCapacity == 0.0
    requires WithinDecl(Decl(p, QHp), x(At(QHp, t))) && Holds(RowOf(p, HeatPumpGen, t), x)
    ensures x(At(QHp, t)) == 0.0
    ensures p.heatPumpCop > 0.0 ==> x(At(PHp, t)) == 0.0
  {
    ZeroCapacityBounds(p, QHp, x(At(QHp, t)));
    HeatPumpRow(p, x, t);
  }

  lemma IdleBoiler(p: Params, x: VarId -> real, t: int)
    requires WellFormed(p) && 1 <= t <= p.n && p.boilerCapacity == 0.0 && p.boilerEfficiency != 0.0
    requires WithinDecl(Decl(p, QBo), x(At(QBo, t))) && Holds(RowOf(p, FuelBoilerGen, t), x)
    ensures x(At(QBo, t)) == 0.0 && x(At(FBo, t)) == 0.0
  {
    ZeroCapacityBounds(p, QBo, x(At(QBo, t)));
    FuelBoilerRow(p, x, t);
  }

  lemma FixedCostRowMeans(p: Params, x: VarId -> real)
    requires WellFormed(p)
    ensures Holds(FixedCostRow(p), x) <==> x(CostGridFixed) == p.gridFixedFee * (|Months(p)| as real)
  {
    var r := FixedCostRow(p);
    Eval1(r.terms[0], x);
  }

  /** A successful build divides by both efficiencies whenever it builds a
      row at all. */
  lemma BuiltEfficienciesNonZero(p: Params, sys: Problem)
    requires WellFormed(p) && Build(p) == Success(sys) && p.n > 0
    ensures p.batteryEfficiencyDischarge != 0.0 && p.boilerEfficiency != 0.0
  {
  }

  /** The energy cost of a period is what is bought at the buy price minus
      what is sold at the sell price, over the period's duration. */
  lemma EnergyCostDefined(p: Params, sys: Problem, x: VarId -> real, t: int)
    requires Feasible(p, sys, x) && 1 <= t <= p.n
    ensures x(At(CostEnergy, t)) ==
              p.energyPriceBuy[t] * x(At(PBuy, t)) * p.dt - p.energyPriceSell[t] * x(At(PSell, t)) * p.dt
  {
    ActiveRowHolds(p, sys, x, EnergyCost, t);
    EnergyCostRow(p, x, t);
  }

  /** The grid energy fees of a period are proportional to the energy
      bought and sold. */
  lemma GridEnergyCostsDefined(p: Params, sys: Problem, x: VarId -> real, t: int)
    requires Feasible(p, sys, x) && 1 <= t <= p.n
    ensures x(At(CostGridEnergyImport, t)) == p.gridEnergyImportFee[t] * x(At(PBuy, t)) * p.dt
    ensures x(At(CostGridEnergyExport, t)) == p.gridEnergyExportFee[t] * x(At(PSell, t)) * p.dt
  {
    ActiveRowHolds(p, sys, x, GridEnergyImportCost, t);
    GridEnergyImportRow(p, x, t);
    ActiveRowHolds(p, sys, x, GridEnergyExportCost, t);
    GridEnergyExportRow(p, x, t);
  }

  /** The fuel cost of a period is the fuel burnt at the fuel price. */
  lemma FuelCostDefined(p: Params, sys: Problem, x: VarId -> real, t: int)
    requires Feasible(p, sys, x) && 1 <= t <= p.n
    ensures x(At(CostFuel, t)) == p.fuelPrice * x(At(FBo, t)) * p.dt
  {
    ActiveRowHolds(p, sys, x, FuelCost, t);
    FuelCostRow(p, x, t);
  }

  /** Each month's peak import charge is at least the import demand charge
      of every period in that month, which is itself at least zero and at
      least the fee times the net import; symmetrically for export. */
  lemma MonthlyPeaksBoundPeriodCharges(p: Params, sys: Problem, x: VarId -> real, t: int)
    requires Feasible(p, sys, x) && 1 <= t <= p.n
    ensures x(At(CostGridPowerImport, t)) >= 0.0
    ensures x(At(CostGridPowerImport, t)) >= p.gridPowerImportFee[t] * (x(At(PBuy, t)) - x(At(PSell, t)))
    ensures x(InMonth(CostGridPowerImportMax, MonthOf(p, t))) >= x(At(CostGridPowerImport, t))
    ensures x(At(CostGridPowerExport, t)) >= 0.0
    ensures x(At(CostGridPowerExport, t)) >= p.gridPowerExportFee[t] * (x(At(PSell, t)) - x(At(PBuy, t)))
    ensures x(InMonth(CostGridPowerExportMax, MonthOf(p, t))) >= x(At(CostGridPowerExport, t))
  {
    FeasibleParts(p, sys, x);
    PeaksFromParts(p, x, t);
  }

  lemma PeaksFromParts(p: Params, x: VarId -> real, t: int)
    requires WellFormed(p) && Divisible(p) && 1 <= t <= p.n
    requires RowsHold(p, x) && PeriodBoundsHold(p, x)
    ensures x(At(CostGridPowerImport, t)) >= 0.0
    ensures x(At(CostGridPowerImport, t)) >= p.gridPowerImportFee[t] * (x(At(PBuy, t)) - x(At(PSell, t)))
    ensures x(InMonth(CostGridPowerImportMax, MonthOf(p, t))) >= x(At(CostGridPowerImport, t))
    ensures x(At(CostGridPowerExport, t)) >= 0.0
    ensures x(At(CostGridPowerExport, t)) >= p.gridPowerExportFee[t] * (x(At(PSell, t)) - x(At(PBuy, t)))
    ensures x(InMonth(CostGridPowerExportMax, MonthOf(p, t))) >= x(At(CostGridPowerExport, t))
  {
    assert CostGridPowerImport in PeriodVars && CostGridPowerExport in PeriodVars;
    assert WithinDecl(Decl(p, CostGridPowerImport), x(At(CostGridPowerImport, t)));
    assert WithinDecl(Decl(p, CostGridPowerExport), x(At(CostGridPowerExport, t)));
    assert GridPowerImportCost in ActiveConstraints(p) && GridPowerExportCost in ActiveConstraints(p);
    assert MaxGridPowerImportCost in ActiveConstraints(p) && MaxGridPowerExportCost in ActiveConstraints(p);
    GridPowerImportRow(p, x, t);
    GridPowerExportRow(p, x, t);
    MonthlyImportPeakRow(p, x, t);
    MonthlyExportPeakRow(p, x, t);
  }

  /** Every month in use has a peak at least zero: some period maps to it,
      and that period's charge is non-negative. */
  lemma MonthlyPeaksNonNegative(p: Params, sys: Problem, x: VarId -> real, m: int)
    requires Feasible(p, sys, x) && m in Months(p)
    ensures x(InMonth(CostGridPowerImportMax, m)) >= 0.0
    ensures x(InMonth(CostGridPowerExportMax, m)) >= 0.0
  {
    var t :| 1 <= t <= p.n && MonthOf(p, t) == m;
    MonthlyPeaksBoundPeriodCharges(p, sys, x, t);
  }

  /** The fixed cost is the fixed fee once for every distinct month label
      among the periods. */
  lemma FixedCostPerMonth(p: Params, sys: Problem, x: VarId -> real)
    requires Feasible(p, sys, x)
    ensures x(CostGridFixed) == p.gridFixedFee * (|Months(p)| as real)
  {
    FixedCostRowHolds(p, sys, x);
    FixedCostRowMeans(p, x);
  }

  /** Net export equals generation plus battery discharge, less battery
      charge, demand and heat-pump draw. */
  lemma PowerBalanceHolds(p: Params, sys: Problem, x: VarId -> real, t: int)
    requires Feasible(p, sys, x) && 1 <= t <= p.n
    ensures x(At(PSell, t)) - x(At(PBuy, t)) ==
              p.generation[t] + x(At(BOut, t)) - x(At(BIn, t)) - p.demand[t] - x(At(PHp, t))
  {
    ActiveRowHolds(p, sys, x, PowerBalance, t);
    PowerBalanceRow(p, x, t);
  }

  /** Boiler and heat-pump heat meet the heat demand, less what thermal
      storage releases, plus what it takes in. */
  lemma HeatBalanceHolds(p: Params, sys: Problem, x: VarId -> real, t: int)
    requires Feasible(p, sys, x) && 1 <= t <= p.n
    ensures x(At(QBo, t)) + x(At(QHp, t)) == p.heatDemand[t] - x(At(TesOut, t)) + x(At(TesIn, t))
  {
    ActiveRowHolds(p, sys, x, HeatBalance, t);
    HeatBalanceRow(p, x, t);
  }

  /** The boiler burns its heat output divided by its efficiency; the heat
      pump delivers its electrical draw times its coefficient of
      performance. */
  lemma ConversionsHold(p: Params, sys: Problem, x: VarId -> real, t: int)
    requires Feasible(p, sys, x) && 1 <= t <= p.n
    ensures p.boilerEfficiency != 0.0
    ensures x(At(FBo, t)) == x(At(QBo, t)) / p.boilerEfficiency
    ensures x(At(QHp, t)) == p.heatPumpCop * x(At(PHp, t))
  {
    BuiltEfficienciesNonZero(p, sys);
    ActiveRowHolds(p, sys, x, FuelBoilerGen, t);
    FuelBoilerRow(p, x, t);
    ActiveRowHolds(p, sys, x, HeatPumpGen, t);
    HeatPumpRow(p, x, t);
  }

  /** When grid charging is forbidden, no period buys more than its demand
      plus the heat pump's draw. */
  lemma NoGridChargingHolds(p: Params, sys: Problem, x: VarId -> real, t: int)
    requires Feasible(p, sys, x) && 1 <= t <= p.n && !p.batteryGridCharging
    ensures x(At(PBuy, t)) <= p.demand[t] + x(At(PHp, t))
  {
    ActiveRowHolds(p, sys, x, NoGridCharging, t);
    NoGridChargingRow(p, x, t);
  }

  /** A positive final level holds the last period's storage level at that
      fraction of capacity. */
  lemma TerminalLevelsHold(p: Params, sys: Problem, x: VarId -> real)
    requires Feasible(p, sys, x)
    ensures p.belFinLevel > 0.0 ==> x(At(Bel, p.n)) == OfCapacity(p.belFinLevel, p.batteryCapacity)
    ensures p.tesFinLevel > 0.0 ==> x(At(Tes, p.n)) == OfCapacity(p.tesFinLevel, p.tesCapacity)
  {
    TerminalPins(p, sys);
    if p.belFinLevel > 0.0 {
      PinHolds(x, sys, At(Bel, p.n));
    }
    if p.tesFinLevel > 0.0 {
      PinHolds(x, sys, At(Tes, p.n));
    }
  }

  /** A battery of zero capacity holds nothing and moves nothing. */
  lemma ZeroBatteryIsInert(p: Params, sys: Problem, x: VarId -> real, t: int)
    requires Feasible(p, sys, x) && 1 <= t <= p.n && p.batteryCapacity == 0.0
    ensures x(At(Bel, t)) == 0.0 && x(At(BIn, t)) == 0.0 && x(At(BOut, t)) == 0.0
  {
    if Pinned(p, Bel, t) {
      TerminalLevelsHold(p, sys, x);
    } else {
      WithinDeclAt(p, sys, x, Bel, t);
      ZeroCapacityBounds(p, Bel, x(At(Bel, t)));
    }
    WithinDeclAt(p, sys, x, BIn, t);
    ZeroCapacityBounds(p, BIn, x(At(BIn, t)));
    WithinDeclAt(p, sys, x, BOut, t);
    ZeroCapacityBounds(p, BOut, x(At(BOut, t)));
  }

  /** A thermal store of zero capacity holds nothing and moves nothing. */
  lemma ZeroThermalStorageIsInert(p: Params, sys: Problem, x: VarId -> real, t: int)
    requires Feasible(p, sys, x) && 1 <= t <= p.n && p.tesCapacity == 0.0
    ensures x(At(Tes, t)) == 0.0 && x(At(TesIn, t)) == 0.0 && x(At(TesOut, t)) == 0.0
  {
    if Pinned(p, Tes, t) {
      TerminalLevelsHold(p, sys, x);
    } else {
      WithinDeclAt(p, sys, x, Tes, t);
      ZeroCapacityBounds(p, Tes, x(At(Tes, t)));
    }
    WithinDeclAt(p, sys, x, TesIn, t);
    ZeroCapacityBounds(p, TesIn, x(At(TesIn, t)));
    WithinDeclAt(p, sys, x, TesOut, t);
    ZeroCapacityBounds(p, TesOut, x(At(TesOut, t)));
  }

  /** A heat pump of zero capacity delivers no heat and, with a positive
      coefficient of performance, draws no power. */
  lemma ZeroHeatPumpIsInert(p: Params, sys: Problem, x: VarId -> real, t: int)
    requires Feasible(p, sys, x) && 1 <= t <= p.n && p.heatPumpCapacity == 0.0
    ensures x(At(QHp, t)) == 0.0
    ensures p.heatPumpCop > 0.0 ==> x(At(PHp, t)) == 0.0
  {
    WithinDeclAt(p, sys, x, QHp, t);
    ActiveRowHolds(p, sys, x, HeatPumpGen, t);
    IdleHeatPump(p, x, t);
  }

  /** A boiler of zero capacity delivers no heat and burns no fuel. */
  lemma ZeroBoilerIsInert(p: Params, sys: Problem, x: VarId -> real, t: int)
    requires Feasible(p, sys, x) && 1 <= t <= p.n && p.boilerCapacity == 0.0
    ensures x(At(QBo, t)) == 0.0 && x(At(FBo, t)) == 0.0
  {
    WithinDeclAt(p, sys, x, QBo, t);
    BuiltEfficienciesNonZero(p, sys);
    ActiveRowHolds(p, sys, x, FuelBoilerGen, t);
    IdleBoiler(p, x, t);
  }

  // ------------------------------------------------- feasibility, part by part

  /** Every period variable that is not a pinned terminal level lies in its
      declared domain and bounds. */
  predicate PeriodBoundsHold(p: Params, x: VarId -> real)
    requires WellFormed(p)
  {
    forall f, t | f in PeriodVars && 1 <= t <= p.n && !Pinned(p, f, t) :: WithinDecl(Decl(p, f), x(At(f, t)))
  }

  /** Every active row of every period holds, and so does the fixed-cost row. */
  predicate RowsHold(p: Params, x: VarId -> real)
    requires WellFormed(p) && Divisible(p)
  {
    && (forall c, t | c in ActiveConstraints(p) && 1 <= t <= p.n :: Holds(RowOf(p, c, t), x))
    && Holds(FixedCostRow(p), x)
  }

  /** The terminal levels take their pinned values. */
  predicate PinsHold(p: Params, x: VarId -> real) {
    && (p.belFinLevel > 0.0 ==> x(At(Bel, p.n)) == OfCapacity(p.belFinLevel, p.batteryCapacity))
    && (p.tesFinLevel > 0.0 ==> x(At(Tes, p.n)) == OfCapacity(p.tesFinLevel, p.tesCapacity))
  }

  lemma FeasibleParts(p: Params, sys: Problem, x: VarId -> real)
    requires Feasible(p, sys, x)
    ensures Divisible(p)
    ensures PeriodBoundsHold(p, x) && RowsHold(p, x) && PinsHold(p, x)
  {
    forall f, t | f in PeriodVars && 1 <= t <= p.n && !Pinned(p, f, t)
      ensures WithinDecl(Decl(p, f), x(At(f, t)))
    {
      WithinDeclAt(p, sys, x, f, t);
    }
    forall c, t | c in ActiveConstraints(p) && 1 <= t <= p.n
      ensures Holds(RowOf(p, c, t), x)
    {
      ActiveRowHolds(p, sys, x, c, t);
    }
    FixedCostRowHolds(p, sys, x);
    TerminalLevelsHold(p, sys, x);
  }

  lemma BoundFromParts(p: Params, sys: Problem, x: VarId -> real, v: VarId)
    requires WellFormed(p) && Build(p) == Success(sys) && PeriodBoundsHold(p, x)
    requires v in sys.vars && v !in sys.pins
    ensures WithinDecl(sys.vars[v], x(v))
  {
    assert sys.vars == Variables(p);
    assert v in DeclaredVars(p);
    match v
    case At(f, t) =>
      PinnedExactly(p, sys, f, t);
      assert f in PeriodVars && 1 <= t <= p.n;
    case InMonth(_, _) =>
    case CostGridFixed =>
  }

  lemma BoundsFromParts(p: Params, sys: Problem, x: VarId -> real)
    requires WellFormed(p) && Build(p) == Success(sys) && PeriodBoundsHold(p, x)
    ensures forall v | v in sys.vars && v !in sys.pins :: WithinDecl(sys.vars[v], x(v))
  {
    forall v | v in sys.vars && v !in sys.pins
      ensures WithinDecl(sys.vars[v], x(v))
    {
      BoundFromParts(p, sys, x, v);
    }
  }

  lemma RowsFromParts(p: Params, sys: Problem, x: VarId -> real)
    requires WellFormed(p) && Build(p) == Success(sys) && Divisible(p) && RowsHold(p, x)
    ensures forall r | r in sys.rows :: Holds(sys.rows[r], x)
  {
    assert sys.rows == Rows(p);
    forall r | r in sys.rows
      ensures Holds(sys.rows[r], x)
    {
      assert r in RowIds(p);
    }
  }

  lemma PinsFromParts(p: Params, sys: Problem, x: VarId -> real)
    requires WellFormed(p) && Build(p) == Success(sys) && PinsHold(p, x)
    ensures forall v | v in sys.pins :: x(v) == sys.pins[v]
  {
    TerminalPins(p, sys);
  }

  lemma PartsFeasible(p: Params, sys: Problem, x: VarId -> real)
    requires WellFormed(p) && Build(p) == Success(sys) && Divisible(p)
    requires PeriodBoundsHold(p, x) && RowsHold(p, x) && PinsHold(p, x)
    ensures Satisfies(x, sys)
  {
    BoundsFromParts(p, sys, x);
    RowsFromParts(p, sys, x);
    PinsFromParts(p, sys, x);
  }

  /** A point is feasible exactly when every period variable other than a
      pinned terminal level is within its bounds, every active row and the
      fixed-cost row hold, and the terminal pins are met: nothing else
      constrains the problem. */
  lemma FeasibleIffParts(p: Params, sys: Problem, x: VarId -> real)
    requires WellFormed(p) && Build(p) == Success(sys)
    ensures Divisible(p)
    ensures Satisfies(x, sys) <==> PeriodBoundsHold(p, x) && RowsHold(p, x) && PinsHold(p, x)
  {
    if Satisfies(x, sys) {
      FeasibleParts(p, sys, x);
    }
    if PeriodBoundsHold(p, x) && RowsHold(p, x) && PinsHold(p, x) {
      PartsFeasible(p, sys, x);
    }
  }
}
