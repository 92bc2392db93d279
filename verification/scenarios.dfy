/** Scenarios seen end to end: from the caller's dictionary, through the
    normaliser and the builder, to what every feasible point must do. */
module Scenarios {
  import opened Wrappers
  import opened Parameters
  import opened Lp
  import opened Normaliser
  import opened Formulation
  import opened Structure
  import opened Feasibility
  import opened StorageChains
  import opened Costs

  /** A scenario that names no battery, thermal store, heat pump or boiler
      capacity. */
  predicate GridOnly(s: Scenario) {
    && s.batteryCapacity.None? && s.tesCapacity.None?
    && s.heatPumpCapacity.None? && s.boilerCapacity.None?
  }

  /** Omitted capacities default to zero, so the omitted subsystems stay
      idle in every feasible point; the heat pump draws nothing unless its
      coefficient of performance was set to a non-positive value. */
  lemma OmittedSubsystemsAreInert(s: Scenario, sys: Problem, x: VarId -> real, t: int)
    requires GridOnly(s) && WellFormed(ModelInput(s))
    requires Build(ModelInput(s)) == Success(sys) && Satisfies(x, sys)
    requires 1 <= t <= |s.generation|
    ensures x(At(Bel, t)) == 0.0 && x(At(BIn, t)) == 0.0 && x(At(BOut, t)) == 0.0
    ensures x(At(Tes, t)) == 0.0 && x(At(TesIn, t)) == 0.0 && x(At(TesOut, t)) == 0.0
    ensures x(At(QHp, t)) == 0.0 && x(At(QBo, t)) == 0.0 && x(At(FBo, t)) == 0.0
    ensures s.heatPumpCop.None? || s.heatPumpCop.value > 0.0 ==> x(At(PHp, t)) == 0.0
  {
    var p := ModelInput(s);
    assert Feasible(p, sys, x);
    ZeroBatteryIsInert(p, sys, x, t);
    ZeroThermalStorageIsInert(p, sys, x, t);
    ZeroHeatPumpIsInert(p, sys, x, t);
    ZeroBoilerIsInert(p, sys, x, t);
  }

  /** One period of a household with a demand of 10 and no generation,
      connected to the grid only: energy is bought at 0.08 and sold at 0.04,
      every fee is zero, and every other key is left to its default. */
  const Household: Scenario := Scenario(
    generation := [0.0], demand := Some([10.0]), heatDemand := None,
    batteryCapacity := None, batteryMinLevel := None, batteryChargeMax := None,
    batteryDischargeMax := None, batteryEfficiencyCharge := None,
    batteryEfficiencyDischarge := None, belIniLevel := None, belFinLevel := None,
    batteryGridCharging := None,
    tesCapacity := None, tesMinLevel := None, tesChargeMax := None, tesDischargeMax := None,
    tesLosses := None, tesIniLevel := None, tesFinLevel := None,
    energyPriceBuy := [0.08], energyPriceSell := [0.04], gridFixedFee := 0.0,
    gridEnergyImportFee := [0.0], gridEnergyExportFee := [0.0],
    gridPowerImportFee := [0.0], gridPowerExportFee := [0.0],
    fuelPrice := None, heatPumpCapacity := None, heatPumpCop := None,
    boilerCapacity := None, boilerEfficiency := None, dt := None,
    monthOrder := [1])

  /** The parameters the normaliser makes of the household scenario. */
  predicate HouseholdShape(p: Params) {
    && WellFormed(p) && p.n == 1 && MonthOf(p, 1) == 1
    && p.generation[1] == 0.0 && p.demand[1] == 10.0 && p.heatDemand[1] == 0.0
    && p.energyPriceBuy[1] == 0.08 && p.energyPriceSell[1] == 0.04
    && p.gridEnergyImportFee[1] == 0.0 && p.gridEnergyExportFee[1] == 0.0
    && p.gridPowerImportFee[1] == 0.0 && p.gridPowerExportFee[1] == 0.0
    && p.gridFixedFee == 0.0 && p.fuelPrice == 0.0 && p.dt == 1.0
    && p.batteryCapacity == 0.0 && p.tesCapacity == 0.0
    && p.heatPumpCapacity == 0.0 && p.heatPumpCop == 1.0 && p.boilerCapacity == 0.0
    && p.batteryEfficiencyCharge == 0.95 && p.batteryEfficiencyDischarge == 0.95 && p.boilerEfficiency == 0.95
    && p.belIniLevel == 0.0 && p.belFinLevel == 0.0 && p.tesIniLevel == 0.0 && p.tesFinLevel == 0.0
    && p.batteryGridCharging
  }

  lemma HouseholdParams()
    ensures HouseholdShape(ModelInput(Household))
  {
    var p := ModelInput(Household);
    assert 1 in p.generation && 1 in p.demand && 1 in p.heatDemand;
  }

  /** The point that buys the demand and sells nothing: energy cost 0.8,
      every other variable zero. */
  function HouseholdPoint(v: VarId): (a: real)
    ensures a >= 0.0
    ensures v == At(PBuy, 1) <==> a == 10.0
  {
    if v == At(PBuy, 1) then 10.0 else if v == At(CostEnergy, 1) then 0.8 else 0.0
  }

  // The next three lemmas only substitute the household's literal prices and
  // fees into a cost equation. Stated apart from the rows, the products are
  // solved once, instead of inside every proof that already knows the rows.

  lemma AtHouseholdPrices(cost: real, buy: real, sell: real, priceBuy: real, priceSell: real, dt: real)
    requires priceBuy == 0.08 && priceSell == 0.04 && dt == 1.0
    ensures cost == priceBuy * buy * dt - priceSell * sell * dt <==> cost == 0.08 * buy - 0.04 * sell
  {
  }

  lemma FreeOfCharge(cost: real, price: real, quantity: real, dt: real)
    requires price == 0.0
    ensures cost == price * quantity * dt <==> cost == 0.0
  {
  }

  lemma NoFee(fee: real, quantity: real)
    requires fee == 0.0
    ensures fee * quantity == 0.0
  {
  }

  /** The household's per-period costs from its rows alone: energy at the
      two prices, and no grid-energy, fuel or fixed cost. */
  lemma HouseholdCostVars(p: Params, x: VarId -> real)
    requires HouseholdShape(p) && Divisible(p) && RowsHold(p, x)
    ensures x(At(CostEnergy, 1)) == 0.08 * x(At(PBuy, 1)) - 0.04 * x(At(PSell, 1))
    ensures x(At(CostGridEnergyImport, 1)) == 0.0 && x(At(CostGridEnergyExport, 1)) == 0.0
    ensures x(At(CostFuel, 1)) == 0.0 && x(CostGridFixed) == 0.0
  {
    assert EnergyCost in ActiveConstraints(p) && GridEnergyImportCost in ActiveConstraints(p);
    assert GridEnergyExportCost in ActiveConstraints(p) && FuelCost in ActiveConstraints(p);
    EnergyCostRow(p, x, 1);
    AtHouseholdPrices(x(At(CostEnergy, 1)), x(At(PBuy, 1)), x(At(PSell, 1)),
                      p.energyPriceBuy[1], p.energyPriceSell[1], p.dt);
    GridEnergyImportRow(p, x, 1);
    FreeOfCharge(x(At(CostGridEnergyImport, 1)), p.gridEnergyImportFee[1], x(At(PBuy, 1)), p.dt);
    GridEnergyExportRow(p, x, 1);
    FreeOfCharge(x(At(CostGridEnergyExport, 1)), p.gridEnergyExportFee[1], x(At(PSell, 1)), p.dt);
    FuelCostRow(p, x, 1);
    FreeOfCharge(x(At(CostFuel, 1)), p.fuelPrice, x(At(FBo, 1)), p.dt);
    FixedCostRowMeans(p, x);
    NoFee(p.gridFixedFee, |Months(p)| as real);
  }

  /** The household's one month has non-negative peaks. */
  lemma HouseholdPeaks(p: Params, x: VarId -> real)
    requires HouseholdShape(p) && Divisible(p) && RowsHold(p, x) && PeriodBoundsHold(p, x)
    ensures x(InMonth(CostGridPowerImportMax, 1)) >= 0.0 && x(InMonth(CostGridPowerExportMax, 1)) >= 0.0
  {
    assert MaxGridPowerImportCost in ActiveConstraints(p) && MaxGridPowerExportCost in ActiveConstraints(p);
    MonthlyImportPeakRow(p, x, 1);
    MonthlyExportPeakRow(p, x, 1);
    assert CostGridPowerImport in PeriodVars && CostGridPowerExport in PeriodVars;
    assert WithinDecl(Decl(p, CostGridPowerImport), x(At(CostGridPowerImport, 1)));
    assert WithinDecl(Decl(p, CostGridPowerExport), x(At(CostGridPowerExport, 1)));
  }

  /** The household's total cost from its rows and bounds alone: energy at
      the two prices, and the monthly peaks, which are never negative. */
  lemma HouseholdCostFromParts(p: Params, x: VarId -> real)
    requires HouseholdShape(p) && Divisible(p) && RowsHold(p, x) && PeriodBoundsHold(p, x)
    ensures TotalCost(p, x) ==
              0.08 * x(At(PBuy, 1)) - 0.04 * x(At(PSell, 1))
              + x(InMonth(CostGridPowerImportMax, 1)) + x(InMonth(CostGridPowerExportMax, 1))
    ensures x(InMonth(CostGridPowerImportMax, 1)) >= 0.0 && x(InMonth(CostGridPowerExportMax, 1)) >= 0.0
  {
    assert MonthList(p, 1) == [1];
    assert PeriodCosts(x, 1) == x(At(CostEnergy, 1)) + x(At(CostGridEnergyImport, 1)) + x(At(CostGridEnergyExport, 1));
    assert MonthPeaks(x, [1]) == x(InMonth(CostGridPowerImportMax, 1)) + x(InMonth(CostGridPowerExportMax, 1));
    assert FuelCosts(x, 1) == x(At(CostFuel, 1));
    HouseholdCostVars(p, x);
    HouseholdPeaks(p, x);
  }

  /** With no battery and no heat pump, the single period buys its demand
      plus whatever it sells. */
  lemma HouseholdBalanceFromParts(p: Params, x: VarId -> real)
    requires HouseholdShape(p) && Divisible(p) && RowsHold(p, x) && PeriodBoundsHold(p, x)
    ensures x(At(PBuy, 1)) == 10.0 + x(At(PSell, 1))
    ensures x(At(PSell, 1)) >= 0.0
  {
    assert PowerBalance in ActiveConstraints(p) && HeatPumpGen in ActiveConstraints(p);
    PowerBalanceRow(p, x, 1);
    HeatPumpRow(p, x, 1);
    assert PSell in PeriodVars && BIn in PeriodVars && BOut in PeriodVars && QHp in PeriodVars;
    assert WithinDecl(Decl(p, PSell), x(At(PSell, 1)));
    ZeroCapacityBounds(p, BIn, x(At(BIn, 1)));
    ZeroCapacityBounds(p, BOut, x(At(BOut, 1)));
    ZeroCapacityBounds(p, QHp, x(At(QHp, 1)));
  }

  /** No feasible point costs the household less than 0.8, and any that
      costs no more buys exactly its demand and sells nothing. */
  lemma HouseholdCostAtLeast(sys: Problem, x: VarId -> real)
    requires WellFormed(ModelInput(Household))
    requires Build(ModelInput(Household)) == Success(sys) && Satisfies(x, sys)
    ensures ObjectiveValue(sys, x) >= 0.8
    ensures ObjectiveValue(sys, x) <= 0.8 ==> x(At(PBuy, 1)) == 10.0 && x(At(PSell, 1)) == 0.0
  {
    HouseholdParams();
    var p := ModelInput(Household);
    FeasibleIffParts(p, sys, x);
    ObjectiveIsTotalCost(p, sys, x);
    HouseholdCostFromParts(p, x);
    HouseholdBalanceFromParts(p, x);
  }

  /** The energy, grid-energy and fuel cost rows hold at the household
      point. */
  lemma HouseholdPointEnergyRow(p: Params, c: Constraint)
    requires HouseholdShape(p) && Divisible(p)
    requires c in {EnergyCost, GridEnergyImportCost, GridEnergyExportCost, FuelCost}
    ensures Holds(RowOf(p, c, 1), HouseholdPoint)
  {
    var x := HouseholdPoint;
    match c
    case EnergyCost =>
      EnergyCostRow(p, x, 1);
      AtHouseholdPrices(x(At(CostEnergy, 1)), x(At(PBuy, 1)), x(At(PSell, 1)),
                        p.energyPriceBuy[1], p.energyPriceSell[1], p.dt);
    case GridEnergyImportCost =>
      GridEnergyImportRow(p, x, 1);
      FreeOfCharge(x(At(CostGridEnergyImport, 1)), p.gridEnergyImportFee[1], x(At(PBuy, 1)), p.dt);
    case GridEnergyExportCost =>
      GridEnergyExportRow(p, x, 1);
      FreeOfCharge(x(At(CostGridEnergyExport, 1)), p.gridEnergyExportFee[1], x(At(PSell, 1)), p.dt);
    case FuelCost =>
      FuelCostRow(p, x, 1);
      FreeOfCharge(x(At(CostFuel, 1)), p.fuelPrice, x(At(FBo, 1)), p.dt);
  }

  /** The demand-charge rows hold at the household point. */
  lemma HouseholdPointDemandRow(p: Params, c: Constraint)
    requires HouseholdShape(p) && Divisible(p)
    requires c in {GridPowerImportCost, GridPowerExportCost, MaxGridPowerImportCost, MaxGridPowerExportCost}
    ensures Holds(RowOf(p, c, 1), HouseholdPoint)
  {
    var x := HouseholdPoint;
    match c
    case GridPowerImportCost =>
      GridPowerImportRow(p, x, 1);
      NoFee(p.gridPowerImportFee[1], x(At(PBuy, 1)) - x(At(PSell, 1)));
    case GridPowerExportCost =>
      GridPowerExportRow(p, x, 1);
      NoFee(p.gridPowerExportFee[1], x(At(PSell, 1)) - x(At(PBuy, 1)));
    case MaxGridPowerImportCost =>
      MonthlyImportPeakRow(p, x, 1);
    case MaxGridPowerExportCost =>
      MonthlyExportPeakRow(p, x, 1);
  }

  /** The balance and conversion rows hold at the household point. */
  lemma HouseholdPointBalanceRow(p: Params, c: Constraint)
    requires HouseholdShape(p) && Divisible(p)
    requires c in {PowerBalance, HeatBalance, FuelBoilerGen, HeatPumpGen}
    ensures Holds(RowOf(p, c, 1), HouseholdPoint)
  {
    var x := HouseholdPoint;
    match c
    case PowerBalance =>
      PowerBalanceRow(p, x, 1);
    case HeatBalance =>
      HeatBalanceRow(p, x, 1);
    case FuelBoilerGen =>
      FuelBoilerRow(p, x, 1);
    case HeatPumpGen =>
      HeatPumpRow(p, x, 1);
  }

  /** The storage rows hold at the household point. */
  lemma HouseholdPointStorageRow(p: Params, c: Constraint)
    requires HouseholdShape(p) && Divisible(p)
    requires c in {BatterySoc, HeatStorageSoc}
    ensures Holds(RowOf(p, c, 1), HouseholdPoint)
  {
    var x := HouseholdPoint;
    if c == BatterySoc {
      BatteryStep(p, x, 1);
      NoFee(p.belIniLevel, p.batteryCapacity);
    } else {
      FirstHeatStep(p, x);
      NoFee(p.tesIniLevel, p.tesCapacity);
    }
  }

  lemma HouseholdPointBounds(p: Params)
    requires HouseholdShape(p)
    ensures PeriodBoundsHold(p, HouseholdPoint)
  {
  }

  lemma HouseholdPointRows(p: Params)
    requires HouseholdShape(p) && Divisible(p)
    ensures RowsHold(p, HouseholdPoint)
  {
    forall c, t | c in ActiveConstraints(p) && 1 <= t <= p.n
      ensures Holds(RowOf(p, c, t), HouseholdPoint)
    {
      if c in {EnergyCost, GridEnergyImportCost, GridEnergyExportCost, FuelCost} {
        HouseholdPointEnergyRow(p, c);
      } else if c in {GridPowerImportCost, GridPowerExportCost, MaxGridPowerImportCost, MaxGridPowerExportCost} {
        HouseholdPointDemandRow(p, c);
      } else if c in {PowerBalance, HeatBalance, FuelBoilerGen, HeatPumpGen} {
        HouseholdPointBalanceRow(p, c);
      } else {
        HouseholdPointStorageRow(p, c);
      }
    }
    FixedCostRowMeans(p, HouseholdPoint);
    NoFee(p.gridFixedFee, |Months(p)| as real);
  }

  lemma HouseholdPointFeasible(p: Params, sys: Problem)
    requires HouseholdShape(p) && Divisible(p) && Build(p) == Success(sys)
    ensures Satisfies(HouseholdPoint, sys)
  {
    HouseholdPointRows(p);
    HouseholdPointBounds(p);
    PartsFeasible(p, sys, HouseholdPoint);
  }

  lemma HouseholdPointCost(p: Params)
    requires HouseholdShape(p)
    ensures TotalCost(p, HouseholdPoint) == 0.8
  {
    var x := HouseholdPoint;
    assert MonthList(p, 1) == [1];
    assert PeriodCosts(x, 1) == 0.8;
    assert MonthPeaks(x, [1]) == 0.0;
    assert FuelCosts(x, 1) == 0.0;
  }

  /** The household problem builds, the household point is feasible in
      it, and it costs 0.8: the lower bound is reached. */
  lemma HouseholdOptimumReached()
    ensures WellFormed(ModelInput(Household)) && Build(ModelInput(Household)).Success?
    ensures var sys := Build(ModelInput(Household)).value;
              Satisfies(HouseholdPoint, sys) && ObjectiveValue(sys, HouseholdPoint) == 0.8
  {
    HouseholdParams();
    var p := ModelInput(Household);
    assert Divisible(p);
    var sys := Build(p).value;
    HouseholdPointFeasible(p, sys);
    ObjectiveIsTotalCost(p, sys, HouseholdPoint);
    HouseholdPointCost(p);
  }
}
