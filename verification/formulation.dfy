/** The problem builder: maps a normalised parameter record to a linear
    constraint system. Variables are named by family and period (or month);
    rows are named by constraint and period. Every cost term is a variable
    defined by rows, so the objective is a plain sum of cost variables. */
module Formulation {
  import opened Wrappers
  import opened Parameters
  import opened Lp

  /** Variable families indexed by period. */
  datatype PeriodVar =
    | CostEnergy | CostGridEnergyImport | CostGridEnergyExport
    | CostGridPowerImport | CostGridPowerExport | CostFuel
    | PBuy | PSell
    | Bel | BIn | BOut
    | Tes | TesIn | TesOut
    | QHp | PHp
    | QBo | FBo

  /** Variable families indexed by month: the monthly demand-charge peaks. */
  datatype MonthVar = CostGridPowerImportMax | CostGridPowerExportMax

  datatype VarId = At(f: PeriodVar, t: int) | InMonth(g: MonthVar, m: int) | CostGridFixed

  /** Constraint families indexed by period. */
  datatype Constraint =
    | EnergyCost | GridEnergyImportCost | GridEnergyExportCost
    | GridPowerImportCost | GridPowerExportCost
    | MaxGridPowerImportCost | MaxGridPowerExportCost
    | FuelCost | PowerBalance | HeatBalance
    | BatterySoc | HeatStorageSoc | NoGridCharging
    | FuelBoilerGen | HeatPumpGen

  datatype RowId = Indexed(c: Constraint, t: int) | GridFixedCost

  /** Why a build stops: a row divides by a zero efficiency, or a terminal
      level is pinned on a horizon that has no last period. */
  datatype BuildError = ZeroDivision | EmptyHorizon

  type Problem = System<VarId, RowId>

  const PeriodVars: set<PeriodVar> :=
    {CostEnergy, CostGridEnergyImport, CostGridEnergyExport, CostGridPowerImport,
     CostGridPowerExport, CostFuel, PBuy, PSell, Bel, BIn, BOut, Tes, TesIn, TesOut,
     QHp, PHp, QBo, FBo}

  const MonthVars: set<MonthVar> := {CostGridPowerImportMax, CostGridPowerExportMax}

  const Constraints: set<Constraint> :=
    {EnergyCost, GridEnergyImportCost, GridEnergyExportCost, GridPowerImportCost,
     GridPowerExportCost, MaxGridPowerImportCost, MaxGridPowerExportCost, FuelCost,
     PowerBalance, HeatBalance, BatterySoc, HeatStorageSoc, NoGridCharging,
     FuelBoilerGen, HeatPumpGen}

  // ---------------------------------------------------------------- months

  /** The month of period `t`. */
  function MonthOf(p: Params, t: int): int
    requires WellFormed(p) && 1 <= t <= p.n
  {
    p.monthOrder[t]
  }

  /** The set of months: the distinct month labels of the periods. */
  function Months(p: Params): set<int>
    requires WellFormed(p)
  {
    set t | 1 <= t <= p.n :: MonthOf(p, t)
  }

  /** The distinct month labels of periods 1..k, in order of first use. */
  function MonthList(p: Params, k: nat): (ms: seq<int>)
    requires WellFormed(p) && k <= p.n
    ensures |ms| <= k
    ensures forall i, j | 0 <= i < j < |ms| :: ms[i] != ms[j]
    ensures forall m :: m in ms <==> exists t :: 1 <= t <= k && MonthOf(p, t) == m
  {
    if k == 0 then []
    else
      var earlier := MonthList(p, k - 1);
      if MonthOf(p, k) in earlier then earlier else earlier + [MonthOf(p, k)]
  }

  // ------------------------------------------------------------- variables

  /** A level or a rate given as a fraction of a storage capacity. */
  function OfCapacity(fraction: real, capacity: real): real {
    fraction * capacity
  }

  /** Domain and bounds of a period variable; every bound is a product of
      parameters. */
  function Decl(p: Params, f: PeriodVar): VarDecl {
    match f
    case CostEnergy | CostGridEnergyImport | CostGridEnergyExport | CostFuel =>
      VarDecl(Reals, None, None)
    case CostGridPowerImport | CostGridPowerExport | PBuy | PSell | PHp | FBo =>
      VarDecl(NonNegativeReals, None, None)
    case Bel => VarDecl(NonNegativeReals, Some(OfCapacity(p.batteryMinLevel, p.batteryCapacity)), Some(p.batteryCapacity))
    case BIn => VarDecl(NonNegativeReals, Some(0.0), Some(OfCapacity(p.batteryChargeMax, p.batteryCapacity)))
    case BOut => VarDecl(NonNegativeReals, Some(0.0), Some(OfCapacity(p.batteryDischargeMax, p.batteryCapacity)))
    case Tes => VarDecl(NonNegativeReals, Some(OfCapacity(p.tesMinLevel, p.tesCapacity)), Some(p.tesCapacity))
    case TesIn => VarDecl(NonNegativeReals, Some(0.0), Some(OfCapacity(p.tesChargeMax, p.tesCapacity)))
    case TesOut => VarDecl(NonNegativeReals, Some(0.0), Some(OfCapacity(p.tesDischargeMax, p.tesCapacity)))
    case QHp => VarDecl(NonNegativeReals, Some(0.0), Some(p.heatPumpCapacity))
    case QBo => VarDecl(NonNegativeReals, Some(0.0), Some(p.boilerCapacity))
  }

  function DeclOf(p: Params, v: VarId): VarDecl {
    match v
    case At(f, _) => Decl(p, f)
    case InMonth(_, _) => VarDecl(Reals, None, None)
    case CostGridFixed => VarDecl(Reals, None, None)
  }

  function DeclaredVars(p: Params): set<VarId>
    requires WellFormed(p)
  {
    (set f, t | f in PeriodVars && 1 <= t <= p.n :: At(f, t))
    + (set g, m | g in MonthVars && m in Months(p) :: InMonth(g, m))
    + {CostGridFixed}
  }

  function Variables(p: Params): map<VarId, VarDecl>
    requires WellFormed(p)
  {
    map v | v in DeclaredVars(p) :: DeclOf(p, v)
  }

  // ------------------------------------------------------------------ rows

  /** Row `c` at period `t`, written as `terms rel rhs` with every variable
      on the left. */
  function RowOf(p: Params, c: Constraint, t: int): Row<VarId>
    requires WellFormed(p) && 1 <= t <= p.n
    requires c == BatterySoc ==> p.batteryEfficiencyDischarge != 0.0
    requires c == FuelBoilerGen ==> p.boilerEfficiency != 0.0
  {
    var dt := p.dt;
    match c
    case EnergyCost =>
      Row([Term(1.0, At(CostEnergy, t)), Term(-(p.energyPriceBuy[t] * dt), At(PBuy, t)),
           Term(p.energyPriceSell[t] * dt, At(PSell, t))], Eq, 0.0)
    case GridEnergyImportCost =>
      Row([Term(1.0, At(CostGridEnergyImport, t)), Term(-(p.gridEnergyImportFee[t] * dt), At(PBuy, t))], Eq, 0.0)
    case GridEnergyExportCost =>
      Row([Term(1.0, At(CostGridEnergyExport, t)), Term(-(p.gridEnergyExportFee[t] * dt), At(PSell, t))], Eq, 0.0)
    case GridPowerImportCost =>
      Row([Term(1.0, At(CostGridPowerImport, t)), Term(-p.gridPowerImportFee[t], At(PBuy, t)),
           Term(p.gridPowerImportFee[t], At(PSell, t))], Ge, 0.0)
    case GridPowerExportCost =>
      Row([Term(1.0, At(CostGridPowerExport, t)), Term(-p.gridPowerExportFee[t], At(PSell, t)),
           Term(p.gridPowerExportFee[t], At(PBuy, t))], Ge, 0.0)
    case MaxGridPowerImportCost =>
      Row([Term(1.0, InMonth(CostGridPowerImportMax, MonthOf(p, t))), Term(-1.0, At(CostGridPowerImport, t))], Ge, 0.0)
    case MaxGridPowerExportCost =>
      Row([Term(1.0, InMonth(CostGridPowerExportMax, MonthOf(p, t))), Term(-1.0, At(CostGridPowerExport, t))], Ge, 0.0)
    case FuelCost =>
      Row([Term(1.0, At(CostFuel, t)), Term(-(p.fuelPrice * dt), At(FBo, t))], Eq, 0.0)
    case PowerBalance =>
      Row([Term(1.0, At(PSell, t)), Term(-1.0, At(PBuy, t)), Term(-1.0, At(BOut, t)), Term(1.0, At(BIn, t)),
           Term(1.0, At(PHp, t))], Eq, p.generation[t] - p.demand[t])
    case HeatBalance =>
      Row([Term(1.0, At(QBo, t)), Term(1.0, At(QHp, t)), Term(1.0, At(TesOut, t)), Term(-1.0, At(TesIn, t))],
          Eq, p.heatDemand[t])
    case BatterySoc =>
      var charge := Term(-(p.batteryEfficiencyCharge * dt), At(BIn, t));
      var discharge := Term((1.0 / p.batteryEfficiencyDischarge) * dt, At(BOut, t));
      if t == 1 then
        Row([Term(1.0, At(Bel, t)), charge, discharge], Eq, OfCapacity(p.belIniLevel, p.batteryCapacity))
      else
        Row([Term(1.0, At(Bel, t)), Term(-1.0, At(Bel, t - 1)), charge, discharge], Eq, 0.0)
    case HeatStorageSoc =>
      var keep := 1.0 - p.tesLosses;
      if t == 1 then
        Row([Term(1.0, At(Tes, t)), Term(-dt, At(TesIn, t)), Term(dt, At(TesOut, t))],
            Eq, keep * OfCapacity(p.tesIniLevel, p.tesCapacity))
      else
        Row([Term(1.0, At(Tes, t)), Term(-keep, At(Tes, t - 1)), Term(-dt, At(TesIn, t)), Term(dt, At(TesOut, t))],
            Eq, 0.0)
    case NoGridCharging =>
      Row([Term(1.0, At(PBuy, t)), Term(-1.0, At(PHp, t))], Le, p.demand[t])
    case FuelBoilerGen =>
      Row([Term(1.0, At(FBo, t)), Term(-(1.0 / p.boilerEfficiency), At(QBo, t))], Eq, 0.0)
    case HeatPumpGen =>
      Row([Term(1.0, At(QHp, t)), Term(-p.heatPumpCop, At(PHp, t))], Eq, 0.0)
  }

  /** The single fixed-cost row: the fixed fee once per month. */
  function FixedCostRow(p: Params): Row<VarId>
    requires WellFormed(p)
  {
    Row([Term(1.0, CostGridFixed)], Eq, p.gridFixedFee * (|Months(p)| as real))
  }

  /** The constraint families that get a row at every period: all of them,
      except that the no-grid-charging family is skipped at every period
      when grid charging is allowed. */
  function ActiveConstraints(p: Params): set<Constraint> {
    if p.batteryGridCharging then Constraints - {NoGridCharging} else Constraints
  }

  function RowIds(p: Params): set<RowId> {
    (set c, t | c in ActiveConstraints(p) && 1 <= t <= p.n :: Indexed(c, t)) + {GridFixedCost}
  }

  /** No row divides by zero. */
  predicate Divisible(p: Params) {
    p.n > 0 ==> p.batteryEfficiencyDischarge != 0.0 && p.boilerEfficiency != 0.0
  }

  function Rows(p: Params): map<RowId, Row<VarId>>
    requires WellFormed(p) && Divisible(p)
  {
    map r | r in RowIds(p) :: if r.GridFixedCost? then FixedCostRow(p) else RowOf(p, r.c, r.t)
  }

  // ------------------------------------------------------------------ pins

  /** Terminal levels: each storage level at the last period is fixed when
      its final-level parameter is positive. */
  function Pins(p: Params): map<VarId, real> {
    (if p.belFinLevel > 0.0 then map[At(Bel, p.n) := OfCapacity(p.belFinLevel, p.batteryCapacity)] else map[])
    + (if p.tesFinLevel > 0.0 then map[At(Tes, p.n) := OfCapacity(p.tesFinLevel, p.tesCapacity)] else map[])
  }

  /** Period variable `f` at period `t` is one of the pinned terminal levels. */
  predicate Pinned(p: Params, f: PeriodVar, t: int) {
    t == p.n && ((f == Bel && p.belFinLevel > 0.0) || (f == Tes && p.tesFinLevel > 0.0))
  }

  // ------------------------------------------------------------- objective

  function PeriodCostTerms(k: nat): seq<Term<VarId>> {
    if k == 0 then []
    else PeriodCostTerms(k - 1)
         + [Term(1.0, At(CostEnergy, k)), Term(1.0, At(CostGridEnergyImport, k)), Term(1.0, At(CostGridEnergyExport, k))]
  }

  function MonthCostTerms(ms: seq<int>): seq<Term<VarId>> {
    if |ms| == 0 then []
    else [Term(1.0, InMonth(CostGridPowerImportMax, ms[0])), Term(1.0, InMonth(CostGridPowerExportMax, ms[0]))]
         + MonthCostTerms(ms[1..])
  }

  function FuelCostTerms(k: nat): seq<Term<VarId>> {
    if k == 0 then [] else FuelCostTerms(k - 1) + [Term(1.0, At(CostFuel, k))]
  }

  /** Total cost: per-period energy and grid-energy costs, the monthly
      demand-charge peaks, the fixed cost and the per-period fuel cost. */
  function Objective(p: Params): seq<Term<VarId>>
    requires WellFormed(p)
  {
    PeriodCostTerms(p.n) + MonthCostTerms(MonthList(p, p.n)) + [Term(1.0, CostGridFixed)] + FuelCostTerms(p.n)
  }

  // ----------------------------------------------------------------- build

  /** The optimisation problem for `p`. A row is built for every period, so
      the divisions in the battery and boiler rows only happen when there is
      a period; the terminal pins look up the last period, which an empty
      horizon does not have. */
  function Build(p: Params): (r: Result<Problem, BuildError>)
    requires WellFormed(p)
    ensures r == Failure(ZeroDivision) <==>
              p.n > 0 && (p.batteryEfficiencyDischarge == 0.0 || p.boilerEfficiency == 0.0)
    ensures r == Failure(EmptyHorizon) <==>
              p.n == 0 && (p.belFinLevel > 0.0 || p.tesFinLevel > 0.0)
  {
    if !Divisible(p) then Failure(ZeroDivision)
    else if p.n == 0 && (p.belFinLevel > 0.0 || p.tesFinLevel > 0.0) then Failure(EmptyHorizon)
    else Success(System(Variables(p), Rows(p), Pins(p), Objective(p)))
  }
}
