/** The scenario a caller supplies and the fully populated parameter record
    the optimisation problem is built from. Periods are the integers 1..n;
    every per-period quantity is a map keyed by period, as the source keys its
    series. Numbers are reals: floating point is not modelled. */
module Parameters {
  import opened Wrappers

  /** A per-period series, keyed by period number. */
  type Series = map<int, real>

  /** The scenario dictionary. Required keys are plain fields; keys a
      scenario may omit are optional. Series are lists in temporal order. */
  datatype Scenario = Scenario(
    generation: seq<real>,
    demand: Option<seq<real>>,
    heatDemand: Option<seq<real>>,
    batteryCapacity: Option<real>,
    batteryMinLevel: Option<real>,
    batteryChargeMax: Option<real>,
    batteryDischargeMax: Option<real>,
    batteryEfficiencyCharge: Option<real>,
    batteryEfficiencyDischarge: Option<real>,
    belIniLevel: Option<real>,
    belFinLevel: Option<real>,
    batteryGridCharging: Option<bool>,
    tesCapacity: Option<real>,
    tesMinLevel: Option<real>,
    tesChargeMax: Option<real>,
    tesDischargeMax: Option<real>,
    tesLosses: Option<real>,
    tesIniLevel: Option<real>,
    tesFinLevel: Option<real>,
    energyPriceBuy: seq<real>,
    energyPriceSell: seq<real>,
    gridFixedFee: real,
    gridEnergyImportFee: seq<real>,
    gridEnergyExportFee: seq<real>,
    gridPowerImportFee: seq<real>,
    gridPowerExportFee: seq<real>,
    fuelPrice: Option<real>,
    heatPumpCapacity: Option<real>,
    heatPumpCop: Option<real>,
    boilerCapacity: Option<real>,
    boilerEfficiency: Option<real>,
    dt: Option<real>,
    monthOrder: seq<int>)

  /** The normalised parameter record; `n` is the number of periods. */
  datatype Params = Params(
    n: nat,
    generation: Series,
    demand: Series,
    heatDemand: Series,
    batteryMinLevel: real,
    batteryCapacity: real,
    batteryChargeMax: real,
    batteryDischargeMax: real,
    batteryEfficiencyCharge: real,
    batteryEfficiencyDischarge: real,
    belIniLevel: real,
    belFinLevel: real,
    batteryGridCharging: bool,
    tesMinLevel: real,
    tesCapacity: real,
    tesChargeMax: real,
    tesDischargeMax: real,
    tesLosses: real,
    tesIniLevel: real,
    tesFinLevel: real,
    energyPriceBuy: Series,
    energyPriceSell: Series,
    gridFixedFee: real,
    gridEnergyImportFee: Series,
    gridEnergyExportFee: Series,
    gridPowerImportFee: Series,
    gridPowerExportFee: Series,
    fuelPrice: real,
    heatPumpCapacity: real,
    heatPumpCop: real,
    boilerCapacity: real,
    boilerEfficiency: real,
    monthOrder: map<int, int>,
    dt: real)

  /** `m` has a value at every period 1..n. */
  predicate Covers<T>(m: map<int, T>, n: nat) {
    forall t: int :: 1 <= t <= n ==> t in m
  }

  /** `m` has a value at exactly the periods 1..n. */
  predicate KeyedOnPeriods<T>(m: map<int, T>, n: nat) {
    && Covers(m, n)
    && forall t | t in m :: 1 <= t <= n
  }

  /** Every series and the month labelling are keyed on exactly the periods
      1..n: the builder reads each at every period when it builds a row, a
      parameter indexed by the periods accepts no key outside them, and the
      set of months is taken from all of the labelling's values. */
  predicate WellFormed(p: Params) {
    && KeyedOnPeriods(p.generation, p.n)
    && KeyedOnPeriods(p.demand, p.n)
    && KeyedOnPeriods(p.heatDemand, p.n)
    && KeyedOnPeriods(p.energyPriceBuy, p.n)
    && KeyedOnPeriods(p.energyPriceSell, p.n)
    && KeyedOnPeriods(p.gridEnergyImportFee, p.n)
    && KeyedOnPeriods(p.gridEnergyExportFee, p.n)
    && KeyedOnPeriods(p.gridPowerImportFee, p.n)
    && KeyedOnPeriods(p.gridPowerExportFee, p.n)
    && KeyedOnPeriods(p.monthOrder, p.n)
  }
}
