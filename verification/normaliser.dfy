/** The input normaliser: turns a scenario into a fully populated parameter
    record. Periods are 1..n with n the length of the generation series;
    each series is re-keyed onto the periods in order; demand and heat demand
    default to zero series; every optional scalar takes a fixed default. */
module Normaliser {
  import opened Wrappers
  import opened Parameters

  /** Period `t` is keyed to element `t - 1` of `xs`, for exactly the periods
      1..n that have an element: pairing the periods with a list stops at
      the shorter of the two, so a long list is cut and a short one leaves
      the later periods without a value. */
  predicate ZippedFrom<T(==)>(m: map<int, T>, n: nat, xs: seq<T>) {
    && (forall t: int :: 1 <= t <= n && t <= |xs| ==> t in m && m[t] == xs[t - 1])
    && (forall t | t in m :: 1 <= t <= n && t <= |xs|)
  }

  /** `o`'s value when the key is present, `d` when it is absent. */
  predicate Defaulted<T(==)>(o: Option<T>, d: T, v: T) {
    && (o.None? ==> v == d)
    && (o.Some? ==> v == o.value)
  }

  /** Element `t` of `xs`, counting from 1 as periods do. */
  function Element<T>(xs: seq<T>, t: int): T
    requires 1 <= t <= |xs|
  {
    xs[t - 1]
  }

  /** Pairs the periods 1..n with the elements of `xs`, in order. */
  function Zip<T(==)>(n: nat, xs: seq<T>): (m: map<int, T>)
    ensures ZippedFrom(m, n, xs)
  {
    var k := if |xs| < n then |xs| else n;
    map t | 1 <= t <= k :: Element(xs, t)
  }

  /** The series `xs` when supplied, otherwise `n` zeros. */
  function SeriesOrZero(n: nat, xs: Option<seq<real>>): seq<real> {
    xs.GetOr(seq(n, _ => 0.0))
  }

  function ModelInput(s: Scenario): (p: Params)
    ensures p.n == |s.generation|
    ensures KeyedOnPeriods(p.generation, p.n)
    ensures ZippedFrom(p.generation, p.n, s.generation)
    ensures s.demand.None? ==> KeyedOnPeriods(p.demand, p.n) && forall t | t in p.demand :: p.demand[t] == 0.0
    ensures s.demand.Some? ==> ZippedFrom(p.demand, p.n, s.demand.value)
    ensures s.heatDemand.None? ==> KeyedOnPeriods(p.heatDemand, p.n) && forall t | t in p.heatDemand :: p.heatDemand[t] == 0.0
    ensures s.heatDemand.Some? ==> ZippedFrom(p.heatDemand, p.n, s.heatDemand.value)
    ensures ZippedFrom(p.energyPriceBuy, p.n, s.energyPriceBuy)
    ensures ZippedFrom(p.energyPriceSell, p.n, s.energyPriceSell)
    ensures p.gridFixedFee == s.gridFixedFee
    ensures ZippedFrom(p.gridEnergyImportFee, p.n, s.gridEnergyImportFee)
    ensures ZippedFrom(p.gridEnergyExportFee, p.n, s.gridEnergyExportFee)
    ensures ZippedFrom(p.gridPowerImportFee, p.n, s.gridPowerImportFee)
    ensures ZippedFrom(p.gridPowerExportFee, p.n, s.gridPowerExportFee)
    ensures ZippedFrom(p.monthOrder, p.n, s.monthOrder)
    ensures Defaulted(s.batteryCapacity, 0.0, p.batteryCapacity)
    ensures Defaulted(s.batteryMinLevel, 0.0, p.batteryMinLevel)
    ensures Defaulted(s.batteryChargeMax, 1.0, p.batteryChargeMax)
    ensures Defaulted(s.batteryDischargeMax, 1.0, p.batteryDischargeMax)
    ensures Defaulted(s.batteryEfficiencyCharge, 0.95, p.batteryEfficiencyCharge)
    ensures Defaulted(s.batteryEfficiencyDischarge, 0.95, p.batteryEfficiencyDischarge)
    ensures Defaulted(s.belIniLevel, 0.0, p.belIniLevel)
    ensures Defaulted(s.belFinLevel, 0.0, p.belFinLevel)
    ensures Defaulted(s.batteryGridCharging, true, p.batteryGridCharging)
    ensures Defaulted(s.tesCapacity, 0.0, p.tesCapacity)
    ensures Defaulted(s.tesMinLevel, 0.0, p.tesMinLevel)
    ensures Defaulted(s.tesChargeMax, 1.0, p.tesChargeMax)
    ensures Defaulted(s.tesDischargeMax, 1.0, p.tesDischargeMax)
    ensures Defaulted(s.tesLosses, 0.02, p.tesLosses)
    ensures Defaulted(s.tesIniLevel, 0.0, p.tesIniLevel)
    ensures Defaulted(s.tesFinLevel, 0.0, p.tesFinLevel)
    ensures Defaulted(s.fuelPrice, 0.0, p.fuelPrice)
    ensures Defaulted(s.heatPumpCapacity, 0.0, p.heatPumpCapacity)
    ensures Defaulted(s.heatPumpCop, 1.0, p.heatPumpCop)
    ensures Defaulted(s.boilerCapacity, 0.0, p.boilerCapacity)
    ensures Defaulted(s.boilerEfficiency, 0.95, p.boilerEfficiency)
    ensures Defaulted(s.dt, 1.0, p.dt)
  {
    var n := |s.generation|;
    Params(
      n := n,
      generation := Zip(n, s.generation),
      demand := Zip(n, SeriesOrZero(n, s.demand)),
      heatDemand := Zip(n, SeriesOrZero(n, s.heatDemand)),
      batteryMinLevel := s.batteryMinLevel.GetOr(0.0),
      batteryCapacity := s.batteryCapacity.GetOr(0.0),
      batteryChargeMax := s.batteryChargeMax.GetOr(1.0),
      batteryDischargeMax := s.batteryDischargeMax.GetOr(1.0),
      batteryEfficiencyCharge := s.batteryEfficiencyCharge.GetOr(0.95),
      batteryEfficiencyDischarge := s.batteryEfficiencyDischarge.GetOr(0.95),
      belIniLevel := s.belIniLevel.GetOr(0.0),
      belFinLevel := s.belFinLevel.GetOr(0.0),
      batteryGridCharging := s.batteryGridCharging.GetOr(true),
      tesMinLevel := s.tesMinLevel.GetOr(0.0),
      tesCapacity := s.tesCapacity.GetOr(0.0),
      tesChargeMax := s.tesChargeMax.GetOr(1.0),
      tesDischargeMax := s.tesDischargeMax.GetOr(1.0),
      tesLosses := s.tesLosses.GetOr(0.02),
      tesIniLevel := s.tesIniLevel.GetOr(0.0),
      tesFinLevel := s.tesFinLevel.GetOr(0.0),
      energyPriceBuy := Zip(n, s.energyPriceBuy),
      energyPriceSell := Zip(n, s.energyPriceSell),
      gridFixedFee := s.gridFixedFee,
      gridEnergyImportFee := Zip(n, s.gridEnergyImportFee),
      gridEnergyExportFee := Zip(n, s.gridEnergyExportFee),
      gridPowerImportFee := Zip(n, s.gridPowerImportFee),
      gridPowerExportFee := Zip(n, s.gridPowerExportFee),
      fuelPrice := s.fuelPrice.GetOr(0.0),
      heatPumpCapacity := s.heatPumpCapacity.GetOr(0.0),
      heatPumpCop := s.heatPumpCop.GetOr(1.0),
      boilerCapacity := s.boilerCapacity.GetOr(0.0),
      boilerEfficiency := s.boilerEfficiency.GetOr(0.95),
      monthOrder := Zip(n, s.monthOrder),
      dt := s.dt.GetOr(1.0))
  }

  /** Every series of `s` reaches the last period. */
  predicate LongEnough(s: Scenario) {
    var n := |s.generation|;
    && (s.demand.Some? ==> |s.demand.value| >= n)
    && (s.heatDemand.Some? ==> |s.heatDemand.value| >= n)
    && |s.energyPriceBuy| >= n
    && |s.energyPriceSell| >= n
    && |s.gridEnergyImportFee| >= n
    && |s.gridEnergyExportFee| >= n
    && |s.gridPowerImportFee| >= n
    && |s.gridPowerExportFee| >= n
    && |s.monthOrder| >= n
  }

  /** Every series of `s` has exactly one element per period. */
  predicate Aligned(s: Scenario) {
    var n := |s.generation|;
    && (s.demand.Some? ==> |s.demand.value| == n)
    && (s.heatDemand.Some? ==> |s.heatDemand.value| == n)
    && |s.energyPriceBuy| == n
    && |s.energyPriceSell| == n
    && |s.gridEnergyImportFee| == n
    && |s.gridEnergyExportFee| == n
    && |s.gridPowerImportFee| == n
    && |s.gridPowerExportFee| == n
    && |s.monthOrder| == n
  }

  lemma ZipCovers<T>(n: nat, xs: seq<T>)
    ensures Covers(Zip(n, xs), n) <==> |xs| >= n
  {
    if Covers(Zip(n, xs), n) && n > 0 {
      assert n in Zip(n, xs);
    }
  }

  /** The normalised record defines every series at every period exactly
      when no supplied series is shorter than the generation series. */
  lemma {:induction false} WellFormedIffLongEnough(s: Scenario)
    ensures WellFormed(ModelInput(s)) <==> LongEnough(s)
  {
    var n := |s.generation|;
    ZipCovers(n, s.generation);
    ZipCovers(n, SeriesOrZero(n, s.demand));
    ZipCovers(n, SeriesOrZero(n, s.heatDemand));
    ZipCovers(n, s.energyPriceBuy);
    ZipCovers(n, s.energyPriceSell);
    ZipCovers(n, s.gridEnergyImportFee);
    ZipCovers(n, s.gridEnergyExportFee);
    ZipCovers(n, s.gridPowerImportFee);
    ZipCovers(n, s.gridPowerExportFee);
    ZipCovers(n, s.monthOrder);
  }

  /** Series of one common length are keyed on exactly the periods. */
  lemma AlignedIsWellFormed(s: Scenario)
    requires Aligned(s)
    ensures WellFormed(ModelInput(s))
  {
    WellFormedIffLongEnough(s);
  }

  /** `xs` cut to its first `n` elements, or left alone when shorter. */
  function Cut<T>(xs: seq<T>, n: nat): seq<T> {
    if |xs| <= n then xs else xs[..n]
  }

  function CutOption<T>(o: Option<seq<T>>, n: nat): Option<seq<T>> {
    match o
    case None => None
    case Some(xs) => Some(Cut(xs, n))
  }

  /** `s` with every series cut to the length of its generation series. */
  function Trim(s: Scenario): (r: Scenario)
    ensures |r.generation| == |s.generation|
  {
    var n := |s.generation|;
    s.(demand := CutOption(s.demand, n),
       heatDemand := CutOption(s.heatDemand, n),
       energyPriceBuy := Cut(s.energyPriceBuy, n),
       energyPriceSell := Cut(s.energyPriceSell, n),
       gridEnergyImportFee := Cut(s.gridEnergyImportFee, n),
       gridEnergyExportFee := Cut(s.gridEnergyExportFee, n),
       gridPowerImportFee := Cut(s.gridPowerImportFee, n),
       gridPowerExportFee := Cut(s.gridPowerExportFee, n),
       monthOrder := Cut(s.monthOrder, n))
  }

  lemma ZipCut<T>(n: nat, xs: seq<T>)
    ensures Zip(n, Cut(xs, n)) == Zip(n, xs)
  {
  }

  /** Elements past the last period are ignored: normalising a scenario
      and normalising it with every series cut to the horizon agree. */
  lemma TrailingElementsIgnored(s: Scenario)
    ensures ModelInput(Trim(s)) == ModelInput(s)
  {
    var n := |s.generation|;
    ZipCut(n, s.energyPriceBuy);
    ZipCut(n, s.energyPriceSell);
    ZipCut(n, s.gridEnergyImportFee);
    ZipCut(n, s.gridEnergyExportFee);
    ZipCut(n, s.gridPowerImportFee);
    ZipCut(n, s.gridPowerExportFee);
    ZipCut(n, s.monthOrder);
    ZipCut(n, SeriesOrZero(n, s.demand));
    ZipCut(n, SeriesOrZero(n, s.heatDemand));
  }

  /** The list of the values of `m` at periods 1..n, in order. */
  function Unzip<T>(m: map<int, T>, n: nat): (xs: seq<T>)
    requires Covers(m, n)
    ensures |xs| == n
  {
    seq(n, i requires 0 <= i < n => m[i + 1])
  }

  /** A scenario that supplies every key, with the values of `p`. */
  function Denormalise(p: Params): (s: Scenario)
    requires WellFormed(p)
  {
    Scenario(
      generation := Unzip(p.generation, p.n),
      demand := Some(Unzip(p.demand, p.n)),
      heatDemand := Some(Unzip(p.heatDemand, p.n)),
      batteryCapacity := Some(p.batteryCapacity),
      batteryMinLevel := Some(p.batteryMinLevel),
      batteryChargeMax := Some(p.batteryChargeMax),
      batteryDischargeMax := Some(p.batteryDischargeMax),
      batteryEfficiencyCharge := Some(p.batteryEfficiencyCharge),
      batteryEfficiencyDischarge := Some(p.batteryEfficiencyDischarge),
      belIniLevel := Some(p.belIniLevel),
      belFinLevel := Some(p.belFinLevel),
      batteryGridCharging := Some(p.batteryGridCharging),
      tesCapacity := Some(p.tesCapacity),
      tesMinLevel := Some(p.tesMinLevel),
      tesChargeMax := Some(p.tesChargeMax),
      tesDischargeMax := Some(p.tesDischargeMax),
      tesLosses := Some(p.tesLosses),
      tesIniLevel := Some(p.tesIniLevel),
      tesFinLevel := Some(p.tesFinLevel),
      energyPriceBuy := Unzip(p.energyPriceBuy, p.n),
      energyPriceSell := Unzip(p.energyPriceSell, p.n),
      gridFixedFee := p.gridFixedFee,
      gridEnergyImportFee := Unzip(p.gridEnergyImportFee, p.n),
      gridEnergyExportFee := Unzip(p.gridEnergyExportFee, p.n),
      gridPowerImportFee := Unzip(p.gridPowerImportFee, p.n),
      gridPowerExportFee := Unzip(p.gridPowerExportFee, p.n),
      fuelPrice := Some(p.fuelPrice),
      heatPumpCapacity := Some(p.heatPumpCapacity),
      heatPumpCop := Some(p.heatPumpCop),
      boilerCapacity := Some(p.boilerCapacity),
      boilerEfficiency := Some(p.boilerEfficiency),
      dt := Some(p.dt),
      monthOrder := Unzip(p.monthOrder, p.n))
  }

  /** Every optional key is present. */
  predicate Complete(s: Scenario) {
    && s.demand.Some? && s.heatDemand.Some?
    && s.batteryCapacity.Some? && s.batteryMinLevel.Some? && s.batteryChargeMax.Some?
    && s.batteryDischargeMax.Some? && s.batteryEfficiencyCharge.Some?
    && s.batteryEfficiencyDischarge.Some? && s.belIniLevel.Some? && s.belFinLevel.Some?
    && s.batteryGridCharging.Some?
    && s.tesCapacity.Some? && s.tesMinLevel.Some? && s.tesChargeMax.Some?
    && s.tesDischargeMax.Some? && s.tesLosses.Some? && s.tesIniLevel.Some? && s.tesFinLevel.Some?
    && s.fuelPrice.Some? && s.heatPumpCapacity.Some? && s.heatPumpCop.Some?
    && s.boilerCapacity.Some? && s.boilerEfficiency.Some? && s.dt.Some?
  }

  lemma ZipUnzip<T>(m: map<int, T>, n: nat)
    requires KeyedOnPeriods(m, n)
    ensures Zip(n, Unzip(m, n)) == m
  {
    var z := Zip(n, Unzip(m, n));
    assert forall t :: t in z <==> t in m;
  }

  lemma UnzipZip<T>(n: nat, xs: seq<T>)
    requires |xs| == n
    ensures Unzip(Zip(n, xs), n) == xs
  {
  }

  /** Normalising the scenario that spells out a record gives the record
      back: present keys pass through unchanged. */
  lemma {:induction false} NormaliseRoundTrip(p: Params)
    requires WellFormed(p)
    ensures ModelInput(Denormalise(p)) == p
  {
    ZipUnzip(p.generation, p.n);
    ZipUnzip(p.demand, p.n);
    ZipUnzip(p.heatDemand, p.n);
    ZipUnzip(p.energyPriceBuy, p.n);
    ZipUnzip(p.energyPriceSell, p.n);
    ZipUnzip(p.gridEnergyImportFee, p.n);
    ZipUnzip(p.gridEnergyExportFee, p.n);
    ZipUnzip(p.gridPowerImportFee, p.n);
    ZipUnzip(p.gridPowerExportFee, p.n);
    ZipUnzip(p.monthOrder, p.n);
  }

  /** A scenario that supplies every key, with series of one common length,
      is recovered from its normalised record. */
  lemma {:induction false} CompleteScenarioRoundTrip(s: Scenario)
    requires Aligned(s) && Complete(s)
    ensures WellFormed(ModelInput(s)) && Denormalise(ModelInput(s)) == s
  {
    AlignedIsWellFormed(s);
    var n := |s.generation|;
    UnzipZip(n, s.generation);
    UnzipZip(n, s.demand.value);
    UnzipZip(n, s.heatDemand.value);
    UnzipZip(n, s.energyPriceBuy);
    UnzipZip(n, s.energyPriceSell);
    UnzipZip(n, s.gridEnergyImportFee);
    UnzipZip(n, s.gridEnergyExportFee);
    UnzipZip(n, s.gridPowerImportFee);
    UnzipZip(n, s.gridPowerExportFee);
    UnzipZip(n, s.monthOrder);
  }
}
