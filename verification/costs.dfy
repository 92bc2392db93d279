/** The objective's value as a sum of cost variables: every per-period
    energy, grid-energy and fuel cost, each month's two demand-charge peaks
    once, and the fixed cost. */
module Costs {
  import opened Wrappers
  import opened Parameters
  import opened Lp
  import opened Formulation

  /** Energy and grid-energy costs of periods 1..k. */
  function PeriodCosts(x: VarId -> real, k: nat): (c: real) {
    if k == 0 then 0.0
    else PeriodCosts(x, k - 1) + x(At(CostEnergy, k)) + x(At(CostGridEnergyImport, k)) + x(At(CostGridEnergyExport, k))
  }

  /** Import and export demand-charge peaks of the months `ms`. */
  function MonthPeaks(x: VarId -> real, ms: seq<int>): (c: real) {
    if |ms| == 0 then 0.0
    else x(InMonth(CostGridPowerImportMax, ms[0])) + x(InMonth(CostGridPowerExportMax, ms[0])) + MonthPeaks(x, ms[1..])
  }

  /** Fuel costs of periods 1..k. */
  function FuelCosts(x: VarId -> real, k: nat): (c: real) {
    if k == 0 then 0.0 else FuelCosts(x, k - 1) + x(At(CostFuel, k))
  }

  /** The total cost the operator pays under assignment `x`. */
  function TotalCost(p: Params, x: VarId -> real): (c: real)
    requires WellFormed(p)
  {
    PeriodCosts(x, p.n) + MonthPeaks(x, MonthList(p, p.n)) + x(CostGridFixed) + FuelCosts(x, p.n)
  }

  lemma {:induction false} PeriodCostTermsSum(x: VarId -> real, k: nat)
    ensures Eval(PeriodCostTerms(k), x) == PeriodCosts(x, k)
  {
    if k > 0 {
      PeriodCostTermsSum(x, k - 1);
      var a := Term(1.0, At(CostEnergy, k));
      var b := Term(1.0, At(CostGridEnergyImport, k));
      var c := Term(1.0, At(CostGridEnergyExport, k));
      EvalAppend(PeriodCostTerms(k - 1), [a, b, c], x);
      Eval3(a, b, c, x);
    }
  }

  lemma {:induction false} MonthCostTermsSum(x: VarId -> real, ms: seq<int>)
    ensures Eval(MonthCostTerms(ms), x) == MonthPeaks(x, ms)
  {
    if |ms| > 0 {
      MonthCostTermsSum(x, ms[1..]);
      var a := Term(1.0, InMonth(CostGridPowerImportMax, ms[0]));
      var b := Term(1.0, InMonth(CostGridPowerExportMax, ms[0]));
      EvalAppend([a, b], MonthCostTerms(ms[1..]), x);
      Eval2(a, b, x);
    }
  }

  lemma {:induction false} FuelCostTermsSum(x: VarId -> real, k: nat)
    ensures Eval(FuelCostTerms(k), x) == FuelCosts(x, k)
  {
    if k > 0 {
      FuelCostTermsSum(x, k - 1);
      var a := Term(1.0, At(CostFuel, k));
      EvalAppend(FuelCostTerms(k - 1), [a], x);
      Eval1(a, x);
    }
  }

  /** The built objective evaluates to the total cost: each cost variable
      once, with the demand-charge peaks once per distinct month. */
  lemma ObjectiveIsTotalCost(p: Params, sys: Problem, x: VarId -> real)
    requires WellFormed(p) && Build(p) == Success(sys)
    ensures ObjectiveValue(sys, x) == TotalCost(p, x)
  {
    assert sys.objective == Objective(p);
    var ms := MonthList(p, p.n);
    var fixed := Term(1.0, CostGridFixed);
    PeriodCostTermsSum(x, p.n);
    MonthCostTermsSum(x, ms);
    FuelCostTermsSum(x, p.n);
    Eval1(fixed, x);
    EvalAppend(PeriodCostTerms(p.n), MonthCostTerms(ms), x);
    EvalAppend(PeriodCostTerms(p.n) + MonthCostTerms(ms), [fixed], x);
    EvalAppend(PeriodCostTerms(p.n) + MonthCostTerms(ms) + [fixed], FuelCostTerms(p.n), x);
  }
}
