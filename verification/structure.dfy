/** Structural facts about the built problem: which variables exist and
    with which bounds, which rows exist, which variables are pinned, and
    what the objective sums. */
module Structure {
  import opened Wrappers
  import opened Parameters
  import opened Lp
  import opened Formulation

  lemma EveryPeriodVar(f: PeriodVar)
    ensures f in PeriodVars
  {
  }

  lemma EveryMonthVar(g: MonthVar)
    ensures g in MonthVars
  {
  }

  lemma EveryConstraint(c: Constraint)
    ensures c in Constraints
  {
  }

  /** The variables the problem declares: every period family at every
      period, both monthly peaks at every month in use, and the fixed cost. */
  predicate IsDeclared(p: Params, v: VarId)
    requires WellFormed(p)
  {
    match v
    case At(_, t) => 1 <= t <= p.n
    case InMonth(_, m) => m in Months(p)
    case CostGridFixed => true
  }

  lemma VariablesDeclared(p: Params, sys: Problem)
    requires WellFormed(p) && Build(p) == Success(sys)
    ensures forall v :: v in sys.vars <==> IsDeclared(p, v)
  {
    forall v
      ensures v in sys.vars <==> IsDeclared(p, v)
    {
      match v
      case At(f, t) =>
        EveryPeriodVar(f);
        if 1 <= t <= p.n {
          assert v in DeclaredVars(p);
        }
      case InMonth(g, m) =>
        EveryMonthVar(g);
        if m in Months(p) {
          assert v in DeclaredVars(p);
        }
      case CostGridFixed =>
    }
  }

  lemma PeriodDecl(p: Params, sys: Problem, f: PeriodVar, t: int)
    requires WellFormed(p) && Build(p) == Success(sys) && 1 <= t <= p.n
    ensures Declares(sys, At(f, t), Decl(p, f))
  {
    EveryPeriodVar(f);
    assert At(f, t) in DeclaredVars(p);
    assert sys.vars == Variables(p);
  }

  lemma MonthDecl(p: Params, sys: Problem, g: MonthVar, m: int)
    requires WellFormed(p) && Build(p) == Success(sys) && m in Months(p)
    ensures Declares(sys, InMonth(g, m), VarDecl(Reals, None, None))
  {
    EveryMonthVar(g);
    assert InMonth(g, m) in DeclaredVars(p);
    assert sys.vars == Variables(p);
  }

  /** Unfolds `Decl` for the bounded families at once; it adds nothing to
      `Decl` and only spares its callers one unfolding per family. */
  lemma DeclValues(p: Params)
    ensures Decl(p, Bel) == VarDecl(NonNegativeReals, Some(OfCapacity(p.batteryMinLevel, p.batteryCapacity)), Some(p.batteryCapacity))
    ensures Decl(p, BIn) == VarDecl(NonNegativeReals, Some(0.0), Some(OfCapacity(p.batteryChargeMax, p.batteryCapacity)))
    ensures Decl(p, BOut) == VarDecl(NonNegativeReals, Some(0.0), Some(OfCapacity(p.batteryDischargeMax, p.batteryCapacity)))
    ensures Decl(p, Tes) == VarDecl(NonNegativeReals, Some(OfCapacity(p.tesMinLevel, p.tesCapacity)), Some(p.tesCapacity))
    ensures Decl(p, TesIn) == VarDecl(NonNegativeReals, Some(0.0), Some(OfCapacity(p.tesChargeMax, p.tesCapacity)))
    ensures Decl(p, TesOut) == VarDecl(NonNegativeReals, Some(0.0), Some(OfCapacity(p.tesDischargeMax, p.tesCapacity)))
    ensures Decl(p, QHp) == VarDecl(NonNegativeReals, Some(0.0), Some(p.heatPumpCapacity))
    ensures Decl(p, QBo) == VarDecl(NonNegativeReals, Some(0.0), Some(p.boilerCapacity))
  {
  }

  lemma FixedDecl(p: Params, sys: Problem)
    requires WellFormed(p) && Build(p) == Success(sys)
    ensures Declares(sys, CostGridFixed, VarDecl(Reals, None, None))
  {
    assert CostGridFixed in DeclaredVars(p);
    assert sys.vars == Variables(p);
  }

  /** The grid flows and the demand charges are non-negative and have no
      bounds. */
  lemma GridFlowDecls(p: Params, sys: Problem, t: int)
    requires WellFormed(p) && Build(p) == Success(sys) && 1 <= t <= p.n
    ensures Declares(sys, At(PBuy, t), VarDecl(NonNegativeReals, None, None))
    ensures Declares(sys, At(PSell, t), VarDecl(NonNegativeReals, None, None))
    ensures Declares(sys, At(CostGridPowerImport, t), VarDecl(NonNegativeReals, None, None))
    ensures Declares(sys, At(CostGridPowerExport, t), VarDecl(NonNegativeReals, None, None))
  {
    PeriodDecl(p, sys, PBuy, t);
    PeriodDecl(p, sys, PSell, t);
    PeriodDecl(p, sys, CostGridPowerImport, t);
    PeriodDecl(p, sys, CostGridPowerExport, t);
  }

  /** Heat-pump power and boiler fuel are non-negative and have no bounds. */
  lemma ConversionInputDecls(p: Params, sys: Problem, t: int)
    requires WellFormed(p) && Build(p) == Success(sys) && 1 <= t <= p.n
    ensures Declares(sys, At(PHp, t), VarDecl(NonNegativeReals, None, None))
    ensures Declares(sys, At(FBo, t), VarDecl(NonNegativeReals, None, None))
  {
    PeriodDecl(p, sys, PHp, t);
    PeriodDecl(p, sys, FBo, t);
  }

  /** The energy, grid-energy and fuel costs are free. */
  lemma FreeCostDecls(p: Params, sys: Problem, t: int)
    requires WellFormed(p) && Build(p) == Success(sys) && 1 <= t <= p.n
    ensures Declares(sys, At(CostEnergy, t), VarDecl(Reals, None, None))
    ensures Declares(sys, At(CostGridEnergyImport, t), VarDecl(Reals, None, None))
    ensures Declares(sys, At(CostGridEnergyExport, t), VarDecl(Reals, None, None))
    ensures Declares(sys, At(CostFuel, t), VarDecl(Reals, None, None))
  {
    PeriodDecl(p, sys, CostEnergy, t);
    PeriodDecl(p, sys, CostGridEnergyImport, t);
    PeriodDecl(p, sys, CostGridEnergyExport, t);
    PeriodDecl(p, sys, CostFuel, t);
  }

  /** Every storage, heat-pump and boiler variable is bounded by products of
      the parameters; the grid flows, demand charges, heat-pump power and
      boiler fuel are only non-negative; the costs and monthly peaks are
      free. */
  lemma BoundsAreParameterProducts(p: Params, sys: Problem, t: int, m: int)
    requires WellFormed(p) && Build(p) == Success(sys) && 1 <= t <= p.n
    ensures Declares(sys, At(Bel, t), VarDecl(NonNegativeReals, Some(OfCapacity(p.batteryMinLevel, p.batteryCapacity)), Some(p.batteryCapacity)))
    ensures Declares(sys, At(BIn, t), VarDecl(NonNegativeReals, Some(0.0), Some(OfCapacity(p.batteryChargeMax, p.batteryCapacity))))
    ensures Declares(sys, At(BOut, t), VarDecl(NonNegativeReals, Some(0.0), Some(OfCapacity(p.batteryDischargeMax, p.batteryCapacity))))
    ensures Declares(sys, At(Tes, t), VarDecl(NonNegativeReals, Some(OfCapacity(p.tesMinLevel, p.tesCapacity)), Some(p.tesCapacity)))
    ensures Declares(sys, At(TesIn, t), VarDecl(NonNegativeReals, Some(0.0), Some(OfCapacity(p.tesChargeMax, p.tesCapacity))))
    ensures Declares(sys, At(TesOut, t), VarDecl(NonNegativeReals, Some(0.0), Some(OfCapacity(p.tesDischargeMax, p.tesCapacity))))
    ensures Declares(sys, At(QHp, t), VarDecl(NonNegativeReals, Some(0.0), Some(p.heatPumpCapacity)))
    ensures Declares(sys, At(QBo, t), VarDecl(NonNegativeReals, Some(0.0), Some(p.boilerCapacity)))
    ensures Declares(sys, At(PBuy, t), VarDecl(NonNegativeReals, None, None))
    ensures Declares(sys, At(PSell, t), VarDecl(NonNegativeReals, None, None))
    ensures Declares(sys, At(CostGridPowerImport, t), VarDecl(NonNegativeReals, None, None))
    ensures Declares(sys, At(CostGridPowerExport, t), VarDecl(NonNegativeReals, None, None))
    ensures Declares(sys, At(PHp, t), VarDecl(NonNegativeReals, None, None))
    ensures Declares(sys, At(FBo, t), VarDecl(NonNegativeReals, None, None))
    ensures Declares(sys, At(CostEnergy, t), VarDecl(Reals, None, None))
    ensures Declares(sys, At(CostGridEnergyImport, t), VarDecl(Reals, None, None))
    ensures Declares(sys, At(CostGridEnergyExport, t), VarDecl(Reals, None, None))
    ensures Declares(sys, At(CostFuel, t), VarDecl(Reals, None, None))
    ensures Declares(sys, CostGridFixed, VarDecl(Reals, None, None))
    ensures m in Months(p) ==> Declares(sys, InMonth(CostGridPowerImportMax, m), VarDecl(Reals, None, None))
    ensures m in Months(p) ==> Declares(sys, InMonth(CostGridPowerExportMax, m), VarDecl(Reals, None, None))
  {
    DeclValues(p);
    PeriodDecl(p, sys, Bel, t);
    PeriodDecl(p, sys, BIn, t);
    PeriodDecl(p, sys, BOut, t);
    PeriodDecl(p, sys, Tes, t);
    PeriodDecl(p, sys, TesIn, t);
    PeriodDecl(p, sys, TesOut, t);
    PeriodDecl(p, sys, QHp, t);
    PeriodDecl(p, sys, QBo, t);
    GridFlowDecls(p, sys, t);
    ConversionInputDecls(p, sys, t);
    FreeCostDecls(p, sys, t);
    FixedDecl(p, sys);
    if m in Months(p) {
      MonthDecl(p, sys, CostGridPowerImportMax, m);
      MonthDecl(p, sys, CostGridPowerExportMax, m);
    }
  }

  /** Every active constraint family has exactly one row at each period and
      none elsewhere; the no-grid-charging rows exist at every period when
      grid charging is forbidden and at none when it is allowed; the
      fixed-cost row exists once. */
  lemma RowFamilies(p: Params, sys: Problem)
    requires WellFormed(p) && Build(p) == Success(sys)
    ensures forall c, t :: Indexed(c, t) in sys.rows <==>
              1 <= t <= p.n && (c == NoGridCharging ==> !p.batteryGridCharging)
    ensures forall t :: Indexed(NoGridCharging, t) in sys.rows <==> !p.batteryGridCharging && 1 <= t <= p.n
    ensures GridFixedCost in sys.rows
    ensures forall r | r in sys.rows :: r.Indexed? || r == GridFixedCost
  {
    forall c, t
      ensures Indexed(c, t) in sys.rows <==>
                1 <= t <= p.n && (c == NoGridCharging ==> !p.batteryGridCharging)
    {
      EveryConstraint(c);
      if 1 <= t <= p.n && (c == NoGridCharging ==> !p.batteryGridCharging) {
        assert c in ActiveConstraints(p);
        assert Indexed(c, t) in RowIds(p);
      }
    }
  }

  /** The battery level at the last period is pinned to its final level
      exactly when that level is positive, and likewise the thermal storage
      level; no other variable is pinned. */
  lemma TerminalPins(p: Params, sys: Problem)
    requires WellFormed(p) && Build(p) == Success(sys)
    ensures At(Bel, p.n) in sys.pins <==> p.belFinLevel > 0.0
    ensures At(Tes, p.n) in sys.pins <==> p.tesFinLevel > 0.0
    ensures p.belFinLevel > 0.0 ==> sys.pins[At(Bel, p.n)] == OfCapacity(p.belFinLevel, p.batteryCapacity)
    ensures p.tesFinLevel > 0.0 ==> sys.pins[At(Tes, p.n)] == OfCapacity(p.tesFinLevel, p.tesCapacity)
    ensures forall v | v in sys.pins :: v == At(Bel, p.n) || v == At(Tes, p.n)
    ensures p.belFinLevel > 0.0 || p.tesFinLevel > 0.0 ==> p.n >= 1
  {
    assert sys.pins == Pins(p);
    var bel := if p.belFinLevel > 0.0 then map[At(Bel, p.n) := OfCapacity(p.belFinLevel, p.batteryCapacity)] else map[];
    var tes := if p.tesFinLevel > 0.0 then map[At(Tes, p.n) := OfCapacity(p.tesFinLevel, p.tesCapacity)] else map[];
    assert Pins(p) == bel + tes;
    assert At(Bel, p.n) !in tes;
  }

  /** A period variable is pinned exactly when it is a terminal level whose
      final-level parameter is positive. */
  lemma PinnedExactly(p: Params, sys: Problem, f: PeriodVar, t: int)
    requires WellFormed(p) && Build(p) == Success(sys)
    ensures At(f, t) in sys.pins <==> Pinned(p, f, t)
  {
    TerminalPins(p, sys);
  }

  /** The variables the objective sums: the per-period energy, grid-energy
      and fuel costs, the monthly peaks and the fixed cost. */
  predicate IsCostVar(v: VarId) {
    match v
    case At(f, _) => f in {CostEnergy, CostGridEnergyImport, CostGridEnergyExport, CostFuel}
    case InMonth(_, _) => true
    case CostGridFixed => true
  }

  lemma {:induction false} PeriodCostCoefficients(k: nat, v: VarId)
    ensures Coefficient(PeriodCostTerms(k), v) ==
              if v.At? && v.f in {CostEnergy, CostGridEnergyImport, CostGridEnergyExport} && 1 <= v.t <= k
              then 1.0 else 0.0
  {
    if k > 0 {
      var a, b, c := Term(1.0, At(CostEnergy, k)), Term(1.0, At(CostGridEnergyImport, k)), Term(1.0, At(CostGridEnergyExport, k));
      PeriodCostCoefficients(k - 1, v);
      CoefficientAppend(PeriodCostTerms(k - 1), [a, b, c], v);
      CoefficientAppend([a], [b, c], v);
      assert [a] + [b, c] == [a, b, c];
      CoefficientSingle(a, v);
      CoefficientPair(b, c, v);
    }
  }

  lemma {:induction false} FuelCostCoefficients(k: nat, v: VarId)
    ensures Coefficient(FuelCostTerms(k), v) == if v.At? && v.f == CostFuel && 1 <= v.t <= k then 1.0 else 0.0
  {
    if k > 0 {
      FuelCostCoefficients(k - 1, v);
      CoefficientAppend(FuelCostTerms(k - 1), [Term(1.0, At(CostFuel, k))], v);
      CoefficientSingle(Term(1.0, At(CostFuel, k)), v);
    }
  }

  lemma {:induction false} MonthCostCoefficients(ms: seq<int>, v: VarId)
    requires forall i, j | 0 <= i < j < |ms| :: ms[i] != ms[j]
    ensures Coefficient(MonthCostTerms(ms), v) == if v.InMonth? && v.m in ms then 1.0 else 0.0
  {
    if |ms| > 0 {
      var first := [Term(1.0, InMonth(CostGridPowerImportMax, ms[0])), Term(1.0, InMonth(CostGridPowerExportMax, ms[0]))];
      MonthCostCoefficients(ms[1..], v);
      CoefficientAppend(first, MonthCostTerms(ms[1..]), v);
      CoefficientPair(first[0], first[1], v);
      assert first == [first[0], first[1]];
      assert MonthCostTerms(ms) == first + MonthCostTerms(ms[1..]);
      assert ms == [ms[0]] + ms[1..];
      assert ms[0] !in ms[1..] by {
        forall i | 0 <= i < |ms[1..]|
          ensures ms[1..][i] != ms[0]
        {
          assert ms[1..][i] == ms[i + 1];
        }
      }
      if v.InMonth? && v.m == ms[0] {
        assert first[0].v == InMonth(CostGridPowerImportMax, ms[0]) && first[0].coef == 1.0;
        assert first[1].v == InMonth(CostGridPowerExportMax, ms[0]) && first[1].coef == 1.0;
        if v.g == CostGridPowerImportMax {
          assert first[0].v == v && first[1].v != v;
        } else {
          assert first[0].v != v && first[1].v == v;
        }
        assert Coefficient(first, v) == 1.0;
      } else {
        assert Coefficient(first, v) == 0.0;
      }
    }
  }

  /** The objective is a plain sum: every declared cost variable has
      coefficient one, every other variable coefficient zero. */
  lemma ObjectiveIsPlainSum(p: Params, sys: Problem, v: VarId)
    requires WellFormed(p) && Build(p) == Success(sys)
    ensures Coefficient(sys.objective, v) == if IsCostVar(v) && v in sys.vars then 1.0 else 0.0
  {
    VariablesDeclared(p, sys);
    var ms := MonthList(p, p.n);
    PeriodCostCoefficients(p.n, v);
    MonthCostCoefficients(ms, v);
    FuelCostCoefficients(p.n, v);
    CoefficientAppend(PeriodCostTerms(p.n), MonthCostTerms(ms), v);
    CoefficientAppend(PeriodCostTerms(p.n) + MonthCostTerms(ms), [Term(1.0, CostGridFixed)], v);
    CoefficientAppend(PeriodCostTerms(p.n) + MonthCostTerms(ms) + [Term(1.0, CostGridFixed)], FuelCostTerms(p.n), v);
    CoefficientSingle(Term(1.0, CostGridFixed), v);
    assert sys.objective == Objective(p);
    if v.InMonth? {
      assert v.m in ms <==> v.m in Months(p);
    }
  }

  /** A sequence without repeats has as many distinct elements as entries. */
  lemma {:induction false} DistinctCardinality(ms: seq<int>)
    requires forall i, j | 0 <= i < j < |ms| :: ms[i] != ms[j]
    ensures |set m | m in ms| == |ms|
  {
    if |ms| > 0 {
      var rest := ms[1..];
      DistinctCardinality(rest);
      assert (set m | m in ms) == (set m | m in rest) + {ms[0]};
      assert ms[0] !in rest by {
        forall i | 0 <= i < |rest|
          ensures rest[i] != ms[0]
        {
          assert rest[i] == ms[i + 1];
        }
      }
    }
  }

  /** The month list enumerates the set of months once each, so there are
      between one and n months when there is a period. */
  lemma MonthCount(p: Params)
    requires WellFormed(p)
    ensures (set m | m in MonthList(p, p.n)) == Months(p)
    ensures |Months(p)| == |MonthList(p, p.n)| <= p.n
    ensures p.n > 0 ==> |Months(p)| >= 1
  {
    var ms := MonthList(p, p.n);
    DistinctCardinality(ms);
    if p.n > 0 {
      assert MonthOf(p, 1) in Months(p);
    }
  }

  /** The set of months is the set of all month labels: the labelling has
      no entry outside the periods. */
  lemma MonthsAreLabelValues(p: Params)
    requires WellFormed(p)
    ensures Months(p) == set t | t in p.monthOrder :: p.monthOrder[t]
  {
    var labels := set t | t in p.monthOrder :: p.monthOrder[t];
    forall m | m in labels
      ensures m in Months(p)
    {
      var t :| t in p.monthOrder && p.monthOrder[t] == m;
      assert MonthOf(p, t) == m;
    }
  }
}
