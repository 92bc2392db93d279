# Enerthon energy-system model in Dafny

This project models the core of the Enerthon optimisation model
(`enerthon/enerthon_model.py`). The model has two parts:

- **The input normaliser** (`model_input`) turns the caller's dictionary of
  series and scalars into a parameter record:
  - periods are numbered 1..n, where n is the length of the generation series;
  - every series is re-keyed onto those periods;
  - missing demand series default to zero;
  - every missing optional scalar takes its fixed default.
- **The problem builder** (`model`) turns that record into a linear program:
  - per-period variables with bounds that are products of parameters;
  - monthly demand-charge peak variables and a fixed-cost variable;
  - one row per constraint family and period;
  - terminal storage pins;
  - a cost-minimising objective.

The Dafny model keeps the problem symbolic. A `System` holds:

- declared variables, each with its domain and bounds;
- named rows, each of the form `Σ coef·var  rel  rhs`;
- pinned variables;
- the objective's terms.

`Satisfies(x, sys)` says when an assignment `x` is feasible, and
`ObjectiveValue` evaluates the objective. A pinned variable is a constant
of the problem, as a fixed Pyomo variable is: it takes its pinned value, and
its declared domain and bounds do not constrain it.

The project has these modules:

- `Wrappers`: `Option` and `Result`.
- `Lp`: generic linear systems, evaluation and feasibility.
- `Parameters`: the caller's scenario and the normalised record.
- `Normaliser`: the normaliser.
- `Formulation`: the builder.
- `Structure`: which variables, bounds, rows and pins exist.
- `Feasibility`: what every feasible point satisfies.
- `StorageChains`: battery and thermal-storage levels in closed form.
- `Costs`: the objective as a total cost.
- `Scenarios`: end-to-end facts about concrete scenarios.

Where the code and its documentation disagree, the model follows the code:

- A zero discharge or boiler efficiency makes the build fail with
  `ZeroDivision`, because the code divides by it while it builds the rows.
  There is no separate configuration check.
- The normaliser does not reject a series shorter than the generation
  series. Zipping it onto the periods leaves the later periods without a
  value. The builder does fail on such a record; see `Formulation.Build`
  under "## Left out".

## Model

| member | source | states |
|---|---|---|
| Normaliser.ModelInput | enerthon/enerthon_model.py:257-449 | The horizon has as many periods as the generation series. Every series is keyed so that period t holds element t−1, for exactly the periods the series reaches. Absent demand and heat demand are zero at every period. Every optional scalar is the supplied value, or else its default (capacities 0, charge/discharge rates 1, efficiencies 0.95, losses 0.02, heat-pump COP 1, dt 1, grid charging allowed). |
| Normaliser.WellFormedIffLongEnough | enerthon/enerthon_model.py:260-401 | The normalised record defines every series at every period exactly when no supplied series is shorter than the generation series. |
| Normaliser.TrailingElementsIgnored | enerthon/enerthon_model.py:360-367 | Entries past the last period are dropped: cutting every series to the horizon first gives the same record. |
| Normaliser.NormaliseRoundTrip | enerthon/enerthon_model.py:264-399 | A scenario that spells out every key with the values of a record normalises back to that record: present keys pass through unchanged. |
| Normaliser.CompleteScenarioRoundTrip | enerthon/enerthon_model.py:257-449 | A scenario with every key present and all series of one length is recovered from its normalised record. |
| Formulation.Build | enerthon/enerthon_model.py:21-254 | The build fails with a division by zero exactly when there is a period and either the discharge or the boiler efficiency is zero. It fails for lack of a last period exactly when the horizon is empty and a final level is positive. Otherwise it succeeds. |
| Formulation.MonthList | enerthon/enerthon_model.py:28 | Lists each month label used by periods 1..k exactly once, with no repeats, and never more labels than periods. |
| Structure.VariablesDeclared | enerthon/enerthon_model.py:97-123 | The problem declares every period family at every period 1..n, both monthly peaks at every month label in use, and the fixed cost. It declares nothing else. |
| Structure.BoundsAreParameterProducts | enerthon/enerthon_model.py:76-123 | Bounds and domains: storage levels lie between min-level × capacity and capacity; charge and discharge lie between 0 and rate × capacity; heat-pump and boiler heat lie between 0 and capacity; grid flows, per-period power charges, heat-pump power and boiler fuel are non-negative and unbounded above; the energy, grid-energy and fuel costs, the monthly peaks and the fixed cost are free. |
| Structure.RowFamilies | enerthon/enerthon_model.py:137-239 | Each constraint family has a row at each period 1..n and nowhere else. The no-grid-charging rows exist, at every period, exactly when grid charging is disabled. The fixed-cost row exists once. |
| Structure.TerminalPins | enerthon/enerthon_model.py:244-251 | The battery level at the last period is pinned exactly when the final battery level is positive, and then to final level × capacity. The same holds for the thermal store. Nothing else is pinned. |
| Structure.ObjectiveIsPlainSum | enerthon/enerthon_model.py:128-132 | The objective gives coefficient 1 to every declared cost variable: the energy, grid-energy and fuel cost of each period, both peaks of each month, and the fixed cost. Every other variable has coefficient 0. |
| Structure.PinnedExactly | enerthon/enerthon_model.py:244-251 | A period variable is pinned exactly when it is the last-period battery or thermal level and that store's final level is positive. |
| Structure.MonthsAreLabelValues | enerthon/enerthon_model.py:28 | The set of months is the set of all values of the month labelling. |
| Structure.MonthCount | enerthon/enerthon_model.py:146-148 | The month list lists the set of months once each, so a non-empty horizon has between 1 and n months. |
| Costs.ObjectiveIsTotalCost | enerthon/enerthon_model.py:129-131 | The objective's value is the sum over periods of energy, grid-energy and fuel cost, plus the sum over months of both peaks, plus the fixed cost. |
| Feasibility.FeasibleIffParts | enerthon/enerthon_model.py:97-251 | A point is feasible exactly when every period variable other than a pinned terminal level is within its domain and bounds, every active row holds at every period, the fixed-cost row holds and the terminal pins are met. Nothing else constrains the problem. |
| Feasibility.EnergyCostDefined | enerthon/enerthon_model.py:139-141 | At a feasible point, a period's energy cost is buy price × bought × dt minus sell price × sold × dt. |
| Feasibility.GridEnergyCostsDefined | enerthon/enerthon_model.py:153-160 | At a feasible point, the grid-energy import and export costs are the fee × energy bought (respectively sold) × dt. |
| Feasibility.FuelCostDefined | enerthon/enerthon_model.py:186-188 | At a feasible point, the fuel cost is fuel price × fuel burnt × dt. |
| Feasibility.MonthlyPeaksBoundPeriodCharges | enerthon/enerthon_model.py:165-182 | At a feasible point, each period's import power charge is non-negative and at least fee × net import. The peak of that period's month is at least the charge. Symmetrically for export. |
| Feasibility.MonthlyPeaksNonNegative | enerthon/enerthon_model.py:175-182 | At a feasible point, both peaks of every month in use are non-negative. |
| Feasibility.FixedCostPerMonth | enerthon/enerthon_model.py:146-148 | At a feasible point, the fixed cost is the fixed fee times the number of distinct month labels. |
| Feasibility.PowerBalanceHolds | enerthon/enerthon_model.py:192-194 | At a feasible point, net export is generation + discharge − charge − demand − heat-pump draw. |
| Feasibility.HeatBalanceHolds | enerthon/enerthon_model.py:198-200 | At a feasible point, boiler heat + heat-pump heat equals heat demand − storage release + storage intake. |
| Feasibility.ConversionsHold | enerthon/enerthon_model.py:231-239 | At a feasible point, the boiler efficiency is non-zero, fuel burnt is boiler heat / efficiency, and heat-pump heat is COP × power. |
| Feasibility.NoGridChargingHolds | enerthon/enerthon_model.py:222-224 | When grid charging is disabled, each period buys at most its demand plus the heat-pump draw. |
| Feasibility.TerminalLevelsHold | enerthon/enerthon_model.py:245-251 | A positive final level fixes the last period's storage level at final level × capacity, for the battery and for the thermal store. |
| Feasibility.ZeroBatteryIsInert | enerthon/enerthon_model.py:77-82 | With zero battery capacity, level, charge and discharge are zero at every period; a pinned last level is final level × 0. |
| Feasibility.ZeroThermalStorageIsInert | enerthon/enerthon_model.py:84-89 | With zero thermal capacity, level, intake and release are zero at every period; a pinned last level is final level × 0. |
| Feasibility.ZeroHeatPumpIsInert | enerthon/enerthon_model.py:91-239 | With zero heat-pump capacity, the heat pump delivers no heat and, when the COP is positive, draws no power. |
| Feasibility.ZeroBoilerIsInert | enerthon/enerthon_model.py:93-233 | With zero boiler capacity, the boiler delivers no heat and burns no fuel. |
| StorageChains.BatteryStep | enerthon/enerthon_model.py:204-208 | A battery row holds exactly when the level equals the previous level plus inflow. The previous level is initial level × capacity in the first period. Inflow is charge-efficiency × charge × dt − discharge × dt / discharge-efficiency. |
| StorageChains.HeatStep | enerthon/enerthon_model.py:213-217 | A thermal row holds exactly when the level equals (1 − losses) × the previous level plus intake × dt − release × dt. The previous level is initial level × capacity in the first period. |
| StorageChains.BatteryTelescopes | enerthon/enerthon_model.py:204-209 | At a feasible point, the discharge efficiency is non-zero. The battery level at each period is initial level × capacity plus the sum of all inflows so far. |
| StorageChains.HeatStorageDecays | enerthon/enerthon_model.py:213-218 | At a feasible point, the thermal level at period t is (1 − losses)^t × initial level × capacity, plus each period k's net intake decayed by (1 − losses)^(t−k). |
| Scenarios.OmittedSubsystemsAreInert | enerthon/enerthon_model.py:278-388 | In a scenario that omits battery, thermal-store, heat-pump and boiler capacities, every feasible point keeps all their levels and flows at zero. The heat pump draws no power unless its COP is set to a non-positive value. |
| Scenarios.HouseholdCostAtLeast | enerthon/enerthon_model.py:139-200 | In a one-period household with demand 10, buy price 0.08, sell price 0.04 and no fees, no feasible point costs less than 0.8. One that costs at most 0.8 buys exactly 10 and sells nothing. |
| Scenarios.HouseholdOptimumReached | enerthon/enerthon_model.py:21-254 | The household problem builds, and the point that buys the demand is feasible with cost exactly 0.8. Together with HouseholdCostAtLeast, 0.8 is its optimum. |

## Left out

- Formulation.Build requires every series, and the month labelling, to be defined at every period 1..n. The code's `model` fails on a shorter series: a missing month label raises `KeyError` (line 176), and a missing price or demand value is an undefined parameter (lines 140, 193). That failure is not modelled; the builder only accepts records where it cannot happen.
- Formulation.Build also requires every series and the month labelling to have no entry outside 1..n. The normaliser never produces one. The code's parameter declarations (lines 33-55) reject a key outside the periods, and that failure is not modelled either.

- `solve_model` is left out. It calls an external solver, so the model has no notion of the solution a solver returns.
- `model_results` is left out. It reads values back from a solved model.
- Optimality in general is left out. The model characterises feasible points and evaluates the objective. Only the one-period household scenario has its optimum proved.
- Arithmetic is on exact reals, not floating point, so rounding in products such as `1/efficiency` is not modelled.
- A missing required key (generation, prices, fees, month order) raises `KeyError` in the code. Here it cannot be expressed, because the scenario record has those fields.
- Pyomo's set ordering of the months is not modelled. `Months` is a set, and `MonthList` fixes one order (first use) for the objective's sum. The sum does not depend on the order.
- A non-positive final level leaves the last period unpinned. The model follows the code's `> 0` test and does not interpret negative levels.
- The Pyomo model object, its named components and its solver interface are represented only by the symbolic `System`.
- The repository's test script and packaging files are not part of this model.
