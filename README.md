# Meteor impact simulator for China: verified model of the engine

This project models the computational core of the Streamlit impact simulator `app.py`. That core is:

- `simulate_impact_china`. It turns a meteor's diameter and speed into an energy in megatons of TNT. It sums the mitigation of the active defenses (laser, nuclear, tractor, shield) and caps the sum at 0.95. It shrinks the energy and both destruction radii by that fraction. Then it walks the table of ten provinces. For each province it puts the province's midpoint in one of three damage tiers (80 %, 40 % or 10 % affected), records the affected population, and adds it to a running total.
- `format_energy`. It picks the unit (MT or GT) and the number of decimals used to display an energy.
- The sidebar's nearest-province search. It scans the table and keeps the first province whose midpoint is strictly nearer than any seen before.
- The static table `poblacion_china`, as constant data.

Files and modules:

- `arith.dfy` (`RealArith`): facts about real products and squares that the distance comparisons rest on.
- `energy.dfy` (`ImpactEnergy`): mass, kinetic energy, mitigation fraction, mitigated energy and radius, and `format_energy`.
- `provinces.dfy` (`Provinces`): the province table, bounding-box midpoints, squared distances and the nearest-province search.
- `simulation.dfy` (`ImpactSimulation`): damage tiers, the per-province record, the aggregation loop and the whole simulation run.

The code changes state step by step, so the model does too. `MitigationFraction` adds the contributions with successive additions, as the source's `+=` lines do. `SimulateImpactChina` rescales the radii in place. `Aggregate` and `NearestProvince` are `while` loops with invariants. Each method is proved against a specification function (`Reduction`, `ImpactOn`, `SumAffected`, `NearestIndex`). The properties of those functions are then proved as lemmas.

Modelling choices:

- Energies, radii and coordinates are exact `real`s. Populations are integers. The province table's extents are integer bounding boxes.
- The source compares Euclidean distances, which are square roots. The model compares their squares instead. `SquareComparison` and `TierMatchesDistance` prove that this gives the same answer. A negative radius contains no point, so the tier test checks the radius's sign before comparing squares.
- The source returns the per-province results in a dictionary keyed by province id. Its keys are unique and kept in insertion order. The model returns a sequence of records in table order, and each record carries its id.
- `int(x * factor)` on a non-negative number is the floor of that number. The model writes it as `.Floor` of an exact product. `ImpactBounded` shows that the floor is exact: 800, 400 or 100 people per thousand.

Facts about `app.py` that the model follows as written:

- The mass is `diameter³ · 800`. `app.py` has no sphere volume and no density parameter.
- The speed is given in km/s.
- The total-loss radius is `diameter · 20 / 1000`, and the partial-damage radius is three times that.
- There is no input validation and no error result. Positive diameter and speed are the only `requires`.
- The regions are bounding boxes, and the distance is measured to the box's midpoint.

## Model

| member | source | states |
|---|---|---|
| `ImpactEnergy.RawEnergyPositive` | app.py:338-340 | a meteor of positive diameter and speed has a positive energy in megatons |
| `ImpactEnergy.EnergyCubicInDiameter` | app.py:338-340 | doubling the diameter multiplies the energy by exactly 8 |
| `ImpactEnergy.EnergyQuadraticInSpeed` | app.py:339-340 | doubling the speed multiplies the energy by exactly 4 |
| `ImpactEnergy.DefaultScenarioEnergy` | app.py:338-340 | a meteor of 1000 m at 50 km/s releases between 239005 and 239006 megatons |
| `ImpactEnergy.Reduction` | app.py:345-350 | the mitigation fraction lies in [0, 0.95] and never exceeds the uncapped sum of the active contributions |
| `ImpactEnergy.ReductionMonotone` | app.py:345-350 | enabling extra defenses never lowers the mitigation fraction |
| `ImpactEnergy.CapOnlyWithAllDefenses` | app.py:345-350 | the 0.95 cap is reached exactly when all four defenses are active; otherwise the fraction is the plain sum |
| `ImpactEnergy.MitigationScenarios` | app.py:345-355 | no defense leaves all the energy, the laser alone leaves 70 % and all four leave 5 % |
| `ImpactEnergy.MitigatedTotalRadius` | app.py:342-352 | the mitigated total-loss radius is positive and no larger than the unmitigated one |
| `ImpactEnergy.RadiusShrinksWithDefenses` | app.py:342-353 | more defenses never enlarge the total-loss radius |
| `ImpactEnergy.FinalEnergy` | app.py:354 | the final energy lies between 5 % of the raw energy and the raw energy |
| `ImpactEnergy.FinalEnergyShrinksWithDefenses` | app.py:345-354 | more defenses never leave more final energy |
| `ImpactEnergy.FormatEnergy` | app.py:323-334 | unit GT iff the energy is at least 1000; the value times the unit's scale gives back the energy; 0 decimals iff 10 ≤ e < 1000, 1 decimal iff 1 ≤ e < 10 or e ≥ 1000, 2 decimals iff e < 1 |
| `ImpactEnergy.FormatEnergyMantissa` | app.py:325-334 | the value before rounding is below 1000 in MT and at least 1 in GT |
| `ImpactEnergy.FormatEnergyDecimalsMonotone` | app.py:327-334 | within the MT band, a larger energy is never shown with more decimals |
| `RealArith.SquareComparison` | app.py:365-371 | for non-negative numbers, comparing squares orders them exactly as comparing the numbers (both `<=` and `<`) |
| `Provinces.NearestIndex` | app.py:413-422 | the index the search settles on is a valid index, and it is -1 (the "Sea / Unpopulated Area" default) exactly when the table is empty |
| `Provinces.NearestIndexIsFirstNearest` | app.py:413-422 | for a non-empty table, that index is the first province whose midpoint is at least as near as every other (strict `<` lets the earlier province win ties) |
| `Provinces.NearestProvince` | app.py:413-422 | the scan with a running minimum (starting at infinity) returns "Sea / Unpopulated Area" for an empty table and otherwise the name at `NearestIndex`, the first nearest province |
| `Provinces.ChinaTableShape` | app.py:96-157 | the table has ten provinces with distinct keys and non-degenerate bounding boxes |
| `Provinces.DefaultPointNearestIsHubei` | app.py:410-422 | at the default impact point (85, 25) the search settles on Hubei (index 8), the first nearest province |
| `ImpactSimulation.TierMatchesDistance` | app.py:365-371 | for any radii, even negative ones, the tier chosen from squared distance and squared radii is the tier the distance itself gives (≤ total radius, else ≤ partial radius, else outside) |
| `ImpactSimulation.FactorNonIncreasing` | app.py:366-371 | the affected share never grows with distance |
| `ImpactSimulation.ImpactBounded` | app.py:373-381 | 0 ≤ affected ≤ total population; the share is 80, 40 or 10 %; the floor is exact (share·10 people per thousand) |
| `ImpactSimulation.NearerNeverLessAffected` | app.py:365-374 | of two provinces of equal population, the nearer one is never less affected |
| `ImpactSimulation.SumAffectedBounded` | app.py:374-384 | when every record's affected count lies between 0 and its population, the total lies between 0 and the summed population |
| `ImpactSimulation.ImpactAtCentre` | app.py:361-374 | a province of 100 thousand people hit at its midpoint, with radii 10 and 30, has 80000 people affected |
| `ImpactSimulation.ProvinceRecord` | app.py:361-383 | the loop body computes exactly the province's record (`ImpactOn`): midpoint, distance, tier share, total and affected population |
| `ImpactSimulation.Aggregate` | app.py:357-384 | one record per province in table order, each equal to `ImpactOn` of that province; the total is the sum of the affected counts and lies between 0 and the summed population |
| `ImpactSimulation.MitigationFraction` | app.py:345-350 | adding the active defenses' contributions one by one and then capping yields `Reduction` |
| `ImpactSimulation.SimulateImpactChina` | app.py:336-396 | energy is `RawEnergy` (> 0); reduction percent is 100·`Reduction` (in [0, 95]); final energy is `FinalEnergy`, final + mitigated = raw, final ≥ raw/20; total radius is `MitigatedTotalRadius` and partial radius = 3·total; per-province records and total as in `Aggregate`; the impact point is echoed back |

## Left out

- Streamlit page setup, CSS, sidebar widgets, buttons, the spinner and `time.sleep`. These are user-interface plumbing.
- Image loading, the fallback map, the meteor sprite, map and circle drawing, and the critical-points table. These are rendering only.
- Building, sorting and displaying the DataFrame, and the top-5 table. These are presentation only.
- The text formatting in `format_energy` (`:.1f` and the like). The model keeps only the chosen value, unit and number of decimals.
- ImpactEnergy.FormatEnergyMantissa: bounds the value before rounding only. Rounding to the chosen decimals is not modelled, and it can put "1000 MT" on screen for 999.5 ≤ e < 1000 (and "10.0 MT" for 9.95 ≤ e < 10) instead of switching unit or precision.
- ImpactSimulation.ImpactOn: the reported distance is kept squared. The source reports `round(sqrt(d²), 2)`, and square roots and decimal rounding are not modelled.
- ImpactSimulation.SimulateImpactChina: reasons over exact reals, not IEEE doubles. For example, 0.3 + 0.4 + 0.2 + 0.1 in floating point is not exactly 1.0, and the cap at 0.95 hides the difference.
- Orbital propagation and a density-based mass: `app.py` has no orbital propagator and no density parameter, so nothing here models them.
