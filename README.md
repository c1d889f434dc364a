# Elevator energy calculator: the `calculate` handler

This project models the two pieces of logic inside the `calculate` request
handler of the elevator energy calculator (`app.py`):

- the **usage-category rule**: a daily trip count is mapped to a usage
  category 1..6 by a chain of strict `<` comparisons against the thresholds
  75, 200, 500, 1000 and 2000 (which appear to follow the usage-category
  trip ranges of ISO 25745-2); a trip count of zero means "unknown" and the category the
  caller supplied is passed through unchecked;
- the **placeholder energy estimate** `trips * load * rate`, where the rate
  is 0.1 when the elevator type string is exactly `"hydraulic"` and 0.05 for
  every other string.

All of it lives in `calculator.dfy`: module `UsageCategories` (the rule, a
band predicate `InBand` and a counting reference definition `Reached`),
module `PlaceholderEnergy` (the rate and the estimate, in exact rational
arithmetic) and module `Handler` (the handler body applied to the parsed form
fields, as a record `Form`, producing the computed category and the energy).

The source marks its energy expression as a placeholder still to be adapted
to a fuller calculation (the comment at app.py:45). `app.py` contains no part
of such a calculation (no stop factor, load brackets, counterbalance factor,
express-zone correction, standby or yearly energy): it computes only the
placeholder product above and renders it. The model follows the code. In
particular the computed usage category is never used by the energy
expression; `Handler.EnergyIgnoresOtherFields` states that outright.

## Model

| member | source | states |
|---|---|---|
| `UsageCategories.Category` | app.py:30-43 | a zero trip count yields exactly the supplied category, whatever its value; any other count lies in the band of the returned category (at or above its lower threshold, below the next one) and the category is in 1..6 |
| `UsageCategories.BandIsUnique` | app.py:32-43 | the bands do not overlap: a trip count lies in at most one category's band |
| `UsageCategories.CategoryIsTheOnlyBand` | app.py:32-43 | for a non-zero trip count, a category's band contains the count if and only if that category is the one the rule returns |
| `UsageCategories.CategoryCountsThresholds` | app.py:32-43 | for a non-zero trip count the category is one plus the number of thresholds (75, 200, 500, 1000, 2000) the count has reached |
| `UsageCategories.CategoryMonotone` | app.py:32-43 | among non-zero trip counts, a larger count never gets a lower category |
| `UsageCategories.ThresholdsBelongAbove` | app.py:32-43 | the k-th threshold itself is in category k+2 and the count one below it in category k+1: each threshold belongs to the higher category |
| `UsageCategories.Boundaries` | app.py:32-43 | 74→1, 75→2, 199→2, 200→3, 499→3, 500→4, 999→4, 1000→5, 1999→5, 2000→6 |
| `UsageCategories.NegativeTripsLightest` | app.py:32-33 | a negative trip count is not rejected and falls into category 1 |
| `PlaceholderEnergy.HydraulicRateIsTwice` | app.py:46 | both rates are positive and the hydraulic rate is exactly twice the rate of every other type string |
| `PlaceholderEnergy.Energy` | app.py:46 | the estimate is `trips*load/10` for `"hydraulic"` and `trips*load/20` for every other type string |
| `PlaceholderEnergy.OtherSpellingsAreNotHydraulic` | app.py:46 | the comparison is case-sensitive: `"Hydraulic"`, `"HYDRAULIC"`, `"traction"` and the empty string all get `trips*load/20` |
| `PlaceholderEnergy.HydraulicIsTwice` | app.py:46 | for the same trips and load, the hydraulic estimate is exactly twice that of any other type |
| `PlaceholderEnergy.AdditiveInTrips` | app.py:46 | the estimate for `t1 + t2` trips is the sum of the estimates for `t1` and `t2` trips |
| `PlaceholderEnergy.AdditiveInLoad` | app.py:46 | the estimate for load `l1 + l2` is the sum of the estimates for loads `l1` and `l2` |
| `PlaceholderEnergy.ScalesWithTrips` | app.py:46 | multiplying the trip count by `k` multiplies the estimate by `k` |
| `PlaceholderEnergy.ZeroExactlyWithoutTripsOrLoad` | app.py:46 | the estimate is zero if and only if the trip count or the load is zero |
| `PlaceholderEnergy.SignFollowsProduct` | app.py:46 | the estimate is positive exactly when `trips*load` is, and non-negative whenever trips and load both are |
| `Handler.Calculate` | app.py:30-46 | the handler's category passes the supplied value through for zero trips and lies in 1..6 otherwise; the energy it renders is `trips*load/10` for `"hydraulic"` and `trips*load/20` otherwise |
| `Handler.EnergyIgnoresOtherFields` | app.py:11-46 | two forms that agree on trips, load and type render the same energy, whatever their stops, counterbalance, operating days and supplied (hence computed) category |
| `Handler.ZeroTripsCategoryVaries` | app.py:30-46 | example: at zero trips, two different supplied categories give two different computed categories and the same zero energy |

## Left out

- Flask routing, the page route, `render_template` and `app.run` (app.py:1-7, 48-51): web I/O glue with no logic.
- Reading the form with `int()`/`float()` and the KeyError/ValueError a missing or non-numeric field raises (app.py:11-27, 31): the model starts from already-parsed values (`Handler.Form`); that the supplied category is read only when the trip count is zero is reflected only in that it is used only then.
- The float fields `src`, `ssc`, `energy_ref`, `energy_short`, `speed`, `acceleration`, `jerk`, `door_time`, `idle_power`, `standby5`, `standby30` (app.py:16-26): parsed and never used, so `Handler.Form` does not carry them; `operating_days` is carried though it is equally unused.
- PlaceholderEnergy.Energy: computes with exact rationals, whereas the source multiplies an exact integer by the binary float 0.1 or 0.05, so binary-float rounding of the product is not modelled; nor is the `OverflowError` the source raises (rendering nothing) when `trips * load` is too large to convert to a double (beyond about 1.8e308, e.g. trips = load = 10^160), where the model returns the exact value.
- The `:.2f` formatting of the rendered result (app.py:48): string formatting of a float.
- The fuller calculation the comment at app.py:45 looks forward to (lookup tables, stop and load factors, express zone, standby and yearly energy): it is not present in `app.py`.
