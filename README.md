# SEIR-D forecaster core, modelled in Dafny

This project models the core of `SEIR.py`, a small deterministic
forecaster for an epidemic. It has five compartments: Susceptible, Exposed,
Infected, Recovered and Deceased. Three parts of it are modelled:

- **The rate equations (`deriv`).** Five coupled derivatives over exact
  reals. The force of infection `beta*S*I/(S+I+R)` is kept exactly as
  written, so E and D stay out of the mixing denominator. The proofs
  show conservation: the five derivatives sum to `i*N`,
  `dR + dD = gamma*I` and `dS = -(dE + alpha*E)`. They also prove sign
  lemmas for S, R and D.
- **The start of `SEIR` and the rounding in `SEIR_array`.** The rate
  constants come from the periods: `alpha = 1/Tinc`, `gamma = 1/Tinf`,
  `beta = R0/Tinc` and `mu = CFR`. The exposed pool is seeded as
  `E0 = beta*I`, and S takes the rest, so the initial state sums to N.
  Solver output is turned into five integer rows with Python's
  round-half-to-even.
- **The daily-delta transform (`get_dailynewcases`).** It turns a
  `[dates, cumulative]` case history into `[dates, daily]`, editing the
  caller's list in place. Element 0 is kept. Every later element is the
  first difference. Summing the daily row gives back the cumulative row
  exactly, and differencing running totals gives back the daily row.

Files:

- `results.dfy` (module `Results`): the `Result` type for operations that
  either return a value or raise.
- `rounding.dfy` (module `Rounding`): Python's `round`.
- `daily_cases.dfy` (module `DailyCases`): the delta transform. It has
  the specification function `Deltas` and its partner `PrefixSums`. The
  loop is the method `DailyDeltas`. The caller's list is the class
  `CaseHistory`, whose `rows` field the transform reassigns.
- `seir.dfy` (module `Seir`): `Deriv`, `Initialise`, and the rounding
  methods `RoundSeries` and `SeirArray`.

Floats are modelled as exact `real`s. Case counts are `int`s.

Behaviour of the code worth noting:

- The transform does not check that the dates row and the count row have
  the same length.
- The setup lines do not range-check the epidemiological parameters. A
  zero incubation or infectious period raises `ZeroDivisionError` at the
  divisions (SEIR.py:73-75), and that is the only failure they can raise.
  Failures further along (the time grid, the solver, `round`) are listed
  under "## Left out".
- Rounding is always ties-to-even. That is what Python's `round` does.
- The time grid is `linspace(0, F, F)`, so its step is `F/(F-1)`, not one
  day.

## Model

| member | source | states |
|---|---|---|
| `Rounding.RoundHalfEven` | SEIR.py:97 | `round` gives an integer within 1/2 of its argument, and an even one when the argument is exactly halfway |
| `Rounding.RoundIsNearest` | SEIR.py:97 | no integer is closer to the argument than the rounded value |
| `Rounding.RoundIsUnique` | SEIR.py:97 | any integer within 1/2 of x, and even when exactly 1/2 away, is `round(x)`, so the two properties determine `round` |
| `Rounding.RoundOfWhole` | SEIR.py:97 | rounding a whole number returns it unchanged |
| `DailyCases.Deltas` | SEIR.py:39-43 | the daily row has the same length as the cumulative row |
| `DailyCases.SumOfDeltas` | SEIR.py:40-43 | the daily counts of a non-empty series sum to its last cumulative total |
| `DailyCases.PrefixSumsOfDeltas` | SEIR.py:40-43 | running totals of the daily row reproduce the cumulative row exactly |
| `DailyCases.DeltasOfPrefixSums` | SEIR.py:40-43 | differencing running totals gives back the original daily row, so the transform is the exact inverse of cumulative summation |
| `DailyCases.DeltasNonNegativeIffNonDecreasing` | SEIR.py:40-43 | all daily counts after the first are non-negative iff the cumulative row never decreases; a drop gives a negative count, with no clamping |
| `DailyCases.DailyDeltas` | SEIR.py:39-43 | the loop's output is element 0 followed by each first difference, i.e. `Deltas(c)`; an empty row fails with no element 0 |
| `DailyCases.DailyNewCases` | SEIR.py:30-47 | succeeds iff there is a non-empty count row at index 1; the list keeps its length and element 0; later elements shift down one place; the daily row is placed last |
| `DailyCases.TwoRowHistory` | SEIR.py:44-47 | `[dates, cum]` becomes `[dates, Deltas(cum)]` with the dates untouched; the new row sums back to `cum`; a one-day series comes back unchanged |
| `DailyCases.CaseHistory.GetDailyNewCases` | SEIR.py:30-47 | mutates the caller's list in place to `DailyNewCases` of its old contents and returns that same list; when it raises, the list is unchanged |
| `Seir.Deriv` | SEIR.py:10-28 | with `S+I+R != 0` the derivatives sum to `i*N`, `dR + dD = gamma*I` (everything that leaves I goes to R or D), and `dS = -(dE + alpha*E)` |
| `Seir.DeathsAndRecoveries` | SEIR.py:25-26 | `dD = mu*gamma*I`; `mu = 0` gives `dD = 0`; with `gamma, I >= 0` and `0 <= mu <= 1`, both `dR` and `dD` are non-negative |
| `Seir.SusceptibleNonIncreasing` | SEIR.py:22-23 | with `beta, S, I >= 0` and `S+I+R > 0`, `dS <= 0`; with `beta, S, I > 0`, `dS < 0` |
| `Seir.Initialise` | SEIR.py:73-78 | fails iff a period is zero; otherwise `alpha*Tinc = 1`, `gamma*Tinf = 1`, `beta = R0*alpha`, `mu = CFR`, `E0 = beta*I`, and I, R, D are taken as given, so the initial state sums to exactly N |
| `Seir.DerivOf` | SEIR.py:82-83 | the equations with a run's own constants change the total only by `inflow*N` |
| `Seir.NoTransmissionInfectedFalls` | SEIR.py:73-78 | with `R0 = 0`, no inflow, `Tinf > 0` and `I > 0`, E starts at 0 and I starts falling |
| `Seir.DemoRunInitialTrend` | SEIR.py:109 | for the demonstration parameters the start is `alpha = 1/4`, `gamma = 1/14`, `beta = 0.575`, `E0 = 407.675`, `S0 = 58998883.325`, and the initial rates show S falling, I rising, D not falling and a constant total |
| `Seir.DemoRunStart` | SEIR.py:73-78 | the setup succeeds on the demonstration parameters and yields exactly those constants and that initial state |
| `Seir.DemoRunSlopes` | SEIR.py:22-26 | at the demonstration start, with its constants and no inflow: `dS < 0`, `dI > 0`, `dD >= 0` and the total is constant |
| `Seir.RoundSeries` | SEIR.py:96-97 | the row is as long as the series, and each entry is the series value rounded and within 1/2 of it |
| `Seir.SeirArray` | SEIR.py:94-107 | five rows in the order S, E, I, R, D; row k is as long as series k and holds its rounded values, each within 1/2 |

## Left out

- The `odeint` call (SEIR.py:83) is a floating-point adaptive ODE solver in
  a foreign library. It is not modelled. Its five output series enter
  `SeirArray` as the input `Trajectory`. The model says nothing about the
  trajectory itself: not its length, not its first row, and not whether it
  is monotone.
- The time grid `np.linspace(0, Forecast_days, Forecast_days)` (SEIR.py:80)
  is left out, because it only feeds the solver. Its step is
  `F/(F-1)`, not 1. Its failures are left out with it: a negative
  `Forecast_days` raises `ValueError` and a non-integer one raises
  `TypeError` there.
- Floating-point rounding error is left out. Every float is an exact real,
  so `round` ties happen exactly at halves.
- Deriv: requires `S+I+R != 0`. At zero, numpy float division yields
  infinities or NaN instead of raising, and reals have neither.
- DailyNewCases: a row of dates at index 1 is refused with `NotCountRow`.
  The code would apply `np.diff` to dates. Count rows are integers, and
  float counts are not modelled.
- Deltas: works over unbounded integers. `np.diff` (SEIR.py:40) first
  turns the row into a 64-bit integer array, so a difference outside the
  signed 64-bit range wraps around silently; the model does not wrap.
- SeirArray: always succeeds. Python's `round` raises `ValueError` on NaN
  and `OverflowError` on an infinity (SEIR.py:97-105), which the solver
  produces when S+I+R reaches zero; reals have neither value, so this
  failure is not modelled.
- GetDailyNewCases: the same restriction as DailyNewCases applies. Python list identity of
  the untouched rows is modelled as value equality.
- The `np.diff` library call (SEIR.py:40) is restated as the loop of
  `DailyDeltas`, not modelled as a library.
- The unused imports (matplotlib, pandas, math, openpyxl, datetime and
  dateutil; SEIR.py:2-3 and 5-8) are left out. So are the load-time
  demonstration call and its `print` (SEIR.py:109-110). The demonstration's
  parameters appear only in `DemoRunInitialTrend`, `DemoRunStart` and
  `DemoRunSlopes`.
