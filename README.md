# Solar energy digital twin: battery dispatch, consumption patterns, decisions

This project models, in Dafny, the decision and arithmetic logic of a small
solar-plus-battery "digital twin":

- **Dashboard what-if simulation** (`dashboard.dfy`, module `Dashboard`). The
  base solar and consumption totals are column sums of the merged table. Two
  slider percentages scale them (panel increase, load reduction). The battery
  capacity is split into a 20% reserve (`MIN_SOC`) and a usable pool. The
  initial usable charge is the initial charge above the reserve, never
  negative. One decision is then taken: on a deficit the battery discharges
  at most its usable charge, on a surplus it charges at most its free space.
  What the battery does not cover is imported from or exported to the grid.
  The final state of charge is the usable charge plus the reserve. The CO2
  estimate is 0.82 kg per simulated solar kWh.
  The battery block is the method `SimulateBattery`, written step by step
  with the same local variables as the dashboard. Its contract ties its
  result to `Simulate`/`Settle`, an independent reference definition ("the
  usable charge moves by the whole gap but stops at empty and at full").
  Bounds, exclusivity, energy balance and monotonicity are lemmas about that
  definition. The reserve share is a parameter of `SimulateBattery`.
  `WhatIf` instantiates it with `MIN_SOC = 0.2` and the slider ranges.
- **Consumption patterns** (`consumption_patterns.dfy`, module
  `ConsumptionPatterns`). Each reading is labelled PEAK, LOW or NORMAL usage
  against the column mean plus or minus a standard deviation. A reading is a
  waste period when it is LOW usage and its sunlight index is above 0.6.
- **Decision engine** (`decision_engine.dfy`, module `DecisionEngine`). Each
  labelled row gets one of five recommendations. The texts are the ones the
  engine stores in its column.
- **Table** (`table.dfy`, module `Table`): the reading record, column
  projections, sum, mean, minimum and maximum.

All quantities are Dafny `real`s. The sliders are integers, as in the
dashboard.

Three facts about the code that the model makes explicit:

- Energy balance: `solar + battery used + grid import == consumption + battery charged + grid export`
  (`Dashboard.DispatchBalance`). Grid import is on the supply side.
- The final state of charge includes the reserve (`dashboard/app.py:166`).
  A 50 kWh battery at 50% with a 20 kWh surplus ends at 45 kWh, of which
  35 kWh is usable (`Dashboard.ChargeExample`).
- The code raises no configuration error. The sliders keep every input in
  range. The ranges are therefore preconditions (`ValidConfig`,
  `ValidSliders`), not an error path.

## Model

| member | source | states |
|---|---|---|
| Dashboard.BaseTotalsNonNegative | dashboard/app.py:24-25 | the base solar and consumption sums are non-negative when every reading's power and consumption are |
| Dashboard.SimSolar | dashboard/app.py:107 | for non-negative base solar, a panel increase in 0..200 gives a simulated solar total between the base and three times the base |
| Dashboard.SimConsumption | dashboard/app.py:108 | for non-negative base consumption and a load reduction in 0..50, the simulated consumption lies between half the base and the base |
| Dashboard.SimSolarMonotone | dashboard/app.py:107 | a larger panel increase never lowers the simulated solar total |
| Dashboard.SimConsumptionAntitone | dashboard/app.py:108 | a larger load reduction never raises the simulated consumption |
| Dashboard.Co2Saved | dashboard/app.py:189-190 | the CO2 estimate is non-negative and at most the solar total for non-negative solar |
| Dashboard.CapacitySplit | dashboard/app.py:113-116 | for a positive capacity and a reserve share in [0,1), reserve and usable pool sum to the capacity; the reserve is non-negative and the pool positive |
| Dashboard.InitialUsableEnergy | dashboard/app.py:118-119 | the initial usable energy is never negative, is zero when the initial share is at or below the reserve share, and is at most the usable pool for an initial charge of at most 100% |
| Dashboard.GridImport | dashboard/app.py:142 | grid import is non-negative and positive exactly when the net energy is negative |
| Dashboard.GridExport | dashboard/app.py:143 | grid export is non-negative and positive exactly when the net energy is positive |
| Dashboard.GridSplit | dashboard/app.py:142-143 | at most one of import and export is non-zero, and export minus import is the net energy |
| Dashboard.SimulateBattery | dashboard/app.py:115-166 | the step-by-step battery block equals the reference dispatch; on a deficit it charges nothing, discharges at most the usable charge and the gap, leaves a net energy of at most 0 that is 0 exactly when the discharge covers the gap; on a surplus it discharges nothing, charges at most the free space, leaves a non-negative net energy and a usable charge within the pool |
| Dashboard.DispatchExclusive | dashboard/app.py:121-143 | all battery and grid flows are non-negative; the battery is not both charged and discharged; the grid is not both imported from and exported to; export minus import is the net energy |
| Dashboard.DispatchSocBounds | dashboard/app.py:115-166 | the final usable charge lies in the usable pool, and the final state of charge lies between the reserve and the capacity |
| Dashboard.DispatchBalance | dashboard/app.py:121-143 | solar plus battery discharge plus grid import equals consumption plus battery charge plus grid export |
| Dashboard.SettleMonotone | dashboard/app.py:121-143 | a larger energy gap never lowers the net energy or the export and never raises the import |
| Dashboard.PanelIncreaseMonotone | dashboard/app.py:107-143 | for non-negative base solar, a larger panel increase never lowers the grid export and never raises the grid import |
| Dashboard.WhatIf | dashboard/app.py:85-190 | with the slider ranges and the 20% reserve, the section's figures are the scaled totals, their dispatch and the CO2 estimate; the final state of charge lies between reserve and capacity; energy balances |
| Dashboard.ChargeExample | dashboard/app.py:113-166 | 50 kWh battery at 50%, 100 kWh solar, 80 kWh consumption: 20 kWh charged, no grid exchange, 45 kWh stored |
| Dashboard.DeficitBelowReserveExample | dashboard/app.py:113-166 | 50 kWh battery at 10%, 30 kWh solar, 80 kWh consumption: nothing discharged, 50 kWh imported, 10 kWh stored |
| Table.MeanBounds | ai/consumption_patterns.py:12 | the mean of a non-empty column lies between its smallest and its largest value |
| ConsumptionPatterns.Classify | ai/consumption_patterns.py:18-24 | PEAK exactly above mean + std; for std >= 0, LOW exactly below mean - std, and NORMAL exactly in the closed band between them |
| ConsumptionPatterns.ThresholdsAreNormal | ai/consumption_patterns.py:19-24 | values exactly at mean + std and mean - std are NORMAL |
| ConsumptionPatterns.ClassifyMonotone | ai/consumption_patterns.py:18-24 | for std >= 0, a larger consumption never gets a lower label in the order LOW < NORMAL < PEAK |
| ConsumptionPatterns.WastePeriod | ai/consumption_patterns.py:35-38 | a waste period is always LOW usage, and a LOW-usage reading is a waste period exactly when its sunlight index is above 0.6 |
| ConsumptionPatterns.LabelAll | ai/consumption_patterns.py:26 | labelling keeps the number of rows |
| ConsumptionPatterns.LabelAllAt | ai/consumption_patterns.py:26-38 | the i-th annotated row keeps the i-th reading, and its label and waste flag depend only on that reading and the shared thresholds |
| ConsumptionPatterns.LearnPatterns | ai/consumption_patterns.py:12-38 | the stage keeps the number of rows |
| ConsumptionPatterns.LearnPatternsAt | ai/consumption_patterns.py:12-38 | each row is labelled against the mean of the whole consumption column, and a waste period is never PEAK usage |
| ConsumptionPatterns.NotAllPeakNotAllLow | ai/consumption_patterns.py:12-24 | for std >= 0, a non-empty table has a row that is not PEAK and a row that is not LOW |
| ConsumptionPatterns.SingleReadingIsNormal | ai/consumption_patterns.py:12-24 | a one-row table is NORMAL usage and no waste period |
| DecisionEngine.LabelInjective | ai/decision_engine.py:17-32 | the five decisions are stored as five different texts |
| DecisionEngine.Decide | ai/decision_engine.py:11-32 | a surplus decision exactly when prediction exceeds consumption, a deficit decision exactly when it is below, BALANCED exactly when equal; within surplus, shift loads exactly when wasteful; within deficit, reduce loads exactly when PEAK |
| DecisionEngine.SurplusIgnoresPattern | ai/decision_engine.py:18-22 | a surplus decision does not depend on the pattern |
| DecisionEngine.DeficitIgnoresWaste | ai/decision_engine.py:25-29 | a deficit decision does not depend on the waste flag |
| DecisionEngine.BalancedIgnoresPatternAndWaste | ai/decision_engine.py:32 | equal prediction and consumption give BALANCED whatever the pattern and flag |
| DecisionEngine.DecideAll | ai/decision_engine.py:37 | one decision per row |
| DecisionEngine.DecideAllAt | ai/decision_engine.py:37 | the i-th decision is the decision of the i-th row alone |
| DecisionEngine.ShiftLoadsWhen | ai/decision_engine.py:11-37 | after both stages, a row is told to shift flexible loads exactly when its forecast exceeds its consumption, its consumption is below mean - std, and its sunlight index is above 0.6 |

## Left out

- The solar forecaster (`ai/solar_forecast.py`) is not part of this model: it fits and splits data with library calls whose code is not visible. Its `predicted_power_kw` output is a given column of `Table.Reading`.
- Reading and writing the CSV table, and the scripts' printed output: I/O.
- The dashboard's widgets, metrics, captions, warnings and plots, the `BASE_PREDICTED` metric, and the rounding of displayed figures: presentation only. The slider ranges appear only as preconditions.
- Timestamp parsing and the `hour` column: library date handling.
- The standard deviation of the consumption column is a parameter. The pandas sample deviation needs a square root. For a one-row table pandas yields NaN, and every comparison then fails, so the row is NORMAL usage. `ConsumptionPatterns.SingleReadingIsNormal` shows the model gives the same label for any non-negative deviation.
- The mean of an empty column (NaN in pandas) is never needed: an empty table has no rows to label, and `LearnPatterns` returns no rows.
- Floating-point rounding and tolerance: all quantities are exact reals.
