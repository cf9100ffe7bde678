# Yale ICU insulin-infusion protocol engine, modelled in Dafny

This project models the decision engine in `protocolEngine.ts`. The engine takes
blood-glucose (BG) readings and returns one dosing instruction for an insulin
infusion. An instruction has a protocol section, an action label, a new rate
(a number, "0 (Off)" or "N/A"), an optional bolus, a monitoring instruction,
an ordered rationale trail and an optional caution. The engine has four parts:

- `roundToHalf` rounds to a multiple of 0.5 with `Math.round`, so halves go
  toward +infinity. It is modelled as `Floor(2x + 1/2) / 2`.
- `getDelta` picks the step sizes Δ and 2Δ from the current rate, top-down,
  first match wins.
- `calculateInitialRate` returns a bolus and a starting rate. Both are a
  half-unit rounding of BG/100, and a caution is added above 500 mg/dL.
- `calculateAdjustmentRate` computes the hourly change of BG and then decides:
  - the three hypoglycemia bands;
  - the rapid-fall carve-out for BG 100-119;
  - a ladder of hourly-change ranges in each of the four BG columns;
  - a zero clamp on the new rate;
  - a "Clinical assessment required" result where no ladder row applies.

Layout:

- `types.dfy` (module `Types`) holds the records of `types.ts`.
  - `newRate` becomes `Numeric(units) | Off | NA`.
  - `bolus` and `caution` become `Option`s.
  - The rationale trail is a `seq<Line>`. A line is either a fixed sentence
    (a `Rule` tag) or a line kind that carries the numbers it interpolates.
  - The monitoring instruction is a `Monitoring` tag.
  - `ProtocolEngine.RuleText` and `ProtocolEngine.MonitoringText` give each
    tag's exact wording.
- `bands.dfy` (module `Bands`) holds ordered threshold tables. A row is a band
  of the real line bounded by `<`/`<=` thresholds, paired with an outcome.
  `FirstMatch` returns the outcome of the first row whose band holds the value.
- `protocol_engine.dfy` (module `ProtocolEngine`):
  - the engine's four operations;
  - the protocol's tables written as such rows: the rate bands, the
    hypoglycemia bands, the BG columns and one ladder per column;
  - `Decide`, the decision order evaluated over those tables;
  - `AdjustmentOutcome`, the result those tables prescribe.

  `calculateAdjustmentRate` is the method `CalculateAdjustmentRate`. It follows
  the source's if-chains:
  - the early returns for hypoglycemia and the rapid fall;
  - the mutable locals `actionStr`, `rateChange` and `holdTime`, set by the
    column ladders (`MainTableLocals` and the four `LadderFrom…Locals`);
  - the empty-action test for the fallback;
  - the final record.

  It is proved to return exactly `AdjustmentOutcome`, the table-driven result.
- `engine_properties.dfy` (module `EngineProperties`) holds the properties of
  that specification: boundaries, precedence, coverage and clamping.

I/O is left to the caller. The caller's guards in `App.tsx` become
preconditions: an adjustment needs `hoursElapsed > 0` (App.tsx:29). The guard
`BG >= 0` of the initial tab (App.tsx:21) is not needed by anything in the
model, so the initial dose is modelled for every BG. App.tsx:29 does not check
the adjustment BG's sign, and neither does the model: a negative BG falls in
the `< 50` band, as in the code. All numbers are unbounded reals.

Two behaviours of the code are kept as they are:

- `Math.round` rounds halves toward +infinity, not away from zero, so -1.25
  becomes -1.0 (`RoundToHalfExamples`).
- The hypoglycemia bands and the BG columns are closed integer ranges, so BG
  values strictly between them (74-75, 99-100, 119-120, 159-160, 199-200) match
  no branch. The ladders of the 120-159 and 160-199 columns skip hourly changes
  strictly between 0 and 1. All of these reach the "Clinical assessment
  required" result (`SilenceExactlyInGaps`). Where the code's closed
  thresholds leave gaps, the model keeps them.

## Model

| member | source | states |
|---|---|---|
| `Bands.FirstMatchSound` | protocolEngine.ts:8-15 | A first-match table gives no outcome exactly when no row's band holds the value; otherwise its outcome is that of a row whose band holds it |
| `Bands.FirstMatchAt` | protocolEngine.ts:8-15 | Row k decides a value when its band holds the value and no earlier band does (top-down, first match wins) |
| `ProtocolEngine.RoundToHalf` | protocolEngine.ts:4-6 | The result is an integer multiple of 0.5 and lies in (x - 0.25, x + 0.25], so it is within 0.25 of x and exact ties go up |
| `ProtocolEngine.GetDelta` | protocolEngine.ts:8-15 | The large step is always exactly twice the small step, and Δ lies between 0.5 and 4 |
| `ProtocolEngine.GetDeltaMatchesBands` | protocolEngine.ts:8-15 | The code's top-down `<`/`<=` chain selects the same step as the protocol's band table, whose bands are (-inf,3), [3,6], (6,9.5], (9.5,14.5], (14.5,19.5], (19.5,inf) |
| `ProtocolEngine.CalculateInitialRate` | protocolEngine.ts:17-33 | The section is initial; bolus and new rate are the same multiple of 0.5 within 0.25 of BG/100; there are two explanation lines; a caution is present exactly when BG > 500 |
| `ProtocolEngine.HypoglycemiaBandsRows` | protocolEngine.ts:42-82 | BG < 50 is severe, 50-74 moderate, 75-99 mild; BG in (74,75) or above 99 is in no hypoglycemia band |
| `ProtocolEngine.ColumnBandsRows` | protocolEngine.ts:104-127 | BG 100-119, 120-159, 160-199 and >= 200 select the four columns; BG below 100 or between two columns selects none |
| `ProtocolEngine.LadderFrom100Rows` | protocolEngine.ts:104-107 | In the 100-119 column, a rise keeps the rate, a change in [-20,0] lowers it by Δ, and a faster fall matches no row |
| `ProtocolEngine.LadderFrom120Rows` | protocolEngine.ts:108-113 | In the 120-159 column: above 40 raises by Δ; [1,40] and [-20,0] keep the rate; [-40,-20) lowers by Δ; below -40 holds then lowers by 2Δ; (0,1) matches no row |
| `ProtocolEngine.LadderFrom160Rows` | protocolEngine.ts:114-120 | In the 160-199 column: above 60 raises by 2Δ; [1,60] and 0 raise by Δ; [-40,0) keeps the rate; [-60,-40) lowers by Δ; below -60 holds then lowers by 2Δ; (0,1) matches no row |
| `ProtocolEngine.LadderFrom200Rows` | protocolEngine.ts:121-127 | From 200 up: above 0 raises by 2Δ; [-20,0] raises by Δ; [-60,-20) keeps the rate; [-80,-60) lowers by Δ; below -80 holds then lowers by 2Δ |
| `ProtocolEngine.RapidFallOutcome` | protocolEngine.ts:84-97 | BG 100-119 with an hourly change below -20 yields the rapid-fall result, whatever the rate and previous BG |
| `ProtocolEngine.LadderFrom100Locals` | protocolEngine.ts:104-107 | The 100-119 branch leaves in actionStr, rateChange and holdTime the label, change and hold of the row the ladder table selects, or an empty action where no row applies |
| `ProtocolEngine.LadderFrom120Locals` | protocolEngine.ts:108-113 | The 120-159 branch leaves in its locals exactly what the 120-159 ladder table selects, or an empty action where no row applies |
| `ProtocolEngine.LadderFrom160Locals` | protocolEngine.ts:114-120 | The 160-199 branch leaves in its locals exactly what the 160-199 ladder table selects, or an empty action where no row applies |
| `ProtocolEngine.LadderFrom200Locals` | protocolEngine.ts:121-127 | The >= 200 branch leaves in its locals exactly what the >= 200 ladder table selects |
| `ProtocolEngine.MainTableLocals` | protocolEngine.ts:99-127 | The main-table if/else chain sets its locals to the row selected by the column table and that column's ladder, and leaves the action empty exactly where the tables are silent |
| `ProtocolEngine.CalculateAdjustmentRate` | protocolEngine.ts:36-154 | The engine's if-chain with mutable locals returns exactly the result the protocol tables prescribe (`AdjustmentOutcome`) for every input with hoursElapsed > 0 |
| `EngineProperties.RoundToHalfUnique` | protocolEngine.ts:4-6 | The only multiple of 0.5 in (x - 0.25, x + 0.25] is the rounded value, so the rounding is fully determined |
| `EngineProperties.RoundToHalfExamples` | protocolEngine.ts:4-6 | -1.25 goes to -1.0, 1.25 to 1.5, 1.24 to 1.0, 2.74 to 2.5 and 2.75 to 3.0 |
| `EngineProperties.GetDeltaBoundaries` | protocolEngine.ts:8-15 | Rate 3.0 and 6.0 give Δ = 1; 9.5 gives 1.5; 14.5 gives 2; 19.5 gives 3: each boundary belongs to the lower band except 3.0 |
| `EngineProperties.GetDeltaMonotone` | protocolEngine.ts:8-15 | A higher rate never gets a smaller step |
| `EngineProperties.InitialDoseRecord` | protocolEngine.ts:22-33 | The action is "Administer IV bolus and start infusion."; the two lines are, in order, the division of BG by 100 with its quotient and the rounded half-unit value; monitoring is "Check BG hourly until stable (3 consecutive in target 120-160)."; above 500 the caution is "Caution: Initial orders should be reviewed with MD for BG > 500 mg/dL." |
| `EngineProperties.InitialDoseExamples` | protocolEngine.ts:17-33 | BG 250 gives bolus and rate 2.5; BG 500 has no caution; BG 501 has one |
| `EngineProperties.DecideRegions` | protocolEngine.ts:41-137 | The decision is hypoglycemic exactly in the three bands; rapid fall exactly for 100-119 falling faster than 20; silent exactly in the gaps; a ladder row otherwise; a hold row exactly below -40/-60/-80 in the three upper columns; a rapid fall never reaches the 100-119 ladder |
| `EngineProperties.HypoglycemiaStopsInfusion` | protocolEngine.ts:42-82 | The section is hypoglycemia exactly when BG is in one of the three bands, and then the rate is Off with three explanation lines, whatever the previous BG, time or rate |
| `EngineProperties.SevereAndModerateDiffer` | protocolEngine.ts:42-68 | BG 49 and BG 50 give different first explanation lines (the 1-amp and the half-amp rule) |
| `EngineProperties.RapidFallPrecedence` | protocolEngine.ts:85-97 | The section is the rapid-fall warning exactly when BG is 100-119 and the hourly change is below -20; the rate is then Off with the section-† action |
| `EngineProperties.RapidFallExample` | protocolEngine.ts:85-97 | BG 110 after 140 one hour earlier, at rate 3, gives the rapid-fall warning with a fall of 30 mg/dL/hr |
| `EngineProperties.SevereHypoglycemiaRecord` | protocolEngine.ts:42-54 | Below 50: the action is "D/C INSULIN INFUSION"; the lines are the 1-amp rule, the recheck-until-90 rule and a restart at 50% of the rate after a 30-minute wait; monitoring is "Recheck BG q 15 min until ≥90 mg/dL."; no bolus or caution |
| `EngineProperties.ModerateHypoglycemiaRecord` | protocolEngine.ts:56-68 | For 50-74: the same stop, recheck, 30-minute wait and 50% restart as below 50, but the first line is the half-amp rule |
| `EngineProperties.MildHypoglycemiaRecord` | protocolEngine.ts:70-82 | For 75-99: stop without dextrose; recheck until BG reaches or remains 90; restart at 75% of the rate after a 30-minute wait; monitoring is "Recheck BG q 15 min until reaches or remains ≥90 mg/dL." |
| `EngineProperties.RapidFallRecord` | protocolEngine.ts:85-97 | In a rapid fall: the action is "D/C INSULIN INFUSION (Section †)"; the first line reports the fall, which always exceeds 20; the restart is at 75% with no wait; monitoring is "Recheck BG in 15 min to be sure ≥90 mg/dL." |
| `EngineProperties.AdjustmentMonitoring` | protocolEngine.ts:129-145 | A numeric-rate result is monitored with the hourly-until-stable text; the N/A fallback simply with "Hourly" |
| `EngineProperties.SilenceExactlyInGaps` | protocolEngine.ts:129-137 | The rate is N/A, and the action is "Clinical assessment required", exactly when the reading is in a gap; such a result has the adjustment section and its one line is the "Explanation not available: this instruction is not explicitly stated in the uploaded protocol." sentence |
| `EngineProperties.NoSilenceFrom200` | protocolEngine.ts:121-127 | From BG 200 up the result always carries a numeric rate |
| `EngineProperties.SilenceBetweenBands` | protocolEngine.ts:70-137 | BG 74.5 reaches the N/A result |
| `EngineProperties.SilenceOnSlowRise` | protocolEngine.ts:108-137 | A rise of 0.5 mg/dL/hr at BG 130 or 170 reaches the N/A result |
| `EngineProperties.Column120UpperBoundary` | protocolEngine.ts:108-113 | In 120-159, a change of exactly 40 gives "NO INFUSION CHANGE" with the rate kept, clamped at zero, and a change above 40 gives "↑ INFUSION by Δ" with the rate raised by Δ, clamped at zero |
| `EngineProperties.Column120Example` | protocolEngine.ts:108-113 | BG 120 after 80 one hour earlier, at rate 5, gives "NO INFUSION CHANGE" and rate 5 |
| `EngineProperties.HoldExactlyBelowThresholds` | protocolEngine.ts:108-127 | The last explanation line is the 30-minute hold exactly below -40 (120-159), -60 (160-199) or -80 (>= 200); then the action is the hold label and the rate drops by 2Δ, clamped at zero |
| `EngineProperties.MainTablePath` | protocolEngine.ts:139-152 | Off the hypoglycemia, rapid-fall and silent cases, the section is adjustment and the rate is max(0, rate + c) for c in {0, ±Δ, ±2Δ}; the five lines are, in order, the column, the hourly change, Δ and 2Δ, the instruction, and then the hold or the before/after rate |
| `EngineProperties.AdjustmentInvariants` | protocolEngine.ts:36-154 | Every adjustment result has a non-empty explanation, a numeric rate that is never negative, a section other than initial, and no bolus or caution |
| `EngineProperties.ClampAtZero` | protocolEngine.ts:139 | When the current rate plus the chosen row's change is below zero, the new rate is 0 (the `Math.max` clamp) |

## Left out

- App.tsx: the React state, text parsing with `parseFloat` and the rendering
  are the caller's I/O. Only its guards are kept, as preconditions.
- app.py: a separate Streamlit front end with its own inline decision logic. It
  uses different tables, so it is not part of this model.
- String formatting: the fixed sentences and monitoring texts are tags whose
  wording is given verbatim by `RuleText` and `MonitoringText`. Interpolated
  lines carry their raw numbers, without `toFixed` or template formatting.
  Action labels and the caution are kept as strings.
- IEEE-754 behaviour: numbers are exact reals, so there is no NaN or
  Infinity, and `hoursElapsed > 0` rules out division by zero. The effect left
  out that matters most is the hourly change of protocolEngine.ts:38. The code
  computes it in doubles and then compares it with `=== 0` and with the
  thresholds 1, ±20, 40, ±60 and -80 (protocolEngine.ts:105-126). A reading
  whose exact change lies on a threshold can land on the other side of it in
  floating point, and the model does not capture that. Rounding error in the
  BG/100 division of the initial dose is not modelled either.
- Purity and determinism are not stated as separate lemmas. `CalculateInitialRate`
  is a Dafny function. The method `CalculateAdjustmentRate` ensures
  `r == AdjustmentOutcome(input)`, which makes its result a function of its input.
- ProtocolEngine.GetDelta: its own contract states only the 2Δ = 2·Δ relation
  and the range of Δ. The exact band for each rate is stated by
  `GetDeltaMatchesBands`.
