/** The insulin-infusion decision engine: half-unit rounding, step-size
    selection, the initial dose and the hourly adjustment. */
module ProtocolEngine {
  import opened Types
  import opened Bands

  // ---------------------------------------------------------------------
  // Rounding

  /** Math.round: the nearest integer, halves rounded toward +infinity. */
  function RoundHalfUp(y: real): int {
    (y + 0.5).Floor
  }

  /** The nearest multiple of 0.5; a value exactly between two multiples
      goes to the larger one. */
  function RoundToHalf(x: real): (r: real)
    ensures (2.0 * r).Floor as real == 2.0 * r
    ensures x - 0.25 < r <= x + 0.25
  {
    RoundHalfUp(x * 2.0) as real / 2.0
  }

  // ---------------------------------------------------------------------
  // Step sizes

  /** The small step Δ and the large step 2Δ for infusion-rate changes. */
  datatype StepSize = StepSize(d: real, d2: real)

  function GetDelta(rate: real): (s: StepSize)
    ensures s.d2 == 2.0 * s.d
    ensures 0.5 <= s.d <= 4.0
  {
    if rate < 3.0 then StepSize(0.5, 1.0)
    else if rate <= 6.0 then StepSize(1.0, 2.0)
    else if rate <= 9.5 then StepSize(1.5, 3.0)
    else if rate <= 14.5 then StepSize(2.0, 4.0)
    else if rate <= 19.5 then StepSize(3.0, 6.0)
    else StepSize(4.0, 8.0)
  }

  /** The protocol's rate-band table, each band written with both of its ends. */
  const StepSizeBands: seq<Row<StepSize>> := [
    Row(Band(Unbounded, Exclusive(3.0)), StepSize(0.5, 1.0)),
    Row(Closed(3.0, 6.0), StepSize(1.0, 2.0)),
    Row(Band(Exclusive(6.0), Inclusive(9.5)), StepSize(1.5, 3.0)),
    Row(Band(Exclusive(9.5), Inclusive(14.5)), StepSize(2.0, 4.0)),
    Row(Band(Exclusive(14.5), Inclusive(19.5)), StepSize(3.0, 6.0)),
    Row(Band(Exclusive(19.5), Unbounded), StepSize(4.0, 8.0))
  ]

  /** The top-down if-chain of GetDelta selects the same step as the band table. */
  lemma GetDeltaMatchesBands(rate: real)
    ensures FirstMatch(StepSizeBands, rate) == Some(GetDelta(rate))
  {
    var t := StepSizeBands;
    if rate < 3.0 { FirstMatchAt(t, rate, 0); }
    else if rate <= 6.0 { FirstMatchAt(t, rate, 1); }
    else if rate <= 9.5 { FirstMatchAt(t, rate, 2); }
    else if rate <= 14.5 { FirstMatchAt(t, rate, 3); }
    else if rate <= 19.5 { FirstMatchAt(t, rate, 4); }
    else { FirstMatchAt(t, rate, 5); }
  }

  // ---------------------------------------------------------------------
  // Shared texts

  function MonitoringText(m: Monitoring): string {
    match m
    case HourlyUntilStable => "Check BG hourly until stable (3 consecutive in target 120-160)."
    case Every15MinUntil90 => "Recheck BG q 15 min until ≥90 mg/dL."
    case Every15MinUntilReachesOrRemains90 => "Recheck BG q 15 min until reaches or remains ≥90 mg/dL."
    case In15MinToBeSure90 => "Recheck BG in 15 min to be sure ≥90 mg/dL."
    case Hourly => "Hourly"
  }

  function RuleText(r: Rule): string {
    match r
    case SevereHypoglycemiaRule =>
      "Rule: If BG < 50 mg/dL: D/C INSULIN INFUSION & administer 1 amp (25 g) D50 IV."
    case ModerateHypoglycemiaRule =>
      "Rule: If BG 50-74 mg/dL: D/C INSULIN INFUSION & administer 1/2 Amp (12.5 g) D50 IV."
    case MildHypoglycemiaRule => "Rule: If BG 75-99 mg/dL: D/C INSULIN INFUSION."
    case RecheckUntil90 => "Rule: Recheck BG q 15 minutes until ≥90 mg/dl."
    case RecheckUntilReachesOrRemains90 =>
      "Rule: Recheck BG q 15 minutes until BG reaches or remains ≥90 mg/dl."
    case RapidFallStopRule =>
      "Rule: D/C INSULIN INFUSION; √BG in 15 min to be sure ≥90 mg/dL. Then recheck BG q 1 hr."
    case NotInProtocol =>
      "Explanation not available: this instruction is not explicitly stated in the uploaded protocol."
  }

  const StopInfusion := "D/C INSULIN INFUSION"
  const StopInfusionRapidFall := "D/C INSULIN INFUSION (Section †)"
  const ClinicalAssessmentRequired := "Clinical assessment required"

  // ---------------------------------------------------------------------
  // Initial dose

  const InitialAction := "Administer IV bolus and start infusion."
  const InitialCaution := "Caution: Initial orders should be reviewed with MD for BG > 500 mg/dL."

  /** Bolus and starting rate are the same half-unit value nearest BG/100;
      a caution accompanies them exactly when BG exceeds 500. */
  function CalculateInitialRate(input: InitialInput): (r: CalculationResult)
    ensures r.section == Initial
    ensures r.bolus.Some? && r.newRate == Numeric(r.bolus.value)
    ensures (2.0 * r.bolus.value).Floor as real == 2.0 * r.bolus.value
    ensures input.currentBG / 100.0 - 0.25 < r.bolus.value <= input.currentBG / 100.0 + 0.25
    ensures |r.explanation| == 2
    ensures r.caution.Some? <==> input.currentBG > 500.0
  {
    var rawValue := input.currentBG / 100.0;
    var roundedValue := RoundToHalf(rawValue);
    CalculationResult(
      Initial,
      InitialAction,
      Numeric(roundedValue),
      [DividedBy100(input.currentBG, rawValue), RoundedToHalf(roundedValue)],
      Some(roundedValue),
      HourlyUntilStable,
      if input.currentBG > 500.0 then Some(InitialCaution) else None)
  }

  // ---------------------------------------------------------------------
  // Adjustment: the decision tables

  datatype HypoglycemiaLevel = Severe | Moderate | Mild

  /** The four blood-glucose columns of the main adjustment table. */
  datatype Column = From100 | From120 | From160 | From200

  datatype Instruction =
    | NoChange
    | IncreaseByDelta
    | IncreaseByTwoDelta
    | DecreaseByDelta
    | HoldThenDecreaseByTwoDelta

  function Label(i: Instruction): string {
    match i
    case NoChange => "NO INFUSION CHANGE"
    case IncreaseByDelta => "↑ INFUSION by Δ"
    case IncreaseByTwoDelta => "↑ INFUSION by 2Δ"
    case DecreaseByDelta => "↓ INFUSION by Δ"
    case HoldThenDecreaseByTwoDelta => "HOLD x 30 min, then ↓ INFUSION by 2Δ"
  }

  function RateChange(i: Instruction, s: StepSize): real {
    match i
    case NoChange => 0.0
    case IncreaseByDelta => s.d
    case IncreaseByTwoDelta => s.d2
    case DecreaseByDelta => -s.d
    case HoldThenDecreaseByTwoDelta => -s.d2
  }

  function HoldMinutes(i: Instruction): nat {
    if i == HoldThenDecreaseByTwoDelta then 30 else 0
  }

  /** Which branch of the protocol a reading falls under. */
  datatype Disposition =
    | Hypoglycemic(level: HypoglycemiaLevel)
    | RapidFall
    | Adjust(column: Column, instruction: Instruction)
    | NotSpecified

  const HypoglycemiaBands: seq<Row<HypoglycemiaLevel>> := [
    Row(Band(Unbounded, Exclusive(50.0)), Severe),
    Row(Closed(50.0, 74.0), Moderate),
    Row(Closed(75.0, 99.0), Mild)
  ]

  /** The rapid-fall carve-out: BG in the 100-119 column, falling faster than 20 mg/dL/hr. */
  const RapidFallBG: Band := Closed(100.0, 119.0)
  const RapidFallChange: Band := Band(Unbounded, Exclusive(-20.0))

  const ColumnBands: seq<Row<Column>> := [
    Row(Closed(100.0, 119.0), From100),
    Row(Closed(120.0, 159.0), From120),
    Row(Closed(160.0, 199.0), From160),
    Row(Band(Inclusive(200.0), Unbounded), From200)
  ]

  /** Each column's ladder of hourly-change ranges, top row first. */
  function Ladder(column: Column): seq<Row<Instruction>> {
    match column
    case From100 => [
      Row(Band(Exclusive(0.0), Unbounded), NoChange),
      Row(Closed(0.0, 0.0), DecreaseByDelta),
      Row(Band(Inclusive(-20.0), Exclusive(0.0)), DecreaseByDelta)
    ]
    case From120 => [
      Row(Band(Exclusive(40.0), Unbounded), IncreaseByDelta),
      Row(Closed(1.0, 40.0), NoChange),
      Row(Closed(0.0, 0.0), NoChange),
      Row(Band(Inclusive(-20.0), Exclusive(0.0)), NoChange),
      Row(Band(Inclusive(-40.0), Exclusive(-20.0)), DecreaseByDelta),
      Row(Band(Unbounded, Exclusive(-40.0)), HoldThenDecreaseByTwoDelta)
    ]
    case From160 => [
      Row(Band(Exclusive(60.0), Unbounded), IncreaseByTwoDelta),
      Row(Closed(1.0, 60.0), IncreaseByDelta),
      Row(Closed(0.0, 0.0), IncreaseByDelta),
      Row(Band(Inclusive(-40.0), Exclusive(0.0)), NoChange),
      Row(Band(Inclusive(-60.0), Exclusive(-40.0)), DecreaseByDelta),
      Row(Band(Unbounded, Exclusive(-60.0)), HoldThenDecreaseByTwoDelta)
    ]
    case From200 => [
      Row(Band(Exclusive(0.0), Unbounded), IncreaseByTwoDelta),
      Row(Closed(0.0, 0.0), IncreaseByDelta),
      Row(Band(Inclusive(-20.0), Exclusive(0.0)), IncreaseByDelta),
      Row(Band(Inclusive(-60.0), Exclusive(-20.0)), NoChange),
      Row(Band(Inclusive(-80.0), Exclusive(-60.0)), DecreaseByDelta),
      Row(Band(Unbounded, Exclusive(-80.0)), HoldThenDecreaseByTwoDelta)
    ]
  }

  /** The protocol's decision order: hypoglycemia bands, then the rapid-fall
      carve-out, then the column's ladder; silence where no row applies. */
  function Decide(bg: real, change: real): Disposition {
    match FirstMatch(HypoglycemiaBands, bg)
    case Some(level) => Hypoglycemic(level)
    case None =>
      if Contains(RapidFallBG, bg) && Contains(RapidFallChange, change) then RapidFall
      else MainTable(bg, change)
  }

  /** The main adjustment table: the BG column, then that column's ladder. */
  function MainTable(bg: real, change: real): Disposition {
    match FirstMatch(ColumnBands, bg)
    case None => NotSpecified
    case Some(column) => LadderDecision(column, change)
  }

  function LadderDecision(column: Column, change: real): Disposition {
    match FirstMatch(Ladder(column), change)
    case None => NotSpecified
    case Some(i) => Adjust(column, i)
  }

  // ---------------------------------------------------------------------
  // Adjustment: what each table row yields, row by row

  lemma HypoglycemiaBandsRows(bg: real)
    ensures bg < 50.0 ==> FirstMatch(HypoglycemiaBands, bg) == Some(Severe)
    ensures 50.0 <= bg <= 74.0 ==> FirstMatch(HypoglycemiaBands, bg) == Some(Moderate)
    ensures 75.0 <= bg <= 99.0 ==> FirstMatch(HypoglycemiaBands, bg) == Some(Mild)
    ensures (74.0 < bg < 75.0 || 99.0 < bg) ==> FirstMatch(HypoglycemiaBands, bg) == None
  {
    var t := HypoglycemiaBands;
    if bg < 50.0 { FirstMatchAt(t, bg, 0); }
    else if bg <= 74.0 { FirstMatchAt(t, bg, 1); }
    else if 75.0 <= bg <= 99.0 { FirstMatchAt(t, bg, 2); }
    else { FirstMatchSound(t, bg); }
  }

  lemma ColumnBandsRows(bg: real)
    ensures 100.0 <= bg <= 119.0 ==> FirstMatch(ColumnBands, bg) == Some(From100)
    ensures 120.0 <= bg <= 159.0 ==> FirstMatch(ColumnBands, bg) == Some(From120)
    ensures 160.0 <= bg <= 199.0 ==> FirstMatch(ColumnBands, bg) == Some(From160)
    ensures 200.0 <= bg ==> FirstMatch(ColumnBands, bg) == Some(From200)
    ensures (bg < 100.0 || 119.0 < bg < 120.0 || 159.0 < bg < 160.0 || 199.0 < bg < 200.0)
      ==> FirstMatch(ColumnBands, bg) == None
  {
    var t := ColumnBands;
    if 100.0 <= bg <= 119.0 { FirstMatchAt(t, bg, 0); }
    else if 120.0 <= bg <= 159.0 { FirstMatchAt(t, bg, 1); }
    else if 160.0 <= bg <= 199.0 { FirstMatchAt(t, bg, 2); }
    else if 200.0 <= bg { FirstMatchAt(t, bg, 3); }
    else { FirstMatchSound(t, bg); }
  }

  lemma LadderFrom100Rows(c: real)
    ensures c > 0.0 ==> FirstMatch(Ladder(From100), c) == Some(NoChange)
    ensures -20.0 <= c <= 0.0 ==> FirstMatch(Ladder(From100), c) == Some(DecreaseByDelta)
    ensures c < -20.0 ==> FirstMatch(Ladder(From100), c) == None
  {
    var t := Ladder(From100);
    if c > 0.0 { FirstMatchAt(t, c, 0); }
    else if c == 0.0 { FirstMatchAt(t, c, 1); }
    else if c >= -20.0 { FirstMatchAt(t, c, 2); }
    else { FirstMatchSound(t, c); }
  }

  lemma LadderFrom120Rows(c: real)
    ensures c > 40.0 ==> FirstMatch(Ladder(From120), c) == Some(IncreaseByDelta)
    ensures (1.0 <= c <= 40.0 || -20.0 <= c <= 0.0) ==> FirstMatch(Ladder(From120), c) == Some(NoChange)
    ensures -40.0 <= c < -20.0 ==> FirstMatch(Ladder(From120), c) == Some(DecreaseByDelta)
    ensures c < -40.0 ==> FirstMatch(Ladder(From120), c) == Some(HoldThenDecreaseByTwoDelta)
    ensures 0.0 < c < 1.0 ==> FirstMatch(Ladder(From120), c) == None
  {
    var t := Ladder(From120);
    if c > 40.0 { FirstMatchAt(t, c, 0); }
    else if c >= 1.0 { FirstMatchAt(t, c, 1); }
    else if c == 0.0 { FirstMatchAt(t, c, 2); }
    else if -20.0 <= c < 0.0 { FirstMatchAt(t, c, 3); }
    else if -40.0 <= c < -20.0 { FirstMatchAt(t, c, 4); }
    else if c < -40.0 { FirstMatchAt(t, c, 5); }
    else { FirstMatchSound(t, c); }
  }

  lemma LadderFrom160Rows(c: real)
    ensures c > 60.0 ==> FirstMatch(Ladder(From160), c) == Some(IncreaseByTwoDelta)
    ensures (1.0 <= c <= 60.0 || c == 0.0) ==> FirstMatch(Ladder(From160), c) == Some(IncreaseByDelta)
    ensures -40.0 <= c < 0.0 ==> FirstMatch(Ladder(From160), c) == Some(NoChange)
    ensures -60.0 <= c < -40.0 ==> FirstMatch(Ladder(From160), c) == Some(DecreaseByDelta)
    ensures c < -60.0 ==> FirstMatch(Ladder(From160), c) == Some(HoldThenDecreaseByTwoDelta)
    ensures 0.0 < c < 1.0 ==> FirstMatch(Ladder(From160), c) == None
  {
    var t := Ladder(From160);
    if c > 60.0 { FirstMatchAt(t, c, 0); }
    else if c >= 1.0 { FirstMatchAt(t, c, 1); }
    else if c == 0.0 { FirstMatchAt(t, c, 2); }
    else if -40.0 <= c < 0.0 { FirstMatchAt(t, c, 3); }
    else if -60.0 <= c < -40.0 { FirstMatchAt(t, c, 4); }
    else if c < -60.0 { FirstMatchAt(t, c, 5); }
    else { FirstMatchSound(t, c); }
  }

  lemma LadderFrom200Rows(c: real)
    ensures c > 0.0 ==> FirstMatch(Ladder(From200), c) == Some(IncreaseByTwoDelta)
    ensures -20.0 <= c <= 0.0 ==> FirstMatch(Ladder(From200), c) == Some(IncreaseByDelta)
    ensures -60.0 <= c < -20.0 ==> FirstMatch(Ladder(From200), c) == Some(NoChange)
    ensures -80.0 <= c < -60.0 ==> FirstMatch(Ladder(From200), c) == Some(DecreaseByDelta)
    ensures c < -80.0 ==> FirstMatch(Ladder(From200), c) == Some(HoldThenDecreaseByTwoDelta)
  {
    var t := Ladder(From200);
    if c > 0.0 { FirstMatchAt(t, c, 0); }
    else if c == 0.0 { FirstMatchAt(t, c, 1); }
    else if -20.0 <= c < 0.0 { FirstMatchAt(t, c, 2); }
    else if -60.0 <= c < -20.0 { FirstMatchAt(t, c, 3); }
    else if -80.0 <= c < -60.0 { FirstMatchAt(t, c, 4); }
    else { FirstMatchAt(t, c, 5); }
  }

  // ---------------------------------------------------------------------
  // Adjustment: the result records

  function Abs(x: real): real {
    if x < 0.0 then -x else x
  }

  /** Math.max */
  function Max(a: real, b: real): real {
    if a >= b then a else b
  }

  function HypoglycemiaResult(level: HypoglycemiaLevel, currentRate: real): CalculationResult {
    match level
    case Severe =>
      CalculationResult(
        Hypoglycemia, StopInfusion, Off,
        [Fixed(SevereHypoglycemiaRule), Fixed(RecheckUntil90), Restart(30, 50, currentRate * 0.5)],
        None, Every15MinUntil90, None)
    case Moderate =>
      CalculationResult(
        Hypoglycemia, StopInfusion, Off,
        [Fixed(ModerateHypoglycemiaRule), Fixed(RecheckUntil90), Restart(30, 50, currentRate * 0.5)],
        None, Every15MinUntil90, None)
    case Mild =>
      CalculationResult(
        Hypoglycemia, StopInfusion, Off,
        [Fixed(MildHypoglycemiaRule), Fixed(RecheckUntilReachesOrRemains90), Restart(30, 75, currentRate * 0.75)],
        None, Every15MinUntilReachesOrRemains90, None)
  }

  function RapidFallResult(hourlyChange: real, currentRate: real): CalculationResult {
    CalculationResult(
      RapidFallWarning, StopInfusionRapidFall, Off,
      [FallingBy(Abs(hourlyChange)), Fixed(RapidFallStopRule), Restart(0, 75, currentRate * 0.75)],
      None, In15MinToBeSure90, None)
  }

  const NotSpecifiedResult: CalculationResult :=
    CalculationResult(
      Adjustment, ClinicalAssessmentRequired, NA,
      [Fixed(NotInProtocol)],
      None, Hourly, None)

  /** The main-table result: the rate moves by rateChange, clamped at zero,
      and the last line is either the hold directive or the rate change. */
  function AdjustedResult(bg: real, hourlyChange: real, currentRate: real, step: StepSize,
                          action: string, rateChange: real, holdTime: nat): CalculationResult
  {
    var newRateValue := Max(0.0, currentRate + rateChange);
    CalculationResult(
      Adjustment, action, Numeric(newRateValue),
      [ ColumnOf(bg),
        HourlyChangeIs(hourlyChange),
        StepSizes(currentRate, step.d, step.d2),
        InstructionIs(action),
        if holdTime > 0 then HoldFor(holdTime) else ChangeRate(currentRate, newRateValue) ],
      None, HourlyUntilStable, None)
  }

  // ---------------------------------------------------------------------
  // Adjustment: specification and engine

  /** Signed mg/dL per hour; negative means falling. */
  function HourlyChange(input: AdjustmentInput): real
    requires input.hoursElapsed > 0.0
  {
    (input.currentBG - input.previousBG) / input.hoursElapsed
  }

  /** The result record for a decision. */
  function Render(decided: Disposition, bg: real, change: real, currentRate: real): CalculationResult {
    match decided
    case Hypoglycemic(level) => HypoglycemiaResult(level, currentRate)
    case RapidFall => RapidFallResult(change, currentRate)
    case NotSpecified => NotSpecifiedResult
    case Adjust(_, i) =>
      var step := GetDelta(currentRate);
      AdjustedResult(bg, change, currentRate, step, Label(i), RateChange(i, step), HoldMinutes(i))
  }

  /** The adjustment the protocol tables prescribe for a reading. */
  function AdjustmentOutcome(input: AdjustmentInput): CalculationResult
    requires input.hoursElapsed > 0.0
  {
    var change := HourlyChange(input);
    Render(Decide(input.currentBG, change), input.currentBG, change, input.currentRate)
  }

  /** BG 100-119 falling faster than 20 mg/dL/hr stops the infusion under
      the rapid-fall section, whatever the current rate. */
  lemma RapidFallOutcome(input: AdjustmentInput)
    requires input.hoursElapsed > 0.0
    requires 100.0 <= input.currentBG <= 119.0 && HourlyChange(input) < -20.0
    ensures AdjustmentOutcome(input) == RapidFallResult(HourlyChange(input), input.currentRate)
  {
    HypoglycemiaBandsRows(input.currentBG);
  }

  /** The main-table locals of the engine agree with the tables' decision:
      they hold the chosen row's instruction, or are untouched when the
      protocol is silent. */
  ghost predicate LocalsAgree(decided: Disposition, step: StepSize,
                              actionStr: string, rateChange: real, holdTime: nat)
  {
    match decided
    case Adjust(_, i) =>
      actionStr != "" && actionStr == Label(i) && rateChange == RateChange(i, step) && holdTime == HoldMinutes(i)
    case NotSpecified => actionStr == ""
    case _ => false
  }

  /** The ladder of the 100-119 column. */
  method LadderFrom100Locals(hourlyChange: real, step: StepSize)
    returns (actionStr: string, rateChange: real, holdTime: nat)
    ensures LocalsAgree(LadderDecision(From100, hourlyChange), step, actionStr, rateChange, holdTime)
  {
    actionStr, rateChange, holdTime := "", 0.0, 0;
    var d := step.d;
    LadderFrom100Rows(hourlyChange);
    if hourlyChange > 0.0 { actionStr := "NO INFUSION CHANGE"; rateChange := 0.0; }
    else if hourlyChange == 0.0 || (hourlyChange < 0.0 && hourlyChange >= -20.0) { actionStr := "↓ INFUSION by Δ"; rateChange := -d; }
  }

  /** The ladder of the 120-159 column. */
  method LadderFrom120Locals(hourlyChange: real, step: StepSize)
    returns (actionStr: string, rateChange: real, holdTime: nat)
    ensures LocalsAgree(LadderDecision(From120, hourlyChange), step, actionStr, rateChange, holdTime)
  {
    actionStr, rateChange, holdTime := "", 0.0, 0;
    var d, d2 := step.d, step.d2;
    LadderFrom120Rows(hourlyChange);
    if hourlyChange > 40.0 { actionStr := "↑ INFUSION by Δ"; rateChange := d; }
    else if (hourlyChange >= 1.0 && hourlyChange <= 40.0) || hourlyChange == 0.0 || (hourlyChange < 0.0 && hourlyChange >= -20.0) { actionStr := "NO INFUSION CHANGE"; rateChange := 0.0; }
    else if hourlyChange < -20.0 && hourlyChange >= -40.0 { actionStr := "↓ INFUSION by Δ"; rateChange := -d; }
    else if hourlyChange < -40.0 { actionStr := "HOLD x 30 min, then ↓ INFUSION by 2Δ"; rateChange := -d2; holdTime := 30; }
  }

  /** The ladder of the 160-199 column. */
  method LadderFrom160Locals(hourlyChange: real, step: StepSize)
    returns (actionStr: string, rateChange: real, holdTime: nat)
    ensures LocalsAgree(LadderDecision(From160, hourlyChange), step, actionStr, rateChange, holdTime)
  {
    actionStr, rateChange, holdTime := "", 0.0, 0;
    var d, d2 := step.d, step.d2;
    LadderFrom160Rows(hourlyChange);
    if hourlyChange > 60.0 { actionStr := "↑ INFUSION by 2Δ"; rateChange := d2; }
    else if (hourlyChange >= 1.0 && hourlyChange <= 60.0) || hourlyChange == 0.0 { actionStr := "↑ INFUSION by Δ"; rateChange := d; }
    else if hourlyChange < 0.0 && hourlyChange >= -40.0 { actionStr := "NO INFUSION CHANGE"; rateChange := 0.0; }
    else if hourlyChange < -40.0 && hourlyChange >= -60.0 { actionStr := "↓ INFUSION by Δ"; rateChange := -d; }
    else if hourlyChange < -60.0 { actionStr := "HOLD x 30 min, then ↓ INFUSION by 2Δ"; rateChange := -d2; holdTime := 30; }
  }

  /** The ladder of the 200 and above column. */
  method LadderFrom200Locals(hourlyChange: real, step: StepSize)
    returns (actionStr: string, rateChange: real, holdTime: nat)
    ensures LocalsAgree(LadderDecision(From200, hourlyChange), step, actionStr, rateChange, holdTime)
  {
    actionStr, rateChange, holdTime := "", 0.0, 0;
    var d, d2 := step.d, step.d2;
    LadderFrom200Rows(hourlyChange);
    if hourlyChange > 0.0 { actionStr := "↑ INFUSION by 2Δ"; rateChange := d2; }
    else if hourlyChange == 0.0 || (hourlyChange < 0.0 && hourlyChange >= -20.0) { actionStr := "↑ INFUSION by Δ"; rateChange := d; }
    else if hourlyChange < -20.0 && hourlyChange >= -60.0 { actionStr := "NO INFUSION CHANGE"; rateChange := 0.0; }
    else if hourlyChange < -60.0 && hourlyChange >= -80.0 { actionStr := "↓ INFUSION by Δ"; rateChange := -d; }
    else if hourlyChange < -80.0 { actionStr := "HOLD x 30 min, then ↓ INFUSION by 2Δ"; rateChange := -d2; holdTime := 30; }
  }

  /** The engine's main adjustment table (BG >= 100): the locals it sets
      are those of the row the tables select, and stay empty where the
      protocol is silent. */
  method MainTableLocals(currentBG: real, hourlyChange: real, step: StepSize)
    returns (actionStr: string, rateChange: real, holdTime: nat)
    ensures LocalsAgree(MainTable(currentBG, hourlyChange), step, actionStr, rateChange, holdTime)
  {
    ColumnBandsRows(currentBG);
    if currentBG >= 100.0 && currentBG <= 119.0 {
      actionStr, rateChange, holdTime := LadderFrom100Locals(hourlyChange, step);
    } else if currentBG >= 120.0 && currentBG <= 159.0 {
      actionStr, rateChange, holdTime := LadderFrom120Locals(hourlyChange, step);
    } else if currentBG >= 160.0 && currentBG <= 199.0 {
      actionStr, rateChange, holdTime := LadderFrom160Locals(hourlyChange, step);
    } else if currentBG >= 200.0 {
      actionStr, rateChange, holdTime := LadderFrom200Locals(hourlyChange, step);
    } else {
      actionStr, rateChange, holdTime := "", 0.0, 0;
    }
  }

  /** The engine's own if-chain with its mutable locals; it computes exactly
      what the tables prescribe. */
  method CalculateAdjustmentRate(input: AdjustmentInput) returns (r: CalculationResult)
    requires input.hoursElapsed > 0.0
    ensures r == AdjustmentOutcome(input)
  {
    var currentBG, currentRate := input.currentBG, input.currentRate;
    var hourlyChange := HourlyChange(input);
    var step := GetDelta(currentRate);

    // Hypoglycemia bands: < 50, 50-74, 75-99
    if currentBG < 50.0 {
      assert Decide(currentBG, hourlyChange) == Hypoglycemic(Severe) by { HypoglycemiaBandsRows(currentBG); }
      return HypoglycemiaResult(Severe, currentRate);
    }
    if currentBG >= 50.0 && currentBG <= 74.0 {
      assert Decide(currentBG, hourlyChange) == Hypoglycemic(Moderate) by { HypoglycemiaBandsRows(currentBG); }
      return HypoglycemiaResult(Moderate, currentRate);
    }
    if currentBG >= 75.0 && currentBG <= 99.0 {
      assert Decide(currentBG, hourlyChange) == Hypoglycemic(Mild) by { HypoglycemiaBandsRows(currentBG); }
      return HypoglycemiaResult(Mild, currentRate);
    }

    assert FirstMatch(HypoglycemiaBands, currentBG) == None by { HypoglycemiaBandsRows(currentBG); }

    // Rapid fall for 100-119
    if currentBG >= 100.0 && currentBG <= 119.0 && hourlyChange < -20.0 {
      RapidFallOutcome(input);
      return RapidFallResult(hourlyChange, currentRate);
    }

    // Main adjustment table
    var actionStr, rateChange, holdTime := MainTableLocals(currentBG, hourlyChange, step);
    ghost var decided := MainTable(currentBG, hourlyChange);
    assert decided == Decide(currentBG, hourlyChange);
    assert LocalsAgree(decided, step, actionStr, rateChange, holdTime);

    if actionStr == "" {
      assert decided == NotSpecified;
      return NotSpecifiedResult;
    }

    ghost var i := decided.instruction;
    assert actionStr == Label(i) && rateChange == RateChange(i, step) && holdTime == HoldMinutes(i);
    assert AdjustmentOutcome(input)
        == AdjustedResult(currentBG, hourlyChange, currentRate, step, Label(i), RateChange(i, step), HoldMinutes(i));
    return AdjustedResult(currentBG, hourlyChange, currentRate, step, actionStr, rateChange, holdTime);
  }
}
