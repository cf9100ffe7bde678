/** What the engine promises: rounding, step sizes, the initial dose, and
    the precedence, coverage and arithmetic of the adjustment decision. */
module EngineProperties {
  import opened Types
  import opened Bands
  import opened ProtocolEngine

  // ---------------------------------------------------------------------
  // Rounding and step sizes

  /** The two facts RoundToHalf promises pin its result down: the only
      multiple of 0.5 in the window (x - 0.25, x + 0.25] is the result. */
  lemma RoundToHalfUnique(x: real, m: int)
    requires x - 0.25 < m as real / 2.0 <= x + 0.25
    ensures RoundToHalf(x) == m as real / 2.0
  {
    var n := (2.0 * RoundToHalf(x)).Floor;
    assert RoundToHalf(x) == n as real / 2.0;
    assert -1 < n - m < 1;
  }

  /** Exact ties go up (toward +infinity, also for negative values);
      everything else goes to the nearer multiple. */
  lemma RoundToHalfExamples()
    ensures RoundToHalf(-1.25) == -1.0
    ensures RoundToHalf(1.25) == 1.5
    ensures RoundToHalf(1.24) == 1.0
    ensures RoundToHalf(2.74) == 2.5
    ensures RoundToHalf(2.75) == 3.0
  {
    RoundToHalfUnique(-1.25, -2);
    RoundToHalfUnique(1.25, 3);
    RoundToHalfUnique(1.24, 2);
    RoundToHalfUnique(2.74, 5);
    RoundToHalfUnique(2.75, 6);
  }

  /** Each boundary rate belongs to the lower band, except 3.0, which opens
      the second band. */
  lemma GetDeltaBoundaries()
    ensures GetDelta(3.0) == StepSize(1.0, 2.0)
    ensures GetDelta(6.0) == StepSize(1.0, 2.0)
    ensures GetDelta(9.5) == StepSize(1.5, 3.0)
    ensures GetDelta(14.5) == StepSize(2.0, 4.0)
    ensures GetDelta(19.5) == StepSize(3.0, 6.0)
  {
  }

  /** A higher rate never gets a smaller step. */
  lemma GetDeltaMonotone(a: real, b: real)
    requires a <= b
    ensures GetDelta(a).d <= GetDelta(b).d
  {
  }

  // ---------------------------------------------------------------------
  // Initial dose

  /** The initial record: the fixed action, the division line then the
      rounding line, hourly monitoring until stable, and the MD-review
      caution above 500 mg/dL. */
  lemma InitialDoseRecord(input: InitialInput)
    ensures var r := CalculateInitialRate(input);
      && r.action == "Administer IV bolus and start infusion."
      && r.explanation == [DividedBy100(input.currentBG, input.currentBG / 100.0), RoundedToHalf(r.bolus.value)]
      && MonitoringText(r.monitoringFrequency) == "Check BG hourly until stable (3 consecutive in target 120-160)."
      && (input.currentBG > 500.0 ==>
            r.caution == Some("Caution: Initial orders should be reviewed with MD for BG > 500 mg/dL."))
  {
  }

  lemma InitialDoseExamples()
    ensures CalculateInitialRate(InitialInput(250.0)).newRate == Numeric(2.5)
    ensures CalculateInitialRate(InitialInput(250.0)).bolus == Some(2.5)
    ensures CalculateInitialRate(InitialInput(500.0)).caution == None
    ensures CalculateInitialRate(InitialInput(501.0)).caution.Some?
  {
    RoundToHalfUnique(2.5, 5);
  }

  // ---------------------------------------------------------------------
  // The decision

  /** The readings for which the protocol tables prescribe nothing: BG
      between two columns, or an hourly change strictly between 0 and 1 in
      the 120-159 and 160-199 columns. */
  predicate ProtocolSilent(bg: real, change: real) {
    || 74.0 < bg < 75.0
    || 99.0 < bg < 100.0
    || 119.0 < bg < 120.0
    || 159.0 < bg < 160.0
    || 199.0 < bg < 200.0
    || (120.0 <= bg <= 199.0 && 0.0 < change < 1.0)
  }

  /** The readings whose row holds the infusion for 30 minutes. */
  predicate HoldsInfusion(bg: real, change: real) {
    || (120.0 <= bg <= 159.0 && change < -40.0)
    || (160.0 <= bg <= 199.0 && change < -60.0)
    || (200.0 <= bg && change < -80.0)
  }

  predicate HypoglycemicBG(bg: real) {
    bg < 50.0 || (50.0 <= bg <= 74.0) || (75.0 <= bg <= 99.0)
  }

  predicate RapidlyFalling(bg: real, change: real) {
    100.0 <= bg <= 119.0 && change < -20.0
  }

  /** The four branches of the decision are taken exactly in their regions. */
  lemma DecideRegions(bg: real, change: real)
    ensures Decide(bg, change).Hypoglycemic? <==> HypoglycemicBG(bg)
    ensures Decide(bg, change) == Disposition.RapidFall <==> RapidlyFalling(bg, change)
    ensures Decide(bg, change) == NotSpecified <==> ProtocolSilent(bg, change)
    ensures Decide(bg, change).Adjust? <==>
      !HypoglycemicBG(bg) && !RapidlyFalling(bg, change) && !ProtocolSilent(bg, change)
    ensures Decide(bg, change).Adjust? && Decide(bg, change).instruction == HoldThenDecreaseByTwoDelta
      <==> HoldsInfusion(bg, change)
    ensures RapidlyFalling(bg, change) ==> !Decide(bg, change).Adjust?
  {
    HypoglycemiaBandsRows(bg);
    ColumnBandsRows(bg);
    if 100.0 <= bg <= 119.0 { LadderFrom100Rows(change); }
    else if 120.0 <= bg <= 159.0 { LadderFrom120Rows(change); }
    else if 160.0 <= bg <= 199.0 { LadderFrom160Rows(change); }
    else if 200.0 <= bg { LadderFrom200Rows(change); }
  }

  // ---------------------------------------------------------------------
  // The adjustment result

  /** BG below 100, in one of the three hypoglycemia bands, always stops the
      infusion, whatever the previous BG, the elapsed time or the rate. */
  lemma HypoglycemiaStopsInfusion(input: AdjustmentInput)
    requires input.hoursElapsed > 0.0
    ensures AdjustmentOutcome(input).section == Hypoglycemia <==> HypoglycemicBG(input.currentBG)
    ensures HypoglycemicBG(input.currentBG) ==>
      AdjustmentOutcome(input).newRate == Off && |AdjustmentOutcome(input).explanation| == 3
  {
    DecideRegions(input.currentBG, HourlyChange(input));
  }

  /** The 49 and 50 mg/dL readings fall under different hypoglycemia rules. */
  lemma SevereAndModerateDiffer(prev: real, rate: real, hours: real)
    requires hours > 0.0
    ensures AdjustmentOutcome(AdjustmentInput(prev, 49.0, rate, hours)).explanation[0]
         != AdjustmentOutcome(AdjustmentInput(prev, 50.0, rate, hours)).explanation[0]
  {
    HypoglycemiaBandsRows(49.0);
    HypoglycemiaBandsRows(50.0);
  }

  /** The rapid-fall carve-out is chosen exactly for BG 100-119 falling faster
      than 20 mg/dL/hr, and then the infusion stops. */
  lemma RapidFallPrecedence(input: AdjustmentInput)
    requires input.hoursElapsed > 0.0
    ensures AdjustmentOutcome(input).section == RapidFallWarning
        <==> RapidlyFalling(input.currentBG, HourlyChange(input))
    ensures RapidlyFalling(input.currentBG, HourlyChange(input)) ==>
      AdjustmentOutcome(input).newRate == Off
      && AdjustmentOutcome(input).action == StopInfusionRapidFall
  {
    DecideRegions(input.currentBG, HourlyChange(input));
  }

  lemma RapidFallExample()
    ensures AdjustmentOutcome(AdjustmentInput(140.0, 110.0, 3.0, 1.0)).section == RapidFallWarning
    ensures AdjustmentOutcome(AdjustmentInput(140.0, 110.0, 3.0, 1.0)).explanation[0] == FallingBy(30.0)
  {
    RapidFallOutcome(AdjustmentInput(140.0, 110.0, 3.0, 1.0));
  }

  /** BG < 50: stop the infusion, give a full amp of D50, recheck every 15
      minutes, and restart at half the rate 30 minutes after reaching 140. */
  lemma SevereHypoglycemiaRecord(input: AdjustmentInput)
    requires input.hoursElapsed > 0.0
    requires input.currentBG < 50.0
    ensures var r := AdjustmentOutcome(input);
      && r.action == "D/C INSULIN INFUSION"
      && r.explanation == [Fixed(SevereHypoglycemiaRule), Fixed(RecheckUntil90),
                           Restart(30, 50, input.currentRate * 0.5)]
      && MonitoringText(r.monitoringFrequency) == "Recheck BG q 15 min until ≥90 mg/dL."
      && r.bolus == None && r.caution == None
  {
    HypoglycemiaBandsRows(input.currentBG);
  }

  /** BG 50-74: as for BG < 50, with half an amp of D50. */
  lemma ModerateHypoglycemiaRecord(input: AdjustmentInput)
    requires input.hoursElapsed > 0.0
    requires 50.0 <= input.currentBG <= 74.0
    ensures var r := AdjustmentOutcome(input);
      && r.action == "D/C INSULIN INFUSION"
      && r.explanation == [Fixed(ModerateHypoglycemiaRule), Fixed(RecheckUntil90),
                           Restart(30, 50, input.currentRate * 0.5)]
      && MonitoringText(r.monitoringFrequency) == "Recheck BG q 15 min until ≥90 mg/dL."
      && r.bolus == None && r.caution == None
  {
    HypoglycemiaBandsRows(input.currentBG);
  }

  /** BG 75-99: stop the infusion without dextrose, and restart at 75% of the
      rate 30 minutes after reaching 140. */
  lemma MildHypoglycemiaRecord(input: AdjustmentInput)
    requires input.hoursElapsed > 0.0
    requires 75.0 <= input.currentBG <= 99.0
    ensures var r := AdjustmentOutcome(input);
      && r.action == "D/C INSULIN INFUSION"
      && r.explanation == [Fixed(MildHypoglycemiaRule), Fixed(RecheckUntilReachesOrRemains90),
                           Restart(30, 75, input.currentRate * 0.75)]
      && MonitoringText(r.monitoringFrequency) == "Recheck BG q 15 min until reaches or remains ≥90 mg/dL."
      && r.bolus == None && r.caution == None
  {
    HypoglycemiaBandsRows(input.currentBG);
  }

  /** Rapid fall: report the size of the fall, recheck in 15 minutes, and
      restart at 75% of the rate as soon as BG reaches 140, with no wait. */
  lemma RapidFallRecord(input: AdjustmentInput)
    requires input.hoursElapsed > 0.0
    requires RapidlyFalling(input.currentBG, HourlyChange(input))
    ensures var r := AdjustmentOutcome(input);
      && r.section == RapidFallWarning
      && r.action == "D/C INSULIN INFUSION (Section †)"
      && r.explanation == [FallingBy(Abs(HourlyChange(input))), Fixed(RapidFallStopRule),
                           Restart(0, 75, input.currentRate * 0.75)]
      && Abs(HourlyChange(input)) > 20.0
      && MonitoringText(r.monitoringFrequency) == "Recheck BG in 15 min to be sure ≥90 mg/dL."
      && r.bolus == None && r.caution == None
  {
    RapidFallOutcome(input);
  }

  /** A ladder result is monitored hourly until stable; the fallback only
      "Hourly". */
  lemma AdjustmentMonitoring(input: AdjustmentInput)
    requires input.hoursElapsed > 0.0
    ensures AdjustmentOutcome(input).newRate.Numeric? ==>
      MonitoringText(AdjustmentOutcome(input).monitoringFrequency)
        == "Check BG hourly until stable (3 consecutive in target 120-160)."
    ensures AdjustmentOutcome(input).newRate == NA ==>
      MonitoringText(AdjustmentOutcome(input).monitoringFrequency) == "Hourly"
  {
  }

  /** "Clinical assessment required" with no numeric rate and a single line
      is returned exactly where the tables are silent. */
  lemma SilenceExactlyInGaps(input: AdjustmentInput)
    requires input.hoursElapsed > 0.0
    ensures AdjustmentOutcome(input).newRate == NA
        <==> ProtocolSilent(input.currentBG, HourlyChange(input))
    ensures AdjustmentOutcome(input).action == ClinicalAssessmentRequired
        <==> ProtocolSilent(input.currentBG, HourlyChange(input))
    ensures ProtocolSilent(input.currentBG, HourlyChange(input)) ==>
      && AdjustmentOutcome(input).section == Adjustment
      && AdjustmentOutcome(input).explanation == [Fixed(NotInProtocol)]
      && RuleText(AdjustmentOutcome(input).explanation[0].rule)
         == "Explanation not available: this instruction is not explicitly stated in the uploaded protocol."
  {
    var d := Decide(input.currentBG, HourlyChange(input));
    DecideRegions(input.currentBG, HourlyChange(input));
    if d.Adjust? {
      assert Label(d.instruction) != ClinicalAssessmentRequired;
    }
  }

  /** From 200 mg/dL up the ladder covers every hourly change. */
  lemma NoSilenceFrom200(input: AdjustmentInput)
    requires input.hoursElapsed > 0.0
    requires input.currentBG >= 200.0
    ensures AdjustmentOutcome(input).newRate.Numeric?
  {
    SilenceExactlyInGaps(input);
    HypoglycemiaStopsInfusion(input);
    RapidFallPrecedence(input);
  }

  /** The gaps are reached by real readings: BG between the hypoglycemia
      bands, and a slow rise in the 120-159 and 160-199 columns. */
  lemma SilenceBetweenBands()
    ensures AdjustmentOutcome(AdjustmentInput(80.0, 74.5, 2.0, 1.0)).newRate == NA
  {
    var input := AdjustmentInput(80.0, 74.5, 2.0, 1.0);
    assert ProtocolSilent(input.currentBG, HourlyChange(input));
    SilenceExactlyInGaps(input);
  }

  lemma SilenceOnSlowRise()
    ensures AdjustmentOutcome(AdjustmentInput(129.5, 130.0, 2.0, 1.0)).newRate == NA
    ensures AdjustmentOutcome(AdjustmentInput(170.0, 170.5, 2.0, 1.0)).newRate == NA
  {
    var a, b := AdjustmentInput(129.5, 130.0, 2.0, 1.0), AdjustmentInput(170.0, 170.5, 2.0, 1.0);
    assert HourlyChange(a) == 0.5 && HourlyChange(b) == 0.5;
    SilenceExactlyInGaps(a);
    SilenceExactlyInGaps(b);
  }

  /** In the 120-159 column a rise of exactly 40 mg/dL/hr keeps the rate;
      anything faster raises it by Δ. Either rate is clamped at zero. */
  lemma Column120UpperBoundary(input: AdjustmentInput)
    requires input.hoursElapsed > 0.0
    requires 120.0 <= input.currentBG <= 159.0
    ensures HourlyChange(input) == 40.0 ==>
      AdjustmentOutcome(input).action == "NO INFUSION CHANGE"
      && AdjustmentOutcome(input).newRate == Numeric(Max(0.0, input.currentRate))
    ensures HourlyChange(input) > 40.0 ==>
      AdjustmentOutcome(input).action == "↑ INFUSION by Δ"
      && AdjustmentOutcome(input).newRate == Numeric(Max(0.0, input.currentRate + GetDelta(input.currentRate).d))
  {
    HypoglycemiaBandsRows(input.currentBG);
    ColumnBandsRows(input.currentBG);
    LadderFrom120Rows(HourlyChange(input));
  }

  lemma Column120Example()
    ensures AdjustmentOutcome(AdjustmentInput(80.0, 120.0, 5.0, 1.0)).action == "NO INFUSION CHANGE"
    ensures AdjustmentOutcome(AdjustmentInput(80.0, 120.0, 5.0, 1.0)).newRate == Numeric(5.0)
  {
    var input := AdjustmentInput(80.0, 120.0, 5.0, 1.0);
    assert HourlyChange(input) == 40.0;
    Column120UpperBoundary(input);
  }

  /** The hold directive closes the explanation exactly for the steepest
      falls of the three upper columns, and the rate then drops by 2Δ. */
  lemma HoldExactlyBelowThresholds(input: AdjustmentInput)
    requires input.hoursElapsed > 0.0
    ensures (var e := AdjustmentOutcome(input).explanation; e[|e| - 1] == HoldFor(30))
        <==> HoldsInfusion(input.currentBG, HourlyChange(input))
    ensures HoldsInfusion(input.currentBG, HourlyChange(input)) ==>
      AdjustmentOutcome(input).action == "HOLD x 30 min, then ↓ INFUSION by 2Δ"
      && AdjustmentOutcome(input).newRate
         == Numeric(Max(0.0, input.currentRate - 2.0 * GetDelta(input.currentRate).d))
  {
    DecideRegions(input.currentBG, HourlyChange(input));
  }

  /** On the main-table path the rate moves by 0, ±Δ or ±2Δ, is clamped at
      zero, and the explanation is the five ordered steps. */
  lemma MainTablePath(input: AdjustmentInput)
    requires input.hoursElapsed > 0.0
    requires !HypoglycemicBG(input.currentBG)
    requires !RapidlyFalling(input.currentBG, HourlyChange(input))
    requires !ProtocolSilent(input.currentBG, HourlyChange(input))
    ensures var r, rate, s := AdjustmentOutcome(input), input.currentRate, GetDelta(input.currentRate);
      && r.section == Adjustment
      && (|| r.newRate == Numeric(Max(0.0, rate))
          || r.newRate == Numeric(Max(0.0, rate + s.d))
          || r.newRate == Numeric(Max(0.0, rate - s.d))
          || r.newRate == Numeric(Max(0.0, rate + s.d2))
          || r.newRate == Numeric(Max(0.0, rate - s.d2)))
      && |r.explanation| == 5
      && r.explanation[0] == ColumnOf(input.currentBG)
      && r.explanation[1] == HourlyChangeIs(HourlyChange(input))
      && r.explanation[2] == StepSizes(rate, s.d, s.d2)
      && r.explanation[3] == InstructionIs(r.action)
      && (r.explanation[4] == HoldFor(30) || r.explanation[4] == ChangeRate(rate, r.newRate.units))
  {
    DecideRegions(input.currentBG, HourlyChange(input));
  }

  /** For every reading: the explanation is never empty, a numeric rate is
      never negative, and the result is never an initial dose. */
  lemma AdjustmentInvariants(input: AdjustmentInput)
    requires input.hoursElapsed > 0.0
    ensures |AdjustmentOutcome(input).explanation| > 0
    ensures AdjustmentOutcome(input).newRate.Numeric? ==> AdjustmentOutcome(input).newRate.units >= 0.0
    ensures AdjustmentOutcome(input).section != Initial
    ensures AdjustmentOutcome(input).bolus == None && AdjustmentOutcome(input).caution == None
  {
  }

  /** A decrease larger than the current rate stops at zero. */
  lemma ClampAtZero(input: AdjustmentInput)
    requires input.hoursElapsed > 0.0
    requires Decide(input.currentBG, HourlyChange(input)).Adjust?
    requires input.currentRate
           + RateChange(Decide(input.currentBG, HourlyChange(input)).instruction, GetDelta(input.currentRate)) < 0.0
    ensures AdjustmentOutcome(input).newRate == Numeric(0.0)
  {
  }
}
