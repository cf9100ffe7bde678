/** The value types the engine consumes and produces: the shapes of the
    result record and of the two input records. */
module Types {

  datatype Option<T> = None | Some(value: T)

  /** Which part of the protocol governed a decision. */
  datatype ProtocolSection =
    | Initial            // "Initial Calculation"
    | Hypoglycemia       // "Hypoglycemia Management"
    | Adjustment         // "Infusion Rate Adjustment"
    | RapidFallWarning   // "Rapid Fall (Section †)"

  /** The new infusion rate: a number of units/hr, or one of the two
      textual dispositions the engine returns instead of a number. */
  datatype NewRate =
    | Numeric(units: real)
    | Off   // "0 (Off)"
    | NA    // "N/A"

  /** The fixed sentences of the rationale trail; ProtocolEngine.RuleText
      gives each one's wording. */
  datatype Rule =
    | SevereHypoglycemiaRule
    | ModerateHypoglycemiaRule
    | MildHypoglycemiaRule
    | RecheckUntil90
    | RecheckUntilReachesOrRemains90
    | RapidFallStopRule
    | NotInProtocol

  /** The monitoring instructions; ProtocolEngine.MonitoringText gives each
      one's wording. */
  datatype Monitoring =
    | HourlyUntilStable
    | Every15MinUntil90
    | Every15MinUntilReachesOrRemains90
    | In15MinToBeSure90
    | Hourly

  /** One line of the rationale trail: a fixed sentence of the protocol, or a
      line that interpolates computed numbers and carries those numbers
      (their decimal formatting is not modelled). */
  datatype Line =
    | Fixed(rule: Rule)
      // "Rule 7: Divide initial BG (bg) by 100 = raw."
    | DividedBy100(bg: real, raw: real)
      // "Rule 7: Round to nearest 0.5 units ... = rounded."
    | RoundedToHalf(rounded: real)
      // The restart rule; (waitMinutes, percent) selects its wording:
      //   (30, 50): "Rule: When >= 140 mg/dL, wait 30 min, restart insulin infusion at 50% of most recent rate (rate units/hr)."
      //   (30, 75): "Rule: When >= 140 mg/dL, wait 30 min, restart infusion at 75% of most recent rate (rate units/hr)."
      //   (0, 75):  "Rule: When >= 140 mg/dL, restart infusion @ 75% of most recent rate (rate units/hr)."
    | Restart(waitMinutes: nat, percent: nat, rate: real)
      // "Section †: BG 100-119 mg/dL and BG falling by > 20 mg/dL/hr (Current fall: fall ...)."
    | FallingBy(fall: real)
      // "Step 1: Current BG bg mg/dL identified column."
    | ColumnOf(bg: real)
      // "Step 2: Hourly Rate of Change is change mg/dL/hr."
    | HourlyChangeIs(change: real)
      // "Step 3: Current rate rate units/hr defines Δ = d, 2Δ = d2."
    | StepSizes(rate: real, d: real, d2: real)
      // "Result: Instruction is \"action\"."
    | InstructionIs(action: string)
      // "Hold infusion for minutes minutes before starting new rate."
    | HoldFor(minutes: nat)
      // "Change rate from before to after units/hr."
    | ChangeRate(before: real, after: real)

  datatype CalculationResult = CalculationResult(
    section: ProtocolSection,
    action: string,
    newRate: NewRate,
    explanation: seq<Line>,
    bolus: Option<real>,
    monitoringFrequency: Monitoring,
    caution: Option<string>)

  datatype InitialInput = InitialInput(currentBG: real)

  datatype AdjustmentInput = AdjustmentInput(
    previousBG: real,
    currentBG: real,
    currentRate: real,
    hoursElapsed: real)
}
