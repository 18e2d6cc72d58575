// The operational-risk (lapse) primitive (domain/primitives/operational_risk).
module OperationalRisk {
  import opened Wrappers
  import opened Common

  datatype OperationalRiskConfig = OperationalRiskConfig(
    atRiskDays: int,
    primitiveVersion: string,
    canonicalVersion: string)

  /** The configuration with its declared defaults for everything but the threshold. */
  function DefaultConfig(atRiskDays: int): OperationalRiskConfig
  {
    OperationalRiskConfig(atRiskDays, "1.0.0", "v1")
  }

  datatype OperationalRiskInput = OperationalRiskInput(
    tenantId: string,
    subjectType: string,
    subjectId: string,
    asOfTs: int,
    lastTripTs: Option<int>,
    daysSinceLastTrip: Option<int>,
    configVersion: string,
    canonicalVersion: string)

  /** Decision states, as the runner counts them for this primitive. */
  const AT_RISK: string := "AT_RISK"
  const NOT_AT_RISK: string := "NOT_AT_RISK"
  const UNKNOWN: string := "UNKNOWN"
  /** The single rule id; its text is defined in operational_risk/rules.py, which is not part of this model. */
  const RULE_ID_AT_RISK: string

  const DAYS_SINCE_LAST_TRIP: string := "days_since_last_trip"

  /** `_compute_days_since`: calendar days from the last trip to the as-of time. */
  function ComputeDaysSince(lastTrip: int, asOf: int): (days: int)
    ensures lastTrip <= asOf ==> days >= 0
    ensures days == DaysBetween(lastTrip, asOf)
  {
    DaysBetween(lastTrip, asOf)
  }

  /** Python truthiness of an optional count: present and non-zero. */
  predicate TruthyInt(x: Option<int>)
  {
    x.Some? && x.value != 0
  }

  /**
   * The days value the decision uses: with a last trip, the supplied value
   * unless it is missing or zero, else the computed difference; without one,
   * the supplied value as is.
   */
  function DaysUsed(input: OperationalRiskInput): (d: Option<int>)
    ensures input.lastTripTs.Some? ==> d.Some?
    ensures input.lastTripTs.Some? && TruthyInt(input.daysSinceLastTrip) ==> d == input.daysSinceLastTrip
    ensures input.lastTripTs.Some? && !TruthyInt(input.daysSinceLastTrip)
            ==> d == Some(ComputeDaysSince(input.lastTripTs.value, input.asOfTs))
    ensures input.lastTripTs.None? ==> d == input.daysSinceLastTrip
  {
    match input.lastTripTs
    case None => input.daysSinceLastTrip
    case Some(last) =>
      Some(if TruthyInt(input.daysSinceLastTrip) then input.daysSinceLastTrip.value
           else ComputeDaysSince(last, input.asOfTs))
  }

  function EvidenceId(input: OperationalRiskInput): string
  {
    "evidence-" + input.subjectId
  }

  function OptTime(t: Option<int>): Value
  {
    if t.Some? then Time(t.value) else Null
  }

  function OptInt(x: Option<int>): Value
  {
    if x.Some? then Int(x.value) else Null
  }

  /** `evaluate_operational_risk`; `now` stands for the evaluation wall-clock time. */
  function EvaluateOperationalRisk(input: OperationalRiskInput, config: OperationalRiskConfig, now: int): (res: PrimitiveResult)
    ensures input.lastTripTs.None? ==> res.decision.state == UNKNOWN && res.decision.confidence == LOW
    ensures input.lastTripTs.Some? ==>
              res.decision.confidence == HIGH
              && (res.decision.state == AT_RISK <==> DaysUsed(input).value >= config.atRiskDays)
              && (res.decision.state == NOT_AT_RISK <==> DaysUsed(input).value < config.atRiskDays)
    ensures res.decision.drivers == [DAYS_SINCE_LAST_TRIP]
    ensures |res.evidenceSet.evidence| == 1
    ensures var ev := res.evidenceSet.evidence[0];
              ev.ruleIds == [RULE_ID_AT_RISK]
              && ev.evidenceId == "evidence-" + input.subjectId
              && res.decision.evidenceRefs == [ev.evidenceId]
              && ev.thresholds == map["at_risk_days" := Int(config.atRiskDays)]
    ensures res.decision.metrics.Keys == {DAYS_SINCE_LAST_TRIP}
    ensures res.decision.metrics[DAYS_SINCE_LAST_TRIP]
              == Num(if TruthyInt(DaysUsed(input)) then DaysUsed(input).value as real else -1.0)
    ensures res.decision.versions
              == VersionInfo(config.primitiveVersion, config.canonicalVersion, input.configVersion)
  {
    var days := DaysUsed(input);
    var state :=
      if input.lastTripTs.None? then UNKNOWN
      else if days.value >= config.atRiskDays then AT_RISK
      else NOT_AT_RISK;
    var confidence := if input.lastTripTs.None? then LOW else HIGH;
    var evidenceId := EvidenceId(input);
    var evidence := Evidence(
      evidenceId,
      [RULE_ID_AT_RISK],
      map["at_risk_days" := Int(config.atRiskDays)],
      map["last_trip_ts" := OptTime(input.lastTripTs),
          DAYS_SINCE_LAST_TRIP := OptInt(days),
          "as_of_ts" := Time(input.asOfTs)],
      now);
    var versions := VersionInfo(config.primitiveVersion, config.canonicalVersion, input.configVersion);
    var decision := DecisionResult(
      state, confidence, [DAYS_SINCE_LAST_TRIP],
      map[DAYS_SINCE_LAST_TRIP := Num(if TruthyInt(days) then days.value as real else -1.0)],
      [evidenceId], versions, now, None);
    PrimitiveResult(decision, EvidenceSet([evidence]))
  }

  /** The state is always one of the three operational-risk states. */
  lemma OperationalRiskStates(input: OperationalRiskInput, config: OperationalRiskConfig, now: int)
    ensures EvaluateOperationalRisk(input, config, now).decision.state in {AT_RISK, NOT_AT_RISK, UNKNOWN}
    ensures EvaluateOperationalRisk(input, config, now).decision.confidence == LOW
            <==> EvaluateOperationalRisk(input, config, now).decision.state == UNKNOWN
  {
  }

  /**
   * Without a supplied day count, a shopper at risk on one day stays at risk
   * at any later as-of time: the risk only grows as time passes.
   */
  lemma AtRiskPersistsOverTime(input: OperationalRiskInput, config: OperationalRiskConfig, later: int, now: int)
    requires input.lastTripTs.Some? && !TruthyInt(input.daysSinceLastTrip)
    requires input.asOfTs <= later
    requires EvaluateOperationalRisk(input, config, now).decision.state == AT_RISK
    ensures EvaluateOperationalRisk(input.(asOfTs := later), config, now).decision.state == AT_RISK
  {
  }
}
