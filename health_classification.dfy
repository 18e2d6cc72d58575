// The shopper health classification primitive
// (domain/primitives/shopper_health_classification): composes the
// operational-risk state and the frequency-trend state into one health state.
module HealthClassification {
  import opened Wrappers
  import opened Common

  datatype ShopperHealthConfig = ShopperHealthConfig(
    primitiveName: string,
    primitiveVersion: string,
    canonicalVersion: string)

  const DefaultShopperHealthConfig: ShopperHealthConfig :=
    ShopperHealthConfig("shopper_health_classification", "1.0.0", "v1")

  datatype ShopperHealthInput = ShopperHealthInput(
    tenantId: string,
    subjectType: string,
    subjectId: string,
    asOfTs: int,
    riskState: Option<string>,
    trendState: Option<string>,
    riskEvidenceRefs: seq<string>,
    trendEvidenceRefs: seq<string>,
    riskSourceAsOfTs: Option<int>,
    trendSourceAsOfTs: Option<int>,
    canonicalVersion: string,
    configVersion: string)

  /** `ShopperHealthInput.new`: missing evidence-ref lists become empty lists. */
  function NewShopperHealthInput(
    tenantId: string, subjectId: string, asOfTs: int, configVersion: string,
    canonicalVersion: string := "v1", subjectType: string := "shopper",
    riskState: Option<string> := None, trendState: Option<string> := None,
    riskEvidenceRefs: Option<seq<string>> := None, trendEvidenceRefs: Option<seq<string>> := None,
    riskSourceAsOfTs: Option<int> := None, trendSourceAsOfTs: Option<int> := None): (r: ShopperHealthInput)
    ensures r.riskEvidenceRefs == riskEvidenceRefs.GetOr([])
    ensures r.trendEvidenceRefs == trendEvidenceRefs.GetOr([])
    ensures r.riskState == riskState && r.trendState == trendState
    ensures r.riskSourceAsOfTs == riskSourceAsOfTs && r.trendSourceAsOfTs == trendSourceAsOfTs
    ensures r.tenantId == tenantId && r.subjectId == subjectId && r.subjectType == subjectType
    ensures r.asOfTs == asOfTs && r.canonicalVersion == canonicalVersion && r.configVersion == configVersion
  {
    ShopperHealthInput(tenantId, subjectType, subjectId, asOfTs, riskState, trendState,
                       riskEvidenceRefs.GetOr([]), trendEvidenceRefs.GetOr([]),
                       riskSourceAsOfTs, trendSourceAsOfTs, canonicalVersion, configVersion)
  }

  // Decision states.
  const URGENT: string := "URGENT"
  const WATCHLIST: string := "WATCHLIST"
  const HEALTHY: string := "HEALTHY"
  const UNKNOWN: string := "UNKNOWN"

  // The upstream states the rules read.
  const AT_RISK: string := "AT_RISK"
  const NOT_AT_RISK: string := "NOT_AT_RISK"
  const DECLINING: string := "DECLINING"
  const STABLE: string := "STABLE"
  const IMPROVING: string := "IMPROVING"

  // Driver codes.
  const DRIVER_LAPSE_RISK: string := "LAPSE_RISK"
  const DRIVER_INSUFFICIENT_SIGNALS: string := "INSUFFICIENT_SIGNALS"
  const DRIVER_CADENCE_DECLINING: string := "CADENCE_DECLINING"
  const DRIVER_RISK_UNKNOWN: string := "RISK_UNKNOWN"
  const DRIVER_RISK_OK: string := "RISK_OK"
  const DRIVER_CADENCE_OK: string := "CADENCE_OK"
  const DRIVER_PARTIAL_SIGNALS: string := "PARTIAL_SIGNALS"

  /** The six composition rules, in priority order. */
  datatype HealthRule =
    | UrgentAtRisk
    | UnknownInsufficientSignals
    | WatchlistDeclining
    | WatchlistDecliningRiskUnknown
    | HealthyOk
    | UnknownPartialSignals

  function RuleId(rule: HealthRule): string
  {
    match rule
    case UrgentAtRisk => "shopper_health_classification.urgent_at_risk"
    case UnknownInsufficientSignals => "shopper_health_classification.unknown_insufficient_signals"
    case WatchlistDeclining => "shopper_health_classification.watchlist_declining"
    case WatchlistDecliningRiskUnknown => "shopper_health_classification.watchlist_declining_risk_unknown"
    case HealthyOk => "shopper_health_classification.healthy_ok"
    case UnknownPartialSignals => "shopper_health_classification.unknown_partial_signals"
  }

  function HealthState(rule: HealthRule): string
  {
    match rule
    case UrgentAtRisk => URGENT
    case WatchlistDeclining => WATCHLIST
    case WatchlistDecliningRiskUnknown => WATCHLIST
    case HealthyOk => HEALTHY
    case _ => UNKNOWN
  }

  function HealthConfidence(rule: HealthRule): Confidence
  {
    match rule
    case UrgentAtRisk => HIGH
    case UnknownInsufficientSignals => LOW
    case WatchlistDeclining => MEDIUM
    case WatchlistDecliningRiskUnknown => LOW
    case HealthyOk => HIGH
    case UnknownPartialSignals => MEDIUM
  }

  function HealthDrivers(rule: HealthRule): seq<string>
  {
    match rule
    case UrgentAtRisk => [DRIVER_LAPSE_RISK]
    case UnknownInsufficientSignals => [DRIVER_INSUFFICIENT_SIGNALS]
    case WatchlistDeclining => [DRIVER_CADENCE_DECLINING]
    case WatchlistDecliningRiskUnknown => [DRIVER_CADENCE_DECLINING, DRIVER_RISK_UNKNOWN]
    case HealthyOk => [DRIVER_RISK_OK, DRIVER_CADENCE_OK]
    case UnknownPartialSignals => [DRIVER_PARTIAL_SIGNALS]
  }

  /** `state or "UNKNOWN"`: a missing or empty upstream state reads as UNKNOWN. */
  function NormalizeState(s: Option<string>): (n: string)
    ensures Truthy(s) ==> n == s.value
    ensures !Truthy(s) ==> n == UNKNOWN
    ensures n != ""
  {
    if Truthy(s) then s.value else UNKNOWN
  }

  /**
   * The first rule that applies to the normalised pair. Each rule is stated
   * here by its own condition, independent of the order of the chain.
   */
  function ClassifyHealth(risk: string, trend: string): (rule: HealthRule)
    ensures rule == UrgentAtRisk <==> risk == AT_RISK
    ensures rule == UnknownInsufficientSignals <==> risk == UNKNOWN && trend == UNKNOWN
    ensures rule == WatchlistDeclining <==> risk == NOT_AT_RISK && trend == DECLINING
    ensures rule == WatchlistDecliningRiskUnknown <==> risk == UNKNOWN && trend == DECLINING
    ensures rule == HealthyOk <==> risk == NOT_AT_RISK && (trend == STABLE || trend == IMPROVING)
    ensures rule == UnknownPartialSignals <==>
              !(risk == AT_RISK
                || (risk == UNKNOWN && (trend == UNKNOWN || trend == DECLINING))
                || (risk == NOT_AT_RISK && (trend == DECLINING || trend == STABLE || trend == IMPROVING)))
  {
    if risk == AT_RISK then UrgentAtRisk
    else if risk == UNKNOWN && trend == UNKNOWN then UnknownInsufficientSignals
    else if risk == NOT_AT_RISK && trend == DECLINING then WatchlistDeclining
    else if risk == UNKNOWN && trend == DECLINING then WatchlistDecliningRiskUnknown
    else if risk == NOT_AT_RISK && (trend == STABLE || trend == IMPROVING) then HealthyOk
    else UnknownPartialSignals
  }

  /** One entry of `source_primitives`. */
  function SourceEntry(name: string, sourceAsOf: Option<int>, asOf: int, refs: seq<string>): Value
  {
    Obj(map["primitive_name" := Str(name),
            "primitive_version" := Str("1.0.0"),
            "as_of_ts" := Time(sourceAsOf.GetOr(asOf)),
            "evidence_refs" := Strs(refs)])
  }

  /** One entry per upstream state that was supplied (even if empty), risk first. */
  function SourcePrimitives(input: ShopperHealthInput): (s: seq<Value>)
    ensures |s| == (if input.riskState.Some? then 1 else 0) + (if input.trendState.Some? then 1 else 0)
    ensures input.riskState.Some? ==>
              s[0] == SourceEntry("operational_risk", input.riskSourceAsOfTs, input.asOfTs, input.riskEvidenceRefs)
    ensures input.trendState.Some? ==>
              s[|s| - 1] == SourceEntry("shopper_frequency_trend", input.trendSourceAsOfTs, input.asOfTs,
                                        input.trendEvidenceRefs)
  {
    (if input.riskState.Some?
     then [SourceEntry("operational_risk", input.riskSourceAsOfTs, input.asOfTs, input.riskEvidenceRefs)]
     else [])
    + (if input.trendState.Some?
       then [SourceEntry("shopper_frequency_trend", input.trendSourceAsOfTs, input.asOfTs, input.trendEvidenceRefs)]
       else [])
  }

  /** The decision's metrics: both normalised states, and each source time that is known. */
  function HealthMetrics(input: ShopperHealthInput): (m: Fields)
    ensures "risk_state" in m && m["risk_state"] == Str(NormalizeState(input.riskState))
    ensures "trend_state" in m && m["trend_state"] == Str(NormalizeState(input.trendState))
    ensures "risk_source_as_of_ts" in m <==> input.riskSourceAsOfTs.Some?
    ensures "trend_source_as_of_ts" in m <==> input.trendSourceAsOfTs.Some?
  {
    var base := map["risk_state" := Str(NormalizeState(input.riskState)),
                    "trend_state" := Str(NormalizeState(input.trendState))];
    var withRisk :=
      if input.riskSourceAsOfTs.Some? then base["risk_source_as_of_ts" := Time(input.riskSourceAsOfTs.value)]
      else base;
    if input.trendSourceAsOfTs.Some? then withRisk["trend_source_as_of_ts" := Time(input.trendSourceAsOfTs.value)]
    else withRisk
  }

  /** `evaluate_shopper_health_classification`; `now` stands for the evaluation wall-clock time. */
  function EvaluateShopperHealth(input: ShopperHealthInput, config: ShopperHealthConfig, now: int): (res: PrimitiveResult)
    ensures var rule := ClassifyHealth(NormalizeState(input.riskState), NormalizeState(input.trendState));
            res.decision.state == HealthState(rule)
            && res.decision.confidence == HealthConfidence(rule)
            && res.decision.drivers == HealthDrivers(rule)
            && |res.evidenceSet.evidence| == 1
            && res.evidenceSet.evidence[0].ruleIds == [RuleId(rule)]
            && res.evidenceSet.evidence[0].references
               == map["applied_rule_id" := Str(RuleId(rule)),
                      "source_primitives" := List(SourcePrimitives(input)),
                      "composition_inputs" := Obj(map["risk_state" := Str(NormalizeState(input.riskState)),
                                                      "trend_state" := Str(NormalizeState(input.trendState))])]
    ensures res.evidenceSet.evidence[0].thresholds == map[]
    ensures res.decision.metrics == HealthMetrics(input)
    ensures res.decision.evidenceRefs == [res.evidenceSet.evidence[0].evidenceId]
    ensures res.evidenceSet.evidence[0].evidenceId == "evidence-" + input.subjectId
    ensures res.decision.versions
              == VersionInfo(config.primitiveVersion, config.canonicalVersion, input.configVersion)
  {
    var risk := NormalizeState(input.riskState);
    var trend := NormalizeState(input.trendState);
    var rule := ClassifyHealth(risk, trend);
    var evidenceId := "evidence-" + input.subjectId;
    var evidence := Evidence(
      evidenceId, [RuleId(rule)], map[],
      map["applied_rule_id" := Str(RuleId(rule)),
          "source_primitives" := List(SourcePrimitives(input)),
          "composition_inputs" := Obj(map["risk_state" := Str(risk), "trend_state" := Str(trend)])],
      now);
    var decision := DecisionResult(
      HealthState(rule), HealthConfidence(rule), HealthDrivers(rule), HealthMetrics(input), [evidenceId],
      VersionInfo(config.primitiveVersion, config.canonicalVersion, input.configVersion), now, None);
    PrimitiveResult(decision, EvidenceSet([evidence]))
  }

  /**
   * The composition table in terms of the resulting health state: the state
   * is always one of the four, AT_RISK always gives URGENT, and HEALTHY and
   * WATCHLIST each need the signals named.
   */
  lemma HealthStates(risk: string, trend: string)
    ensures var rule := ClassifyHealth(risk, trend);
            HealthState(rule) in {URGENT, WATCHLIST, HEALTHY, UNKNOWN}
            && (HealthState(rule) == URGENT <==> risk == AT_RISK)
            && (HealthState(rule) == HEALTHY <==> risk == NOT_AT_RISK && (trend == STABLE || trend == IMPROVING))
            && (HealthState(rule) == WATCHLIST <==> (risk == NOT_AT_RISK || risk == UNKNOWN) && trend == DECLINING)
            && (HealthConfidence(rule) == HIGH <==> HealthState(rule) in {URGENT, HEALTHY})
  {
  }

  /** A missing upstream state and an empty one classify alike. */
  lemma MissingAndEmptyStatesAgree(input: ShopperHealthInput, config: ShopperHealthConfig, now: int)
    requires input.riskState == Some("")
    ensures EvaluateShopperHealth(input, config, now).decision
            == EvaluateShopperHealth(input.(riskState := None), config, now).decision
  {
  }
}
