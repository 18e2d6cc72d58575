// The customer order impact risk primitive
// (domain/primitives/customer_order_impact_risk): rolls a customer's order
// decisions up into one impact level.
module CustomerImpact {
  import opened Wrappers
  import opened Common

  datatype CustomerImpactConfig = CustomerImpactConfig(
    primitiveName: string,
    primitiveVersion: string,
    canonicalVersion: string,
    highThreshold: int,
    mediumThreshold: int)

  const DefaultCustomerImpactConfig: CustomerImpactConfig :=
    CustomerImpactConfig("customer_order_impact_risk", "1.0.0", "v1", 5, 2)

  /** A reference to one source order decision. */
  datatype SourceOrderRef = SourceOrderRef(orderSubjectId: string, decisionState: string, evidenceRefs: seq<string>)

  datatype CustomerImpactInput = CustomerImpactInput(
    tenantId: string,
    subjectType: string,
    subjectId: string,
    asOfTs: int,
    orderCountTotal: int,
    orderCountAtRisk: int,
    orderCountUnknown: int,
    atRiskOrderSubjectIds: seq<string>,
    sourceOrderRefs: seq<SourceOrderRef>,
    canonicalVersion: string,
    configVersion: string)

  const HIGH_IMPACT: string := "HIGH_IMPACT"
  const MEDIUM_IMPACT: string := "MEDIUM_IMPACT"
  const LOW_IMPACT: string := "LOW_IMPACT"
  const UNKNOWN: string := "UNKNOWN"

  /** At most this many source orders are echoed in the evidence. */
  const SOURCE_ORDERS_CAP: nat := 100

  datatype ImpactRule =
    | UnknownNoOrdersFound
    | HighImpact
    | MediumImpact
    | LowImpact
    | UnknownAllOrdersUnknown
    | LowImpactNoAtRisk

  function RuleId(rule: ImpactRule): string
  {
    match rule
    case UnknownNoOrdersFound => "customer_order_impact_risk.unknown_no_orders_found"
    case HighImpact => "customer_order_impact_risk.high_impact"
    case MediumImpact => "customer_order_impact_risk.medium_impact"
    case LowImpact => "customer_order_impact_risk.low_impact"
    case UnknownAllOrdersUnknown => "customer_order_impact_risk.unknown_all_orders_unknown"
    case LowImpactNoAtRisk => "customer_order_impact_risk.low_impact_no_at_risk"
  }

  function Driver(rule: ImpactRule): string
  {
    match rule
    case UnknownNoOrdersFound => "NO_ORDERS_FOUND"
    case HighImpact => "HIGH_IMPACT"
    case MediumImpact => "MEDIUM_IMPACT"
    case LowImpact => "LOW_IMPACT"
    case UnknownAllOrdersUnknown => "ALL_ORDERS_UNKNOWN"
    case LowImpactNoAtRisk => "NO_AT_RISK_ORDERS"
  }

  function ImpactState(rule: ImpactRule): string
  {
    match rule
    case HighImpact => HIGH_IMPACT
    case MediumImpact => MEDIUM_IMPACT
    case LowImpact => LOW_IMPACT
    case LowImpactNoAtRisk => LOW_IMPACT
    case _ => UNKNOWN
  }

  /** Confidence follows the state: HIGH for high and medium impact, MEDIUM for low, LOW for unknown. */
  function ImpactConfidence(state: string): Confidence
  {
    if state == HIGH_IMPACT || state == MEDIUM_IMPACT then HIGH
    else if state == LOW_IMPACT then MEDIUM
    else LOW
  }

  /** The first rule of the chain whose condition holds on the roll-up counts. */
  function ClassifyImpact(total: int, atRisk: int, unknown: int, config: CustomerImpactConfig): (rule: ImpactRule)
    ensures rule.UnknownNoOrdersFound? <==> total == 0
    ensures rule.HighImpact? <==> total != 0 && atRisk >= config.highThreshold
    ensures rule.MediumImpact? <==>
              total != 0 && atRisk < config.highThreshold && atRisk >= config.mediumThreshold
    ensures rule.LowImpact? <==>
              total != 0 && atRisk < config.highThreshold && atRisk < config.mediumThreshold && atRisk > 0
    ensures rule.UnknownAllOrdersUnknown? <==>
              total != 0 && atRisk < config.highThreshold && atRisk < config.mediumThreshold && atRisk <= 0
              && unknown == total
  {
    if total == 0 then UnknownNoOrdersFound
    else if atRisk >= config.highThreshold then HighImpact
    else if atRisk >= config.mediumThreshold then MediumImpact
    else if atRisk > 0 then LowImpact
    else if unknown == total then UnknownAllOrdersUnknown
    else LowImpactNoAtRisk
  }

  function SourceOrderJson(ref: SourceOrderRef): Value
  {
    Obj(map["order_subject_id" := Str(ref.orderSubjectId),
            "decision_state" := Str(ref.decisionState),
            "evidence_refs" := Strs(ref.evidenceRefs)])
  }

  /** The first SOURCE_ORDERS_CAP source orders, in order. */
  function SourceOrdersJson(refs: seq<SourceOrderRef>): (s: seq<Value>)
    ensures |s| == if |refs| <= SOURCE_ORDERS_CAP then |refs| else SOURCE_ORDERS_CAP
    ensures forall i :: 0 <= i < |s| ==> s[i] == SourceOrderJson(refs[i])
  {
    var capped := if |refs| <= SOURCE_ORDERS_CAP then refs else refs[..SOURCE_ORDERS_CAP];
    seq(|capped|, i requires 0 <= i < |capped| => SourceOrderJson(capped[i]))
  }

  function Thresholds(config: CustomerImpactConfig): Fields
  {
    map["high_threshold" := Int(config.highThreshold), "medium_threshold" := Int(config.mediumThreshold)]
  }

  /** `evaluate_customer_order_impact_risk`; `now` stands for the evaluation wall-clock time. */
  function EvaluateCustomerImpact(input: CustomerImpactInput, config: CustomerImpactConfig, now: int): (res: PrimitiveResult)
    ensures var rule := ClassifyImpact(input.orderCountTotal, input.orderCountAtRisk, input.orderCountUnknown, config);
            res.decision.state == ImpactState(rule)
            && res.decision.drivers == [Driver(rule)]
            && |res.evidenceSet.evidence| == 1
            && res.evidenceSet.evidence[0].ruleIds == [RuleId(rule)]
            && res.evidenceSet.evidence[0].references
               == map["applied_rule_id" := Str(RuleId(rule)),
                      "source_orders" := List(SourceOrdersJson(input.sourceOrderRefs)),
                      "rollup_counts" := Obj(map["total" := Int(input.orderCountTotal),
                                                 "at_risk" := Int(input.orderCountAtRisk),
                                                 "unknown" := Int(input.orderCountUnknown)]),
                      "thresholds" := Obj(Thresholds(config))]
    ensures res.evidenceSet.evidence[0].thresholds == Thresholds(config)
    ensures res.decision.confidence == ImpactConfidence(res.decision.state)
    ensures res.decision.metrics
            == map["order_count_total" := Int(input.orderCountTotal),
                   "order_count_at_risk" := Int(input.orderCountAtRisk),
                   "order_count_unknown" := Int(input.orderCountUnknown),
                   "at_risk_order_subject_ids" := Strs(input.atRiskOrderSubjectIds)]
    ensures res.decision.evidenceRefs == [res.evidenceSet.evidence[0].evidenceId]
    ensures res.evidenceSet.evidence[0].evidenceId == "evidence-" + input.subjectId
    ensures res.decision.versions
              == VersionInfo(config.primitiveVersion, config.canonicalVersion, input.configVersion)
  {
    var rule := ClassifyImpact(input.orderCountTotal, input.orderCountAtRisk, input.orderCountUnknown, config);
    var evidenceId := "evidence-" + input.subjectId;
    var references :=
      map["applied_rule_id" := Str(RuleId(rule)),
          "source_orders" := List(SourceOrdersJson(input.sourceOrderRefs)),
          "rollup_counts" := Obj(map["total" := Int(input.orderCountTotal),
                                     "at_risk" := Int(input.orderCountAtRisk),
                                     "unknown" := Int(input.orderCountUnknown)]),
          "thresholds" := Obj(Thresholds(config))];
    var evidence := Evidence(evidenceId, [RuleId(rule)], Thresholds(config), references, now);
    var metrics :=
      map["order_count_total" := Int(input.orderCountTotal),
          "order_count_at_risk" := Int(input.orderCountAtRisk),
          "order_count_unknown" := Int(input.orderCountUnknown),
          "at_risk_order_subject_ids" := Strs(input.atRiskOrderSubjectIds)];
    var state := ImpactState(rule);
    var decision := DecisionResult(
      state, ImpactConfidence(state), [Driver(rule)], metrics, [evidenceId],
      VersionInfo(config.primitiveVersion, config.canonicalVersion, input.configVersion), now, None);
    PrimitiveResult(decision, EvidenceSet([evidence]))
  }

  /** Position of a known impact level. */
  function ImpactRank(state: string): int
  {
    if state == HIGH_IMPACT then 3 else if state == MEDIUM_IMPACT then 2 else if state == LOW_IMPACT then 1 else 0
  }

  /**
   * Once some order is at risk the level is known, and more at-risk orders
   * never lower it, whatever the two thresholds are.
   */
  lemma ImpactMonotoneInAtRisk(total: int, atRisk: int, more: int, unknown: int, config: CustomerImpactConfig)
    requires total != 0 && 0 < atRisk <= more
    ensures var before := ImpactState(ClassifyImpact(total, atRisk, unknown, config));
            var after := ImpactState(ClassifyImpact(total, more, unknown, config));
            before != UNKNOWN && after != UNKNOWN && ImpactRank(before) <= ImpactRank(after)
  {
  }

  /** The level is UNKNOWN exactly when there are no orders or, none being at risk, all are unknown. */
  lemma ImpactUnknownIff(total: int, atRisk: int, unknown: int, config: CustomerImpactConfig)
    requires atRisk >= 0 && config.mediumThreshold > 0 && config.highThreshold > 0
    ensures ImpactState(ClassifyImpact(total, atRisk, unknown, config)) == UNKNOWN
            <==> total == 0 || (atRisk == 0 && unknown == total)
  {
  }
}
