// The order fulfillment risk primitive (domain/primitives/order_fulfillment_risk):
// rolls the order-line decisions of one order up into one order decision.
module OrderRisk {
  import opened Wrappers
  import opened Common

  datatype OrderRiskConfig = OrderRiskConfig(primitiveName: string, primitiveVersion: string, canonicalVersion: string)

  const DefaultOrderRiskConfig: OrderRiskConfig := OrderRiskConfig("order_fulfillment_risk", "1.0.0", "v1")

  /** A reference to one source order-line decision. */
  datatype SourceLineRef = SourceLineRef(lineSubjectId: string, decisionState: string, evidenceRefs: seq<string>)

  datatype OrderRiskInput = OrderRiskInput(
    tenantId: string,
    subjectType: string,
    subjectId: string,
    asOfTs: int,
    customerId: Option<string>,
    orderLineCountTotal: int,
    orderLineCountAtRisk: int,
    orderLineCountUnknown: int,
    orderLineCountNotAtRisk: int,
    atRiskLineSubjectIds: seq<string>,
    sourceLineRefs: seq<SourceLineRef>,
    canonicalVersion: string,
    configVersion: string)

  const AT_RISK: string := "AT_RISK"
  const NOT_AT_RISK: string := "NOT_AT_RISK"
  const UNKNOWN: string := "UNKNOWN"

  /** At most this many source lines are echoed in the evidence. */
  const SOURCE_LINES_CAP: nat := 100

  datatype OrderRule = UnknownNoLinesFound | AtRiskHasAtRiskLines | UnknownAllLinesUnknown | NotAtRiskAllLinesOk

  function RuleId(rule: OrderRule): string
  {
    match rule
    case UnknownNoLinesFound => "order_fulfillment_risk.unknown_no_lines_found"
    case AtRiskHasAtRiskLines => "order_fulfillment_risk.at_risk_has_at_risk_lines"
    case UnknownAllLinesUnknown => "order_fulfillment_risk.unknown_all_lines_unknown"
    case NotAtRiskAllLinesOk => "order_fulfillment_risk.not_at_risk_all_lines_ok"
  }

  function Driver(rule: OrderRule): string
  {
    match rule
    case UnknownNoLinesFound => "NO_LINES_FOUND"
    case AtRiskHasAtRiskLines => "HAS_AT_RISK_LINES"
    case UnknownAllLinesUnknown => "ALL_LINES_UNKNOWN"
    case NotAtRiskAllLinesOk => "ALL_LINES_OK"
  }

  function OrderState(rule: OrderRule): string
  {
    match rule
    case AtRiskHasAtRiskLines => AT_RISK
    case NotAtRiskAllLinesOk => NOT_AT_RISK
    case _ => UNKNOWN
  }

  /** The first rule of the chain whose condition holds on the roll-up counts. */
  function ClassifyOrder(total: int, atRisk: int, unknown: int): (rule: OrderRule)
    ensures rule.UnknownNoLinesFound? <==> total == 0
    ensures rule.AtRiskHasAtRiskLines? <==> total != 0 && atRisk > 0
    ensures rule.UnknownAllLinesUnknown? <==> total != 0 && atRisk <= 0 && unknown == total
    ensures rule.NotAtRiskAllLinesOk? <==> total != 0 && atRisk <= 0 && unknown != total
  {
    if total == 0 then UnknownNoLinesFound
    else if atRisk > 0 then AtRiskHasAtRiskLines
    else if unknown == total then UnknownAllLinesUnknown
    else NotAtRiskAllLinesOk
  }

  function SourceLineJson(ref: SourceLineRef): Value
  {
    Obj(map["line_subject_id" := Str(ref.lineSubjectId),
            "decision_state" := Str(ref.decisionState),
            "evidence_refs" := Strs(ref.evidenceRefs)])
  }

  /** The first SOURCE_LINES_CAP source lines, in order. */
  function SourceLinesJson(refs: seq<SourceLineRef>): (s: seq<Value>)
    ensures |s| == Min(|refs|, SOURCE_LINES_CAP)
    ensures forall i :: 0 <= i < |s| ==> s[i] == SourceLineJson(refs[i])
  {
    var capped := if |refs| <= SOURCE_LINES_CAP then refs else refs[..SOURCE_LINES_CAP];
    seq(|capped|, i requires 0 <= i < |capped| => SourceLineJson(capped[i]))
  }

  function Min(a: int, b: int): int
  {
    if a <= b then a else b
  }

  function OrderMetrics(input: OrderRiskInput): (m: Fields)
    ensures "customer_id" in m <==> Truthy(input.customerId)
    ensures "order_line_count_total" in m && m["order_line_count_total"] == Int(input.orderLineCountTotal)
    ensures "order_line_count_at_risk" in m && m["order_line_count_at_risk"] == Int(input.orderLineCountAtRisk)
    ensures "order_line_count_unknown" in m && m["order_line_count_unknown"] == Int(input.orderLineCountUnknown)
    ensures "order_line_count_not_at_risk" in m
            && m["order_line_count_not_at_risk"] == Int(input.orderLineCountNotAtRisk)
    ensures "at_risk_line_subject_ids" in m && m["at_risk_line_subject_ids"] == Strs(input.atRiskLineSubjectIds)
  {
    var base := map["order_line_count_total" := Int(input.orderLineCountTotal),
                    "order_line_count_at_risk" := Int(input.orderLineCountAtRisk),
                    "order_line_count_unknown" := Int(input.orderLineCountUnknown),
                    "order_line_count_not_at_risk" := Int(input.orderLineCountNotAtRisk),
                    "at_risk_line_subject_ids" := Strs(input.atRiskLineSubjectIds)];
    if Truthy(input.customerId) then base["customer_id" := Str(input.customerId.value)] else base
  }

  function RollupCounts(input: OrderRiskInput): Value
  {
    Obj(map["total" := Int(input.orderLineCountTotal),
            "at_risk" := Int(input.orderLineCountAtRisk),
            "unknown" := Int(input.orderLineCountUnknown),
            "not_at_risk" := Int(input.orderLineCountNotAtRisk)])
  }

  /** `evaluate_order_fulfillment_risk`; `now` stands for the evaluation wall-clock time. */
  function EvaluateOrderRisk(input: OrderRiskInput, config: OrderRiskConfig, now: int): (res: PrimitiveResult)
    ensures var rule := ClassifyOrder(input.orderLineCountTotal, input.orderLineCountAtRisk, input.orderLineCountUnknown);
            res.decision.state == OrderState(rule)
            && res.decision.drivers == [Driver(rule)]
            && |res.evidenceSet.evidence| == 1
            && res.evidenceSet.evidence[0].ruleIds == [RuleId(rule)]
            && res.evidenceSet.evidence[0].references
               == map["applied_rule_id" := Str(RuleId(rule)),
                      "source_lines" := List(SourceLinesJson(input.sourceLineRefs)),
                      "rollup_counts" := RollupCounts(input)]
    ensures res.decision.confidence == LOW <==> res.decision.state == UNKNOWN
    ensures res.decision.confidence == HIGH <==> res.decision.state != UNKNOWN
    ensures res.decision.metrics == OrderMetrics(input)
    ensures res.evidenceSet.evidence[0].thresholds == map[]
    ensures res.decision.evidenceRefs == [res.evidenceSet.evidence[0].evidenceId]
    ensures res.evidenceSet.evidence[0].evidenceId == "evidence-" + input.subjectId
    ensures res.decision.versions
              == VersionInfo(config.primitiveVersion, config.canonicalVersion, input.configVersion)
  {
    var rule := ClassifyOrder(input.orderLineCountTotal, input.orderLineCountAtRisk, input.orderLineCountUnknown);
    var evidenceId := "evidence-" + input.subjectId;
    var evidence := Evidence(
      evidenceId, [RuleId(rule)], map[],
      map["applied_rule_id" := Str(RuleId(rule)),
          "source_lines" := List(SourceLinesJson(input.sourceLineRefs)),
          "rollup_counts" := RollupCounts(input)],
      now);
    var state := OrderState(rule);
    var decision := DecisionResult(
      state, if state == UNKNOWN then LOW else HIGH, [Driver(rule)], OrderMetrics(input), [evidenceId],
      VersionInfo(config.primitiveVersion, config.canonicalVersion, input.configVersion), now, None);
    PrimitiveResult(decision, EvidenceSet([evidence]))
  }

  /**
   * The roll-up in terms of the order's states: it is AT_RISK exactly when
   * there are lines and some are at risk, and UNKNOWN exactly when there are
   * no lines or, with none at risk, every line is unknown.
   */
  lemma OrderStateMeaning(total: int, atRisk: int, unknown: int)
    ensures var state := OrderState(ClassifyOrder(total, atRisk, unknown));
            state in {AT_RISK, NOT_AT_RISK, UNKNOWN}
            && (state == AT_RISK <==> total != 0 && atRisk > 0)
            && (state == UNKNOWN <==> total == 0 || (atRisk <= 0 && unknown == total))
  {
  }
}
