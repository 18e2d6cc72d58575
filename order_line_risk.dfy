// The order-line fulfillment risk primitive
// (domain/primitives/order_line_fulfillment_risk): whether one order line
// is projected to ship short.
module OrderLineRisk {
  import opened Wrappers
  import opened Common

  datatype OrderLineRiskConfig = OrderLineRiskConfig(
    primitiveName: string,
    primitiveVersion: string,
    canonicalVersion: string,
    closedStatuses: set<string>)

  /** The defaults; an unset closed-status set becomes {CLOSED, CANCELLED}. */
  function NewOrderLineRiskConfig(closedStatuses: Option<set<string>>): (c: OrderLineRiskConfig)
    ensures closedStatuses.Some? ==> c.closedStatuses == closedStatuses.value
    ensures closedStatuses.None? ==> c.closedStatuses == {"CLOSED", "CANCELLED"} && |c.closedStatuses| == 2
    ensures c.primitiveName == "order_line_fulfillment_risk" && c.primitiveVersion == "1.0.0"
            && c.canonicalVersion == "v1"
  {
    OrderLineRiskConfig("order_line_fulfillment_risk", "1.0.0", "v1", closedStatuses.GetOr({"CLOSED", "CANCELLED"}))
  }

  /**
   * `list(s)` of a Python set: each member exactly once. The order is the
   * set's iteration order, which follows the process's string hashing, so
   * the evaluator takes it as a parameter constrained only by this predicate.
   */
  predicate ListsSet(l: seq<string>, s: set<string>)
  {
    (forall i, j | 0 <= i < j < |l| :: l[i] != l[j]) && (set x | x in l) == s
  }

  /** Every set has a listing, so the evaluator can always be called. */
  lemma {:induction false} ListingExists(s: set<string>)
    ensures exists l :: ListsSet(l, s)
    decreases |s|
  {
    if s == {} {
      assert ListsSet([], s);
    } else {
      var x :| x in s;
      ListingExists(s - {x});
      var l :| ListsSet(l, s - {x});
      assert x !in l;
      assert (set y | y in l + [x]) == (set y | y in l) + {x};
      assert ListsSet(l + [x], s);
    }
  }

  /**
   * A listing holds the set's members once each: any two listings of one set
   * are permutations of each other and as long as the set.
   */
  lemma {:induction false} ListingIsSet(l: seq<string>, s: set<string>)
    requires ListsSet(l, s)
    ensures multiset(l) == multiset(s) && |l| == |s|
    decreases |l|
  {
    if l != [] {
      var p, x := l[..|l| - 1], l[|l| - 1];
      assert l == p + [x];
      assert x !in p by {
        forall i | 0 <= i < |p| ensures p[i] != x {
          assert p[i] == l[i];
        }
      }
      assert (set y | y in p) == s - {x} by {
        forall y ensures y in p <==> y in s - {x} {
          if y in p { assert y in l; }
          if y in s - {x} { assert y in l; }
        }
      }
      ListingIsSet(p, s - {x});
      assert multiset(s) == multiset(s - {x}) + multiset{x};
    }
  }

  datatype OrderLineInput = OrderLineInput(
    tenantId: string,
    subjectType: string,
    subjectId: string,
    asOfTs: int,
    needByDate: Option<int>,
    openQuantity: Option<real>,
    projectedAvailableQuantity: Option<real>,
    orderStatus: Option<string>,
    isOnHold: Option<bool>,
    releaseShortageQty: Option<real>,
    plantShortageQty: Option<real>,
    projectedOnhandQtyEod: Option<real>,
    supplyQty: Option<real>,
    demandQty: Option<real>,
    partnum: Option<string>,
    customerId: Option<string>,
    ordernum: Option<Value>,
    orderline: Option<int>,
    orderrelnum: Option<int>,
    plant: Option<string>,
    warehouse: Option<string>,
    canonicalVersion: string,
    configVersion: string)

  const AT_RISK: string := "AT_RISK"
  const NOT_AT_RISK: string := "NOT_AT_RISK"
  const UNKNOWN: string := "UNKNOWN"

  /** The six rules, in priority order. */
  datatype LineRule =
    | UnknownMissingInputs
    | AtRiskOnHold
    | NotAtRiskNotOpen
    | NotAtRiskNoOpenQty
    | AtRiskProjectedShort
    | NotAtRiskSufficientSupply

  function RuleId(rule: LineRule): string
  {
    match rule
    case UnknownMissingInputs => "order_line_fulfillment_risk.unknown_missing_inputs"
    case AtRiskOnHold => "order_line_fulfillment_risk.at_risk_on_hold"
    case NotAtRiskNotOpen => "order_line_fulfillment_risk.not_at_risk_not_open"
    case NotAtRiskNoOpenQty => "order_line_fulfillment_risk.not_at_risk_no_open_qty"
    case AtRiskProjectedShort => "order_line_fulfillment_risk.at_risk_projected_short"
    case NotAtRiskSufficientSupply => "order_line_fulfillment_risk.not_at_risk_sufficient_supply"
  }

  function Driver(rule: LineRule): string
  {
    match rule
    case UnknownMissingInputs => "MISSING_REQUIRED_INPUTS"
    case AtRiskOnHold => "ON_HOLD"
    case NotAtRiskNotOpen => "NOT_OPEN"
    case NotAtRiskNoOpenQty => "NO_OPEN_QTY"
    case AtRiskProjectedShort => "PROJECTED_SHORT"
    case NotAtRiskSufficientSupply => "SUFFICIENT_SUPPLY"
  }

  function LineState(rule: LineRule): (state: string)
    ensures state == UNKNOWN <==> rule.UnknownMissingInputs?
    ensures state == AT_RISK <==> rule.AtRiskOnHold? || rule.AtRiskProjectedShort?
  {
    match rule
    case UnknownMissingInputs => UNKNOWN
    case AtRiskOnHold => AT_RISK
    case AtRiskProjectedShort => AT_RISK
    case _ => NOT_AT_RISK
  }

  predicate HasRequiredInputs(input: OrderLineInput)
  {
    input.needByDate.Some? && input.openQuantity.Some? && input.projectedAvailableQuantity.Some?
  }

  /** The default closed statuses are emitted in one of their two orders. */
  lemma DefaultListings(l: seq<string>)
    requires ListsSet(l, {"CLOSED", "CANCELLED"})
    ensures l == ["CLOSED", "CANCELLED"] || l == ["CANCELLED", "CLOSED"]
  {
    ListingIsSet(l, {"CLOSED", "CANCELLED"});
    assert l[0] in (set x | x in l) && l[1] in (set x | x in l);
  }

  /** The order status, upper-cased, is one of the configured closed statuses. */
  predicate IsClosed(input: OrderLineInput, config: OrderLineRiskConfig)
  {
    input.orderStatus.Some? && Upper(input.orderStatus.value) in config.closedStatuses
  }

  /** The first rule of the chain whose condition holds. */
  function ClassifyLine(input: OrderLineInput, config: OrderLineRiskConfig): (rule: LineRule)
    ensures rule.UnknownMissingInputs? <==> !HasRequiredInputs(input)
    ensures rule.AtRiskOnHold? <==> HasRequiredInputs(input) && input.isOnHold == Some(true)
    ensures rule.NotAtRiskNotOpen? <==>
              HasRequiredInputs(input) && input.isOnHold != Some(true) && IsClosed(input, config)
    ensures rule.NotAtRiskNoOpenQty? <==>
              HasRequiredInputs(input) && input.isOnHold != Some(true) && !IsClosed(input, config)
              && input.openQuantity.value <= 0.0
    ensures rule.AtRiskProjectedShort? <==>
              HasRequiredInputs(input) && input.isOnHold != Some(true) && !IsClosed(input, config)
              && 0.0 < input.openQuantity.value && input.projectedAvailableQuantity.value < input.openQuantity.value
  {
    if !HasRequiredInputs(input) then UnknownMissingInputs
    else if input.isOnHold == Some(true) then AtRiskOnHold
    else if IsClosed(input, config) then NotAtRiskNotOpen
    else if input.openQuantity.value <= 0.0 then NotAtRiskNoOpenQty
    else if input.projectedAvailableQuantity.value < input.openQuantity.value then AtRiskProjectedShort
    else NotAtRiskSufficientSupply
  }

  /** `x or 0.0`: a missing (or zero) quantity reads as zero. */
  function OrZero(x: Option<real>): real
  {
    if x.Some? then x.value else 0.0
  }

  function MaxReal(a: real, b: real): (m: real)
    ensures m >= a && m >= b && (m == a || m == b)
  {
    if a >= b then a else b
  }

  /** The shortage reported with the decision. */
  function Shortage(input: OrderLineInput, config: OrderLineRiskConfig): (shortage: real)
    ensures shortage >= 0.0
    ensures ClassifyLine(input, config).AtRiskProjectedShort? ==>
              shortage == input.openQuantity.value - input.projectedAvailableQuantity.value && shortage > 0.0
    ensures shortage > 0.0 ==> LineState(ClassifyLine(input, config)) == AT_RISK
    ensures ClassifyLine(input, config).NotAtRiskSufficientSupply? ==> shortage == 0.0
    ensures ClassifyLine(input, config).AtRiskOnHold? ==>
              shortage == MaxReal(input.openQuantity.value - input.projectedAvailableQuantity.value, 0.0)
  {
    match ClassifyLine(input, config)
    case UnknownMissingInputs => 0.0
    case AtRiskOnHold => MaxReal(OrZero(input.openQuantity) - OrZero(input.projectedAvailableQuantity), 0.0)
    case NotAtRiskNotOpen => 0.0
    case NotAtRiskNoOpenQty => 0.0
    case AtRiskProjectedShort => input.openQuantity.value - input.projectedAvailableQuantity.value
    case NotAtRiskSufficientSupply =>
      MaxReal(OrZero(input.openQuantity) - OrZero(input.projectedAvailableQuantity), 0.0)
  }

  /** Adds `key := v` when the optional value is present. */
  function PutIf(m: Fields, key: string, v: Option<Value>): (r: Fields)
    ensures v.Some? ==> r == m[key := v.value]
    ensures v.None? ==> r == m
  {
    if v.Some? then m[key := v.value] else m
  }

  function NumOf(x: Option<real>): Option<Value>
  {
    if x.Some? then Some(Num(x.value)) else None
  }

  function StrIfTruthy(x: Option<string>): Option<Value>
  {
    if Truthy(x) then Some(Str(x.value)) else None
  }

  function IntOf(x: Option<int>): Option<Value>
  {
    if x.Some? then Some(Int(x.value)) else None
  }

  /** The optional metrics, each present exactly when its input is. */
  function OptionalLineMetrics(input: OrderLineInput): (m: Fields)
    ensures "need_by_date" in m <==> input.needByDate.Some?
    ensures "customer_id" in m <==> Truthy(input.customerId)
    ensures "ordernum" in m <==> input.ordernum.Some?
    ensures "orderline" in m <==> input.orderline.Some?
    ensures "orderrelnum" in m <==> input.orderrelnum.Some?
  {
    var m0 := PutIf(map[], "release_shortage_qty", NumOf(input.releaseShortageQty));
    var m1 := PutIf(m0, "plant_shortage_qty", NumOf(input.plantShortageQty));
    var m2 := PutIf(m1, "projected_onhand_qty_eod", NumOf(input.projectedOnhandQtyEod));
    var m3 := PutIf(m2, "supply_qty", NumOf(input.supplyQty));
    var m4 := PutIf(m3, "demand_qty", NumOf(input.demandQty));
    var m5 := PutIf(m4, "orderline", IntOf(input.orderline));
    var m6 := PutIf(m5, "orderrelnum", IntOf(input.orderrelnum));
    var m7 := PutIf(m6, "ordernum", input.ordernum);
    var m8 := PutIf(m7, "customer_id", StrIfTruthy(input.customerId));
    PutIf(m8, "need_by_date", if input.needByDate.Some? then Some(Time(input.needByDate.value)) else None)
  }

  /** The decision's metrics: the three quantities always, the optional inputs when present. */
  function LineMetrics(input: OrderLineInput, shortage: real): (m: Fields)
    ensures "open_quantity" in m && m["open_quantity"] == Num(OrZero(input.openQuantity))
    ensures "projected_available_quantity" in m
            && m["projected_available_quantity"] == Num(OrZero(input.projectedAvailableQuantity))
    ensures "shortage_quantity" in m && m["shortage_quantity"] == Num(shortage)
    ensures "need_by_date" in m <==> input.needByDate.Some?
    ensures "customer_id" in m <==> Truthy(input.customerId)
    ensures "ordernum" in m <==> input.ordernum.Some?
    ensures "orderline" in m <==> input.orderline.Some?
    ensures "orderrelnum" in m <==> input.orderrelnum.Some?
  {
    OptionalLineMetrics(input)["open_quantity" := Num(OrZero(input.openQuantity))]
                              ["projected_available_quantity" := Num(OrZero(input.projectedAvailableQuantity))]
                              ["shortage_quantity" := Num(shortage)]
  }

  function OptOf(x: Option<Value>): Value
  {
    if x.Some? then x.value else Null
  }

  /** The evidence references: the rule id and the raw inputs, the identifiers when truthy. */
  function LineReferences(input: OrderLineInput, config: OrderLineRiskConfig, rule: LineRule, closedListing: seq<string>): (m: Fields)
    requires ListsSet(closedListing, config.closedStatuses)
    ensures "applied_rule_id" in m && m["applied_rule_id"] == Str(RuleId(rule))
    ensures "closed_statuses" in m && m["closed_statuses"] == Strs(closedListing)
    ensures "customer_id" in m <==> Truthy(input.customerId)
    ensures "partnum" in m <==> Truthy(input.partnum)
  {
    var m0 := map["applied_rule_id" := Str(RuleId(rule)),
                  "need_by_date" := if input.needByDate.Some? then Time(input.needByDate.value) else Null,
                  "open_quantity" := OptOf(NumOf(input.openQuantity)),
                  "projected_available_quantity" := OptOf(NumOf(input.projectedAvailableQuantity)),
                  "order_status" := if input.orderStatus.Some? then Str(input.orderStatus.value) else Null,
                  "is_on_hold" := if input.isOnHold.Some? then Bool(input.isOnHold.value) else Null,
                  "closed_statuses" := Strs(closedListing)];
    var m1 := PutIf(m0, "partnum", StrIfTruthy(input.partnum));
    var m2 := PutIf(m1, "customer_id", StrIfTruthy(input.customerId));
    var m3 := PutIf(m2, "plant", StrIfTruthy(input.plant));
    PutIf(m3, "warehouse", StrIfTruthy(input.warehouse))
  }

  /**
   * `evaluate_order_line_fulfillment_risk`; `now` stands for the evaluation
   * wall-clock time and `closedListing` for the iteration order of the
   * closed-status set.
   */
  function EvaluateOrderLineRisk(input: OrderLineInput, config: OrderLineRiskConfig, now: int, closedListing: seq<string>): (res: PrimitiveResult)
    requires ListsSet(closedListing, config.closedStatuses)
    ensures var rule := ClassifyLine(input, config);
            res.decision.state == LineState(rule)
            && res.decision.drivers == [Driver(rule)]
            && |res.evidenceSet.evidence| == 1
            && res.evidenceSet.evidence[0].ruleIds == [RuleId(rule)]
            && res.evidenceSet.evidence[0].references == LineReferences(input, config, rule, closedListing)
    ensures res.decision.confidence == (if HasRequiredInputs(input) then HIGH else LOW)
    ensures res.decision.confidence == LOW <==> res.decision.state == UNKNOWN
    ensures res.evidenceSet.evidence[0].references["applied_rule_id"] == Str(res.evidenceSet.evidence[0].ruleIds[0])
    ensures res.decision.metrics == LineMetrics(input, Shortage(input, config))
    ensures res.evidenceSet.evidence[0].thresholds == map["closed_statuses" := Strs(closedListing)]
    ensures res.decision.evidenceRefs == [res.evidenceSet.evidence[0].evidenceId]
    ensures res.evidenceSet.evidence[0].evidenceId == "evidence-" + input.subjectId
    ensures res.decision.versions
              == VersionInfo(config.primitiveVersion, config.canonicalVersion, input.configVersion)
  {
    var rule := ClassifyLine(input, config);
    var evidenceId := "evidence-" + input.subjectId;
    var evidence := Evidence(
      evidenceId, [RuleId(rule)], map["closed_statuses" := Strs(closedListing)],
      LineReferences(input, config, rule, closedListing), now);
    var decision := DecisionResult(
      LineState(rule), if rule.UnknownMissingInputs? then LOW else HIGH, [Driver(rule)],
      LineMetrics(input, Shortage(input, config)), [evidenceId],
      VersionInfo(config.primitiveVersion, config.canonicalVersion, input.configVersion), now, None);
    PrimitiveResult(decision, EvidenceSet([evidence]))
  }

  /**
   * With every required input present, a line that is neither on hold nor
   * closed is at risk exactly when it has open quantity the projection does
   * not cover, and the shortage is then the uncovered amount.
   */
  lemma AtRiskIffUncovered(input: OrderLineInput, config: OrderLineRiskConfig)
    requires HasRequiredInputs(input) && input.isOnHold != Some(true) && !IsClosed(input, config)
    ensures var open := input.openQuantity.value;
            var projected := input.projectedAvailableQuantity.value;
            (LineState(ClassifyLine(input, config)) == AT_RISK <==> 0.0 < open && projected < open)
            && Shortage(input, config) == MaxReal(if open <= 0.0 then 0.0 else open - projected, 0.0)
  {
  }

  /** A missing required input dominates every other rule, the hold flag included. */
  lemma MissingInputsDominate(input: OrderLineInput, config: OrderLineRiskConfig, onHold: Option<bool>, status: Option<string>)
    requires !HasRequiredInputs(input)
    ensures var other := input.(isOnHold := onHold, orderStatus := status);
            ClassifyLine(other, config) == UnknownMissingInputs && Shortage(other, config) == 0.0
  {
  }

  /** The closed-status test ignores letter case. */
  lemma ClosedStatusCaseInsensitive(input: OrderLineInput, config: OrderLineRiskConfig)
    requires input.orderStatus.Some?
    ensures IsClosed(input, config) <==> IsClosed(input.(orderStatus := Some(Upper(input.orderStatus.value))), config)
  {
    UpperIdempotent(input.orderStatus.value);
  }
}
