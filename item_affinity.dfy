// The shopper item affinity score primitive
// (domain/primitives/shopper_item_affinity_score): publishes a shopper's
// precomputed top affinity items.
module ItemAffinity {
  import opened Wrappers
  import opened Common

  datatype ItemAffinityConfig = ItemAffinityConfig(
    primitiveName: string,
    primitiveVersion: string,
    canonicalVersion: string,
    lookbackDays: int,
    topK: int)

  const DefaultItemAffinityConfig: ItemAffinityConfig :=
    ItemAffinityConfig("shopper_item_affinity_score", "1.0.0", "v1", 90, 50)

  /** Each top item is a loosely typed record, keyed by field name. */
  datatype ItemAffinityInput = ItemAffinityInput(
    tenantId: string,
    subjectType: string,
    subjectId: string,
    asOfTs: int,
    topAffinityItems: Option<seq<Fields>>,
    configVersion: string,
    canonicalVersion: string,
    lookbackDays: Option<int>,
    topK: Option<int>)

  const COMPUTED: string := "COMPUTED"
  const UNKNOWN: string := "UNKNOWN"
  const RULE_COMPUTED_HAS_ITEMS: string := "shopper_item_affinity_score.computed_has_items"
  const RULE_UNKNOWN_NO_ITEMS: string := "shopper_item_affinity_score.unknown_no_items"
  const DRIVER_TOP_AFFINITY_COMPUTED: string := "TOP_AFFINITY_COMPUTED"
  const DRIVER_NO_AFFINITY_ITEMS: string := "NO_AFFINITY_ITEMS"
  const SOURCE_TABLE: string := "opsiq_dev.gold.gold_feature_shopper_top_affinity_v1"

  /** The fields copied from each top item into the metrics. */
  const TOP_ITEM_KEYS: seq<string> :=
    ["rank", "item_group_id", "affinity_score", "trip_count", "days_since_last_purchase", "total_sales",
     "gtin_sample", "linkcode_sample", "category", "brand", "item_name", "image_url"]

  /** `item.get(key)`: the field, or null when the key is missing. */
  function GetOrNull(item: Fields, key: string): Value
  {
    if key in item then item[key] else Null
  }

  /** One entry of `top_items`: exactly the listed fields, copied, missing ones as null. */
  function ProjectItem(item: Fields): (m: Fields)
    ensures forall k :: k in m <==> k in TOP_ITEM_KEYS
    ensures forall k :: k in m ==> m[k] == GetOrNull(item, k)
  {
    map k | k in TOP_ITEM_KEYS :: GetOrNull(item, k)
  }

  /** The `top_items` loop: one projected entry per input item, in input order. */
  method TopItemsMetrics(items: seq<Fields>) returns (metrics: seq<Value>)
    ensures |metrics| == |items|
    ensures forall i :: 0 <= i < |items| ==> metrics[i] == Obj(ProjectItem(items[i]))
  {
    metrics := [];
    var i := 0;
    while i < |items|
      invariant 0 <= i <= |items|
      invariant |metrics| == i
      invariant forall j :: 0 <= j < i ==> metrics[j] == Obj(ProjectItem(items[j]))
    {
      metrics := metrics + [Obj(ProjectItem(items[i]))];
      i := i + 1;
    }
  }

  /** The input's value when present, else the configured default. */
  function Effective(x: Option<int>, default: int): (v: int)
    ensures x.Some? ==> v == x.value
    ensures x.None? ==> v == default
  {
    if x.Some? then x.value else default
  }

  /** `evaluate_shopper_item_affinity_score`; `now` stands for the evaluation wall-clock time. */
  method EvaluateItemAffinity(input: ItemAffinityInput, config: ItemAffinityConfig, now: int) returns (res: PrimitiveResult)
    ensures var items := input.topAffinityItems.GetOr([]);
            (items == [] ==> res.decision.state == UNKNOWN && res.decision.confidence == LOW
                             && res.decision.drivers == [DRIVER_NO_AFFINITY_ITEMS])
            && (items != [] ==> res.decision.state == COMPUTED && res.decision.confidence == HIGH
                                && res.decision.drivers == [DRIVER_TOP_AFFINITY_COMPUTED])
    ensures |res.evidenceSet.evidence| == 1
    ensures res.evidenceSet.evidence[0].ruleIds
            == [if input.topAffinityItems.GetOr([]) == [] then RULE_UNKNOWN_NO_ITEMS else RULE_COMPUTED_HAS_ITEMS]
    ensures "top_items" in res.decision.metrics && res.decision.metrics["top_items"].List?
    ensures var items := input.topAffinityItems.GetOr([]);
            var top := res.decision.metrics["top_items"].items;
            |top| == |items| && forall i :: 0 <= i < |items| ==> top[i] == Obj(ProjectItem(items[i]))
    ensures "lookback_days" in res.decision.metrics
            && res.decision.metrics["lookback_days"] == Int(Effective(input.lookbackDays, config.lookbackDays))
    ensures "top_k" in res.decision.metrics && res.decision.metrics["top_k"] == Int(Effective(input.topK, config.topK))
    ensures "as_of_ts" in res.decision.metrics && res.decision.metrics["as_of_ts"] == Time(input.asOfTs)
    ensures res.evidenceSet.evidence[0].evidenceId == "evidence-" + input.subjectId + "-affinity-v1"
    ensures res.decision.evidenceRefs == [res.evidenceSet.evidence[0].evidenceId]
    ensures res.evidenceSet.evidence[0].references
            == map["source_table" := Str(SOURCE_TABLE), "source_as_of_ts" := Time(input.asOfTs)]
    ensures res.evidenceSet.evidence[0].thresholds == map[]
    ensures res.decision.versions
              == VersionInfo(config.primitiveVersion, config.canonicalVersion, input.configVersion)
  {
    var items := input.topAffinityItems.GetOr([]);
    var state, confidence, driver, ruleId;
    if items == [] {
      state, confidence, driver, ruleId := UNKNOWN, LOW, DRIVER_NO_AFFINITY_ITEMS, RULE_UNKNOWN_NO_ITEMS;
    } else {
      state, confidence, driver, ruleId := COMPUTED, HIGH, DRIVER_TOP_AFFINITY_COMPUTED, RULE_COMPUTED_HAS_ITEMS;
    }
    var top := TopItemsMetrics(items);
    var metrics := map["lookback_days" := Int(Effective(input.lookbackDays, config.lookbackDays)),
                       "top_k" := Int(Effective(input.topK, config.topK)),
                       "as_of_ts" := Time(input.asOfTs),
                       "top_items" := List(top)];
    var evidenceId := "evidence-" + input.subjectId + "-affinity-v1";
    var evidence := Evidence(
      evidenceId, [ruleId], map[],
      map["source_table" := Str(SOURCE_TABLE), "source_as_of_ts" := Time(input.asOfTs)], now);
    var decision := DecisionResult(
      state, confidence, [driver], metrics, [evidenceId],
      VersionInfo(config.primitiveVersion, config.canonicalVersion, input.configVersion), now, None);
    res := PrimitiveResult(decision, EvidenceSet([evidence]));
  }

  /** Projecting an already projected item changes nothing. */
  lemma ProjectItemIdempotent(item: Fields)
    ensures ProjectItem(ProjectItem(item)) == ProjectItem(item)
  {
    var p := ProjectItem(item);
    assert forall k :: k in ProjectItem(p) ==> ProjectItem(p)[k] == p[k];
  }
}
