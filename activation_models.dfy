// Records of the activation policy engine (domain/activation_policy/models.py).
module ActivationModels {
  import opened Wrappers
  import opened Common

  /** A candidate item; `itemGroupId` is the coalesce of linkcode and gtin. */
  datatype ActivationItem = ActivationItem(
    itemGroupId: string,
    gtin: Option<string>,
    linkcode: Option<string>,
    category: Option<string>,
    score: real,
    metadata: Fields)

  datatype ExclusionResult = ExclusionResult(excluded: bool, reasons: seq<string>)

  /** An exclusion check, as the engine receives it: any function of an item. */
  type ExclusionCheck = ActivationItem -> ExclusionResult

  datatype PolicyConfig = PolicyConfig(
    excludeBy: string,
    excludeLookbackDays: int,
    maxItems: int,
    categoryCap: Option<int>,
    minMatchRateForHighConfidence: real)

  const DefaultPolicyConfig: PolicyConfig :=
    PolicyConfig("item_group_id", 14, 20, None, 0.5)

  datatype PolicyOutcome = PolicyOutcome(
    selectedItems: seq<ActivationItem>,
    excludedItems: seq<ActivationItem>,
    excludedCount: int,
    candidatesCount: int,
    matchRate: real,
    drivers: seq<string>,
    computedConfidence: Confidence)

  /** Metadata keys holding an item's reasons and its exclusion reasons. */
  const REASONS_KEY: string := "reasons"
  const EXCLUDED_REASONS_KEY: string := "excluded_reasons"

  /** The same item with one metadata key set; every other field is kept. */
  function WithMeta(item: ActivationItem, key: string, v: Value): (r: ActivationItem)
    ensures r.itemGroupId == item.itemGroupId && r.gtin == item.gtin && r.linkcode == item.linkcode
    ensures r.category == item.category && r.score == item.score
    ensures r.metadata.Keys == item.metadata.Keys + {key} && r.metadata[key] == v
    ensures forall k :: k in item.metadata && k != key ==> r.metadata[k] == item.metadata[k]
  {
    item.(metadata := item.metadata[key := v])
  }

  /** The string list stored under `key`, or the empty list (`metadata.get(key, [])`). */
  function NamesAt(md: Fields, key: string): seq<string>
  {
    if key in md && md[key].Strs? then md[key].strs else []
  }
}
