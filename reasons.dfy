// Reason bookkeeping and primitive-level drivers (domain/activation_policy/reasons.py).
module Reasons {
  import opened Wrappers
  import opened Common
  import opened ActivationModels
  import opened Seqs

  const ACTIVATION_POLICY_APPLIED: string := "ACTIVATION_POLICY_APPLIED"
  const AFFINITY_MATCH: string := "AFFINITY_MATCH"
  const EXCLUSIONS_APPLIED: string := "EXCLUSIONS_APPLIED"

  /** The list under `key` with `reason` appended unless already present. */
  function WithReason(names: seq<string>, reason: string): (r: seq<string>)
    ensures reason in r
    ensures r == if reason in names then names else names + [reason]
    ensures NoDuplicates(names) ==> NoDuplicates(r)
  {
    if reason in names then names else names + [reason]
  }

  /** A copy of the item whose list under `key` has gained `reason` (no duplicate). */
  function AddToList(item: ActivationItem, key: string, reason: string): ActivationItem
  {
    WithMeta(item, key, Strs(WithReason(NamesAt(item.metadata, key), reason)))
  }

  /**
   * `add_reason`: the reason is appended to `metadata["reasons"]` only if
   * absent; every other field and metadata key is unchanged.
   */
  function AddReason(item: ActivationItem, reason: string): (r: ActivationItem)
    ensures NamesAt(r.metadata, REASONS_KEY) == WithReason(NamesAt(item.metadata, REASONS_KEY), reason)
    ensures r.itemGroupId == item.itemGroupId && r.gtin == item.gtin && r.linkcode == item.linkcode
            && r.category == item.category && r.score == item.score
    ensures r.metadata.Keys == item.metadata.Keys + {REASONS_KEY}
    ensures forall k :: k in item.metadata && k != REASONS_KEY ==> r.metadata[k] == item.metadata[k]
  {
    AddToList(item, REASONS_KEY, reason)
  }

  /** `add_excluded_reason`: the same on `metadata["excluded_reasons"]`. */
  function AddExcludedReason(item: ActivationItem, reason: string): (r: ActivationItem)
    ensures NamesAt(r.metadata, EXCLUDED_REASONS_KEY) == WithReason(NamesAt(item.metadata, EXCLUDED_REASONS_KEY), reason)
    ensures r.itemGroupId == item.itemGroupId && r.gtin == item.gtin && r.linkcode == item.linkcode
            && r.category == item.category && r.score == item.score
    ensures r.metadata.Keys == item.metadata.Keys + {EXCLUDED_REASONS_KEY}
    ensures forall k :: k in item.metadata && k != EXCLUDED_REASONS_KEY ==> r.metadata[k] == item.metadata[k]
  {
    AddToList(item, EXCLUDED_REASONS_KEY, reason)
  }

  /** Adding the same reason twice is adding it once. */
  lemma AddReasonIdempotent(item: ActivationItem, reason: string)
    ensures AddReason(AddReason(item, reason), reason) == AddReason(item, reason)
  {
    var once := AddReason(item, reason);
    assert reason in NamesAt(once.metadata, REASONS_KEY);
  }

  lemma AddExcludedReasonIdempotent(item: ActivationItem, reason: string)
    ensures AddExcludedReason(AddExcludedReason(item, reason), reason) == AddExcludedReason(item, reason)
  {
    var once := AddExcludedReason(item, reason);
    assert reason in NamesAt(once.metadata, EXCLUDED_REASONS_KEY);
  }

  /** Recording an exclusion reason leaves the ordinary reasons list untouched, and vice versa. */
  lemma ReasonListsIndependent(item: ActivationItem, reason: string)
    ensures NamesAt(AddExcludedReason(item, reason).metadata, REASONS_KEY) == NamesAt(item.metadata, REASONS_KEY)
    ensures NamesAt(AddReason(item, reason).metadata, EXCLUDED_REASONS_KEY) == NamesAt(item.metadata, EXCLUDED_REASONS_KEY)
  {
  }

  /** Some selected item has a positive score. */
  predicate HasAffinityMatch(selected: seq<ActivationItem>)
  {
    exists x :: x in selected && x.score > 0.0
  }

  /**
   * ACTIVATION_POLICY_APPLIED always, then AFFINITY_MATCH when some selected
   * item scores above zero, then EXCLUSIONS_APPLIED when anything was excluded.
   */
  function AggregateDrivers(selected: seq<ActivationItem>, excluded: seq<ActivationItem>): (r: seq<string>)
    ensures 1 <= |r| <= 3 && r[0] == ACTIVATION_POLICY_APPLIED
    ensures AFFINITY_MATCH in r <==> HasAffinityMatch(selected)
    ensures EXCLUSIONS_APPLIED in r <==> excluded != []
    ensures NoDuplicates(r)
    ensures IsSubsequence(r, [ACTIVATION_POLICY_APPLIED, AFFINITY_MATCH, EXCLUSIONS_APPLIED])
  {
    var r := [ACTIVATION_POLICY_APPLIED]
      + (if HasAffinityMatch(selected) then [AFFINITY_MATCH] else [])
      + (if excluded != [] then [EXCLUSIONS_APPLIED] else []);
    DriversSubsequence(HasAffinityMatch(selected), excluded != []);
    r
  }

  lemma DriversSubsequence(affinity: bool, exclusions: bool)
    ensures IsSubsequence(
      [ACTIVATION_POLICY_APPLIED] + (if affinity then [AFFINITY_MATCH] else []) + (if exclusions then [EXCLUSIONS_APPLIED] else []),
      [ACTIVATION_POLICY_APPLIED, AFFINITY_MATCH, EXCLUSIONS_APPLIED])
  {
    var full := [ACTIVATION_POLICY_APPLIED, AFFINITY_MATCH, EXCLUSIONS_APPLIED];
    assert full[..2] == [ACTIVATION_POLICY_APPLIED, AFFINITY_MATCH];
    assert full[..2][..1] == [ACTIVATION_POLICY_APPLIED];
    assert [ACTIVATION_POLICY_APPLIED][..0] == [];
    assert IsSubsequence([ACTIVATION_POLICY_APPLIED], [ACTIVATION_POLICY_APPLIED]);
  }
}
