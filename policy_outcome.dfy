// Outcome assembly and its confidence rule (domain/activation_policy/__init__.py).
module PolicyOutcomes {
  import opened Wrappers
  import opened Common
  import opened ActivationModels

  /**
   * Empty selection: LOW; else a match rate at or above the threshold: HIGH;
   * else a positive match rate: MEDIUM; else LOW.
   */
  function OutcomeConfidence(selected: seq<ActivationItem>, matchRate: real, threshold: real): Confidence
  {
    if selected == [] then LOW
    else if matchRate >= threshold then HIGH
    else if matchRate > 0.0 then MEDIUM
    else LOW
  }

  function BuildPolicyOutcome(
    selectedItems: seq<ActivationItem>,
    excludedItems: seq<ActivationItem>,
    candidatesCount: int,
    matchRate: real,
    drivers: seq<string>,
    config: PolicyConfig): (o: PolicyOutcome)
    ensures o.excludedCount == |excludedItems|
    ensures o.selectedItems == selectedItems && o.excludedItems == excludedItems
    ensures o.candidatesCount == candidatesCount && o.matchRate == matchRate && o.drivers == drivers
    ensures o.computedConfidence == OutcomeConfidence(selectedItems, matchRate, config.minMatchRateForHighConfidence)
  {
    PolicyOutcome(
      selectedItems, excludedItems, |excludedItems|, candidatesCount, matchRate, drivers,
      OutcomeConfidence(selectedItems, matchRate, config.minMatchRateForHighConfidence))
  }

  /** Each confidence level, characterised independently of the rule order. */
  lemma OutcomeConfidenceCases(selected: seq<ActivationItem>, matchRate: real, threshold: real)
    ensures OutcomeConfidence(selected, matchRate, threshold) == HIGH
            <==> selected != [] && matchRate >= threshold
    ensures OutcomeConfidence(selected, matchRate, threshold) == MEDIUM
            <==> selected != [] && 0.0 < matchRate < threshold
    ensures OutcomeConfidence(selected, matchRate, threshold) == LOW
            <==> selected == [] || (matchRate <= 0.0 && matchRate < threshold)
  {
  }

  function Rank(c: Confidence): nat
  {
    match c
    case LOW => 0
    case MEDIUM => 1
    case HIGH => 2
  }

  /** For a fixed selection, a higher match rate never lowers the confidence. */
  lemma OutcomeConfidenceMonotone(selected: seq<ActivationItem>, r1: real, r2: real, threshold: real)
    requires r1 <= r2
    ensures Rank(OutcomeConfidence(selected, r1, threshold)) <= Rank(OutcomeConfidence(selected, r2, threshold))
  {
  }
}
