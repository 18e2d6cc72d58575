# opsiq-runtime decision pipeline, modelled in Dafny

opsiq-runtime evaluates decision "primitives" for tenants: it reads canonical
input rows from a warehouse, runs the primitive's evaluator on each input,
and writes one decision per subject with its evidence. This project
models the core of that pipeline and proves properties of it. The core has
six parts:

- **Activation policy engine** (`identity.dfy`, `exclusions.dfy`, `ordering.dfy`,
  `stable_sort.dfy`, `selection.dfy`, `reasons.dfy`, `policy_outcome.dfy`).
  It covers item identity resolution, exclusion partitioning with reason tallies,
  a deterministic stable ranking, per-category caps and truncation, match
  rates, driver aggregation and the confidence of a policy outcome.
- **The nine primitive evaluators** (`operational_risk.dfy`,
  `frequency_trend.dfy`, `health_classification.dfy`, `order_line_risk.dfy`,
  `order_risk.dfy`, `customer_impact.dfy`, `item_affinity.dfy`,
  `weekly_ad_slate.dfy`, `coupon_offer_set.dfy`). Each is a first-match decision
  table, and the two pick-N evaluators filter, rank and cap their candidates.
- **Registry and Runner** (`registry.dfy`, `runner.dfy`). The registry is a
  dispatch table keyed by primitive name and version that rejects unknown keys.
  The runner is a class whose `Run` drives the ports it was constructed
  with, in the order the source uses. It records every port call in an
  event trace, and the proofs show the ordering and lock-release properties
  over that trace.
- **Warehouse adapters, their non-SQL logic** (`outputs_repo.dfy`,
  `inputs_repo.dfy`, `table_names.dfy`, `row_cells.dfy`, `row_dedup.dfy`,
  `rollups.dfy`). This covers SQL quote escaping, batching in chunks of 1000
  rows, the natural keys shared by the MERGE and DELETE scopes, and the
  first-row-per-subject deduplication of fetched rows. It also covers the
  order and customer roll-ups built from lower-level decisions.
- **Pack readiness calculator** (`pack_readiness.dfy`): threshold classifiers
  and the FAIL > WARN > PASS aggregation.
- **Job manager** (`job_manager.dfy`): a status state machine over two maps,
  one for jobs and one for cancellation flags.

Shared definitions live in `wrappers.dfy` (Option and Result), `seqs.dfy`
(subsequences, Python slices), `common.dfy` (the JSON-like value, truthiness
and dates) and `activation_models.dfy` (activation items and policy records).

Representation choices:
- Scores, rates and quantities are `real`.
- Dates and timestamps are integer ordinals.
- Metrics, metadata and thresholds are maps from text to a JSON-like `Value`.
- Operations that change state in the source are Dafny classes with
  `modifies` clauses, proved against specification functions. This applies to
  the registry, the job manager, the runner and both warehouse repositories,
  and to the loops of `apply_exclusions`, `apply_category_cap`, the slate and
  offer builders, deduplication and roll-up.

## Model

| member | source | states |
|---|---|---|
| Identity.ResolveItemGroupId | src/opsiq_runtime/domain/activation_policy/identity.py:19-23 | a non-empty linkcode wins whatever the gtin; otherwise a non-empty gtin; None exactly when both are empty or None; a result is a non-empty copy of one argument |
| Identity.BuildActivationItem | src/opsiq_runtime/domain/activation_policy/identity.py:53-64 | fails (the ValueError) exactly when no non-empty id is given or resolves; an explicit non-empty id is used in preference to resolution; the built id is non-empty; gtin, linkcode, category and score are stored unchanged and metadata defaults to empty |
| Identity.RebuildFromIdentity | src/opsiq_runtime/domain/activation_policy/identity.py:53-64 | building an item from its own fields, with its own id, gives back the same item |
| Exclusions.ExcludeIfInSet | src/opsiq_runtime/domain/activation_policy/exclusions.py:24-26 | excluded exactly when the item's group id is in the set; the reasons are the single given reason when excluded, empty otherwise |
| Exclusions.ExcludeIfRecentPurchase | src/opsiq_runtime/domain/activation_policy/exclusions.py:29-47 | the same test against the recently purchased group ids |
| Exclusions.CountReasons | src/opsiq_runtime/domain/activation_policy/exclusions.py:85-86 | the innermost loop: the counts become the tally of everything counted so far followed by this result's reasons |
| Exclusions.RunChecks | src/opsiq_runtime/domain/activation_policy/exclusions.py:75-86 | the per-item loop over the checks: the flag is "some check excludes", the collected reasons are those of every excluding check in check order, and the counts grow by exactly those reasons |
| Exclusions.ApplyExclusions | src/opsiq_runtime/domain/activation_policy/exclusions.py:70-104 | the outer loop returns exactly the eligible items, the marked copies of the excluded ones and the tally of all reasons, as the specification functions define them |
| Exclusions.TallyCounts | src/opsiq_runtime/domain/activation_policy/exclusions.py:84-86 | the reason-count dictionary has a key exactly for each reason seen and counts its occurrences |
| Exclusions.AnyExcludedIff | src/opsiq_runtime/domain/activation_policy/exclusions.py:79-88 | an item is excluded if and only if at least one check reports it excluded |
| Exclusions.ExclusionsPartitionSizes | src/opsiq_runtime/domain/activation_policy/exclusions.py:88-102 | every item lands in exactly one list: the lengths add up to the input's, and eligible plus excluded originals is a permutation of the input |
| Exclusions.ExclusionsKeepOrder | src/opsiq_runtime/domain/activation_policy/exclusions.py:74-102 | both output lists keep input order (each is a subsequence of the input) |
| Exclusions.ExclusionsMembership | src/opsiq_runtime/domain/activation_policy/exclusions.py:88-102 | eligible items are input items no check excludes; excluded ones are input items some check excludes |
| Exclusions.ExcludedAreMarkedOriginals | src/opsiq_runtime/domain/activation_policy/exclusions.py:88-100 | the k-th excluded item is the k-th excluded original, marked with the concatenated reasons of every matching check |
| Exclusions.MarkExcludedKeepsItem | src/opsiq_runtime/domain/activation_policy/exclusions.py:90-99 | a marked copy keeps id, gtin, linkcode, category, score and every other metadata key; it only adds excluded_reasons, holding the reasons |
| Exclusions.ReasonCountsMeaning | src/opsiq_runtime/domain/activation_policy/exclusions.py:84-86 | reason_counts[r] is the number of times r occurs among the reasons of all excluding (item, check) results |
| Exclusions.NoChecksNoExclusions | src/opsiq_runtime/domain/activation_policy/exclusions.py:70-104 | with no checks every item is eligible, none is excluded and the counts are empty |
| Exclusions.TwoChecksReasons | src/opsiq_runtime/domain/activation_policy/exclusions.py:75-91 | with an in-set check and a recent-purchase check, an item matching both keeps both reasons in check order, not only the first |
| Ordering.StableRank | src/opsiq_runtime/domain/activation_policy/ordering.py:21-38 | the ranking has as many items as its input (its order is stated by the lemmas below) |
| Ordering.StableRankSpec | src/opsiq_runtime/domain/activation_policy/ordering.py:38 | the ranking is a permutation of the input, ordered by the key, and keeps items with identical keys in input order |
| Ordering.StableRankUnique | src/opsiq_runtime/domain/activation_policy/ordering.py:38 | any key-ordered list that keeps equal-key items in input order is the ranking (the stable sort is determined) |
| Ordering.StableRankOrder | src/opsiq_runtime/domain/activation_policy/ordering.py:21-35 | scores never increase; among equal scores items with an ad position (a number, or a boolean as 1 or 0) come first and ascend by it; remaining ties ascend by gtin, or item group id when gtin is empty |
| Ordering.StableRankIdempotent | src/opsiq_runtime/domain/activation_policy/ordering.py:38 | re-ranking the ranking is a no-op |
| Ordering.CountMatched | src/opsiq_runtime/domain/activation_policy/ordering.py:54 | the count of positive scores is at most the number of items |
| Ordering.CountMatchedMeaning | src/opsiq_runtime/domain/activation_policy/ordering.py:54 | the count is 0 exactly when no score is positive (a score of exactly 0 is not counted), and all items exactly when every score is positive |
| Ordering.ComputeMatchRate | src/opsiq_runtime/domain/activation_policy/ordering.py:51-55 | 0 for an empty list, otherwise count / length; always within [0, 1]; 0 exactly when no score is positive |
| Ordering.Ratio | src/opsiq_runtime/domain/activation_policy/ordering.py:55 | count / total for a positive total lies in [0, 1], times the total gives the count back, and is 0 only for a zero count |
| Ordering.RatioAtMostOne | src/opsiq_runtime/domain/activation_policy/ordering.py:55 | the same facts for real division |
| StableSort.StrLtIrreflexive | src/opsiq_runtime/domain/activation_policy/ordering.py:33 | Python's string order never puts a string before itself |
| StableSort.StrLtTransitive | src/opsiq_runtime/domain/activation_policy/ordering.py:33 | the string order is transitive |
| StableSort.StrLtAsymmetric | src/opsiq_runtime/domain/activation_policy/ordering.py:33 | the string order is asymmetric |
| StableSort.StrLtTotal | src/opsiq_runtime/domain/activation_policy/ordering.py:33 | any two distinct strings are ordered one way or the other |
| StableSort.KeyLtIrreflexive | src/opsiq_runtime/domain/activation_policy/ordering.py:35 | the tuple key order never puts a key before itself |
| StableSort.KeyLtTransitive | src/opsiq_runtime/domain/activation_policy/ordering.py:35 | the tuple key order is transitive |
| StableSort.KeyLtAsymmetric | src/opsiq_runtime/domain/activation_policy/ordering.py:35 | the tuple key order is asymmetric |
| StableSort.KeyLtTotal | src/opsiq_runtime/domain/activation_policy/ordering.py:35 | any two distinct keys are ordered |
| StableSort.KeyLeTransitive | src/opsiq_runtime/domain/activation_policy/ordering.py:35 | "not after" is transitive, so a sorted list is ordered pairwise |
| StableSort.Insert | src/opsiq_runtime/domain/activation_policy/ordering.py:38 | inserting adds exactly one element |
| StableSort.SortBy | src/opsiq_runtime/domain/activation_policy/ordering.py:38 | sorting keeps the length |
| StableSort.InsertPermutation | src/opsiq_runtime/domain/activation_policy/ordering.py:38 | insertion adds exactly the inserted element to the multiset |
| StableSort.InsertSorted | src/opsiq_runtime/domain/activation_policy/ordering.py:38 | insertion into a sorted list keeps it sorted |
| StableSort.SortByPermutation | src/opsiq_runtime/domain/activation_policy/ordering.py:38 | the sort result is a permutation of its input |
| StableSort.SortBySorted | src/opsiq_runtime/domain/activation_policy/ordering.py:38 | the sort result is ordered by the key |
| StableSort.InsertKeyFilter | src/opsiq_runtime/domain/activation_policy/ordering.py:38 | insertion puts the new element ahead of every element with the same key that was already there |
| StableSort.SortByStable | src/opsiq_runtime/domain/activation_policy/ordering.py:38 | stability: the elements with any given key come out in input order |
| StableSort.SortBySortedIdentity | src/opsiq_runtime/domain/activation_policy/ordering.py:38 | sorting an already sorted list changes nothing |
| StableSort.SortByIdempotent | src/opsiq_runtime/domain/activation_policy/ordering.py:38 | sorting twice is sorting once |
| StableSort.KeyFilterHasKey | src/opsiq_runtime/domain/activation_policy/ordering.py:38 | a non-empty key class has an element with that key |
| StableSort.NonEmptyFilter | src/opsiq_runtime/domain/activation_policy/ordering.py:38 | the first element's key class is non-empty |
| StableSort.SortedUnique | src/opsiq_runtime/domain/activation_policy/ordering.py:38 | two sorted lists with the same key classes are equal |
| StableSort.SortByCharacterized | src/opsiq_runtime/domain/activation_policy/ordering.py:38 | a sorted list with the input's key classes is exactly the stable sort |
| StableSort.SubsequenceSortedBy | src/opsiq_runtime/domain/activation_policy/selection.py:40-51 | dropping elements from a sorted list leaves it sorted (so capping and truncating a ranking keep its order) |
| Seqs.SlicePrefix | src/opsiq_runtime/domain/activation_policy/selection.py:19 | Python's `s[:k]`: a prefix of length min(k, n) for k ≥ 0, and of length max(0, n + k) for a negative k |
| Selection.ApplyMaxItems | src/opsiq_runtime/domain/activation_policy/selection.py:19 | a prefix of the input, of length min(n, max_items) for max_items ≥ 0 (Python's slice meaning otherwise) |
| Selection.ApplyMaxItemsIdempotent | src/opsiq_runtime/domain/activation_policy/selection.py:19 | truncating twice to the same bound is truncating once |
| Selection.ApplyCategoryCap | src/opsiq_runtime/domain/activation_policy/selection.py:37-51 | the loop's result is the category-capped list of the specification function |
| Selection.CategoryCapSubsequence | src/opsiq_runtime/domain/activation_policy/selection.py:40-51 | the capped list is an order-preserving subsequence of the input |
| Selection.CategoryCapPerCategory | src/opsiq_runtime/domain/activation_policy/selection.py:44-49 | every None-category item is kept; each other category keeps exactly its first min(cap, occurrences) items |
| Selection.CategoryCapNonPositive | src/opsiq_runtime/domain/activation_policy/selection.py:44-49 | a cap of 0 or less keeps exactly the None-category items (and an empty input gives an empty output) |
| Reasons.WithReason | src/opsiq_runtime/domain/activation_policy/reasons.py:19-21 | the reason is in the new list; it is appended only when absent, so a duplicate-free list stays duplicate-free |
| Reasons.AddReason | src/opsiq_runtime/domain/activation_policy/reasons.py:19-33 | the item's reasons become the list with the reason added once; id, gtin, linkcode, category, score and every other metadata key are unchanged |
| Reasons.AddExcludedReason | src/opsiq_runtime/domain/activation_policy/reasons.py:49-63 | the same on excluded_reasons |
| Reasons.AddReasonIdempotent | src/opsiq_runtime/domain/activation_policy/reasons.py:19-21 | adding the same reason twice is adding it once |
| Reasons.AddExcludedReasonIdempotent | src/opsiq_runtime/domain/activation_policy/reasons.py:50-51 | adding the same exclusion reason twice is adding it once |
| Reasons.ReasonListsIndependent | src/opsiq_runtime/domain/activation_policy/reasons.py:53-54 | adding an exclusion reason leaves reasons untouched, and adding a reason leaves excluded_reasons untouched |
| Reasons.AggregateDrivers | src/opsiq_runtime/domain/activation_policy/reasons.py:85-99 | starts with ACTIVATION_POLICY_APPLIED; AFFINITY_MATCH exactly when some selected score is positive; EXCLUSIONS_APPLIED exactly when something was excluded; 1 to 3 entries without duplicates, in the fixed order |
| Reasons.DriversSubsequence | src/opsiq_runtime/domain/activation_policy/reasons.py:85-99 | whatever the two conditions, the drivers are a subsequence of the three in their fixed order |
| PolicyOutcomes.BuildPolicyOutcome | src/opsiq_runtime/domain/activation_policy/__init__.py:158-175 | excluded_count is the number of excluded items, every other input is passed through, and the confidence is the rule below |
| PolicyOutcomes.OutcomeConfidenceCases | src/opsiq_runtime/domain/activation_policy/__init__.py:158-165 | HIGH exactly for a non-empty selection with match_rate at or above the threshold; MEDIUM exactly for a non-empty selection with 0 < match_rate < threshold; LOW for an empty selection or a non-positive rate below the threshold |
| PolicyOutcomes.OutcomeConfidenceMonotone | src/opsiq_runtime/domain/activation_policy/__init__.py:158-165 | for a fixed selection and threshold, a higher match rate never gives a lower confidence |
| Common.DayOf | src/opsiq_runtime/domain/primitives/operational_risk/evaluator.py:26 | a timestamp's calendar day: the day whose span of seconds holds it |
| Common.DaysBetween | src/opsiq_runtime/domain/primitives/operational_risk/evaluator.py:25-27 | the calendar-day difference: never negative for ordered stamps, and within one day of the elapsed time |
| OperationalRisk.ComputeDaysSince | src/opsiq_runtime/domain/primitives/operational_risk/evaluator.py:25-27 | the day difference as_of − last_trip, non-negative when the last trip is not later |
| OperationalRisk.DaysUsed | src/opsiq_runtime/domain/primitives/operational_risk/evaluator.py:36-42 | with a last trip: the supplied days when truthy, otherwise (including a supplied 0) the computed difference; without one: the supplied value unchanged |
| OperationalRisk.EvaluateOperationalRisk | src/opsiq_runtime/domain/primitives/operational_risk/evaluator.py:33-78 | no last trip gives UNKNOWN / LOW; otherwise AT_RISK exactly when days ≥ at_risk_days, else NOT_AT_RISK, both HIGH; drivers, rule ids, evidence id and refs, thresholds, the days metric (−1 when days is None or 0) and the versions as the code builds them |
| OperationalRisk.OperationalRiskStates | src/opsiq_runtime/domain/primitives/operational_risk/evaluator.py:38-47 | the state is one of the three, and the confidence is LOW exactly when the state is UNKNOWN |
| OperationalRisk.AtRiskPersistsOverTime | src/opsiq_runtime/domain/primitives/operational_risk/evaluator.py:42-46 | when days are computed from the timestamps, a shopper at risk stays at risk at any later as-of time |
| FrequencyTrend.NewFrequencyInput | src/opsiq_runtime/domain/primitives/shopper_frequency_trend/model.py:26-59 | an explicit recent gap is kept; when absent with both trips known it becomes the day difference last − prev; it stays None when either trip is missing; every other field is copied, with defaults "shopper" and "v1" |
| FrequencyTrend.TrendState | src/opsiq_runtime/domain/primitives/shopper_frequency_trend/evaluator.py:42-88 | each rule's state: UNKNOWN exactly for the five guard rules, DECLINING, IMPROVING and STABLE for the three ratio rules |
| FrequencyTrend.ClassifyTrend | src/opsiq_runtime/domain/primitives/shopper_frequency_trend/evaluator.py:42-88 | missing trips are checked first; a ratio rule runs exactly when every guard passes; DECLINING when ratio ≥ decline threshold, else IMPROVING when ratio ≤ improve threshold (decline is checked first) |
| FrequencyTrend.ClassifyTrendGuards | src/opsiq_runtime/domain/primitives/shopper_frequency_trend/evaluator.py:48-70 | each guard rule fires exactly when the earlier guards pass and its own condition holds (baseline count None or low, baseline gap None or ≤ 0, recent gap missing, recent gap above the maximum) |
| FrequencyTrend.ReportedRatio | src/opsiq_runtime/domain/primitives/shopper_frequency_trend/evaluator.py:73 | a ratio is reported exactly when the ratio branch ran, and is recent / baseline |
| FrequencyTrend.TrendMetrics | src/opsiq_runtime/domain/primitives/shopper_frequency_trend/evaluator.py:121-127 | the three numeric inputs, each −1 when absent, plus "ratio" exactly when the ratio branch ran |
| FrequencyTrend.EvaluateFrequencyTrend | src/opsiq_runtime/domain/primitives/shopper_frequency_trend/evaluator.py:35-140 | state, single driver and single rule id follow the classifying rule; the state is one of four; confidence is HIGH exactly when the state is not UNKNOWN; metrics, evidence id and refs, the ratio reference and versions as built |
| FrequencyTrend.RatioThresholdsCrossMultiplied | src/opsiq_runtime/domain/primitives/shopper_frequency_trend/evaluator.py:73-83 | the ratio tests restated by cross-multiplication with the positive baseline |
| FrequencyTrend.TrendMonotoneInRecentGap | src/opsiq_runtime/domain/primitives/shopper_frequency_trend/evaluator.py:72-88 | a longer recent gap (still in range) never moves the trend towards improving |
| FrequencyTrend.NewWithTripsHasRecentGap | src/opsiq_runtime/domain/primitives/shopper_frequency_trend/model.py:42-44 | an input made with both trips never hits the missing-recent-gap rule, and its gap is non-negative when the trips are in order |
| HealthClassification.NewShopperHealthInput | src/opsiq_runtime/domain/primitives/shopper_health_classification/model.py:26-53 | missing evidence-ref lists become empty lists; every other field, states and source timestamps included, is copied as given, with defaults "v1" and "shopper" |
| HealthClassification.NormalizeState | src/opsiq_runtime/domain/primitives/shopper_health_classification/evaluator.py:39-46 | a missing or empty state reads as UNKNOWN and a non-empty one as itself, so the normalised state is never empty |
| HealthClassification.ClassifyHealth | src/opsiq_runtime/domain/primitives/shopper_health_classification/evaluator.py:48-88 | each of the six rules applies exactly when its own pair condition holds and no earlier rule's does; the partial-signals rule covers every remaining pair |
| HealthClassification.SourcePrimitives | src/opsiq_runtime/domain/primitives/shopper_health_classification/evaluator.py:90-109 | one source entry per upstream state that is present, risk before trend, each with its own source timestamp (or the input's) and evidence refs |
| HealthClassification.HealthMetrics | src/opsiq_runtime/domain/primitives/shopper_health_classification/evaluator.py:131-138 | both normalised states, and each source timestamp key exactly when that timestamp is present |
| HealthClassification.EvaluateShopperHealth | src/opsiq_runtime/domain/primitives/shopper_health_classification/evaluator.py:25-157 | state, confidence and drivers from the classifying rule; one evidence with that rule id, empty thresholds, the applied rule, the source primitives and the composition inputs; the decision cites that evidence |
| HealthClassification.HealthStates | src/opsiq_runtime/domain/primitives/shopper_health_classification/evaluator.py:31-37 | URGENT exactly for AT_RISK, HEALTHY exactly for NOT_AT_RISK with STABLE or IMPROVING, WATCHLIST exactly for a DECLINING trend with a risk of NOT_AT_RISK or UNKNOWN; HIGH confidence exactly for URGENT and HEALTHY |
| HealthClassification.MissingAndEmptyStatesAgree | src/opsiq_runtime/domain/primitives/shopper_health_classification/evaluator.py:39 | an empty risk state yields the same decision as a missing one |
| Common.UpperChar | src/opsiq_runtime/domain/primitives/order_line_fulfillment_risk/evaluator.py:62 | a lower-case ASCII letter maps to an upper-case one, anything else to itself |
| Common.Upper | src/opsiq_runtime/domain/primitives/order_line_fulfillment_risk/evaluator.py:62 | upper-casing keeps the length and maps every character by UpperChar |
| Common.UpperIdempotent | src/opsiq_runtime/domain/primitives/order_line_fulfillment_risk/evaluator.py:62 | upper-casing twice is upper-casing once |
| Common.ReprQuote | src/opsiq_runtime/domain/common/ids.py:10-12 | `repr` quotes a text in double quotes exactly when it holds a single quote and no double quote, else in single quotes |
| Common.EscapeChar | src/opsiq_runtime/domain/common/ids.py:10-12 | a character is written as itself exactly when it is not the quote, a backslash or an ASCII control character; otherwise as an escape of at most four characters |
| Common.StrRepr | src/opsiq_runtime/domain/common/ids.py:10-12 | the repr of a text starts and ends with its quote and is at least two characters longer |
| Common.ReprBodyRoundTrip | src/opsiq_runtime/domain/common/ids.py:10-12 | reading the escapes back gives the text that was escaped |
| Common.StrReprPlain | src/opsiq_runtime/domain/common/ids.py:10-12 | a text without quotes, backslashes or control characters is shown in single quotes as it is |
| Common.CorrelationIdText | src/opsiq_runtime/application/runner.py:64 | the f-string shows the correlation id as `CorrelationId(value=<repr>)`, and the quoted part reads back as the id |
| Common.CorrelationIdTextPlain | src/opsiq_runtime/application/runner.py:64 | the id "abc" shows as `CorrelationId(value='abc')` |
| OrderLineRisk.NewOrderLineRiskConfig | src/opsiq_runtime/domain/primitives/order_line_fulfillment_risk/config.py:11-15 | a missing closed-status set defaults to the two-member set {CLOSED, CANCELLED}; a given set is kept |
| OrderLineRisk.ListingExists | src/opsiq_runtime/domain/primitives/order_line_fulfillment_risk/evaluator.py:133 | every closed-status set can be listed, so `list(closed_statuses)` always has a value to stand for |
| OrderLineRisk.ListingIsSet | src/opsiq_runtime/domain/primitives/order_line_fulfillment_risk/evaluator.py:133 | a listing holds each member of the set exactly once: any two listings are permutations of each other and as long as the set |
| OrderLineRisk.DefaultListings | src/opsiq_runtime/domain/primitives/order_line_fulfillment_risk/evaluator.py:133 | the default set lists as CLOSED, CANCELLED or as CANCELLED, CLOSED, and as nothing else |
| OrderLineRisk.LineState | src/opsiq_runtime/domain/primitives/order_line_fulfillment_risk/evaluator.py:45-92 | UNKNOWN exactly for the missing-inputs rule, AT_RISK exactly for the on-hold and projected-short rules |
| OrderLineRisk.ClassifyLine | src/opsiq_runtime/domain/primitives/order_line_fulfillment_risk/evaluator.py:39-95 | each of the six rules applies exactly when its own condition holds and no earlier rule's does: missing inputs, then on hold, then a closed upper-cased status, then no open quantity, then projected below open |
| OrderLineRisk.Shortage | src/opsiq_runtime/domain/primitives/order_line_fulfillment_risk/evaluator.py:49-95 | never negative; open − projected (positive) for the projected-short rule, clamped at zero for on-hold, zero for sufficient supply; a positive shortage implies AT_RISK |
| OrderLineRisk.LineMetrics | src/opsiq_runtime/domain/primitives/order_line_fulfillment_risk/evaluator.py:98-123 | the three quantities (missing ones as 0.0) and the shortage, plus each optional key exactly when its field is present (customer id when non-empty) |
| OrderLineRisk.LineReferences | src/opsiq_runtime/domain/primitives/order_line_fulfillment_risk/evaluator.py:126-142 | the applied rule id and the closed statuses always, listed once each in the set's iteration order; part number and customer id exactly when non-empty |
| OrderLineRisk.EvaluateOrderLineRisk | src/opsiq_runtime/domain/primitives/order_line_fulfillment_risk/evaluator.py:25-171 | state, single driver and rule id follow the classifying rule; confidence is LOW exactly when the state is UNKNOWN; metrics and references as built; the thresholds and references list the closed-status set once each, in its iteration order; the decision cites the single evidence "evidence-" + subject id |
| OrderLineRisk.AtRiskIffUncovered | src/opsiq_runtime/domain/primitives/order_line_fulfillment_risk/evaluator.py:69-95 | for an open line with all inputs, not on hold: AT_RISK exactly when 0 < open and projected < open, with the matching shortage |
| OrderLineRisk.MissingInputsDominate | src/opsiq_runtime/domain/primitives/order_line_fulfillment_risk/evaluator.py:39-49 | with a required input missing, hold flag and status do not matter: UNKNOWN with zero shortage |
| OrderLineRisk.ClosedStatusCaseInsensitive | src/opsiq_runtime/domain/primitives/order_line_fulfillment_risk/evaluator.py:60-63 | the closed-status test gives the same answer for a status and its upper-cased form |
| OrderRisk.ClassifyOrder | src/opsiq_runtime/domain/primitives/order_fulfillment_risk/evaluator.py:41-64 | each of the four rules applies exactly when its own condition on the counts holds and no earlier rule's does: no lines, then some at risk, then all unknown, else all OK |
| OrderRisk.SourceLinesJson | src/opsiq_runtime/domain/primitives/order_fulfillment_risk/evaluator.py:80-88 | the first min(n, 100) source line references, each echoed in order |
| OrderRisk.OrderMetrics | src/opsiq_runtime/domain/primitives/order_fulfillment_risk/evaluator.py:67-76 | the four counts and the at-risk line ids as given, plus the customer id exactly when it is non-empty |
| OrderRisk.EvaluateOrderRisk | src/opsiq_runtime/domain/primitives/order_fulfillment_risk/evaluator.py:25-128 | state, driver and rule id follow the classifying rule; confidence is LOW exactly for UNKNOWN and HIGH otherwise; references hold the rule id, the capped source lines and the roll-up counts; empty thresholds; the decision cites the single evidence |
| OrderRisk.OrderStateMeaning | src/opsiq_runtime/domain/primitives/order_fulfillment_risk/evaluator.py:31-39 | the state is one of three; AT_RISK exactly when there are lines and some are at risk; UNKNOWN exactly when there are none or every line is unknown with none at risk |
| CustomerImpact.ClassifyImpact | src/opsiq_runtime/domain/primitives/customer_order_impact_risk/evaluator.py:45-80 | each of the six rules applies exactly when its own condition holds and no earlier rule's does: no orders, then at-risk ≥ high, then ≥ medium, then > 0, then all unknown, else no at-risk orders |
| CustomerImpact.SourceOrdersJson | src/opsiq_runtime/domain/primitives/customer_order_impact_risk/evaluator.py:91-100 | the first min(n, 100) source order references, each echoed in order |
| CustomerImpact.EvaluateCustomerImpact | src/opsiq_runtime/domain/primitives/customer_order_impact_risk/evaluator.py:26-146 | state, driver and rule id follow the classifying rule; confidence is HIGH for high and medium, MEDIUM for low, LOW for unknown; references hold the rule id, the capped source orders, the counts and both thresholds; the thresholds map is the two thresholds |
| CustomerImpact.ImpactMonotoneInAtRisk | src/opsiq_runtime/domain/primitives/customer_order_impact_risk/evaluator.py:51-68 | once some order is at risk the level is known, and more at-risk orders never lower it, whatever the thresholds |
| CustomerImpact.ImpactUnknownIff | src/opsiq_runtime/domain/primitives/customer_order_impact_risk/evaluator.py:45-74 | with positive thresholds, UNKNOWN exactly when there are no orders or none is at risk and all are unknown |
| ItemAffinity.ProjectItem | src/opsiq_runtime/domain/primitives/shopper_item_affinity_score/evaluator.py:55-68 | the projected item has exactly the twelve top-item keys, each taken from the item or null when it has none |
| ItemAffinity.TopItemsMetrics | src/opsiq_runtime/domain/primitives/shopper_item_affinity_score/evaluator.py:53-69 | one projected entry per top item, in the same order |
| ItemAffinity.EvaluateItemAffinity | src/opsiq_runtime/domain/primitives/shopper_item_affinity_score/evaluator.py:29-121 | a missing or empty top-item list gives UNKNOWN, LOW, NO_AFFINITY_ITEMS with the no-items rule; otherwise COMPUTED, HIGH, TOP_AFFINITY_COMPUTED; the metrics list every item projected in order and the look-back taken from the input or else the config |
| ItemAffinity.ProjectItemIdempotent | src/opsiq_runtime/domain/primitives/shopper_item_affinity_score/evaluator.py:55-68 | projecting an already projected item changes nothing |
| WeeklyAdSlate.NewSlateInput | src/opsiq_runtime/domain/primitives/shopper_weekly_ad_slate/models.py:68-90 | missing candidates become an empty list and missing recent-purchase keys an empty set; every other field is copied, with defaults "v1" and "shopper" |
| WeeklyAdSlate.BuildAffinityScoreMap | src/opsiq_runtime/domain/primitives/shopper_weekly_ad_slate/evaluator.py:43-54 | the loop builds the score dictionary of the affinity entries in order, skipping entries without a non-empty id; a missing score is stored as 0.0 and a null one as None |
| WeeklyAdSlate.AffinityScoresLastWins | src/opsiq_runtime/domain/primitives/shopper_weekly_ad_slate/evaluator.py:46-50 | an id's stored score is that of the last entry naming it (0.0 when missing, None when null) |
| WeeklyAdSlate.AffinityScoresDomain | src/opsiq_runtime/domain/primitives/shopper_weekly_ad_slate/evaluator.py:47-49 | an id is in the dictionary exactly when it is non-empty and some entry names it |
| WeeklyAdSlate.NoneStoredMeaning | src/opsiq_runtime/domain/primitives/shopper_weekly_ad_slate/evaluator.py:46-50 | the dictionary holds None for an id exactly when the last entry naming it has a null score |
| WeeklyAdSlate.CandidateReasons | src/opsiq_runtime/domain/primitives/shopper_weekly_ad_slate/evaluator.py:64-67 | reasons start with IN_CURRENT_AD and contain AFFINITY_MATCH exactly when the score is positive |
| WeeklyAdSlate.ScoreAndFilter | src/opsiq_runtime/domain/primitives/shopper_weekly_ad_slate/evaluator.py:57-85 | the loop fails exactly when some candidate, excluded or not, reads a None score (the `score > 0` TypeError); otherwise it yields the kept, scored candidates and the count of those skipped as recently purchased |
| WeeklyAdSlate.KeptAndExcludedPartition | src/opsiq_runtime/domain/primitives/shopper_weekly_ad_slate/evaluator.py:61-85 | kept plus excluded is the number of candidates; no kept candidate was recently purchased; every kept one is an input candidate with no category |
| WeeklyAdSlate.ApplyBucketCap | src/opsiq_runtime/domain/primitives/shopper_weekly_ad_slate/evaluator.py:98-109 | the loop keeps each candidate while fewer than the cap of its bucket (category, else "unknown") were kept |
| WeeklyAdSlate.CapByBucketSubsequence | src/opsiq_runtime/domain/primitives/shopper_weekly_ad_slate/evaluator.py:102-107 | the capped list is a subsequence of its input |
| WeeklyAdSlate.SingleBucketCapIsPrefix | src/opsiq_runtime/domain/primitives/shopper_weekly_ad_slate/evaluator.py:102-107 | when every candidate is in one bucket, the cap keeps exactly the first min(n, cap) |
| WeeklyAdSlate.SingleBucketCount | src/opsiq_runtime/domain/primitives/shopper_weekly_ad_slate/evaluator.py:103-107 | within one bucket, every candidate counts towards it |
| WeeklyAdSlate.CapByCategoryKeepsUncategorised | tests/unit/test_shopper_weekly_ad_slate_evaluator.py:170-204 | under the intended cap, candidates without a category all pass |
| WeeklyAdSlate.CapsAgreeWhenCategorised | src/opsiq_runtime/domain/primitives/shopper_weekly_ad_slate/evaluator.py:98-109 | when every candidate has a category, the code's cap and the intended cap keep the same candidates |
| WeeklyAdSlate.UnknownBucketCapsUncategorised | src/opsiq_runtime/domain/primitives/shopper_weekly_ad_slate/evaluator.py:102-107 | with more uncategorised candidates than the cap, the code keeps only `cap` of them and the intended cap keeps all |
| WeeklyAdSlate.SlateItems | src/opsiq_runtime/domain/primitives/shopper_weekly_ad_slate/evaluator.py:119-134 | one metric per slate entry, in order, ranked from 1 |
| WeeklyAdSlate.CountWithAffinity | src/opsiq_runtime/domain/primitives/shopper_weekly_ad_slate/evaluator.py:135-136 | never more than the slate size |
| WeeklyAdSlate.CountWithAffinityPositive | src/opsiq_runtime/domain/primitives/shopper_weekly_ad_slate/evaluator.py:135-136 | the count is positive exactly when some slate entry has a positive score |
| WeeklyAdSlate.BuildSlateItems | src/opsiq_runtime/domain/primitives/shopper_weekly_ad_slate/evaluator.py:119-136 | the loop yields the slate metrics and the count of entries with a positive score |
| WeeklyAdSlate.MatchRate | src/opsiq_runtime/domain/primitives/shopper_weekly_ad_slate/evaluator.py:139-149 | between 0 and 1; 0 for an empty slate; otherwise rate × size equals the affinity count |
| WeeklyAdSlate.SlateDrivers | src/opsiq_runtime/domain/primitives/shopper_weekly_ad_slate/evaluator.py:151-161 | NO_ELIGIBLE_AD_ITEMS alone for an empty slate; otherwise IN_CURRENT_AD first, AFFINITY_MATCH exactly when some entry has affinity, RECENT_PURCHASE_EXCLUSIONS exactly when something was excluded, no duplicates |
| WeeklyAdSlate.CandidatesAsOf | src/opsiq_runtime/domain/primitives/shopper_weekly_ad_slate/evaluator.py:188-192 | the input timestamp without candidates, else the largest candidate timestamp (one of them, at least every other) |
| WeeklyAdSlate.EvaluateWeeklyAdSlate | src/opsiq_runtime/domain/primitives/shopper_weekly_ad_slate/evaluator.py:35-230 | a TypeError exactly when a candidate reads a None score; otherwise None exactly when the slate is empty and sparse emission is on; otherwise state, confidence, drivers, metrics, the single evidence, its id and the versions, all in terms of the slate |
| WeeklyAdSlate.SlateIsRankedSelection | src/opsiq_runtime/domain/primitives/shopper_weekly_ad_slate/evaluator.py:87-112 | the slate is sorted by score desc, promo price asc (missing last), gtin asc; it is a subsequence of the ranked candidates, no longer than slate_size_k, and free of recently purchased items |
| WeeklyAdSlate.CappedSlateIsRankedPrefix | src/opsiq_runtime/domain/primitives/shopper_weekly_ad_slate/evaluator.py:74-109 | since every candidate has no category, the enabled cap keeps exactly the first min(n, cap) ranked candidates |
| CouponOfferSet.NewCouponInput | src/opsiq_runtime/domain/primitives/shopper_coupon_offer_set/models.py:47-73 | missing weekly-ad groups, recent-purchase keys, eligibility map and baseline prices become empty; every other field is copied, with defaults "v1" and "shopper" |
| CouponOfferSet.EntryIds | src/opsiq_runtime/domain/primitives/shopper_coupon_offer_set/evaluator.py:63-66 | the keys of the insertion-ordered affinity dictionary, in order |
| CouponOfferSet.Put | src/opsiq_runtime/domain/primitives/shopper_coupon_offer_set/evaluator.py:59 | assigning a key keeps an existing key in place with the new value and appends a new key last; nothing else changes |
| CouponOfferSet.BuildAffinityEntries | src/opsiq_runtime/domain/primitives/shopper_coupon_offer_set/evaluator.py:54-59 | the loop builds the insertion-ordered dictionary of the affinity entries, skipping entries without a non-empty id; a missing score is stored as 0.0 and a null one as None |
| CouponOfferSet.StoredEntriesAgree | src/opsiq_runtime/domain/primitives/shopper_coupon_offer_set/evaluator.py:54-59 | the ordered dictionary holds each key once, with the same stored scores as the weekly-ad score dictionary |
| CouponOfferSet.NoneScoredMeaning | src/opsiq_runtime/domain/primitives/shopper_coupon_offer_set/evaluator.py:58-66 | the sort key `-x[1]` meets a None exactly when some id's stored score is None |
| CouponOfferSet.AffinityEntriesAgree | src/opsiq_runtime/domain/primitives/shopper_coupon_offer_set/evaluator.py:54-66 | the pairs the sort reads hold each key once, with the same scores as the weekly-ad score map |
| CouponOfferSet.GateEligible | src/opsiq_runtime/domain/primitives/shopper_coupon_offer_set/evaluator.py:70-75 | the loop keeps, in order, the candidates found in the eligibility map, each with its eligibility info |
| CouponOfferSet.CandidatesOf | src/opsiq_runtime/domain/primitives/shopper_coupon_offer_set/evaluator.py:72-75 | the (id, score) pairs of the eligible candidates, in order |
| CouponOfferSet.EligibilityGate | src/opsiq_runtime/domain/primitives/shopper_coupon_offer_set/evaluator.py:70-77 | no more eligible candidates than candidates; they form a subsequence of the candidates and each carries its own eligibility entry |
| CouponOfferSet.EligibilityGateExact | src/opsiq_runtime/domain/primitives/shopper_coupon_offer_set/evaluator.py:73 | a candidate passes the gate exactly when its id is in the eligibility map |
| CouponOfferSet.ActivationItemFor | src/opsiq_runtime/domain/primitives/shopper_coupon_offer_set/evaluator.py:82-104 | the item carries the candidate's id, score, gtin and linkcode, no category, and the baseline price looked up under (shopper, id) |
| CouponOfferSet.BuildActivationItems | src/opsiq_runtime/domain/primitives/shopper_coupon_offer_set/evaluator.py:79-104 | the loop yields one activation item per eligible candidate, in order |
| CouponOfferSet.CountIn | src/opsiq_runtime/domain/primitives/shopper_coupon_offer_set/evaluator.py:120-121 | never more than the number of items |
| CouponOfferSet.CouponReasonCounts | src/opsiq_runtime/domain/primitives/shopper_coupon_offer_set/evaluator.py:107-121 | each exclusion reason is counted once per activation item whose id is in the weekly-ad set or the recent-purchase set, and no other reason occurs |
| CouponOfferSet.PartitionByPricing | src/opsiq_runtime/domain/primitives/shopper_coupon_offer_set/evaluator.py:123-132 | the loop splits the kept items into those missing a price under "skip" and the rest |
| CouponOfferSet.PricingPartition | src/opsiq_runtime/domain/primitives/shopper_coupon_offer_set/evaluator.py:123-134 | the two parts add up to the kept items; outside "skip" mode every item is kept as priced |
| CouponOfferSet.PricingKeepsOrder | src/opsiq_runtime/domain/primitives/shopper_coupon_offer_set/evaluator.py:127-132 | the priced part is a subsequence of the kept items, none of them missing a price under "skip"; every missing one has no price |
| CouponOfferSet.CouponConfidence | src/opsiq_runtime/domain/primitives/shopper_coupon_offer_set/evaluator.py:180-187 | HIGH exactly when something is selected and the match rate reaches the threshold; never LOW |
| CouponOfferSet.CouponDrivers | src/opsiq_runtime/domain/primitives/shopper_coupon_offer_set/evaluator.py:161-168 | the aggregated policy drivers followed by the three coupon drivers, 4 to 6 in all, ACTIVATION_POLICY_APPLIED first |
| CouponOfferSet.OfferReasons | src/opsiq_runtime/domain/primitives/shopper_coupon_offer_set/evaluator.py:199-204 | HIGH_AFFINITY first exactly for a positive score, then NOT_IN_WEEKLY_AD and COUPON_DISCOUNT_APPLIED |
| CouponOfferSet.OfferPrice | src/opsiq_runtime/domain/primitives/shopper_coupon_offer_set/evaluator.py:197 | for a discount between 0 and 100 and a non-negative baseline the offer price lies between 0 and the baseline; no discount keeps the baseline |
| CouponOfferSet.BuildOffers | src/opsiq_runtime/domain/primitives/shopper_coupon_offer_set/evaluator.py:189-216 | the loop yields one offer per priced selected item, ranked by its position in the selection |
| CouponOfferSet.OffersMeaning | src/opsiq_runtime/domain/primitives/shopper_coupon_offer_set/evaluator.py:191-216 | each offer is built from the priced selected item at position rank − 1, ranks strictly increase, and offers never outnumber selected items |
| CouponOfferSet.OffersAllPriced | src/opsiq_runtime/domain/primitives/shopper_coupon_offer_set/evaluator.py:189-216 | when every selected item has a price there is one offer per item, ranked 1..n |
| CouponOfferSet.OffersJson | src/opsiq_runtime/domain/primitives/shopper_coupon_offer_set/evaluator.py:231-243 | one JSON object per offer, in order |
| CouponOfferSet.CouponMetrics | src/opsiq_runtime/domain/primitives/shopper_coupon_offer_set/evaluator.py:223-244 | the candidate and eligible counts and the offers list as computed |
| CouponOfferSet.CouponReferences | src/opsiq_runtime/domain/primitives/shopper_coupon_offer_set/evaluator.py:247-267 | the as-of block holds the affinity row's timestamp (else the input's) and the input timestamp for eligibility |
| CouponOfferSet.EvaluateCouponOfferSet | src/opsiq_runtime/domain/primitives/shopper_coupon_offer_set/evaluator.py:40-300 | a TypeError exactly when some id's stored score is None (the candidate sort); otherwise None exactly when there are no offers and sparse emission is on; otherwise state, confidence, drivers, metrics, the single evidence and its citation, all in terms of the evaluation's stages |
| CouponOfferSet.CandidateCountIsDistinctIds | src/opsiq_runtime/domain/primitives/shopper_coupon_offer_set/evaluator.py:51-68 | the candidate count is the number of distinct non-empty ids among the first affinity_top_k entries |
| CouponOfferSet.CandidatesRanked | src/opsiq_runtime/domain/primitives/shopper_coupon_offer_set/evaluator.py:62-66 | candidates are sorted by score desc then id asc, are a permutation of the dictionary, and carry the last-wins scores |
| CouponOfferSet.EligibleAtMostCandidates | src/opsiq_runtime/domain/primitives/shopper_coupon_offer_set/evaluator.py:70-77 | the eligible candidates are a subsequence of the ranked candidates, exactly those whose id is in the eligibility map |
| CouponOfferSet.ExcludedCountsMeaning | src/opsiq_runtime/domain/primitives/shopper_coupon_offer_set/evaluator.py:116-121 | the weekly-ad and recent-purchase exclusion counts are the numbers of items whose id is in each set |
| CouponOfferSet.ItemsFromDictionary | src/opsiq_runtime/domain/primitives/shopper_coupon_offer_set/evaluator.py:79-104 | every activation item comes from a dictionary entry: its score is that id's affinity score and its gtin, linkcode and price come from the eligibility map and price table |
| CouponOfferSet.KeptNotExcluded | src/opsiq_runtime/domain/primitives/shopper_coupon_offer_set/evaluator.py:106-118 | an item surviving the exclusions is an activation item in neither exclusion set |
| CouponOfferSet.PricedQualify | src/opsiq_runtime/domain/primitives/shopper_coupon_offer_set/evaluator.py:106-132 | every priced item qualifies: eligible, not excluded, and priced when the mode is "skip" |
| CouponOfferSet.CategoryCapKeepsUncategorised | src/opsiq_runtime/domain/primitives/shopper_coupon_offer_set/evaluator.py:142-144 | the category cap only hits category buckets: a list with no categories comes back unchanged |
| CouponOfferSet.RankedQualify | src/opsiq_runtime/domain/primitives/shopper_coupon_offer_set/evaluator.py:139-140 | the ranked items are in ranking order and all qualify |
| CouponOfferSet.CategoryCapHasNoEffect | src/opsiq_runtime/domain/primitives/shopper_coupon_offer_set/evaluator.py:142-144 | since activation items carry no category, the optional category cap leaves the ranking unchanged |
| CouponOfferSet.SelectionMeaning | src/opsiq_runtime/domain/primitives/shopper_coupon_offer_set/evaluator.py:139-147 | the selection is the first max_offers ranked items, in ranking order, all qualifying |
| CouponOfferSet.SkipModeOffersFollowSelection | src/opsiq_runtime/domain/primitives/shopper_coupon_offer_set/evaluator.py:189-216 | under "skip" every selected item is priced, so the offers are exactly the selection ranked 1..n |
| CouponOfferSet.ConfidenceOverridesOutcome | src/opsiq_runtime/domain/primitives/shopper_coupon_offer_set/evaluator.py:170-187 | the override keeps the policy outcome's HIGH and turns anything else into MEDIUM, even when the outcome said LOW |
| PrimitiveRegistry.NamesOf | src/opsiq_runtime/application/registry.py:29-37 | the primitive names of the registrations, in order |
| PrimitiveRegistry.RegisteredKeys | src/opsiq_runtime/application/registry.py:39-43 | after a series of registrations, the evaluator keys are exactly the registered names at version 1.0.0 and the fetcher keys exactly the registered names |
| PrimitiveRegistry.RegisteredValues | src/opsiq_runtime/application/registry.py:39-43 | with distinct names, each registration's evaluator and fetch method are the ones stored under its keys |
| PrimitiveRegistry.Registry.constructor | src/opsiq_runtime/application/registry.py:26-37 | a new registry holds exactly the nine built-in registrations |
| PrimitiveRegistry.Registry.Register | src/opsiq_runtime/application/registry.py:39-43 | the evaluator is stored under (name, version) and the fetch method under name, overwriting any earlier entry; nothing else changes |
| PrimitiveRegistry.Registry.Get | src/opsiq_runtime/application/registry.py:45-49 | the stored evaluator exactly when (name, version) is registered, else an UnknownPrimitiveError with the source's message |
| PrimitiveRegistry.Registry.GetInputFetchMethod | src/opsiq_runtime/application/registry.py:51-55 | the stored fetch method exactly when the name is registered, else an UnknownPrimitiveError |
| PrimitiveRegistry.Registry.EnsureVersion | src/opsiq_runtime/application/registry.py:57-61 | no error exactly when (name, version) is registered, else a PrimitiveVersionMismatch naming the primitive, version and config |
| PrimitiveRegistry.EnsureVersionThenGet | src/opsiq_runtime/application/registry.py:45-61 | ensure_version passes exactly when get succeeds for the same pair |
| PrimitiveRegistry.RegisterIsLocal | src/opsiq_runtime/application/registry.py:39-43 | registering leaves every other evaluator key and every other fetcher name as it was |
| PrimitiveRegistry.BuiltInsRegistered | src/opsiq_runtime/application/registry.py:29-37 | the nine built-in primitives are each registered at 1.0.0 with their own evaluator and fetch method, and nothing else is |
| Runner.IncreasingOrdered | src/opsiq_runtime/application/runner.py:38-127 | in a run's call record every call comes strictly after the earlier ones in the order the source makes them, so no call repeats |
| Runner.StepsIncreasing | src/opsiq_runtime/application/runner.py:61-66 | the loop's calls, a check then an evaluation per input, are in program order |
| Runner.StepsCheckBeforeEvaluate | src/opsiq_runtime/application/runner.py:62-66 | with a cancellation check configured, every evaluation of input k comes right after the check for input k |
| Runner.StepsMeaning | src/opsiq_runtime/application/runner.py:61-66 | the loop calls only the check and the evaluator, only for inputs of the stream, the check only when configured; every input is evaluated, and checked when a check is configured |
| Runner.Decisions | src/opsiq_runtime/application/runner.py:68 | the decisions exist exactly when every evaluation returned a result, and are then those results' decisions in order |
| Runner.EvidenceSets | src/opsiq_runtime/application/runner.py:69 | the evidence sets of the results, in order |
| Runner.StatesOf | src/opsiq_runtime/application/runner.py:77-79 | the decision states, in order |
| Runner.InsertionOrderKeys | src/opsiq_runtime/application/runner.py:77-79 | the state-count dictionary's keys are the states that occur, each once |
| Runner.StateCountsSum | src/opsiq_runtime/application/runner.py:77-79 | the state counts, summed over the dictionary's keys, add up to the number of decisions |
| Runner.StateCountsTotal | src/opsiq_runtime/application/runner.py:77-79 | a state is counted exactly when it occurs, its count is its number of occurrences, and the counts add up to the number of decisions |
| Runner.CountStates | src/opsiq_runtime/application/runner.py:77-79 | the loop yields the tally of the decision states |
| Runner.SummaryCountsAddUp | src/opsiq_runtime/application/runner.py:98-106 | a summary's state counts cover exactly the states that occur and add up to its count |
| Runner.Runner.constructor | src/opsiq_runtime/application/runner.py:20-36 | the runner keeps the ports, the registry and the optional cancellation check it is given |
| Runner.Runner.ResultsFor | src/opsiq_runtime/application/runner.py:59-66 | for a run that completes, one result per fetched input, each the evaluator's result on that input |
| Runner.Runner.EvaluateStream | src/opsiq_runtime/application/runner.py:59-66 | the loop evaluates a prefix of the inputs in order; without failure it does all of them with their checks; a cancellation before input k raises RunCancelledError after k evaluations, with the correlation id rendered as `CorrelationId(value=…)`; otherwise the failure is the evaluator raising on the next input |
| Runner.Runner.Open | src/opsiq_runtime/application/runner.py:39-48 | the lock is acquired first; the try block is entered exactly when acquire, get_config and register_run_started succeed, with that config; otherwise the first of their errors |
| Runner.Runner.Prepare | src/opsiq_runtime/application/runner.py:51-56 | the fetch of the inputs succeeds exactly when the version check, get and the fetch-method lookup succeed, yielding that evaluator and stream; a version mismatch is the error reported |
| Runner.Runner.Conclude | src/opsiq_runtime/application/runner.py:68-113 | after the loop the calls are in order; the run's summary is returned exactly when every decision exists and the writes, completion and publication succeed, after the decisions are written and the summary published |
| Runner.Runner.Report | src/opsiq_runtime/application/runner.py:77-113 | with both writes done, the summary is returned exactly when completion and publication succeed, and it is the one published |
| Runner.Runner.Attempt | src/opsiq_runtime/application/runner.py:50-113 | the body of the try block: ordered calls, each justified by the run, evaluations checked first when a check is configured; success exactly when everything succeeds, with the summary published and the decisions written; a version mismatch is reported as such |
| Runner.Runner.Guarded | src/opsiq_runtime/application/runner.py:50-127 | the try block with its handlers: ends with the lock released; success exactly as in Attempt; on failure register_run_failed is called exactly when the outputs adapter has it, with the start time and the error |
| Runner.Runner.Run | src/opsiq_runtime/application/runner.py:38-127 | a run starts by acquiring the lock, releases it last exactly when the try block was entered, returns the summary exactly when every step succeeds, otherwise re-raises the first error (or the error of register_run_failed), registering the failure when supported |
| OutputsRepo.Escape | src/opsiq_runtime/adapters/databricks/outputs_repo.py:54-56 | every single quote is doubled, so the text grows by its number of quotes |
| OutputsRepo.EscapeRoundTrip | src/opsiq_runtime/adapters/databricks/outputs_repo.py:54-56 | un-doubling the quotes of an escaped text gives the text back, and in escaped text quotes only come in pairs |
| OutputsRepo.EscapeNoQuotes | src/opsiq_runtime/adapters/databricks/outputs_repo.py:54-56 | a text without quotes is left unchanged |
| OutputsRepo.CorrelationColumn | src/opsiq_runtime/adapters/databricks/outputs_repo.py:74 | the correlation column is set exactly when the run has a non-empty correlation id |
| OutputsRepo.DecisionRowOf | src/opsiq_runtime/adapters/databricks/outputs_repo.py:112-131 | the confidence column is NULL, and valid_until and as_of_ts come from the decision and the input |
| OutputsRepo.DecisionRowReadsBack | src/opsiq_runtime/adapters/databricks/outputs_repo.py:112-131 | every text column of a decision row reads back, unescaped, as the input's, the run's or the decision's own value |
| OutputsRepo.DeleteScopeIsMergeKey | src/opsiq_runtime/adapters/databricks/outputs_repo.py:192-200 | the DELETE clause of a decision selects exactly the MERGE key of its row |
| OutputsRepo.DecisionRows | src/opsiq_runtime/adapters/databricks/outputs_repo.py:103 | one row per (decision, input) pair of zip, so as many as the shorter list |
| OutputsRepo.DecisionRowsOfSlice | src/opsiq_runtime/adapters/databricks/outputs_repo.py:82-85 | the rows of a batch's slices are that slice of all the rows |
| OutputsRepo.MergeKeys | src/opsiq_runtime/adapters/databricks/outputs_repo.py:144-149 | the MERGE key of each row, in order |
| OutputsRepo.BatchesPartition | src/opsiq_runtime/adapters/databricks/outputs_repo.py:82-85 | the batches concatenate back to the rows, and each holds between 1 and 1000 rows |
| OutputsRepo.BatchAt | src/opsiq_runtime/adapters/databricks/outputs_repo.py:82-85 | batch k covers rows k·1000 up to min((k+1)·1000, n) |
| OutputsRepo.Paired | src/opsiq_runtime/adapters/databricks/outputs_repo.py:230-232 | each evidence of a set is paired with that set's input |
| OutputsRepo.EvidenceRecordsLength | src/opsiq_runtime/adapters/databricks/outputs_repo.py:229-232 | there are as many evidence records as evidence entries across the sets |
| OutputsRepo.EvidenceRecordAt | src/opsiq_runtime/adapters/databricks/outputs_repo.py:229-232 | evidence j of set i is the record at the position after the evidence of sets before i, paired with input i |
| OutputsRepo.EvidenceRowOf | src/opsiq_runtime/adapters/databricks/outputs_repo.py:265-293 | the evidence row carries the evidence itself, its observed time and the input's as_of_ts |
| OutputsRepo.EvidenceDeleteScopeIsMergeKey | src/opsiq_runtime/adapters/databricks/outputs_repo.py:347-356 | the DELETE clause of an evidence row selects exactly its MERGE key, which extends the decision key by the evidence id |
| OutputsRepo.EvidenceRows | src/opsiq_runtime/adapters/databricks/outputs_repo.py:265 | one evidence row per record, in order |
| OutputsRepo.EvidenceMergeKeys | src/opsiq_runtime/adapters/databricks/outputs_repo.py:306-312 | the MERGE key of each evidence row, in order |
| OutputsRepo.DatabricksOutputsRepository.constructor | src/opsiq_runtime/adapters/databricks/outputs_repo.py:25-36 | table names are the given ones when non-empty, else the prefixed operational-risk defaults; nothing has been executed |
| OutputsRepo.DatabricksOutputsRepository.WriteDecisionsMerge | src/opsiq_runtime/adapters/databricks/outputs_repo.py:92-179 | one MERGE statement over the batch's rows is executed |
| OutputsRepo.DatabricksOutputsRepository.WriteDecisionsDeleteInsert | src/opsiq_runtime/adapters/databricks/outputs_repo.py:181-211 | a DELETE over the batch's keys, then the MERGE, is executed |
| OutputsRepo.DatabricksOutputsRepository.WriteDecisions | src/opsiq_runtime/adapters/databricks/outputs_repo.py:58-90 | no inputs or a length mismatch raise the source's error and execute nothing; otherwise each 1000-row batch's statements are executed in order against the qualified decision table, MERGE or DELETE + INSERT by setting |
| OutputsRepo.DatabricksOutputsRepository.FlattenEvidence | src/opsiq_runtime/adapters/databricks/outputs_repo.py:228-232 | the loop yields the evidence records, every evidence paired with its set's input, in order |
| OutputsRepo.DatabricksOutputsRepository.WriteEvidenceMerge | src/opsiq_runtime/adapters/databricks/outputs_repo.py:256-336 | one MERGE statement over the batch's evidence rows is executed |
| OutputsRepo.DatabricksOutputsRepository.WriteEvidenceDeleteInsert | src/opsiq_runtime/adapters/databricks/outputs_repo.py:338-367 | a DELETE over the batch's evidence keys, then the MERGE, is executed |
| OutputsRepo.DatabricksOutputsRepository.WriteEvidence | src/opsiq_runtime/adapters/databricks/outputs_repo.py:213-254 | no inputs or a length mismatch raise the source's error and execute nothing; otherwise the flattened records are written batch by batch to the qualified evidence table (nothing when there are none) |
| OutputsRepo.EvidenceRowsOfSlice | src/opsiq_runtime/adapters/databricks/outputs_repo.py:247-249 | the rows of a slice of evidence records are that slice of the rows of all records |
| TableNames.SplitJoin | src/opsiq_runtime/adapters/databricks/outputs_repo.py:46 | joining parts that contain no "." and splitting the result at "." gives the parts back |
| TableNames.NameParts | src/opsiq_runtime/adapters/databricks/outputs_repo.py:38-45 | the table name last, preceded by the catalog and the schema exactly when each is set and non-empty |
| TableNames.QualifiedName | src/opsiq_runtime/adapters/databricks/outputs_repo.py:38-46 | without catalog and schema the qualified name is the bare table name |
| TableNames.QualifiedNameSplits | src/opsiq_runtime/adapters/databricks/inputs_repo.py:36-44 | when no part contains ".", the qualified name splits back into catalog, schema and table |
| TableNames.Split | src/opsiq_runtime/adapters/databricks/outputs_repo.py:46 | splitting a name at "." always yields at least one part |
| TableNames.SplitNoSep | src/opsiq_runtime/adapters/databricks/outputs_repo.py:46 | a name without "." splits into itself alone |
| TableNames.SplitAppend | src/opsiq_runtime/adapters/databricks/outputs_repo.py:46 | splitting two names joined by "." gives the parts of the first followed by the parts of the second |
| RowCells.StrOr | src/opsiq_runtime/adapters/databricks/inputs_repo.py:143 | str(row.get(column, default)): a missing column gives the default, a NULL gives "None", a value gives itself |
| InputsRepo.DaysSinceLastTrip | src/opsiq_runtime/adapters/databricks/inputs_repo.py:95-100 | None exactly without a last trip; otherwise the difference of the two calendar days, never negative when the trip is not in the future |
| InputsRepo.BuildOperationalRisk | src/opsiq_runtime/adapters/databricks/inputs_repo.py:148-180 | a row without as_of_ts is skipped; otherwise the input takes the row's fields with the source's defaults, canonical version = config version, and a missing day count is computed from the last trip |
| InputsRepo.FilledDaysAgreeWithEvaluator | src/opsiq_runtime/adapters/databricks/inputs_repo.py:161-163 | a day count filled in by the adapter is the one the evaluator then uses |
| InputsRepo.BuildFrequency | src/opsiq_runtime/adapters/databricks/inputs_repo.py:245-299 | a row without as_of_ts is skipped; otherwise the input takes the row's trips and baseline figures, canonical version "v1", and the recent gap the row gives |
| InputsRepo.Lower | src/opsiq_runtime/adapters/databricks/inputs_repo.py:579 | lower-casing keeps the length and maps each ASCII capital to its small letter |
| InputsRepo.ParseOnHold | src/opsiq_runtime/adapters/databricks/inputs_repo.py:574-583 | the hold flag is missing exactly when the cell is NULL |
| InputsRepo.ParseOrdernum | src/opsiq_runtime/adapters/databricks/inputs_repo.py:590-602 | the order number is missing exactly when the cell is NULL |
| InputsRepo.LowerIdempotent | src/opsiq_runtime/adapters/databricks/inputs_repo.py:579 | lower-casing twice is lower-casing once |
| InputsRepo.OnHoldIgnoresCase | src/opsiq_runtime/adapters/databricks/inputs_repo.py:579 | text hold flags are read case-insensitively: "TRUE" and "Yes" mean on hold, "no" does not |
| InputsRepo.WholeOrdernumIsInteger | src/opsiq_runtime/adapters/databricks/inputs_repo.py:593-598 | a whole float order number becomes the same integer as an integer cell |
| InputsRepo.BuildOrderLine | src/opsiq_runtime/adapters/databricks/inputs_repo.py:549-664 | a row without as_of_ts is skipped; otherwise the input takes the row's fields with the parsed hold flag and order number and the source's defaults |
| InputsRepo.BuildShopperHealth | src/opsiq_runtime/adapters/databricks/inputs_repo.py:400-467 | a row with an empty subject id or without as_of_ts is skipped; a missing upstream state becomes UNKNOWN with no evidence refs |
| InputsRepo.NullHealthSubjectKept | src/opsiq_runtime/adapters/databricks/inputs_repo.py:401-404 | a NULL subject id reads as the text "None" and so is not skipped |
| InputsRepo.OperationalRiskInputsPerSubject | src/opsiq_runtime/adapters/databricks/inputs_repo.py:139-151 | at most one input per subject, built from the subject's first row; a subject whose first row has no as_of_ts yields nothing |
| InputsRepo.FrequencyInputsPerSubject | src/opsiq_runtime/adapters/databricks/inputs_repo.py:236-248 | at most one input per subject, built from the subject's first row; a subject whose first row has no as_of_ts yields nothing |
| InputsRepo.OrderLineInputsPerSubject | src/opsiq_runtime/adapters/databricks/inputs_repo.py:540-552 | at most one input per subject, built from the subject's first row; a subject whose first row has no as_of_ts yields nothing |
| InputsRepo.DatabricksInputsRepository.constructor | src/opsiq_runtime/adapters/databricks/inputs_repo.py:26-34 | the given input table name when non-empty, else the prefixed recency-input default |
| InputsRepo.DatabricksInputsRepository.FetchOperationalRiskInputs | src/opsiq_runtime/adapters/databricks/inputs_repo.py:102-193 | the qualified recency table and the inputs built from the first row per subject |
| InputsRepo.DatabricksInputsRepository.FetchShopperFrequencyInputs | src/opsiq_runtime/adapters/databricks/inputs_repo.py:195-312 | the frequency input table and the inputs built from the first row per subject |
| InputsRepo.DatabricksInputsRepository.FetchOrderLineFulfillmentInputs | src/opsiq_runtime/adapters/databricks/inputs_repo.py:482-677 | the order-line input table and the inputs built from the first row per subject |
| InputsRepo.DatabricksInputsRepository.FetchShopperHealthInputs | src/opsiq_runtime/adapters/databricks/inputs_repo.py:314-480 | the decision output table and one input per pivoted row that is kept |
| InputsRepo.DatabricksInputsRepository.FetchOrderRiskInputs | src/opsiq_runtime/adapters/databricks/inputs_repo.py:690-894 | the decision output table and the order roll-ups of the decision rows keyed by order number |
| InputsRepo.DatabricksInputsRepository.FetchCustomerImpactInputs | src/opsiq_runtime/adapters/databricks/inputs_repo.py:896-1070 | the decision output table and the customer roll-ups of the decision rows keyed by customer id |
| InputsRepo.TableNameBuildersAgree | src/opsiq_runtime/adapters/databricks/inputs_repo.py:679-688 | the per-primitive table name builder agrees with the default one when the table is the prefixed suffix |
| RowDedup.FirstWithIsEarliest | src/opsiq_runtime/adapters/databricks/inputs_repo.py:139-146 | the row kept for a subject is its earliest row, and there is none exactly when no row has that subject |
| RowDedup.FirstWithSnoc | src/opsiq_runtime/adapters/databricks/inputs_repo.py:139-146 | a later row changes a subject's kept row only when the subject had none |
| RowDedup.SeenIsFirstWith | src/opsiq_runtime/adapters/databricks/inputs_repo.py:140-146 | a subject is in the seen set exactly when some row carries it |
| RowDedup.KeepFirstIsFirstRows | src/opsiq_runtime/adapters/databricks/inputs_repo.py:139-146 | the rows not skipped as duplicates are exactly the first row of each subject |
| RowDedup.KeepFirstDistinct | src/opsiq_runtime/adapters/databricks/inputs_repo.py:139-146 | no two rows that are not skipped share a subject |
| RowDedup.KeepFirstSnoc | src/opsiq_runtime/adapters/databricks/inputs_repo.py:142-146 | one more row is kept exactly when its subject was not seen, and its subject is seen afterwards |
| RowDedup.KeepFirstSeen | src/opsiq_runtime/adapters/databricks/inputs_repo.py:139-146 | the kept rows mark the same subjects seen as all the rows |
| RowDedup.SeenMembers | src/opsiq_runtime/adapters/databricks/inputs_repo.py:146 | every visited row's subject is seen |
| RowDedup.KeepFirstSubsequence | src/opsiq_runtime/adapters/databricks/inputs_repo.py:139-146 | the kept rows are the input rows in their order, some left out |
| RowDedup.BuiltSnoc | src/opsiq_runtime/adapters/databricks/inputs_repo.py:148-185 | one more row adds its input exactly when the builder accepts it |
| RowDedup.BuiltFrom | src/opsiq_runtime/adapters/databricks/inputs_repo.py:148-185 | every built input comes from some row the builder accepts |
| RowDedup.BuiltHas | src/opsiq_runtime/adapters/databricks/inputs_repo.py:148-185 | every row the builder accepts contributes its input |
| RowDedup.FirstRowDecides | src/opsiq_runtime/adapters/databricks/inputs_repo.py:139-151 | a subject whose first row is refused yields no input, even where a later row of it would be accepted |
| RowDedup.BuiltDistinct | src/opsiq_runtime/adapters/databricks/inputs_repo.py:139-185 | inputs built from rows with distinct subjects have distinct subjects |
| RowDedup.FirstRowInputs | src/opsiq_runtime/adapters/databricks/inputs_repo.py:139-185 | every input is built from its subject's first row, and no two inputs share a subject |
| RowDedup.FirstRowPerSubject | src/opsiq_runtime/adapters/databricks/inputs_repo.py:139-185 | the loop's inputs are the builder's results on the first row of each subject, in row order |
| Rollups.OrderKeyed | src/opsiq_runtime/adapters/databricks/inputs_repo.py:752-794 | a decision row joins an order group exactly when its subject id is non-empty and its metrics carry an order number, which becomes the key |
| Rollups.CustomerKeyed | src/opsiq_runtime/adapters/databricks/inputs_repo.py:958-984 | a decision row joins a customer group exactly when its subject id is non-empty and its metrics carry a customer id, which becomes the key |
| Rollups.LaterOf | src/opsiq_runtime/adapters/databricks/inputs_repo.py:806-810 | the later of two optional timestamps: one of them, missing only when both are, and no earlier than either |
| Rollups.KeysOf | src/opsiq_runtime/adapters/databricks/inputs_repo.py:797-805 | the keys of the keyed rows, position by position |
| Rollups.AbsentKeyEmpty | src/opsiq_runtime/adapters/databricks/inputs_repo.py:797-821 | a key no row carries has no lines, no customer ids and no timestamp |
| Rollups.GroupSnoc | src/opsiq_runtime/adapters/databricks/inputs_repo.py:797-821 | a row starts its key's group when the key is new, extends it otherwise, and leaves other groups alone |
| Rollups.GroupStep | src/opsiq_runtime/adapters/databricks/inputs_repo.py:797-821 | one loop step keeps the dictionary of groups and the key order equal to the groups of the rows seen so far |
| Rollups.GroupRows | src/opsiq_runtime/adapters/databricks/inputs_repo.py:748-821 | the dictionary holds exactly the keys some kept row carries, each with its group, and the keys in first-seen order |
| Rollups.LinesWithMembers | src/opsiq_runtime/adapters/databricks/inputs_repo.py:816-821 | a group's lines are exactly the lines of the rows with its key |
| Rollups.LatestWithIsMax | src/opsiq_runtime/adapters/databricks/inputs_repo.py:806-810 | a group's as_of_ts is the largest timestamp among its rows, missing exactly when none has one |
| Rollups.GroupKeys | src/opsiq_runtime/adapters/databricks/inputs_repo.py:797-805 | the key order lists every key exactly once |
| Rollups.CountsBounded | src/opsiq_runtime/adapters/databricks/inputs_repo.py:830-834 | the at-risk, unknown and not-at-risk counts add up to at most the line total |
| Rollups.AtRiskIdsAreAtRiskLines | src/opsiq_runtime/adapters/databricks/inputs_repo.py:853-854 | the at-risk ids are, one per line, the subject ids of the at-risk lines |
| Rollups.IndexOf | src/opsiq_runtime/adapters/databricks/inputs_repo.py:836-851 | the first position of an id |
| Rollups.BestFromIsBest | src/opsiq_runtime/adapters/databricks/inputs_repo.py:836-851 | scanning the ids keeps the most frequent one, ties going to the first seen |
| Rollups.MostCommonIsFirstMostFrequent | src/opsiq_runtime/adapters/databricks/inputs_repo.py:836-851 | the order's customer is missing exactly without customer ids; otherwise it is a most frequent id, the earliest-first-seen among ties |
| Rollups.OrderLineRefs | src/opsiq_runtime/adapters/databricks/inputs_repo.py:857-864 | one source ref per line carrying its subject id, state and evidence refs |
| Rollups.CustomerOrderRefs | src/opsiq_runtime/adapters/databricks/inputs_repo.py:1035-1042 | one source ref per order carrying its subject id, state and evidence refs |
| Rollups.OrderInputOf | src/opsiq_runtime/adapters/databricks/inputs_repo.py:823-881 | a group without as_of_ts is skipped; otherwise an order input with the group's fields, the counts, the most common customer, and at most 50 at-risk ids and source refs taken from the front |
| Rollups.CustomerInputOf | src/opsiq_runtime/adapters/databricks/inputs_repo.py:1019-1056 | a group without as_of_ts is skipped; otherwise a customer input with the group's fields, the counts, and at most 100 at-risk ids and source refs taken from the front |
| Rollups.EmitInputs | src/opsiq_runtime/adapters/databricks/inputs_repo.py:823-881 | the loop's inputs are the inputs of the groups in key order, skipped groups left out |
| Rollups.GroupedKeysReadable | src/opsiq_runtime/adapters/databricks/inputs_repo.py:823-825 | every key in the key order has its group in the dictionary |
| Rollups.EmittedMembers | src/opsiq_runtime/adapters/databricks/inputs_repo.py:823-881 | an input is emitted exactly when some listed key's group yields it |
| Rollups.RollupMembers | src/opsiq_runtime/adapters/databricks/inputs_repo.py:748-881 | an input is emitted exactly when some key carried by a kept row yields it from its group |
| PackReadiness.CanonicalFreshness | src/opsiq_runtime/app/api/services/pack_readiness/calculator.py:46-89 | no timestamp fails with no age; a future timestamp fails; an age up to the threshold passes and a larger one warns |
| PackReadiness.FreshnessMonotone | src/opsiq_runtime/app/api/services/pack_readiness/calculator.py:71-82 | a newer canonical timestamp is never judged more severely |
| PackReadiness.HighIsBad | src/opsiq_runtime/app/api/services/pack_readiness/calculator.py:123-128 | FAIL at or over the fail threshold, WARN at or over the warn threshold, PASS below both |
| PackReadiness.DecisionHealth | src/opsiq_runtime/app/api/services/pack_readiness/calculator.py:91-137 | zero decisions fail with empty counts; otherwise the unknown rate is the UNKNOWN count over the total and decides the status |
| PackReadiness.DecisionHealthMonotone | src/opsiq_runtime/app/api/services/pack_readiness/calculator.py:118-128 | more unknown decisions are never judged less severely |
| PackReadiness.LowIsBad | src/opsiq_runtime/app/api/services/pack_readiness/calculator.py:163-168 | FAIL below the fail threshold, WARN below the warn threshold, PASS at or over both |
| PackReadiness.RollupIntegrity | src/opsiq_runtime/app/api/services/pack_readiness/calculator.py:139-175 | zero total gives a zero pass rate and the given zero-total status; otherwise the pass rate is passed over total and decides the status |
| PackReadiness.RollupIntegrityMonotone | src/opsiq_runtime/app/api/services/pack_readiness/calculator.py:160-168 | more passing rows are never judged more severely |
| PackReadiness.AllStatuses | src/opsiq_runtime/app/api/services/pack_readiness/calculator.py:197-198 | the statuses of every freshness, health and integrity result, in that order |
| PackReadiness.AnyStatus | src/opsiq_runtime/app/api/services/pack_readiness/calculator.py:204-208 | true exactly when some result has the status |
| PackReadiness.AggregateStatus | src/opsiq_runtime/app/api/services/pack_readiness/calculator.py:176-212 | FAIL when there are no results or any fails; else WARN when any warns; else PASS |
| PackReadiness.AggregateIsWorst | src/opsiq_runtime/app/api/services/pack_readiness/calculator.py:176-212 | the overall status is at least as severe as every result's, and a non-PASS overall status is some result's |
| PackReadiness.AggregateAddResult | src/opsiq_runtime/app/api/services/pack_readiness/calculator.py:200-212 | adding a failing result fails the whole; adding a passing one to a non-empty set changes nothing |
| PackReadiness.BuildReadinessResponse | src/opsiq_runtime/app/api/services/pack_readiness/calculator.py:214-250 | the response carries the given results, identifiers and time, and their aggregate status |
| JobManagement.Registered | src/opsiq_runtime/app/job_manager.py:34-44 | the job is (re)registered as running at the given time with no result, error or completion, with a fresh unset flag; other jobs and flags unchanged |
| JobManagement.IsCancelledIn | src/opsiq_runtime/app/job_manager.py:46-50 | a job is cancelled exactly when it has a flag and the flag is set |
| JobManagement.Cancelled | src/opsiq_runtime/app/job_manager.py:52-70 | succeeds exactly for a known running job, which becomes cancelled at the given time with its flag set; otherwise nothing changes |
| JobManagement.Completed | src/opsiq_runtime/app/job_manager.py:72-79 | a known job becomes completed with its result and time; an unknown one changes nothing; flags untouched |
| JobManagement.Failed | src/opsiq_runtime/app/job_manager.py:81-88 | a known job becomes failed with its error and time; an unknown one changes nothing; flags untouched |
| JobManagement.StaleIds | src/opsiq_runtime/app/job_manager.py:101-107 | exactly the finished jobs whose completion is before the cutoff |
| JobManagement.CleanedUp | src/opsiq_runtime/app/job_manager.py:95-110 | stale jobs and their flags are removed and everything else is kept as it was |
| JobManagement.TransitionsKeepAligned | src/opsiq_runtime/app/job_manager.py:34-110 | every operation keeps each flag belonging to a registered job |
| JobManagement.CancelTwice | src/opsiq_runtime/app/job_manager.py:59-70 | after a successful cancel the job reads as cancelled, and a second cancel fails and changes nothing |
| JobManagement.FinishAfterCancel | src/opsiq_runtime/app/job_manager.py:72-88 | a cancelled job can still be marked completed or failed, and it still reads as cancelled |
| JobManagement.RegisterRevives | src/opsiq_runtime/app/job_manager.py:34-44 | re-registering a job clears its cancellation, and it can be cancelled again |
| JobManagement.CleanupKeepsRunningAndIsIdempotent | src/opsiq_runtime/app/job_manager.py:95-110 | cleanup never removes a running job, and a second cleanup with the same cutoff changes nothing |
| JobManagement.JobManager.constructor | src/opsiq_runtime/app/job_manager.py:29-32 | no jobs and no flags |
| JobManagement.JobManager.RegisterJob | src/opsiq_runtime/app/job_manager.py:34-44 | the table becomes the registered table |
| JobManagement.JobManager.IsCancelled | src/opsiq_runtime/app/job_manager.py:46-50 | true exactly when the job's flag exists and is set |
| JobManagement.JobManager.CancelJob | src/opsiq_runtime/app/job_manager.py:52-70 | the table and answer are those of the cancel transition |
| JobManagement.JobManager.CompleteJob | src/opsiq_runtime/app/job_manager.py:72-79 | the table becomes the completed table |
| JobManagement.JobManager.FailJob | src/opsiq_runtime/app/job_manager.py:81-88 | the table becomes the failed table |
| JobManagement.JobManager.GetJobStatus | src/opsiq_runtime/app/job_manager.py:90-93 | the job's status exactly when it is registered |
| JobManagement.JobManager.CleanupOldJobs | src/opsiq_runtime/app/job_manager.py:95-110 | the table becomes the one cleaned up with the cutoff max_age_hours before now |

## Left out

- The rule ids, driver names and COMPUTED/UNKNOWN state texts come from `operational_risk/rules.py` and `shopper_coupon_offer_set/rules.py`. Those files are not part of this model. The model declares the rule ids, drivers and coupon states by name without their text.
- OperationalRisk.EvaluateOperationalRisk: the three state texts "AT_RISK", "NOT_AT_RISK" and "UNKNOWN" are assumed for `rules.AT_RISK`, `rules.NOT_AT_RISK` and `rules.UNKNOWN`. They are the texts under which the runner's state counts and the health classifier read this primitive's states.
- `RunCancelledError` is imported from `application/errors.py` by `application/runner.py`, but it is not defined there, nor anywhere else in the package. The model gives it a constructor of its own error type.
- Common.Upper: `str.upper()` is modelled for ASCII letters only. The source's Unicode case mapping is not modelled.
- InputsRepo.Lower: `str.lower()` is modelled for ASCII letters only. The source's Unicode case mapping is not modelled.
- CouponOfferSet.OfferPrice: does not model `round(…, 2)`, because the model has no float rounding. The price is the exact product.
- Clocks are parameters. These are `datetime.now()` for computed_at, observed_at and started_at, and the runner's start and finish times.
- Threads and locks are not modelled. Each job manager method is treated as atomic and a cancellation flag as a boolean. A `JobStatus` is a value, so the aliasing between `get_job_status` results and later updates is not modelled.
- Runner.Runner.Run: the lock release in `finally` is assumed not to raise. An error raised by the release itself is not modelled.
- Parsing is not modelled: timestamps, dates, JSON, `float()` of cells and `int()` of order line numbers. The rows arrive pre-parsed, as `Option` values and `Value` maps.
- InputsRepo.ParseOrdernum: a fractional float order number is kept as a number; the text `str()` would give it is not modelled.
- The SQL text of every query is not modelled, nor the MERGE, DELETE and INSERT semantics of the warehouse. Each write is recorded as an abstract statement that carries its rows and natural keys.
- The warehouse client is not modelled: connections, commits, retries with back-off, and exceptions from `execute` and `query`.
- JSON serialisation of the metrics, references and evidence columns is not modelled.
- InputsRepo.DatabricksInputsRepository.FetchShopperHealthInputs: the pivot query over upstream decisions is not modelled. The fetch takes its result rows.
- InputsRepo.DatabricksInputsRepository.FetchOrderRiskInputs and FetchCustomerImpactInputs: the ranking query over decisions is not modelled. These fetches take the already-ranked latest rows.
- `fetch_shopper_item_affinity_inputs`, `fetch_shopper_weekly_ad_slate_inputs` and `fetch_shopper_coupon_offer_set_inputs`, and the helper fetches they rely on, are not defined in `inputs_repo.py`. They are not part of this model. The affinity, weekly-ad and coupon evaluators take their inputs as values.
- Logging is not modelled.
- The runner calls `get_config` with three arguments, but the `get_config` port takes two. The runner calls `write_evidence` with four; the port takes four, but the Databricks `write_evidence` takes three. The runner is modelled with its own call shapes.
- The runner does not drop the `None` results of sparse evaluators. As written, such a result fails when its `.decision` is read. The model raises an `AttributeError` there, with a simplified message.
- Which evaluator runs is the runner's `call` parameter. The registry holds one tag per evaluator function rather than a Python callable, so only the nine built-in evaluators can be registered.
- OutputsRepo.DatabricksOutputsRepository.FlattenEvidence: requires equal list lengths. Its only caller, `WriteEvidence`, checks the lengths first and reports the mismatch error.
- Ordering.StableRankOrder (and Ordering.StableRank): an `ad_position` that is text, a timestamp, a list or an object is ranked as if it were absent. In the source such a key either raises `TypeError` when compared with a number or the `float("inf")` sentinel, or, between two texts, compares as strings. Which pairs Python's sort compares depends on the input order, so that error is not modelled. Missing and null positions sort last, numbers are themselves, and `True`/`False` rank as 1 and 0, as in the source.
- WeeklyAdSlate.ApplyBucketCap: the evaluator keeps the code's cap, in which items without a category share one "unknown" bucket. The cap the unit tests expect is modelled beside it (see "## Findings"), but the evaluator does not use it.
- OrderLineRisk.EvaluateOrderLineRisk (and OrderLineRisk.LineReferences): the iteration order of the closed-status set depends on the process's string hashing. It is a parameter, constrained only to list each member once.
- Common.StrRepr: non-ASCII characters are shown as themselves. Python escapes the non-printable ones as `\xhh`, `\uhhhh` or `\Uhhhhhhhh`.
- The HTTP and API layer, pack loading, settings, and the file, stdout, in-memory and no-op adapters are outside the modelled core.
- The pack readiness queries that produce the calculator's inputs are outside the modelled core.

## Findings

| source | as written | input that shows it | evidently intended | confidence | as-written member | corrected member |
|---|---|---|---|---|---|---|
| src/opsiq_runtime/domain/primitives/shopper_weekly_ad_slate/evaluator.py:102-107 | `cws.category or "unknown"` puts every uncategorised candidate into one "unknown" bucket, which the cap limits | three uncategorised candidates with `category_cap=2`, as in `test_category_cap` (tests/unit/test_shopper_weekly_ad_slate_evaluator.py:170-204), which expects all three | uncategorised candidates pass uncapped, as in the coupon primitive's cap | not executed | WeeklyAdSlate.UnknownBucketCapsUncategorised | WeeklyAdSlate.CapByCategoryKeepsUncategorised |
