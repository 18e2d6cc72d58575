// Exclusion checks and their application (domain/activation_policy/exclusions.py).
module Exclusions {
  import opened Wrappers
  import opened Common
  import opened ActivationModels
  import opened Seqs

  const WEEKLY_AD_OVERLAP_EXCLUSION: string := "WEEKLY_AD_OVERLAP_EXCLUSION"
  const RECENT_PURCHASE_EXCLUSION: string := "RECENT_PURCHASE_EXCLUSION"

  /** Excluded, with the single reason, exactly when the item's group id is in the set. */
  function ExcludeIfInSet(item: ActivationItem, excludedGroupIds: set<string>, reason: string): (r: ExclusionResult)
    ensures r.excluded <==> item.itemGroupId in excludedGroupIds
    ensures r.reasons == if r.excluded then [reason] else []
  {
    if item.itemGroupId in excludedGroupIds then ExclusionResult(true, [reason])
    else ExclusionResult(false, [])
  }

  /** The same test against the recently purchased group ids. */
  function ExcludeIfRecentPurchase(item: ActivationItem, recentPurchaseGroupIds: set<string>, reason: string): (r: ExclusionResult)
    ensures r.excluded <==> item.itemGroupId in recentPurchaseGroupIds
    ensures r.reasons == if r.excluded then [reason] else []
  {
    if item.itemGroupId in recentPurchaseGroupIds then ExclusionResult(true, [reason])
    else ExclusionResult(false, [])
  }

  // ---- Specification of apply_exclusions -------------------------------

  /** Some check reports the item as excluded. */
  predicate AnyExcluded(item: ActivationItem, checks: seq<ExclusionCheck>)
  {
    if checks == [] then false
    else AnyExcluded(item, checks[..|checks| - 1]) || checks[|checks| - 1](item).excluded
  }

  /** The reasons of every check that excludes the item, in check order. */
  function MatchedReasons(item: ActivationItem, checks: seq<ExclusionCheck>): seq<string>
  {
    if checks == [] then []
    else
      var res := checks[|checks| - 1](item);
      MatchedReasons(item, checks[..|checks| - 1]) + (if res.excluded then res.reasons else [])
  }

  /** The copy of an excluded item that records its reasons. */
  function MarkExcluded(item: ActivationItem, reasons: seq<string>): ActivationItem
  {
    WithMeta(item, EXCLUDED_REASONS_KEY, Strs(reasons))
  }

  /** Items no check excludes, in input order. */
  function EligibleItems(items: seq<ActivationItem>, checks: seq<ExclusionCheck>): seq<ActivationItem>
  {
    if items == [] then []
    else
      var x := items[|items| - 1];
      EligibleItems(items[..|items| - 1], checks) + (if AnyExcluded(x, checks) then [] else [x])
  }

  /** Original items some check excludes, in input order. */
  function ExcludedOriginals(items: seq<ActivationItem>, checks: seq<ExclusionCheck>): seq<ActivationItem>
  {
    if items == [] then []
    else
      var x := items[|items| - 1];
      ExcludedOriginals(items[..|items| - 1], checks) + (if AnyExcluded(x, checks) then [x] else [])
  }

  /** The marked copies of the excluded items, in input order. */
  function ExcludedItems(items: seq<ActivationItem>, checks: seq<ExclusionCheck>): seq<ActivationItem>
  {
    if items == [] then []
    else
      var x := items[|items| - 1];
      ExcludedItems(items[..|items| - 1], checks)
        + (if AnyExcluded(x, checks) then [MarkExcluded(x, MatchedReasons(x, checks))] else [])
  }

  /** Every reason of every (item, check) result that excluded the item, in loop order. */
  function AllReasons(items: seq<ActivationItem>, checks: seq<ExclusionCheck>): seq<string>
  {
    if items == [] then []
    else AllReasons(items[..|items| - 1], checks) + MatchedReasons(items[|items| - 1], checks)
  }

  function Get(m: map<string, int>, k: string): int
  {
    if k in m then m[k] else 0
  }

  /** Occurrence counts of a list of strings, built one element at a time. */
  function Tally(s: seq<string>): map<string, int>
  {
    if s == [] then map[]
    else
      var m := Tally(s[..|s| - 1]);
      var r := s[|s| - 1];
      m[r := Get(m, r) + 1]
  }

  lemma TallySnoc(s: seq<string>, r: string)
    ensures Tally(s + [r]) == Tally(s)[r := Get(Tally(s), r) + 1]
  {
    assert (s + [r])[..|s|] == s;
  }

  /** The tally has a key exactly for each reason present and counts its occurrences. */
  lemma {:induction false} TallyCounts(s: seq<string>)
    ensures forall r :: r in Tally(s) <==> r in s
    ensures forall r :: Get(Tally(s), r) == multiset(s)[r]
  {
    if s != [] {
      var p := s[..|s| - 1];
      TallyCounts(p);
      assert s == p + [s[|s| - 1]];
    }
  }

  // ---- The operation ---------------------------------------------------

  /** Adds one to the count of each reason in turn (the innermost loop). */
  method CountReasons(counts: map<string, int>, ghost counted: seq<string>, reasons: seq<string>)
    returns (updated: map<string, int>)
    requires counts == Tally(counted)
    ensures updated == Tally(counted + reasons)
  {
    updated := counts;
    var k := 0;
    assert counted + reasons[..0] == counted;
    while k < |reasons|
      invariant 0 <= k <= |reasons|
      invariant updated == Tally(counted + reasons[..k])
    {
      var reason := reasons[k];
      TallySnoc(counted + reasons[..k], reason);
      assert counted + reasons[..k + 1] == counted + reasons[..k] + [reason];
      updated := updated[reason := Get(updated, reason) + 1];
      k := k + 1;
    }
    assert reasons[..k] == reasons;
  }

  /** Runs the checks on one item, accumulating its reasons and their counts. */
  method RunChecks(item: ActivationItem, checks: seq<ExclusionCheck>, counts: map<string, int>, ghost counted: seq<string>)
    returns (isExcluded: bool, allReasons: seq<string>, updated: map<string, int>)
    requires counts == Tally(counted)
    ensures isExcluded == AnyExcluded(item, checks)
    ensures allReasons == MatchedReasons(item, checks)
    ensures updated == Tally(counted + allReasons)
  {
    allReasons, isExcluded, updated := [], false, counts;
    assert counted + allReasons == counted;
    var j := 0;
    while j < |checks|
      invariant 0 <= j <= |checks|
      invariant allReasons == MatchedReasons(item, checks[..j])
      invariant isExcluded == AnyExcluded(item, checks[..j])
      invariant updated == Tally(counted + allReasons)
    {
      assert checks[..j + 1][..j] == checks[..j];
      var result := checks[j](item);
      if result.excluded {
        isExcluded := true;
        updated := CountReasons(updated, counted + allReasons, result.reasons);
        assert counted + allReasons + result.reasons == counted + (allReasons + result.reasons);
        allReasons := allReasons + result.reasons;
      }
      j := j + 1;
    }
    assert checks[..j] == checks;
  }

  /** The three results over one more item: its own outcome appended to those over the items before it. */
  lemma ApplySnoc(items: seq<ActivationItem>, checks: seq<ExclusionCheck>, i: nat)
    requires i < |items|
    ensures EligibleItems(items[..i + 1], checks)
            == EligibleItems(items[..i], checks) + (if AnyExcluded(items[i], checks) then [] else [items[i]])
    ensures ExcludedItems(items[..i + 1], checks)
            == ExcludedItems(items[..i], checks)
               + (if AnyExcluded(items[i], checks) then [MarkExcluded(items[i], MatchedReasons(items[i], checks))] else [])
    ensures AllReasons(items[..i + 1], checks) == AllReasons(items[..i], checks) + MatchedReasons(items[i], checks)
  {
    assert items[..i + 1][..i] == items[..i];
  }

  /**
   * Runs every check on every item: items some check excludes become marked
   * copies in `excluded`, the rest stay in `eligible`, and `reasonCounts`
   * counts each reason over all excluding results.
   */
  method ApplyExclusions(items: seq<ActivationItem>, checks: seq<ExclusionCheck>)
    returns (eligible: seq<ActivationItem>, excluded: seq<ActivationItem>, reasonCounts: map<string, int>)
    ensures eligible == EligibleItems(items, checks)
    ensures excluded == ExcludedItems(items, checks)
    ensures reasonCounts == Tally(AllReasons(items, checks))
  {
    eligible, excluded, reasonCounts := [], [], map[];
    var i := 0;
    while i < |items|
      invariant 0 <= i <= |items|
      invariant eligible == EligibleItems(items[..i], checks)
      invariant excluded == ExcludedItems(items[..i], checks)
      invariant reasonCounts == Tally(AllReasons(items[..i], checks))
    {
      var item := items[i];
      var isExcluded, allReasons;
      isExcluded, allReasons, reasonCounts := RunChecks(item, checks, reasonCounts, AllReasons(items[..i], checks));
      ApplySnoc(items, checks, i);
      if isExcluded {
        var excludedItem := MarkExcluded(item, allReasons);
        excluded := excluded + [excludedItem];
      } else {
        eligible := eligible + [item];
      }
      i := i + 1;
    }
    assert items[..i] == items;
  }

  // ---- Properties ------------------------------------------------------

  /** An item is excluded exactly when at least one of the checks excludes it. */
  lemma {:induction false} AnyExcludedIff(item: ActivationItem, checks: seq<ExclusionCheck>)
    ensures AnyExcluded(item, checks) <==> exists j :: 0 <= j < |checks| && checks[j](item).excluded
  {
    if checks != [] {
      var p := checks[..|checks| - 1];
      AnyExcludedIff(item, p);
      if AnyExcluded(item, p) {
        var j :| 0 <= j < |p| && p[j](item).excluded;
        assert checks[j] == p[j];
      }
      if exists j :: 0 <= j < |checks| && checks[j](item).excluded {
        var j :| 0 <= j < |checks| && checks[j](item).excluded;
        if j < |p| {
          assert p[j] == checks[j];
        }
      }
    }
  }

  /** Every item lands in exactly one of the two lists. */
  lemma {:induction false} ExclusionsPartitionSizes(items: seq<ActivationItem>, checks: seq<ExclusionCheck>)
    ensures |EligibleItems(items, checks)| + |ExcludedItems(items, checks)| == |items|
    ensures |ExcludedItems(items, checks)| == |ExcludedOriginals(items, checks)|
    ensures multiset(EligibleItems(items, checks)) + multiset(ExcludedOriginals(items, checks)) == multiset(items)
  {
    if items != [] {
      var p := items[..|items| - 1];
      ExclusionsPartitionSizes(p, checks);
      assert items == p + [items[|items| - 1]];
    }
  }

  /** Both lists keep input order. */
  lemma {:induction false} ExclusionsKeepOrder(items: seq<ActivationItem>, checks: seq<ExclusionCheck>)
    ensures IsSubsequence(EligibleItems(items, checks), items)
    ensures IsSubsequence(ExcludedOriginals(items, checks), items)
  {
    if items != [] {
      var p := items[..|items| - 1];
      var x := items[|items| - 1];
      ExclusionsKeepOrder(p, checks);
      SubsequenceExtend(EligibleItems(p, checks), p, x);
      SubsequenceExtend(ExcludedOriginals(p, checks), p, x);
      assert items == p + [x];
      if AnyExcluded(x, checks) {
        assert EligibleItems(items, checks) == EligibleItems(p, checks);
        assert ExcludedOriginals(items, checks) == ExcludedOriginals(p, checks) + [x];
      } else {
        assert EligibleItems(items, checks) == EligibleItems(p, checks) + [x];
        assert ExcludedOriginals(items, checks) == ExcludedOriginals(p, checks);
      }
    }
  }

  /** Eligible items pass every check; excluded originals fail at least one. */
  lemma {:induction false} ExclusionsMembership(items: seq<ActivationItem>, checks: seq<ExclusionCheck>)
    ensures forall x :: x in EligibleItems(items, checks) ==> x in items && !AnyExcluded(x, checks)
    ensures forall x :: x in ExcludedOriginals(items, checks) ==> x in items && AnyExcluded(x, checks)
  {
    if items != [] {
      var p := items[..|items| - 1];
      ExclusionsMembership(p, checks);
      assert items == p + [items[|items| - 1]];
    }
  }

  /** The k-th excluded copy is the k-th excluded original, marked with its own reasons. */
  lemma {:induction false} ExcludedAreMarkedOriginals(items: seq<ActivationItem>, checks: seq<ExclusionCheck>, k: nat)
    requires k < |ExcludedItems(items, checks)|
    ensures |ExcludedItems(items, checks)| == |ExcludedOriginals(items, checks)|
    ensures var x := ExcludedOriginals(items, checks)[k];
      ExcludedItems(items, checks)[k] == MarkExcluded(x, MatchedReasons(x, checks))
  {
    ExclusionsPartitionSizes(items, checks);
    var p := items[..|items| - 1];
    ExclusionsPartitionSizes(p, checks);
    if k < |ExcludedItems(p, checks)| {
      ExcludedAreMarkedOriginals(p, checks, k);
    }
  }

  /** An excluded copy keeps every field and metadata key; only `excluded_reasons` is set. */
  lemma MarkExcludedKeepsItem(item: ActivationItem, reasons: seq<string>)
    ensures var y := MarkExcluded(item, reasons);
      y.itemGroupId == item.itemGroupId && y.gtin == item.gtin && y.linkcode == item.linkcode
      && y.category == item.category && y.score == item.score
      && y.metadata.Keys == item.metadata.Keys + {EXCLUDED_REASONS_KEY}
      && NamesAt(y.metadata, EXCLUDED_REASONS_KEY) == reasons
      && (forall k :: k in item.metadata && k != EXCLUDED_REASONS_KEY ==> y.metadata[k] == item.metadata[k])
  {
  }

  /** `reason_counts[r]` is the number of occurrences of `r` over all excluding results. */
  lemma ReasonCountsMeaning(items: seq<ActivationItem>, checks: seq<ExclusionCheck>, r: string)
    ensures r in Tally(AllReasons(items, checks)) <==> r in AllReasons(items, checks)
    ensures Get(Tally(AllReasons(items, checks)), r) == multiset(AllReasons(items, checks))[r]
  {
    TallyCounts(AllReasons(items, checks));
  }

  /** With no items or no checks, nothing is excluded and no reason is counted. */
  lemma {:induction false} NoChecksNoExclusions(items: seq<ActivationItem>)
    ensures EligibleItems(items, []) == items
    ensures ExcludedItems(items, []) == []
    ensures Tally(AllReasons(items, [])) == map[]
    ensures AllReasons(items, []) == []
  {
    if items != [] {
      NoChecksNoExclusions(items[..|items| - 1]);
      assert items == items[..|items| - 1] + [items[|items| - 1]];
    }
  }

  /** The two checks the coupon evaluator uses, as functions of an item. */
  function InSetCheck(ids: set<string>, reason: string): ExclusionCheck
  {
    x => ExcludeIfInSet(x, ids, reason)
  }

  function RecentPurchaseCheck(ids: set<string>, reason: string): ExclusionCheck
  {
    x => ExcludeIfRecentPurchase(x, ids, reason)
  }

  /** For a set check followed by a recent-purchase check, both matching reasons are kept, in order. */
  lemma TwoChecksReasons(item: ActivationItem, a: set<string>, ra: string, b: set<string>, rb: string)
    ensures var checks := [InSetCheck(a, ra), RecentPurchaseCheck(b, rb)];
      (AnyExcluded(item, checks) <==> item.itemGroupId in a || item.itemGroupId in b)
      && MatchedReasons(item, checks)
         == (if item.itemGroupId in a then [ra] else []) + (if item.itemGroupId in b then [rb] else [])
  {
    var checks := [InSetCheck(a, ra), RecentPurchaseCheck(b, rb)];
    var first := checks[..1];
    assert first == [InSetCheck(a, ra)];
    assert first[..0] == [];
    assert checks[1](item) == ExcludeIfRecentPurchase(item, b, rb);
    assert first[0](item) == ExcludeIfInSet(item, a, ra);
    assert AnyExcluded(item, first) <==> item.itemGroupId in a;
    assert MatchedReasons(item, first) == if item.itemGroupId in a then [ra] else [];
  }
}
