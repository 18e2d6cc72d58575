// The shopper coupon offer set primitive (domain/primitives/shopper_coupon_offer_set):
// takes the shopper's top affinity items, keeps those eligible for a coupon,
// drops weekly-ad items and recent purchases through the activation policy
// engine, drops unpriced items, then ranks, caps and prices the offers.
module CouponOfferSet {
  import opened Wrappers
  import opened Common
  import opened Seqs
  import opened StableSort
  import opened ActivationModels
  import opened Identity
  import opened Exclusions
  import opened Ordering
  import opened Reasons
  import opened PolicyOutcomes
  import Selection
  import WeeklyAdSlate

  datatype CouponConfig = CouponConfig(
    primitiveName: string,
    primitiveVersion: string,
    canonicalVersion: string,
    maxOffers: int,
    discountPct: int,
    affinityTopK: int,
    excludeLookbackDays: int,
    minMatchRateForHighConfidence: real,
    sparseEmission: bool,
    adHoursWindow: int,
    pricingFallbackMode: string,
    categoryCap: Option<int>,
    adId: string,
    scopeType: string,
    scopeValue: string,
    hoursWindow: int)

  const DefaultCouponConfig: CouponConfig :=
    CouponConfig("shopper_coupon_offer_set", "1.0.0", "v1", 10, 25, 50, 14, 0.50, true, 72, "skip", None,
                 "", "", "", 72)

  /** The two fields of an eligibility row that the evaluator reads. */
  datatype EligibleInfo = EligibleInfo(gtin: Option<string>, linkcode: Option<string>)

  datatype CouponInput = CouponInput(
    tenantId: string,
    subjectType: string,
    subjectId: string,
    asOfTs: int,
    configVersion: string,
    canonicalVersion: string,
    shopperAffinity: Option<WeeklyAdSlate.ShopperAffinityRow>,
    weeklyAdItemGroups: set<string>,
    eligibleMap: map<string, EligibleInfo>,
    recentPurchaseKeys: set<string>,
    baselinePrices: map<(string, string), real>)

  /** `CouponOfferSetInput.new`: missing sets and maps become empty. */
  function NewCouponInput(
    tenantId: string, subjectId: string, asOfTs: int, configVersion: string,
    canonicalVersion: string := "v1", subjectType: string := "shopper",
    shopperAffinity: Option<WeeklyAdSlate.ShopperAffinityRow> := None,
    weeklyAdItemGroups: Option<set<string>> := None,
    eligibleMap: Option<map<string, EligibleInfo>> := None,
    recentPurchaseKeys: Option<set<string>> := None,
    baselinePrices: Option<map<(string, string), real>> := None): (r: CouponInput)
    ensures r.weeklyAdItemGroups == weeklyAdItemGroups.GetOr({}) && r.recentPurchaseKeys == recentPurchaseKeys.GetOr({})
    ensures r.eligibleMap == eligibleMap.GetOr(map[]) && r.baselinePrices == baselinePrices.GetOr(map[])
    ensures r.shopperAffinity == shopperAffinity && r.subjectType == subjectType
    ensures r.tenantId == tenantId && r.subjectId == subjectId && r.asOfTs == asOfTs
    ensures r.configVersion == configVersion && r.canonicalVersion == canonicalVersion
  {
    CouponInput(tenantId, subjectType, subjectId, asOfTs, configVersion, canonicalVersion, shopperAffinity,
                weeklyAdItemGroups.GetOr({}), eligibleMap.GetOr(map[]), recentPurchaseKeys.GetOr({}),
                baselinePrices.GetOr(map[]))
  }

  /** One offer: the item, its prices and why it was chosen. */
  datatype CouponOffer = CouponOffer(
    rank: int,
    itemGroupId: string,
    gtin: Option<string>,
    linkcode: Option<string>,
    affinityScore: real,
    baselinePrice: real,
    offerPrice: real,
    reasons: seq<string>)

  // The rule and driver names of the primitive's rules module; their text is
  // not part of this model, so no property below depends on it.
  const COMPUTED: string
  const UNKNOWN: string
  const RULE_COMPUTED_OFFERS: string
  const RULE_UNKNOWN_NO_OFFERS: string
  const DRIVER_WEEKLY_AD_OVERLAP_EXCLUSION: string
  const DRIVER_RECENT_PURCHASE_EXCLUSION: string
  const DRIVER_ELIGIBILITY_POLICY_ENFORCED: string
  const DRIVER_NOT_IN_WEEKLY_AD: string
  const DRIVER_COUPON_DISCOUNT_APPLIED: string
  const DRIVER_HIGH_AFFINITY: string

  const BASELINE_PRICE_KEY: string := "baseline_price"
  const SKIP_MODE: string := "skip"

  // ---- Affinity map: an insertion-ordered dictionary ----------------------

  /** A Python `dict[str, float]`: its pairs in insertion order. */
  type Entries = seq<(string, real)>

  /** The dictionary as built, before any score is read: None is a stored null. */
  type StoredEntries = seq<(string, Option<real>)>

  function EntryIds<V>(e: seq<(string, V)>): (ids: seq<string>)
    ensures |ids| == |e| && forall i :: 0 <= i < |e| ==> ids[i] == e[i].0
  {
    seq(|e|, i requires 0 <= i < |e| => e[i].0)
  }

  /** `d[id] = v`: an existing key keeps its place and takes the new value; a new key goes last. */
  function Put<V>(e: seq<(string, V)>, id: string, v: V): (r: seq<(string, V)>)
    ensures EntryIds(r) == if id in EntryIds(e) then EntryIds(e) else EntryIds(e) + [id]
    ensures forall i :: 0 <= i < |r| ==> if r[i].0 == id then r[i].1 == v else i < |e| && r[i] == e[i]
  {
    if id in EntryIds(e) then
      seq(|e|, i requires 0 <= i < |e| => if e[i].0 == id then (id, v) else e[i])
    else
      e + [(id, v)]
  }

  /** The dictionary the loop builds from the entries in order; entries without a non-empty id are skipped. */
  function StoredAffinityEntries(items: seq<WeeklyAdSlate.AffinityItem>): StoredEntries
  {
    if items == [] then []
    else
      var e := StoredAffinityEntries(items[..|items| - 1]);
      var last := items[|items| - 1];
      if Truthy(last.itemGroupId) then Put(e, last.itemGroupId.value, WeeklyAdSlate.StoredScore(last.affinityScore)) else e
  }

  /** Some stored score is None, so the sort key `-x[1]` raises `TypeError`. */
  predicate NoneScored(e: StoredEntries)
  {
    exists i :: 0 <= i < |e| && e[i].1.None?
  }

  /** The pairs with their numbers, as the sort reads them once no score is None. */
  function NumericEntries(e: StoredEntries): (r: Entries)
    ensures |r| == |e| && forall i :: 0 <= i < |e| ==> r[i] == (e[i].0, e[i].1.GetOr(0.0))
  {
    seq(|e|, i requires 0 <= i < |e| => (e[i].0, e[i].1.GetOr(0.0)))
  }

  function AffinityEntries(items: seq<WeeklyAdSlate.AffinityItem>): Entries
  {
    NumericEntries(StoredAffinityEntries(items))
  }

  /** `top_affinity_items[:affinity_top_k]`, or nothing without an affinity row. */
  function TopAffinityItems(input: CouponInput, config: CouponConfig): seq<WeeklyAdSlate.AffinityItem>
  {
    SlicePrefix(WeeklyAdSlate.AffinityItemsOf(input.shopperAffinity), config.affinityTopK)
  }

  method BuildAffinityEntries(items: seq<WeeklyAdSlate.AffinityItem>) returns (entries: StoredEntries)
    ensures entries == StoredAffinityEntries(items)
  {
    entries := [];
    var i := 0;
    while i < |items|
      invariant 0 <= i <= |items|
      invariant entries == StoredAffinityEntries(items[..i])
    {
      assert items[..i + 1][..i] == items[..i];
      var item := items[i];
      if Truthy(item.itemGroupId) {
        entries := Put(entries, item.itemGroupId.value, WeeklyAdSlate.StoredScore(item.affinityScore));
      }
      i := i + 1;
    }
    assert items[..|items|] == items;
  }

  /** The pairs list each key once and hold exactly the mapping `m`. */
  ghost predicate Agrees<V>(e: seq<(string, V)>, m: map<string, V>)
  {
    NoDuplicates(EntryIds(e))
    && (forall k :: k in EntryIds(e) <==> k in m)
    && (forall i :: 0 <= i < |e| ==> e[i].0 in m && e[i].1 == m[e[i].0])
  }

  lemma PutAgrees<V>(e: seq<(string, V)>, m: map<string, V>, id: string, v: V)
    requires Agrees(e, m)
    ensures Agrees(Put(e, id, v), m[id := v])
  {
  }

  lemma NumericAgrees(e: StoredEntries, m: map<string, Option<real>>)
    requires Agrees(e, m)
    ensures Agrees(NumericEntries(e), WeeklyAdSlate.NumericScores(m))
  {
    assert EntryIds(NumericEntries(e)) == EntryIds(e);
  }

  /**
   * The dictionary the loop builds lists each id once and maps it to the
   * stored score of its last entry, the same mapping as the weekly-ad score
   * dictionary.
   */
  lemma {:induction false} StoredEntriesAgree(items: seq<WeeklyAdSlate.AffinityItem>)
    ensures Agrees(StoredAffinityEntries(items), WeeklyAdSlate.StoredScores(items))
    decreases |items|
  {
    if items != [] {
      var p := items[..|items| - 1];
      StoredEntriesAgree(p);
      var last := items[|items| - 1];
      if Truthy(last.itemGroupId) {
        PutAgrees(StoredAffinityEntries(p), WeeklyAdSlate.StoredScores(p), last.itemGroupId.value,
                  WeeklyAdSlate.StoredScore(last.affinityScore));
      }
    }
  }

  /** The numbers the sort reads agree with the scores the weekly-ad slate reads. */
  lemma AffinityEntriesAgree(items: seq<WeeklyAdSlate.AffinityItem>)
    ensures Agrees(AffinityEntries(items), WeeklyAdSlate.AffinityScores(items))
  {
    StoredEntriesAgree(items);
    NumericAgrees(StoredAffinityEntries(items), WeeklyAdSlate.StoredScores(items));
  }

  lemma NoneScoredAgrees(e: StoredEntries, m: map<string, Option<real>>)
    requires Agrees(e, m)
    ensures NoneScored(e) <==> WeeklyAdSlate.HasNoneScore(m)
  {
    if NoneScored(e) {
      var i :| 0 <= i < |e| && e[i].1.None?;
      assert m[e[i].0].None?;
    }
    if exists id :: id in m && m[id].None? {
      var id :| id in m && m[id].None?;
      assert id in EntryIds(e);
      var i :| 0 <= i < |e| && EntryIds(e)[i] == id;
      assert e[i].1.None?;
    }
  }

  /** The sort fails exactly when some id's stored score is None. */
  lemma NoneScoredMeaning(items: seq<WeeklyAdSlate.AffinityItem>)
    ensures NoneScored(StoredAffinityEntries(items)) <==> WeeklyAdSlate.HasNoneScore(WeeklyAdSlate.StoredScores(items))
  {
    var e := StoredAffinityEntries(items);
    var m := WeeklyAdSlate.StoredScores(items);
    StoredEntriesAgree(items);
    NoneScoredAgrees(e, m);
  }

  /** Every id in the dictionary is non-empty. */
  lemma AffinityIdsNonEmpty(items: seq<WeeklyAdSlate.AffinityItem>)
    ensures forall c :: c in AffinityEntries(items) ==> c.0 != ""
  {
    AffinityEntriesAgree(items);
    forall c | c in AffinityEntries(items)
      ensures c.0 != ""
    {
      WeeklyAdSlate.AffinityScoresDomain(items, c.0);
    }
  }

  // ---- Candidates and the eligibility gate -------------------------------

  /** `(-score, item_group_id)`: score descending, then id ascending. */
  function CandidateKey(c: (string, real)): SortKey
  {
    SortKey(c.1, None, c.0)
  }

  /** A candidate that passed the gate, with its eligibility row. */
  datatype EligibleCandidate = EligibleCandidate(id: string, score: real, info: EligibleInfo)

  /** The candidates whose id has an eligibility row, in candidate order. */
  function EligibleCandidates(cands: Entries, eligibleMap: map<string, EligibleInfo>): seq<EligibleCandidate>
  {
    if cands == [] then []
    else
      var p := EligibleCandidates(cands[..|cands| - 1], eligibleMap);
      var c := cands[|cands| - 1];
      if c.0 in eligibleMap then p + [EligibleCandidate(c.0, c.1, eligibleMap[c.0])] else p
  }

  method GateEligible(cands: Entries, eligibleMap: map<string, EligibleInfo>) returns (eligible: seq<EligibleCandidate>)
    ensures eligible == EligibleCandidates(cands, eligibleMap)
  {
    eligible := [];
    var i := 0;
    while i < |cands|
      invariant 0 <= i <= |cands|
      invariant eligible == EligibleCandidates(cands[..i], eligibleMap)
    {
      assert cands[..i + 1][..i] == cands[..i];
      var (id, score) := cands[i];
      if id in eligibleMap {
        eligible := eligible + [EligibleCandidate(id, score, eligibleMap[id])];
      }
      i := i + 1;
    }
    assert cands[..|cands|] == cands;
  }

  function CandidateOf(x: EligibleCandidate): (string, real)
  {
    (x.id, x.score)
  }

  function CandidatesOf(s: seq<EligibleCandidate>): (r: Entries)
    ensures |r| == |s| && forall i :: 0 <= i < |s| ==> r[i] == CandidateOf(s[i])
  {
    seq(|s|, i requires 0 <= i < |s| => CandidateOf(s[i]))
  }

  /** The gate keeps candidates in order, each with its eligibility row. */
  lemma {:induction false} EligibilityGate(cands: Entries, eligibleMap: map<string, EligibleInfo>)
    ensures var r := EligibleCandidates(cands, eligibleMap);
            |r| <= |cands|
            && IsSubsequence(CandidatesOf(r), cands)
            && (forall x :: x in r ==> x.id in eligibleMap && x.info == eligibleMap[x.id])
    decreases |cands|
  {
    if cands != [] {
      var p := cands[..|cands| - 1];
      var c := cands[|cands| - 1];
      EligibilityGate(p, eligibleMap);
      var q := EligibleCandidates(p, eligibleMap);
      assert cands == p + [c];
      SubsequenceExtend(CandidatesOf(q), p, c);
      if c.0 in eligibleMap {
        var x := EligibleCandidate(c.0, c.1, eligibleMap[c.0]);
        assert EligibleCandidates(cands, eligibleMap) == q + [x];
        assert CandidatesOf(q + [x]) == CandidatesOf(q) + [c];
      } else {
        assert EligibleCandidates(cands, eligibleMap) == q;
      }
    }
  }

  /** A candidate passes the gate exactly when its id has an eligibility row. */
  lemma {:induction false} EligibilityGateExact(cands: Entries, eligibleMap: map<string, EligibleInfo>)
    ensures var r := EligibleCandidates(cands, eligibleMap);
            forall c :: c in cands ==> (c in CandidatesOf(r) <==> c.0 in eligibleMap)
    decreases |cands|
  {
    if cands != [] {
      var p := cands[..|cands| - 1];
      var c := cands[|cands| - 1];
      EligibilityGateExact(p, eligibleMap);
      EligibilityGate(cands, eligibleMap);
      var r := EligibleCandidates(cands, eligibleMap);
      var q := EligibleCandidates(p, eligibleMap);
      assert cands == p + [c];
      if c.0 in eligibleMap {
        assert CandidatesOf(r) == CandidatesOf(q) + [c];
      } else {
        assert r == q;
      }
      forall d | d in cands
        ensures d in CandidatesOf(r) ==> d.0 in eligibleMap
      {
        if d in CandidatesOf(r) {
          var i :| 0 <= i < |CandidatesOf(r)| && CandidatesOf(r)[i] == d;
          assert r[i] in r;
        }
      }
    }
  }

  // ---- Activation items ---------------------------------------------------

  function LookupPrice(prices: map<(string, string), real>, shopperId: string, id: string): Option<real>
  {
    if (shopperId, id) in prices then Some(prices[(shopperId, id)]) else None
  }

  function PriceValue(p: Option<real>): Value
  {
    if p.Some? then Num(p.value) else Null
  }

  /** `metadata.get("baseline_price")`; the model stores a price as a number or as null. */
  function BaselinePriceOf(item: ActivationItem): Option<real>
  {
    if BASELINE_PRICE_KEY in item.metadata && item.metadata[BASELINE_PRICE_KEY].Num? then
      Some(item.metadata[BASELINE_PRICE_KEY].x)
    else None
  }

  /** The activation item of an eligible candidate, carrying its baseline price (or null) in its metadata. */
  function ActivationItemFor(c: EligibleCandidate, shopperId: string, prices: map<(string, string), real>): (item: ActivationItem)
    requires c.id != ""
    ensures item.itemGroupId == c.id && item.score == c.score && item.category.None?
    ensures item.gtin == c.info.gtin && item.linkcode == c.info.linkcode
    ensures BaselinePriceOf(item) == LookupPrice(prices, shopperId, c.id)
  {
    BuildActivationItem(Some(c.id), c.info.linkcode, c.info.gtin, None, c.score,
                        Some(map[BASELINE_PRICE_KEY := PriceValue(LookupPrice(prices, shopperId, c.id))])).value
  }

  function ActivationItemsFor(es: seq<EligibleCandidate>, shopperId: string, prices: map<(string, string), real>): (items: seq<ActivationItem>)
    requires forall x :: x in es ==> x.id != ""
    ensures |items| == |es|
  {
    seq(|es|, i requires 0 <= i < |es| => ActivationItemFor(es[i], shopperId, prices))
  }

  method BuildActivationItems(es: seq<EligibleCandidate>, shopperId: string, prices: map<(string, string), real>)
    returns (items: seq<ActivationItem>)
    requires forall x :: x in es ==> x.id != ""
    ensures items == ActivationItemsFor(es, shopperId, prices)
  {
    items := [];
    var i := 0;
    while i < |es|
      invariant 0 <= i <= |es|
      invariant |items| == i
      invariant forall k :: 0 <= k < i ==> items[k] == ActivationItemFor(es[k], shopperId, prices)
    {
      var item := ActivationItemFor(es[i], shopperId, prices);
      items := items + [item];
      i := i + 1;
    }
  }

  /** Every id that reaches the activation items is non-empty, so building them never fails. */
  lemma EligibleIdsNonEmpty(items: seq<WeeklyAdSlate.AffinityItem>, eligibleMap: map<string, EligibleInfo>)
    ensures forall x :: x in EligibleCandidates(SortBy(AffinityEntries(items), CandidateKey), eligibleMap) ==> x.id != ""
  {
    var entries := AffinityEntries(items);
    var cands := SortBy(entries, CandidateKey);
    AffinityIdsNonEmpty(items);
    SortByPermutation(entries, CandidateKey);
    EligibilityGate(cands, eligibleMap);
    var r := EligibleCandidates(cands, eligibleMap);
    SubsequenceMembers(CandidatesOf(r), cands);
    forall x | x in r
      ensures x.id != ""
    {
      var i :| 0 <= i < |r| && r[i] == x;
      var k :| 0 <= k < |cands| && cands[k] == CandidatesOf(r)[i];
      assert cands[k] in multiset(entries);
    }
  }

  // ---- Exclusions and the pricing filter ---------------------------------

  /** The weekly-ad check, then the recent-purchase check. */
  function CouponChecks(input: CouponInput): seq<ExclusionCheck>
  {
    [InSetCheck(input.weeklyAdItemGroups, DRIVER_WEEKLY_AD_OVERLAP_EXCLUSION),
     RecentPurchaseCheck(input.recentPurchaseKeys, DRIVER_RECENT_PURCHASE_EXCLUSION)]
  }

  /** How many items have their id in `ids`. */
  function CountIn(items: seq<ActivationItem>, ids: set<string>): (n: nat)
    ensures n <= |items|
  {
    if items == [] then 0
    else CountIn(items[..|items| - 1], ids) + (if items[|items| - 1].itemGroupId in ids then 1 else 0)
  }

  /**
   * Each reason is counted once per item whose id is in the matching set;
   * no other reason is ever counted.
   */
  lemma {:induction false} CouponReasonCounts(items: seq<ActivationItem>, input: CouponInput, r: string)
    ensures multiset(AllReasons(items, CouponChecks(input)))[r]
            == (if r == DRIVER_WEEKLY_AD_OVERLAP_EXCLUSION then CountIn(items, input.weeklyAdItemGroups) else 0)
               + (if r == DRIVER_RECENT_PURCHASE_EXCLUSION then CountIn(items, input.recentPurchaseKeys) else 0)
    decreases |items|
  {
    if items != [] {
      var p := items[..|items| - 1];
      var x := items[|items| - 1];
      CouponReasonCounts(p, input, r);
      TwoChecksReasons(x, input.weeklyAdItemGroups, DRIVER_WEEKLY_AD_OVERLAP_EXCLUSION,
                       input.recentPurchaseKeys, DRIVER_RECENT_PURCHASE_EXCLUSION);
      assert AllReasons(items, CouponChecks(input)) == AllReasons(p, CouponChecks(input)) + MatchedReasons(x, CouponChecks(input));
    }
  }

  /** In "skip" mode an item without a baseline price is set aside. */
  predicate PriceMissing(item: ActivationItem, mode: string)
  {
    BaselinePriceOf(item).None? && mode == SKIP_MODE
  }

  function PricingMissing(items: seq<ActivationItem>, mode: string): seq<ActivationItem>
  {
    if items == [] then []
    else
      var x := items[|items| - 1];
      PricingMissing(items[..|items| - 1], mode) + (if PriceMissing(x, mode) then [x] else [])
  }

  function WithPricing(items: seq<ActivationItem>, mode: string): seq<ActivationItem>
  {
    if items == [] then []
    else
      var x := items[|items| - 1];
      WithPricing(items[..|items| - 1], mode) + (if PriceMissing(x, mode) then [] else [x])
  }

  method PartitionByPricing(items: seq<ActivationItem>, mode: string)
    returns (missing: seq<ActivationItem>, priced: seq<ActivationItem>)
    ensures missing == PricingMissing(items, mode) && priced == WithPricing(items, mode)
  {
    missing, priced := [], [];
    var i := 0;
    while i < |items|
      invariant 0 <= i <= |items|
      invariant missing == PricingMissing(items[..i], mode) && priced == WithPricing(items[..i], mode)
    {
      assert items[..i + 1][..i] == items[..i];
      var item := items[i];
      if BaselinePriceOf(item).None? && mode == SKIP_MODE {
        missing := missing + [item];
      } else {
        priced := priced + [item];
      }
      i := i + 1;
    }
    assert items[..|items|] == items;
  }

  /**
   * The pricing filter splits its input: every item is either set aside or
   * kept, and outside "skip" mode nothing is set aside.
   */
  lemma {:induction false} PricingPartition(items: seq<ActivationItem>, mode: string)
    ensures |PricingMissing(items, mode)| + |WithPricing(items, mode)| == |items|
    ensures mode != SKIP_MODE ==> WithPricing(items, mode) == items && PricingMissing(items, mode) == []
    decreases |items|
  {
    if items != [] {
      PricingPartition(items[..|items| - 1], mode);
      assert items == items[..|items| - 1] + [items[|items| - 1]];
    }
  }

  /** The kept items are the input's priced items, in order; the set-aside ones have no price. */
  lemma PricingKeepsOrder(items: seq<ActivationItem>, mode: string)
    ensures IsSubsequence(WithPricing(items, mode), items)
    ensures forall x :: x in WithPricing(items, mode) ==> x in items && !PriceMissing(x, mode)
    ensures forall x :: x in PricingMissing(items, mode) ==> x in items && BaselinePriceOf(x).None?
  {
    PricedSubsequence(items, mode);
    PricedMembers(items, mode);
    MissingMembers(items, mode);
  }

  lemma {:induction false} PricedSubsequence(items: seq<ActivationItem>, mode: string)
    ensures IsSubsequence(WithPricing(items, mode), items)
    decreases |items|
  {
    if items != [] {
      var p, x := items[..|items| - 1], items[|items| - 1];
      PricedSubsequence(p, mode);
      assert items == p + [x];
      SubsequenceExtend(WithPricing(p, mode), p, x);
      if PriceMissing(x, mode) {
        assert WithPricing(items, mode) == WithPricing(p, mode);
      } else {
        assert WithPricing(items, mode) == WithPricing(p, mode) + [x];
      }
    }
  }

  lemma {:induction false} PricedMembers(items: seq<ActivationItem>, mode: string)
    ensures forall x :: x in WithPricing(items, mode) ==> x in items && !PriceMissing(x, mode)
    decreases |items|
  {
    if items != [] {
      var p, x := items[..|items| - 1], items[|items| - 1];
      PricedMembers(p, mode);
      assert items == p + [x];
    }
  }

  lemma {:induction false} MissingMembers(items: seq<ActivationItem>, mode: string)
    ensures forall x :: x in PricingMissing(items, mode) ==> x in items && BaselinePriceOf(x).None?
    decreases |items|
  {
    if items != [] {
      var p, x := items[..|items| - 1], items[|items| - 1];
      MissingMembers(p, mode);
      assert items == p + [x];
    }
  }

  // ---- Selection ----------------------------------------------------------

  predicate CapEnabled(config: CouponConfig)
  {
    config.categoryCap.Some? && config.categoryCap.value > 0
  }

  function Capped(ranked: seq<ActivationItem>, config: CouponConfig): seq<ActivationItem>
  {
    if CapEnabled(config) then Selection.CategoryCap(ranked, config.categoryCap.value) else ranked
  }

  /** HIGH iff something is selected and the match rate reaches the threshold, otherwise MEDIUM. */
  function CouponConfidence(selected: seq<ActivationItem>, matchRate: real, threshold: real): (c: Confidence)
    ensures c == HIGH <==> selected != [] && matchRate >= threshold
    ensures c != LOW
  {
    if |selected| > 0 && matchRate >= threshold then HIGH else MEDIUM
  }

  /** The policy drivers followed by the three coupon drivers. */
  function CouponDrivers(selected: seq<ActivationItem>, excluded: seq<ActivationItem>): (d: seq<string>)
    ensures 4 <= |d| <= 6 && d[0] == ACTIVATION_POLICY_APPLIED
    ensures d[..|d| - 3] == AggregateDrivers(selected, excluded)
    ensures d[|d| - 3..] == [DRIVER_ELIGIBILITY_POLICY_ENFORCED, DRIVER_NOT_IN_WEEKLY_AD, DRIVER_COUPON_DISCOUNT_APPLIED]
  {
    AggregateDrivers(selected, excluded)
      + [DRIVER_ELIGIBILITY_POLICY_ENFORCED, DRIVER_NOT_IN_WEEKLY_AD, DRIVER_COUPON_DISCOUNT_APPLIED]
  }

  // ---- Offers -------------------------------------------------------------

  function OfferReasons(score: real): (r: seq<string>)
    ensures |r| == (if score > 0.0 then 3 else 2)
    ensures r[|r| - 2..] == [DRIVER_NOT_IN_WEEKLY_AD, DRIVER_COUPON_DISCOUNT_APPLIED]
    ensures score > 0.0 ==> r[0] == DRIVER_HIGH_AFFINITY
  {
    (if score > 0.0 then [DRIVER_HIGH_AFFINITY] else []) + [DRIVER_NOT_IN_WEEKLY_AD, DRIVER_COUPON_DISCOUNT_APPLIED]
  }

  /** `baseline_price * (1 - discount_pct / 100)`, unrounded. */
  function OfferPrice(baseline: real, discountPct: int): (p: real)
    ensures 0 <= discountPct <= 100 && baseline >= 0.0 ==> 0.0 <= p <= baseline
    ensures discountPct == 0 ==> p == baseline
  {
    var f := 1.0 - discountPct as real / 100.0;
    assert 0 <= discountPct <= 100 ==> 0.0 <= f <= 1.0;
    assert 0.0 <= f <= 1.0 && baseline >= 0.0 ==> 0.0 <= baseline * f <= baseline * 1.0;
    baseline * f
  }

  function MakeOffer(rank: int, x: ActivationItem, price: real, discountPct: int): CouponOffer
  {
    CouponOffer(rank, x.itemGroupId, x.gtin, x.linkcode, x.score, price, OfferPrice(price, discountPct), OfferReasons(x.score))
  }

  /**
   * One offer per priced item, ranked by its position in the selection
   * (starting at 1); an unpriced item is skipped, leaving its rank unused.
   */
  function OffersFrom(s: seq<ActivationItem>, discountPct: int): seq<CouponOffer>
  {
    if s == [] then []
    else
      var p := OffersFrom(s[..|s| - 1], discountPct);
      var x := s[|s| - 1];
      var price := BaselinePriceOf(x);
      if price.None? then p else p + [MakeOffer(|s|, x, price.value, discountPct)]
  }

  method BuildOffers(selected: seq<ActivationItem>, discountPct: int) returns (offers: seq<CouponOffer>)
    ensures offers == OffersFrom(selected, discountPct)
  {
    offers := [];
    var i := 0;
    while i < |selected|
      invariant 0 <= i <= |selected|
      invariant offers == OffersFrom(selected[..i], discountPct)
    {
      assert selected[..i + 1][..i] == selected[..i];
      var rank := i + 1;
      var item := selected[i];
      var price := BaselinePriceOf(item);
      if price.Some? {
        offers := offers + [MakeOffer(rank, item, price.value, discountPct)];
      }
      i := i + 1;
    }
    assert selected[..|selected|] == selected;
  }

  /**
   * Each offer is the priced selected item at position rank - 1, ranks
   * strictly increase, and there are no more offers than selected items.
   */
  lemma {:induction false} OffersMeaning(s: seq<ActivationItem>, discountPct: int)
    ensures var o := OffersFrom(s, discountPct);
            |o| <= |s|
            && (forall i :: 0 <= i < |o| ==>
                  1 <= o[i].rank <= |s| && BaselinePriceOf(s[o[i].rank - 1]).Some?
                  && o[i] == MakeOffer(o[i].rank, s[o[i].rank - 1], BaselinePriceOf(s[o[i].rank - 1]).value, discountPct))
            && (forall i, j :: 0 <= i < j < |o| ==> o[i].rank < o[j].rank)
    decreases |s|
  {
    if s != [] {
      var p := s[..|s| - 1];
      OffersMeaning(p, discountPct);
      var q := OffersFrom(p, discountPct);
      forall i | 0 <= i < |q|
        ensures s[q[i].rank - 1] == p[q[i].rank - 1]
      {
      }
    }
  }

  /** When every selected item is priced, the offers follow the selection one for one, ranked 1..n. */
  lemma {:induction false} OffersAllPriced(s: seq<ActivationItem>, discountPct: int)
    requires forall i :: 0 <= i < |s| ==> BaselinePriceOf(s[i]).Some?
    ensures var o := OffersFrom(s, discountPct);
            |o| == |s|
            && forall i :: 0 <= i < |o| ==> o[i] == MakeOffer(i + 1, s[i], BaselinePriceOf(s[i]).value, discountPct)
    decreases |s|
  {
    if s != [] {
      var p := s[..|s| - 1];
      var x := s[|s| - 1];
      OffersAllPriced(p, discountPct);
      var q := OffersFrom(p, discountPct);
      assert BaselinePriceOf(x).Some?;
      var o := q + [MakeOffer(|s|, x, BaselinePriceOf(x).value, discountPct)];
      assert OffersFrom(s, discountPct) == o;
      forall i | 0 <= i < |o|
        ensures o[i] == MakeOffer(i + 1, s[i], BaselinePriceOf(s[i]).value, discountPct)
      {
        if i < |p| {
          assert s[i] == p[i];
        }
      }
    }
  }

  // ---- Metrics and evidence ----------------------------------------------

  function OptStr(s: Option<string>): Value
  {
    if s.Some? then Str(s.value) else Null
  }

  function OfferJson(o: CouponOffer): Value
  {
    Obj(map[
      "rank" := Int(o.rank),
      "item_group_id" := Str(o.itemGroupId),
      "gtin" := OptStr(o.gtin),
      "linkcode" := OptStr(o.linkcode),
      "affinity_score" := Num(o.affinityScore),
      "baseline_price" := Num(o.baselinePrice),
      "offer_price" := Num(o.offerPrice),
      "reasons" := Strs(o.reasons)])
  }

  function OffersJson(offers: seq<CouponOffer>): (v: seq<Value>)
    ensures |v| == |offers| && forall i :: 0 <= i < |offers| ==> v[i] == OfferJson(offers[i])
  {
    seq(|offers|, i requires 0 <= i < |offers| => OfferJson(offers[i]))
  }

  function CouponMetrics(
    config: CouponConfig, candidateCount: nat, eligibleCount: nat, weeklyAdCount: int,
    recentPurchaseCount: int, pricingMissingCount: nat, offers: seq<CouponOffer>): (m: Fields)
    ensures "candidate_count" in m && m["candidate_count"] == Int(candidateCount)
    ensures "eligible_count" in m && m["eligible_count"] == Int(eligibleCount)
    ensures "offers" in m && m["offers"] == List(OffersJson(offers))
  {
    map[
      "max_offers" := Int(config.maxOffers),
      "discount_pct" := Int(config.discountPct),
      "excluded_weekly_ad_count" := Int(weeklyAdCount),
      "excluded_recent_purchase_count" := Int(recentPurchaseCount),
      "excluded_pricing_missing_count" := Int(pricingMissingCount),
      "candidate_count" := Int(candidateCount),
      "eligible_count" := Int(eligibleCount),
      "offers" := List(OffersJson(offers))]
  }

  const AFFINITY_TABLE: string := "opsiq_dev.gold.gold_feature_shopper_top_affinity_v1"
  const ELIGIBILITY_TABLE: string := "opsiq_dev.gold.gold_policy_item_eligibility_v1"
  const WEEKLY_AD_TABLE: string := "opsiq_dev.gold.gold_canonical_weekly_ad_item_v1"
  const PURCHASES_TABLE: string := "opsiq_dev.gold.gold_canonical_trip_item_enriched_v1"

  /** The affinity row's stamp when there is a row, else the input's. */
  function AffinityAsOf(input: CouponInput): int
  {
    if input.shopperAffinity.Some? then input.shopperAffinity.value.asOfTs else input.asOfTs
  }

  function CouponReferences(input: CouponInput, config: CouponConfig): (m: Fields)
    ensures "as_of" in m
            && m["as_of"] == Obj(map["affinity_as_of_ts" := Time(AffinityAsOf(input)),
                                     "eligibility_as_of_ts" := Time(input.asOfTs)])
  {
    map[
      "sources" := Obj(map[
        "affinity_table" := Str(AFFINITY_TABLE),
        "eligibility_table" := Str(ELIGIBILITY_TABLE),
        "weekly_ad_table" := Str(WEEKLY_AD_TABLE),
        "purchases_table" := Str(PURCHASES_TABLE)]),
      "context" := Obj(map[
        "ad_id" := Str(config.adId),
        "scope_type" := Str(config.scopeType),
        "scope_value" := Str(config.scopeValue)]),
      "as_of" := Obj(map[
        "affinity_as_of_ts" := Time(AffinityAsOf(input)),
        "eligibility_as_of_ts" := Time(input.asOfTs)])]
  }

  function CouponEvidenceId(subjectId: string): string
  {
    "evidence-" + subjectId + "-coupon-offer-set-v1"
  }

  // ---- The whole evaluation, stage by stage ------------------------------

  /** Every intermediate list of one evaluation. */
  datatype CouponStages = CouponStages(
    entries: Entries,
    candidates: Entries,
    eligible: seq<EligibleCandidate>,
    items: seq<ActivationItem>,
    kept: seq<ActivationItem>,
    excluded: seq<ActivationItem>,
    reasonCounts: map<string, int>,
    missing: seq<ActivationItem>,
    priced: seq<ActivationItem>,
    ranked: seq<ActivationItem>,
    selected: seq<ActivationItem>,
    offers: seq<CouponOffer>)

  function Stages(input: CouponInput, config: CouponConfig): CouponStages
  {
    var top := TopAffinityItems(input, config);
    var entries := AffinityEntries(top);
    var candidates := SortBy(entries, CandidateKey);
    var eligible := EligibleCandidates(candidates, input.eligibleMap);
    EligibleIdsNonEmpty(top, input.eligibleMap);
    var items := ActivationItemsFor(eligible, input.subjectId, input.baselinePrices);
    var checks := CouponChecks(input);
    var kept := EligibleItems(items, checks);
    var missing := PricingMissing(kept, config.pricingFallbackMode);
    var priced := WithPricing(kept, config.pricingFallbackMode);
    var ranked := StableRank(priced);
    var selected := Selection.ApplyMaxItems(Capped(ranked, config), config.maxOffers);
    CouponStages(entries, candidates, eligible, items, kept, ExcludedItems(items, checks),
                 Tally(AllReasons(items, checks)), missing, priced, ranked, selected,
                 OffersFrom(selected, config.discountPct))
  }

  /**
   * `evaluate_shopper_coupon_offer_set`. `now` stands for the evaluation
   * clock. With sparse emission an empty offer list yields nothing; an error
   * is the `TypeError` a None affinity score raises in the candidate sort.
   */
  method EvaluateCouponOfferSet(input: CouponInput, config: CouponConfig, now: int)
    returns (res: Result<Option<PrimitiveResult>, EvaluationError>)
    ensures res.Err? <==> WeeklyAdSlate.HasNoneScore(WeeklyAdSlate.StoredScores(TopAffinityItems(input, config)))
    ensures var st := Stages(input, config);
            res.Ok? ==> (res.value.None? <==> st.offers == [] && config.sparseEmission)
    ensures res.Ok? && res.value.Some? ==>
              var st := Stages(input, config);
              var d := res.value.value.decision;
              var threshold := config.minMatchRateForHighConfidence;
              var allExcluded := st.excluded + st.missing;
              var id := CouponEvidenceId(input.subjectId);
              d.state == (if st.offers != [] then COMPUTED else UNKNOWN)
              && d.confidence == CouponConfidence(st.selected, ComputeMatchRate(st.selected), threshold)
              && d.drivers == CouponDrivers(st.selected, allExcluded)
              && d.metrics == CouponMetrics(config, |st.candidates|, |st.eligible|,
                                            Exclusions.Get(st.reasonCounts, DRIVER_WEEKLY_AD_OVERLAP_EXCLUSION),
                                            Exclusions.Get(st.reasonCounts, DRIVER_RECENT_PURCHASE_EXCLUSION),
                                            |st.missing|, st.offers)
              && d.evidenceRefs == [id]
              && d.versions == VersionInfo(config.primitiveVersion, config.canonicalVersion, input.configVersion)
              && d.computedAt == now && d.validUntil.None?
              && res.value.value.evidenceSet.evidence
                 == [Evidence(id, [if st.offers != [] then RULE_COMPUTED_OFFERS else RULE_UNKNOWN_NO_OFFERS],
                              map[], CouponReferences(input, config), now)]
  {
    var shopperId := input.subjectId;
    var top := TopAffinityItems(input, config);
    var stored := BuildAffinityEntries(top);
    NoneScoredMeaning(top);
    if NoneScored(stored) {
      return Err(NoneScoreTypeError);
    }
    var entries := NumericEntries(stored);
    var candidates := SortBy(entries, CandidateKey);
    var candidateCount := |candidates|;
    var eligible := GateEligible(candidates, input.eligibleMap);
    var eligibleCount := |eligible|;
    EligibleIdsNonEmpty(top, input.eligibleMap);
    var items := BuildActivationItems(eligible, shopperId, input.baselinePrices);
    assert items == ActivationItemsFor(eligible, shopperId, input.baselinePrices);
    var kept, excluded, reasonCounts := ApplyExclusions(items, CouponChecks(input));
    var weeklyAdCount := Exclusions.Get(reasonCounts, DRIVER_WEEKLY_AD_OVERLAP_EXCLUSION);
    var recentPurchaseCount := Exclusions.Get(reasonCounts, DRIVER_RECENT_PURCHASE_EXCLUSION);
    var missing, priced := PartitionByPricing(kept, config.pricingFallbackMode);
    var allExcluded := excluded + missing;
    var ranked := StableRank(priced);
    if CapEnabled(config) {
      ranked := Selection.ApplyCategoryCap(ranked, config.categoryCap.value);
    }
    var selected := Selection.ApplyMaxItems(ranked, config.maxOffers);
    var matchRate := ComputeMatchRate(selected);
    var threshold := config.minMatchRateForHighConfidence;
    var policyConfig := PolicyConfig("item_group_id", config.excludeLookbackDays, config.maxOffers,
                                     config.categoryCap, threshold);
    var drivers := CouponDrivers(selected, allExcluded);
    // The outcome is assembled as the engine defines it, but its confidence is overridden below.
    var outcome := BuildPolicyOutcome(selected, allExcluded, candidateCount, matchRate, drivers, policyConfig);
    var confidence := CouponConfidence(selected, matchRate, threshold);
    var offers := BuildOffers(selected, config.discountPct);
    if offers == [] && config.sparseEmission {
      return Ok(None);
    }
    var metrics := CouponMetrics(config, candidateCount, eligibleCount, weeklyAdCount, recentPurchaseCount,
                                 |missing|, offers);
    var evidenceId := CouponEvidenceId(shopperId);
    var ruleId := if offers != [] then RULE_COMPUTED_OFFERS else RULE_UNKNOWN_NO_OFFERS;
    var evidence := Evidence(evidenceId, [ruleId], map[], CouponReferences(input, config), now);
    var state := if offers != [] then COMPUTED else UNKNOWN;
    var versions := VersionInfo(config.primitiveVersion, config.canonicalVersion, input.configVersion);
    var decision := DecisionResult(state, confidence, drivers, metrics, [evidenceId], versions, now, None);
    res := Ok(Some(PrimitiveResult(decision, EvidenceSet([evidence]))));
  }

  // ---- Properties of the whole evaluation --------------------------------

  /**
   * The affinity dictionary is built from the first `affinity_top_k` entries
   * only, holds each id once with its last score, and `candidate_count` is
   * the number of distinct ids.
   */
  lemma CandidateCountIsDistinctIds(input: CouponInput, config: CouponConfig)
    ensures var st := Stages(input, config);
            var m := WeeklyAdSlate.AffinityScores(TopAffinityItems(input, config));
            Agrees(st.entries, m) && |st.candidates| == |m.Keys|
  {
    var top := TopAffinityItems(input, config);
    var m := WeeklyAdSlate.AffinityScores(top);
    var e := AffinityEntries(top);
    AffinityEntriesAgree(top);
    NoDuplicatesCard(EntryIds(e));
    assert (set x | x in EntryIds(e)) == m.Keys;
  }

  /** Candidates are the dictionary's pairs, ordered by score descending and then id ascending. */
  lemma CandidatesRanked(input: CouponInput, config: CouponConfig)
    ensures var st := Stages(input, config);
            var m := WeeklyAdSlate.AffinityScores(TopAffinityItems(input, config));
            SortedBy(st.candidates, CandidateKey)
            && multiset(st.candidates) == multiset(st.entries)
            && forall c :: c in st.candidates ==> c.0 in m && c.1 == m[c.0]
  {
    var top := TopAffinityItems(input, config);
    var e := AffinityEntries(top);
    SortBySorted(e, CandidateKey);
    SortByPermutation(e, CandidateKey);
    AffinityEntriesAgree(top);
    forall c | c in SortBy(e, CandidateKey)
      ensures c in e
    {
      assert c in multiset(e);
    }
  }

  /** `eligible_count` never exceeds `candidate_count`, and the gate keeps exactly the ids with a row. */
  lemma EligibleAtMostCandidates(input: CouponInput, config: CouponConfig)
    ensures var st := Stages(input, config);
            |st.eligible| <= |st.candidates|
            && IsSubsequence(CandidatesOf(st.eligible), st.candidates)
            && forall c :: c in st.candidates ==> (c in CandidatesOf(st.eligible) <==> c.0 in input.eligibleMap)
  {
    var st := Stages(input, config);
    EligibilityGate(st.candidates, input.eligibleMap);
    EligibilityGateExact(st.candidates, input.eligibleMap);
  }

  /**
   * `excluded_weekly_ad_count` and `excluded_recent_purchase_count` count the
   * items in the weekly-ad and recent-purchase sets (the two counts merge if
   * the two reason names coincide).
   */
  lemma ExcludedCountsMeaning(input: CouponInput, config: CouponConfig)
    ensures var st := Stages(input, config);
            var w := DRIVER_WEEKLY_AD_OVERLAP_EXCLUSION;
            var p := DRIVER_RECENT_PURCHASE_EXCLUSION;
            Exclusions.Get(st.reasonCounts, w)
              == CountIn(st.items, input.weeklyAdItemGroups) + (if p == w then CountIn(st.items, input.recentPurchaseKeys) else 0)
            && Exclusions.Get(st.reasonCounts, p)
              == CountIn(st.items, input.recentPurchaseKeys) + (if p == w then CountIn(st.items, input.weeklyAdItemGroups) else 0)
  {
    var st := Stages(input, config);
    var checks := CouponChecks(input);
    ReasonCountsMeaning(st.items, checks, DRIVER_WEEKLY_AD_OVERLAP_EXCLUSION);
    ReasonCountsMeaning(st.items, checks, DRIVER_RECENT_PURCHASE_EXCLUSION);
    CouponReasonCounts(st.items, input, DRIVER_WEEKLY_AD_OVERLAP_EXCLUSION);
    CouponReasonCounts(st.items, input, DRIVER_RECENT_PURCHASE_EXCLUSION);
  }

  /** What an activation item built from a gated candidate carries. */
  ghost predicate FromDictionary(x: ActivationItem, m: map<string, real>, eligibleMap: map<string, EligibleInfo>,
                                 shopperId: string, prices: map<(string, string), real>)
  {
    x.itemGroupId in eligibleMap
    && x.itemGroupId in m && x.score == m[x.itemGroupId]
    && x.category.None?
    && BaselinePriceOf(x) == LookupPrice(prices, shopperId, x.itemGroupId)
  }

  lemma ItemsCarryCandidates(eligible: seq<EligibleCandidate>, cands: Entries, m: map<string, real>,
                             eligibleMap: map<string, EligibleInfo>, shopperId: string, prices: map<(string, string), real>)
    requires forall x :: x in eligible ==> x.id != "" && x.id in eligibleMap
    requires IsSubsequence(CandidatesOf(eligible), cands)
    requires forall c :: c in cands ==> c.0 in m && c.1 == m[c.0]
    ensures forall x :: x in ActivationItemsFor(eligible, shopperId, prices) ==> FromDictionary(x, m, eligibleMap, shopperId, prices)
  {
    var items := ActivationItemsFor(eligible, shopperId, prices);
    var cs := CandidatesOf(eligible);
    SubsequenceMembers(cs, cands);
    forall x | x in items
      ensures FromDictionary(x, m, eligibleMap, shopperId, prices)
    {
      var i :| 0 <= i < |items| && items[i] == x;
      assert eligible[i] in eligible;
      var k :| 0 <= k < |cands| && cands[k] == cs[i];
      assert cands[k] in cands;
    }
  }

  /** Every activation item comes from the dictionary, with its score and its eligibility row. */
  lemma ItemsFromDictionary(input: CouponInput, config: CouponConfig)
    ensures var m := WeeklyAdSlate.AffinityScores(TopAffinityItems(input, config));
            forall x :: x in Stages(input, config).items ==>
              FromDictionary(x, m, input.eligibleMap, input.subjectId, input.baselinePrices)
  {
    var top := TopAffinityItems(input, config);
    var m := WeeklyAdSlate.AffinityScores(top);
    var cands := SortBy(AffinityEntries(top), CandidateKey);
    var eligible := EligibleCandidates(cands, input.eligibleMap);
    CandidatesRanked(input, config);
    EligibilityGate(cands, input.eligibleMap);
    EligibleIdsNonEmpty(top, input.eligibleMap);
    ItemsCarryCandidates(eligible, cands, m, input.eligibleMap, input.subjectId, input.baselinePrices);
  }

  /** Items kept by the exclusion pass are in neither the weekly ad nor the recent purchases. */
  lemma KeptNotExcluded(input: CouponInput, items: seq<ActivationItem>)
    ensures forall x :: x in EligibleItems(items, CouponChecks(input)) ==>
              x in items && x.itemGroupId !in input.weeklyAdItemGroups && x.itemGroupId !in input.recentPurchaseKeys
  {
    var checks := CouponChecks(input);
    ExclusionsMembership(items, checks);
    forall x | x in EligibleItems(items, checks)
      ensures x.itemGroupId !in input.weeklyAdItemGroups && x.itemGroupId !in input.recentPurchaseKeys
    {
      TwoChecksReasons(x, input.weeklyAdItemGroups, DRIVER_WEEKLY_AD_OVERLAP_EXCLUSION,
                       input.recentPurchaseKeys, DRIVER_RECENT_PURCHASE_EXCLUSION);
    }
  }

  /** What every item that survives exclusion and the pricing filter satisfies. */
  ghost predicate Qualifies(x: ActivationItem, input: CouponInput, config: CouponConfig)
  {
    var m := WeeklyAdSlate.AffinityScores(TopAffinityItems(input, config));
    FromDictionary(x, m, input.eligibleMap, input.subjectId, input.baselinePrices)
    && x.itemGroupId !in input.weeklyAdItemGroups
    && x.itemGroupId !in input.recentPurchaseKeys
    && (config.pricingFallbackMode == SKIP_MODE ==> BaselinePriceOf(x).Some?)
  }

  lemma PricedQualify(input: CouponInput, config: CouponConfig)
    ensures forall x :: x in Stages(input, config).priced ==> Qualifies(x, input, config)
  {
    var st := Stages(input, config);
    ItemsFromDictionary(input, config);
    KeptNotExcluded(input, st.items);
    PricingKeepsOrder(st.kept, config.pricingFallbackMode);
  }

  /** With every item uncategorised, the category cap keeps everything. */
  lemma {:induction false} CategoryCapKeepsUncategorised(s: seq<ActivationItem>, cap: int)
    requires forall i :: 0 <= i < |s| ==> s[i].category.None?
    ensures Selection.CategoryCap(s, cap) == s
    decreases |s|
  {
    if s != [] {
      CategoryCapKeepsUncategorised(s[..|s| - 1], cap);
      assert Selection.KeptByCap(s, |s| - 1, cap);
      assert s[..|s| - 1] + [s[|s| - 1]] == s;
    }
  }

  /** Ranking only reorders the priced items. */
  lemma RankedQualify(input: CouponInput, config: CouponConfig)
    ensures var st := Stages(input, config);
            SortedBy(st.ranked, RankKey) && forall x :: x in st.ranked ==> Qualifies(x, input, config)
  {
    var st := Stages(input, config);
    PricedQualify(input, config);
    StableRankSpec(st.priced);
    forall x | x in st.ranked
      ensures x in st.priced
    {
      assert x in multiset(st.priced);
    }
  }

  /** The category cap never removes a coupon candidate: the items carry no category. */
  lemma CategoryCapHasNoEffect(input: CouponInput, config: CouponConfig)
    ensures var st := Stages(input, config);
            Capped(st.ranked, config) == st.ranked
  {
    var st := Stages(input, config);
    RankedQualify(input, config);
    if CapEnabled(config) {
      assert forall i :: 0 <= i < |st.ranked| ==> st.ranked[i] in st.ranked;
      CategoryCapKeepsUncategorised(st.ranked, config.categoryCap.value);
    }
  }

  /**
   * The selection is the first `max_offers` of the ranking, in ranking
   * order, and every selected item qualifies.
   */
  lemma SelectionMeaning(input: CouponInput, config: CouponConfig)
    ensures var st := Stages(input, config);
            st.selected == Selection.ApplyMaxItems(st.ranked, config.maxOffers)
            && SortedBy(st.selected, RankKey)
            && (config.maxOffers >= 0 ==> |st.selected| <= config.maxOffers)
            && forall x :: x in st.selected ==> Qualifies(x, input, config)
  {
    var st := Stages(input, config);
    RankedQualify(input, config);
    CategoryCapHasNoEffect(input, config);
    assert st.selected == Selection.ApplyMaxItems(st.ranked, config.maxOffers);
    PrefixSubsequence(st.selected, st.ranked);
    SubsequenceSortedBy(st.selected, st.ranked, RankKey);
    assert forall x :: x in st.selected ==> x in st.ranked;
  }

  /** In "skip" mode every selected item is priced, so the offers follow the selection with ranks 1..n. */
  lemma SkipModeOffersFollowSelection(input: CouponInput, config: CouponConfig)
    requires config.pricingFallbackMode == SKIP_MODE
    ensures var st := Stages(input, config);
            |st.offers| == |st.selected|
            && forall i :: 0 <= i < |st.offers| ==>
                 BaselinePriceOf(st.selected[i]).Some?
                 && st.offers[i] == MakeOffer(i + 1, st.selected[i], BaselinePriceOf(st.selected[i]).value, config.discountPct)
  {
    var st := Stages(input, config);
    SelectionMeaning(input, config);
    assert forall i :: 0 <= i < |st.selected| ==> st.selected[i] in st.selected;
    OffersAllPriced(st.selected, config.discountPct);
  }

  /**
   * The coupon confidence keeps only the outcome's HIGH; every other level,
   * LOW included, becomes MEDIUM.
   */
  lemma ConfidenceOverridesOutcome(selected: seq<ActivationItem>, matchRate: real, threshold: real)
    ensures CouponConfidence(selected, matchRate, threshold)
            == if OutcomeConfidence(selected, matchRate, threshold) == HIGH then HIGH else MEDIUM
    ensures selected != [] && matchRate <= 0.0 && matchRate < threshold ==>
              OutcomeConfidence(selected, matchRate, threshold) == LOW
              && CouponConfidence(selected, matchRate, threshold) == MEDIUM
  {
    OutcomeConfidenceCases(selected, matchRate, threshold);
  }
}
