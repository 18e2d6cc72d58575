// The shopper weekly-ad slate primitive (domain/primitives/shopper_weekly_ad_slate):
// scores the current ad's items by the shopper's affinity, drops recent
// purchases, ranks, caps per category and keeps the top of the list.
module WeeklyAdSlate {
  import opened Wrappers
  import opened Common
  import opened StableSort
  import opened Seqs
  import RowCells

  datatype SlateConfig = SlateConfig(
    primitiveName: string,
    primitiveVersion: string,
    canonicalVersion: string,
    slateSizeK: int,
    affinityTopK: int,
    excludeLookbackDays: int,
    excludeBy: string,
    categoryCap: Option<int>,
    minMatchRateForHighConfidence: real,
    sparseEmission: bool,
    adId: string,
    scopeType: string,
    scopeValue: string,
    hoursWindow: int)

  const DefaultSlateConfig: SlateConfig :=
    SlateConfig("shopper_weekly_ad_slate", "1.0.0", "v1", 20, 50, 14, "item_group_id", None, 0.50, true,
                "", "", "", 36)

  /** One item of the weekly ad. */
  datatype AdCandidate = AdCandidate(
    adId: string,
    adGroupId: string,
    scopeType: string,
    scopeValue: string,
    asOfTs: int,
    gtin: Option<string>,
    linkcode: Option<string>,
    itemGroupId: string,
    title: Option<string>,
    promoText: Option<string>,
    primaryImageUrl: Option<string>,
    promoPrice: Option<real>,
    adPriceRaw: Option<string>,
    adPriceUom: Option<string>,
    adPriceQualifier: Option<string>)

  /** The two fields of a top-affinity entry that the slate reads; the score may be missing, null or a number. */
  datatype AffinityItem = AffinityItem(itemGroupId: Option<string>, affinityScore: RowCells.Cell<real>)

  datatype ShopperAffinityRow = ShopperAffinityRow(shopperId: string, asOfTs: int, topAffinityItems: seq<AffinityItem>)

  datatype SlateInput = SlateInput(
    tenantId: string,
    subjectType: string,
    subjectId: string,
    asOfTs: int,
    configVersion: string,
    canonicalVersion: string,
    candidates: seq<AdCandidate>,
    shopperAffinity: Option<ShopperAffinityRow>,
    recentPurchaseKeys: set<string>)

  /** `ShopperWeeklyAdSlateInput.new`: missing candidates and keys become empty. */
  function NewSlateInput(
    tenantId: string, subjectId: string, asOfTs: int, configVersion: string,
    canonicalVersion: string := "v1", subjectType: string := "shopper",
    candidates: Option<seq<AdCandidate>> := None, shopperAffinity: Option<ShopperAffinityRow> := None,
    recentPurchaseKeys: Option<set<string>> := None): (r: SlateInput)
    ensures r.candidates == candidates.GetOr([]) && r.recentPurchaseKeys == recentPurchaseKeys.GetOr({})
    ensures r.shopperAffinity == shopperAffinity && r.subjectType == subjectType
    ensures r.tenantId == tenantId && r.subjectId == subjectId && r.asOfTs == asOfTs
    ensures r.configVersion == configVersion && r.canonicalVersion == canonicalVersion
  {
    SlateInput(tenantId, subjectType, subjectId, asOfTs, configVersion, canonicalVersion,
               candidates.GetOr([]), shopperAffinity, recentPurchaseKeys.GetOr({}))
  }

  const COMPUTED: string := "COMPUTED"
  const UNKNOWN: string := "UNKNOWN"
  const RULE_COMPUTED_SLATE: string := "shopper_weekly_ad_slate.computed_slate"
  const RULE_UNKNOWN_NO_ITEMS: string := "shopper_weekly_ad_slate.unknown_no_items"
  const DRIVER_IN_CURRENT_AD: string := "IN_CURRENT_AD"
  const DRIVER_AFFINITY_MATCH: string := "AFFINITY_MATCH"
  const DRIVER_RECENT_PURCHASE_EXCLUSIONS: string := "RECENT_PURCHASE_EXCLUSIONS"
  const DRIVER_NO_ELIGIBLE_AD_ITEMS: string := "NO_ELIGIBLE_AD_ITEMS"
  const UNKNOWN_CATEGORY: string := "unknown"

  // ---- Affinity score map ------------------------------------------------

  /** `item.get("affinity_score", 0.0)`: a missing score reads as 0; a null one is stored as None. */
  function StoredScore(c: RowCells.Cell<real>): Option<real>
  {
    match c
    case Absent => Some(0.0)
    case Null => None
    case Present(v) => Some(v)
  }

  /**
   * The score dictionary as the loop builds it from the entries in order: a
   * later entry for an id overwrites an earlier one; None is a stored null.
   */
  function StoredScores(items: seq<AffinityItem>): map<string, Option<real>>
  {
    if items == [] then map[]
    else
      var m := StoredScores(items[..|items| - 1]);
      var last := items[|items| - 1];
      if Truthy(last.itemGroupId) then m[last.itemGroupId.value := StoredScore(last.affinityScore)] else m
  }

  /**
   * The scores the ranking reads. A stored None is never read as a number:
   * the evaluators raise `NoneScoreTypeError` before they rank anything that
   * would meet it, so its placeholder 0 here is never observed.
   */
  function NumericScores(m: map<string, Option<real>>): map<string, real>
  {
    map k | k in m :: m[k].GetOr(0.0)
  }

  function AffinityScores(items: seq<AffinityItem>): map<string, real>
  {
    NumericScores(StoredScores(items))
  }

  function AffinityItemsOf(affinity: Option<ShopperAffinityRow>): seq<AffinityItem>
  {
    if affinity.Some? then affinity.value.topAffinityItems else []
  }

  method BuildAffinityScoreMap(affinity: Option<ShopperAffinityRow>) returns (scores: map<string, Option<real>>)
    ensures scores == StoredScores(AffinityItemsOf(affinity))
  {
    scores := map[];
    var items := AffinityItemsOf(affinity);
    var i := 0;
    while i < |items|
      invariant 0 <= i <= |items|
      invariant scores == StoredScores(items[..i])
    {
      assert items[..i + 1][..i] == items[..i];
      var item := items[i];
      if Truthy(item.itemGroupId) {
        scores := scores[item.itemGroupId.value := StoredScore(item.affinityScore)];
      }
      i := i + 1;
    }
    assert items[..|items|] == items;
  }

  /** An id named by an entry is in the dictionary with the stored score of its last entry. */
  lemma {:induction false} AffinityScoresLastWins(items: seq<AffinityItem>, id: string, j: int)
    requires 0 <= j < |items| && items[j].itemGroupId == Some(id) && id != ""
    requires forall k :: j < k < |items| ==> items[k].itemGroupId != Some(id)
    ensures id in StoredScores(items) && StoredScores(items)[id] == StoredScore(items[j].affinityScore)
    ensures id in AffinityScores(items) && AffinityScores(items)[id] == StoredScore(items[j].affinityScore).GetOr(0.0)
    decreases |items|
  {
    if j < |items| - 1 {
      AffinityScoresLastWins(items[..|items| - 1], id, j);
    }
  }

  /** The dictionary's ids are exactly the non-empty ids some entry names. */
  lemma {:induction false} AffinityScoresDomain(items: seq<AffinityItem>, id: string)
    ensures id in StoredScores(items) <==> id != "" && exists j :: 0 <= j < |items| && items[j].itemGroupId == Some(id)
    ensures id in AffinityScores(items) <==> id in StoredScores(items)
    decreases |items|
  {
    if items != [] {
      var p := items[..|items| - 1];
      AffinityScoresDomain(p, id);
      if id in StoredScores(p) {
        var j :| 0 <= j < |p| && p[j].itemGroupId == Some(id);
        assert items[j] == p[j];
      }
      if exists j :: 0 <= j < |items| && items[j].itemGroupId == Some(id) {
        var j :| 0 <= j < |items| && items[j].itemGroupId == Some(id);
        if j < |p| {
          assert p[j] == items[j];
        }
      }
    }
  }

  /** Some entry names `id`, so a last one does. */
  lemma {:induction false} LastEntryExists(items: seq<AffinityItem>, id: string, j: int)
    requires 0 <= j < |items| && items[j].itemGroupId == Some(id)
    ensures exists k :: j <= k < |items| && items[k].itemGroupId == Some(id)
                        && forall l :: k < l < |items| ==> items[l].itemGroupId != Some(id)
    decreases |items| - j
  {
    if exists l :: j < l < |items| && items[l].itemGroupId == Some(id) {
      var l :| j < l < |items| && items[l].itemGroupId == Some(id);
      LastEntryExists(items, id, l);
    }
  }

  /** The dictionary holds None for `id` exactly when the last entry naming it has a null score. */
  lemma NoneStoredMeaning(items: seq<AffinityItem>, id: string)
    ensures (id in StoredScores(items) && StoredScores(items)[id].None?)
            <==> id != "" && exists k :: 0 <= k < |items| && items[k].itemGroupId == Some(id)
                                        && items[k].affinityScore.Null?
                                        && forall l :: k < l < |items| ==> items[l].itemGroupId != Some(id)
  {
    AffinityScoresDomain(items, id);
    if id in StoredScores(items) {
      var j :| 0 <= j < |items| && items[j].itemGroupId == Some(id);
      LastEntryExists(items, id, j);
      var k :| j <= k < |items| && items[k].itemGroupId == Some(id)
               && forall l :: k < l < |items| ==> items[l].itemGroupId != Some(id);
      AffinityScoresLastWins(items, id, k);
      forall k' | 0 <= k' < |items| && items[k'].itemGroupId == Some(id)
                  && forall l :: k' < l < |items| ==> items[l].itemGroupId != Some(id)
        ensures k' == k
      {
      }
    }
  }

  // ---- Scoring and recent-purchase exclusion -----------------------------

  /** A candidate with its score, reasons and (always unset) category. */
  datatype ScoredCandidate = ScoredCandidate(candidate: AdCandidate, score: real, reasons: seq<string>, category: Option<string>)

  /** The affinity score for a match key, 0 when the key is empty or unknown. */
  function CandidateScore(scores: map<string, real>, key: string): real
  {
    if key != "" && key in scores then scores[key] else 0.0
  }

  function CandidateReasons(score: real): (reasons: seq<string>)
    ensures |reasons| >= 1 && reasons[0] == DRIVER_IN_CURRENT_AD
    ensures DRIVER_AFFINITY_MATCH in reasons <==> score > 0.0
  {
    [DRIVER_IN_CURRENT_AD] + (if score > 0.0 then [DRIVER_AFFINITY_MATCH] else [])
  }

  function ScoreCandidate(c: AdCandidate, scores: map<string, real>): ScoredCandidate
  {
    var score := CandidateScore(scores, c.itemGroupId);
    ScoredCandidate(c, score, CandidateReasons(score), None)
  }

  /** The candidates not recently purchased, scored, in input order. */
  function KeptCandidates(cands: seq<AdCandidate>, scores: map<string, real>, recent: set<string>): seq<ScoredCandidate>
  {
    if cands == [] then []
    else
      var p := KeptCandidates(cands[..|cands| - 1], scores, recent);
      var c := cands[|cands| - 1];
      if c.itemGroupId in recent then p else p + [ScoreCandidate(c, scores)]
  }

  /** How many candidates were dropped as recent purchases. */
  function ExcludedCount(cands: seq<AdCandidate>, recent: set<string>): nat
  {
    if cands == [] then 0
    else ExcludedCount(cands[..|cands| - 1], recent) + (if cands[|cands| - 1].itemGroupId in recent then 1 else 0)
  }

  /**
   * The value `affinity_score_map.get(match_key, {}).get("score", 0.0)` reads
   * for a match key (0 for an empty key); None is a stored null.
   */
  function StoredFor(stored: map<string, Option<real>>, key: string): Option<real>
  {
    if key != "" && key in stored then stored[key] else Some(0.0)
  }

  /** Some id's stored score is None. */
  predicate HasNoneScore(m: map<string, Option<real>>)
  {
    exists id :: id in m && m[id].None?
  }

  /** Some candidate reads a None score, so `score > 0` raises `TypeError` for it. */
  predicate NoneScoreHit(cands: seq<AdCandidate>, stored: map<string, Option<real>>)
  {
    exists j :: 0 <= j < |cands| && StoredFor(stored, cands[j].itemGroupId).None?
  }

  /**
   * The scoring loop. Each candidate's score is read and tested before the
   * recent-purchase check, so a None score fails the whole evaluation even
   * for a candidate that would have been dropped.
   */
  method ScoreAndFilter(cands: seq<AdCandidate>, stored: map<string, Option<real>>, recent: set<string>)
    returns (scored: seq<ScoredCandidate>, excluded: nat, failed: bool)
    ensures failed <==> NoneScoreHit(cands, stored)
    ensures !failed ==> scored == KeptCandidates(cands, NumericScores(stored), recent)
    ensures !failed ==> excluded == ExcludedCount(cands, recent)
  {
    scored, excluded, failed := [], 0, false;
    var i := 0;
    while i < |cands|
      invariant 0 <= i <= |cands|
      invariant !NoneScoreHit(cands[..i], stored)
      invariant scored == KeptCandidates(cands[..i], NumericScores(stored), recent)
      invariant excluded == ExcludedCount(cands[..i], recent)
    {
      assert cands[..i + 1][..i] == cands[..i];
      var c := cands[i];
      var score := StoredFor(stored, c.itemGroupId);
      if score.None? {
        return scored, excluded, true;
      }
      assert CandidateScore(NumericScores(stored), c.itemGroupId) == score.value;
      if c.itemGroupId in recent {
        excluded := excluded + 1;
      } else {
        scored := scored + [ScoredCandidate(c, score.value, CandidateReasons(score.value), None)];
      }
      ghost var seen := cands[..i + 1];
      assert !NoneScoreHit(seen, stored) by {
        forall j | 0 <= j < |seen|
          ensures StoredFor(stored, seen[j].itemGroupId).Some?
        {
          if j < i {
            assert seen[j] == cands[..i][j];
          }
        }
      }
      i := i + 1;
    }
    assert cands[..|cands|] == cands;
  }

  /** Every candidate is either kept or counted as excluded, and no kept one was recently purchased. */
  lemma {:induction false} KeptAndExcludedPartition(cands: seq<AdCandidate>, scores: map<string, real>, recent: set<string>)
    ensures |KeptCandidates(cands, scores, recent)| + ExcludedCount(cands, recent) == |cands|
    ensures forall x :: x in KeptCandidates(cands, scores, recent) ==> x.candidate.itemGroupId !in recent
    ensures forall x :: x in KeptCandidates(cands, scores, recent) ==> x.candidate in cands && x.category.None?
    decreases |cands|
  {
    if cands != [] {
      var p := cands[..|cands| - 1];
      KeptAndExcludedPartition(p, scores, recent);
      forall x | x in KeptCandidates(p, scores, recent)
        ensures x.candidate in cands
      {
        assert x.candidate in p;
      }
    }
  }

  // ---- Ranking and category cap ------------------------------------------

  /** score DESC, promo_price ASC with missing prices last, then gtin ASC with missing as "". */
  function SlateKey(x: ScoredCandidate): SortKey
  {
    SortKey(x.score, x.candidate.promoPrice, x.candidate.gtin.GetOr(""))
  }

  /** `cws.category or "unknown"`. */
  function Bucket(x: ScoredCandidate): string
  {
    if Truthy(x.category) then x.category.value else UNKNOWN_CATEGORY
  }

  function CountBucket(s: seq<ScoredCandidate>, b: string): nat
  {
    if s == [] then 0 else CountBucket(s[..|s| - 1], b) + (if Bucket(s[|s| - 1]) == b then 1 else 0)
  }

  /** Each item is kept while fewer than `cap` items of its bucket have been kept. */
  function CapByBucket(s: seq<ScoredCandidate>, cap: int): seq<ScoredCandidate>
  {
    if s == [] then []
    else
      var p := CapByBucket(s[..|s| - 1], cap);
      if CountBucket(p, Bucket(s[|s| - 1])) < cap then p + [s[|s| - 1]] else p
  }

  function GetCount(counts: map<string, int>, b: string): int
  {
    if b in counts then counts[b] else 0
  }

  method ApplyBucketCap(s: seq<ScoredCandidate>, cap: int) returns (result: seq<ScoredCandidate>)
    ensures result == CapByBucket(s, cap)
  {
    var counts: map<string, int> := map[];
    result := [];
    var i := 0;
    while i < |s|
      invariant 0 <= i <= |s|
      invariant result == CapByBucket(s[..i], cap)
      invariant forall b :: GetCount(counts, b) == CountBucket(result, b)
    {
      assert s[..i + 1][..i] == s[..i];
      var cat := Bucket(s[i]);
      var count := GetCount(counts, cat);
      if count < cap {
        result := result + [s[i]];
        counts := counts[cat := count + 1];
      }
      i := i + 1;
    }
    assert s[..|s|] == s;
  }

  /** The capped list keeps its items' order and takes them from the input. */
  lemma {:induction false} CapByBucketSubsequence(s: seq<ScoredCandidate>, cap: int)
    ensures IsSubsequence(CapByBucket(s, cap), s)
    decreases |s|
  {
    if s != [] {
      var p := s[..|s| - 1];
      var q := CapByBucket(p, cap);
      CapByBucketSubsequence(p, cap);
      SubsequenceExtend(q, p, s[|s| - 1]);
      assert p + [s[|s| - 1]] == s;
      assert CapByBucket(s, cap) == q || CapByBucket(s, cap) == q + [s[|s| - 1]];
    }
  }

  /**
   * When every candidate shares one bucket (the model's candidates carry no
   * category, so all fall in "unknown"), capping keeps exactly the first
   * `cap` of them.
   */
  lemma {:induction false} SingleBucketCapIsPrefix(s: seq<ScoredCandidate>, cap: int, b: string)
    requires cap > 0
    requires forall x :: x in s ==> Bucket(x) == b
    ensures var r := CapByBucket(s, cap);
            |r| == (if |s| <= cap then |s| else cap) && r == s[..|r|]
    decreases |s|
  {
    if s != [] {
      var p := s[..|s| - 1];
      var last := s[|s| - 1];
      assert forall x :: x in p ==> x in s;
      SingleBucketCapIsPrefix(p, cap, b);
      var q := CapByBucket(p, cap);
      assert forall x :: x in q ==> x in p;
      SingleBucketCount(q, b);
      assert last in s;
      assert CountBucket(q, Bucket(last)) == |q|;
      PrefixCapStep(s, q, CapByBucket(s, cap), cap);
    }
  }

  /** One step of keeping the first `cap` items: the shape shared by every single-bucket cap. */
  lemma PrefixCapStep<T>(s: seq<T>, q: seq<T>, r: seq<T>, cap: int)
    requires s != [] && cap > 0
    requires |q| == (if |s| - 1 <= cap then |s| - 1 else cap) && q == s[..|s| - 1][..|q|]
    requires |q| < cap ==> r == q + [s[|s| - 1]]
    requires |q| >= cap ==> r == q
    ensures |r| == (if |s| <= cap then |s| else cap) && r == s[..|r|]
  {
    if |q| < cap {
      assert q == s[..|s| - 1];
      assert s[..|s| - 1] + [s[|s| - 1]] == s;
    }
  }

  lemma {:induction false} SingleBucketCount(s: seq<ScoredCandidate>, b: string)
    requires forall x :: x in s ==> Bucket(x) == b
    ensures CountBucket(s, b) == |s|
    decreases |s|
  {
    if s != [] {
      var p := s[..|s| - 1];
      assert forall x :: x in p ==> x in s;
      SingleBucketCount(p, b);
      assert s[|s| - 1] in s;
    }
  }

  // ---- The cap its unit tests expect ---------------------------------------

  /** How many of `s` carry the category `c`; uncategorised items count nowhere. */
  function CountCategory(s: seq<ScoredCandidate>, c: string): nat
  {
    if s == [] then 0
    else CountCategory(s[..|s| - 1], c) + (if Truthy(s[|s| - 1].category) && s[|s| - 1].category.value == c then 1 else 0)
  }

  /**
   * The per-category cap with uncategorised items passing uncapped, as the
   * coupon primitive's cap does and as `test_category_cap` expects here.
   */
  function CapByCategory(s: seq<ScoredCandidate>, cap: int): seq<ScoredCandidate>
  {
    if s == [] then []
    else
      var p := CapByCategory(s[..|s| - 1], cap);
      var x := s[|s| - 1];
      if !Truthy(x.category) || CountCategory(p, x.category.value) < cap then p + [x] else p
  }

  /** Under the intended cap, a list without categories comes back whole. */
  lemma {:induction false} CapByCategoryKeepsUncategorised(s: seq<ScoredCandidate>, cap: int)
    requires forall i :: 0 <= i < |s| ==> !Truthy(s[i].category)
    ensures CapByCategory(s, cap) == s
    decreases |s|
  {
    if s != [] {
      var p := s[..|s| - 1];
      CapByCategoryKeepsUncategorised(p, cap);
      assert p + [s[|s| - 1]] == s;
    }
  }

  lemma {:induction false} CapByCategoryMembers(s: seq<ScoredCandidate>, cap: int)
    ensures forall x :: x in CapByCategory(s, cap) ==> x in s
    decreases |s|
  {
    if s != [] {
      var p := s[..|s| - 1];
      CapByCategoryMembers(p, cap);
      assert forall x :: x in p ==> x in s;
    }
  }

  lemma {:induction false} CountsAgreeWhenCategorised(q: seq<ScoredCandidate>, c: string)
    requires forall i :: 0 <= i < |q| ==> Truthy(q[i].category)
    ensures CountBucket(q, c) == CountCategory(q, c)
    decreases |q|
  {
    if q != [] {
      CountsAgreeWhenCategorised(q[..|q| - 1], c);
    }
  }

  /** When every candidate has a category, the code's cap and the intended one coincide. */
  lemma {:induction false} CapsAgreeWhenCategorised(s: seq<ScoredCandidate>, cap: int)
    requires forall i :: 0 <= i < |s| ==> Truthy(s[i].category)
    ensures CapByBucket(s, cap) == CapByCategory(s, cap)
    decreases |s|
  {
    if s != [] {
      var p := s[..|s| - 1];
      var x := s[|s| - 1];
      CapsAgreeWhenCategorised(p, cap);
      var q := CapByCategory(p, cap);
      CapByCategoryMembers(p, cap);
      forall i | 0 <= i < |q| ensures Truthy(q[i].category) {
        assert q[i] in p;
      }
      CountsAgreeWhenCategorised(q, x.category.value);
    }
  }

  /**
   * The code's "unknown" bucket caps uncategorised candidates: with more of
   * them than the cap, it keeps `cap` where the intended cap keeps all.
   */
  lemma UnknownBucketCapsUncategorised(s: seq<ScoredCandidate>, cap: int)
    requires 0 < cap < |s|
    requires forall i :: 0 <= i < |s| ==> s[i].category.None?
    ensures |CapByBucket(s, cap)| == cap < |s| == |CapByCategory(s, cap)|
  {
    forall x | x in s ensures Bucket(x) == UNKNOWN_CATEGORY {
      var i :| 0 <= i < |s| && s[i] == x;
    }
    SingleBucketCapIsPrefix(s, cap, UNKNOWN_CATEGORY);
    CapByCategoryKeepsUncategorised(s, cap);
  }

  // ---- The slate ---------------------------------------------------------

  function RankedCandidates(input: SlateInput): seq<ScoredCandidate>
  {
    SortBy(KeptCandidates(input.candidates, AffinityScores(AffinityItemsOf(input.shopperAffinity)),
                          input.recentPurchaseKeys), SlateKey)
  }

  predicate CapEnabled(config: SlateConfig)
  {
    config.categoryCap.Some? && config.categoryCap.value > 0
  }

  function CappedCandidates(input: SlateInput, config: SlateConfig): seq<ScoredCandidate>
  {
    if CapEnabled(config) then CapByBucket(RankedCandidates(input), config.categoryCap.value)
    else RankedCandidates(input)
  }

  /** The slate: the first `slate_size_k` ranked and capped candidates. */
  function SlateOf(input: SlateInput, config: SlateConfig): seq<ScoredCandidate>
  {
    SlicePrefix(CappedCandidates(input, config), config.slateSizeK)
  }

  function SlateItemMetric(rank: int, x: ScoredCandidate): Value
  {
    var c := x.candidate;
    Obj(map["rank" := Int(rank),
            "item_group_id" := Str(c.itemGroupId),
            "gtin" := if c.gtin.Some? then Str(c.gtin.value) else Null,
            "linkcode" := if c.linkcode.Some? then Str(c.linkcode.value) else Null,
            "score" := Num(x.score),
            "title" := if c.title.Some? then Str(c.title.value) else Null,
            "promo_price" := if c.promoPrice.Some? then Num(c.promoPrice.value) else Null,
            "ad_group_id" := Str(c.adGroupId),
            "reasons" := Strs(x.reasons)])
  }

  /** The slate's `items` metric: ranks 1..n in slate order. */
  function SlateItems(slate: seq<ScoredCandidate>): (items: seq<Value>)
    ensures |items| == |slate|
    ensures forall i :: 0 <= i < |slate| ==> items[i] == SlateItemMetric(i + 1, slate[i])
  {
    seq(|slate|, i requires 0 <= i < |slate| => SlateItemMetric(i + 1, slate[i]))
  }

  function CountWithAffinity(s: seq<ScoredCandidate>): (n: nat)
    ensures n <= |s|
  {
    if s == [] then 0 else CountWithAffinity(s[..|s| - 1]) + (if s[|s| - 1].score > 0.0 then 1 else 0)
  }

  lemma {:induction false} CountWithAffinityPositive(s: seq<ScoredCandidate>)
    ensures CountWithAffinity(s) > 0 <==> exists i :: 0 <= i < |s| && s[i].score > 0.0
    decreases |s|
  {
    if s != [] {
      var p := s[..|s| - 1];
      CountWithAffinityPositive(p);
      if exists i :: 0 <= i < |p| && p[i].score > 0.0 {
        var i :| 0 <= i < |p| && p[i].score > 0.0;
        assert s[i] == p[i];
      }
      if exists i :: 0 <= i < |s| && s[i].score > 0.0 {
        var i :| 0 <= i < |s| && s[i].score > 0.0;
        if i < |p| {
          assert p[i] == s[i];
        }
      }
    }
  }

  method BuildSlateItems(slate: seq<ScoredCandidate>) returns (items: seq<Value>, withAffinity: nat)
    ensures items == SlateItems(slate)
    ensures withAffinity == CountWithAffinity(slate)
  {
    items, withAffinity := [], 0;
    var i := 0;
    while i < |slate|
      invariant 0 <= i <= |slate|
      invariant |items| == i && forall k :: 0 <= k < i ==> items[k] == SlateItemMetric(k + 1, slate[k])
      invariant withAffinity == CountWithAffinity(slate[..i])
    {
      assert slate[..i + 1][..i] == slate[..i];
      items := items + [SlateItemMetric(i + 1, slate[i])];
      if slate[i].score > 0.0 {
        withAffinity := withAffinity + 1;
      }
      i := i + 1;
    }
    assert slate[..|slate|] == slate;
    assert items == SlateItems(slate);
  }

  /** Share of slate items with a positive affinity score; 0 for an empty slate. */
  function MatchRate(withAffinity: nat, size: nat): (rate: real)
    requires withAffinity <= size
    ensures 0.0 <= rate <= 1.0
    ensures size == 0 ==> rate == 0.0
    ensures size > 0 ==> rate * size as real == withAffinity as real
  {
    if size == 0 then 0.0 else withAffinity as real / size as real
  }

  function SlateConfidence(rate: real, size: nat, config: SlateConfig): Confidence
  {
    if size > 0 && rate >= config.minMatchRateForHighConfidence then HIGH else MEDIUM
  }

  function SlateDrivers(size: nat, withAffinity: nat, excluded: nat): (drivers: seq<string>)
    ensures size == 0 ==> drivers == [DRIVER_NO_ELIGIBLE_AD_ITEMS]
    ensures size > 0 ==> |drivers| >= 1 && drivers[0] == DRIVER_IN_CURRENT_AD
                         && (DRIVER_AFFINITY_MATCH in drivers <==> withAffinity > 0)
                         && (DRIVER_RECENT_PURCHASE_EXCLUSIONS in drivers <==> excluded > 0)
                         && NoDuplicates(drivers)
  {
    if size == 0 then [DRIVER_NO_ELIGIBLE_AD_ITEMS]
    else
      [DRIVER_IN_CURRENT_AD]
      + (if withAffinity > 0 then [DRIVER_AFFINITY_MATCH] else [])
      + (if excluded > 0 then [DRIVER_RECENT_PURCHASE_EXCLUSIONS] else [])
  }

  /** The latest candidate as-of time, or the input's own when there are no candidates. */
  function CandidatesAsOf(cands: seq<AdCandidate>, fallback: int): (t: int)
    ensures cands == [] ==> t == fallback
    ensures cands != [] ==> (exists i :: 0 <= i < |cands| && t == cands[i].asOfTs)
                            && forall i :: 0 <= i < |cands| ==> cands[i].asOfTs <= t
  {
    if cands == [] then fallback
    else if |cands| == 1 then cands[0].asOfTs
    else
      var rest := CandidatesAsOf(cands[1..], fallback);
      assert forall i :: 1 <= i < |cands| ==> cands[i] == cands[1..][i - 1];
      if cands[0].asOfTs >= rest then cands[0].asOfTs else rest
  }

  function SlateMetrics(config: SlateConfig, excluded: nat, candidatesCount: nat, rate: real, items: seq<Value>): Fields
  {
    map["ad_id" := Str(config.adId),
        "scope_type" := Str(config.scopeType),
        "scope_value" := Str(config.scopeValue),
        "slate_size_k" := Int(config.slateSizeK),
        "exclude_lookback_days" := Int(config.excludeLookbackDays),
        "excluded_count" := Int(excluded),
        "candidates_count" := Int(candidatesCount),
        "match_rate" := Num(rate),
        "items" := List(items)]
  }

  function SlateReferences(input: SlateInput): Fields
  {
    map["sources" := Obj(map["ad_candidates_table" := Str("opsiq_dev.gold.gold_canonical_weekly_ad_item_v1"),
                             "affinity_table" := Str("opsiq_dev.gold.gold_feature_shopper_top_affinity_v1"),
                             "purchases_table" := Str("opsiq_dev.gold.gold_canonical_trip_item_enriched_v1")]),
        "as_of" := Obj(map["ad_candidates_as_of_ts" := Time(CandidatesAsOf(input.candidates, input.asOfTs)),
                           "affinity_as_of_ts" := Time(if input.shopperAffinity.Some?
                                                       then input.shopperAffinity.value.asOfTs
                                                       else input.asOfTs)])]
  }

  /**
   * `evaluate_shopper_weekly_ad_slate`; `now` stands for the evaluation
   * wall-clock time. None is the sparse-emission "no result"; an error is the
   * `TypeError` a None affinity score raises.
   */
  method EvaluateWeeklyAdSlate(input: SlateInput, config: SlateConfig, now: int)
    returns (res: Result<Option<PrimitiveResult>, EvaluationError>)
    ensures res.Err? <==> NoneScoreHit(input.candidates, StoredScores(AffinityItemsOf(input.shopperAffinity)))
    ensures res.Ok? ==> (res.value.None? <==> SlateOf(input, config) == [] && config.sparseEmission)
    ensures res.Ok? && res.value.Some? ==>
              var slate := SlateOf(input, config);
              var excluded := ExcludedCount(input.candidates, input.recentPurchaseKeys);
              var withAffinity := CountWithAffinity(slate);
              var rate := MatchRate(withAffinity, |slate|);
              var d := res.value.value.decision;
              d.state == (if slate == [] then UNKNOWN else COMPUTED)
              && d.confidence == SlateConfidence(rate, |slate|, config)
              && d.drivers == SlateDrivers(|slate|, withAffinity, excluded)
              && d.metrics == SlateMetrics(config, excluded, |input.candidates|, rate, SlateItems(slate))
              && res.value.value.evidenceSet.evidence
                 == [Evidence("evidence-" + input.subjectId + "-weekly-ad-slate-v1",
                              [if slate == [] then RULE_UNKNOWN_NO_ITEMS else RULE_COMPUTED_SLATE],
                              map[], SlateReferences(input), now)]
              && d.evidenceRefs == ["evidence-" + input.subjectId + "-weekly-ad-slate-v1"]
              && d.versions == VersionInfo(config.primitiveVersion, config.canonicalVersion, input.configVersion)
  {
    var scores := BuildAffinityScoreMap(input.shopperAffinity);
    var scored, excluded, failed := ScoreAndFilter(input.candidates, scores, input.recentPurchaseKeys);
    if failed {
      return Err(NoneScoreTypeError);
    }
    scored := SortBy(scored, SlateKey);
    if CapEnabled(config) {
      scored := ApplyBucketCap(scored, config.categoryCap.value);
    }
    var slate := SlicePrefix(scored, config.slateSizeK);
    if slate == [] && config.sparseEmission {
      return Ok(None);
    }
    var items, withAffinity := BuildSlateItems(slate);
    var rate := MatchRate(withAffinity, |slate|);
    var confidence := SlateConfidence(rate, |slate|, config);
    var drivers := SlateDrivers(|slate|, withAffinity, excluded);
    var ruleId := if slate == [] then RULE_UNKNOWN_NO_ITEMS else RULE_COMPUTED_SLATE;
    var evidenceId := "evidence-" + input.subjectId + "-weekly-ad-slate-v1";
    var evidence := Evidence(evidenceId, [ruleId], map[], SlateReferences(input), now);
    var decision := DecisionResult(
      if slate == [] then UNKNOWN else COMPUTED, confidence, drivers,
      SlateMetrics(config, excluded, |input.candidates|, rate, items), [evidenceId],
      VersionInfo(config.primitiveVersion, config.canonicalVersion, input.configVersion), now, None);
    res := Ok(Some(PrimitiveResult(decision, EvidenceSet([evidence]))));
  }

  // ---- Properties of the slate -------------------------------------------

  /**
   * The slate is in ranking order, no larger than `slate_size_k`, holds no
   * recently purchased item, and is a subsequence of the ranked candidates.
   */
  lemma SlateIsRankedSelection(input: SlateInput, config: SlateConfig)
    ensures var slate := SlateOf(input, config);
            SortedBy(slate, SlateKey)
            && IsSubsequence(slate, RankedCandidates(input))
            && (config.slateSizeK >= 0 ==> |slate| <= config.slateSizeK)
            && forall x :: x in slate ==> x.candidate.itemGroupId !in input.recentPurchaseKeys
  {
    var scores := AffinityScores(AffinityItemsOf(input.shopperAffinity));
    var kept := KeptCandidates(input.candidates, scores, input.recentPurchaseKeys);
    var ranked := RankedCandidates(input);
    var capped := CappedCandidates(input, config);
    var slate := SlateOf(input, config);
    SortBySorted(kept, SlateKey);
    SortByPermutation(kept, SlateKey);
    KeptAndExcludedPartition(input.candidates, scores, input.recentPurchaseKeys);
    if CapEnabled(config) {
      CapByBucketSubsequence(ranked, config.categoryCap.value);
    } else {
      SubsequenceRefl(ranked);
    }
    PrefixSubsequence(slate, capped);
    SubsequenceTransitive(slate, capped, ranked);
    SubsequenceSortedBy(slate, ranked, SlateKey);
    SubsequenceMembers(slate, ranked);
    forall x | x in slate
      ensures x.candidate.itemGroupId !in input.recentPurchaseKeys
    {
      var i :| 0 <= i < |slate| && slate[i] == x;
      var k :| 0 <= k < |ranked| && ranked[k] == slate[i];
      assert ranked[k] in multiset(kept);
    }
  }

  /** With the cap enabled, the model's uncategorised candidates form one bucket: the slate is a prefix of the ranking. */
  lemma CappedSlateIsRankedPrefix(input: SlateInput, config: SlateConfig)
    requires CapEnabled(config)
    ensures var ranked := RankedCandidates(input);
            var cap := config.categoryCap.value;
            var capped := CappedCandidates(input, config);
            |capped| == (if |ranked| <= cap then |ranked| else cap) && capped == ranked[..|capped|]
  {
    var scores := AffinityScores(AffinityItemsOf(input.shopperAffinity));
    var kept := KeptCandidates(input.candidates, scores, input.recentPurchaseKeys);
    var ranked := RankedCandidates(input);
    KeptAndExcludedPartition(input.candidates, scores, input.recentPurchaseKeys);
    SortByPermutation(kept, SlateKey);
    forall x | x in ranked
      ensures Bucket(x) == UNKNOWN_CATEGORY
    {
      assert x in multiset(kept);
    }
    SingleBucketCapIsPrefix(ranked, config.categoryCap.value, UNKNOWN_CATEGORY);
  }
}
