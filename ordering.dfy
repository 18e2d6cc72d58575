// Deterministic ranking and match rate (domain/activation_policy/ordering.py).
module Ordering {
  import opened Wrappers
  import opened Common
  import opened ActivationModels
  import opened StableSort

  const AD_POSITION_KEY: string := "ad_position"

  /**
   * The ad-position part of the key: a missing or null `ad_position` sorts
   * last (the `float("inf")` sentinel); a number is itself, and a boolean
   * compares as the number 1 or 0, as Python's `True` and `False` do.
   */
  function AdPosition(item: ActivationItem): Option<real>
  {
    if AD_POSITION_KEY in item.metadata then
      match item.metadata[AD_POSITION_KEY]
      case Int(i) => Some(i as real)
      case Num(x) => Some(x)
      case Bool(b) => Some(if b then 1.0 else 0.0)
      case _ => None
    else None
  }

  /** `gtin or item_group_id or ""`. */
  function TieBreaker(item: ActivationItem): string
  {
    if Truthy(item.gtin) then item.gtin.value else item.itemGroupId
  }

  /** The ranking key: score descending, ad position ascending, tie-breaker ascending. */
  function RankKey(item: ActivationItem): SortKey
  {
    SortKey(item.score, AdPosition(item), TieBreaker(item))
  }

  /** `sorted(items, key=sort_key)`. */
  function StableRank(items: seq<ActivationItem>): (r: seq<ActivationItem>)
    ensures |r| == |items|
  {
    SortBy(items, RankKey)
  }

  /**
   * The ranking is a permutation of its input, ordered by the key, and keeps
   * items with identical keys in input order; it is the only such sequence.
   */
  lemma StableRankSpec(items: seq<ActivationItem>)
    ensures multiset(StableRank(items)) == multiset(items)
    ensures SortedBy(StableRank(items), RankKey)
    ensures forall k :: KeyFilter(StableRank(items), RankKey, k) == KeyFilter(items, RankKey, k)
  {
    SortByPermutation(items, RankKey);
    SortBySorted(items, RankKey);
    forall k ensures KeyFilter(StableRank(items), RankKey, k) == KeyFilter(items, RankKey, k) {
      SortByStable(items, RankKey, k);
    }
  }

  /** Any key-ordered list that keeps equal-key items in input order is the ranking. */
  lemma StableRankUnique(items: seq<ActivationItem>, r: seq<ActivationItem>)
    requires SortedBy(r, RankKey)
    requires forall k :: KeyFilter(r, RankKey, k) == KeyFilter(items, RankKey, k)
    ensures r == StableRank(items)
  {
    SortByCharacterized(items, r, RankKey);
  }

  /**
   * What the order means field by field: scores never increase; among equal
   * scores, items with an ad position come first and ascending; remaining
   * ties ascend by gtin (or item group id).
   */
  lemma StableRankOrder(items: seq<ActivationItem>, i: int, j: int)
    requires 0 <= i < j < |items|
    ensures var r := StableRank(items);
      r[i].score >= r[j].score
      && (r[i].score == r[j].score && AdPosition(r[i]).None? ==> AdPosition(r[j]).None?)
      && (r[i].score == r[j].score && AdPosition(r[i]).Some? && AdPosition(r[j]).Some?
          ==> AdPosition(r[i]).value <= AdPosition(r[j]).value)
      && (r[i].score == r[j].score && AdPosition(r[i]) == AdPosition(r[j])
          ==> !StrLt(TieBreaker(r[j]), TieBreaker(r[i])))
  {
    SortBySorted(items, RankKey);
    var r := StableRank(items);
    assert KeyLe(RankKey(r[i]), RankKey(r[j]));
  }

  /** Re-ranking a ranked list is a no-op. */
  lemma StableRankIdempotent(items: seq<ActivationItem>)
    ensures StableRank(StableRank(items)) == StableRank(items)
  {
    SortByIdempotent(items, RankKey);
  }

  /** Number of items with a strictly positive score. */
  function CountMatched(items: seq<ActivationItem>): (c: nat)
    ensures c <= |items|
  {
    if items == [] then 0
    else (if items[0].score > 0.0 then 1 else 0) + CountMatched(items[1..])
  }

  /** No item is counted exactly when no score is positive; all are when every score is. */
  lemma {:induction false} CountMatchedMeaning(items: seq<ActivationItem>)
    ensures CountMatched(items) == 0 <==> forall x :: x in items ==> x.score <= 0.0
    ensures CountMatched(items) == |items| <==> forall x :: x in items ==> x.score > 0.0
  {
    if items != [] {
      CountMatchedMeaning(items[1..]);
      assert forall x :: x in items <==> x == items[0] || x in items[1..];
    }
  }

  /** Fraction of items with a positive score; 0 for an empty list. */
  function ComputeMatchRate(items: seq<ActivationItem>): (rate: real)
    ensures 0.0 <= rate <= 1.0
    ensures items == [] ==> rate == 0.0
    ensures rate == 0.0 <==> forall x :: x in items ==> x.score <= 0.0
    ensures items != [] ==> rate * (|items| as real) == CountMatched(items) as real
  {
    CountMatchedMeaning(items);
    if items == [] then 0.0 else Ratio(CountMatched(items), |items|)
  }

  /** `c / n` for a count out of a positive total. */
  function Ratio(c: nat, n: nat): (q: real)
    requires 0 < n && c <= n
    ensures 0.0 <= q <= 1.0
    ensures q * (n as real) == c as real
    ensures q == 0.0 <==> c == 0
  {
    RatioAtMostOne(c as real, n as real);
    (c as real) / (n as real)
  }

  lemma RatioAtMostOne(c: real, n: real)
    requires 0.0 <= c <= n && n > 0.0
    ensures 0.0 <= c / n <= 1.0
    ensures c / n * n == c
    ensures c / n == 0.0 <==> c == 0.0
  {
    assert c / n * n == c;
  }
}
