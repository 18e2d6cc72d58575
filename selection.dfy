// Truncation and per-category capping (domain/activation_policy/selection.py).
module Selection {
  import opened Wrappers
  import opened ActivationModels
  import opened Seqs

  function Min(a: int, b: int): int { if a <= b then a else b }
  function Max(a: int, b: int): int { if a >= b then a else b }

  /** `items[:max_items]`, with Python's slice meaning for a negative bound. */
  function ApplyMaxItems(items: seq<ActivationItem>, maxItems: int): (r: seq<ActivationItem>)
    ensures |r| <= |items| && r == items[..|r|]
    ensures maxItems >= 0 ==> |r| == Min(|items|, maxItems)
    ensures maxItems < 0 ==> |r| == Max(0, |items| + maxItems)
  {
    SlicePrefix(items, maxItems)
  }

  /** Truncating twice to the same non-negative bound is truncating once. */
  lemma ApplyMaxItemsIdempotent(items: seq<ActivationItem>, maxItems: int)
    requires maxItems >= 0
    ensures ApplyMaxItems(ApplyMaxItems(items, maxItems), maxItems) == ApplyMaxItems(items, maxItems)
  {
  }

  // ---- Specification of apply_category_cap ------------------------------

  /** The items of category `c` (possibly none), in order. */
  function FilterCategory(s: seq<ActivationItem>, c: Option<string>): seq<ActivationItem>
  {
    if s == [] then []
    else FilterCategory(s[..|s| - 1], c) + (if s[|s| - 1].category == c then [s[|s| - 1]] else [])
  }

  function CountCategory(s: seq<ActivationItem>, c: Option<string>): nat
  {
    |FilterCategory(s, c)|
  }

  /** Item `i` survives the cap: it has no category, or fewer than `cap` earlier items share it. */
  predicate KeptByCap(s: seq<ActivationItem>, i: nat, cap: int)
    requires i < |s|
  {
    s[i].category.None? || CountCategory(s[..i], s[i].category) < cap
  }

  /** The items that survive the cap, in input order. */
  function CategoryCap(s: seq<ActivationItem>, cap: int): seq<ActivationItem>
  {
    if s == [] then []
    else CategoryCap(s[..|s| - 1], cap) + (if KeptByCap(s, |s| - 1, cap) then [s[|s| - 1]] else [])
  }

  function Get(m: map<Option<string>, int>, c: Option<string>): int
  {
    if c in m then m[c] else 0
  }

  /**
   * Walks the items in order, keeping every item without a category and the
   * first `cap` items of each category.
   */
  method ApplyCategoryCap(items: seq<ActivationItem>, cap: int) returns (result: seq<ActivationItem>)
    ensures result == CategoryCap(items, cap)
  {
    var categoryCounts: map<Option<string>, int> := map[];
    result := [];
    var i := 0;
    while i < |items|
      invariant 0 <= i <= |items|
      invariant result == CategoryCap(items[..i], cap)
      invariant forall c :: Get(categoryCounts, c) == if c.None? then 0 else Min(Max(cap, 0), CountCategory(items[..i], c))
    {
      var item := items[i];
      var category := item.category;
      var currentCount := Get(categoryCounts, category);
      ghost var p := items[..i];
      assert items[..i + 1] == p + [item];
      assert items[..i + 1][..i] == p;
      if category.None? {
        result := result + [item];
      } else if currentCount < cap {
        result := result + [item];
        categoryCounts := categoryCounts[category := currentCount + 1];
      }
      i := i + 1;
    }
    assert items[..i] == items;
  }

  // ---- Properties ------------------------------------------------------

  /** The capped list is an order-preserving subsequence of its input. */
  lemma {:induction false} CategoryCapSubsequence(s: seq<ActivationItem>, cap: int)
    ensures IsSubsequence(CategoryCap(s, cap), s)
  {
    if s == [] {
    } else {
      var p := s[..|s| - 1];
      CategoryCapSubsequence(p, cap);
      SubsequenceExtend(CategoryCap(p, cap), p, s[|s| - 1]);
      assert s == p + [s[|s| - 1]];
      if KeptByCap(s, |s| - 1, cap) {
        assert CategoryCap(s, cap) == CategoryCap(p, cap) + [s[|s| - 1]];
      } else {
        assert CategoryCap(s, cap) == CategoryCap(p, cap);
      }
    }
  }

  /**
   * Items without a category are all kept; each category keeps exactly its
   * first `cap` items (all of them if it has fewer).
   */
  lemma {:induction false} CategoryCapPerCategory(s: seq<ActivationItem>, cap: int, c: Option<string>)
    ensures c.None? ==> FilterCategory(CategoryCap(s, cap), c) == FilterCategory(s, c)
    ensures c.Some? ==> FilterCategory(CategoryCap(s, cap), c) == FilterCategory(s, c)[..Min(Max(cap, 0), CountCategory(s, c))]
  {
    if s != [] {
      var p := s[..|s| - 1];
      var x := s[|s| - 1];
      CategoryCapPerCategory(p, cap, c);
      assert s[..|s| - 1] == p;
      var kept := CategoryCap(p, cap);
      if KeptByCap(s, |s| - 1, cap) {
        assert CategoryCap(s, cap) == kept + [x];
        assert FilterCategory(kept + [x], c) == FilterCategory(kept, c) + (if x.category == c then [x] else []) by {
          assert (kept + [x])[..|kept|] == kept;
        }
      } else {
        assert CategoryCap(s, cap) == kept;
      }
    }
  }

  /** With a cap of zero or less only items without a category survive. */
  lemma {:induction false} CategoryCapNonPositive(s: seq<ActivationItem>, cap: int)
    requires cap <= 0
    ensures CategoryCap(s, cap) == FilterCategory(s, None)
  {
    if s != [] {
      CategoryCapNonPositive(s[..|s| - 1], cap);
    }
  }
}
