// A stable sort by a three-part key, the behaviour of Python's `sorted` and
// `list.sort` with the tuple keys the ranking code builds.
module StableSort {
  import opened Wrappers
  import opened Seqs

  /**
   * A sort key: higher score first, then present positions ascending with an
   * absent position last (the `float("inf")` sentinel), then the tie-breaker
   * string ascending.
   */
  datatype SortKey = SortKey(score: real, position: Option<real>, tieBreaker: string)

  /** Python's string `<`: code-point lexicographic order, a proper prefix first. */
  predicate StrLt(a: string, b: string)
  {
    if a == [] then b != []
    else if b == [] then false
    else if a[0] < b[0] then true
    else a[0] == b[0] && StrLt(a[1..], b[1..])
  }

  lemma {:induction false} StrLtIrreflexive(a: string)
    ensures !StrLt(a, a)
  {
    if a != [] {
      StrLtIrreflexive(a[1..]);
    }
  }

  lemma {:induction false} StrLtTransitive(a: string, b: string, c: string)
    requires StrLt(a, b) && StrLt(b, c)
    ensures StrLt(a, c)
  {
    if a != [] && b != [] && c != [] && a[0] == b[0] == c[0] {
      StrLtTransitive(a[1..], b[1..], c[1..]);
    }
  }

  lemma {:induction false} StrLtAsymmetric(a: string, b: string)
    requires StrLt(a, b)
    ensures !StrLt(b, a)
  {
    if a != [] && b != [] && a[0] == b[0] {
      StrLtAsymmetric(a[1..], b[1..]);
    }
  }

  lemma {:induction false} StrLtTotal(a: string, b: string)
    ensures a == b || StrLt(a, b) || StrLt(b, a)
  {
    if a != [] && b != [] && a[0] == b[0] {
      StrLtTotal(a[1..], b[1..]);
      if a[1..] == b[1..] {
        assert a == [a[0]] + a[1..] && b == [b[0]] + b[1..];
      }
    }
  }

  /** Present positions ascending; an absent one sorts after every present one. */
  predicate PosLt(a: Option<real>, b: Option<real>)
  {
    match (a, b)
    case (Some(x), Some(y)) => x < y
    case (Some(_), None) => true
    case (None, _) => false
  }

  /** `a` sorts strictly before `b`: the tuple comparison `(-score, pos, tie) <`. */
  predicate KeyLt(a: SortKey, b: SortKey)
  {
    a.score > b.score
    || (a.score == b.score && (PosLt(a.position, b.position)
        || (a.position == b.position && StrLt(a.tieBreaker, b.tieBreaker))))
  }

  predicate KeyLe(a: SortKey, b: SortKey)
  {
    !KeyLt(b, a)
  }

  lemma KeyLtIrreflexive(a: SortKey)
    ensures !KeyLt(a, a)
  {
    StrLtIrreflexive(a.tieBreaker);
  }

  lemma KeyLtTransitive(a: SortKey, b: SortKey, c: SortKey)
    requires KeyLt(a, b) && KeyLt(b, c)
    ensures KeyLt(a, c)
  {
    if a.score == b.score == c.score && a.position == b.position == c.position {
      StrLtTransitive(a.tieBreaker, b.tieBreaker, c.tieBreaker);
    }
  }

  lemma KeyLtAsymmetric(a: SortKey, b: SortKey)
    requires KeyLt(a, b)
    ensures !KeyLt(b, a)
  {
    if a.score == b.score && a.position == b.position {
      StrLtAsymmetric(a.tieBreaker, b.tieBreaker);
    }
  }

  lemma KeyLtTotal(a: SortKey, b: SortKey)
    ensures a == b || KeyLt(a, b) || KeyLt(b, a)
  {
    StrLtTotal(a.tieBreaker, b.tieBreaker);
  }

  /** `<=` on keys is transitive, because `<` is a strict total order. */
  lemma KeyLeTransitive(a: SortKey, b: SortKey, c: SortKey)
    requires KeyLe(a, b) && KeyLe(b, c)
    ensures KeyLe(a, c)
  {
    KeyLtTotal(a, b);
    KeyLtTotal(b, c);
    if a != b && b != c {
      KeyLtTransitive(a, b, c);
      KeyLtAsymmetric(a, c);
    }
  }

  // ---- The sort ---------------------------------------------------------

  /** Inserts `x` before the first element that does not sort strictly before it. */
  function Insert<T>(x: T, s: seq<T>, key: T -> SortKey): (r: seq<T>)
    ensures |r| == |s| + 1
  {
    if s == [] then [x]
    else if KeyLt(key(s[0]), key(x)) then [s[0]] + Insert(x, s[1..], key)
    else [x] + s
  }

  /** The stable sort of `s` by `key`. */
  function SortBy<T>(s: seq<T>, key: T -> SortKey): (r: seq<T>)
    ensures |r| == |s|
  {
    if s == [] then [] else Insert(s[0], SortBy(s[1..], key), key)
  }

  /** Non-decreasing by key: no later element sorts strictly before an earlier one. */
  predicate SortedBy<T>(s: seq<T>, key: T -> SortKey)
  {
    forall i, j :: 0 <= i < j < |s| ==> KeyLe(key(s[i]), key(s[j]))
  }

  /** The elements whose key is exactly `k`, in order. */
  function KeyFilter<T>(s: seq<T>, key: T -> SortKey, k: SortKey): seq<T>
  {
    if s == [] then []
    else (if key(s[0]) == k then [s[0]] else []) + KeyFilter(s[1..], key, k)
  }

  lemma {:induction false} InsertPermutation<T>(x: T, s: seq<T>, key: T -> SortKey)
    ensures multiset(Insert(x, s, key)) == multiset(s) + multiset{x}
  {
    if s != [] && KeyLt(key(s[0]), key(x)) {
      InsertPermutation(x, s[1..], key);
      assert s == [s[0]] + s[1..];
    }
  }

  lemma {:induction false} InsertSorted<T>(x: T, s: seq<T>, key: T -> SortKey)
    requires SortedBy(s, key)
    ensures SortedBy(Insert(x, s, key), key)
  {
    if s == [] {
    } else if KeyLt(key(s[0]), key(x)) {
      var t := s[1..];
      InsertSorted(x, t, key);
      InsertPermutation(x, t, key);
      var r := Insert(x, s, key);
      var rt := Insert(x, t, key);
      assert r == [s[0]] + rt;
      forall j | 0 < j < |r|
        ensures KeyLe(key(r[0]), key(r[j]))
      {
        assert r[j] in multiset(rt);
        assert r[j] in multiset(t) || r[j] == x;
        if r[j] == x {
          KeyLtAsymmetric(key(s[0]), key(x));
        } else {
          var m :| 0 <= m < |t| && t[m] == r[j];
          assert s[m + 1] == r[j];
        }
      }
    } else {
      var r := Insert(x, s, key);
      forall i, j | 0 <= i < j < |r|
        ensures KeyLe(key(r[i]), key(r[j]))
      {
        if i == 0 && j > 1 {
          KeyLeTransitive(key(x), key(s[0]), key(s[j - 1]));
        }
      }
    }
  }

  /** The sort returns a permutation of its input. */
  lemma {:induction false} SortByPermutation<T>(s: seq<T>, key: T -> SortKey)
    ensures multiset(SortBy(s, key)) == multiset(s)
  {
    if s != [] {
      SortByPermutation(s[1..], key);
      InsertPermutation(s[0], SortBy(s[1..], key), key);
      assert s == [s[0]] + s[1..];
    }
  }

  /** The sort returns a sequence ordered by key. */
  lemma {:induction false} SortBySorted<T>(s: seq<T>, key: T -> SortKey)
    ensures SortedBy(SortBy(s, key), key)
  {
    if s != [] {
      SortBySorted(s[1..], key);
      InsertSorted(s[0], SortBy(s[1..], key), key);
    }
  }

  lemma {:induction false} InsertKeyFilter<T>(x: T, s: seq<T>, key: T -> SortKey, k: SortKey)
    ensures KeyFilter(Insert(x, s, key), key, k)
            == (if key(x) == k then [x] else []) + KeyFilter(s, key, k)
  {
    if s != [] {
      var r := Insert(x, s, key);
      if KeyLt(key(s[0]), key(x)) {
        var r' := Insert(x, s[1..], key);
        InsertKeyFilter(x, s[1..], key, k);
        KeyLtIrreflexive(key(x));
        assert r[0] == s[0] && r[1..] == r';
        assert KeyFilter(r, key, k) == (if key(s[0]) == k then [s[0]] else []) + KeyFilter(r', key, k);
        assert KeyFilter(s, key, k) == (if key(s[0]) == k then [s[0]] else []) + KeyFilter(s[1..], key, k);
        if key(x) == k {
          assert key(s[0]) != k;
        }
      } else {
        assert r[0] == x && r[1..] == s;
      }
    }
  }

  /** Stability: elements with identical keys keep their input order. */
  lemma {:induction false} SortByStable<T>(s: seq<T>, key: T -> SortKey, k: SortKey)
    ensures KeyFilter(SortBy(s, key), key, k) == KeyFilter(s, key, k)
  {
    if s != [] {
      SortByStable(s[1..], key, k);
      InsertKeyFilter(s[0], SortBy(s[1..], key), key, k);
    }
  }

  /** Sorting an already sorted sequence changes nothing. */
  lemma {:induction false} SortBySortedIdentity<T>(s: seq<T>, key: T -> SortKey)
    requires SortedBy(s, key)
    ensures SortBy(s, key) == s
  {
    if s != [] {
      var t := s[1..];
      assert SortedBy(t, key) by {
        forall i, j | 0 <= i < j < |t| ensures KeyLe(key(t[i]), key(t[j])) {
          assert t[i] == s[i + 1] && t[j] == s[j + 1];
        }
      }
      SortBySortedIdentity(t, key);
      if t != [] {
        assert KeyLe(key(s[0]), key(t[0])) by { assert t[0] == s[1]; }
      }
      assert s == [s[0]] + t;
    }
  }

  /** Sorting twice is sorting once. */
  lemma SortByIdempotent<T>(s: seq<T>, key: T -> SortKey)
    ensures SortBy(SortBy(s, key), key) == SortBy(s, key)
  {
    SortBySorted(s, key);
    SortBySortedIdentity(SortBy(s, key), key);
  }

  lemma {:induction false} KeyFilterHasKey<T>(s: seq<T>, key: T -> SortKey, k: SortKey)
    requires KeyFilter(s, key, k) != []
    ensures exists i :: 0 <= i < |s| && key(s[i]) == k
  {
    if key(s[0]) != k {
      KeyFilterHasKey(s[1..], key, k);
      var i :| 0 <= i < |s[1..]| && key(s[1..][i]) == k;
      assert key(s[i + 1]) == k;
    }
  }

  lemma NonEmptyFilter<T>(s: seq<T>, key: T -> SortKey)
    requires s != []
    ensures KeyFilter(s, key, key(s[0])) != []
  {
  }

  /**
   * The stable sort is the only sequence that is ordered by key and keeps each
   * group of equal keys in its input order: any two such sequences coincide.
   */
  lemma {:induction false} SortedUnique<T>(a: seq<T>, b: seq<T>, key: T -> SortKey)
    requires SortedBy(a, key) && SortedBy(b, key)
    requires forall k :: KeyFilter(a, key, k) == KeyFilter(b, key, k)
    ensures a == b
    decreases |a| + |b|
  {
    if a == [] && b == [] {
    } else if a == [] {
      assert false;
    } else if b == [] {
      NonEmptyFilter(a, key);
      assert false;
    } else {
      var ka, kb := key(a[0]), key(b[0]);
      assert KeyFilter(b, key, ka) != [];
      KeyFilterHasKey(b, key, ka);
      var i :| 0 <= i < |b| && key(b[i]) == ka;
      assert KeyLe(kb, ka) by { if i > 0 { assert KeyLe(key(b[0]), key(b[i])); } else { KeyLtIrreflexive(ka); } }
      assert KeyFilter(a, key, kb) != [];
      KeyFilterHasKey(a, key, kb);
      var j :| 0 <= j < |a| && key(a[j]) == kb;
      assert KeyLe(ka, kb) by { if j > 0 { assert KeyLe(key(a[0]), key(a[j])); } else { KeyLtIrreflexive(kb); } }
      KeyLtTotal(ka, kb);
      assert ka == kb;
      assert a[0] == KeyFilter(a, key, ka)[0] == KeyFilter(b, key, ka)[0] == b[0];
      var a', b' := a[1..], b[1..];
      forall k
        ensures KeyFilter(a', key, k) == KeyFilter(b', key, k)
      {
        var p := if ka == k then [a[0]] else [];
        assert KeyFilter(a, key, k) == p + KeyFilter(a', key, k);
        assert KeyFilter(b, key, k) == p + KeyFilter(b', key, k);
        assert KeyFilter(a', key, k) == (p + KeyFilter(a', key, k))[|p|..];
        assert KeyFilter(b', key, k) == (p + KeyFilter(b', key, k))[|p|..];
      }
      assert SortedBy(a', key) by {
        forall x, y | 0 <= x < y < |a'| ensures KeyLe(key(a'[x]), key(a'[y])) {
          assert a'[x] == a[x + 1] && a'[y] == a[y + 1];
        }
      }
      assert SortedBy(b', key) by {
        forall x, y | 0 <= x < y < |b'| ensures KeyLe(key(b'[x]), key(b'[y])) {
          assert b'[x] == b[x + 1] && b'[y] == b[y + 1];
        }
      }
      SortedUnique(a', b', key);
      assert a == [a[0]] + a' && b == [b[0]] + b';
    }
  }

  /** Any key-ordered sequence that keeps every equal-key group in input order is the stable sort. */
  lemma SortByCharacterized<T>(s: seq<T>, r: seq<T>, key: T -> SortKey)
    requires SortedBy(r, key)
    requires forall k :: KeyFilter(r, key, k) == KeyFilter(s, key, k)
    ensures r == SortBy(s, key)
  {
    SortBySorted(s, key);
    forall k ensures KeyFilter(r, key, k) == KeyFilter(SortBy(s, key), key, k) {
      SortByStable(s, key, k);
    }
    SortedUnique(r, SortBy(s, key), key);
  }

  /** A subsequence of a sorted list is sorted. */
  lemma {:induction false} SubsequenceSortedBy<T>(a: seq<T>, b: seq<T>, key: T -> SortKey)
    requires IsSubsequence(a, b) && SortedBy(b, key)
    ensures SortedBy(a, key)
    decreases |b|
  {
    if a != [] && b != [] {
      var b' := b[..|b| - 1];
      assert SortedBy(b', key);
      if a[|a| - 1] == b[|b| - 1] {
        var a' := a[..|a| - 1];
        SubsequenceSortedBy(a', b', key);
        SubsequenceMembers(a', b');
        forall i, j | 0 <= i < j < |a|
          ensures KeyLe(key(a[i]), key(a[j]))
        {
          if j == |a| - 1 {
            assert a[i] == a'[i];
            var k :| 0 <= k < |b'| && b'[k] == a'[i];
            assert b[k] == a[i];
          } else {
            assert a[i] == a'[i] && a[j] == a'[j];
          }
        }
      } else {
        SubsequenceSortedBy(a, b', key);
      }
    }
  }
}
