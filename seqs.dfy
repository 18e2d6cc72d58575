// Sequence facts shared by the list-processing modules.
module Seqs {
  /** `s[:k]`, with Python's slice meaning for a negative bound (drop `-k` from the end). */
  function SlicePrefix<T>(s: seq<T>, k: int): (r: seq<T>)
    ensures |r| <= |s| && r == s[..|r|]
    ensures k >= 0 ==> |r| == if k <= |s| then k else |s|
    ensures k < 0 ==> |r| == if |s| + k >= 0 then |s| + k else 0
  {
    if k >= 0 then (if k <= |s| then s[..k] else s)
    else (if |s| + k >= 0 then s[..|s| + k] else [])
  }

  /** `a` is an order-preserving subsequence of `b` (matched greedily from the end). */
  predicate IsSubsequence<T(==)>(a: seq<T>, b: seq<T>)
    decreases |b|
  {
    if a == [] then true
    else if b == [] then false
    else if a[|a| - 1] == b[|b| - 1] then IsSubsequence(a[..|a| - 1], b[..|b| - 1])
    else IsSubsequence(a, b[..|b| - 1])
  }

  lemma {:induction false} SubsequenceDropLast<T>(a: seq<T>, b: seq<T>)
    requires a != [] && IsSubsequence(a, b)
    ensures IsSubsequence(a[..|a| - 1], b)
    decreases |b|
  {
    var a' := a[..|a| - 1];
    if a' != [] {
      assert b != [];
      var b' := b[..|b| - 1];
      if a[|a| - 1] == b[|b| - 1] {
        assert IsSubsequence(a', b');
        if a'[|a'| - 1] == b[|b| - 1] {
          SubsequenceDropLast(a', b');
          assert a'[..|a'| - 1] == a[..|a| - 2];
        }
      } else {
        assert IsSubsequence(a, b');
        SubsequenceDropLast(a, b');
        if a'[|a'| - 1] == b[|b| - 1] {
          SubsequenceDropLast(a', b');
        }
      }
    }
  }

  /** Appending to the longer sequence, or to both, keeps a subsequence. */
  lemma SubsequenceExtend<T>(a: seq<T>, b: seq<T>, x: T)
    requires IsSubsequence(a, b)
    ensures IsSubsequence(a, b + [x])
    ensures IsSubsequence(a + [x], b + [x])
  {
    assert (b + [x])[..|b|] == b;
    assert (a + [x])[..|a|] == a;
    if a != [] && a[|a| - 1] == x {
      SubsequenceDropLast(a, b);
    }
  }

  lemma SubsequenceRefl<T>(a: seq<T>)
    ensures IsSubsequence(a, a)
  {
    if a != [] {
      SubsequenceRefl(a[..|a| - 1]);
    }
  }

  /** Every element of a subsequence occurs in the sequence. */
  lemma {:induction false} SubsequenceMembers<T>(a: seq<T>, b: seq<T>)
    requires IsSubsequence(a, b)
    ensures forall i :: 0 <= i < |a| ==> exists k :: 0 <= k < |b| && b[k] == a[i]
    decreases |b|
  {
    if a != [] && b != [] {
      var b' := b[..|b| - 1];
      if a[|a| - 1] == b[|b| - 1] {
        SubsequenceMembers(a[..|a| - 1], b');
        forall i | 0 <= i < |a|
          ensures exists k :: 0 <= k < |b| && b[k] == a[i]
        {
          if i == |a| - 1 {
            assert b[|b| - 1] == a[i];
          } else {
            assert a[i] == a[..|a| - 1][i];
            var k :| 0 <= k < |b'| && b'[k] == a[..|a| - 1][i];
            assert b[k] == a[i];
          }
        }
      } else {
        SubsequenceMembers(a, b');
        forall i | 0 <= i < |a|
          ensures exists k :: 0 <= k < |b| && b[k] == a[i]
        {
          var k :| 0 <= k < |b'| && b'[k] == a[i];
          assert b[k] == a[i];
        }
      }
    }
  }

  /** A prefix is a subsequence. */
  lemma {:induction false} PrefixSubsequence<T>(a: seq<T>, b: seq<T>)
    requires |a| <= |b| && a == b[..|a|]
    ensures IsSubsequence(a, b)
    decreases |b|
  {
    if |a| == |b| {
      assert a == b;
      SubsequenceRefl(a);
    } else {
      PrefixSubsequence(a, b[..|b| - 1]);
      SubsequenceExtend(a, b[..|b| - 1], b[|b| - 1]);
      assert b[..|b| - 1] + [b[|b| - 1]] == b;
    }
  }

  /** The subsequence relation is transitive. */
  lemma {:induction false} SubsequenceTransitive<T>(a: seq<T>, b: seq<T>, c: seq<T>)
    requires IsSubsequence(a, b) && IsSubsequence(b, c)
    ensures IsSubsequence(a, c)
    decreases |c|
  {
    if a != [] && c != [] {
      var c' := c[..|c| - 1];
      var b' := b[..|b| - 1];
      if b[|b| - 1] == c[|c| - 1] && a[|a| - 1] == b[|b| - 1] {
        SubsequenceTransitive(a[..|a| - 1], b', c');
      } else {
        if b[|b| - 1] == c[|c| - 1] {
          SubsequenceTransitive(a, b', c');
        } else {
          SubsequenceTransitive(a, b, c');
        }
        SubsequenceExtend(a, c', c[|c| - 1]);
        assert c' + [c[|c| - 1]] == c;
      }
    }
  }

  /** No element occurs twice. */
  predicate NoDuplicates<T(==)>(s: seq<T>)
  {
    forall i, j :: 0 <= i < j < |s| ==> s[i] != s[j]
  }

  /** Without duplicates, a sequence has as many distinct elements as positions. */
  lemma {:induction false} NoDuplicatesCard<T>(s: seq<T>)
    requires NoDuplicates(s)
    ensures |set x | x in s| == |s|
    decreases |s|
  {
    if s != [] {
      var p := s[..|s| - 1];
      var last := s[|s| - 1];
      NoDuplicatesCard(p);
      assert last !in p;
      assert (set x | x in s) == (set x | x in p) + {last};
    }
  }
}
