// First-row-per-subject deduplication, the loop shared by the row-per-subject
// fetches of the warehouse inputs adapter: rows arrive ordered by subject and
// latest as_of_ts first, a subject is marked seen on its first row, and that
// row alone may become an input.
module RowDedup {
  import opened Wrappers
  import opened Seqs

  /** The `seen_subjects` set after the loop has visited `rows`. */
  function Seen<R>(rows: seq<R>, subject: R -> string): set<string>
  {
    if rows == [] then {} else Seen(rows[..|rows| - 1], subject) + {subject(rows[|rows| - 1])}
  }

  /** The rows the loop does not skip as duplicates. */
  function KeepFirst<R>(rows: seq<R>, subject: R -> string): seq<R>
  {
    if rows == [] then []
    else
      var p := rows[..|rows| - 1];
      var last := rows[|rows| - 1];
      KeepFirst(p, subject) + (if subject(last) in Seen(p, subject) then [] else [last])
  }

  /** The inputs built from `rows`, rows the builder refuses (`None`) left out. */
  function Built<R, I>(rows: seq<R>, tenant: string, build: (string, R) -> Option<I>): seq<I>
  {
    if rows == [] then []
    else
      var last := build(tenant, rows[|rows| - 1]);
      Built(rows[..|rows| - 1], tenant, build) + (if last.Some? then [last.value] else [])
  }

  /** Reference definition: the earliest row of subject `s`, scanning from the front. */
  function FirstWith<R>(rows: seq<R>, subject: R -> string, s: string): Option<R>
  {
    if rows == [] then None
    else if subject(rows[0]) == s then Some(rows[0])
    else FirstWith(rows[1..], subject, s)
  }

  // ---- The reference scan -------------------------------------------------

  /** The earliest row of `s` is a row of `s` with no row of `s` before it; none means `s` never occurs. */
  lemma {:induction false} FirstWithIsEarliest<R>(rows: seq<R>, subject: R -> string, s: string)
    ensures FirstWith(rows, subject, s).None? <==> forall i :: 0 <= i < |rows| ==> subject(rows[i]) != s
    ensures FirstWith(rows, subject, s).Some? ==>
              exists i :: 0 <= i < |rows| && rows[i] == FirstWith(rows, subject, s).value && subject(rows[i]) == s
                          && forall j :: 0 <= j < i ==> subject(rows[j]) != s
  {
    if rows != [] && subject(rows[0]) != s {
      FirstWithIsEarliest(rows[1..], subject, s);
      if FirstWith(rows[1..], subject, s).Some? {
        var i :| 0 <= i < |rows[1..]| && rows[1..][i] == FirstWith(rows[1..], subject, s).value && subject(rows[1..][i]) == s
                 && forall j :: 0 <= j < i ==> subject(rows[1..][j]) != s;
        assert rows[i + 1] == rows[1..][i];
        forall j | 0 <= j < i + 1
          ensures subject(rows[j]) != s
        {
          if j > 0 {
            assert rows[j] == rows[1..][j - 1];
          }
        }
      } else {
        forall i | 0 <= i < |rows|
          ensures subject(rows[i]) != s
        {
          if i > 0 {
            assert rows[i] == rows[1..][i - 1];
          }
        }
      }
    }
  }

  lemma {:induction false} FirstWithSnoc<R>(p: seq<R>, x: R, subject: R -> string, s: string)
    ensures FirstWith(p + [x], subject, s)
            == if FirstWith(p, subject, s).Some? then FirstWith(p, subject, s)
               else if subject(x) == s then Some(x) else None
  {
    if p == [] {
      assert p + [x] == [x];
      assert [x][1..] == [];
    } else {
      assert (p + [x])[0] == p[0];
      assert (p + [x])[1..] == p[1..] + [x];
      FirstWithSnoc(p[1..], x, subject, s);
    }
  }

  /** The seen set holds exactly the subjects that have a first row. */
  lemma {:induction false} SeenIsFirstWith<R>(rows: seq<R>, subject: R -> string, s: string)
    ensures s in Seen(rows, subject) <==> FirstWith(rows, subject, s).Some?
    decreases |rows|
  {
    if rows != [] {
      var p := rows[..|rows| - 1];
      assert rows == p + [rows[|rows| - 1]];
      SeenIsFirstWith(p, subject, s);
      FirstWithSnoc(p, rows[|rows| - 1], subject, s);
    }
  }

  // ---- What the loop keeps ------------------------------------------------

  /**
   * Every kept row is the first row of its subject, and every subject's first
   * row is kept: later rows of a subject are skipped.
   */
  lemma {:induction false} KeepFirstIsFirstRows<R>(rows: seq<R>, subject: R -> string)
    ensures forall x :: x in KeepFirst(rows, subject) ==> FirstWith(rows, subject, subject(x)) == Some(x)
    ensures forall s :: FirstWith(rows, subject, s).Some? ==> FirstWith(rows, subject, s).value in KeepFirst(rows, subject)
    decreases |rows|
  {
    if rows != [] {
      var p := rows[..|rows| - 1];
      var last := rows[|rows| - 1];
      assert rows == p + [last];
      KeepFirstIsFirstRows(p, subject);
      var k := KeepFirst(rows, subject);
      forall x | x in k
        ensures FirstWith(rows, subject, subject(x)) == Some(x)
      {
        FirstWithSnoc(p, last, subject, subject(x));
        if x in KeepFirst(p, subject) {
        } else {
          assert x == last && subject(last) !in Seen(p, subject);
          SeenIsFirstWith(p, subject, subject(last));
        }
      }
      forall s | FirstWith(rows, subject, s).Some?
        ensures FirstWith(rows, subject, s).value in k
      {
        FirstWithSnoc(p, last, subject, s);
        if FirstWith(p, subject, s).None? {
          SeenIsFirstWith(p, subject, s);
        }
      }
    }
  }

  /** No two kept rows share a subject. */
  lemma {:induction false} KeepFirstDistinct<R>(rows: seq<R>, subject: R -> string)
    ensures forall i, j :: 0 <= i < j < |KeepFirst(rows, subject)| ==>
              subject(KeepFirst(rows, subject)[i]) != subject(KeepFirst(rows, subject)[j])
    decreases |rows|
  {
    if rows != [] {
      var p := rows[..|rows| - 1];
      var last := rows[|rows| - 1];
      KeepFirstDistinct(p, subject);
      KeepFirstSeen(p, subject);
      var kp := KeepFirst(p, subject);
      var k := KeepFirst(rows, subject);
      forall i, j | 0 <= i < j < |k|
        ensures subject(k[i]) != subject(k[j])
      {
        if j == |kp| {
          assert k[i] == kp[i] && k[j] == last;
          assert subject(kp[i]) in Seen(kp, subject) by {
            SeenMembers(kp, subject, i);
          }
        } else {
          assert k[i] == kp[i] && k[j] == kp[j];
        }
      }
    }
  }

  /** One more row: it is kept iff its subject was not seen, and its subject becomes seen. */
  lemma KeepFirstSnoc<R>(p: seq<R>, x: R, subject: R -> string)
    ensures KeepFirst(p + [x], subject) == KeepFirst(p, subject) + (if subject(x) in Seen(p, subject) then [] else [x])
    ensures Seen(p + [x], subject) == Seen(p, subject) + {subject(x)}
  {
    assert (p + [x])[..|p|] == p;
  }

  /** The kept rows have the same subjects as all rows. */
  lemma {:induction false} KeepFirstSeen<R>(rows: seq<R>, subject: R -> string)
    ensures Seen(KeepFirst(rows, subject), subject) == Seen(rows, subject)
    decreases |rows|
  {
    if rows != [] {
      var p := rows[..|rows| - 1];
      var last := rows[|rows| - 1];
      assert rows == p + [last];
      KeepFirstSeen(p, subject);
      KeepFirstSnoc(p, last, subject);
      var kp := KeepFirst(p, subject);
      if subject(last) in Seen(p, subject) {
        assert KeepFirst(rows, subject) == kp;
        assert Seen(rows, subject) == Seen(p, subject);
      } else {
        KeepFirstSnoc(kp, last, subject);
        assert KeepFirst(rows, subject) == kp + [last];
      }
    }
  }

  lemma {:induction false} SeenMembers<R>(rows: seq<R>, subject: R -> string, i: nat)
    requires i < |rows|
    ensures subject(rows[i]) in Seen(rows, subject)
    decreases |rows|
  {
    if i < |rows| - 1 {
      assert rows[..|rows| - 1][i] == rows[i];
      SeenMembers(rows[..|rows| - 1], subject, i);
    }
  }

  /** The kept rows are an order-preserving subsequence of the rows. */
  lemma {:induction false} KeepFirstSubsequence<R>(rows: seq<R>, subject: R -> string)
    ensures IsSubsequence(KeepFirst(rows, subject), rows)
    decreases |rows|
  {
    if rows == [] {
    } else {
      var p := rows[..|rows| - 1];
      var last := rows[|rows| - 1];
      assert rows == p + [last];
      KeepFirstSubsequence(p, subject);
      SubsequenceExtend(KeepFirst(p, subject), p, last);
      if subject(last) in Seen(p, subject) {
        assert KeepFirst(rows, subject) == KeepFirst(p, subject);
      } else {
        assert KeepFirst(rows, subject) == KeepFirst(p, subject) + [last];
      }
    }
  }

  // ---- What the loop builds -----------------------------------------------

  lemma BuiltSnoc<R, I>(rows: seq<R>, x: R, tenant: string, build: (string, R) -> Option<I>)
    ensures Built(rows + [x], tenant, build)
            == Built(rows, tenant, build) + (if build(tenant, x).Some? then [build(tenant, x).value] else [])
  {
    assert (rows + [x])[..|rows|] == rows;
  }

  /** Every built input comes from one of the rows. */
  lemma {:induction false} BuiltFrom<R, I>(rows: seq<R>, tenant: string, build: (string, R) -> Option<I>, y: I)
    requires y in Built(rows, tenant, build)
    ensures exists x :: x in rows && build(tenant, x) == Some(y)
    decreases |rows|
  {
    var p := rows[..|rows| - 1];
    var last := rows[|rows| - 1];
    if y in Built(p, tenant, build) {
      BuiltFrom(p, tenant, build, y);
      var x :| x in p && build(tenant, x) == Some(y);
      assert x in rows;
    } else {
      assert build(tenant, last) == Some(y);
    }
  }

  /** A row the builder accepts is built. */
  lemma {:induction false} BuiltHas<R, I>(rows: seq<R>, tenant: string, build: (string, R) -> Option<I>, x: R)
    requires x in rows && build(tenant, x).Some?
    ensures build(tenant, x).value in Built(rows, tenant, build)
    decreases |rows|
  {
    var p := rows[..|rows| - 1];
    if x != rows[|rows| - 1] {
      assert x in p;
      BuiltHas(p, tenant, build, x);
    }
  }

  /**
   * A subject is marked seen before its row is checked, so a subject whose
   * first row the builder refuses (a null as_of_ts) yields no input at all,
   * and a subject whose first row it accepts yields that row's input.
   */
  lemma FirstRowDecides<R, I>(rows: seq<R>, subject: R -> string, tenant: string,
                              build: (string, R) -> Option<I>, inputSubject: I -> string, s: string)
    requires forall r :: build(tenant, r).Some? ==> inputSubject(build(tenant, r).value) == subject(r)
    requires FirstWith(rows, subject, s).Some?
    ensures build(tenant, FirstWith(rows, subject, s).value).None? ==>
              forall y :: y in Built(KeepFirst(rows, subject), tenant, build) ==> inputSubject(y) != s
    ensures build(tenant, FirstWith(rows, subject, s).value).Some? ==>
              build(tenant, FirstWith(rows, subject, s).value).value in Built(KeepFirst(rows, subject), tenant, build)
  {
    KeepFirstIsFirstRows(rows, subject);
    var first := FirstWith(rows, subject, s).value;
    if build(tenant, first).None? {
      forall y | y in Built(KeepFirst(rows, subject), tenant, build)
        ensures inputSubject(y) != s
      {
        BuiltFrom(KeepFirst(rows, subject), tenant, build, y);
        var x :| x in KeepFirst(rows, subject) && build(tenant, x) == Some(y);
        assert FirstWith(rows, subject, subject(x)) == Some(x);
      }
    } else {
      BuiltHas(KeepFirst(rows, subject), tenant, build, first);
    }
  }

  /** Rows with distinct subjects build inputs with distinct subjects, when the builder keeps the subject. */
  lemma {:induction false} BuiltDistinct<R, I>(ks: seq<R>, subject: R -> string, tenant: string,
                                               build: (string, R) -> Option<I>, inputSubject: I -> string)
    requires forall r :: build(tenant, r).Some? ==> inputSubject(build(tenant, r).value) == subject(r)
    requires forall i, j :: 0 <= i < j < |ks| ==> subject(ks[i]) != subject(ks[j])
    ensures forall i, j :: 0 <= i < j < |Built(ks, tenant, build)| ==>
              inputSubject(Built(ks, tenant, build)[i]) != inputSubject(Built(ks, tenant, build)[j])
    decreases |ks|
  {
    if ks != [] {
      var p := ks[..|ks| - 1];
      var x := ks[|ks| - 1];
      BuiltDistinct(p, subject, tenant, build, inputSubject);
      var bp := Built(p, tenant, build);
      var b := Built(ks, tenant, build);
      if build(tenant, x).Some? {
        assert b == bp + [build(tenant, x).value];
        forall i, j | 0 <= i < j < |b|
          ensures inputSubject(b[i]) != inputSubject(b[j])
        {
          if j == |bp| {
            BuiltFrom(p, tenant, build, bp[i]);
            var z :| z in p && build(tenant, z) == Some(bp[i]);
            var m :| 0 <= m < |p| && p[m] == z;
            assert ks[m] == z;
          } else {
            assert b[i] == bp[i] && b[j] == bp[j];
          }
        }
      }
    }
  }

  /**
   * What a row-per-subject fetch returns: at most one input per subject,
   * and each input is the one built from its subject's first row.
   */
  lemma FirstRowInputs<R, I>(rows: seq<R>, subject: R -> string, tenant: string,
                             build: (string, R) -> Option<I>, inputSubject: I -> string)
    requires forall r :: build(tenant, r).Some? ==> inputSubject(build(tenant, r).value) == subject(r)
    ensures forall y :: y in Built(KeepFirst(rows, subject), tenant, build) ==>
              FirstWith(rows, subject, inputSubject(y)).Some?
              && build(tenant, FirstWith(rows, subject, inputSubject(y)).value) == Some(y)
    ensures forall i, j :: 0 <= i < j < |Built(KeepFirst(rows, subject), tenant, build)| ==>
              inputSubject(Built(KeepFirst(rows, subject), tenant, build)[i])
              != inputSubject(Built(KeepFirst(rows, subject), tenant, build)[j])
  {
    var k := KeepFirst(rows, subject);
    KeepFirstIsFirstRows(rows, subject);
    KeepFirstDistinct(rows, subject);
    BuiltDistinct(k, subject, tenant, build, inputSubject);
    forall y | y in Built(k, tenant, build)
      ensures FirstWith(rows, subject, inputSubject(y)).Some?
              && build(tenant, FirstWith(rows, subject, inputSubject(y)).value) == Some(y)
    {
      BuiltFrom(k, tenant, build, y);
      var x :| x in k && build(tenant, x) == Some(y);
      assert FirstWith(rows, subject, subject(x)) == Some(x);
    }
  }

  /** The dedup loop: skip a seen subject, mark it seen, then build its row (which may be refused). */
  method FirstRowPerSubject<R, I>(rows: seq<R>, subject: R -> string, tenant: string, build: (string, R) -> Option<I>)
    returns (inputs: seq<I>)
    ensures inputs == Built(KeepFirst(rows, subject), tenant, build)
  {
    var seen: set<string> := {};
    inputs := [];
    var i := 0;
    while i < |rows|
      invariant 0 <= i <= |rows|
      invariant seen == Seen(rows[..i], subject)
      invariant inputs == Built(KeepFirst(rows[..i], subject), tenant, build)
    {
      var row := rows[i];
      assert rows[..i + 1] == rows[..i] + [row];
      KeepFirstSnoc(rows[..i], row, subject);
      var subjectId := subject(row);
      if subjectId in seen {
        assert KeepFirst(rows[..i + 1], subject) == KeepFirst(rows[..i], subject);
      } else {
        seen := seen + {subjectId};
        BuiltSnoc(KeepFirst(rows[..i], subject), row, tenant, build);
        var built := build(tenant, row);
        if built.Some? {
          inputs := inputs + [built.value];
        }
      }
      i := i + 1;
    }
    assert rows[..i] == rows;
  }
}
