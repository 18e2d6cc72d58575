// The order and customer roll-ups of the warehouse inputs adapter: the
// latest decisions of the level below are grouped by a key read from their
// metrics, and each group with a known timestamp becomes one input carrying
// state counts, capped id lists, the latest timestamp and, for orders, the
// most frequent customer.
module Rollups {
  import opened Wrappers
  import opened Common
  import opened Seqs
  import opened RowCells
  import opened RowDedup
  import OrderRisk
  import CustomerImpact

  const AT_RISK: string := "AT_RISK"
  const UNKNOWN: string := "UNKNOWN"
  const NOT_AT_RISK: string := "NOT_AT_RISK"

  /** How many at-risk ids and source refs an order keeps; a customer keeps `CUSTOMER_CAP`. */
  const ORDER_CAP: nat := 50
  const CUSTOMER_CAP: nat := 100

  /** The parsed `metrics_json` of a decision row; a key is `None` when missing or null, else its text. */
  datatype RowMetrics = RowMetrics(ordernum: Option<string>, customerId: Option<string>)

  /**
   * One row of the latest-decision query. `metrics` is `None` when
   * metrics_json is empty or does not parse; `evidenceRefs` is the parsed
   * evidence_refs_json, empty when it is empty, unparsable or not a list.
   */
  datatype DecisionRecord = DecisionRecord(
    tenantId: Cell<string>,
    subjectId: Cell<string>,
    decisionState: Cell<string>,
    metrics: Option<RowMetrics>,
    evidenceRefs: seq<string>,
    asOfTs: Option<int>,
    configVersion: Cell<string>)

  /** One child decision as a group records it. */
  datatype LineRef = LineRef(subjectId: string, state: string, evidenceRefs: seq<string>)

  /** A row that survived the skips, with its group key. */
  datatype Keyed = Keyed(
    key: string,
    tenantId: string,
    asOfTs: Option<int>,
    configVersion: string,
    customerId: Option<string>,
    line: LineRef)

  function KeyOf(it: Keyed): string
  {
    it.key
  }

  function KeyedRecord(tenant: string, row: DecisionRecord, key: string, customerId: Option<string>): Keyed
  {
    Keyed(key, StrOr(row.tenantId, tenant), row.asOfTs, StrOr(row.configVersion, ""), customerId,
          LineRef(StrOr(row.subjectId, ""), StrOr(row.decisionState, ""), row.evidenceRefs))
  }

  /** An order-line decision is skipped without a subject, without metrics or without an ordernum. */
  function OrderKeyed(tenant: string, row: DecisionRecord): (r: Option<Keyed>)
    ensures r.Some? <==> StrOr(row.subjectId, "") != "" && row.metrics.Some? && row.metrics.value.ordernum.Some?
    ensures r.Some? ==> r.value.key == row.metrics.value.ordernum.value
                        && r.value.customerId == row.metrics.value.customerId
                        && r.value.line.subjectId == StrOr(row.subjectId, "")
  {
    if StrOr(row.subjectId, "") == "" || row.metrics.None? || row.metrics.value.ordernum.None? then None
    else Some(KeyedRecord(tenant, row, row.metrics.value.ordernum.value, row.metrics.value.customerId))
  }

  /** An order decision is skipped without a subject, without metrics or without a customer id. */
  function CustomerKeyed(tenant: string, row: DecisionRecord): (r: Option<Keyed>)
    ensures r.Some? <==> StrOr(row.subjectId, "") != "" && row.metrics.Some? && row.metrics.value.customerId.Some?
    ensures r.Some? ==> r.value.key == row.metrics.value.customerId.value
                        && r.value.customerId.None?
                        && r.value.line.subjectId == StrOr(row.subjectId, "")
  {
    if StrOr(row.subjectId, "") == "" || row.metrics.None? || row.metrics.value.customerId.None? then None
    else Some(KeyedRecord(tenant, row, row.metrics.value.customerId.value, None))
  }

  // ---- Groups ---------------------------------------------------------------

  /** What the adapter keeps per key. */
  datatype Group = Group(
    tenantId: string,
    asOfTs: Option<int>,
    configVersion: string,
    customerIds: seq<string>,
    lines: seq<LineRef>)

  /** The timestamp update: a known later timestamp replaces an unknown or earlier one. */
  function LaterOf(a: Option<int>, b: Option<int>): (r: Option<int>)
    ensures r == a || r == b
    ensures r.None? <==> a.None? && b.None?
    ensures r.Some? ==> (a.Some? ==> a.value <= r.value) && (b.Some? ==> b.value <= r.value)
  {
    if b.Some? && (a.None? || b.value > a.value) then b else a
  }

  /** The group the first row of a key opens. */
  function Start(x: Keyed): Group
  {
    Group(x.tenantId, x.asOfTs, x.configVersion,
          if Truthy(x.customerId) then [x.customerId.value] else [], [x.line])
  }

  /** A later row of the key: latest timestamp, its customer id if non-empty, its line. */
  function Extend(g: Group, x: Keyed): Group
  {
    g.(asOfTs := LaterOf(g.asOfTs, x.asOfTs),
       customerIds := g.customerIds + (if Truthy(x.customerId) then [x.customerId.value] else []),
       lines := g.lines + [x.line])
  }

  /** Reference definitions: the lines, customer ids and latest timestamp of the rows with key `k`. */
  function LinesWith(items: seq<Keyed>, k: string): seq<LineRef>
  {
    if items == [] then []
    else
      var x := items[|items| - 1];
      LinesWith(items[..|items| - 1], k) + (if x.key == k then [x.line] else [])
  }

  function CustomerIdsWith(items: seq<Keyed>, k: string): seq<string>
  {
    if items == [] then []
    else
      var x := items[|items| - 1];
      CustomerIdsWith(items[..|items| - 1], k) + (if x.key == k && Truthy(x.customerId) then [x.customerId.value] else [])
  }

  function LatestWith(items: seq<Keyed>, k: string): Option<int>
  {
    if items == [] then None
    else
      var x := items[|items| - 1];
      var p := LatestWith(items[..|items| - 1], k);
      if x.key == k then LaterOf(p, x.asOfTs) else p
  }

  /** The group of key `k`: tenant and config version of its first row, everything else over all its rows. */
  function GroupOf(items: seq<Keyed>, k: string): Group
  {
    var first := FirstWith(items, KeyOf, k);
    Group(if first.Some? then first.value.tenantId else "",
          LatestWith(items, k),
          if first.Some? then first.value.configVersion else "",
          CustomerIdsWith(items, k),
          LinesWith(items, k))
  }

  function KeysOf(s: seq<Keyed>): (keys: seq<string>)
    ensures |keys| == |s| && forall i :: 0 <= i < |s| ==> keys[i] == s[i].key
  {
    seq(|s|, i requires 0 <= i < |s| => s[i].key)
  }

  lemma {:induction false} AbsentKeyEmpty(items: seq<Keyed>, k: string)
    requires FirstWith(items, KeyOf, k).None?
    ensures LinesWith(items, k) == [] && CustomerIdsWith(items, k) == [] && LatestWith(items, k).None?
    decreases |items|
  {
    if items != [] {
      var p := items[..|items| - 1];
      assert items == p + [items[|items| - 1]];
      FirstWithSnoc(p, items[|items| - 1], KeyOf, k);
      AbsentKeyEmpty(p, k);
    }
  }

  /** One more row changes only its own key's group: it opens it or extends it. */
  lemma GroupSnoc(items: seq<Keyed>, x: Keyed, k: string)
    ensures x.key != k ==> GroupOf(items + [x], k) == GroupOf(items, k)
    ensures x.key == k && FirstWith(items, KeyOf, k).Some? ==> GroupOf(items + [x], k) == Extend(GroupOf(items, k), x)
    ensures x.key == k && FirstWith(items, KeyOf, k).None? ==> GroupOf(items + [x], k) == Start(x)
  {
    assert (items + [x])[..|items|] == items;
    FirstWithSnoc(items, x, KeyOf, k);
    if x.key == k && FirstWith(items, KeyOf, k).None? {
      AbsentKeyEmpty(items, k);
    }
  }

  /** The dict and key list agree with the reference groups of `items`. */
  ghost predicate GroupsMatch(groups: map<string, Group>, keys: seq<string>, items: seq<Keyed>)
  {
    (forall k :: k in groups <==> FirstWith(items, KeyOf, k).Some?)
    && (forall k :: k in groups ==> groups[k] == GroupOf(items, k))
    && keys == KeysOf(KeepFirst(items, KeyOf))
  }

  /** Adding one row the way the loop does keeps the dict and key list in agreement. */
  lemma GroupStep(groups: map<string, Group>, keys: seq<string>, items: seq<Keyed>, x: Keyed)
    requires GroupsMatch(groups, keys, items)
    ensures x.key in groups ==> GroupsMatch(groups[x.key := Extend(groups[x.key], x)], keys, items + [x])
    ensures x.key !in groups ==> GroupsMatch(groups[x.key := Start(x)], keys + [x.key], items + [x])
  {
    var groups' := if x.key in groups then groups[x.key := Extend(groups[x.key], x)] else groups[x.key := Start(x)];
    forall k
      ensures k in groups' <==> FirstWith(items + [x], KeyOf, k).Some?
      ensures k in groups' ==> groups'[k] == GroupOf(items + [x], k)
    {
      GroupSnoc(items, x, k);
      FirstWithSnoc(items, x, KeyOf, k);
    }
    KeepFirstSnoc(items, x, KeyOf);
    SeenIsFirstWith(items, KeyOf, x.key);
    var kept := KeepFirst(items, KeyOf);
    if x.key !in groups {
      assert KeysOf(kept + [x]) == KeysOf(kept) + [x.key];
    }
  }

  /** The grouping loop: a dict of groups and the keys in the order they were first seen. */
  method GroupRows<R>(rows: seq<R>, tenant: string, keyed: (string, R) -> Option<Keyed>)
    returns (groups: map<string, Group>, keys: seq<string>)
    ensures forall k :: k in groups <==> FirstWith(Built(rows, tenant, keyed), KeyOf, k).Some?
    ensures forall k :: k in groups ==> groups[k] == GroupOf(Built(rows, tenant, keyed), k)
    ensures keys == KeysOf(KeepFirst(Built(rows, tenant, keyed), KeyOf))
  {
    groups := map[];
    keys := [];
    ghost var items: seq<Keyed> := [];
    var i := 0;
    while i < |rows|
      invariant 0 <= i <= |rows|
      invariant items == Built(rows[..i], tenant, keyed)
      invariant GroupsMatch(groups, keys, items)
    {
      assert rows[..i + 1] == rows[..i] + [rows[i]];
      BuiltSnoc(rows[..i], rows[i], tenant, keyed);
      var r := keyed(tenant, rows[i]);
      if r.Some? {
        var x := r.value;
        GroupStep(groups, keys, items, x);
        if x.key in groups {
          groups := groups[x.key := Extend(groups[x.key], x)];
        } else {
          groups := groups[x.key := Start(x)];
          keys := keys + [x.key];
        }
        items := items + [x];
      }
      i := i + 1;
    }
    assert rows[..i] == rows;
  }

  // ---- What the groups mean -------------------------------------------------

  /** A group's lines are exactly the lines of the rows with its key. */
  lemma {:induction false} LinesWithMembers(items: seq<Keyed>, k: string, l: LineRef)
    ensures l in LinesWith(items, k) <==> exists i :: 0 <= i < |items| && items[i].key == k && items[i].line == l
    decreases |items|
  {
    if items != [] {
      var p := items[..|items| - 1];
      LinesWithMembers(p, k, l);
      if exists i :: 0 <= i < |p| && p[i].key == k && p[i].line == l {
        var i :| 0 <= i < |p| && p[i].key == k && p[i].line == l;
        assert items[i] == p[i];
      }
      if exists i :: 0 <= i < |items| && items[i].key == k && items[i].line == l {
        var i :| 0 <= i < |items| && items[i].key == k && items[i].line == l;
        if i < |p| {
          assert items[i] == p[i];
        }
      }
    }
  }

  /**
   * A group's timestamp is the latest known timestamp of its rows, and is
   * missing exactly when none of its rows has one.
   */
  lemma {:induction false} LatestWithIsMax(items: seq<Keyed>, k: string)
    ensures LatestWith(items, k).None? <==> forall i :: 0 <= i < |items| && items[i].key == k ==> items[i].asOfTs.None?
    ensures LatestWith(items, k).Some? ==>
              (exists i :: 0 <= i < |items| && items[i].key == k && items[i].asOfTs == LatestWith(items, k))
              && forall i :: 0 <= i < |items| && items[i].key == k && items[i].asOfTs.Some? ==>
                   items[i].asOfTs.value <= LatestWith(items, k).value
    decreases |items|
  {
    if items != [] {
      var p := items[..|items| - 1];
      var x := items[|items| - 1];
      LatestWithIsMax(p, k);
      assert forall i :: 0 <= i < |p| ==> items[i] == p[i];
      if x.key == k && LatestWith(items, k) == x.asOfTs {
        assert items[|items| - 1] == x;
      } else if LatestWith(items, k).Some? {
        var i :| 0 <= i < |p| && p[i].key == k && p[i].asOfTs == LatestWith(p, k);
        assert items[i] == p[i];
      }
    }
  }

  /** The keys are distinct, each names a group, and together they are every key seen, in first-seen order. */
  lemma GroupKeys(items: seq<Keyed>)
    ensures var keys := KeysOf(KeepFirst(items, KeyOf));
            (forall i, j :: 0 <= i < j < |keys| ==> keys[i] != keys[j])
            && (forall i :: 0 <= i < |keys| ==> FirstWith(items, KeyOf, keys[i]).Some?)
            && (forall k :: FirstWith(items, KeyOf, k).Some? ==> k in keys)
  {
    var kept := KeepFirst(items, KeyOf);
    var keys := KeysOf(kept);
    KeepFirstDistinct(items, KeyOf);
    KeepFirstIsFirstRows(items, KeyOf);
    forall i | 0 <= i < |keys|
      ensures FirstWith(items, KeyOf, keys[i]).Some?
    {
      assert kept[i] in kept;
    }
    forall k | FirstWith(items, KeyOf, k).Some?
      ensures k in keys
    {
      var x := FirstWith(items, KeyOf, k).value;
      FirstWithIsEarliest(items, KeyOf, k);
      var i :| 0 <= i < |kept| && kept[i] == x;
      assert keys[i] == k;
    }
  }

  // ---- Counts, caps and the most frequent customer ---------------------------

  /** `sum(1 for line in lines if line.decision_state == s)`. */
  function CountState(lines: seq<LineRef>, s: string): nat
  {
    if lines == [] then 0
    else CountState(lines[..|lines| - 1], s) + (if lines[|lines| - 1].state == s then 1 else 0)
  }

  /** Three distinct states count disjoint lines, so their counts add up to at most the total. */
  lemma {:induction false} CountsBounded(lines: seq<LineRef>, a: string, b: string, c: string)
    requires a != b && b != c && a != c
    ensures CountState(lines, a) + CountState(lines, b) + CountState(lines, c) <= |lines|
    decreases |lines|
  {
    if lines != [] {
      CountsBounded(lines[..|lines| - 1], a, b, c);
    }
  }

  /** The subject ids of the at-risk lines, in line order. */
  function AtRiskIds(lines: seq<LineRef>): seq<string>
  {
    if lines == [] then []
    else
      var l := lines[|lines| - 1];
      AtRiskIds(lines[..|lines| - 1]) + (if l.state == AT_RISK then [l.subjectId] else [])
  }

  /** There is one at-risk id per at-risk line, and each is the id of an at-risk line. */
  lemma {:induction false} AtRiskIdsAreAtRiskLines(lines: seq<LineRef>)
    ensures |AtRiskIds(lines)| == CountState(lines, AT_RISK)
    ensures forall id :: id in AtRiskIds(lines) ==> exists l :: l in lines && l.state == AT_RISK && l.subjectId == id
    decreases |lines|
  {
    if lines != [] {
      var p := lines[..|lines| - 1];
      AtRiskIdsAreAtRiskLines(p);
      forall id | id in AtRiskIds(lines)
        ensures exists l :: l in lines && l.state == AT_RISK && l.subjectId == id
      {
        if id in AtRiskIds(p) {
          var l :| l in p && l.state == AT_RISK && l.subjectId == id;
          assert l in lines;
        } else {
          assert lines[|lines| - 1] in lines;
        }
      }
    }
  }

  function Occurrences(ids: seq<string>, x: string): nat
  {
    multiset(ids)[x]
  }

  /** The position of the first occurrence of `x`. */
  function IndexOf(ids: seq<string>, x: string): (i: nat)
    requires x in ids
    ensures i < |ids| && ids[i] == x
    ensures forall j :: 0 <= j < i ==> ids[j] != x
  {
    if ids[0] == x then 0
    else
      var i := IndexOf(ids[1..], x);
      assert forall j :: 0 < j <= i ==> ids[j] == ids[1..][j - 1];
      1 + i
  }

  /** The scan behind `Counter(ids).most_common(1)`: a later id wins only with a strictly greater count. */
  function BestFrom(ids: seq<string>, i: nat, best: string): string
    requires i <= |ids|
    decreases |ids| - i
  {
    if i == |ids| then best
    else BestFrom(ids, i + 1, if Occurrences(ids, ids[i]) > Occurrences(ids, best) then ids[i] else best)
  }

  /** The most frequent id, the first seen among equally frequent ones; none for no ids. */
  function MostCommon(ids: seq<string>): Option<string>
  {
    if ids == [] then None else Some(BestFrom(ids, 1, ids[0]))
  }

  lemma {:induction false} BestFromIsBest(ids: seq<string>, i: nat, best: string)
    requires i <= |ids| && best in ids && IndexOf(ids, best) < i
    requires forall j :: 0 <= j < i ==> Occurrences(ids, ids[j]) <= Occurrences(ids, best)
    requires forall j :: 0 <= j < i && Occurrences(ids, ids[j]) == Occurrences(ids, best) ==> IndexOf(ids, best) <= j
    ensures BestFrom(ids, i, best) in ids
    ensures forall j :: 0 <= j < |ids| ==> Occurrences(ids, ids[j]) <= Occurrences(ids, BestFrom(ids, i, best))
    ensures forall j :: 0 <= j < |ids| && Occurrences(ids, ids[j]) == Occurrences(ids, BestFrom(ids, i, best)) ==>
              IndexOf(ids, BestFrom(ids, i, best)) <= j
    decreases |ids| - i
  {
    if i < |ids| {
      var x := ids[i];
      if Occurrences(ids, x) > Occurrences(ids, best) {
        assert IndexOf(ids, x) <= i;
        BestFromIsBest(ids, i + 1, x);
      } else {
        BestFromIsBest(ids, i + 1, best);
      }
    }
  }

  /**
   * `most_common(1)`: an id of the list, occurring at least as often as any
   * other, and first seen no later than any equally frequent id.
   */
  lemma MostCommonIsFirstMostFrequent(ids: seq<string>)
    ensures MostCommon(ids).None? <==> ids == []
    ensures MostCommon(ids).Some? ==>
              var m := MostCommon(ids).value;
              m in ids
              && (forall x :: x in ids ==> Occurrences(ids, x) <= Occurrences(ids, m))
              && (forall x :: x in ids && Occurrences(ids, x) == Occurrences(ids, m) ==> IndexOf(ids, m) <= IndexOf(ids, x))
  {
    if ids != [] {
      BestFromIsBest(ids, 1, ids[0]);
      var m := MostCommon(ids).value;
      forall x | x in ids
        ensures Occurrences(ids, x) <= Occurrences(ids, m)
        ensures Occurrences(ids, x) == Occurrences(ids, m) ==> IndexOf(ids, m) <= IndexOf(ids, x)
      {
        var j := IndexOf(ids, x);
        assert ids[j] == x;
      }
    }
  }

  /** One source ref per line, in line order. */
  function OrderLineRefs(lines: seq<LineRef>): (refs: seq<OrderRisk.SourceLineRef>)
    ensures |refs| == |lines|
    ensures forall i :: 0 <= i < |lines| ==>
              refs[i] == OrderRisk.SourceLineRef(lines[i].subjectId, lines[i].state, lines[i].evidenceRefs)
  {
    seq(|lines|, i requires 0 <= i < |lines| => OrderRisk.SourceLineRef(lines[i].subjectId, lines[i].state, lines[i].evidenceRefs))
  }

  function CustomerOrderRefs(lines: seq<LineRef>): (refs: seq<CustomerImpact.SourceOrderRef>)
    ensures |refs| == |lines|
    ensures forall i :: 0 <= i < |lines| ==>
              refs[i] == CustomerImpact.SourceOrderRef(lines[i].subjectId, lines[i].state, lines[i].evidenceRefs)
  {
    seq(|lines|, i requires 0 <= i < |lines| => CustomerImpact.SourceOrderRef(lines[i].subjectId, lines[i].state, lines[i].evidenceRefs))
  }

  // ---- Building the inputs ----------------------------------------------------

  /**
   * The input of one order group: none without a timestamp; otherwise the
   * line counts, the most frequent customer and the first 50 at-risk ids
   * and source refs, as an "order" subject at canonical version "v1".
   */
  function OrderInputOf(k: string, g: Group): (r: Option<OrderRisk.OrderRiskInput>)
    ensures r.None? <==> g.asOfTs.None?
    ensures r.Some? ==>
              var o := r.value;
              o.subjectId == k && o.subjectType == "order" && o.canonicalVersion == "v1"
              && o.tenantId == g.tenantId && o.configVersion == g.configVersion && o.asOfTs == g.asOfTs.value
              && o.customerId == MostCommon(g.customerIds)
              && o.orderLineCountTotal == |g.lines|
              && o.orderLineCountAtRisk + o.orderLineCountUnknown + o.orderLineCountNotAtRisk <= o.orderLineCountTotal
              && o.atRiskLineSubjectIds <= AtRiskIds(g.lines)
              && |o.atRiskLineSubjectIds| == (if CountState(g.lines, AT_RISK) <= ORDER_CAP then CountState(g.lines, AT_RISK) else ORDER_CAP)
              && |o.sourceLineRefs| == (if |g.lines| <= ORDER_CAP then |g.lines| else ORDER_CAP)
              && o.sourceLineRefs <= OrderLineRefs(g.lines)
  {
    if g.asOfTs.None? then None
    else
      CountsBounded(g.lines, AT_RISK, UNKNOWN, NOT_AT_RISK);
      AtRiskIdsAreAtRiskLines(g.lines);
      Some(OrderRisk.OrderRiskInput(
        g.tenantId, "order", k, g.asOfTs.value, MostCommon(g.customerIds),
        |g.lines|, CountState(g.lines, AT_RISK), CountState(g.lines, UNKNOWN), CountState(g.lines, NOT_AT_RISK),
        SlicePrefix(AtRiskIds(g.lines), ORDER_CAP), SlicePrefix(OrderLineRefs(g.lines), ORDER_CAP),
        "v1", g.configVersion))
  }

  /** The input of one customer group, with both lists capped at 100 and no not-at-risk count. */
  function CustomerInputOf(k: string, g: Group): (r: Option<CustomerImpact.CustomerImpactInput>)
    ensures r.None? <==> g.asOfTs.None?
    ensures r.Some? ==>
              var c := r.value;
              c.subjectId == k && c.subjectType == "customer" && c.canonicalVersion == "v1"
              && c.tenantId == g.tenantId && c.configVersion == g.configVersion && c.asOfTs == g.asOfTs.value
              && c.orderCountTotal == |g.lines|
              && c.orderCountAtRisk + c.orderCountUnknown <= c.orderCountTotal
              && c.atRiskOrderSubjectIds <= AtRiskIds(g.lines)
              && |c.atRiskOrderSubjectIds| == (if CountState(g.lines, AT_RISK) <= CUSTOMER_CAP then CountState(g.lines, AT_RISK) else CUSTOMER_CAP)
              && |c.sourceOrderRefs| == (if |g.lines| <= CUSTOMER_CAP then |g.lines| else CUSTOMER_CAP)
              && c.sourceOrderRefs <= CustomerOrderRefs(g.lines)
  {
    if g.asOfTs.None? then None
    else
      CountsBounded(g.lines, AT_RISK, UNKNOWN, NOT_AT_RISK);
      AtRiskIdsAreAtRiskLines(g.lines);
      Some(CustomerImpact.CustomerImpactInput(
        g.tenantId, "customer", k, g.asOfTs.value,
        |g.lines|, CountState(g.lines, AT_RISK), CountState(g.lines, UNKNOWN),
        SlicePrefix(AtRiskIds(g.lines), CUSTOMER_CAP), SlicePrefix(CustomerOrderRefs(g.lines), CUSTOMER_CAP),
        "v1", g.configVersion))
  }

  /** The inputs of the groups of `keys`, in key order, groups without a timestamp left out. */
  function Emitted<I>(items: seq<Keyed>, keys: seq<string>, inputOf: (string, Group) -> Option<I>): seq<I>
  {
    if keys == [] then []
    else
      var k := keys[|keys| - 1];
      var r := inputOf(k, GroupOf(items, k));
      Emitted(items, keys[..|keys| - 1], inputOf) + (if r.Some? then [r.value] else [])
  }

  /** What a roll-up fetch returns for the rows that survived the skips. */
  function Rollup<I>(items: seq<Keyed>, inputOf: (string, Group) -> Option<I>): seq<I>
  {
    Emitted(items, KeysOf(KeepFirst(items, KeyOf)), inputOf)
  }

  /** The loop over the groups, in the order their keys were first seen. */
  method EmitInputs<I>(ghost items: seq<Keyed>, groups: map<string, Group>, keys: seq<string>,
                       inputOf: (string, Group) -> Option<I>)
    returns (inputs: seq<I>)
    requires forall k :: k in keys ==> k in groups && groups[k] == GroupOf(items, k)
    ensures inputs == Emitted(items, keys, inputOf)
  {
    inputs := [];
    var i := 0;
    while i < |keys|
      invariant 0 <= i <= |keys|
      invariant inputs == Emitted(items, keys[..i], inputOf)
    {
      assert keys[..i + 1][..i] == keys[..i];
      var k := keys[i];
      var r := inputOf(k, groups[k]);
      if r.Some? {
        inputs := inputs + [r.value];
      }
      i := i + 1;
    }
    assert keys[..i] == keys;
  }

  /** The grouped keys all name their reference group, so the emitting loop may read them. */
  lemma GroupedKeysReadable<R>(rows: seq<R>, tenant: string, keyed: (string, R) -> Option<Keyed>,
                               groups: map<string, Group>, keys: seq<string>)
    requires forall k :: k in groups <==> FirstWith(Built(rows, tenant, keyed), KeyOf, k).Some?
    requires forall k :: k in groups ==> groups[k] == GroupOf(Built(rows, tenant, keyed), k)
    requires keys == KeysOf(KeepFirst(Built(rows, tenant, keyed), KeyOf))
    ensures forall k :: k in keys ==> k in groups && groups[k] == GroupOf(Built(rows, tenant, keyed), k)
  {
    GroupKeys(Built(rows, tenant, keyed));
  }

  lemma {:induction false} EmittedMembers<I>(items: seq<Keyed>, keys: seq<string>, inputOf: (string, Group) -> Option<I>, y: I)
    ensures y in Emitted(items, keys, inputOf) <==> exists k :: k in keys && inputOf(k, GroupOf(items, k)) == Some(y)
    decreases |keys|
  {
    if keys != [] {
      var p := keys[..|keys| - 1];
      var k := keys[|keys| - 1];
      EmittedMembers(items, p, inputOf, y);
      assert keys == p + [k];
      if exists k' :: k' in keys && inputOf(k', GroupOf(items, k')) == Some(y) {
        var k' :| k' in keys && inputOf(k', GroupOf(items, k')) == Some(y);
        if k' != k {
          assert k' in p;
        }
      }
    }
  }

  /**
   * A roll-up emits, for each key seen, the input of its group when that
   * group has a timestamp, and nothing else.
   */
  lemma RollupMembers<I>(items: seq<Keyed>, inputOf: (string, Group) -> Option<I>, y: I)
    ensures y in Rollup(items, inputOf) <==>
              exists k :: FirstWith(items, KeyOf, k).Some? && inputOf(k, GroupOf(items, k)) == Some(y)
  {
    var keys := KeysOf(KeepFirst(items, KeyOf));
    GroupKeys(items);
    EmittedMembers(items, keys, inputOf, y);
  }
}
