// The run orchestrator (application/runner.py): one run of one primitive
// for one tenant, from acquiring the lock to publishing the summary.
//
// The ports are records of the behaviour the run observes from them: the
// outcome of each call, the config a lookup yields, the rows a fetch method
// streams.  Every call the run makes is recorded, in order, in an event trace
// that the run returns beside its outcome.
module Runner {
  import opened Wrappers
  import opened Common
  import opened PrimitiveRegistry
  import Exclusions

  // ---- Ports --------------------------------------------------------------

  /** What calling an evaluator on one input does: return a result, return None, or raise. */
  datatype EvalOutcome =
    | Returned(result: PrimitiveResult)
    | ReturnedNone
    | Raised(message: string)

  /** A fetch method's stream: the inputs it yields, then optionally the error it raises. */
  datatype Stream<I> = Stream(items: seq<I>, failure: Option<string>)

  /** The lock manager; `acquire` may raise. */
  datatype LockManager = LockManager(acquireError: Option<string>)

  /** The config provider: `get_config(tenant, config version, primitive name)` and the config's canonical version. */
  datatype ConfigProvider<!C> = ConfigProvider(
    getConfig: (string, string, string) -> Result<C, string>,
    canonicalVersion: C -> string)

  /** The inputs repository: its fetch methods, by attribute name. */
  datatype InputsRepository<I> = InputsRepository(methods: map<string, RunContext -> Stream<I>>)

  /**
   * The outputs repository: whether it has each optional run-registry method,
   * and the error each of its calls raises, if any.
   */
  datatype OutputsRepository = OutputsRepository(
    hasRunStarted: bool,
    runStartedError: Option<string>,
    writeDecisionsError: Option<string>,
    writeEvidenceError: Option<string>,
    hasRunCompleted: bool,
    runCompletedError: Option<string>,
    hasRunFailed: bool,
    runFailedError: Option<string>)

  /** The event publisher; `publish_decision_ready` may raise. */
  datatype EventPublisher = EventPublisher(publishError: Option<string>)

  // ---- Outcomes and the trace --------------------------------------------

  /** What a run raises. */
  datatype RunError =
    | PortError(message: string)
    | Registry(error: RegistryError)
    | AttributeError(message: string)
    | RunCancelledError(message: string)
    | EvaluatorError(message: string)

  /** The operational-risk counts a summary carries for backward compatibility. */
  datatype LegacyCounts = LegacyCounts(atRisk: int, notAtRisk: int, unknown: int)

  /** The summary dictionary a successful run returns and publishes. */
  datatype Summary = Summary(
    tenantId: string,
    primitiveName: string,
    primitiveVersion: string,
    configVersion: string,
    count: nat,
    stateCounts: map<string, int>,
    durationMs: int,
    legacy: Option<LegacyCounts>)

  /** One call the run makes, with the arguments it passes. */
  datatype Event<I> =
    | Acquired
    | ConfigRequested(tenantId: string, configVersion: string, primitiveName: string)
    | RunStartedRegistered(canonicalVersion: string)
    | VersionChecked(name: string, version: string, configVersion: string)
    | EvaluatorLookedUp(name: string, version: string)
    | FetchMethodLookedUp(name: string)
    | FetchCalled(methodName: string)
    | CancellationChecked(index: nat)
    | Evaluated(index: nat)
    | DecisionsWritten(decisions: seq<DecisionResult>, inputs: seq<I>)
    | EvidenceWritten(evidenceSets: seq<EvidenceSet>, inputs: seq<I>, decisions: seq<DecisionResult>)
    | RunCompletedRegistered(startedAt: int, inputCount: nat, decisionCount: nat, atRisk: int, notAtRisk: int, unknown: int)
    | Published(summary: Summary)
    | RunFailedRegistered(startedAt: int, error: RunError)
    | Released

  /**
   * The place of an event in the order the run makes its calls: a phase, and
   * within the evaluation phase two slots per input (check, then evaluate).
   */
  function Phase<I>(e: Event<I>): int
  {
    match e
    case Acquired => 0
    case ConfigRequested(_, _, _) => 1
    case RunStartedRegistered(_) => 2
    case VersionChecked(_, _, _) => 3
    case EvaluatorLookedUp(_, _) => 4
    case FetchMethodLookedUp(_) => 5
    case FetchCalled(_) => 6
    case CancellationChecked(_) => 7
    case Evaluated(_) => 7
    case DecisionsWritten(_, _) => 8
    case EvidenceWritten(_, _, _) => 9
    case RunCompletedRegistered(_, _, _, _, _, _) => 10
    case Published(_) => 11
    case RunFailedRegistered(_, _) => 12
    case Released => 13
  }

  function Slot<I>(e: Event<I>): int
  {
    match e
    case CancellationChecked(k) => 2 * k
    case Evaluated(k) => 2 * k + 1
    case _ => 0
  }

  predicate RankLt<I>(a: Event<I>, b: Event<I>)
  {
    Phase(a) < Phase(b) || (Phase(a) == Phase(b) && Slot(a) < Slot(b))
  }

  /** Each event strictly after the one before it in the call order. */
  predicate Increasing<I>(events: seq<Event<I>>)
  {
    forall p :: 0 <= p < |events| - 1 ==> RankLt(events[p], events[p + 1])
  }

  /**
   * A trace whose neighbours are in call order is in call order throughout,
   * so no call is made twice (no two events share a rank).
   */
  lemma {:induction false} IncreasingOrdered<I>(events: seq<Event<I>>)
    requires Increasing(events)
    ensures forall p, q :: 0 <= p < q < |events| ==> RankLt(events[p], events[q])
    ensures forall p, q :: 0 <= p < q < |events| ==> (Phase(events[p]), Slot(events[p])) != (Phase(events[q]), Slot(events[q]))
    decreases |events|
  {
    if |events| > 1 {
      var n := |events|;
      var prefix := events[..n - 1];
      assert Increasing(prefix) by {
        forall p | 0 <= p < |prefix| - 1
          ensures RankLt(prefix[p], prefix[p + 1])
        {
          assert prefix[p] == events[p] && prefix[p + 1] == events[p + 1];
        }
      }
      IncreasingOrdered(prefix);
      forall p, q | 0 <= p < q < n
        ensures RankLt(events[p], events[q])
      {
        if q < n - 1 {
          assert prefix[p] == events[p] && prefix[q] == events[q];
        } else if p < n - 2 {
          assert prefix[p] == events[p] && prefix[n - 2] == events[n - 2];
          assert RankLt(events[p], events[n - 2]);
        }
      }
    }
  }

  lemma IncreasingAppend<I>(a: seq<Event<I>>, b: seq<Event<I>>)
    requires Increasing(a) && Increasing(b)
    requires a != [] && b != [] ==> RankLt(a[|a| - 1], b[0])
    ensures Increasing(a + b)
  {
    forall p | 0 <= p < |a + b| - 1
      ensures RankLt((a + b)[p], (a + b)[p + 1])
    {
      if p + 1 < |a| {
        assert (a + b)[p] == a[p] && (a + b)[p + 1] == a[p + 1];
      } else if p >= |a| {
        assert (a + b)[p] == b[p - |a|] && (a + b)[p + 1] == b[p - |a| + 1];
      }
    }
  }

  /** Two traces in call order, the first wholly in earlier phases than the second, join in call order. */
  lemma IncreasingJoin<I>(a: seq<Event<I>>, b: seq<Event<I>>, phase: int)
    requires Increasing(a) && Increasing(b)
    requires forall e :: e in a ==> Phase(e) < phase
    requires forall e :: e in b ==> Phase(e) >= phase
    ensures Increasing(a + b)
  {
    if a != [] && b != [] {
      assert a[|a| - 1] in a && b[0] in b;
    }
    IncreasingAppend(a, b);
  }

  /** Two traces in each of which every evaluated input has been checked join into one where that holds. */
  lemma CheckedJoin<I>(a: seq<Event<I>>, b: seq<Event<I>>)
    requires forall e :: e in a && e.Evaluated? ==> CancellationChecked(e.index) in a
    requires forall e :: e in b && e.Evaluated? ==> CancellationChecked(e.index) in b
    ensures forall e :: e in a + b && e.Evaluated? ==> CancellationChecked(e.index) in a + b
  {
  }

  // ---- The evaluation loop's trace ---------------------------------------

  /** The calls made for input k: the cancellation check (when one is configured), then the evaluation. */
  function Step<I>(k: nat, checked: bool): seq<Event<I>>
  {
    if checked then [CancellationChecked(k), Evaluated(k)] else [Evaluated(k)]
  }

  /** The calls made for the first n inputs. */
  function Steps<I>(n: nat, checked: bool): seq<Event<I>>
  {
    if n == 0 then [] else Steps(n - 1, checked) + Step(n - 1, checked)
  }

  /** The loop makes two calls per input with a check configured, one without. */
  lemma {:induction false} StepsLength<I>(n: nat, checked: bool)
    ensures |Steps<I>(n, checked)| == if checked then 2 * n else n
  {
    if n > 0 {
      StepsLength<I>(n - 1, checked);
    }
  }

  /** With a check configured, input k's check is at position 2k and its evaluation at 2k+1. */
  lemma {:induction false} StepsCheckedAt<I>(n: nat)
    ensures |Steps<I>(n, true)| == 2 * n
    ensures forall k :: 0 <= k < n ==> Steps<I>(n, true)[2 * k] == CancellationChecked(k)
    ensures forall k :: 0 <= k < n ==> Steps<I>(n, true)[2 * k + 1] == Evaluated(k)
  {
    if n > 0 {
      StepsCheckedAt<I>(n - 1);
      var p := Steps<I>(n - 1, true);
      var s := Steps<I>(n, true);
      assert s == p + [CancellationChecked(n - 1), Evaluated(n - 1)];
      PairAppendAt(p, CancellationChecked(n - 1), Evaluated(n - 1));
      forall k | 0 <= k < n
        ensures s[2 * k] == CancellationChecked(k) && s[2 * k + 1] == Evaluated(k)
      {
        if k < n - 1 {
          assert 2 * k + 1 < |p|;
        } else {
          assert 2 * k == |p|;
        }
      }
    }
  }

  /** Appending two elements keeps the first |p| positions and puts the two right after. */
  lemma PairAppendAt<T>(p: seq<T>, x: T, y: T)
    ensures |p + [x, y]| == |p| + 2 && (p + [x, y])[|p|] == x && (p + [x, y])[|p| + 1] == y
    ensures forall i :: 0 <= i < |p| ==> (p + [x, y])[i] == p[i]
  {
  }

  /** Without a check, input k's evaluation is at position k. */
  lemma {:induction false} StepsUncheckedAt<I>(n: nat)
    ensures |Steps<I>(n, false)| == n
    ensures forall k :: 0 <= k < n ==> Steps<I>(n, false)[k] == Evaluated(k)
  {
    StepsLength<I>(n, false);
    if n > 0 {
      StepsUncheckedAt<I>(n - 1);
      var p := Steps<I>(n - 1, false);
      forall k | 0 <= k < n - 1
        ensures Steps<I>(n, false)[k] == p[k]
      {
      }
    }
  }

  /** The loop calls in order: input by input, each input's check before its evaluation. */
  lemma {:induction false} StepsIncreasing<I>(n: nat, checked: bool)
    ensures Increasing(Steps<I>(n, checked))
  {
    if n > 0 {
      StepsIncreasing<I>(n - 1, checked);
      var p := Steps<I>(n - 1, checked);
      var s := Step<I>(n - 1, checked);
      if n > 1 {
        StepsLast<I>(n - 1, checked);
        assert RankLt(p[|p| - 1], s[0]);
      } else {
        assert p == [];
      }
      IncreasingAppend(p, s);
    }
  }

  /** The loop's last call for the first n inputs is the evaluation of input n - 1. */
  lemma StepsLast<I>(n: nat, checked: bool)
    requires n > 0
    ensures Steps<I>(n, checked) != [] && Steps<I>(n, checked)[|Steps<I>(n, checked)| - 1] == Evaluated(n - 1)
  {
    var p := Steps<I>(n - 1, checked);
    assert Steps<I>(n, checked) == p + Step<I>(n - 1, checked);
  }

  /** With a check configured, each evaluation comes right after the check of the same input. */
  lemma StepsCheckBeforeEvaluate<I>(n: nat)
    ensures forall q :: 0 <= q < |Steps<I>(n, true)| && Steps<I>(n, true)[q].Evaluated? ==>
              q > 0 && Steps<I>(n, true)[q - 1] == CancellationChecked(Steps<I>(n, true)[q].index)
  {
    StepsCheckedAt<I>(n);
    var s := Steps<I>(n, true);
    forall q | 0 <= q < |s| && s[q].Evaluated?
      ensures q > 0 && s[q - 1] == CancellationChecked(s[q].index)
    {
      var k := q / 2;
      assert s[2 * k] == CancellationChecked(k) && s[2 * k + 1] == Evaluated(k);
    }
  }

  /** With a check configured, every input evaluated has been checked. */
  lemma StepsEvaluatedChecked<I>(n: nat)
    ensures forall e :: e in Steps<I>(n, true) && e.Evaluated? ==> CancellationChecked(e.index) in Steps<I>(n, true)
  {
    StepsMeaning<I>(n, true);
  }

  /** With a check configured, the loop's calls are exactly the checks and evaluations of the first n inputs. */
  lemma StepsMembersChecked<I>(n: nat)
    ensures forall e :: e in Steps<I>(n, true) ==> (e.CancellationChecked? || e.Evaluated?) && e.index < n
    ensures forall k :: 0 <= k < n ==> Evaluated(k) in Steps<I>(n, true) && CancellationChecked(k) in Steps<I>(n, true)
  {
    StepsCheckedAt<I>(n);
    var s := Steps<I>(n, true);
    forall e | e in s
      ensures (e.CancellationChecked? || e.Evaluated?) && e.index < n
    {
      var q :| 0 <= q < |s| && s[q] == e;
      assert s[2 * (q / 2)] == CancellationChecked(q / 2) && s[2 * (q / 2) + 1] == Evaluated(q / 2);
    }
    forall k | 0 <= k < n
      ensures Evaluated(k) in s && CancellationChecked(k) in s
    {
      assert s[2 * k + 1] == Evaluated(k) && s[2 * k] == CancellationChecked(k);
    }
  }

  /** Without a check, the loop's calls are exactly the evaluations of the first n inputs. */
  lemma StepsMembersUnchecked<I>(n: nat)
    ensures forall e :: e in Steps<I>(n, false) ==> e.Evaluated? && e.index < n
    ensures forall k :: 0 <= k < n ==> Evaluated(k) in Steps<I>(n, false)
  {
    StepsUncheckedAt<I>(n);
    var s := Steps<I>(n, false);
    forall e | e in s
      ensures e.Evaluated? && e.index < n
    {
      var q :| 0 <= q < |s| && s[q] == e;
      assert s[q] == Evaluated(q);
    }
    forall k | 0 <= k < n
      ensures Evaluated(k) in s
    {
      assert s[k] == Evaluated(k);
    }
  }

  /**
   * What the loop's calls say: only checks and evaluations of the first n
   * inputs, every input evaluated (and checked, when a check is configured),
   * in call order.
   */
  lemma StepsMeaning<I>(n: nat, checked: bool)
    ensures forall e :: e in Steps<I>(n, checked) ==>
              (e.CancellationChecked? || e.Evaluated?) && e.index < n && (e.CancellationChecked? ==> checked)
    ensures forall k :: 0 <= k < n ==> Evaluated(k) in Steps<I>(n, checked)
    ensures checked ==> forall k :: 0 <= k < n ==> CancellationChecked(k) in Steps<I>(n, checked)
    ensures Increasing(Steps<I>(n, checked))
  {
    StepsIncreasing<I>(n, checked);
    if checked {
      StepsMembersChecked<I>(n);
    } else {
      StepsMembersUnchecked<I>(n);
    }
  }

  // ---- Results, decisions and counts ---------------------------------------

  /** The entry an evaluation leaves in the results list: the result, or None. */
  function AsResult(o: EvalOutcome): Option<PrimitiveResult>
    requires !o.Raised?
  {
    if o.Returned? then Some(o.result) else None
  }

  /**
   * `[r.decision for r in results]`: the decisions, or None when some entry is
   * None (reading `.decision` of None raises).
   */
  function Decisions(results: seq<Option<PrimitiveResult>>): (ds: Option<seq<DecisionResult>>)
    ensures ds.Some? <==> forall k :: 0 <= k < |results| ==> results[k].Some?
    ensures ds.Some? ==> |ds.value| == |results|
                         && forall k :: 0 <= k < |results| ==> ds.value[k] == results[k].value.decision
  {
    if results == [] then Some([])
    else
      var prefix := Decisions(results[..|results| - 1]);
      var last := results[|results| - 1];
      if prefix.None? || last.None? then None else Some(prefix.value + [last.value.decision])
  }

  /** `[r.evidence_set for r in results]`, once every entry is a result. */
  function EvidenceSets(results: seq<Option<PrimitiveResult>>): (sets: seq<EvidenceSet>)
    requires forall k :: 0 <= k < |results| ==> results[k].Some?
    ensures |sets| == |results| && forall k :: 0 <= k < |results| ==> sets[k] == results[k].value.evidenceSet
  {
    seq(|results|, k requires 0 <= k < |results| => results[k].value.evidenceSet)
  }

  function StatesOf(ds: seq<DecisionResult>): (states: seq<string>)
    ensures |states| == |ds| && forall k :: 0 <= k < |ds| ==> states[k] == ds[k].state
  {
    seq(|ds|, k requires 0 <= k < |ds| => ds[k].state)
  }

  /** The order in which a dictionary first receives each state as a key. */
  function InsertionOrder(s: seq<string>): seq<string>
  {
    if s == [] then []
    else
      var p := s[..|s| - 1];
      InsertionOrder(p) + (if s[|s| - 1] in p then [] else [s[|s| - 1]])
  }

  /** The sum of the counts at the keys `ks`. */
  function SumAt(m: map<string, int>, ks: seq<string>): int
  {
    if ks == [] then 0 else SumAt(m, ks[..|ks| - 1]) + Exclusions.Get(m, ks[|ks| - 1])
  }

  lemma {:induction false} InsertionOrderKeys(s: seq<string>)
    ensures forall x :: x in InsertionOrder(s) <==> x in s
    ensures forall i, j :: 0 <= i < j < |InsertionOrder(s)| ==> InsertionOrder(s)[i] != InsertionOrder(s)[j]
  {
    if s != [] {
      var p := s[..|s| - 1];
      InsertionOrderKeys(p);
      assert s == p + [s[|s| - 1]];
    }
  }

  /** Changing the count at one key of a repetition-free key list changes the sum by the difference. */
  lemma {:induction false} SumAtUpdate(m: map<string, int>, ks: seq<string>, r: string, v: int)
    requires forall i, j :: 0 <= i < j < |ks| ==> ks[i] != ks[j]
    ensures SumAt(m[r := v], ks) == SumAt(m, ks) + (if r in ks then v - Exclusions.Get(m, r) else 0)
  {
    if ks != [] {
      var p := ks[..|ks| - 1];
      SumAtUpdate(m, p, r, v);
      assert ks == p + [ks[|ks| - 1]];
      assert r in ks <==> r in p || r == ks[|ks| - 1];
    }
  }

  /** A key listed last adds its count to the sum. */
  lemma SumAtSnoc(m: map<string, int>, ks: seq<string>, k: string)
    ensures SumAt(m, ks + [k]) == SumAt(m, ks) + Exclusions.Get(m, k)
  {
    assert (ks + [k])[..|ks|] == ks;
  }

  /** Summed over the keys in insertion order, the counts add up to the number of states. */
  lemma {:induction false} StateCountsSum(states: seq<string>)
    ensures SumAt(Exclusions.Tally(states), InsertionOrder(states)) == |states|
  {
    if states != [] {
      var p := states[..|states| - 1];
      var r := states[|states| - 1];
      StateCountsSum(p);
      assert states == p + [r];
      Exclusions.TallySnoc(p, r);
      InsertionOrderSnoc(p, r);
      InsertionOrderKeys(p);
      var m := Exclusions.Tally(p);
      var t := m[r := Exclusions.Get(m, r) + 1];
      assert Exclusions.Tally(states) == t;
      if r !in p {
        Exclusions.TallyCounts(p);
        NewKeySum(m, InsertionOrder(p), r);
        assert InsertionOrder(states) == InsertionOrder(p) + [r];
        assert SumAt(t, InsertionOrder(p) + [r]) == |states|;
      } else {
        OldKeySum(m, InsertionOrder(p), r);
        assert InsertionOrder(states) == InsertionOrder(p);
        assert SumAt(t, InsertionOrder(p)) == |states|;
      }
    }
  }

  /** A new state is listed last; a repeated one leaves the key order as it was. */
  lemma InsertionOrderSnoc(p: seq<string>, r: string)
    ensures r in p ==> InsertionOrder(p + [r]) == InsertionOrder(p)
    ensures r !in p ==> InsertionOrder(p + [r]) == InsertionOrder(p) + [r]
  {
    assert (p + [r])[..|p|] == p;
  }

  /** A key not yet counted, counted once and listed last, adds one to the sum. */
  lemma NewKeySum(m: map<string, int>, ks: seq<string>, r: string)
    requires r !in ks && Exclusions.Get(m, r) == 0
    requires forall i, j :: 0 <= i < j < |ks| ==> ks[i] != ks[j]
    ensures SumAt(m[r := Exclusions.Get(m, r) + 1], ks + [r]) == SumAt(m, ks) + 1
  {
    SumAtUpdate(m, ks, r, 1);
    SumAtSnoc(m[r := 1], ks, r);
  }

  /** One more count of a listed key adds one to the sum. */
  lemma OldKeySum(m: map<string, int>, ks: seq<string>, r: string)
    requires r in ks
    requires forall i, j :: 0 <= i < j < |ks| ==> ks[i] != ks[j]
    ensures SumAt(m[r := Exclusions.Get(m, r) + 1], ks) == SumAt(m, ks) + 1
  {
    SumAtUpdate(m, ks, r, Exclusions.Get(m, r) + 1);
  }

  /**
   * The state counts have a key for each state present, count its decisions,
   * and, summed over the dictionary's keys, add up to the number of decisions.
   */
  lemma StateCountsTotal(states: seq<string>)
    ensures forall st :: st in Exclusions.Tally(states) <==> st in states
    ensures forall st :: Exclusions.Get(Exclusions.Tally(states), st) == multiset(states)[st]
    ensures forall x :: x in InsertionOrder(states) <==> x in Exclusions.Tally(states)
    ensures SumAt(Exclusions.Tally(states), InsertionOrder(states)) == |states|
  {
    Exclusions.TallyCounts(states);
    InsertionOrderKeys(states);
    StateCountsSum(states);
  }

  /** The state counts loop: one increment per decision, in order. */
  method CountStates(decisions: seq<DecisionResult>) returns (counts: map<string, int>)
    ensures counts == Exclusions.Tally(StatesOf(decisions))
  {
    counts := map[];
    var i := 0;
    while i < |decisions|
      invariant 0 <= i <= |decisions|
      invariant counts == Exclusions.Tally(StatesOf(decisions[..i]))
    {
      var st := decisions[i].state;
      assert StatesOf(decisions[..i + 1]) == StatesOf(decisions[..i]) + [st];
      Exclusions.TallySnoc(StatesOf(decisions[..i]), st);
      counts := counts[st := Exclusions.Get(counts, st) + 1];
      i := i + 1;
    }
    assert decisions[..i] == decisions;
  }

  /** A summary as a successful run of `ctx` with these decisions reports it. */
  predicate IsSummary(s: Summary, ctx: RunContext, decisions: seq<DecisionResult>, durationMs: int)
  {
    var counts := Exclusions.Tally(StatesOf(decisions));
    && s.tenantId == ctx.tenantId
    && s.primitiveName == ctx.primitiveName
    && s.primitiveVersion == ctx.primitiveVersion
    && s.configVersion == ctx.configVersion
    && s.count == |decisions|
    && s.stateCounts == counts
    && s.durationMs == durationMs
    && (s.legacy.Some? <==> ctx.primitiveName == "operational_risk")
    && (s.legacy.Some? ==> s.legacy.value == LegacyCounts(
          Exclusions.Get(counts, "AT_RISK"), Exclusions.Get(counts, "NOT_AT_RISK"), Exclusions.Get(counts, "UNKNOWN")))
  }

  /** A summary's state counts add up to its count, over the keys in the order they were inserted. */
  lemma SummaryCountsAddUp(s: Summary, ctx: RunContext, decisions: seq<DecisionResult>, durationMs: int)
    requires IsSummary(s, ctx, decisions, durationMs)
    ensures forall st :: st in s.stateCounts <==> st in StatesOf(decisions)
    ensures SumAt(s.stateCounts, InsertionOrder(StatesOf(decisions))) == s.count
  {
    StateCountsTotal(StatesOf(decisions));
  }

  /** Every call after the loop succeeds: a decision for each input, both writes, completion and publication. */
  predicate ConcludeSucceeds(outputs: OutputsRepository, publisher: EventPublisher, results: seq<Option<PrimitiveResult>>)
  {
    && Decisions(results).Some?
    && outputs.writeDecisionsError.None? && outputs.writeEvidenceError.None?
    && (outputs.hasRunCompleted ==> outputs.runCompletedError.None?)
    && publisher.publishError.None?
  }

  /**
   * What must hold for a call after the loop, given the whole stream's inputs
   * and results: the lists written are aligned index for index with the
   * inputs, and each call is made only once the calls before it succeeded.
   */
  predicate PostFact<I(==)>(ctx: RunContext, outputs: OutputsRepository, inputs: seq<I>, results: seq<Option<PrimitiveResult>>,
                            startedAt: int, finishedAt: int, e: Event<I>)
  {
    match e
    case DecisionsWritten(ds, ins) => Decisions(results) == Some(ds) && ins == inputs
    case EvidenceWritten(evs, ins, ds) =>
      Decisions(results) == Some(ds) && ins == inputs && outputs.writeDecisionsError.None? && evs == EvidenceSets(results)
    case RunCompletedRegistered(_, _, _, _, _, _) =>
      && outputs.hasRunCompleted && Decisions(results).Some?
      && outputs.writeDecisionsError.None? && outputs.writeEvidenceError.None?
      && var ds := Decisions(results).value;
         var counts := Exclusions.Tally(StatesOf(ds));
         e == RunCompletedRegistered(startedAt, |inputs|, |ds|, Exclusions.Get(counts, "AT_RISK"),
                                     Exclusions.Get(counts, "NOT_AT_RISK"), Exclusions.Get(counts, "UNKNOWN"))
    case Published(summary) =>
      && Decisions(results).Some?
      && outputs.writeDecisionsError.None? && outputs.writeEvidenceError.None?
      && (outputs.hasRunCompleted ==> outputs.runCompletedError.None?)
      && IsSummary(summary, ctx, Decisions(results).value, finishedAt - startedAt)
    case _ => false
  }

  // ---- The runner ---------------------------------------------------------

  class Runner<I(==), C> {
    const configProvider: ConfigProvider<C>
    const inputsRepo: InputsRepository<I>
    const outputsRepo: OutputsRepository
    const eventPublisher: EventPublisher
    const lockManager: LockManager
    const registry: Registry
    /** The optional cancellation check; its k-th call answers `cancellationCheck.value(k)`. */
    const cancellationCheck: Option<nat -> bool>
    /** What calling a registered evaluator on an input and a config does. */
    const call: (Evaluator, I, C) -> EvalOutcome

    constructor (configProvider: ConfigProvider<C>, inputsRepo: InputsRepository<I>, outputsRepo: OutputsRepository,
                 eventPublisher: EventPublisher, lockManager: LockManager, registry: Registry,
                 cancellationCheck: Option<nat -> bool>, call: (Evaluator, I, C) -> EvalOutcome)
      ensures this.configProvider == configProvider && this.inputsRepo == inputsRepo
      ensures this.outputsRepo == outputsRepo && this.eventPublisher == eventPublisher
      ensures this.lockManager == lockManager && this.registry == registry
      ensures this.cancellationCheck == cancellationCheck && this.call == call
    {
      this.configProvider := configProvider;
      this.inputsRepo := inputsRepo;
      this.outputsRepo := outputsRepo;
      this.eventPublisher := eventPublisher;
      this.lockManager := lockManager;
      this.registry := registry;
      this.cancellationCheck := cancellationCheck;
      this.call := call;
    }

    /** The answer of the cancellation check's k-th call; no check means never cancelled. */
    predicate Cancelled(k: nat)
    {
      cancellationCheck.Some? && cancellationCheck.value(k)
    }

    /** The calls before the try block all succeed: acquire, get_config and register_run_started. */
    predicate EnteredTry(ctx: RunContext)
    {
      && lockManager.acquireError.None?
      && configProvider.getConfig(ctx.tenantId, ctx.configVersion, ctx.primitiveName).Ok?
      && (outputsRepo.hasRunStarted ==> outputsRepo.runStartedError.None?)
    }

    /** The error raised before the try block, when it is not entered. */
    function PreTryError(ctx: RunContext): RunError
    {
      if lockManager.acquireError.Some? then PortError(lockManager.acquireError.value)
      else if configProvider.getConfig(ctx.tenantId, ctx.configVersion, ctx.primitiveName).Err?
      then PortError(configProvider.getConfig(ctx.tenantId, ctx.configVersion, ctx.primitiveName).error)
      else if outputsRepo.hasRunStarted && outputsRepo.runStartedError.Some? then PortError(outputsRepo.runStartedError.value)
      else PortError("")
    }

    /** The stream of a run that passes the version check and finds its fetch method, if it does. */
    function StreamFor(ctx: RunContext): Option<Stream<I>>
      reads registry
    {
      var fetch := registry.GetInputFetchMethod(ctx.primitiveName);
      if registry.EnsureVersion(ctx.primitiveName, ctx.primitiveVersion, ctx.configVersion).None?
         && fetch.Ok? && fetch.value in inputsRepo.methods
      then Some(inputsRepo.methods[fetch.value](ctx))
      else None
    }

    function ItemsFor(ctx: RunContext): seq<I>
      reads registry
    {
      if StreamFor(ctx).Some? then StreamFor(ctx).value.items else []
    }

    /** Evaluating one input with the run's evaluator and config. */
    function Evaluate(ctx: RunContext, x: I): EvalOutcome
      reads registry
    {
      var ev := registry.Get(ctx.primitiveName, ctx.primitiveVersion);
      var cfg := configProvider.getConfig(ctx.tenantId, ctx.configVersion, ctx.primitiveName);
      if ev.Ok? && cfg.Ok? then call(ev.value, x, cfg.value) else Raised("")
    }

    /** Input k is evaluated only when no check so far has asked to cancel and no evaluation so far has raised. */
    predicate ReachesInput(ctx: RunContext, k: nat)
      reads registry
    {
      && EnteredTry(ctx) && StreamFor(ctx).Some? && k < |ItemsFor(ctx)|
      && (forall j :: 0 <= j <= k ==> !Cancelled(j))
      && (forall j :: 0 <= j < k ==> !Evaluate(ctx, ItemsFor(ctx)[j]).Raised?)
    }

    /** The run evaluates the whole stream: no cancellation, no evaluator error, no stream error. */
    predicate Completes(ctx: RunContext)
      reads registry
    {
      && EnteredTry(ctx) && StreamFor(ctx).Some? && StreamFor(ctx).value.failure.None?
      && forall k :: 0 <= k < |ItemsFor(ctx)| ==> !Cancelled(k) && !Evaluate(ctx, ItemsFor(ctx)[k]).Raised?
    }

    /** The results list of a run that completes, entry k for input k. */
    function ResultsFor(ctx: RunContext): (results: seq<Option<PrimitiveResult>>)
      reads registry
      requires Completes(ctx)
      ensures |results| == |ItemsFor(ctx)|
      ensures forall k :: 0 <= k < |results| ==> results[k] == AsResult(Evaluate(ctx, ItemsFor(ctx)[k]))
    {
      seq(|ItemsFor(ctx)|, k requires 0 <= k < |ItemsFor(ctx)| && !Evaluate(ctx, ItemsFor(ctx)[k]).Raised? reads registry => AsResult(Evaluate(ctx, ItemsFor(ctx)[k])))
    }

    /**
     * The evaluation loop over a stream's inputs (runner.py lines 59-66): the
     * check, then the input is appended and evaluated; a positive check raises
     * RunCancelledError, whose message shows the correlation id as the repr of
     * its dataclass; an evaluator's error propagates.
     */
    method EvaluateStream(ctx: RunContext, evaluator: Evaluator, config: C, items: seq<I>)
      returns (inputsList: seq<I>, results: seq<Option<PrimitiveResult>>, failure: Option<RunError>, events: seq<Event<I>>)
      ensures |results| <= |items|
      ensures forall k :: 0 <= k < |results| ==>
                !Cancelled(k) && !call(evaluator, items[k], config).Raised?
                && results[k] == AsResult(call(evaluator, items[k], config))
      ensures failure.None? ==> |results| == |items| && inputsList == items
                                && events == Steps(|items|, cancellationCheck.Some?)
      ensures failure.Some? ==> |results| < |items|
      ensures failure.Some? && Cancelled(|results|) ==>
                failure.value == RunCancelledError("Run cancelled for correlation_id=" + CorrelationIdText(ctx.correlationId))
                && inputsList == items[..|results|]
                && events == Steps(|results|, true) + [CancellationChecked(|results|)]
      ensures failure.Some? && !Cancelled(|results|) ==>
                call(evaluator, items[|results|], config).Raised?
                && failure.value == EvaluatorError(call(evaluator, items[|results|], config).message)
                && inputsList == items[..|results| + 1]
                && events == Steps(|results| + 1, cancellationCheck.Some?)
    {
      inputsList := [];
      results := [];
      events := [];
      failure := None;
      var i := 0;
      while i < |items|
        invariant 0 <= i <= |items|
        invariant |results| == i && inputsList == items[..i]
        invariant forall k :: 0 <= k < i ==>
                    !Cancelled(k) && !call(evaluator, items[k], config).Raised?
                    && results[k] == AsResult(call(evaluator, items[k], config))
        invariant events == Steps(i, cancellationCheck.Some?)
      {
        if cancellationCheck.Some? {
          events := events + [CancellationChecked(i)];
          if cancellationCheck.value(i) {
            failure := Some(RunCancelledError("Run cancelled for correlation_id=" + CorrelationIdText(ctx.correlationId)));
            return;
          }
        }
        assert items[..i + 1] == items[..i] + [items[i]];
        inputsList := inputsList + [items[i]];
        events := events + [Evaluated(i)];
        var out := call(evaluator, items[i], config);
        if out.Raised? {
          failure := Some(EvaluatorError(out.message));
          return;
        }
        results := results + [AsResult(out)];
        i := i + 1;
      }
      assert items[..i] == items;
    }

    /** Every call of the try block succeeds, so the run returns its summary. */
    predicate Succeeds(ctx: RunContext)
      reads registry
    {
      Completes(ctx) && ConcludeSucceeds(outputsRepo, eventPublisher, ResultsFor(ctx))
    }

    /**
     * The loop's calls: input k is checked only with a check configured and
     * evaluated only once no earlier evaluation has raised and no check up to
     * its own has asked to cancel.
     */
    predicate LoopFact(ctx: RunContext, e: Event<I>)
      reads registry
    {
      match e
      case CancellationChecked(k) =>
        && cancellationCheck.Some? && EnteredTry(ctx) && StreamFor(ctx).Some? && k < |ItemsFor(ctx)|
        && forall j :: 0 <= j < k ==> !Cancelled(j) && !Evaluate(ctx, ItemsFor(ctx)[j]).Raised?
      case Evaluated(k) => ReachesInput(ctx, k)
      case _ => false
    }

    /**
     * What must hold of the run for it to make call `e`: each call is made
     * only once the calls it depends on have succeeded, with the arguments
     * the run's inputs determine.
     */
    predicate EventFact(ctx: RunContext, startedAt: int, finishedAt: int, e: Event<I>)
      reads registry
    {
      match e
      case FetchCalled(_) => StreamFor(ctx).Some?
      case CancellationChecked(_) => LoopFact(ctx, e)
      case Evaluated(_) => LoopFact(ctx, e)
      case DecisionsWritten(_, _) => Completes(ctx) && PostFact(ctx, outputsRepo, ItemsFor(ctx), ResultsFor(ctx), startedAt, finishedAt, e)
      case EvidenceWritten(_, _, _) => Completes(ctx) && PostFact(ctx, outputsRepo, ItemsFor(ctx), ResultsFor(ctx), startedAt, finishedAt, e)
      case RunCompletedRegistered(_, _, _, _, _, _) =>
        Completes(ctx) && PostFact(ctx, outputsRepo, ItemsFor(ctx), ResultsFor(ctx), startedAt, finishedAt, e)
      case Published(_) => Completes(ctx) && PostFact(ctx, outputsRepo, ItemsFor(ctx), ResultsFor(ctx), startedAt, finishedAt, e)
      case RunFailedRegistered(_, _) => outputsRepo.hasRunFailed && EnteredTry(ctx) && !Succeeds(ctx)
      case Released => EnteredTry(ctx)
      case _ => true
    }

    /**
     * The try block's lookups (runner.py lines 51-56 and the call on line 61):
     * the version check, the evaluator, the fetch method's name and attribute,
     * then the call that opens the stream.
     */
    method Prepare(ctx: RunContext) returns (found: Result<(Evaluator, Stream<I>), RunError>, events: seq<Event<I>>)
      ensures Increasing(events)
      ensures forall e :: e in events ==> 3 <= Phase(e) <= 6
      ensures forall e :: e in events ==> EventFact(ctx, 0, 0, e)
      ensures found.Ok? <==> StreamFor(ctx).Some?
      ensures found.Ok? ==> StreamFor(ctx) == Some(found.value.1)
                            && registry.Get(ctx.primitiveName, ctx.primitiveVersion) == Ok(found.value.0)
      ensures found.Err? && registry.EnsureVersion(ctx.primitiveName, ctx.primitiveVersion, ctx.configVersion).Some? ==>
                found.error == Registry(registry.EnsureVersion(ctx.primitiveName, ctx.primitiveVersion, ctx.configVersion).value)
    {
      var name, version := ctx.primitiveName, ctx.primitiveVersion;
      var checked := VersionChecked(name, version, ctx.configVersion);
      var mismatch := registry.EnsureVersion(name, version, ctx.configVersion);
      if mismatch.Some? {
        return Err(Registry(mismatch.value)), [checked];
      }
      var evaluator := registry.Get(name, version);
      // `get` cannot raise here: `ensure_version` has just found the same pair.
      assert evaluator.Ok?;
      var lookups := [checked, EvaluatorLookedUp(name, version), FetchMethodLookedUp(name)];
      assert Increasing(lookups) by {
        assert RankLt(lookups[0], lookups[1]) && RankLt(lookups[1], lookups[2]);
      }
      var fetchName := registry.GetInputFetchMethod(name);
      if fetchName.Err? {
        return Err(Registry(fetchName.error)), lookups;
      }
      if fetchName.value !in inputsRepo.methods {
        return Err(AttributeError("object has no attribute " + fetchName.value)), lookups;
      }
      var stream := inputsRepo.methods[fetchName.value](ctx);
      IncreasingAppend(lookups, [FetchCalled(fetchName.value)]);
      events := lookups + [FetchCalled(fetchName.value)];
      found := Ok((evaluator.value, stream));
    }

    /**
     * The try block after the loop (runner.py lines 68-113): the decisions
     * and evidence lists, the two writes, the state counts, completion, the
     * summary and its publication.
     */
    method Conclude(ctx: RunContext, inputsList: seq<I>, results: seq<Option<PrimitiveResult>>, startedAt: int, finishedAt: int)
      returns (outcome: Result<Summary, RunError>, events: seq<Event<I>>)
      ensures Increasing(events)
      ensures forall e :: e in events ==> 8 <= Phase(e) <= 11
      ensures forall e :: e in events ==> PostFact(ctx, outputsRepo, inputsList, results, startedAt, finishedAt, e)
      ensures outcome.Ok? <==> ConcludeSucceeds(outputsRepo, eventPublisher, results)
      ensures outcome.Ok? ==> Published(outcome.value) in events
      ensures outcome.Ok? ==> DecisionsWritten(Decisions(results).value, inputsList) in events
    {
      var decisions := Decisions(results);
      if decisions.None? {
        return Err(AttributeError("'NoneType' object has no attribute 'decision'")), [];
      }
      var evidenceSets := EvidenceSets(results);
      var written := DecisionsWritten(decisions.value, inputsList);
      assert PostFact(ctx, outputsRepo, inputsList, results, startedAt, finishedAt, written);
      if outputsRepo.writeDecisionsError.Some? {
        return Err(PortError(outputsRepo.writeDecisionsError.value)), [written];
      }
      var evidence := EvidenceWritten(evidenceSets, inputsList, decisions.value);
      assert PostFact(ctx, outputsRepo, inputsList, results, startedAt, finishedAt, evidence);
      if outputsRepo.writeEvidenceError.Some? {
        return Err(PortError(outputsRepo.writeEvidenceError.value)), [written, evidence];
      }
      var rest;
      outcome, rest := Report(ctx, inputsList, results, decisions.value, startedAt, finishedAt);
      assert Increasing([written, evidence]) by {
        assert RankLt(written, evidence);
      }
      IncreasingJoin([written, evidence], rest, 10);
      events := [written, evidence] + rest;
    }

    /**
     * The try block after both writes (runner.py lines 77-113): the state
     * counts, completion, the summary and its publication.
     */
    method Report(ctx: RunContext, inputsList: seq<I>, results: seq<Option<PrimitiveResult>>, decisions: seq<DecisionResult>,
                  startedAt: int, finishedAt: int)
      returns (outcome: Result<Summary, RunError>, events: seq<Event<I>>)
      requires Decisions(results) == Some(decisions)
      requires outputsRepo.writeDecisionsError.None? && outputsRepo.writeEvidenceError.None?
      ensures Increasing(events)
      ensures forall e :: e in events ==> 10 <= Phase(e) <= 11
      ensures forall e :: e in events ==> PostFact(ctx, outputsRepo, inputsList, results, startedAt, finishedAt, e)
      ensures outcome.Ok? <==> ConcludeSucceeds(outputsRepo, eventPublisher, results)
      ensures outcome.Ok? ==> Published(outcome.value) in events
    {
      var stateCounts := CountStates(decisions);
      var atRisk := Exclusions.Get(stateCounts, "AT_RISK");
      var notAtRisk := Exclusions.Get(stateCounts, "NOT_AT_RISK");
      var unknown := Exclusions.Get(stateCounts, "UNKNOWN");
      var completed := RunCompletedRegistered(startedAt, |inputsList|, |decisions|, atRisk, notAtRisk, unknown);
      if outputsRepo.hasRunCompleted {
        assert PostFact(ctx, outputsRepo, inputsList, results, startedAt, finishedAt, completed);
        if outputsRepo.runCompletedError.Some? {
          return Err(PortError(outputsRepo.runCompletedError.value)), [completed];
        }
      }
      var legacy := if ctx.primitiveName == "operational_risk" then Some(LegacyCounts(atRisk, notAtRisk, unknown)) else None;
      var summary := Summary(ctx.tenantId, ctx.primitiveName, ctx.primitiveVersion, ctx.configVersion, |results|,
                             stateCounts, finishedAt - startedAt, legacy);
      assert PostFact(ctx, outputsRepo, inputsList, results, startedAt, finishedAt, Published(summary));
      events := if outputsRepo.hasRunCompleted then [completed, Published(summary)] else [Published(summary)];
      if eventPublisher.publishError.Some? {
        return Err(PortError(eventPublisher.publishError.value)), events;
      }
      outcome := Ok(summary);
    }

    /** The try block (runner.py lines 51-113), entered once the config is in hand. */
    method Attempt(ctx: RunContext, config: C, startedAt: int, finishedAt: int)
      returns (outcome: Result<Summary, RunError>, events: seq<Event<I>>)
      requires EnteredTry(ctx)
      requires configProvider.getConfig(ctx.tenantId, ctx.configVersion, ctx.primitiveName) == Ok(config)
      ensures Increasing(events)
      ensures forall e :: e in events ==> 3 <= Phase(e) <= 11
      ensures forall e :: e in events ==> EventFact(ctx, startedAt, finishedAt, e)
      ensures cancellationCheck.Some? ==> forall e :: e in events && e.Evaluated? ==> CancellationChecked(e.index) in events
      ensures outcome.Ok? <==> Succeeds(ctx)
      ensures outcome.Ok? ==> Published(outcome.value) in events
      ensures outcome.Ok? ==> exists e :: e in events && e.DecisionsWritten?
      ensures registry.EnsureVersion(ctx.primitiveName, ctx.primitiveVersion, ctx.configVersion).Some? ==>
                outcome == Err(Registry(registry.EnsureVersion(ctx.primitiveName, ctx.primitiveVersion, ctx.configVersion).value))
    {
      var found, head := Prepare(ctx);
      assert forall e :: e in head ==> EventFact(ctx, startedAt, finishedAt, e) && !e.Evaluated?;
      if found.Err? {
        return Err(found.error), head;
      }
      var (evaluator, stream) := found.value;
      var inputsList, results, failure, loopEvents := EvaluateStream(ctx, evaluator, config, stream.items);
      LoopEventsFacts(ctx, evaluator, config, stream, results, failure, loopEvents);
      IncreasingJoin(head, loopEvents, 7);
      JoinEventFacts(ctx, startedAt, finishedAt, head, loopEvents);
      if cancellationCheck.Some? {
        CheckedJoin(head, loopEvents);
      }
      events := head + loopEvents;
      if failure.Some? {
        return Err(failure.value), events;
      }
      if stream.failure.Some? {
        return Err(PortError(stream.failure.value)), events;
      }
      assert Completes(ctx);
      assert results == ResultsFor(ctx);
      var tail;
      outcome, tail := Conclude(ctx, inputsList, results, startedAt, finishedAt);
      assert forall e :: e in tail ==> EventFact(ctx, startedAt, finishedAt, e) && !e.Evaluated?;
      IncreasingJoin(events, tail, 8);
      JoinEventFacts(ctx, startedAt, finishedAt, events, tail);
      if cancellationCheck.Some? {
        CheckedJoin(events, tail);
      }
      events := events + tail;
    }

    /**
     * `run` (runner.py lines 38-127): acquire the lock, read the config,
     * register the start, then the try block; on any error register the
     * failure and re-raise; release the lock in `finally`.  `startedAt` and
     * `finishedAt` are the two clock readings, in milliseconds.
     */
    method Run(ctx: RunContext, startedAt: int, finishedAt: int)
      returns (outcome: Result<Summary, RunError>, events: seq<Event<I>>)
      ensures Increasing(events)
      ensures events != [] && events[0] == Acquired
      ensures forall e :: e in events ==> EventFact(ctx, startedAt, finishedAt, e)
      ensures cancellationCheck.Some? ==> forall e :: e in events && e.Evaluated? ==> CancellationChecked(e.index) in events
      ensures Released in events <==> EnteredTry(ctx)
      ensures Released in events ==> events[|events| - 1] == Released
      ensures !EnteredTry(ctx) ==> outcome == Err(PreTryError(ctx))
      ensures outcome.Ok? <==> Succeeds(ctx)
      ensures outcome.Ok? ==> Published(outcome.value) in events
      ensures outcome.Ok? ==> exists e :: e in events && e.DecisionsWritten?
      ensures outcome.Err? && EnteredTry(ctx) ==>
                (outputsRepo.hasRunFailed <==> exists e :: e in events && e.RunFailedRegistered?)
      ensures outcome.Err? && EnteredTry(ctx) && outputsRepo.hasRunFailed && outputsRepo.runFailedError.None? ==>
                RunFailedRegistered(startedAt, outcome.error) in events
      ensures outcome.Err? && EnteredTry(ctx) && outputsRepo.hasRunFailed && outputsRepo.runFailedError.Some? ==>
                outcome.error == PortError(outputsRepo.runFailedError.value)
      ensures EnteredTry(ctx) && registry.EnsureVersion(ctx.primitiveName, ctx.primitiveVersion, ctx.configVersion).Some?
              && !(outputsRepo.hasRunFailed && outputsRepo.runFailedError.Some?) ==>
                outcome == Err(Registry(registry.EnsureVersion(ctx.primitiveName, ctx.primitiveVersion, ctx.configVersion).value))
    {
      var config;
      config, events := Open(ctx);
      if config.Err? {
        return Err(config.error), events;
      }
      var guarded;
      outcome, guarded := Guarded(ctx, config.value, startedAt, finishedAt);
      IncreasingJoin(events, guarded, 3);
      events := events + guarded;
    }

    /** The calls before the try block (runner.py lines 40-48): acquire, get_config, register_run_started. */
    method Open(ctx: RunContext) returns (config: Result<C, RunError>, events: seq<Event<I>>)
      ensures Increasing(events)
      ensures events != [] && events[0] == Acquired
      ensures forall e :: e in events ==> Phase(e) <= 2
      ensures config.Ok? <==> EnteredTry(ctx)
      ensures config.Ok? ==> configProvider.getConfig(ctx.tenantId, ctx.configVersion, ctx.primitiveName) == Ok(config.value)
      ensures config.Err? ==> config.error == PreTryError(ctx)
    {
      events := [Acquired];
      if lockManager.acquireError.Some? {
        return Err(PortError(lockManager.acquireError.value)), events;
      }
      events := events + [ConfigRequested(ctx.tenantId, ctx.configVersion, ctx.primitiveName)];
      var got := configProvider.getConfig(ctx.tenantId, ctx.configVersion, ctx.primitiveName);
      if got.Err? {
        return Err(PortError(got.error)), events;
      }
      if outputsRepo.hasRunStarted {
        events := events + [RunStartedRegistered(configProvider.canonicalVersion(got.value))];
        if outputsRepo.runStartedError.Some? {
          return Err(PortError(outputsRepo.runStartedError.value)), events;
        }
      }
      config := Ok(got.value);
    }

    /** The try block with its `except` handlers and its `finally` (runner.py lines 50-127). */
    method Guarded(ctx: RunContext, config: C, startedAt: int, finishedAt: int)
      returns (outcome: Result<Summary, RunError>, events: seq<Event<I>>)
      requires EnteredTry(ctx)
      requires configProvider.getConfig(ctx.tenantId, ctx.configVersion, ctx.primitiveName) == Ok(config)
      ensures Increasing(events)
      ensures forall e :: e in events ==> 3 <= Phase(e)
      ensures forall e :: e in events ==> EventFact(ctx, startedAt, finishedAt, e)
      ensures cancellationCheck.Some? ==> forall e :: e in events && e.Evaluated? ==> CancellationChecked(e.index) in events
      ensures events != [] && events[|events| - 1] == Released
      ensures outcome.Ok? <==> Succeeds(ctx)
      ensures outcome.Ok? ==> Published(outcome.value) in events
      ensures outcome.Ok? ==> exists e :: e in events && e.DecisionsWritten?
      ensures outcome.Err? ==> (outputsRepo.hasRunFailed <==> exists e :: e in events && e.RunFailedRegistered?)
      ensures outcome.Err? && outputsRepo.hasRunFailed && outputsRepo.runFailedError.None? ==>
                RunFailedRegistered(startedAt, outcome.error) in events
      ensures outcome.Err? && outputsRepo.hasRunFailed && outputsRepo.runFailedError.Some? ==>
                outcome.error == PortError(outputsRepo.runFailedError.value)
      ensures registry.EnsureVersion(ctx.primitiveName, ctx.primitiveVersion, ctx.configVersion).Some?
              && !(outputsRepo.hasRunFailed && outputsRepo.runFailedError.Some?) ==>
                outcome == Err(Registry(registry.EnsureVersion(ctx.primitiveName, ctx.primitiveVersion, ctx.configVersion).value))
    {
      var body;
      outcome, body := Attempt(ctx, config, startedAt, finishedAt);
      assert forall e :: e in body ==> !e.RunFailedRegistered? && !e.Released?;
      if outcome.Err? && outputsRepo.hasRunFailed {
        var failed := RunFailedRegistered(startedAt, outcome.error);
        if outputsRepo.runFailedError.Some? {
          outcome := Err(PortError(outputsRepo.runFailedError.value));
        }
        ClosingTail(ctx, startedAt, finishedAt, [failed, Released]);
        IncreasingJoin(body, [failed, Released], 12);
        JoinEventFacts(ctx, startedAt, finishedAt, body, [failed, Released]);
        events := body + [failed, Released];
        assert failed in events;
      } else {
        ClosingTail(ctx, startedAt, finishedAt, [Released]);
        IncreasingJoin(body, [Released], 12);
        JoinEventFacts(ctx, startedAt, finishedAt, body, [Released]);
        events := body + [Released];
        assert forall e :: e in events && e.RunFailedRegistered? ==> e in body;
      }
    }

    /** The calls of the `except` and `finally` blocks: at most a failure registration, then the release. */
    lemma ClosingTail(ctx: RunContext, startedAt: int, finishedAt: int, tail: seq<Event<I>>)
      requires EnteredTry(ctx)
      requires tail == [Released]
               || (|tail| == 2 && tail[0].RunFailedRegistered? && tail[1] == Released
                   && outputsRepo.hasRunFailed && !Succeeds(ctx))
      ensures Increasing(tail)
      ensures forall e :: e in tail ==> Phase(e) >= 12 && EventFact(ctx, startedAt, finishedAt, e)
    {
      if |tail| == 2 {
        assert RankLt(tail[0], tail[1]);
      }
    }

    /** Two traces whose every call has its fact in place join into one that does too. */
    lemma JoinEventFacts(ctx: RunContext, startedAt: int, finishedAt: int, a: seq<Event<I>>, b: seq<Event<I>>)
      requires forall e :: e in a ==> EventFact(ctx, startedAt, finishedAt, e)
      requires forall e :: e in b ==> EventFact(ctx, startedAt, finishedAt, e)
      ensures forall e :: e in a + b ==> EventFact(ctx, startedAt, finishedAt, e)
    {
    }

    /** The checks and evaluations of the first m inputs are each made with what they depend on in place. */
    lemma StepsFacts(ctx: RunContext, m: nat)
      requires EnteredTry(ctx) && StreamFor(ctx).Some? && m <= |ItemsFor(ctx)|
      requires forall j :: 0 <= j < m ==> !Cancelled(j)
      requires forall j :: 0 <= j < m - 1 ==> !Evaluate(ctx, ItemsFor(ctx)[j]).Raised?
      ensures forall e :: e in Steps<I>(m, cancellationCheck.Some?) ==> Phase(e) == 7
      ensures forall e :: e in Steps<I>(m, cancellationCheck.Some?) ==> LoopFact(ctx, e)
    {
      StepsMeaning<I>(m, cancellationCheck.Some?);
      forall e | e in Steps<I>(m, cancellationCheck.Some?)
        ensures Phase(e) == 7 && LoopFact(ctx, e)
      {
        var k := e.index;
        assert k < m;
        if e.Evaluated? {
          assert ReachesInput(ctx, k);
        }
      }
    }

    /** What the loop's trace says about the run, in the terms of `LoopFact`. */
    lemma LoopEventsFacts(ctx: RunContext, evaluator: Evaluator, config: C,
                          stream: Stream<I>, results: seq<Option<PrimitiveResult>>, failure: Option<RunError>,
                          loopEvents: seq<Event<I>>)
      requires EnteredTry(ctx) && StreamFor(ctx) == Some(stream)
      requires configProvider.getConfig(ctx.tenantId, ctx.configVersion, ctx.primitiveName) == Ok(config)
      requires registry.Get(ctx.primitiveName, ctx.primitiveVersion) == Ok(evaluator)
      requires |results| <= |stream.items|
      requires forall k :: 0 <= k < |results| ==> !Cancelled(k) && !call(evaluator, stream.items[k], config).Raised?
      requires failure.None? ==> |results| == |stream.items| && loopEvents == Steps(|stream.items|, cancellationCheck.Some?)
      requires failure.Some? ==> |results| < |stream.items|
      requires failure.Some? && Cancelled(|results|) ==> loopEvents == Steps(|results|, true) + [CancellationChecked(|results|)]
      requires failure.Some? && !Cancelled(|results|) ==> loopEvents == Steps(|results| + 1, cancellationCheck.Some?)
      ensures Increasing(loopEvents)
      ensures forall e :: e in loopEvents ==> Phase(e) == 7
      ensures forall e :: e in loopEvents ==> LoopFact(ctx, e)
      ensures cancellationCheck.Some? ==> forall e :: e in loopEvents && e.Evaluated? ==> CancellationChecked(e.index) in loopEvents
    {
      var checked := cancellationCheck.Some?;
      var r := |results|;
      assert ItemsFor(ctx) == stream.items;
      assert forall k :: 0 <= k < r ==> !Evaluate(ctx, ItemsFor(ctx)[k]).Raised?;
      if failure.None? {
        StepsMeaning<I>(r, checked);
        StepsFacts(ctx, r);
      } else if Cancelled(r) {
        CancelledLoopFacts(ctx, r);
      } else {
        RaisedLoopFacts(ctx, r);
        if checked {
          StepsEvaluatedChecked<I>(r + 1);
        }
      }
    }

    /** The trace of a loop stopped by the evaluation of input r: the first r + 1 steps. */
    lemma RaisedLoopFacts(ctx: RunContext, r: nat)
      requires EnteredTry(ctx) && StreamFor(ctx).Some? && r < |ItemsFor(ctx)| && !Cancelled(r)
      requires forall j :: 0 <= j < r ==> !Cancelled(j) && !Evaluate(ctx, ItemsFor(ctx)[j]).Raised?
      ensures Increasing(Steps<I>(r + 1, cancellationCheck.Some?))
      ensures forall e :: e in Steps<I>(r + 1, cancellationCheck.Some?) ==> Phase(e) == 7
      ensures forall e :: e in Steps<I>(r + 1, cancellationCheck.Some?) ==> LoopFact(ctx, e)
    {
      NotCancelledThrough(r);
      StepsMeaning<I>(r + 1, cancellationCheck.Some?);
      StepsFacts(ctx, r + 1);
    }

    /** No check up to input r cancels, given none before r and none at r. */
    lemma NotCancelledThrough(r: nat)
      requires forall j :: 0 <= j < r ==> !Cancelled(j)
      requires !Cancelled(r)
      ensures forall j :: 0 <= j < r + 1 ==> !Cancelled(j)
    {
    }

    /** The trace of a loop cancelled at input r: the first r steps, then the check that cancels. */
    lemma CancelledLoopFacts(ctx: RunContext, r: nat)
      requires EnteredTry(ctx) && StreamFor(ctx).Some? && r < |ItemsFor(ctx)| && Cancelled(r)
      requires forall j :: 0 <= j < r ==> !Cancelled(j) && !Evaluate(ctx, ItemsFor(ctx)[j]).Raised?
      ensures Increasing(Steps<I>(r, true) + [CancellationChecked(r)])
      ensures forall e :: e in Steps<I>(r, true) + [CancellationChecked(r)] ==> Phase(e) == 7
      ensures forall e :: e in Steps<I>(r, true) + [CancellationChecked(r)] ==> LoopFact(ctx, e)
      ensures forall e :: e in Steps<I>(r, true) + [CancellationChecked(r)] && e.Evaluated? ==>
                CancellationChecked(e.index) in Steps<I>(r, true) + [CancellationChecked(r)]
    {
      StepsMeaning<I>(r, true);
      StepsCheckedAt<I>(r);
      StepsFacts(ctx, r);
      var s := Steps<I>(r, true);
      if r > 0 {
        assert s[|s| - 1] == Evaluated(r - 1);
      }
      IncreasingAppend(s, [CancellationChecked(r)]);
      assert LoopFact(ctx, CancellationChecked(r));
    }
  }
}
