// The warehouse outputs adapter without its SQL text: which statements it
// sends, in which batches, with which rows and which key scopes. The
// client is a log of executed statements.
module OutputsRepo {
  import opened Wrappers
  import opened Common
  import opened TableNames

  /** Rows per statement. */
  const BATCH_SIZE: nat := 1000
  const QUOTE: char := '\''

  // ---- Quote escaping ---------------------------------------------------

  /** `_escape_sql_string`: every single quote is doubled. */
  function Escape(s: string): (r: string)
    ensures |r| == |s| + multiset(s)[QUOTE]
  {
    if s == [] then []
    else
      assert s == [s[0]] + s[1..];
      (if s[0] == QUOTE then [QUOTE, QUOTE] else [s[0]]) + Escape(s[1..])
  }

  /** How a SQL reader turns the body of a quoted literal back into text: a doubled quote is one quote. */
  function Unescape(s: string): string
  {
    if |s| >= 2 && s[0] == QUOTE && s[1] == QUOTE then [QUOTE] + Unescape(s[2..])
    else if s == [] then []
    else [s[0]] + Unescape(s[1..])
  }

  /** Every quote in `s` is one of a doubled pair, so `s` cannot close a quoted literal early. */
  predicate QuotesPaired(s: string)
  {
    if s == [] then true
    else if s[0] != QUOTE then QuotesPaired(s[1..])
    else |s| >= 2 && s[1] == QUOTE && QuotesPaired(s[2..])
  }

  lemma EscapeCons(c: char, rest: string)
    ensures Escape([c] + rest) == (if c == QUOTE then [QUOTE, QUOTE] else [c]) + Escape(rest)
  {
    assert ([c] + rest)[1..] == rest;
  }

  lemma UnescapeCons(c: char, rest: string)
    ensures c == QUOTE ==> Unescape([QUOTE, QUOTE] + rest) == [QUOTE] + Unescape(rest)
    ensures c != QUOTE ==> Unescape([c] + rest) == [c] + Unescape(rest)
  {
    assert ([QUOTE, QUOTE] + rest)[2..] == rest;
    assert ([c] + rest)[1..] == rest;
  }

  lemma QuotesPairedCons(c: char, rest: string)
    requires QuotesPaired(rest)
    ensures QuotesPaired((if c == QUOTE then [QUOTE, QUOTE] else [c]) + rest)
  {
    assert ([QUOTE, QUOTE] + rest)[2..] == rest;
    assert ([c] + rest)[1..] == rest;
  }

  /** Escaping is undone by reading the literal back, and leaves no lone quote. */
  lemma {:induction false} EscapeRoundTrip(s: string)
    ensures Unescape(Escape(s)) == s
    ensures QuotesPaired(Escape(s))
  {
    if s != [] {
      assert s == [s[0]] + s[1..];
      EscapeRoundTrip(s[1..]);
      EscapeCons(s[0], s[1..]);
      UnescapeCons(s[0], Escape(s[1..]));
      QuotesPairedCons(s[0], Escape(s[1..]));
    }
  }

  /** Text without quotes is written as is. */
  lemma {:induction false} EscapeNoQuotes(s: string)
    requires QUOTE !in s
    ensures Escape(s) == s
  {
    if s != [] {
      EscapeNoQuotes(s[1..]);
      assert [s[0]] + s[1..] == s;
    }
  }

  // ---- Rows, keys and statements -----------------------------------------

  /** The fields of an input row that the adapter reads. */
  datatype OutputInput = OutputInput(
    tenantId: string,
    subjectType: string,
    subjectId: string,
    asOfTs: int,
    configVersion: string,
    canonicalVersion: string)

  /** One source row of the decision MERGE, string columns escaped; `confidence` is the NULL column. */
  datatype DecisionRow = DecisionRow(
    tenantId: string,
    subjectType: string,
    subjectId: string,
    primitiveName: string,
    primitiveVersion: string,
    canonicalVersion: string,
    configVersion: string,
    asOfTs: int,
    decisionState: string,
    confidence: Option<string>,
    drivers: seq<string>,
    metrics: Fields,
    evidenceRefs: seq<string>,
    computedAt: int,
    validUntil: Option<int>,
    correlationId: Option<string>)

  /** The natural key of a decision: the MERGE ON columns and the DELETE predicate. */
  datatype DecisionKey = DecisionKey(
    tenantId: string,
    subjectType: string,
    subjectId: string,
    primitiveName: string,
    primitiveVersion: string,
    asOfTs: int)

  /** One source row of the evidence MERGE. */
  datatype EvidenceRow = EvidenceRow(
    tenantId: string,
    subjectType: string,
    subjectId: string,
    primitiveName: string,
    primitiveVersion: string,
    canonicalVersion: string,
    configVersion: string,
    asOfTs: int,
    evidenceId: string,
    evidence: Evidence,
    observedAt: int,
    correlationId: Option<string>)

  /** The natural key of an evidence record: the decision key plus the evidence id. */
  datatype EvidenceKey = EvidenceKey(decision: DecisionKey, evidenceId: string)

  datatype Statement =
    | MergeDecisions(table: string, decisionRows: seq<DecisionRow>)
    | DeleteDecisions(table: string, decisionKeys: seq<DecisionKey>)
    | MergeEvidence(table: string, evidenceRows: seq<EvidenceRow>)
    | DeleteEvidence(table: string, evidenceKeys: seq<EvidenceKey>)

  datatype WriteError =
    | MissingInputs(operation: string)
    | LengthMismatch(what: string, count: nat, inputCount: nat)

  /** The correlation column: the escaped id, or NULL for an empty one. */
  function CorrelationColumn(ctx: RunContext): (c: Option<string>)
    ensures c.Some? <==> ctx.correlationId != ""
  {
    if ctx.correlationId != "" then Some(Escape(ctx.correlationId)) else None
  }

  /** The VALUES row `_write_decisions_merge` builds for one decision and its input. */
  function DecisionRowOf(ctx: RunContext, d: DecisionResult, input: OutputInput): (row: DecisionRow)
    ensures row.confidence.None?
    ensures row.validUntil == d.validUntil && row.asOfTs == input.asOfTs
  {
    DecisionRow(Escape(input.tenantId), Escape(input.subjectType), Escape(input.subjectId),
                Escape(ctx.primitiveName), Escape(ctx.primitiveVersion), Escape(d.versions.canonicalVersion),
                Escape(input.configVersion), input.asOfTs, Escape(d.state), None,
                d.drivers, d.metrics, d.evidenceRefs, d.computedAt, d.validUntil, CorrelationColumn(ctx))
  }

  /** Reading the row's literals back gives the decision's and the input's own text. */
  lemma DecisionRowReadsBack(ctx: RunContext, d: DecisionResult, input: OutputInput)
    ensures var row := DecisionRowOf(ctx, d, input);
            Unescape(row.tenantId) == input.tenantId && Unescape(row.subjectType) == input.subjectType
            && Unescape(row.subjectId) == input.subjectId && Unescape(row.primitiveName) == ctx.primitiveName
            && Unescape(row.primitiveVersion) == ctx.primitiveVersion
            && Unescape(row.canonicalVersion) == d.versions.canonicalVersion
            && Unescape(row.configVersion) == input.configVersion && Unescape(row.decisionState) == d.state
            && (row.correlationId.Some? ==> Unescape(row.correlationId.value) == ctx.correlationId)
  {
    EscapeRoundTrip(input.tenantId);
    EscapeRoundTrip(input.subjectType);
    EscapeRoundTrip(input.subjectId);
    EscapeRoundTrip(ctx.primitiveName);
    EscapeRoundTrip(ctx.primitiveVersion);
    EscapeRoundTrip(d.versions.canonicalVersion);
    EscapeRoundTrip(input.configVersion);
    EscapeRoundTrip(d.state);
    EscapeRoundTrip(ctx.correlationId);
  }

  /** The MERGE ON columns of a source row. */
  function MergeKey(row: DecisionRow): DecisionKey
  {
    DecisionKey(row.tenantId, row.subjectType, row.subjectId, row.primitiveName, row.primitiveVersion, row.asOfTs)
  }

  /** The clause `_write_decisions_delete_insert` builds for one decision and its input. */
  function DeleteKeyOf(ctx: RunContext, input: OutputInput): DecisionKey
  {
    DecisionKey(Escape(input.tenantId), Escape(input.subjectType), Escape(input.subjectId),
                Escape(ctx.primitiveName), Escape(ctx.primitiveVersion), input.asOfTs)
  }

  /** The DELETE predicate names exactly the row the MERGE then matches. */
  lemma DeleteScopeIsMergeKey(ctx: RunContext, d: DecisionResult, input: OutputInput)
    ensures DeleteKeyOf(ctx, input) == MergeKey(DecisionRowOf(ctx, d, input))
  {
  }

  /** `zip(decisions, inputs)` turned into rows. */
  function DecisionRows(ctx: RunContext, ds: seq<DecisionResult>, ins: seq<OutputInput>): (rows: seq<DecisionRow>)
    ensures |rows| == if |ds| <= |ins| then |ds| else |ins|
    ensures forall i :: 0 <= i < |rows| ==> rows[i] == DecisionRowOf(ctx, ds[i], ins[i])
  {
    var n := if |ds| <= |ins| then |ds| else |ins|;
    seq(n, i requires 0 <= i < n => DecisionRowOf(ctx, ds[i], ins[i]))
  }

  lemma DecisionRowsOfSlice(ctx: RunContext, ds: seq<DecisionResult>, ins: seq<OutputInput>, lo: nat, hi: nat)
    requires |ds| == |ins| && lo <= hi <= |ds|
    ensures DecisionRows(ctx, ds[lo..hi], ins[lo..hi]) == DecisionRows(ctx, ds, ins)[lo..hi]
  {
    var a := DecisionRows(ctx, ds[lo..hi], ins[lo..hi]);
    var b := DecisionRows(ctx, ds, ins)[lo..hi];
    assert |a| == hi - lo == |b|;
    forall k | 0 <= k < |a|
      ensures a[k] == b[k]
    {
      var d, input := ds[lo..hi][k], ins[lo..hi][k];
      assert d == ds[lo + k] && input == ins[lo + k];
      assert a[k] == DecisionRowOf(ctx, d, input);
      assert b[k] == DecisionRows(ctx, ds, ins)[lo + k];
    }
  }

  /** The MERGE ON keys of a batch of rows. */
  function MergeKeys(rows: seq<DecisionRow>): (keys: seq<DecisionKey>)
    ensures |keys| == |rows| && forall i :: 0 <= i < |rows| ==> keys[i] == MergeKey(rows[i])
  {
    seq(|rows|, i requires 0 <= i < |rows| => MergeKey(rows[i]))
  }

  // ---- Batches ----------------------------------------------------------

  function Min(a: int, b: int): int
  {
    if a <= b then a else b
  }

  /** `range(start, len(rows), BATCH_SIZE)` as slices `rows[start:end]`. */
  function BatchesFrom<T>(rows: seq<T>, start: nat): seq<seq<T>>
    decreases |rows| - start
  {
    if start >= |rows| then [] else [rows[start..Min(start + BATCH_SIZE, |rows|)]] + BatchesFrom(rows, start + BATCH_SIZE)
  }

  function Flatten<T>(batches: seq<seq<T>>): seq<T>
  {
    if batches == [] then [] else batches[0] + Flatten(batches[1..])
  }

  /**
   * The batches cover the rows exactly once and in order, and each holds
   * between one and `BATCH_SIZE` rows.
   */
  lemma {:induction false} BatchesPartition<T>(rows: seq<T>, start: nat)
    requires start <= |rows|
    ensures Flatten(BatchesFrom(rows, start)) == rows[start..]
    ensures forall b :: b in BatchesFrom(rows, start) ==> 0 < |b| <= BATCH_SIZE
    decreases |rows| - start
  {
    var bs := BatchesFrom(rows, start);
    if start < |rows| {
      var end := Min(start + BATCH_SIZE, |rows|);
      var next := if start + BATCH_SIZE <= |rows| then start + BATCH_SIZE else |rows|;
      BatchesPartition(rows, next);
      assert BatchesFrom(rows, start + BATCH_SIZE) == BatchesFrom(rows, next);
      assert bs == [rows[start..end]] + BatchesFrom(rows, next);
      assert bs[0] == rows[start..end] && bs[1..] == BatchesFrom(rows, next);
      assert rows[start..] == rows[start..end] + rows[end..];
    }
  }

  /** Batch k of a write is rows [k * 1000, min((k + 1) * 1000, n)). */
  lemma {:induction false} BatchAt<T>(rows: seq<T>, m: nat, k: nat)
    requires k < |BatchesFrom(rows, m * BATCH_SIZE)|
    ensures (m + k) * BATCH_SIZE < |rows|
    ensures BatchesFrom(rows, m * BATCH_SIZE)[k] == rows[(m + k) * BATCH_SIZE..Min((m + k + 1) * BATCH_SIZE, |rows|)]
    decreases k
  {
    var bs := BatchesFrom(rows, m * BATCH_SIZE);
    assert (m + 1) * BATCH_SIZE == m * BATCH_SIZE + BATCH_SIZE;
    if k > 0 {
      BatchAt(rows, m + 1, k - 1);
      assert bs[k] == BatchesFrom(rows, (m + 1) * BATCH_SIZE)[k - 1];
      assert m + 1 + (k - 1) == m + k;
    }
  }

  /** The statements for one batch of decision rows: the DELETE of the batch's keys first in delete-insert mode. */
  function DecisionBatchStatements(table: string, batch: seq<DecisionRow>, useMerge: bool): seq<Statement>
  {
    if useMerge then [MergeDecisions(table, batch)]
    else [DeleteDecisions(table, MergeKeys(batch)), MergeDecisions(table, batch)]
  }

  function DecisionStatements(table: string, batches: seq<seq<DecisionRow>>, useMerge: bool): seq<Statement>
  {
    if batches == [] then []
    else DecisionBatchStatements(table, batches[0], useMerge) + DecisionStatements(table, batches[1..], useMerge)
  }

  lemma DecisionStatementsStep(table: string, rows: seq<DecisionRow>, start: nat, useMerge: bool)
    requires start < |rows|
    ensures DecisionStatements(table, BatchesFrom(rows, start), useMerge)
            == DecisionBatchStatements(table, rows[start..Min(start + BATCH_SIZE, |rows|)], useMerge)
               + DecisionStatements(table, BatchesFrom(rows, start + BATCH_SIZE), useMerge)
  {
    var bs := BatchesFrom(rows, start);
    assert bs[0] == rows[start..Min(start + BATCH_SIZE, |rows|)] && bs[1..] == BatchesFrom(rows, start + BATCH_SIZE);
  }

  // ---- Evidence ---------------------------------------------------------

  /** Each evidence record of one set paired with that set's input. */
  function Paired(es: seq<Evidence>, input: OutputInput): (r: seq<(Evidence, OutputInput)>)
    ensures |r| == |es| && forall j :: 0 <= j < |es| ==> r[j] == (es[j], input)
  {
    seq(|es|, j requires 0 <= j < |es| => (es[j], input))
  }

  /** The flattened (evidence, input) pairs of `zip(evidence_sets, inputs)`, in set order. */
  function EvidenceRecords(sets: seq<EvidenceSet>, ins: seq<OutputInput>): seq<(Evidence, OutputInput)>
    requires |sets| == |ins|
    decreases |sets|
  {
    if sets == [] then []
    else
      var n := |sets|;
      EvidenceRecords(sets[..n - 1], ins[..n - 1]) + Paired(sets[n - 1].evidence, ins[n - 1])
  }

  /** The number of evidence records of the first `n` sets. */
  function EvidenceCount(sets: seq<EvidenceSet>, n: nat): nat
    requires n <= |sets|
  {
    if n == 0 then 0 else EvidenceCount(sets, n - 1) + |sets[n - 1].evidence|
  }

  /** There are as many records as evidence entries across the sets. */
  lemma {:induction false} EvidenceRecordsLength(sets: seq<EvidenceSet>, ins: seq<OutputInput>)
    requires |sets| == |ins|
    ensures |EvidenceRecords(sets, ins)| == EvidenceCount(sets, |sets|)
    decreases |sets|
  {
    if sets != [] {
      var n := |sets|;
      EvidenceRecordsLength(sets[..n - 1], ins[..n - 1]);
      CountPrefixAt(sets, n - 1, n - 1);
    }
  }

  /**
   * Record `EvidenceCount(sets, i) + j` is evidence j of set i paired with
   * input i: the flattening keeps set order, evidence order and pairing.
   */
  lemma {:induction false} EvidenceRecordAt(sets: seq<EvidenceSet>, ins: seq<OutputInput>, i: nat, j: nat)
    requires |sets| == |ins| && i < |sets| && j < |sets[i].evidence|
    ensures EvidenceCount(sets, i) + j < |EvidenceRecords(sets, ins)|
    ensures EvidenceRecords(sets, ins)[EvidenceCount(sets, i) + j] == (sets[i].evidence[j], ins[i])
    decreases |sets|
  {
    var n := |sets|;
    var ps := sets[..n - 1];
    var pi := ins[..n - 1];
    var p := EvidenceRecords(ps, pi);
    var last := Paired(sets[n - 1].evidence, ins[n - 1]);
    var r := EvidenceRecords(sets, ins);
    assert r == p + last;
    EvidenceRecordsLength(ps, pi);
    CountPrefixAt(sets, n - 1, n - 1);
    assert |p| == EvidenceCount(sets, n - 1);
    if i < n - 1 {
      assert ps[i] == sets[i] && pi[i] == ins[i];
      EvidenceRecordAt(ps, pi, i, j);
      CountPrefixAt(sets, n - 1, i);
      assert r[EvidenceCount(sets, i) + j] == p[EvidenceCount(ps, i) + j];
    } else {
      assert r[EvidenceCount(sets, i) + j] == last[j];
    }
  }

  lemma {:induction false} CountPrefixAt(sets: seq<EvidenceSet>, k: nat, m: nat)
    requires m <= k <= |sets|
    ensures EvidenceCount(sets[..k], m) == EvidenceCount(sets, m)
    decreases m
  {
    if m > 0 {
      CountPrefixAt(sets, k, m - 1);
    }
  }

  function EvidenceRowOf(ctx: RunContext, e: Evidence, input: OutputInput): (row: EvidenceRow)
    ensures row.evidence == e && row.observedAt == e.observedAt && row.asOfTs == input.asOfTs
  {
    EvidenceRow(Escape(input.tenantId), Escape(input.subjectType), Escape(input.subjectId),
                Escape(ctx.primitiveName), Escape(ctx.primitiveVersion), Escape(input.canonicalVersion),
                Escape(input.configVersion), input.asOfTs, Escape(e.evidenceId), e, e.observedAt,
                CorrelationColumn(ctx))
  }

  function EvidenceMergeKey(row: EvidenceRow): EvidenceKey
  {
    EvidenceKey(DecisionKey(row.tenantId, row.subjectType, row.subjectId, row.primitiveName, row.primitiveVersion, row.asOfTs),
                row.evidenceId)
  }

  function EvidenceDeleteKeyOf(ctx: RunContext, e: Evidence, input: OutputInput): EvidenceKey
  {
    EvidenceKey(DeleteKeyOf(ctx, input), Escape(e.evidenceId))
  }

  /** The evidence DELETE predicate is the evidence MERGE key: the decision key plus evidence_id. */
  lemma EvidenceDeleteScopeIsMergeKey(ctx: RunContext, e: Evidence, input: OutputInput)
    ensures EvidenceDeleteKeyOf(ctx, e, input) == EvidenceMergeKey(EvidenceRowOf(ctx, e, input))
    ensures forall d :: EvidenceDeleteKeyOf(ctx, e, input).decision == MergeKey(DecisionRowOf(ctx, d, input))
  {
  }

  function EvidenceRows(ctx: RunContext, records: seq<(Evidence, OutputInput)>): (rows: seq<EvidenceRow>)
    ensures |rows| == |records| && forall i :: 0 <= i < |records| ==> rows[i] == EvidenceRowOf(ctx, records[i].0, records[i].1)
  {
    seq(|records|, i requires 0 <= i < |records| => EvidenceRowOf(ctx, records[i].0, records[i].1))
  }

  lemma EvidenceRowsOfSlice(ctx: RunContext, records: seq<(Evidence, OutputInput)>, lo: nat, hi: nat)
    requires lo <= hi <= |records|
    ensures EvidenceRows(ctx, records[lo..hi]) == EvidenceRows(ctx, records)[lo..hi]
  {
    var a := EvidenceRows(ctx, records[lo..hi]);
    var b := EvidenceRows(ctx, records)[lo..hi];
    forall k | 0 <= k < |a|
      ensures a[k] == b[k]
    {
      assert records[lo..hi][k] == records[lo + k];
    }
  }

  function EvidenceMergeKeys(rows: seq<EvidenceRow>): (keys: seq<EvidenceKey>)
    ensures |keys| == |rows| && forall i :: 0 <= i < |rows| ==> keys[i] == EvidenceMergeKey(rows[i])
  {
    seq(|rows|, i requires 0 <= i < |rows| => EvidenceMergeKey(rows[i]))
  }

  function EvidenceBatchStatements(table: string, batch: seq<EvidenceRow>, useMerge: bool): seq<Statement>
  {
    if useMerge then [MergeEvidence(table, batch)]
    else [DeleteEvidence(table, EvidenceMergeKeys(batch)), MergeEvidence(table, batch)]
  }

  function EvidenceStatements(table: string, batches: seq<seq<EvidenceRow>>, useMerge: bool): seq<Statement>
  {
    if batches == [] then []
    else EvidenceBatchStatements(table, batches[0], useMerge) + EvidenceStatements(table, batches[1..], useMerge)
  }

  lemma EvidenceStatementsStep(table: string, rows: seq<EvidenceRow>, start: nat, useMerge: bool)
    requires start < |rows|
    ensures EvidenceStatements(table, BatchesFrom(rows, start), useMerge)
            == EvidenceBatchStatements(table, rows[start..Min(start + BATCH_SIZE, |rows|)], useMerge)
               + EvidenceStatements(table, BatchesFrom(rows, start + BATCH_SIZE), useMerge)
  {
    var bs := BatchesFrom(rows, start);
    assert bs[0] == rows[start..Min(start + BATCH_SIZE, |rows|)] && bs[1..] == BatchesFrom(rows, start + BATCH_SIZE);
  }

  // ---- The adapter ------------------------------------------------------

  class DatabricksOutputsRepository {
    const settings: WarehouseSettings
    const decisionTableName: string
    const evidenceTableName: string
    /** The statements the client has executed, oldest first. */
    var executed: seq<Statement>

    /** Table names default to the prefixed operational-risk tables when not given (or empty). */
    constructor (settings: WarehouseSettings, decisionTable: Option<string>, evidenceTable: Option<string>)
      ensures this.settings == settings && executed == []
      ensures decisionTableName == if Truthy(decisionTable) then decisionTable.value
                                   else settings.tablePrefix + "gold_decision_output_operational_risk_v1"
      ensures evidenceTableName == if Truthy(evidenceTable) then evidenceTable.value
                                   else settings.tablePrefix + "gold_decision_evidence_operational_risk_v1"
    {
      this.settings := settings;
      decisionTableName := if Truthy(decisionTable) then decisionTable.value
                           else settings.tablePrefix + "gold_decision_output_operational_risk_v1";
      evidenceTableName := if Truthy(evidenceTable) then evidenceTable.value
                           else settings.tablePrefix + "gold_decision_evidence_operational_risk_v1";
      executed := [];
    }

    /** `_write_decisions_merge`: one MERGE whose source rows are built pair by pair. */
    method WriteDecisionsMerge(table: string, ctx: RunContext, ds: seq<DecisionResult>, ins: seq<OutputInput>)
      modifies this
      ensures executed == old(executed) + DecisionBatchStatements(table, DecisionRows(ctx, ds, ins), true)
    {
      var n := if |ds| <= |ins| then |ds| else |ins|;
      var valuesParts: seq<DecisionRow> := [];
      var i := 0;
      while i < n
        invariant 0 <= i <= n
        invariant |valuesParts| == i
        invariant forall k :: 0 <= k < i ==> valuesParts[k] == DecisionRowOf(ctx, ds[k], ins[k])
      {
        valuesParts := valuesParts + [DecisionRowOf(ctx, ds[i], ins[i])];
        i := i + 1;
      }
      assert valuesParts == DecisionRows(ctx, ds, ins);
      executed := executed + [MergeDecisions(table, valuesParts)];
    }

    /**
     * `_write_decisions_delete_insert`: a DELETE whose clauses are built from
     * the inputs, then the same MERGE; the clauses are the MERGE keys.
     */
    method WriteDecisionsDeleteInsert(table: string, ctx: RunContext, ds: seq<DecisionResult>, ins: seq<OutputInput>)
      modifies this
      ensures executed == old(executed) + DecisionBatchStatements(table, DecisionRows(ctx, ds, ins), false)
    {
      var n := if |ds| <= |ins| then |ds| else |ins|;
      var whereClauses: seq<DecisionKey> := [];
      var i := 0;
      while i < n
        invariant 0 <= i <= n
        invariant |whereClauses| == i
        invariant forall k :: 0 <= k < i ==> whereClauses[k] == DeleteKeyOf(ctx, ins[k])
      {
        whereClauses := whereClauses + [DeleteKeyOf(ctx, ins[i])];
        i := i + 1;
      }
      forall k | 0 <= k < n
        ensures whereClauses[k] == MergeKeys(DecisionRows(ctx, ds, ins))[k]
      {
        DeleteScopeIsMergeKey(ctx, ds[k], ins[k]);
      }
      assert whereClauses == MergeKeys(DecisionRows(ctx, ds, ins));
      executed := executed + [DeleteDecisions(table, whereClauses)];
      WriteDecisionsMerge(table, ctx, ds, ins);
    }

    /**
     * `write_decisions`: no inputs, or a length mismatch, is an error before
     * any statement; otherwise the rows are written batch by batch.
     */
    method WriteDecisions(ctx: RunContext, decisions: seq<DecisionResult>, inputs: Option<seq<OutputInput>>)
      returns (err: Option<WriteError>)
      modifies this
      ensures inputs.None? ==> err == Some(MissingInputs("write_decisions")) && executed == old(executed)
      ensures inputs.Some? && |decisions| != |inputs.value| ==>
                err == Some(LengthMismatch("decisions", |decisions|, |inputs.value|)) && executed == old(executed)
      ensures inputs.Some? && |decisions| == |inputs.value| ==>
                err.None?
                && executed == old(executed) + DecisionStatements(QualifiedName(settings, decisionTableName),
                                                                 BatchesFrom(DecisionRows(ctx, decisions, inputs.value), 0),
                                                                 settings.useMerge)
    {
      if inputs.None? {
        return Some(MissingInputs("write_decisions"));
      }
      var ins := inputs.value;
      if |decisions| != |ins| {
        return Some(LengthMismatch("decisions", |decisions|, |ins|));
      }
      var table := QualifiedName(settings, decisionTableName);
      ghost var rows := DecisionRows(ctx, decisions, ins);
      var start := 0;
      while start < |decisions|
        invariant executed + DecisionStatements(table, BatchesFrom(rows, start), settings.useMerge)
                  == old(executed) + DecisionStatements(table, BatchesFrom(rows, 0), settings.useMerge)
        decreases |decisions| - start
      {
        var end := Min(start + BATCH_SIZE, |decisions|);
        if settings.useMerge {
          WriteDecisionsMerge(table, ctx, decisions[start..end], ins[start..end]);
        } else {
          WriteDecisionsDeleteInsert(table, ctx, decisions[start..end], ins[start..end]);
        }
        DecisionRowsOfSlice(ctx, decisions, ins, start, end);
        DecisionStatementsStep(table, rows, start, settings.useMerge);
        start := start + BATCH_SIZE;
      }
      return None;
    }

    /** The nested flattening loop of `write_evidence`. */
    method FlattenEvidence(sets: seq<EvidenceSet>, ins: seq<OutputInput>) returns (records: seq<(Evidence, OutputInput)>)
      requires |sets| == |ins|
      ensures records == EvidenceRecords(sets, ins)
    {
      var n := |sets|;
      records := [];
      var i := 0;
      while i < n
        invariant 0 <= i <= n
        invariant records == EvidenceRecords(sets[..i], ins[..i])
      {
        var es := sets[i].evidence;
        ghost var prefix := records;
        var j := 0;
        while j < |es|
          invariant 0 <= j <= |es|
          invariant records == prefix + Paired(es[..j], ins[i])
        {
          assert Paired(es[..j + 1], ins[i]) == Paired(es[..j], ins[i]) + [(es[j], ins[i])];
          records := records + [(es[j], ins[i])];
          j := j + 1;
        }
        assert es[..j] == es;
        assert sets[..i + 1][..i] == sets[..i] && ins[..i + 1][..i] == ins[..i];
        i := i + 1;
      }
      assert sets[..n] == sets && ins[..n] == ins;
    }

    method WriteEvidenceMerge(table: string, ctx: RunContext, records: seq<(Evidence, OutputInput)>)
      modifies this
      ensures executed == old(executed) + EvidenceBatchStatements(table, EvidenceRows(ctx, records), true)
    {
      var valuesParts: seq<EvidenceRow> := [];
      var i := 0;
      while i < |records|
        invariant 0 <= i <= |records|
        invariant |valuesParts| == i
        invariant forall k :: 0 <= k < i ==> valuesParts[k] == EvidenceRowOf(ctx, records[k].0, records[k].1)
      {
        valuesParts := valuesParts + [EvidenceRowOf(ctx, records[i].0, records[i].1)];
        i := i + 1;
      }
      assert valuesParts == EvidenceRows(ctx, records);
      executed := executed + [MergeEvidence(table, valuesParts)];
    }

    method WriteEvidenceDeleteInsert(table: string, ctx: RunContext, records: seq<(Evidence, OutputInput)>)
      modifies this
      ensures executed == old(executed) + EvidenceBatchStatements(table, EvidenceRows(ctx, records), false)
    {
      var whereClauses: seq<EvidenceKey> := [];
      var i := 0;
      while i < |records|
        invariant 0 <= i <= |records|
        invariant |whereClauses| == i
        invariant forall k :: 0 <= k < i ==> whereClauses[k] == EvidenceDeleteKeyOf(ctx, records[k].0, records[k].1)
      {
        whereClauses := whereClauses + [EvidenceDeleteKeyOf(ctx, records[i].0, records[i].1)];
        i := i + 1;
      }
      forall k | 0 <= k < |records|
        ensures whereClauses[k] == EvidenceMergeKeys(EvidenceRows(ctx, records))[k]
      {
        EvidenceDeleteScopeIsMergeKey(ctx, records[k].0, records[k].1);
      }
      assert whereClauses == EvidenceMergeKeys(EvidenceRows(ctx, records));
      executed := executed + [DeleteEvidence(table, whereClauses)];
      WriteEvidenceMerge(table, ctx, records);
    }

    /**
     * `write_evidence`: the same errors as `write_decisions`; no evidence
     * records means no statement; otherwise the records are batched.
     */
    method WriteEvidence(ctx: RunContext, sets: seq<EvidenceSet>, inputs: Option<seq<OutputInput>>)
      returns (err: Option<WriteError>)
      modifies this
      ensures inputs.None? ==> err == Some(MissingInputs("write_evidence")) && executed == old(executed)
      ensures inputs.Some? && |sets| != |inputs.value| ==>
                err == Some(LengthMismatch("evidence_sets", |sets|, |inputs.value|)) && executed == old(executed)
      ensures inputs.Some? && |sets| == |inputs.value| ==>
                err.None?
                && executed == old(executed) + EvidenceStatements(QualifiedName(settings, evidenceTableName),
                                                                 BatchesFrom(EvidenceRows(ctx, EvidenceRecords(sets, inputs.value)), 0),
                                                                 settings.useMerge)
    {
      if inputs.None? {
        return Some(MissingInputs("write_evidence"));
      }
      var ins := inputs.value;
      if |sets| != |ins| {
        return Some(LengthMismatch("evidence_sets", |sets|, |ins|));
      }
      var records := FlattenEvidence(sets, ins);
      if records == [] {
        return None;
      }
      var table := QualifiedName(settings, evidenceTableName);
      ghost var rows := EvidenceRows(ctx, records);
      var start := 0;
      while start < |records|
        invariant executed + EvidenceStatements(table, BatchesFrom(rows, start), settings.useMerge)
                  == old(executed) + EvidenceStatements(table, BatchesFrom(rows, 0), settings.useMerge)
        decreases |records| - start
      {
        var end := Min(start + BATCH_SIZE, |records|);
        if settings.useMerge {
          WriteEvidenceMerge(table, ctx, records[start..end]);
        } else {
          WriteEvidenceDeleteInsert(table, ctx, records[start..end]);
        }
        EvidenceRowsOfSlice(ctx, records, start, end);
        EvidenceStatementsStep(table, rows, start, settings.useMerge);
        start := start + BATCH_SIZE;
      }
      return None;
    }
  }
}
