// The pack readiness calculator: three threshold classifiers and the
// FAIL > WARN > PASS aggregation of their results.
module PackReadiness {
  import opened Wrappers

  const PASS: string := "PASS"
  const WARN: string := "WARN"
  const FAIL: string := "FAIL"

  /** Seconds per hour, for the age of a canonical snapshot. */
  const SECONDS_PER_HOUR: real := 3600.0

  /** The calculator's thresholds; they are only read. */
  datatype Calculator = Calculator(
    freshnessThresholdHours: real,
    unknownRateWarnThreshold: real,
    unknownRateFailThreshold: real,
    integrityWarnThreshold: real,
    integrityFailThreshold: real)

  const DefaultCalculator: Calculator := Calculator(36.0, 0.30, 0.60, 0.95, 0.80)

  /** Timestamps are seconds on one clock; `now` is the evaluation clock. */
  datatype CanonicalFreshnessResult = CanonicalFreshnessResult(
    table: string,
    lastAsOfTs: Option<real>,
    hoursSinceLastUpdate: Option<real>,
    status: string)

  datatype DecisionHealthResult = DecisionHealthResult(
    primitiveName: string,
    totalDecisions: int,
    stateCounts: map<string, int>,
    unknownRate: real,
    lastComputedAt: Option<real>,
    status: string)

  datatype RollupIntegrityResult = RollupIntegrityResult(check: string, passRate: real, status: string)

  datatype PackReadinessResponse = PackReadinessResponse(
    tenantId: string,
    packId: string,
    packVersion: string,
    overallStatus: string,
    canonicalFreshness: seq<CanonicalFreshnessResult>,
    decisionHealth: seq<DecisionHealthResult>,
    rollupIntegrity: seq<RollupIntegrityResult>,
    computedAt: real)

  /** How bad a status is: FAIL above WARN above everything else. */
  function Severity(status: string): nat
  {
    if status == FAIL then 2 else if status == WARN then 1 else 0
  }

  // ---- Canonical freshness ----------------------------------------------

  /**
   * `calculate_canonical_freshness`: no snapshot or one stamped in the
   * future fails; otherwise the age in hours decides PASS or WARN.
   */
  function CanonicalFreshness(calculator: Calculator, table: string, lastAsOfTs: Option<real>, now: real): (r: CanonicalFreshnessResult)
    ensures r.table == table && r.lastAsOfTs == lastAsOfTs
    ensures lastAsOfTs.None? ==> r.hoursSinceLastUpdate.None? && r.status == FAIL
    ensures lastAsOfTs.Some? ==>
              var hours := (now - lastAsOfTs.value) / SECONDS_PER_HOUR;
              r.hoursSinceLastUpdate == Some(hours)
              && (r.status == FAIL <==> hours < 0.0)
              && (r.status == PASS <==> 0.0 <= hours <= calculator.freshnessThresholdHours)
              && (r.status == WARN <==> hours >= 0.0 && hours > calculator.freshnessThresholdHours)
  {
    match lastAsOfTs
    case None => CanonicalFreshnessResult(table, None, None, FAIL)
    case Some(ts) =>
      var hours := (now - ts) / SECONDS_PER_HOUR;
      if hours < 0.0 then CanonicalFreshnessResult(table, lastAsOfTs, Some(hours), FAIL)
      else CanonicalFreshnessResult(table, lastAsOfTs, Some(hours), if hours <= calculator.freshnessThresholdHours then PASS else WARN)
  }

  /** An older snapshot is never judged better than a newer one, for a non-negative age. */
  lemma FreshnessMonotone(calculator: Calculator, table: string, older: real, newer: real, now: real)
    requires older <= newer <= now
    ensures Severity(CanonicalFreshness(calculator, table, Some(newer), now).status)
            <= Severity(CanonicalFreshness(calculator, table, Some(older), now).status)
  {
    assert (now - newer) / SECONDS_PER_HOUR <= (now - older) / SECONDS_PER_HOUR;
  }

  // ---- Decision health --------------------------------------------------

  /** `state_counts.get("UNKNOWN", 0)`. */
  function UnknownCount(stateCounts: map<string, int>): int
  {
    if "UNKNOWN" in stateCounts then stateCounts["UNKNOWN"] else 0
  }

  /** The three-way classification of a rate that is bad when high. */
  function HighIsBad(rate: real, warn: real, fail: real): (status: string)
    ensures status == FAIL <==> rate >= fail
    ensures status == WARN <==> warn <= rate < fail
    ensures status == PASS <==> rate < warn && rate < fail
  {
    if rate >= fail then FAIL else if rate >= warn then WARN else PASS
  }

  /**
   * `calculate_decision_health`: no decisions fails with empty counts; else
   * the share of UNKNOWN decisions is classified against the two thresholds.
   */
  function DecisionHealth(calculator: Calculator, primitiveName: string, total: int, stateCounts: map<string, int>,
                          lastComputedAt: Option<real>): (r: DecisionHealthResult)
    ensures r.primitiveName == primitiveName
    ensures total == 0 ==> r == DecisionHealthResult(primitiveName, 0, map[], 0.0, None, FAIL)
    ensures total > 0 ==>
              r.totalDecisions == total && r.stateCounts == stateCounts && r.lastComputedAt == lastComputedAt
              && r.unknownRate * (total as real) == UnknownCount(stateCounts) as real
              && r.status == HighIsBad(r.unknownRate, calculator.unknownRateWarnThreshold, calculator.unknownRateFailThreshold)
    ensures total < 0 ==> r.unknownRate == 0.0
  {
    if total == 0 then DecisionHealthResult(primitiveName, 0, map[], 0.0, None, FAIL)
    else
      var rate := if total > 0 then UnknownCount(stateCounts) as real / total as real else 0.0;
      DecisionHealthResult(primitiveName, total, stateCounts, rate, lastComputedAt,
                           HighIsBad(rate, calculator.unknownRateWarnThreshold, calculator.unknownRateFailThreshold))
  }

  /** More UNKNOWN decisions out of the same total never improve the status. */
  lemma DecisionHealthMonotone(calculator: Calculator, name: string, total: int, a: map<string, int>, b: map<string, int>,
                               at: Option<real>)
    requires total > 0 && UnknownCount(a) <= UnknownCount(b)
    ensures Severity(DecisionHealth(calculator, name, total, a, at).status) <= Severity(DecisionHealth(calculator, name, total, b, at).status)
  {
    var t := total as real;
    assert UnknownCount(a) as real / t <= UnknownCount(b) as real / t;
  }

  // ---- Rollup integrity -------------------------------------------------

  /** The three-way classification of a rate that is bad when low. */
  function LowIsBad(rate: real, warn: real, fail: real): (status: string)
    ensures status == FAIL <==> rate < fail
    ensures status == WARN <==> fail <= rate < warn
    ensures status == PASS <==> rate >= warn && rate >= fail
  {
    if rate < fail then FAIL else if rate < warn then WARN else PASS
  }

  /** `calculate_rollup_integrity`: a zero total reports `zeroTotalStatus`; else the pass rate is classified. */
  function RollupIntegrity(calculator: Calculator, check: string, total: int, passed: int, zeroTotalStatus: string := FAIL)
    : (r: RollupIntegrityResult)
    ensures r.check == check
    ensures total == 0 ==> r.passRate == 0.0 && r.status == zeroTotalStatus
    ensures total != 0 ==>
              r.passRate * (total as real) == passed as real
              && r.status == LowIsBad(r.passRate, calculator.integrityWarnThreshold, calculator.integrityFailThreshold)
  {
    if total == 0 then RollupIntegrityResult(check, 0.0, zeroTotalStatus)
    else
      var rate := passed as real / total as real;
      RollupIntegrityResult(check, rate, LowIsBad(rate, calculator.integrityWarnThreshold, calculator.integrityFailThreshold))
  }

  /** More passing decisions out of the same positive total never worsen the status. */
  lemma RollupIntegrityMonotone(calculator: Calculator, check: string, total: int, fewer: int, more: int)
    requires total > 0 && fewer <= more
    ensures Severity(RollupIntegrity(calculator, check, total, more).status) <= Severity(RollupIntegrity(calculator, check, total, fewer).status)
  {
    var t := total as real;
    assert fewer as real / t <= more as real / t;
  }

  // ---- Aggregation ------------------------------------------------------

  /** The statuses of all results, freshness first, then health, then integrity. */
  function AllStatuses(cf: seq<CanonicalFreshnessResult>, dh: seq<DecisionHealthResult>, ri: seq<RollupIntegrityResult>)
    : (s: seq<string>)
    ensures |s| == |cf| + |dh| + |ri|
    ensures forall i :: 0 <= i < |cf| ==> s[i] == cf[i].status
    ensures forall i :: 0 <= i < |dh| ==> s[|cf| + i] == dh[i].status
    ensures forall i :: 0 <= i < |ri| ==> s[|cf| + |dh| + i] == ri[i].status
  {
    seq(|cf|, i requires 0 <= i < |cf| => cf[i].status)
    + seq(|dh|, i requires 0 <= i < |dh| => dh[i].status)
    + seq(|ri|, i requires 0 <= i < |ri| => ri[i].status)
  }

  /** `any(r.status == status for r in results)`. */
  function AnyStatus(s: seq<string>, status: string): (b: bool)
    ensures b <==> status in s
  {
    if s == [] then false else s[0] == status || AnyStatus(s[1..], status)
  }

  /** `aggregate_status`: FAIL when there is nothing or anything fails, else WARN if anything warns, else PASS. */
  function AggregateStatus(cf: seq<CanonicalFreshnessResult>, dh: seq<DecisionHealthResult>, ri: seq<RollupIntegrityResult>)
    : (r: string)
    ensures var s := AllStatuses(cf, dh, ri);
            (r == FAIL <==> s == [] || FAIL in s)
            && (r == WARN <==> s != [] && FAIL !in s && WARN in s)
            && (r == PASS <==> s != [] && FAIL !in s && WARN !in s)
  {
    var s := AllStatuses(cf, dh, ri);
    if s == [] then FAIL
    else if AnyStatus(s, FAIL) then FAIL
    else if AnyStatus(s, WARN) then WARN
    else PASS
  }

  /** For a non-empty set of results the overall status is the worst one present. */
  lemma AggregateIsWorst(cf: seq<CanonicalFreshnessResult>, dh: seq<DecisionHealthResult>, ri: seq<RollupIntegrityResult>)
    requires |cf| + |dh| + |ri| > 0
    ensures var s := AllStatuses(cf, dh, ri);
            var r := AggregateStatus(cf, dh, ri);
            (forall i :: 0 <= i < |s| ==> Severity(s[i]) <= Severity(r))
            && (r != PASS ==> r in s)
  {
  }

  /** One more failing freshness result makes the whole pack fail; a passing one never makes it worse. */
  lemma AggregateAddResult(cf: seq<CanonicalFreshnessResult>, dh: seq<DecisionHealthResult>, ri: seq<RollupIntegrityResult>,
                           x: CanonicalFreshnessResult)
    ensures x.status == FAIL ==> AggregateStatus(cf + [x], dh, ri) == FAIL
    ensures x.status == PASS && |cf| + |dh| + |ri| > 0 ==> AggregateStatus(cf + [x], dh, ri) == AggregateStatus(cf, dh, ri)
  {
    var s := AllStatuses(cf, dh, ri);
    var t := AllStatuses(cf + [x], dh, ri);
    assert t[|cf|] == x.status;
    assert multiset(t) == multiset(s) + multiset{x.status} by {
      assert t == s[..|cf|] + [x.status] + s[|cf|..];
      assert s == s[..|cf|] + s[|cf|..];
    }
    assert forall y :: y in t <==> y in multiset(t);
    assert forall y :: y in s <==> y in multiset(s);
  }

  /** `build_readiness_response`: the three lists pass through and the overall status is their aggregate. */
  function BuildReadinessResponse(tenantId: string, packId: string, packVersion: string,
                                  cf: seq<CanonicalFreshnessResult>, dh: seq<DecisionHealthResult>,
                                  ri: seq<RollupIntegrityResult>, now: real): (r: PackReadinessResponse)
    ensures r.overallStatus == AggregateStatus(cf, dh, ri)
    ensures r.canonicalFreshness == cf && r.decisionHealth == dh && r.rollupIntegrity == ri
    ensures r.tenantId == tenantId && r.packId == packId && r.packVersion == packVersion && r.computedAt == now
  {
    PackReadinessResponse(tenantId, packId, packVersion, AggregateStatus(cf, dh, ri), cf, dh, ri, now)
  }
}
