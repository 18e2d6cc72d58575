// The shopper frequency-trend primitive (domain/primitives/shopper_frequency_trend):
// the input constructor that derives the recent gap, and the rule chain that
// classifies the shopper's trip cadence against their baseline.
module FrequencyTrend {
  import opened Wrappers
  import opened Common

  datatype FrequencyTrendConfig = FrequencyTrendConfig(
    primitiveName: string,
    primitiveVersion: string,
    canonicalVersion: string,
    baselineWindowDays: int,
    minBaselineTrips: int,
    declineRatioThreshold: real,
    improveRatioThreshold: real,
    maxReasonableGapDays: int)

  const DefaultFrequencyTrendConfig: FrequencyTrendConfig :=
    FrequencyTrendConfig("shopper_frequency_trend", "1.0.0", "v1", 90, 4, 1.5, 0.75, 365)

  datatype ShopperFrequencyInput = ShopperFrequencyInput(
    tenantId: string,
    subjectType: string,
    subjectId: string,
    asOfTs: int,
    lastTripTs: Option<int>,
    prevTripTs: Option<int>,
    recentGapDays: Option<real>,
    baselineAvgGapDays: Option<real>,
    baselineTripCount: Option<int>,
    baselineWindowDays: Option<int>,
    canonicalVersion: string,
    configVersion: string)

  /**
   * `ShopperFrequencyInput.new`: an explicit recent gap is kept; a missing one
   * is derived from the two trip dates when both are known.
   */
  function NewFrequencyInput(
    tenantId: string, subjectId: string, asOfTs: int,
    lastTripTs: Option<int>, prevTripTs: Option<int>, configVersion: string,
    canonicalVersion: string := "v1", subjectType: string := "shopper",
    recentGapDays: Option<real> := None, baselineAvgGapDays: Option<real> := None,
    baselineTripCount: Option<int> := None, baselineWindowDays: Option<int> := None): (r: ShopperFrequencyInput)
    ensures recentGapDays.Some? ==> r.recentGapDays == recentGapDays
    ensures recentGapDays.None? && lastTripTs.Some? && prevTripTs.Some?
            ==> r.recentGapDays == Some(DaysBetween(prevTripTs.value, lastTripTs.value) as real)
    ensures recentGapDays.None? && (lastTripTs.None? || prevTripTs.None?) ==> r.recentGapDays.None?
    ensures r.(recentGapDays := recentGapDays)
            == ShopperFrequencyInput(tenantId, subjectType, subjectId, asOfTs, lastTripTs, prevTripTs,
                                     recentGapDays, baselineAvgGapDays, baselineTripCount,
                                     baselineWindowDays, canonicalVersion, configVersion)
  {
    var gap :=
      if recentGapDays.None? && lastTripTs.Some? && prevTripTs.Some?
      then Some(DaysBetween(prevTripTs.value, lastTripTs.value) as real)
      else recentGapDays;
    ShopperFrequencyInput(tenantId, subjectType, subjectId, asOfTs, lastTripTs, prevTripTs,
                          gap, baselineAvgGapDays, baselineTripCount, baselineWindowDays,
                          canonicalVersion, configVersion)
  }

  const DECLINING: string := "DECLINING"
  const STABLE: string := "STABLE"
  const IMPROVING: string := "IMPROVING"
  const UNKNOWN: string := "UNKNOWN"

  /** The rule that decided the state; each has one rule id, reported as the single driver. */
  datatype TrendRule =
    | InsufficientTripHistory
    | InsufficientBaseline
    | BaselineInvalid
    | RecentGapMissing
    | RecentGapOutOfRange
    | CadenceSlowing
    | CadenceAccelerating
    | CadenceStable
  {
    /** The rules reached only once a ratio has been computed. */
    predicate IsRatioRule()
    {
      this.CadenceSlowing? || this.CadenceAccelerating? || this.CadenceStable?
    }
  }

  function RuleId(rule: TrendRule): string
  {
    match rule
    case InsufficientTripHistory => "shopper_frequency_trend.insufficient_trip_history"
    case InsufficientBaseline => "shopper_frequency_trend.insufficient_baseline"
    case BaselineInvalid => "shopper_frequency_trend.baseline_invalid"
    case RecentGapMissing => "shopper_frequency_trend.recent_gap_missing"
    case RecentGapOutOfRange => "shopper_frequency_trend.recent_gap_out_of_range"
    case CadenceSlowing => "shopper_frequency_trend.cadence_slowing"
    case CadenceAccelerating => "shopper_frequency_trend.cadence_accelerating"
    case CadenceStable => "shopper_frequency_trend.cadence_stable"
  }

  function TrendState(rule: TrendRule): (state: string)
    ensures state == UNKNOWN <==> !rule.IsRatioRule()
    ensures state == DECLINING <==> rule.CadenceSlowing?
    ensures state == IMPROVING <==> rule.CadenceAccelerating?
    ensures state == STABLE <==> rule.CadenceStable?
  {
    match rule
    case CadenceSlowing => DECLINING
    case CadenceAccelerating => IMPROVING
    case CadenceStable => STABLE
    case _ => UNKNOWN
  }

  /** Everything the ratio rules need is present and plausible. */
  predicate RatioComputable(input: ShopperFrequencyInput, config: FrequencyTrendConfig)
  {
    input.lastTripTs.Some? && input.prevTripTs.Some?
    && input.baselineTripCount.Some? && input.baselineTripCount.value >= config.minBaselineTrips
    && input.baselineAvgGapDays.Some? && input.baselineAvgGapDays.value > 0.0
    && input.recentGapDays.Some? && input.recentGapDays.value <= config.maxReasonableGapDays as real
  }

  /** recent_gap_days / baseline_avg_gap_days, defined once the guards have passed. */
  function Ratio(input: ShopperFrequencyInput, config: FrequencyTrendConfig): real
    requires RatioComputable(input, config)
  {
    input.recentGapDays.value / input.baselineAvgGapDays.value
  }

  /** The first rule of the chain whose condition holds. */
  function ClassifyTrend(input: ShopperFrequencyInput, config: FrequencyTrendConfig): (rule: TrendRule)
    ensures rule.InsufficientTripHistory? <==> input.lastTripTs.None? || input.prevTripTs.None?
    ensures rule.IsRatioRule() <==> RatioComputable(input, config)
    ensures rule.CadenceSlowing? <==>
              RatioComputable(input, config) && Ratio(input, config) >= config.declineRatioThreshold
    ensures rule.CadenceAccelerating? <==>
              RatioComputable(input, config) && Ratio(input, config) < config.declineRatioThreshold
              && Ratio(input, config) <= config.improveRatioThreshold
  {
    if input.lastTripTs.None? || input.prevTripTs.None? then InsufficientTripHistory
    else if input.baselineTripCount.None? || input.baselineTripCount.value < config.minBaselineTrips then InsufficientBaseline
    else if input.baselineAvgGapDays.None? || input.baselineAvgGapDays.value <= 0.0 then BaselineInvalid
    else if input.recentGapDays.None? then RecentGapMissing
    else if input.recentGapDays.value > config.maxReasonableGapDays as real then RecentGapOutOfRange
    else
      var ratio := input.recentGapDays.value / input.baselineAvgGapDays.value;
      if ratio >= config.declineRatioThreshold then CadenceSlowing
      else if ratio <= config.improveRatioThreshold then CadenceAccelerating
      else CadenceStable
  }

  /** The guards of the chain, each read only when every earlier one has passed. */
  lemma ClassifyTrendGuards(input: ShopperFrequencyInput, config: FrequencyTrendConfig)
    ensures var rule := ClassifyTrend(input, config);
            var trips := input.lastTripTs.Some? && input.prevTripTs.Some?;
            var baseline := trips && input.baselineTripCount.Some?
                            && input.baselineTripCount.value >= config.minBaselineTrips;
            var valid := baseline && input.baselineAvgGapDays.Some? && input.baselineAvgGapDays.value > 0.0;
            (rule.InsufficientBaseline? <==> trips && !baseline)
            && (rule.BaselineInvalid? <==> baseline && !valid)
            && (rule.RecentGapMissing? <==> valid && input.recentGapDays.None?)
            && (rule.RecentGapOutOfRange? <==>
                  valid && input.recentGapDays.Some?
                  && input.recentGapDays.value > config.maxReasonableGapDays as real)
  {
  }

  function OptNum(x: Option<real>): Value
  {
    if x.Some? then Num(x.value) else Null
  }

  function OptInt(x: Option<int>): Value
  {
    if x.Some? then Int(x.value) else Null
  }

  function OptTime(t: Option<int>): Value
  {
    if t.Some? then Time(t.value) else Null
  }

  /** The ratio reported in evidence and metrics: present only for the ratio rules. */
  function ReportedRatio(input: ShopperFrequencyInput, config: FrequencyTrendConfig): (ratio: Option<real>)
    ensures ratio.Some? <==> ClassifyTrend(input, config).IsRatioRule()
    ensures ratio.Some? ==> ratio.value == Ratio(input, config)
  {
    if RatioComputable(input, config) then Some(Ratio(input, config)) else None
  }

  /** The decision's metrics: absent numeric inputs read as -1, the ratio only when computed. */
  function TrendMetrics(input: ShopperFrequencyInput, ratio: Option<real>): (m: Fields)
    ensures "ratio" in m <==> ratio.Some?
    ensures ratio.Some? ==> m["ratio"] == Num(ratio.value)
    ensures "recent_gap_days" in m && "baseline_avg_gap_days" in m && "baseline_trip_count" in m
    ensures m["recent_gap_days"] == Num(if input.recentGapDays.Some? then input.recentGapDays.value else -1.0)
    ensures m["baseline_avg_gap_days"]
              == Num(if input.baselineAvgGapDays.Some? then input.baselineAvgGapDays.value else -1.0)
    ensures m["baseline_trip_count"]
              == Num(if input.baselineTripCount.Some? then input.baselineTripCount.value as real else -1.0)
    ensures |m.Keys| == if ratio.Some? then 4 else 3
  {
    var base := map["recent_gap_days" := Num(input.recentGapDays.GetOr(-1.0)),
                    "baseline_avg_gap_days" := Num(input.baselineAvgGapDays.GetOr(-1.0)),
                    "baseline_trip_count" := Num(input.baselineTripCount.GetOr(-1) as real)];
    if ratio.Some? then base["ratio" := Num(ratio.value)] else base
  }

  /** `evaluate_shopper_frequency_trend`; `now` stands for the evaluation wall-clock time. */
  function EvaluateFrequencyTrend(input: ShopperFrequencyInput, config: FrequencyTrendConfig, now: int): (res: PrimitiveResult)
    ensures var rule := ClassifyTrend(input, config);
            res.decision.state == TrendState(rule)
            && res.decision.drivers == [RuleId(rule)]
            && |res.evidenceSet.evidence| == 1
            && res.evidenceSet.evidence[0].ruleIds == [RuleId(rule)]
    ensures res.decision.state in {DECLINING, STABLE, IMPROVING, UNKNOWN}
    ensures res.decision.confidence == HIGH <==> res.decision.state != UNKNOWN
    ensures res.decision.confidence == LOW <==> res.decision.state == UNKNOWN
    ensures res.decision.metrics == TrendMetrics(input, ReportedRatio(input, config))
    ensures res.decision.evidenceRefs == [res.evidenceSet.evidence[0].evidenceId]
    ensures res.evidenceSet.evidence[0].evidenceId == "evidence-" + input.subjectId
    ensures "ratio" in res.evidenceSet.evidence[0].references
    ensures res.evidenceSet.evidence[0].references["ratio"] == OptNum(ReportedRatio(input, config))
    ensures res.decision.versions
              == VersionInfo(config.primitiveVersion, config.canonicalVersion, input.configVersion)
  {
    var rule := ClassifyTrend(input, config);
    var ratio := ReportedRatio(input, config);
    var evidenceId := "evidence-" + input.subjectId;
    var evidence := Evidence(
      evidenceId,
      [RuleId(rule)],
      map["min_baseline_trips" := Int(config.minBaselineTrips),
          "decline_ratio_threshold" := Num(config.declineRatioThreshold),
          "improve_ratio_threshold" := Num(config.improveRatioThreshold),
          "max_reasonable_gap_days" := Int(config.maxReasonableGapDays),
          "baseline_window_days" := Int(config.baselineWindowDays)],
      map["as_of_ts" := Time(input.asOfTs),
          "last_trip_ts" := OptTime(input.lastTripTs),
          "prev_trip_ts" := OptTime(input.prevTripTs),
          "recent_gap_days" := OptNum(input.recentGapDays),
          "baseline_avg_gap_days" := OptNum(input.baselineAvgGapDays),
          "baseline_trip_count" := OptInt(input.baselineTripCount),
          "ratio" := OptNum(ratio)],
      now);
    var metrics := TrendMetrics(input, ratio);
    var confidence := if rule.IsRatioRule() then HIGH else LOW;
    var decision := DecisionResult(
      TrendState(rule), confidence, [RuleId(rule)], metrics, [evidenceId],
      VersionInfo(config.primitiveVersion, config.canonicalVersion, input.configVersion),
      now, None);
    PrimitiveResult(decision, EvidenceSet([evidence]))
  }

  /**
   * The ratio thresholds read without division: with a positive baseline,
   * ratio >= t exactly when recent >= t * baseline (and likewise for <=).
   */
  lemma {:induction false} RatioThresholdsCrossMultiplied(input: ShopperFrequencyInput, config: FrequencyTrendConfig)
    requires RatioComputable(input, config)
    ensures var recent := input.recentGapDays.value;
            var baseline := input.baselineAvgGapDays.value;
            (ClassifyTrend(input, config).CadenceSlowing? <==> recent >= config.declineRatioThreshold * baseline)
            && (ClassifyTrend(input, config).CadenceAccelerating? <==>
                  recent < config.declineRatioThreshold * baseline
                  && recent <= config.improveRatioThreshold * baseline)
  {
    var recent := input.recentGapDays.value;
    var baseline := input.baselineAvgGapDays.value;
    var ratio := Ratio(input, config);
    assert ratio * baseline == recent;
    ScaleCompare(ratio, config.declineRatioThreshold, baseline);
    ScaleCompare(ratio, config.improveRatioThreshold, baseline);
  }

  /** Multiplying both sides by a positive number keeps their order. */
  lemma ScaleCompare(x: real, t: real, k: real)
    requires k > 0.0
    ensures x >= t <==> x * k >= t * k
    ensures x <= t <==> x * k <= t * k
  {
  }

  /** Position of a known state on the cadence scale, from accelerating to slowing. */
  function CadenceRank(rule: TrendRule): int
  {
    match rule
    case CadenceAccelerating => 0
    case CadenceStable => 1
    case _ => 2
  }

  /**
   * Against the same baseline, a longer recent gap never moves the shopper
   * towards IMPROVING: the classification is monotone in the recent gap.
   */
  lemma TrendMonotoneInRecentGap(input: ShopperFrequencyInput, config: FrequencyTrendConfig, longer: real)
    requires RatioComputable(input, config)
    requires input.recentGapDays.value <= longer <= config.maxReasonableGapDays as real
    ensures var slower := input.(recentGapDays := Some(longer));
            RatioComputable(slower, config)
            && CadenceRank(ClassifyTrend(input, config)) <= CadenceRank(ClassifyTrend(slower, config))
  {
    var slower := input.(recentGapDays := Some(longer));
    var baseline := input.baselineAvgGapDays.value;
    DivideMonotone(input.recentGapDays.value, longer, baseline);
    assert Ratio(input, config) <= Ratio(slower, config);
  }

  lemma DivideMonotone(a: real, b: real, k: real)
    requires k > 0.0 && a <= b
    ensures a / k <= b / k
  {
    assert a / k * k == a;
    assert b / k * k == b;
  }

  /**
   * Building the input from two known trip dates, with no explicit gap,
   * never leaves the recent gap missing: the evaluator then reaches a ratio
   * rule whenever the baseline is sufficient and valid and the gap plausible.
   */
  lemma NewWithTripsHasRecentGap(
    tenantId: string, subjectId: string, asOfTs: int, last: int, prev: int, configVersion: string,
    baselineAvgGapDays: Option<real>, baselineTripCount: Option<int>, config: FrequencyTrendConfig)
    ensures var input := NewFrequencyInput(tenantId, subjectId, asOfTs, Some(last), Some(prev), configVersion,
                                           baselineAvgGapDays := baselineAvgGapDays,
                                           baselineTripCount := baselineTripCount);
            ClassifyTrend(input, config) != RecentGapMissing
            && (prev <= last ==> input.recentGapDays.value >= 0.0)
  {
  }
}
