// The warehouse inputs adapter, after its queries: the rows a query
// returns (taken here as already fetched, in the query's order) become the
// inputs of one primitive. Timestamps, dates, numbers and JSON arrive
// already parsed; a value that failed to parse is `None`.
module InputsRepo {
  import opened Wrappers
  import opened Common
  import opened TableNames
  import opened RowCells
  import opened RowDedup
  import opened Rollups
  import OperationalRisk
  import FrequencyTrend
  import HealthClassification
  import OrderLineRisk
  import OrderRisk
  import CustomerImpact

  const RECENCY_INPUT_TABLE: string := "gold_canonical_shopper_recency_input_v1"
  const FREQUENCY_INPUT_TABLE: string := "gold_canonical_shopper_frequency_input_v1"
  const ORDER_LINE_INPUT_TABLE: string := "gold_canonical_order_line_fulfillment_input_v1"
  const DECISION_OUTPUT_TABLE: string := "gold_decision_output_v1"

  /** A scalar as the SQL client returns it, for the columns whose type the adapter inspects. */
  datatype Raw = RNull | RBool(b: bool) | RInt(i: int) | RNum(x: real) | RText(s: string)

  // ---- Row-per-subject fetches ------------------------------------------------

  datatype OperationalRiskRow = OperationalRiskRow(
    tenantId: Cell<string>,
    subjectType: Cell<string>,
    subjectId: Cell<string>,
    asOfTs: Option<int>,
    lastTripTs: Option<int>,
    daysSinceLastTrip: Option<int>,
    configVersion: Cell<string>)

  function RecencySubject(row: OperationalRiskRow): string
  {
    StrOr(row.subjectId, "")
  }

  /** `_compute_days_since_last_trip`: the calendar days from the last trip to the as-of time. */
  function DaysSinceLastTrip(lastTripTs: Option<int>, asOfTs: int): (days: Option<int>)
    ensures days.None? <==> lastTripTs.None?
    ensures days.Some? ==> days.value == DayOf(asOfTs) - DayOf(lastTripTs.value)
    ensures days.Some? && lastTripTs.value <= asOfTs ==> days.value >= 0
  {
    if lastTripTs.None? then None else Some(DaysBetween(lastTripTs.value, asOfTs))
  }

  /**
   * One recency row as an operational-risk input: none without an as-of
   * time; a missing day count is filled from the last trip; the canonical
   * version is the config version.
   */
  function BuildOperationalRisk(tenant: string, row: OperationalRiskRow): (r: Option<OperationalRisk.OperationalRiskInput>)
    ensures r.None? <==> row.asOfTs.None?
    ensures r.Some? ==>
              var i := r.value;
              i.subjectId == RecencySubject(row) && i.tenantId == StrOr(row.tenantId, tenant)
              && i.subjectType == StrOr(row.subjectType, "shopper") && i.asOfTs == row.asOfTs.value
              && i.lastTripTs == row.lastTripTs
              && i.configVersion == StrOr(row.configVersion, "") && i.canonicalVersion == i.configVersion
              && (row.daysSinceLastTrip.Some? ==> i.daysSinceLastTrip == row.daysSinceLastTrip)
              && (row.daysSinceLastTrip.None? ==> i.daysSinceLastTrip == DaysSinceLastTrip(row.lastTripTs, i.asOfTs))
  {
    if row.asOfTs.None? then None
    else
      var asOf := row.asOfTs.value;
      var days := if row.daysSinceLastTrip.None? && row.lastTripTs.Some?
                  then DaysSinceLastTrip(row.lastTripTs, asOf) else row.daysSinceLastTrip;
      var config := StrOr(row.configVersion, "");
      Some(OperationalRisk.OperationalRiskInput(
        StrOr(row.tenantId, tenant), StrOr(row.subjectType, "shopper"), RecencySubject(row),
        asOf, row.lastTripTs, days, config, config))
  }

  /** A day count the adapter fills in is the one the evaluator would compute itself. */
  lemma FilledDaysAgreeWithEvaluator(tenant: string, row: OperationalRiskRow)
    requires row.asOfTs.Some? && row.lastTripTs.Some? && row.daysSinceLastTrip.None?
    ensures BuildOperationalRisk(tenant, row).Some?
    ensures var i := BuildOperationalRisk(tenant, row).value;
            i.daysSinceLastTrip.Some? && OperationalRisk.DaysUsed(i) == i.daysSinceLastTrip
  {
  }

  datatype FrequencyRow = FrequencyRow(
    tenantId: Cell<string>,
    subjectType: Cell<string>,
    subjectId: Cell<string>,
    asOfTs: Option<int>,
    lastTripTs: Option<int>,
    prevTripTs: Option<int>,
    recentGapDays: Option<real>,
    baselineAvgGapDays: Option<real>,
    baselineTripCount: Option<int>,
    baselineWindowDays: Option<int>,
    configVersion: Cell<string>)

  function FrequencySubject(row: FrequencyRow): string
  {
    StrOr(row.subjectId, "")
  }

  /** One frequency row as a frequency-trend input at canonical version "v1"; none without an as-of time. */
  function BuildFrequency(tenant: string, row: FrequencyRow): (r: Option<FrequencyTrend.ShopperFrequencyInput>)
    ensures r.None? <==> row.asOfTs.None?
    ensures r.Some? ==>
              var i := r.value;
              i.subjectId == FrequencySubject(row) && i.tenantId == StrOr(row.tenantId, tenant)
              && i.subjectType == StrOr(row.subjectType, "shopper") && i.asOfTs == row.asOfTs.value
              && i.canonicalVersion == "v1" && i.configVersion == StrOr(row.configVersion, "")
              && i.lastTripTs == row.lastTripTs && i.prevTripTs == row.prevTripTs
              && i.baselineAvgGapDays == row.baselineAvgGapDays && i.baselineTripCount == row.baselineTripCount
              && i.baselineWindowDays == row.baselineWindowDays
              && (row.recentGapDays.Some? ==> i.recentGapDays == row.recentGapDays)
  {
    if row.asOfTs.None? then None
    else
      Some(FrequencyTrend.NewFrequencyInput(
        StrOr(row.tenantId, tenant), FrequencySubject(row), row.asOfTs.value, row.lastTripTs, row.prevTripTs,
        StrOr(row.configVersion, ""), "v1", StrOr(row.subjectType, "shopper"),
        row.recentGapDays, row.baselineAvgGapDays, row.baselineTripCount, row.baselineWindowDays))
  }

  datatype OrderLineRow = OrderLineRow(
    tenantId: Cell<string>,
    subjectType: Cell<string>,
    subjectId: Cell<string>,
    asOfTs: Option<int>,
    needByDate: Option<int>,
    openQuantity: Option<real>,
    projectedAvailableQuantity: Option<real>,
    orderStatus: Option<string>,
    isOnHold: Raw,
    releaseShortageQty: Option<real>,
    plantShortageQty: Option<real>,
    projectedOnhandQtyEod: Option<real>,
    supplyQty: Option<real>,
    demandQty: Option<real>,
    partnum: Option<string>,
    customerId: Option<string>,
    ordernum: Raw,
    orderline: Option<int>,
    orderrelnum: Option<int>,
    plant: Option<string>,
    warehouse: Option<string>,
    configVersion: Cell<string>,
    canonicalVersion: Cell<string>)

  function OrderLineSubject(row: OrderLineRow): string
  {
    StrOr(row.subjectId, "")
  }

  /** `str.lower()` restricted to ASCII. */
  function Lower(s: string): (l: string)
    ensures |l| == |s|
    ensures forall i :: 0 <= i < |s| ==> l[i] == if 'A' <= s[i] <= 'Z' then (s[i] as int + 32) as char else s[i]
  {
    seq(|s|, i requires 0 <= i < |s| => if 'A' <= s[i] <= 'Z' then (s[i] as int + 32) as char else s[i])
  }

  /** The on-hold flag: a boolean as is, text by its spelling, a number by being non-zero. */
  function ParseOnHold(v: Raw): (b: Option<bool>)
    ensures b.None? <==> v.RNull?
  {
    match v
    case RNull => None
    case RBool(b) => Some(b)
    case RText(s) => Some(Lower(s) in ["true", "1", "yes", "t"])
    case RInt(i) => Some(i != 0)
    case RNum(x) => Some(x != 0.0)
  }

  /** The order number: a whole float becomes an integer; text and integers are kept. */
  function ParseOrdernum(v: Raw): (o: Option<Value>)
    ensures o.None? <==> v.RNull?
  {
    match v
    case RNull => None
    case RBool(b) => Some(Bool(b))
    case RInt(i) => Some(Int(i))
    case RNum(x) => if x.Floor as real == x then Some(Int(x.Floor)) else Some(Num(x))
    case RText(s) => Some(Str(s))
  }

  /** Lower-casing twice is lower-casing once. */
  lemma LowerIdempotent(s: string)
    ensures Lower(Lower(s)) == Lower(s)
  {
  }

  /** The on-hold spelling is read case-insensitively: "TRUE", "Yes" and "t" all mean on hold. */
  lemma OnHoldIgnoresCase(s: string)
    ensures ParseOnHold(RText(Lower(s))) == ParseOnHold(RText(s))
    ensures ParseOnHold(RText("TRUE")) == Some(true) && ParseOnHold(RText("Yes")) == Some(true)
    ensures ParseOnHold(RText("no")) == Some(false)
  {
    LowerIdempotent(s);
    assert Lower("TRUE") == "true";
    assert Lower("Yes") == "yes";
    assert Lower("no") == "no";
  }

  /** A whole-number float order number and the same integer give the same order number, and so the same order. */
  lemma WholeOrdernumIsInteger(n: int)
    ensures ParseOrdernum(RNum(n as real)) == ParseOrdernum(RInt(n)) == Some(Int(n))
  {
  }

  /** One order-line row as an order-line input; none without an as-of time. */
  function BuildOrderLine(tenant: string, row: OrderLineRow): (r: Option<OrderLineRisk.OrderLineInput>)
    ensures r.None? <==> row.asOfTs.None?
    ensures r.Some? ==>
              var i := r.value;
              i.subjectId == OrderLineSubject(row) && i.tenantId == StrOr(row.tenantId, tenant)
              && i.subjectType == StrOr(row.subjectType, "order_line") && i.asOfTs == row.asOfTs.value
              && i.canonicalVersion == StrOr(row.canonicalVersion, "v1") && i.configVersion == StrOr(row.configVersion, "")
              && i.isOnHold == ParseOnHold(row.isOnHold) && i.ordernum == ParseOrdernum(row.ordernum)
              && i.openQuantity == row.openQuantity && i.needByDate == row.needByDate
  {
    if row.asOfTs.None? then None
    else
      Some(OrderLineRisk.OrderLineInput(
        StrOr(row.tenantId, tenant), StrOr(row.subjectType, "order_line"), OrderLineSubject(row), row.asOfTs.value,
        row.needByDate, row.openQuantity, row.projectedAvailableQuantity, row.orderStatus, ParseOnHold(row.isOnHold),
        row.releaseShortageQty, row.plantShortageQty, row.projectedOnhandQtyEod, row.supplyQty, row.demandQty,
        row.partnum, row.customerId, ParseOrdernum(row.ordernum), row.orderline, row.orderrelnum,
        row.plant, row.warehouse, StrOr(row.canonicalVersion, "v1"), StrOr(row.configVersion, "")))
  }

  // ---- The health pivot ---------------------------------------------------------

  /** One pivoted row: each side's state, evidence refs (parsed, empty when unusable) and source time. */
  datatype HealthRow = HealthRow(
    tenantId: Cell<string>,
    subjectType: Cell<string>,
    subjectId: Cell<string>,
    asOfTs: Option<int>,
    riskState: Option<string>,
    riskEvidenceRefs: seq<string>,
    riskSourceAsOfTs: Option<int>,
    trendState: Option<string>,
    trendEvidenceRefs: seq<string>,
    trendSourceAsOfTs: Option<int>,
    configVersion: Cell<string>)

  /**
   * One pivoted row as a health input: none for an empty subject id or a
   * missing as-of time; a missing state becomes "UNKNOWN" with no refs.
   */
  function BuildShopperHealth(tenant: string, row: HealthRow): (r: Option<HealthClassification.ShopperHealthInput>)
    ensures r.None? <==> StrOr(row.subjectId, "") == "" || row.asOfTs.None?
    ensures r.Some? ==>
              var i := r.value;
              i.subjectId == StrOr(row.subjectId, "") && i.tenantId == StrOr(row.tenantId, tenant)
              && i.subjectType == StrOr(row.subjectType, "shopper") && i.asOfTs == row.asOfTs.value
              && i.canonicalVersion == "v1" && i.configVersion == StrOr(row.configVersion, "")
              && i.riskState == Some(row.riskState.GetOr("UNKNOWN"))
              && i.trendState == Some(row.trendState.GetOr("UNKNOWN"))
              && i.riskEvidenceRefs == (if row.riskState.None? then [] else row.riskEvidenceRefs)
              && i.trendEvidenceRefs == (if row.trendState.None? then [] else row.trendEvidenceRefs)
              && i.riskSourceAsOfTs == row.riskSourceAsOfTs && i.trendSourceAsOfTs == row.trendSourceAsOfTs
  {
    var subject := StrOr(row.subjectId, "");
    if subject == "" || row.asOfTs.None? then None
    else
      var riskRefs := if row.riskState.None? then [] else row.riskEvidenceRefs;
      var trendRefs := if row.trendState.None? then [] else row.trendEvidenceRefs;
      Some(HealthClassification.NewShopperHealthInput(
        StrOr(row.tenantId, tenant), subject, row.asOfTs.value, StrOr(row.configVersion, ""), "v1",
        StrOr(row.subjectType, "shopper"),
        Some(row.riskState.GetOr("UNKNOWN")), Some(row.trendState.GetOr("UNKNOWN")),
        Some(riskRefs), Some(trendRefs), row.riskSourceAsOfTs, row.trendSourceAsOfTs))
  }

  /** A NULL subject id is rendered "None", which is not empty, so such a row is kept under that subject. */
  lemma NullHealthSubjectKept(tenant: string, row: HealthRow)
    requires row.subjectId.Null? && row.asOfTs.Some?
    ensures BuildShopperHealth(tenant, row).Some? && BuildShopperHealth(tenant, row).value.subjectId == "None"
  {
  }

  // ---- What the row-per-subject fetches return ------------------------------------

  /**
   * The operational-risk fetch yields at most one input per subject, built
   * from that subject's first row, and none for a subject whose first row
   * has no as-of time, even when a later row has one.
   */
  lemma OperationalRiskInputsPerSubject(tenant: string, rows: seq<OperationalRiskRow>, s: string)
    ensures forall i, j :: 0 <= i < j < |Built(KeepFirst(rows, RecencySubject), tenant, BuildOperationalRisk)| ==>
              Built(KeepFirst(rows, RecencySubject), tenant, BuildOperationalRisk)[i].subjectId != Built(KeepFirst(rows, RecencySubject), tenant, BuildOperationalRisk)[j].subjectId
    ensures forall y :: y in Built(KeepFirst(rows, RecencySubject), tenant, BuildOperationalRisk) ==>
              FirstWith(rows, RecencySubject, y.subjectId).Some?
              && BuildOperationalRisk(tenant, FirstWith(rows, RecencySubject, y.subjectId).value) == Some(y)
    ensures FirstWith(rows, RecencySubject, s).Some? && FirstWith(rows, RecencySubject, s).value.asOfTs.None? ==>
              forall y :: y in Built(KeepFirst(rows, RecencySubject), tenant, BuildOperationalRisk) ==> y.subjectId != s
  {
    var subjectOf := (i: OperationalRisk.OperationalRiskInput) => i.subjectId;
    FirstRowInputs(rows, RecencySubject, tenant, BuildOperationalRisk, subjectOf);
    if FirstWith(rows, RecencySubject, s).Some? {
      FirstRowDecides(rows, RecencySubject, tenant, BuildOperationalRisk, subjectOf, s);
    }
  }

  /** The same for the frequency fetch. */
  lemma FrequencyInputsPerSubject(tenant: string, rows: seq<FrequencyRow>, s: string)
    ensures forall i, j :: 0 <= i < j < |Built(KeepFirst(rows, FrequencySubject), tenant, BuildFrequency)| ==>
              Built(KeepFirst(rows, FrequencySubject), tenant, BuildFrequency)[i].subjectId != Built(KeepFirst(rows, FrequencySubject), tenant, BuildFrequency)[j].subjectId
    ensures forall y :: y in Built(KeepFirst(rows, FrequencySubject), tenant, BuildFrequency) ==>
              FirstWith(rows, FrequencySubject, y.subjectId).Some?
              && BuildFrequency(tenant, FirstWith(rows, FrequencySubject, y.subjectId).value) == Some(y)
    ensures FirstWith(rows, FrequencySubject, s).Some? && FirstWith(rows, FrequencySubject, s).value.asOfTs.None? ==>
              forall y :: y in Built(KeepFirst(rows, FrequencySubject), tenant, BuildFrequency) ==> y.subjectId != s
  {
    var subjectOf := (i: FrequencyTrend.ShopperFrequencyInput) => i.subjectId;
    FirstRowInputs(rows, FrequencySubject, tenant, BuildFrequency, subjectOf);
    if FirstWith(rows, FrequencySubject, s).Some? {
      FirstRowDecides(rows, FrequencySubject, tenant, BuildFrequency, subjectOf, s);
    }
  }

  /** The same for the order-line fetch. */
  lemma OrderLineInputsPerSubject(tenant: string, rows: seq<OrderLineRow>, s: string)
    ensures forall i, j :: 0 <= i < j < |Built(KeepFirst(rows, OrderLineSubject), tenant, BuildOrderLine)| ==>
              Built(KeepFirst(rows, OrderLineSubject), tenant, BuildOrderLine)[i].subjectId != Built(KeepFirst(rows, OrderLineSubject), tenant, BuildOrderLine)[j].subjectId
    ensures forall y :: y in Built(KeepFirst(rows, OrderLineSubject), tenant, BuildOrderLine) ==>
              FirstWith(rows, OrderLineSubject, y.subjectId).Some?
              && BuildOrderLine(tenant, FirstWith(rows, OrderLineSubject, y.subjectId).value) == Some(y)
    ensures FirstWith(rows, OrderLineSubject, s).Some? && FirstWith(rows, OrderLineSubject, s).value.asOfTs.None? ==>
              forall y :: y in Built(KeepFirst(rows, OrderLineSubject), tenant, BuildOrderLine) ==> y.subjectId != s
  {
    var subjectOf := (i: OrderLineRisk.OrderLineInput) => i.subjectId;
    FirstRowInputs(rows, OrderLineSubject, tenant, BuildOrderLine, subjectOf);
    if FirstWith(rows, OrderLineSubject, s).Some? {
      FirstRowDecides(rows, OrderLineSubject, tenant, BuildOrderLine, subjectOf, s);
    }
  }

  // ---- The adapter ------------------------------------------------------------------

  class DatabricksInputsRepository {
    const settings: WarehouseSettings
    const inputTableName: string

    /** The recency table defaults to the prefixed canonical recency table when not given (or empty). */
    constructor (settings: WarehouseSettings, inputTable: Option<string>)
      ensures this.settings == settings
      ensures inputTableName == if Truthy(inputTable) then inputTable.value else settings.tablePrefix + RECENCY_INPUT_TABLE
    {
      this.settings := settings;
      inputTableName := if Truthy(inputTable) then inputTable.value else settings.tablePrefix + RECENCY_INPUT_TABLE;
    }

    /** `_build_table_name_for_primitive`: the prefixed table, qualified by catalog and schema. */
    function TableNameForPrimitive(suffix: string): string
    {
      QualifiedName(settings, settings.tablePrefix + suffix)
    }

    /** `fetch_operational_risk_inputs`: the first row of each subject of the recency table. */
    method FetchOperationalRiskInputs(ctx: RunContext, rows: seq<OperationalRiskRow>)
      returns (table: string, inputs: seq<OperationalRisk.OperationalRiskInput>)
      ensures table == QualifiedName(settings, inputTableName)
      ensures inputs == Built(KeepFirst(rows, RecencySubject), ctx.tenantId, BuildOperationalRisk)
    {
      table := QualifiedName(settings, inputTableName);
      inputs := FirstRowPerSubject(rows, RecencySubject, ctx.tenantId, BuildOperationalRisk);
    }

    /** `fetch_shopper_frequency_inputs`: the first row of each subject of the frequency table. */
    method FetchShopperFrequencyInputs(ctx: RunContext, rows: seq<FrequencyRow>)
      returns (table: string, inputs: seq<FrequencyTrend.ShopperFrequencyInput>)
      ensures table == TableNameForPrimitive(FREQUENCY_INPUT_TABLE)
      ensures inputs == Built(KeepFirst(rows, FrequencySubject), ctx.tenantId, BuildFrequency)
    {
      table := TableNameForPrimitive(FREQUENCY_INPUT_TABLE);
      inputs := FirstRowPerSubject(rows, FrequencySubject, ctx.tenantId, BuildFrequency);
    }

    /** `fetch_order_line_fulfillment_inputs`: the first row of each subject of the order-line table. */
    method FetchOrderLineFulfillmentInputs(ctx: RunContext, rows: seq<OrderLineRow>)
      returns (table: string, inputs: seq<OrderLineRisk.OrderLineInput>)
      ensures table == TableNameForPrimitive(ORDER_LINE_INPUT_TABLE)
      ensures inputs == Built(KeepFirst(rows, OrderLineSubject), ctx.tenantId, BuildOrderLine)
    {
      table := TableNameForPrimitive(ORDER_LINE_INPUT_TABLE);
      inputs := FirstRowPerSubject(rows, OrderLineSubject, ctx.tenantId, BuildOrderLine);
    }

    /** `fetch_shopper_health_inputs`: every pivoted row that has a subject and an as-of time, in order. */
    method FetchShopperHealthInputs(ctx: RunContext, rows: seq<HealthRow>)
      returns (table: string, inputs: seq<HealthClassification.ShopperHealthInput>)
      ensures table == TableNameForPrimitive(DECISION_OUTPUT_TABLE)
      ensures inputs == Built(rows, ctx.tenantId, BuildShopperHealth)
    {
      table := TableNameForPrimitive(DECISION_OUTPUT_TABLE);
      inputs := [];
      var i := 0;
      while i < |rows|
        invariant 0 <= i <= |rows|
        invariant inputs == Built(rows[..i], ctx.tenantId, BuildShopperHealth)
      {
        assert rows[..i + 1] == rows[..i] + [rows[i]];
        BuiltSnoc(rows[..i], rows[i], ctx.tenantId, BuildShopperHealth);
        var input := BuildShopperHealth(ctx.tenantId, rows[i]);
        if input.Some? {
          inputs := inputs + [input.value];
        }
        i := i + 1;
      }
      assert rows[..i] == rows;
    }

    /** `fetch_order_risk_inputs`: latest order-line decisions grouped by ordernum, one input per group. */
    method FetchOrderRiskInputs(ctx: RunContext, rows: seq<DecisionRecord>)
      returns (table: string, inputs: seq<OrderRisk.OrderRiskInput>)
      ensures table == TableNameForPrimitive(DECISION_OUTPUT_TABLE)
      ensures inputs == Rollup(Built(rows, ctx.tenantId, OrderKeyed), OrderInputOf)
    {
      table := TableNameForPrimitive(DECISION_OUTPUT_TABLE);
      var groups, keys := GroupRows(rows, ctx.tenantId, OrderKeyed);
      GroupedKeysReadable(rows, ctx.tenantId, OrderKeyed, groups, keys);
      inputs := EmitInputs(Built(rows, ctx.tenantId, OrderKeyed), groups, keys, OrderInputOf);
    }

    /** `fetch_customer_impact_inputs`: latest order decisions grouped by customer id, one input per group. */
    method FetchCustomerImpactInputs(ctx: RunContext, rows: seq<DecisionRecord>)
      returns (table: string, inputs: seq<CustomerImpact.CustomerImpactInput>)
      ensures table == TableNameForPrimitive(DECISION_OUTPUT_TABLE)
      ensures inputs == Rollup(Built(rows, ctx.tenantId, CustomerKeyed), CustomerInputOf)
    {
      table := TableNameForPrimitive(DECISION_OUTPUT_TABLE);
      var groups, keys := GroupRows(rows, ctx.tenantId, CustomerKeyed);
      GroupedKeysReadable(rows, ctx.tenantId, CustomerKeyed, groups, keys);
      inputs := EmitInputs(Built(rows, ctx.tenantId, CustomerKeyed), groups, keys, CustomerInputOf);
    }
  }

  /** The two table-name builders agree: the recency table set to prefix + suffix is named as the primitive table. */
  lemma TableNameBuildersAgree(repo: DatabricksInputsRepository, suffix: string)
    requires repo.inputTableName == repo.settings.tablePrefix + suffix
    ensures repo.TableNameForPrimitive(suffix) == QualifiedName(repo.settings, repo.inputTableName)
    ensures !Truthy(repo.settings.catalog) && !Truthy(repo.settings.schema) ==>
              repo.TableNameForPrimitive(suffix) == repo.settings.tablePrefix + suffix
  {
  }
}
