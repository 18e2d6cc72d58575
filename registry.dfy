// The primitive registry: evaluators keyed by (name, version) and input
// fetch-method names keyed by name alone, with fail-fast lookups.
module PrimitiveRegistry {
  import opened Wrappers

  /** The evaluators the registry can hold, one per evaluator function of the runtime. */
  datatype Evaluator =
    | EvaluateOperationalRisk
    | EvaluateShopperFrequencyTrend
    | EvaluateShopperHealthClassification
    | EvaluateShopperItemAffinityScore
    | EvaluateOrderLineFulfillmentRisk
    | EvaluateOrderFulfillmentRisk
    | EvaluateCustomerOrderImpactRisk
    | EvaluateShopperWeeklyAdSlate
    | EvaluateShopperCouponOfferSet

  datatype RegistryError =
    | UnknownPrimitiveError(message: string)
    | PrimitiveVersionMismatch(message: string)

  const DEFAULT_VERSION: string := "1.0.0"

  /** The nine registrations made on construction, in their order: name, evaluator, fetch method. */
  const BuiltIns: seq<(string, Evaluator, string)> := [
    ("operational_risk", EvaluateOperationalRisk, "fetch_operational_risk_inputs"),
    ("shopper_frequency_trend", EvaluateShopperFrequencyTrend, "fetch_shopper_frequency_inputs"),
    ("shopper_health_classification", EvaluateShopperHealthClassification, "fetch_shopper_health_inputs"),
    ("shopper_item_affinity_score", EvaluateShopperItemAffinityScore, "fetch_shopper_item_affinity_inputs"),
    ("order_line_fulfillment_risk", EvaluateOrderLineFulfillmentRisk, "fetch_order_line_fulfillment_inputs"),
    ("order_fulfillment_risk", EvaluateOrderFulfillmentRisk, "fetch_order_risk_inputs"),
    ("customer_order_impact_risk", EvaluateCustomerOrderImpactRisk, "fetch_customer_impact_inputs"),
    ("shopper_weekly_ad_slate", EvaluateShopperWeeklyAdSlate, "fetch_shopper_weekly_ad_slate_inputs"),
    ("shopper_coupon_offer_set", EvaluateShopperCouponOfferSet, "fetch_shopper_coupon_offer_set_inputs")
  ]

  /** The evaluator table after registering `regs` in order, each at `DEFAULT_VERSION`. */
  function EvaluatorsAfter(regs: seq<(string, Evaluator, string)>): map<(string, string), Evaluator>
  {
    if regs == [] then map[]
    else EvaluatorsAfter(regs[..|regs| - 1])[(regs[|regs| - 1].0, DEFAULT_VERSION) := regs[|regs| - 1].1]
  }

  /** The fetch-method table after registering `regs` in order. */
  function FetchersAfter(regs: seq<(string, Evaluator, string)>): map<string, string>
  {
    if regs == [] then map[]
    else FetchersAfter(regs[..|regs| - 1])[regs[|regs| - 1].0 := regs[|regs| - 1].2]
  }

  /** The names of `regs`, in order. */
  function NamesOf(regs: seq<(string, Evaluator, string)>): (names: seq<string>)
    ensures |names| == |regs| && forall i :: 0 <= i < |regs| ==> names[i] == regs[i].0
  {
    seq(|regs|, i requires 0 <= i < |regs| => regs[i].0)
  }

  /** Registration at the default version registers exactly the names, at that version only. */
  lemma {:induction false} RegisteredKeys(regs: seq<(string, Evaluator, string)>)
    ensures forall k :: k in EvaluatorsAfter(regs) <==> k.1 == DEFAULT_VERSION && k.0 in NamesOf(regs)
    ensures forall n :: n in FetchersAfter(regs) <==> n in NamesOf(regs)
    decreases |regs|
  {
    if regs != [] {
      var p := regs[..|regs| - 1];
      RegisteredKeys(p);
      assert NamesOf(regs) == NamesOf(p) + [regs[|regs| - 1].0];
    }
  }

  /** With distinct names, each registration is found with its own evaluator and fetch method. */
  lemma {:induction false} RegisteredValues(regs: seq<(string, Evaluator, string)>)
    requires forall i, j :: 0 <= i < j < |regs| ==> regs[i].0 != regs[j].0
    ensures forall i :: 0 <= i < |regs| ==>
              (regs[i].0, DEFAULT_VERSION) in EvaluatorsAfter(regs)
              && EvaluatorsAfter(regs)[(regs[i].0, DEFAULT_VERSION)] == regs[i].1
              && regs[i].0 in FetchersAfter(regs)
              && FetchersAfter(regs)[regs[i].0] == regs[i].2
    decreases |regs|
  {
    if regs != [] {
      var p := regs[..|regs| - 1];
      RegisteredValues(p);
      forall i | 0 <= i < |p|
        ensures regs[i] == p[i] && regs[i].0 != regs[|regs| - 1].0
      {
      }
    }
  }

  class Registry {
    var evaluators: map<(string, string), Evaluator>
    var inputFetchers: map<string, string>

    /** Registers the nine built-in primitives, each at version "1.0.0". */
    constructor ()
      ensures evaluators == EvaluatorsAfter(BuiltIns) && inputFetchers == FetchersAfter(BuiltIns)
    {
      evaluators := map[];
      inputFetchers := map[];
      new;
      var i := 0;
      while i < |BuiltIns|
        invariant 0 <= i <= |BuiltIns|
        invariant evaluators == EvaluatorsAfter(BuiltIns[..i]) && inputFetchers == FetchersAfter(BuiltIns[..i])
      {
        var (name, fn, fetch) := BuiltIns[i];
        assert BuiltIns[..i + 1][..i] == BuiltIns[..i];
        Register(name, DEFAULT_VERSION, fn, fetch);
        i := i + 1;
      }
      assert BuiltIns[..i] == BuiltIns;
    }

    /** `register`: overwrites the evaluator of (name, version) and the fetch method of name; nothing else changes. */
    method Register(name: string, version: string, fn: Evaluator, fetchMethod: string)
      modifies this
      ensures evaluators == old(evaluators)[(name, version) := fn]
      ensures inputFetchers == old(inputFetchers)[name := fetchMethod]
    {
      evaluators := evaluators[(name, version) := fn];
      inputFetchers := inputFetchers[name := fetchMethod];
    }

    /** `get`: the registered evaluator, or UnknownPrimitiveError. */
    function Get(name: string, version: string): (r: Result<Evaluator, RegistryError>)
      reads this
      ensures r.Ok? <==> (name, version) in evaluators
      ensures r.Ok? ==> r.value == evaluators[(name, version)]
      ensures r.Err? ==> r.error == UnknownPrimitiveError("Primitive " + name + " version " + version + " not registered")
    {
      if (name, version) !in evaluators
      then Err(UnknownPrimitiveError("Primitive " + name + " version " + version + " not registered"))
      else Ok(evaluators[(name, version)])
    }

    /** `get_input_fetch_method`: the fetch-method name for a name, or UnknownPrimitiveError. */
    function GetInputFetchMethod(name: string): (r: Result<string, RegistryError>)
      reads this
      ensures r.Ok? <==> name in inputFetchers
      ensures r.Ok? ==> r.value == inputFetchers[name]
      ensures r.Err? ==> r.error.UnknownPrimitiveError?
    {
      if name !in inputFetchers
      then Err(UnknownPrimitiveError("Primitive " + name + " has no registered input fetch method"))
      else Ok(inputFetchers[name])
    }

    /** `ensure_version`: PrimitiveVersionMismatch exactly when (name, version) is unregistered. */
    function EnsureVersion(name: string, requested: string, configVersion: string): (r: Option<RegistryError>)
      reads this
      ensures r.None? <==> (name, requested) in evaluators
      ensures r.Some? ==> r.value == PrimitiveVersionMismatch(
                "Primitive " + name + " version " + requested + " not supported for config " + configVersion)
    {
      if (name, requested) !in evaluators
      then Some(PrimitiveVersionMismatch("Primitive " + name + " version " + requested + " not supported for config " + configVersion))
      else None
    }
  }

  /** When `ensure_version` passes, `get` on the same pair succeeds; when it fails, `get` fails too. */
  lemma EnsureVersionThenGet(reg: Registry, name: string, version: string, configVersion: string)
    ensures reg.EnsureVersion(name, version, configVersion).None? <==> reg.Get(name, version).Ok?
  {
  }

  /** Registering one pair leaves every other lookup as it was. */
  lemma RegisterIsLocal(before: map<(string, string), Evaluator>, fetchBefore: map<string, string>,
                        name: string, version: string, fn: Evaluator, fetch: string,
                        otherName: string, otherVersion: string)
    requires (otherName, otherVersion) != (name, version)
    ensures var after := before[(name, version) := fn];
            ((otherName, otherVersion) in after <==> (otherName, otherVersion) in before)
            && ((otherName, otherVersion) in before ==> after[(otherName, otherVersion)] == before[(otherName, otherVersion)])
    ensures otherName != name ==>
              var fetchAfter := fetchBefore[name := fetch];
              (otherName in fetchAfter <==> otherName in fetchBefore)
              && (otherName in fetchBefore ==> fetchAfter[otherName] == fetchBefore[otherName])
  {
  }

  /**
   * After construction exactly the nine built-in names are registered, each
   * at "1.0.0" only, with its own evaluator and fetch method.
   */
  lemma BuiltInsRegistered()
    ensures forall k :: k in EvaluatorsAfter(BuiltIns) <==> k.1 == DEFAULT_VERSION && k.0 in NamesOf(BuiltIns)
    ensures forall n :: n in FetchersAfter(BuiltIns) <==> n in NamesOf(BuiltIns)
    ensures forall i :: 0 <= i < |BuiltIns| ==>
              (BuiltIns[i].0, DEFAULT_VERSION) in EvaluatorsAfter(BuiltIns)
              && EvaluatorsAfter(BuiltIns)[(BuiltIns[i].0, DEFAULT_VERSION)] == BuiltIns[i].1
              && BuiltIns[i].0 in FetchersAfter(BuiltIns)
              && FetchersAfter(BuiltIns)[BuiltIns[i].0] == BuiltIns[i].2
    ensures |BuiltIns| == 9
  {
    RegisteredKeys(BuiltIns);
    RegisteredValues(BuiltIns);
  }
}
