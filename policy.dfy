/**
 * The local policy router: classifies the user's text into one of five
 * intents by keyword, fills defaults, asks for a missing city, and calls one
 * tool or a short chain of tools, packaging the outcome as a
 * `{plan, actions, verify, answer}` object.  The tools are parameters.
 */
module Policy {
  import opened Wrappers
  import opened Strings
  import opened PyJson

  const Explain := "explain"
  const Affordability := "affordability"
  const Suggest := "suggest"
  const CityRent := "city_rent"
  const NeighStats := "neigh_stats"

  const Intents: set<string> := {Explain, Affordability, Suggest, CityRent, NeighStats}

  const ExplainPhrases: seq<string> :=
    ["what is rti", "what is rent-to-income", "explain transit score", "what is eps"]
  const AffordabilityWords: seq<string> := ["afford", "rti", "rent to income"]
  const SuggestWords: seq<string> := ["suggest", "recommend", "neighbourhood", "where should i live"]
  const CityRentWords: seq<string> := ["median", "rent in", "city median"]

  /** Python's `any(k in t for k in keys)`. */
  predicate AnyIn(t: string, keys: seq<string>) {
    exists k :: k in keys && Contains(t, k)
  }

  /** `classify_intent`; a `None` text is passed as "". */
  function ClassifyIntent(userText: string): (intent: string)
    ensures intent in Intents
  {
    var t := Lower(userText);
    if AnyIn(t, ExplainPhrases) then Explain
    else if AnyIn(t, AffordabilityWords) then Affordability
    else if AnyIn(t, SuggestWords) then Suggest
    else if AnyIn(t, CityRentWords) then CityRent
    else if Contains(t, "transit") then NeighStats
    else CityRent
  }

  /** Explanation phrases win over the affordability keywords they contain. */
  lemma ExplainTakesPriority(userText: string)
    requires Contains(Lower(userText), "what is rti")
    ensures Contains(Lower(userText), "rti")
    ensures ClassifyIntent(userText) == Explain
  {
    assert "what is rti" in ExplainPhrases;
    var i :| 0 <= i <= |Lower(userText)| - |"what is rti"| && OccursAt(Lower(userText), "what is rti", i);
    assert OccursAt(Lower(userText), "rti", i + 8) by {
      assert Lower(userText)[i + 8..i + 11] == Lower(userText)[i..i + 11][8..11];
    }
  }

  /** Classification ignores letter case. */
  lemma {:induction false} ClassifyIgnoresCase(userText: string)
    ensures ClassifyIntent(userText) == ClassifyIntent(Lower(userText))
  {
    LowerIdempotent(userText);
  }

  /** The text is classified as transit statistics only when it mentions transit and no earlier keyword. */
  lemma NeighStatsNeedsTransit(userText: string)
    ensures ClassifyIntent(userText) == NeighStats <==>
      && Contains(Lower(userText), "transit")
      && !AnyIn(Lower(userText), ExplainPhrases)
      && !AnyIn(Lower(userText), AffordabilityWords)
      && !AnyIn(Lower(userText), SuggestWords)
      && !AnyIn(Lower(userText), CityRentWords)
  {
  }

  /** `fill_defaults`: a copy with `property_type` set to "1bed" when the key is absent. */
  function FillDefaults(args: map<string, Json>): (r: map<string, Json>)
    ensures "property_type" in r
    ensures "property_type" in args ==> r == args
    ensures "property_type" !in args ==> r["property_type"] == JStr("1bed")
    ensures r.Keys == args.Keys + {"property_type"}
    ensures forall k :: k in args && k != "property_type" ==> r[k] == args[k]
  {
    if "property_type" in args then args else args["property_type" := JStr("1bed")]
  }

  /** `maybe_need_city`. */
  predicate MaybeNeedCity(intent: string) {
    intent in {CityRent, NeighStats, Suggest}
  }

  /** `_resp`: the four-key result object. */
  function Resp(plan: string, actions: seq<Json>, verify: map<string, Json>, answer: map<string, Json>): (r: map<string, Json>)
    ensures r.Keys == {"plan", "actions", "verify", "answer"}
    ensures r["plan"] == JStr(plan) && r["actions"] == JList(actions)
    ensures r["verify"] == JObj(verify) && r["answer"] == JObj(answer)
  {
    map["plan" := JStr(plan), "actions" := JList(actions), "verify" := JObj(verify), "answer" := JObj(answer)]
  }

  /** What `call` yields: the tool's status code and its decoded body. */
  datatype ToolReply = ToolReply(status: int, body: map<string, Json>)

  /** The four tools and Python's rendering of a value inside an f-string. */
  datatype Tools = Tools(
    rent: map<string, Json> -> ToolReply,
    stats: map<string, Json> -> ToolReply,
    afford: map<string, Json> -> ToolReply,
    suggest: map<string, Json> -> ToolReply,
    show: Json -> string)

  /** `d.get(key, default)`. */
  function GetOr(d: map<string, Json>, key: string, default: Json): Json {
    if key in d then d[key] else default
  }

  /** Python's `len(v)`; `None` where it raises. */
  function Len(v: Json): Option<int> {
    match v
    case JStr(s) => Some(|s|)
    case JList(items) => Some(|items|)
    case JObj(fields) => Some(|fields|)
    case _ => None
  }

  function Failed(notes: Json): map<string, Json> {
    map["ok" := JBool(false), "notes" := notes]
  }

  const Passed: map<string, Json> := map["ok" := JBool(true)]

  const MissingCityPlanPrefix := "Ask user for city for intent="
  const MissingCityMessage := "Which city should I check? (Toronto, Montreal, Vancouver)"
  const ExplainMessage := "Rent-to-income (RTI) is monthly rent divided by monthly income. A common target is ~30%."
  const AffordPlan := "If city_median missing, fetch via get_rent_data; then compute via evaluate_rent_affordability"
  const MissingInputsMessage := "Need listing_price, income_annual, and city (or city_median)."
  const FallbackPlan := "Defaulted to city_rent"
  const CityRentPlan := "Fetch city median via get_rent_data"
  const NeighStatsPlan := "Fetch neighbourhood-level transit/medians via get_neighbourhood_stats"
  const SuggestPlan := "Call suggest_neighbourhoods with income/prefs; explain filters"
  const ExplainPlan := "No tool; provide definition using policy guidance"

  /** A result object carrying the given plan. */
  predicate Shaped(r: map<string, Json>, plan: string) {
    r.Keys == {"plan", "actions", "verify", "answer"} && r["plan"] == JStr(plan)
  }

  function Action(tool: string, status: int): Json {
    JObj(map["tool" := JStr(tool), "status" := JInt(status)])
  }

  function ActionWithArgs(tool: string, city: Json, prop: Json, status: int): Json {
    JObj(map["tool" := JStr(tool),
             "args" := JObj(map["city" := city, "property_type" := prop]),
             "status" := JInt(status)])
  }

  function RentArgs(city: Json, prop: Json): map<string, Json> {
    map["city" := city, "property_type" := prop, "include_neighbourhoods" := JBool(false)]
  }

  function AffordArgs(args: map<string, Json>, cityMedian: Json): map<string, Json>
    requires "listing_price" in args && "income_annual" in args
  {
    map["listing_price" := args["listing_price"], "city_median" := cityMedian,
        "income_annual" := args["income_annual"],
        "target_ratio" := GetOr(args, "target_ratio", JFloat(Finite(0.30)))]
  }

  function SuggestArgs(args: map<string, Json>): map<string, Json>
    requires "city" in args
  {
    map["city" := args["city"],
        "property_type" := GetOr(args, "property_type", JStr("1bed")),
        "income_annual" := GetOr(args, "income_annual", JInt(80000)),
        "prefs" := GetOr(args, "prefs", JObj(map[])),
        "budget_cap" := GetOr(args, "budget_cap", JNull),
        "listing_price" := GetOr(args, "listing_price", JNull)]
  }

  /** The `city_rent` branch. */
  function CityRentBranch(args: map<string, Json>, tools: Tools): (r: map<string, Json>)
    requires "city" in args && "property_type" in args
    ensures Shaped(r, CityRentPlan)
  {
    var plan := CityRentPlan;
    var city, prop := args["city"], args["property_type"];
    var reply := tools.rent(RentArgs(city, prop));
    var actions := [ActionWithArgs("get_rent_data", city, prop, reply.status)];
    if reply.status != 200 then
      Resp(plan, actions, Failed(JObj(reply.body)), map["error" := JStr("tool_failed"), "details" := JObj(reply.body)])
    else
      var summary := tools.show(city) + " " + tools.show(prop) + " median = " +
                     tools.show(GetOr(reply.body, "median", JNull)) + " " +
                     tools.show(GetOr(reply.body, "currency", JNull));
      Resp(plan, actions, Passed, map["summary" := JStr(summary), "data" := JObj(reply.body)])
  }

  /** The `neigh_stats` branch; `len` of a neighbourhoods value that is not a collection raises. */
  function NeighStatsBranch(args: map<string, Json>, tools: Tools): (r: Result<map<string, Json>>)
    requires "city" in args && "property_type" in args
    ensures r.Ok? ==> Shaped(r.value, NeighStatsPlan)
  {
    var plan := NeighStatsPlan;
    var city, prop := args["city"], args["property_type"];
    var reply := tools.stats(map["city" := city, "property_type" := prop]);
    var actions := [ActionWithArgs("get_neighbourhood_stats", city, prop, reply.status)];
    if reply.status != 200 then
      Ok(Resp(plan, actions, Failed(JObj(reply.body)), map["error" := JStr("tool_failed"), "details" := JObj(reply.body)]))
    else
      match Len(GetOr(reply.body, "neighbourhoods", JList([])))
      case None => Err("TypeError: object has no len()")
      case Some(n) =>
        var summary := "Found " + IntToString(n) + " neighbourhoods for " + tools.show(city) + ".";
        Ok(Resp(plan, actions, Passed, map["summary" := JStr(summary), "data" := JObj(reply.body)]))
  }

  /** The `affordability` branch: fetch the median if needed, check the inputs, then evaluate. */
  function AffordabilityBranch(args: map<string, Json>, tools: Tools): (r: map<string, Json>)
    requires "property_type" in args
    ensures Shaped(r, AffordPlan)
  {
    var given := GetOr(args, "city_median", JNull);
    var needFetch := !Truthy(given) && Truthy(GetOr(args, "city", JNull));
    var fetched := if needFetch then tools.rent(RentArgs(args["city"], args["property_type"])) else ToolReply(200, map[]);
    if needFetch && fetched.status != 200 then
      Resp(AffordPlan, [Action("get_rent_data", fetched.status)], Failed(JObj(fetched.body)),
           map["error" := JStr("failed_to_get_city_median"), "details" := JObj(fetched.body)])
    else
      var act := if needFetch then [Action("get_rent_data", fetched.status)] else [];
      var cityMedian := if needFetch then GetOr(fetched.body, "median", JNull) else given;
      if !(Truthy(GetOr(args, "listing_price", JNull)) && Truthy(cityMedian) && Truthy(GetOr(args, "income_annual", JNull))) then
        Resp(AffordPlan, act, Failed(JStr("missing inputs")), map["message" := JStr(MissingInputsMessage)])
      else
        assert "listing_price" in args && "income_annual" in args;
        var reply := tools.afford(AffordArgs(args, cityMedian));
        var act2 := act + [Action("evaluate_rent_affordability", reply.status)];
        if reply.status != 200 then
          Resp(AffordPlan, act2, Failed(JObj(reply.body)), map["error" := JStr("afford_failed"), "details" := JObj(reply.body)])
        else
          Resp(AffordPlan, act2, Passed, map["summary" := GetOr(reply.body, "verdict", JNull), "metrics" := JObj(reply.body)])
  }

  /** The `suggest` branch. */
  function SuggestBranch(args: map<string, Json>, tools: Tools): (r: Result<map<string, Json>>)
    requires "city" in args && "property_type" in args
    ensures r.Ok? ==> Shaped(r.value, SuggestPlan)
  {
    var plan := SuggestPlan;
    var reply := tools.suggest(SuggestArgs(args));
    var actions := [Action("suggest_neighbourhoods", reply.status)];
    if reply.status != 200 then
      Ok(Resp(plan, actions, Failed(JObj(reply.body)), map["error" := JStr("suggest_failed"), "details" := JObj(reply.body)]))
    else
      var recs := GetOr(reply.body, "recommendations", JList([]));
      match Len(recs)
      case None => Err("TypeError: object has no len()")
      case Some(n) =>
        Ok(Resp(plan, actions, Passed,
                map["summary" := JStr("Top " + IntToString(n) + " neighbourhoods"),
                    "recommendations" := recs,
                    "meta" := JObj(map["city" := args["city"], "property_type" := args["property_type"]])]))
  }

  /** `decide_and_act`; `Err` where Python would raise out of the router. */
  function DecideAndAct(userText: string, given: map<string, Json>, tools: Tools): (r: Result<map<string, Json>>)
    ensures r.Ok? ==> r.value.Keys == {"plan", "actions", "verify", "answer"}
    ensures r.Ok? ==> r.value["plan"] != JStr(FallbackPlan)
  {
    var intent := ClassifyIntent(userText);
    var args := FillDefaults(given);
    assert (MissingCityPlanPrefix + intent)[0] != FallbackPlan[0];
    if MaybeNeedCity(intent) && !Truthy(GetOr(args, "city", JNull)) then
      Ok(Resp(MissingCityPlanPrefix + intent, [], Failed(JStr("missing_city")), map["message" := JStr(MissingCityMessage)]))
    else if intent == Explain then
      Ok(Resp(ExplainPlan, [],
              map["ok" := JBool(true), "notes" := JStr("think_only")], map["message" := JStr(ExplainMessage)]))
    else if intent == CityRent then Ok(CityRentBranch(args, tools))
    else if intent == NeighStats then NeighStatsBranch(args, tools)
    else if intent == Affordability then Ok(AffordabilityBranch(args, tools))
    else if intent == Suggest then SuggestBranch(args, tools)
    else Ok(Resp(FallbackPlan, [], map["ok" := JBool(false)], map["message" := JStr("Please rephrase or provide a city.")]))
  }

  /** A router result whose verify part says `ok: false`. */
  predicate NotOk(r: Result<map<string, Json>>) {
    && r.Ok? && "verify" in r.value && r.value["verify"].JObj?
    && "ok" in r.value["verify"].fields && r.value["verify"].fields["ok"] == JBool(false)
  }

  /** A failed router result whose answer carries the error tag `tag`. */
  predicate FailedWith(r: Result<map<string, Json>>, tag: string) {
    && NotOk(r) && "answer" in r.value && r.value["answer"].JObj?
    && "error" in r.value["answer"].fields && r.value["answer"].fields["error"] == JStr(tag)
  }

  /** Filling defaults changes no key but `property_type`. */
  lemma FillDefaultsGet(given: map<string, Json>, key: string, default: Json)
    requires key != "property_type"
    ensures GetOr(FillDefaults(given), key, default) == GetOr(given, key, default)
  {
  }

  /** A truthy lookup finds its key. */
  lemma TruthyGetPresent(d: map<string, Json>, key: string)
    requires Truthy(GetOr(d, key, JNull))
    ensures key in d
  {
  }

  /** Affordability goes to its branch, whether or not a city is given. */
  lemma RouteAffordability(userText: string, given: map<string, Json>, tools: Tools)
    requires ClassifyIntent(userText) == Affordability
    ensures DecideAndAct(userText, given, tools) == Ok(AffordabilityBranch(FillDefaults(given), tools))
  {
  }

  /** With a city, a city-dependent intent goes to its branch. */
  lemma RouteWithCity(userText: string, given: map<string, Json>, tools: Tools)
    requires MaybeNeedCity(ClassifyIntent(userText)) && Truthy(GetOr(given, "city", JNull))
    ensures "city" in FillDefaults(given) && "property_type" in FillDefaults(given)
    ensures ClassifyIntent(userText) == CityRent ==>
      DecideAndAct(userText, given, tools) == Ok(CityRentBranch(FillDefaults(given), tools))
    ensures ClassifyIntent(userText) == NeighStats ==>
      DecideAndAct(userText, given, tools) == NeighStatsBranch(FillDefaults(given), tools)
    ensures ClassifyIntent(userText) == Suggest ==>
      DecideAndAct(userText, given, tools) == SuggestBranch(FillDefaults(given), tools)
  {
    FillDefaultsGet(given, "city", JNull);
    TruthyGetPresent(given, "city");
  }

  /**
   * A city-dependent intent without a city asks for one: no actions, a
   * `missing_city` note, and no tool is consulted.
   */
  lemma MissingCityAsks(userText: string, given: map<string, Json>, tools: Tools, other: Tools)
    requires MaybeNeedCity(ClassifyIntent(userText)) && !Truthy(GetOr(given, "city", JNull))
    ensures DecideAndAct(userText, given, tools).Ok?
    ensures DecideAndAct(userText, given, tools) == DecideAndAct(userText, given, other)
    ensures var r := DecideAndAct(userText, given, tools).value;
      "actions" in r && "verify" in r &&
      r["actions"] == JList([]) && r["verify"] == JObj(map["ok" := JBool(false), "notes" := JStr("missing_city")])
  {
    FillDefaultsGet(given, "city", JNull);
  }

  /** The affordability branch without a truthy listing price or income. */
  lemma AffordabilityBranchMissing(args: map<string, Json>, tools: Tools, evaluator: map<string, Json> -> ToolReply)
    requires "property_type" in args
    requires !Truthy(GetOr(args, "listing_price", JNull)) || !Truthy(GetOr(args, "income_annual", JNull))
    ensures AffordabilityBranch(args, tools) == AffordabilityBranch(args, tools.(afford := evaluator))
    ensures NotOk(Ok(AffordabilityBranch(args, tools)))
    ensures Truthy(GetOr(args, "city_median", JNull)) ==>
      AffordabilityBranch(args, tools) ==
        Resp(AffordPlan, [], Failed(JStr("missing inputs")), map["message" := JStr(MissingInputsMessage)])
  {
  }

  /**
   * Affordability without a truthy listing price or income never reaches the
   * evaluator: the result does not depend on it and is not ok.  With a truthy
   * median in the arguments, no tool runs at all.
   */
  lemma AffordabilityNeedsInputs(userText: string, given: map<string, Json>, tools: Tools,
                                 evaluator: map<string, Json> -> ToolReply)
    requires ClassifyIntent(userText) == Affordability
    requires !Truthy(GetOr(given, "listing_price", JNull)) || !Truthy(GetOr(given, "income_annual", JNull))
    ensures DecideAndAct(userText, given, tools) == DecideAndAct(userText, given, tools.(afford := evaluator))
    ensures NotOk(DecideAndAct(userText, given, tools))
    ensures Truthy(GetOr(given, "city_median", JNull)) ==>
      DecideAndAct(userText, given, tools) ==
        Ok(Resp(AffordPlan, [], Failed(JStr("missing inputs")), map["message" := JStr(MissingInputsMessage)]))
  {
    var args := FillDefaults(given);
    RouteAffordability(userText, given, tools);
    RouteAffordability(userText, given, tools.(afford := evaluator));
    FillDefaultsGet(given, "listing_price", JNull);
    FillDefaultsGet(given, "income_annual", JNull);
    FillDefaultsGet(given, "city_median", JNull);
    AffordabilityBranchMissing(args, tools, evaluator);
  }

  /** A city-median lookup that fails gives a failed verify tagged `tool_failed`. */
  lemma CityRentFailureTagged(userText: string, given: map<string, Json>, tools: Tools)
    requires ClassifyIntent(userText) == CityRent && Truthy(GetOr(given, "city", JNull))
    requires var args := FillDefaults(given);
      "city" in args && tools.rent(RentArgs(args["city"], args["property_type"])).status != 200
    ensures FailedWith(DecideAndAct(userText, given, tools), "tool_failed")
  {
    RouteWithCity(userText, given, tools);
  }

  /** A statistics lookup that fails gives a failed verify tagged `tool_failed`. */
  lemma NeighStatsFailureTagged(userText: string, given: map<string, Json>, tools: Tools)
    requires ClassifyIntent(userText) == NeighStats && Truthy(GetOr(given, "city", JNull))
    requires var args := FillDefaults(given);
      "city" in args && tools.stats(map["city" := args["city"], "property_type" := args["property_type"]]).status != 200
    ensures FailedWith(DecideAndAct(userText, given, tools), "tool_failed")
  {
    RouteWithCity(userText, given, tools);
  }

  /** A suggestion call that fails gives a failed verify tagged `suggest_failed`. */
  lemma SuggestFailureTagged(userText: string, given: map<string, Json>, tools: Tools)
    requires ClassifyIntent(userText) == Suggest && Truthy(GetOr(given, "city", JNull))
    requires "city" in FillDefaults(given) && tools.suggest(SuggestArgs(FillDefaults(given))).status != 200
    ensures FailedWith(DecideAndAct(userText, given, tools), "suggest_failed")
  {
    RouteWithCity(userText, given, tools);
  }

  /** Affordability whose median lookup fails gives a failed verify tagged `failed_to_get_city_median`. */
  lemma MedianFetchFailureTagged(userText: string, given: map<string, Json>, tools: Tools)
    requires ClassifyIntent(userText) == Affordability && Truthy(GetOr(given, "city", JNull))
    requires !Truthy(GetOr(given, "city_median", JNull))
    requires var args := FillDefaults(given);
      "city" in args && tools.rent(RentArgs(args["city"], args["property_type"])).status != 200
    ensures FailedWith(DecideAndAct(userText, given, tools), "failed_to_get_city_median")
  {
    RouteAffordability(userText, given, tools);
    FillDefaultsGet(given, "city", JNull);
    FillDefaultsGet(given, "city_median", JNull);
  }

  /** The median lookup the affordability branch makes for the request's city. */
  function MedianFetch(args: map<string, Json>, tools: Tools): ToolReply
    requires "property_type" in args
  {
    tools.rent(RentArgs(GetOr(args, "city", JNull), args["property_type"]))
  }

  /** The branch looks the median up: none truthy is given, but a truthy city is. */
  predicate Fetches(args: map<string, Json>) {
    !Truthy(GetOr(args, "city_median", JNull)) && Truthy(GetOr(args, "city", JNull))
  }

  /** The median the branch goes on with: the one looked up, or else the one given. */
  function MedianUsed(args: map<string, Json>, tools: Tools): Json
    requires "property_type" in args
  {
    if Fetches(args) then GetOr(MedianFetch(args, tools).body, "median", JNull) else GetOr(args, "city_median", JNull)
  }

  /** The actions recorded before the evaluator: the successful lookup, when one was made. */
  function LookupActions(args: map<string, Json>): seq<Json> {
    if Fetches(args) then [Action("get_rent_data", 200)] else []
  }

  /**
   * A falsy median, given with no city to look it up or returned by a
   * successful lookup, never reaches the evaluator: the reply asks for the
   * missing inputs after the lookup, if any.
   */
  lemma AffordabilityBranchNoMedian(args: map<string, Json>, tools: Tools, evaluator: map<string, Json> -> ToolReply)
    requires "property_type" in args
    requires !Fetches(args) || MedianFetch(args, tools).status == 200
    requires !Truthy(MedianUsed(args, tools))
    ensures AffordabilityBranch(args, tools) == AffordabilityBranch(args, tools.(afford := evaluator))
    ensures AffordabilityBranch(args, tools) ==
      Resp(AffordPlan, LookupActions(args), Failed(JStr("missing inputs")), map["message" := JStr(MissingInputsMessage)])
  {
  }

  /**
   * The affordability branch once the evaluator is reached, with the median
   * given or looked up: the actions are the lookup, if any, then the
   * evaluation; a failed evaluation is tagged `afford_failed` and a
   * successful one is summarised by its verdict.
   */
  lemma AffordabilityBranchEvaluates(args: map<string, Json>, tools: Tools)
    requires "property_type" in args
    requires Truthy(GetOr(args, "listing_price", JNull)) && Truthy(GetOr(args, "income_annual", JNull))
    requires !Fetches(args) || MedianFetch(args, tools).status == 200
    requires Truthy(MedianUsed(args, tools))
    ensures "listing_price" in args && "income_annual" in args
    ensures var reply := tools.afford(AffordArgs(args, MedianUsed(args, tools)));
      var r := Ok(AffordabilityBranch(args, tools));
      && "actions" in r.value && "verify" in r.value
      && r.value["actions"] == JList(LookupActions(args) + [Action("evaluate_rent_affordability", reply.status)])
      && (reply.status != 200 ==> FailedWith(r, "afford_failed"))
      && (reply.status == 200 ==>
            && r.value["verify"] == JObj(Passed) && "answer" in r.value && r.value["answer"].JObj?
            && "summary" in r.value["answer"].fields
            && r.value["answer"].fields["summary"] == GetOr(reply.body, "verdict", JNull))
  {
  }

  /** Filling defaults changes neither whether the branch looks the median up, nor what it looks up. */
  lemma FillDefaultsMedian(given: map<string, Json>)
    ensures Fetches(FillDefaults(given)) == Fetches(given)
    ensures LookupActions(FillDefaults(given)) == LookupActions(given)
    ensures GetOr(FillDefaults(given), "listing_price", JNull) == GetOr(given, "listing_price", JNull)
    ensures GetOr(FillDefaults(given), "income_annual", JNull) == GetOr(given, "income_annual", JNull)
  {
    FillDefaultsGet(given, "city", JNull);
    FillDefaultsGet(given, "city_median", JNull);
    FillDefaultsGet(given, "listing_price", JNull);
    FillDefaultsGet(given, "income_annual", JNull);
  }

  /**
   * Affordability whose median is falsy (given with no city, or returned by
   * a successful lookup) never reaches the evaluator and asks for the
   * missing inputs.
   */
  lemma MedianFalsyNeverEvaluates(userText: string, given: map<string, Json>, tools: Tools,
                                  evaluator: map<string, Json> -> ToolReply)
    requires ClassifyIntent(userText) == Affordability
    requires !Fetches(given) || MedianFetch(FillDefaults(given), tools).status == 200
    requires !Truthy(MedianUsed(FillDefaults(given), tools))
    ensures DecideAndAct(userText, given, tools) == DecideAndAct(userText, given, tools.(afford := evaluator))
    ensures DecideAndAct(userText, given, tools) ==
      Ok(Resp(AffordPlan, LookupActions(given), Failed(JStr("missing inputs")), map["message" := JStr(MissingInputsMessage)]))
  {
    var args := FillDefaults(given);
    RouteAffordability(userText, given, tools);
    RouteAffordability(userText, given, tools.(afford := evaluator));
    FillDefaultsMedian(given);
    AffordabilityBranchNoMedian(args, tools, evaluator);
  }

  /**
   * When the evaluator is reached, with the median given or looked up, the
   * actions are the lookup, if any, then the evaluation; a failure is tagged
   * `afford_failed` and a success is summarised by the evaluator's verdict.
   */
  lemma AffordabilityOutcome(userText: string, given: map<string, Json>, tools: Tools)
    requires ClassifyIntent(userText) == Affordability
    requires Truthy(GetOr(given, "listing_price", JNull)) && Truthy(GetOr(given, "income_annual", JNull))
    requires !Fetches(given) || MedianFetch(FillDefaults(given), tools).status == 200
    requires Truthy(MedianUsed(FillDefaults(given), tools))
    ensures "listing_price" in FillDefaults(given) && "income_annual" in FillDefaults(given)
    ensures var reply := tools.afford(AffordArgs(FillDefaults(given), MedianUsed(FillDefaults(given), tools)));
      var r := DecideAndAct(userText, given, tools);
      && r.Ok? && "actions" in r.value && "verify" in r.value
      && r.value["actions"] == JList(LookupActions(given) + [Action("evaluate_rent_affordability", reply.status)])
      && (reply.status != 200 ==> FailedWith(r, "afford_failed"))
      && (reply.status == 200 ==>
            && r.value["verify"] == JObj(Passed) && "answer" in r.value && r.value["answer"].JObj?
            && "summary" in r.value["answer"].fields
            && r.value["answer"].fields["summary"] == GetOr(reply.body, "verdict", JNull))
  {
    var args := FillDefaults(given);
    RouteAffordability(userText, given, tools);
    FillDefaultsMedian(given);
    AffordabilityBranchEvaluates(args, tools);
  }
}
