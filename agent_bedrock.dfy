/**
 * The deterministic helpers of the Bedrock orchestrator: the `:: key=value`
 * tail parser, free-text enrichment, preference merging, the local verifier,
 * the first-JSON-object extractor, and the assembly of the final result
 * after the model's answer.  The model calls, the lenient JSON parser, the
 * fence-stripping and property-type regular expressions are parameters.
 */
module AgentBedrock {
  import opened Wrappers
  import opened Strings
  import opened PyJson

  /** `_lenient_json_parse`: `None` when it fails, otherwise the parsed value. */
  type LenientParser = string -> Option<Json>

  // ---------------------------------------------------------------------------
  // The `prefs\s*=\s*(\{.*\})` search of `_parse_inline_args`
  // ---------------------------------------------------------------------------

  /** At least two characters, the first `{` and the last `}`. */
  predicate Braced(s: string) {
    |s| >= 2 && s[0] == '{' && s[|s| - 1] == '}'
  }

  /** The first index at or after `i` that is not whitespace, or `|t|`. */
  function SkipSpaces(t: string, i: nat): (j: nat)
    requires i <= |t|
    ensures i <= j <= |t|
    ensures forall k :: i <= k < j ==> IsSpace(t[k])
    ensures j < |t| ==> !IsSpace(t[j])
    decreases |t| - i
  {
    if i == |t| || !IsSpace(t[i]) then i else SkipSpaces(t, i + 1)
  }

  /** The index of the first newline at or after `i`, or `|t|`: where `.` stops matching. */
  function LineEnd(t: string, i: nat): (j: nat)
    requires i <= |t|
    ensures i <= j <= |t|
    ensures forall k :: i <= k < j ==> t[k] != '\n'
    ensures j < |t| ==> t[j] == '\n'
    decreases |t| - i
  {
    if i == |t| || t[i] == '\n' then i else LineEnd(t, i + 1)
  }

  /** The last index in `[lo, hi)` holding '}'. */
  function LastClose(t: string, lo: nat, hi: nat): (e: Option<nat>)
    requires lo <= hi <= |t|
    ensures e.Some? ==> lo <= e.value < hi && t[e.value] == '}'
    ensures e.Some? ==> forall k :: e.value < k < hi ==> t[k] != '}'
    ensures e.None? ==> forall k :: lo <= k < hi ==> t[k] != '}'
    decreases hi - lo
  {
    if lo == hi then None
    else if t[hi - 1] == '}' then Some(hi - 1)
    else LastClose(t, lo, hi - 1)
  }

  /** The group of a match of `prefs\s*=\s*(\{.*\})` starting exactly at `i`. */
  function BlobAt(t: string, i: nat): (b: Option<string>)
    requires i <= |t|
    ensures b.Some? ==> Braced(b.value)
    ensures b.Some? ==> Contains(t, b.value) && '\n' !in b.value
  {
    if !StartsWith(t[i..], "prefs") then None
    else
      var j := SkipSpaces(t, i + 5);
      if j == |t| || t[j] != '=' then None
      else
        var k := SkipSpaces(t, j + 1);
        if k == |t| || t[k] != '{' then None
        else
          match LastClose(t, k + 1, LineEnd(t, k + 1))
          case None => None
          case Some(e) =>
            BlobFacts(t, k, e);
            Some(t[k..e + 1])
  }

  /** A slice from '{' to '}' on one line is a blob of the text. */
  lemma BlobFacts(t: string, k: nat, e: nat)
    requires k < e < |t| && t[k] == '{' && t[e] == '}'
    requires forall m :: k < m <= e ==> t[m] != '\n'
    ensures var blob := t[k..e + 1];
      Braced(blob) && Contains(t, blob) && '\n' !in blob
  {
    var blob := t[k..e + 1];
    assert OccursAt(t, blob, k);
    assert forall m :: 0 <= m < |blob| ==> blob[m] == t[k + m];
  }

  /** `re.search`: the leftmost start position that matches. */
  function FindPrefsBlob(t: string, i: nat): (b: Option<string>)
    requires i <= |t|
    ensures b.Some? ==> Braced(b.value)
    ensures b.Some? ==> Contains(t, b.value) && '\n' !in b.value
    decreases |t| - i
  {
    match BlobAt(t, i)
    case Some(b) => Some(b)
    case None => if i == |t| then None else FindPrefsBlob(t, i + 1)
  }

  /** The search finds a blob whenever one starts at or after `i`. */
  lemma {:induction false} FindPrefsBlobComplete(t: string, i: nat, k: nat)
    requires i <= k <= |t| && BlobAt(t, k).Some?
    ensures FindPrefsBlob(t, i).Some?
    decreases |t| - i
  {
    if BlobAt(t, i).None? {
      FindPrefsBlobComplete(t, i + 1, k);
    }
  }

  /** What the search finds is the match at the leftmost position that has one. */
  lemma {:induction false} FindPrefsBlobLeftmost(t: string, i: nat) returns (j: nat)
    requires i <= |t| && FindPrefsBlob(t, i).Some?
    ensures i <= j <= |t| && FindPrefsBlob(t, i) == BlobAt(t, j)
    ensures forall m :: i <= m < j ==> BlobAt(t, m).None?
    decreases |t| - i
  {
    if BlobAt(t, i).Some? {
      j := i;
    } else {
      j := FindPrefsBlobLeftmost(t, i + 1);
    }
  }

  /** `prefs={`, then a `}` later on the same line, is a match at that position. */
  lemma BlobShape(t: string, k: nat, e: nat)
    requires k + 6 < e < |t|
    requires t[k..k + 6] == "prefs=" && t[k + 6] == '{' && t[e] == '}'
    requires forall m :: k + 6 < m < e ==> t[m] != '\n'
    ensures BlobAt(t, k).Some?
  {
    assert t[k..][..5] == t[k..k + 6][..5] == "prefs";
    assert t[k + 5] == t[k..k + 6][5] == '=';
    assert SkipSpaces(t, k + 5) == k + 5;
    assert SkipSpaces(t, k + 6) == k + 6;
    var le := LineEnd(t, k + 7);
    assert e < le;
    assert LastClose(t, k + 7, le).Some?;
  }

  // ---------------------------------------------------------------------------
  // `_parse_inline_args`
  // ---------------------------------------------------------------------------

  /**
   * The value a token gives: a float when it is digits with at most one '.'
   * and some digit, and then the number `float()` reads; otherwise the text.
   */
  function TokenValue(v: string): (r: Json)
    ensures r.JFloat? <==> NumeralChars(v)
    ensures r.JFloat? ==> ToFloat(JStr(v)) == Some(r.f) && r.f.Finite? && r.f.x >= 0.0
    ensures !r.JFloat? ==> r == JStr(v)
  {
    NumeralIff(v);
    if IsNumeral(v) then JFloat(Finite(NumeralValue(v))) else JStr(v)
  }

  /** The stripped key and value of a token holding '=', split at the first '='. */
  function TokenParts(token: string): Option<(string, string)> {
    match SplitOnce(token, "=")
    case None => None
    case Some((k, v)) => Some((Strip(k), Strip(v)))
  }

  /** The `prefs` value a lenient parse yields, when it yields an object. */
  function PrefsObject(parsed: Option<Json>): Option<Json> {
    if parsed.Some? && parsed.value.JObj? then parsed else None
  }

  /** What one token assigns: tokens without '=' assign nothing and `prefs=` assigns only a parsed object. */
  function TokenSetting(token: string, lenient: LenientParser): Option<(string, Json)> {
    match TokenParts(token)
    case None => None
    case Some((k, v)) =>
      if k == "prefs" then
        match PrefsObject(lenient(v))
        case Some(obj) => Some(("prefs", obj))
        case None => None
      else Some((k, TokenValue(v)))
  }

  /** The arguments after one assignment. */
  function Assign(args: map<string, Json>, setting: Option<(string, Json)>): map<string, Json> {
    match setting
    case None => args
    case Some((k, v)) => args[k := v]
  }

  /** One `key=value` token. */
  function ApplyToken(args: map<string, Json>, token: string, lenient: LenientParser): map<string, Json> {
    Assign(args, TokenSetting(token, lenient))
  }

  /** The assignments of the tokens, one per token. */
  function Settings(tokens: seq<string>, lenient: LenientParser): (r: seq<Option<(string, Json)>>)
    ensures |r| == |tokens|
    ensures forall i :: 0 <= i < |tokens| ==> r[i] == TokenSetting(tokens[i], lenient)
  {
    seq(|tokens|, i requires 0 <= i < |tokens| => TokenSetting(tokens[i], lenient))
  }

  /** The arguments after the assignments, made left to right. */
  function AssignAll(args: map<string, Json>, settings: seq<Option<(string, Json)>>): map<string, Json> {
    if settings == [] then args
    else Assign(AssignAll(args, settings[..|settings| - 1]), settings[|settings| - 1])
  }

  /** The arguments after the tokens, applied left to right. */
  function ApplyTokens(args: map<string, Json>, tokens: seq<string>, lenient: LenientParser): map<string, Json> {
    AssignAll(args, Settings(tokens, lenient))
  }

  lemma AssignAllStep(args0: map<string, Json>, settings: seq<Option<(string, Json)>>, i: nat)
    requires i < |settings|
    ensures AssignAll(args0, settings[..i + 1]) == Assign(AssignAll(args0, settings[..i]), settings[i])
  {
    assert settings[..i + 1][..i] == settings[..i];
  }

  /** The loop over the tokens of the tail (agent_bedrock.py:127-144). */
  method ParseTokens(args0: map<string, Json>, tokens: seq<string>, lenient: LenientParser) returns (args: map<string, Json>)
    ensures args == ApplyTokens(args0, tokens, lenient)
  {
    ghost var settings := Settings(tokens, lenient);
    args := args0;
    var i := 0;
    while i < |tokens|
      invariant 0 <= i <= |tokens|
      invariant args == AssignAll(args0, settings[..i])
    {
      AssignAllStep(args0, settings, i);
      var parts := TokenParts(tokens[i]);
      if parts.Some? {
        var (k, v) := parts.value;
        if k == "prefs" {
          var parsed := PrefsObject(lenient(v));
          if parsed.Some? {
            args := args["prefs" := parsed.value];
          }
        } else {
          args := args[k := TokenValue(v)];
        }
      }
      i := i + 1;
    }
    assert settings[..|tokens|] == settings;
  }

  /** The prefs blob's effect before tokenising: the parsed object, and the tail without `prefs=<blob>`. */
  function TakePrefsBlob(tail: string, lenient: LenientParser): (string, map<string, Json>) {
    match FindPrefsBlob(tail, 0)
    case None => (tail, map[])
    case Some(blob) =>
      var args := match lenient(blob)
        case Some(JObj(m)) => map["prefs" := JObj(m)]
        case _ => map[];
      (ReplaceAll(tail, "prefs=" + blob, ""), args)
  }

  /** `_parse_inline_args`: the stripped query before "::" and the arguments after it. */
  method ParseInlineArgs(q: string, lenient: LenientParser) returns (query: string, args: map<string, Json>)
    ensures !Contains(q, "::") ==> query == Strip(q) && args == map[]
    ensures Contains(q, "::") ==>
      var (head, tail) := SplitOnce(q, "::").value;
      var (rest, args0) := TakePrefsBlob(tail, lenient);
      query == Strip(head) && args == ApplyTokens(args0, Words(Strip(rest)), lenient)
  {
    var split := SplitOnce(q, "::");
    if split.None? {
      return Strip(q), map[];
    }
    var (head, tail) := split.value;
    var (rest, args0) := TakePrefsBlob(tail, lenient);
    args := ParseTokens(args0, Words(Strip(rest)), lenient);
    query := Strip(head);
  }

  /** The key a token sets, if it sets one that is not `prefs`. */
  function TokenKey(token: string): Option<string> {
    match TokenParts(token)
    case None => None
    case Some((k, _)) => if k == "prefs" then None else Some(k)
  }

  /** Whether an assignment is to `key`. */
  predicate AssignsTo(setting: Option<(string, Json)>, key: string) {
    setting.Some? && setting.value.0 == key
  }

  /** For a key other than `prefs`, a token assigns to it exactly when the token names it. */
  lemma SettingOfKey(token: string, lenient: LenientParser, key: string)
    requires key != "prefs"
    ensures AssignsTo(TokenSetting(token, lenient), key) <==> TokenKey(token) == Some(key)
    ensures TokenKey(token) == Some(key) ==> TokenSetting(token, lenient) == Some((key, TokenValue(TokenParts(token).value.1)))
  {
  }

  /** A token that names another key leaves `key` as it was. */
  lemma ApplyTokenOther(args: map<string, Json>, token: string, lenient: LenientParser, key: string)
    requires key != "prefs" && TokenKey(token) != Some(key)
    ensures key in ApplyToken(args, token, lenient) <==> key in args
    ensures key in args ==> ApplyToken(args, token, lenient)[key] == args[key]
  {
    SettingOfKey(token, lenient, key);
  }

  /** A token that names `key` sets it to the token's value. */
  lemma ApplyTokenNamed(args: map<string, Json>, token: string, lenient: LenientParser, key: string)
    requires TokenKey(token) == Some(key)
    ensures key in ApplyToken(args, token, lenient)
    ensures ApplyToken(args, token, lenient)[key] == TokenValue(TokenParts(token).value.1)
  {
    SettingOfKey(token, lenient, key);
  }

  /** After the last assignment to `key`, its value is the one assigned there. */
  lemma {:induction false} LastAssignmentWins(args0: map<string, Json>, settings: seq<Option<(string, Json)>>, key: string, val: Json, j: nat)
    requires j < |settings| && settings[j] == Some((key, val))
    requires forall m :: j < m < |settings| ==> !AssignsTo(settings[m], key)
    ensures key in AssignAll(args0, settings) && AssignAll(args0, settings)[key] == val
    decreases |settings|
  {
    var n := |settings| - 1;
    var front := settings[..n];
    if j < n {
      assert front[j] == settings[j];
      forall m | j < m < |front| ensures !AssignsTo(front[m], key) {
        assert front[m] == settings[m];
      }
      LastAssignmentWins(args0, front, key, val, j);
      assert !AssignsTo(settings[n], key);
    }
  }

  /** Without an assignment to `key`, `key` keeps its place and value. */
  lemma {:induction false} UnassignedKept(args0: map<string, Json>, settings: seq<Option<(string, Json)>>, key: string)
    requires forall m :: 0 <= m < |settings| ==> !AssignsTo(settings[m], key)
    ensures key in AssignAll(args0, settings) <==> key in args0
    ensures key in args0 ==> AssignAll(args0, settings)[key] == args0[key]
    decreases |settings|
  {
    if settings != [] {
      var n := |settings| - 1;
      var front := settings[..n];
      forall m | 0 <= m < |front| ensures !AssignsTo(front[m], key) {
        assert front[m] == settings[m];
      }
      UnassignedKept(args0, front, key);
      assert !AssignsTo(settings[n], key);
    }
  }

  /** The last token that names a key decides its value: a later duplicate overrides an earlier one. */
  lemma LastTokenWins(args0: map<string, Json>, tokens: seq<string>, lenient: LenientParser, key: string, j: nat)
    requires j < |tokens| && TokenKey(tokens[j]) == Some(key)
    requires forall m :: j < m < |tokens| ==> TokenKey(tokens[m]) != Some(key)
    ensures key in ApplyTokens(args0, tokens, lenient)
    ensures ApplyTokens(args0, tokens, lenient)[key] == TokenValue(TokenParts(tokens[j]).value.1)
  {
    var settings := Settings(tokens, lenient);
    SettingOfKey(tokens[j], lenient, key);
    forall m | j < m < |settings| ensures !AssignsTo(settings[m], key) {
      SettingOfKey(tokens[m], lenient, key);
    }
    LastAssignmentWins(args0, settings, key, TokenValue(TokenParts(tokens[j]).value.1), j);
  }

  /** A key that no token names keeps its value from before the tokens. */
  lemma UnnamedKeyKept(args0: map<string, Json>, tokens: seq<string>, lenient: LenientParser, key: string)
    requires key != "prefs"
    requires forall m :: 0 <= m < |tokens| ==> TokenKey(tokens[m]) != Some(key)
    ensures key in ApplyTokens(args0, tokens, lenient) <==> key in args0
    ensures key in args0 ==> ApplyTokens(args0, tokens, lenient)[key] == args0[key]
  {
    var settings := Settings(tokens, lenient);
    forall m | 0 <= m < |settings| ensures !AssignsTo(settings[m], key) {
      SettingOfKey(tokens[m], lenient, key);
    }
    UnassignedKept(args0, settings, key);
  }

  /** A token without '=' changes nothing. */
  lemma TokenWithoutEqualsIgnored(args: map<string, Json>, token: string, lenient: LenientParser)
    requires !Contains(token, "=")
    ensures ApplyToken(args, token, lenient) == args
  {
  }

  // ---------------------------------------------------------------------------
  // `_auto_args_from_text`
  // ---------------------------------------------------------------------------

  const Cities: seq<string> := [
    "Toronto", "Montreal", "Vancouver", "Ottawa", "Calgary", "Edmonton",
    "Winnipeg", "Quebec City", "Hamilton", "Mississauga", "Brampton", "Markham"]

  /** The first city of `cities`, in list order, whose lower-case name occurs in `text`. */
  function FirstCity(text: string, cities: seq<string>): (c: Option<nat>)
    ensures c.Some? ==> c.value < |cities| && Contains(text, Lower(cities[c.value]))
    ensures c.Some? ==> forall m :: 0 <= m < c.value ==> !Contains(text, Lower(cities[m]))
    ensures c.None? ==> forall m :: 0 <= m < |cities| ==> !Contains(text, Lower(cities[m]))
  {
    if cities == [] then None
    else if Contains(text, Lower(cities[0])) then Some(0)
    else match FirstCity(text, cities[1..])
      case None => None
      case Some(i) => Some(i + 1)
  }

  /**
   * `_auto_args_from_text`: a missing `city` is taken from the first listed
   * city named in the text; a missing `property_type` from the property-type
   * patterns (`propertyOf`, the regular expressions).  Explicit values win.
   */
  function AutoArgsFromText(userText: string, args: map<string, Json>, propertyOf: string -> Option<string>): (r: map<string, Json>)
    ensures "city" in args ==> "city" in r && r["city"] == args["city"]
    ensures "property_type" in args ==> "property_type" in r && r["property_type"] == args["property_type"]
    ensures "city" !in args ==>
      match FirstCity(Lower(userText), Cities)
      case Some(i) => "city" in r && r["city"] == JStr(Cities[i])
      case None => "city" !in r
    ensures "property_type" !in args ==>
      match propertyOf(Lower(userText))
      case Some(p) => "property_type" in r && r["property_type"] == JStr(p)
      case None => "property_type" !in r
    ensures r.Keys <= args.Keys + {"city", "property_type"}
    ensures forall k :: k in args && k != "city" && k != "property_type" ==> k in r && r[k] == args[k]
  {
    var text := Lower(userText);
    var withCity :=
      if "city" in args then args
      else match FirstCity(text, Cities)
        case Some(i) => args["city" := JStr(Cities[i])]
        case None => args;
    if "property_type" in withCity then withCity
    else match propertyOf(text)
      case Some(p) => withCity["property_type" := JStr(p)]
      case None => withCity
  }

  /** "Quebec City" is found from its lower-case name, and only when no earlier city is named. */
  lemma QuebecFound(userText: string, args: map<string, Json>, propertyOf: string -> Option<string>)
    requires "city" !in args
    requires Contains(Lower(userText), "quebec city")
    requires forall m :: 0 <= m < 7 ==> !Contains(Lower(userText), Lower(Cities[m]))
    ensures var r := AutoArgsFromText(userText, args, propertyOf);
      "city" in r && r["city"] == JStr("Quebec City")
  {
    assert Lower(Cities[7]) == "quebec city";
  }

  // ---------------------------------------------------------------------------
  // `_normalize_prefs`
  // ---------------------------------------------------------------------------

  /**
   * The user's prefs as `_normalize_prefs` reads them: a falsy value is
   * empty, a string goes through the lenient parser, and anything that is
   * not then an object makes `.items()` raise.
   */
  function UserPrefs(enriched: map<string, Json>, lenient: LenientParser): Result<map<string, Json>> {
    var raw := if "prefs" in enriched then enriched["prefs"] else JNull;
    if !Truthy(raw) then Ok(map[])
    else match raw
      case JObj(m) => Ok(m)
      case JStr(text) =>
        var parsed := lenient(text);
        if parsed.None? || !Truthy(parsed.value) then Ok(map[])
        else if parsed.value.JObj? then Ok(parsed.value.fields)
        else Err("AttributeError: object has no attribute 'items'")
      case _ => Err("AttributeError: object has no attribute 'items'")
  }

  /** Whether `key` survives the merge of non-null defaults with user prefs. */
  predicate Kept(defaults: map<string, Json>, user: map<string, Json>, key: string) {
    if key in user then !(user[key] == JNull && key in defaults && defaults[key] != JNull)
    else key in defaults && defaults[key] != JNull
  }

  /** The merged prefs: non-null defaults overlaid by the user's prefs, a user `null` deleting a default. */
  function MergedPrefs(defaults: map<string, Json>, user: map<string, Json>): (r: map<string, Json>)
    ensures forall k :: k in r <==> (k in defaults || k in user) && Kept(defaults, user, k)
    ensures forall k :: k in r ==> r[k] == if k in user then user[k] else defaults[k]
  {
    map k | k in defaults.Keys + user.Keys && Kept(defaults, user, k) :: if k in user then user[k] else defaults[k]
  }

  /** A user value other than `null` always wins, and a user `null` removes a key that has a default. */
  lemma MergedPrefsOverlay(defaults: map<string, Json>, user: map<string, Json>, key: string)
    ensures key in user && user[key] != JNull ==> key in MergedPrefs(defaults, user) && MergedPrefs(defaults, user)[key] == user[key]
    ensures key in user && user[key] == JNull && key in defaults && defaults[key] != JNull ==> key !in MergedPrefs(defaults, user)
    ensures key !in user && key in defaults && defaults[key] != JNull ==> MergedPrefs(defaults, user)[key] == defaults[key]
    ensures key !in user && key in defaults && defaults[key] == JNull ==> key !in MergedPrefs(defaults, user)
  {
  }

  /** The first loop: the defaults that are not `null`. */
  method CopyDefaults(defaults: map<string, Json>) returns (prefs: map<string, Json>)
    ensures prefs == map k | k in defaults && defaults[k] != JNull :: defaults[k]
  {
    prefs := map[];
    var todo := defaults.Keys;
    while todo != {}
      invariant todo <= defaults.Keys
      invariant prefs == map k | k in defaults.Keys - todo && defaults[k] != JNull :: defaults[k]
      decreases |todo|
    {
      var k :| k in todo;
      if defaults[k] != JNull {
        prefs := prefs[k := defaults[k]];
      }
      todo := todo - {k};
    }
  }

  /** The second loop: overlay the user's prefs; a `null` deletes a key already present. */
  method OverlayUser(base: map<string, Json>, user: map<string, Json>) returns (prefs: map<string, Json>)
    ensures forall k :: k in prefs <==> if k in user then !(user[k] == JNull && k in base) else k in base
    ensures forall k :: k in prefs ==> prefs[k] == if k in user then user[k] else base[k]
  {
    prefs := base;
    var todo := user.Keys;
    while todo != {}
      invariant todo <= user.Keys
      invariant forall k :: k in prefs <==>
        if k in user && k !in todo then !(user[k] == JNull && k in base) else k in base
      invariant forall k :: k in prefs ==> prefs[k] == if k in user && k !in todo then user[k] else base[k]
      decreases |todo|
    {
      var k :| k in todo;
      if user[k] == JNull && k in prefs {
        prefs := prefs - {k};
      } else {
        prefs := prefs[k := user[k]];
      }
      todo := todo - {k};
    }
  }

  /** `_normalize_prefs`: the arguments with `prefs` replaced by the merge; `Err` where `.items()` raises. */
  method NormalizePrefs(enriched: map<string, Json>, defaults: map<string, Json>, lenient: LenientParser)
    returns (r: Result<map<string, Json>>)
    ensures UserPrefs(enriched, lenient).Err? <==> r.Err?
    ensures r.Ok? ==> r.value == enriched["prefs" := JObj(MergedPrefs(defaults, UserPrefs(enriched, lenient).value))]
  {
    var user := UserPrefs(enriched, lenient);
    if user.Err? {
      return Err(user.error);
    }
    var base := CopyDefaults(defaults);
    var prefs := OverlayUser(base, user.value);
    assert prefs == MergedPrefs(defaults, user.value);
    r := Ok(enriched["prefs" := JObj(prefs)]);
  }

  // ---------------------------------------------------------------------------
  // `_local_verify`
  // ---------------------------------------------------------------------------

  /** `RP_VERIFY_STRICT` and `RP_VERIFY_HINTS`. */
  datatype VerifyConfig = VerifyConfig(strict: bool, hints: bool)

  /** A suggestion to relax one preference, from its current value to a looser one. */
  datatype Hint = Hint(field: string, from: real, to: real)

  /** What `_local_verify` returns, before the hints are rendered as text. */
  datatype Verdict =
    | Upstream(verify: Json)      // the finalizer's own verify block, or `{"ok": true}`
    | NoMatch(hints: seq<Hint>)   // `ok: false`, the fixed reason and the hints
    | FarAboveTarget              // `ok: false` with the budget note

  const SuggestTool := "suggest_neighbourhoods"
  const NoMatchReason := "No neighborhoods matched the specified criteria"
  const FarAboveNote := "Listing far above target ratio; consider increasing budget or relaxing constraints."

  /** Python's `x or {}`. */
  function OrEmpty(v: Json): (r: Json)
    ensures Truthy(v) ==> r == v
    ensures !Truthy(v) ==> r == JObj(map[])
  {
    if Truthy(v) then v else JObj(map[])
  }

  /** `result.get("verify") or {"ok": True}`. */
  function UpstreamVerify(result: map<string, Json>): (v: Json)
    ensures Truthy(v)
  {
    var v := GetOrNull(result, "verify");
    if Truthy(v) then v
    else
      var ok := map["ok" := JBool(true)];
      assert "ok" in ok;
      JObj(ok)
  }

  /** The tool of the first action; `Err` where `actions[0]["tool"]` raises. */
  function FirstTool(result: map<string, Json>): Result<Option<Json>> {
    var actions := GetOrNull(result, "actions");
    if !Truthy(actions) || !actions.JList? then Ok(None)
    else
      var first := actions.items[0];
      if first.JObj? && "tool" in first.fields then Ok(Some(first.fields["tool"]))
      else Err("TypeError: actions[0] has no 'tool'")
  }

  /** The prefs used: those of the tool call's args, else the answer's. */
  function PrefsUsed(result: map<string, Json>): Json {
    var tr := OrEmpty(GetOrNull(result, "tool_result"));
    var ans := OrEmpty(GetOrNull(result, "answer"));
    var fromArgs :=
      if !tr.JObj? then JObj(map[])
      else
        var args := GetOrNull(tr.fields, "args");
        if args.JObj? then GetOrNull(args.fields, "prefs") else JNull;
    if !Truthy(fromArgs) && ans.JObj? then OrEmpty(GetOrNull(ans.fields, "prefs")) else fromArgs
  }

  /** Whether the answer, or else the tool's answer, carries a non-empty `recommendations`. */
  predicate RecsFound(result: map<string, Json>) {
    var ans := OrEmpty(GetOrNull(result, "answer"));
    var tr := OrEmpty(GetOrNull(result, "tool_result"));
    (ans.JObj? && Truthy(GetOrNull(ans.fields, "recommendations"))) ||
    (tr.JObj? && OrEmpty(GetOrNull(tr.fields, "answer")).JObj? &&
     Truthy(GetOrNull(OrEmpty(GetOrNull(tr.fields, "answer")).fields, "recommendations")))
  }

  /** A preference value as an operand of `<=`/`>=`: skipped when `None` or NaN, raising when not a number. */
  datatype Operand = Skip | Num(x: real) | Raises

  function AsOperand(v: Json): Operand {
    match v
    case JNull => Skip
    case JBool(b) => Num(if b then 1.0 else 0.0)
    case JInt(i) => Num(i as real)
    case JFloat(f) => if f.NaN? then Skip else Num(f.x)
    case _ => Raises
  }

  /** The position of a field's rule in the rule list. */
  function Rank(field: string): nat {
    if field == "max_distance_km" then 0 else if field == "min_transit" then 1 else 2
  }

  /** The three relaxation rules, in order; `Err` where a comparison raises. */
  function HintRules(prefs: map<string, Json>): (r: Result<seq<Hint>>)
    ensures r.Ok? ==> |r.value| <= 3
    ensures r.Ok? ==> forall i, j :: 0 <= i < j < |r.value| ==> Rank(r.value[i].field) < Rank(r.value[j].field)
  {
    var md := AsOperand(GetOrNull(prefs, "max_distance_km"));
    var mt := AsOperand(GetOrNull(prefs, "min_transit"));
    var tri := AsOperand(GetOrNull(prefs, "target_rent_to_income"));
    if md.Raises? || mt.Raises? || tri.Raises? then Err("TypeError: '<=' not supported")
    else Ok(
      (if md.Num? && md.x <= 12.0 then [Hint("max_distance_km", md.x, md.x + 3.0)] else []) +
      (if mt.Num? && mt.x >= 60.0 then [Hint("min_transit", mt.x, Max(mt.x - 5.0, 0.0))] else []) +
      (if tri.Num? && tri.x <= 0.30 then [Hint("target_rent_to_income", tri.x, Min(tri.x + 0.03, 0.4))] else []))
  }

  /**
   * Every hint loosens its constraint: a larger distance, a lower transit
   * floor, a higher ratio target, and only for a field whose value is at
   * the rule's threshold.
   */
  lemma HintsRelax(prefs: map<string, Json>)
    requires HintRules(prefs).Ok?
    ensures forall h :: h in HintRules(prefs).value ==>
      && (h.field == "max_distance_km" ==> h.from <= 12.0 && h.to == h.from + 3.0)
      && (h.field == "min_transit" ==> h.from >= 60.0 && h.to == h.from - 5.0 && h.to < h.from)
      && (h.field == "target_rent_to_income" ==> h.from <= 0.30 && h.to == h.from + 0.03 && h.to > h.from)
      && h.field in {"max_distance_km", "min_transit", "target_rent_to_income"}
  {
  }

  /** A hint for a field appears exactly when its value is a number at the rule's threshold. */
  lemma HintPresence(prefs: map<string, Json>)
    requires HintRules(prefs).Ok?
    ensures (exists h :: h in HintRules(prefs).value && h.field == "max_distance_km") <==>
      AsOperand(GetOrNull(prefs, "max_distance_km")).Num? && AsOperand(GetOrNull(prefs, "max_distance_km")).x <= 12.0
    ensures (exists h :: h in HintRules(prefs).value && h.field == "min_transit") <==>
      AsOperand(GetOrNull(prefs, "min_transit")).Num? && AsOperand(GetOrNull(prefs, "min_transit")).x >= 60.0
    ensures (exists h :: h in HintRules(prefs).value && h.field == "target_rent_to_income") <==>
      AsOperand(GetOrNull(prefs, "target_rent_to_income")).Num? && AsOperand(GetOrNull(prefs, "target_rent_to_income")).x <= 0.30
  {
    var hs := HintRules(prefs).value;
    var md := AsOperand(GetOrNull(prefs, "max_distance_km"));
    var mt := AsOperand(GetOrNull(prefs, "min_transit"));
    var tri := AsOperand(GetOrNull(prefs, "target_rent_to_income"));
    if md.Num? && md.x <= 12.0 {
      assert hs[0] == Hint("max_distance_km", md.x, md.x + 3.0);
    }
    if mt.Num? && mt.x >= 60.0 {
      var h := Hint("min_transit", mt.x, Max(mt.x - 5.0, 0.0));
      assert h in hs;
    }
    if tri.Num? && tri.x <= 0.30 {
      var h := Hint("target_rent_to_income", tri.x, Min(tri.x + 0.03, 0.4));
      assert hs[|hs| - 1] == h;
    }
  }

  /** The affordability sanity rule: all three fields convert to finite floats and the listing exceeds 125% of the target share of monthly income. */
  predicate FarAbove(ans: map<string, Json>) {
    match (ToFloat(GetOrNull(ans, "listing_price")), ToFloat(GetOrNull(ans, "income_annual")), ToFloat(GetOrNull(ans, "target_ratio")))
    case (Some(Finite(lp)), Some(Finite(inc)), Some(Finite(tgt))) =>
      0.0 < tgt < 1.0 && lp > inc / 12.0 * (tgt * 1.25)
    case _ => false
  }

  /** `_local_verify`; `Err` where it raises. */
  function LocalVerify(result: map<string, Json>, cfg: VerifyConfig): (r: Result<Verdict>)
    ensures !cfg.strict ==> r == Ok(Upstream(UpstreamVerify(result)))
    ensures r.Err? ==> cfg.strict
    ensures r.Ok? && r.value.Upstream? ==> r.value.verify == UpstreamVerify(result)
    ensures r.Ok? && r.value.NoMatch? ==>
      && cfg.strict && |r.value.hints| <= 2
      && FirstTool(result) == Ok(Some(JStr(SuggestTool))) && !RecsFound(result)
      && (!cfg.hints ==> r.value.hints == [])
      && (cfg.hints ==> PrefsUsed(result).JObj? && HintRules(PrefsUsed(result).fields).Ok?
                        && var hs := HintRules(PrefsUsed(result).fields).value;
                           r.value.hints <= hs && |r.value.hints| == (if |hs| < 2 then |hs| else 2))
    ensures cfg.strict && FirstTool(result) == Ok(Some(JStr(SuggestTool))) && !RecsFound(result) ==>
      r.Err? || r.value.NoMatch?
    ensures r.Ok? && r.value.FarAboveTarget? ==>
      var ans := OrEmpty(GetOrNull(result, "answer"));
      cfg.strict && ans.JObj? && FarAbove(ans.fields)
    ensures cfg.strict && FirstTool(result).Ok? && !(FirstTool(result).value == Some(JStr(SuggestTool)) && !RecsFound(result)) ==>
      var ans := OrEmpty(GetOrNull(result, "answer"));
      && r.Ok? && (r.value.FarAboveTarget? <==> ans.JObj? && FarAbove(ans.fields))
      && (!r.value.FarAboveTarget? ==> r.value == Upstream(UpstreamVerify(result)))
  {
    if !cfg.strict then Ok(Upstream(UpstreamVerify(result)))
    else match FirstTool(result)
      case Err(e) => Err(e)
      case Ok(tool) =>
        var ans := OrEmpty(GetOrNull(result, "answer"));
        if tool == Some(JStr(SuggestTool)) && !RecsFound(result) then
          if !cfg.hints then Ok(NoMatch([]))
          else
            var prefs := PrefsUsed(result);
            if !prefs.JObj? then Err("AttributeError: prefs has no 'get'")
            else match HintRules(prefs.fields)
              case Err(e) => Err(e)
              case Ok(hs) => Ok(NoMatch(if |hs| <= 2 then hs else hs[..2]))
        else if ans.JObj? && FarAbove(ans.fields) then Ok(FarAboveTarget)
        else Ok(Upstream(UpstreamVerify(result)))
  }

  /** With a positive income, the sanity rule is a rent-to-income ratio above 1.25 times the target. */
  lemma FarAboveIsHighRti(lp: real, inc: real, tgt: real)
    requires inc > 0.0
    ensures lp > inc / 12.0 * (tgt * 1.25) <==> lp / (inc / 12.0) > tgt * 1.25
  {
    var monthly := inc / 12.0;
    assert monthly > 0.0;
    DivCompare(lp, monthly, tgt * 1.25);
  }

  lemma DivCompare(a: real, m: real, c: real)
    requires m > 0.0
    ensures a > m * c <==> a / m > c
  {
    assert a == (a / m) * m;
  }

  /** The verdict as the JSON the envelope carries; `show` renders one hint as its sentence. */
  function VerdictJson(v: Verdict, show: Hint -> string): (j: Json)
    ensures v.Upstream? ==> j == v.verify
    ensures !v.Upstream? ==> j.JObj? && "ok" in j.fields && j.fields["ok"] == JBool(false)
    ensures v.NoMatch? ==>
      && j.JObj? && "reasons" in j.fields && j.fields["reasons"].JList?
      && |j.fields["reasons"].items| == 1 + |v.hints|
      && j.fields["reasons"].items[0] == JStr(NoMatchReason)
  {
    match v
    case Upstream(verify) => verify
    case NoMatch(hints) =>
      var rendered := seq(|hints|, i requires 0 <= i < |hints| => JStr(show(hints[i])));
      JObj(map["ok" := JBool(false), "reasons" := JList([JStr(NoMatchReason)] + rendered)])
    case FarAboveTarget =>
      JObj(map["ok" := JBool(false), "notes" := JStr(FarAboveNote)])
  }

  // ---------------------------------------------------------------------------
  // `_extract_first_json`
  // ---------------------------------------------------------------------------

  /**
   * Scanning `t` from `i` with `depth` braces open: the index of the `}` that
   * brings the depth back to zero, if any.
   */
  function CloseFrom(t: string, i: nat, depth: nat): (j: Option<nat>)
    requires i <= |t| && depth >= 1
    ensures j.Some? ==> i <= j.value < |t| && t[j.value] == '}'
    decreases |t| - i
  {
    if i == |t| then None
    else if t[i] == '{' then CloseFrom(t, i + 1, depth + 1)
    else if t[i] == '}' then (if depth == 1 then Some(i) else CloseFrom(t, i + 1, depth - 1))
    else CloseFrom(t, i + 1, depth)
  }

  /**
   * The first `{` at or after `s` whose balanced object is valid JSON; a
   * balanced candidate that is not valid moves the search to the next `{`.
   */
  function ScanFrom(t: string, s: nat, isJson: string -> bool): (r: Option<(nat, nat)>)
    requires s <= |t|
    ensures r.Some? ==> var (a, b) := r.value;
      && s <= a < b < |t| && t[a] == '{' && t[b] == '}' && isJson(t[a..b + 1])
      && CloseFrom(t, a + 1, 1) == Some(b)
    decreases |t| - s
  {
    if s == |t| then None
    else if t[s] != '{' then ScanFrom(t, s + 1, isJson)
    else match CloseFrom(t, s + 1, 1)
      case Some(b) => if isJson(t[s..b + 1]) then Some((s, b)) else ScanFrom(t, s + 1, isJson)
      case None => ScanFrom(t, s + 1, isJson)
  }

  /** No `{` before the one `ScanFrom` picks has a valid balanced object. */
  lemma {:induction false} ScanFromFirst(t: string, s: nat, isJson: string -> bool, k: nat)
    requires s <= k <= |t|
    requires ScanFrom(t, s, isJson).None? || k < ScanFrom(t, s, isJson).value.0
    requires k < |t| && t[k] == '{'
    ensures match CloseFrom(t, k + 1, 1)
      case None => true
      case Some(b) => !isJson(t[k..b + 1])
    decreases k - s
  {
    if s < k {
      ScanFromSkip(t, s, isJson);
      ScanFromFirst(t, s + 1, isJson, k);
    }
  }

  /** A scan that does not pick the position it starts at is the scan from the next one. */
  lemma ScanFromSkip(t: string, s: nat, isJson: string -> bool)
    requires s < |t|
    requires ScanFrom(t, s, isJson).None? || s < ScanFrom(t, s, isJson).value.0
    ensures ScanFrom(t, s, isJson) == ScanFrom(t, s + 1, isJson)
  {
  }

  /** The text the scan looks at: stripped, and unfenced when it opens with a code fence. */
  function Prepared(text: string, unfence: string -> string): string {
    var t := Strip(text);
    if StartsWith(t, "```") then Strip(unfence(t)) else t
  }

  /** The object the brace scan finds in `t`, as text. */
  function ScanResult(t: string, isJson: string -> bool): (r: Option<string>)
    ensures r.Some? ==>
      && Braced(r.value)
      && isJson(r.value) && Contains(t, r.value)
  {
    match ScanFrom(t, 0, isJson)
    case None => None
    case Some((a, b)) =>
      var c := t[a..b + 1];
      assert OccursAt(t, c, a);
      Some(c)
  }

  /** The quick path: the whole text is a braced, valid object. */
  predicate QuickPath(t: string, isJson: string -> bool) {
    StartsWith(t, "{") && EndsWith(t, "}") && isJson(t)
  }

  /** A text that starts with `{` and ends with `}` has at least two characters. */
  lemma QuickShape(t: string)
    requires StartsWith(t, "{") && EndsWith(t, "}")
    ensures Braced(t) && Contains(t, t)
  {
    assert t[..1] == "{" && t[|t| - 1..] == "}";
    assert t[0] == t[..1][0];
    assert t[|t| - 1] == t[|t| - 1..][0];
    assert OccursAt(t, t, 0);
  }

  /** The quick path, then the brace scan, on the prepared text. */
  function FromPrepared(t: string, isJson: string -> bool): (r: Option<string>)
    ensures r.Some? ==>
      && Braced(r.value)
      && isJson(r.value) && Contains(t, r.value)
  {
    if QuickPath(t, isJson) then
      QuickShape(t);
      Some(t)
    else ScanResult(t, isJson)
  }

  /** `_extract_first_json`, with the fence removal and `json.loads` as parameters. */
  function ExtractFirstJson(text: string, unfence: string -> string, isJson: string -> bool): (r: Option<string>)
    ensures text == [] ==> r.None?
    ensures r.Some? ==>
      && Braced(r.value)
      && isJson(r.value) && Contains(Prepared(text, unfence), r.value)
  {
    if text == [] then None
    else
      var t := Prepared(text, unfence);
      var r := FromPrepared(t, isJson);
      assert r.Some? ==> Contains(t, r.value);
      r
  }

  /** The inner loop: from the `{` at `s`, count braces until the depth returns to zero. */
  method MatchBrace(t: string, s: nat) returns (close: Option<nat>)
    requires s < |t| && t[s] == '{'
    ensures close == CloseFrom(t, s + 1, 1)
  {
    var depth: nat := 0;
    var i := s;
    while i < |t|
      invariant s <= i <= |t|
      invariant i == s ==> depth == 0
      invariant i > s ==> depth >= 1 && CloseFrom(t, s + 1, 1) == CloseFrom(t, i, depth)
      decreases |t| - i
    {
      if t[i] == '{' {
        depth := depth + 1;
      } else if t[i] == '}' {
        if depth == 1 {
          return Some(i);
        }
        depth := depth - 1;
      }
      i := i + 1;
    }
    return None;
  }

  /** The outer loop: try every `{` in order until one yields a valid object. */
  method ScanObjects(t: string, isJson: string -> bool) returns (r: Option<string>)
    ensures r == ScanResult(t, isJson)
  {
    var s := 0;
    while s < |t|
      invariant s <= |t|
      invariant ScanFrom(t, 0, isJson) == ScanFrom(t, s, isJson)
      decreases |t| - s
    {
      if t[s] == '{' {
        var close := MatchBrace(t, s);
        if close.Some? && isJson(t[s..close.value + 1]) {
          assert ScanFrom(t, s, isJson) == Some((s, close.value));
          return Some(t[s..close.value + 1]);
        }
      }
      assert ScanFrom(t, s, isJson) == ScanFrom(t, s + 1, isJson);
      s := s + 1;
    }
    return None;
  }

  /** The extractor as the source runs it: the quick path, then a scan over every `{`. */
  method ExtractFirstJsonScan(text: string, unfence: string -> string, isJson: string -> bool) returns (r: Option<string>)
    ensures r == ExtractFirstJson(text, unfence, isJson)
  {
    if text == [] {
      return None;
    }
    var t := Strip(text);
    if StartsWith(t, "```") {
      t := Strip(unfence(t));
    }
    if QuickPath(t, isJson) {
      return Some(t);
    }
    r := ScanObjects(t, isJson);
  }

  // ---------------------------------------------------------------------------
  // Post-finalize assembly in `run_agent`
  // ---------------------------------------------------------------------------

  /** The tool's own `answer.recommendations`; `None` where reading them raises (a non-dict answer). */
  function ToolRecs(toolResult: map<string, Json>): Option<Json> {
    var answer := OrEmpty(GetOrNull(toolResult, "answer"));
    if answer.JObj? then Some(OrEmpty(GetOrNull(answer.fields, "recommendations"))) else None
  }

  /** Whether the finalizer's answer is a dict without recommendations while the tool had some. */
  predicate ShouldPromote(pack: map<string, Json>, toolResult: map<string, Json>) {
    var recs := ToolRecs(toolResult);
    var answer := GetOrNull(pack, "answer");
    recs.Some? && Truthy(recs.value) && answer.JObj? &&
    !Truthy(GetOrNull(answer.fields, "recommendations"))
  }

  /** Copy the tool's recommendations into an answer the model left without them. */
  function PromoteRecs(pack: map<string, Json>, toolResult: map<string, Json>): (r: map<string, Json>)
    ensures r.Keys == pack.Keys
    ensures forall k :: k in pack && k != "answer" ==> r[k] == pack[k]
    ensures !ShouldPromote(pack, toolResult) ==> r == pack
    ensures ShouldPromote(pack, toolResult) ==>
      && r["answer"].JObj?
      && r["answer"].fields == pack["answer"].fields["recommendations" := ToolRecs(toolResult).value]
  {
    if ShouldPromote(pack, toolResult) then
      pack["answer" := JObj(pack["answer"].fields["recommendations" := ToolRecs(toolResult).value])]
    else pack
  }

  /**
   * When the tool found recommendations and the answer is a dict, the
   * promoted pack carries them, so the strict check never reports that
   * nothing matched.
   */
  lemma PromotedRecsNeverNoMatch(pack: map<string, Json>, toolResult: map<string, Json>, cfg: VerifyConfig)
    requires ToolRecs(toolResult).Some? && Truthy(ToolRecs(toolResult).value)
    requires GetOrNull(pack, "answer").JObj?
    ensures RecsFound(PromoteRecs(pack, toolResult))
    ensures LocalVerify(PromoteRecs(pack, toolResult), cfg).Ok? ==> !LocalVerify(PromoteRecs(pack, toolResult), cfg).value.NoMatch?
  {
    var promoted := PromoteRecs(pack, toolResult);
    var answer := promoted["answer"];
    assert answer.JObj? && Truthy(GetOrNull(answer.fields, "recommendations"));
    assert OrEmpty(GetOrNull(promoted, "answer")) == answer;
  }

  /** `final_pack.setdefault("meta", {...})`. */
  function MetaFor(modelId: string, agentVersion: string): Json {
    JObj(map["model_id" := JStr(modelId), "agent_version" := JStr(agentVersion)])
  }

  /**
   * The steps after the finalizer: promote the tool's recommendations,
   * replace `verify` with the local verdict, and add `meta` unless present.
   * `Err` where `_local_verify` raises.
   */
  method FinishPack(pack: map<string, Json>, toolResult: map<string, Json>, cfg: VerifyConfig,
                    show: Hint -> string, modelId: string, agentVersion: string)
    returns (r: Result<map<string, Json>>)
    ensures var promoted := PromoteRecs(pack, toolResult);
      && (r.Err? <==> LocalVerify(promoted, cfg).Err?)
      && (r.Ok? ==>
            && r.value.Keys == pack.Keys + {"verify", "meta"}
            && r.value["verify"] == VerdictJson(LocalVerify(promoted, cfg).value, show)
            && r.value["meta"] == (if "meta" in pack then pack["meta"] else MetaFor(modelId, agentVersion))
            && (forall k :: k in pack && k != "verify" && k != "meta" ==> r.value[k] == promoted[k]))
  {
    var final := PromoteRecs(pack, toolResult);
    var verdict := LocalVerify(final, cfg);
    if verdict.Err? {
      return Err(verdict.error);
    }
    final := final["verify" := VerdictJson(verdict.value, show)];
    if "meta" !in final {
      final := final["meta" := MetaFor(modelId, agentVersion)];
    }
    r := Ok(final);
  }
}
