/**
 * Judge configuration from the environment (`parse_list_env`,
 * `build_judge_configs`). The environment is a map from variable names to
 * values; reading it is the only I/O and is left to the caller.
 */
module Config {
  import opened Wrappers
  import opened Text

  type Env = map<string, string>

  datatype ConfigError =
    | MissingEnv(key: string)   // "Missing required env var: ..."
    | LengthMismatch            // "JUDGE_MODELS and JUDGE_BACKENDS must have the same length."
    | BadBackend                // "JUDGE_BACKENDS values must be 'local' or 'online'."

  datatype Backend = Local | Online

  datatype JudgeConfig = JudgeConfig(
    model: string,
    backend: Backend,
    baseUrl: string,
    requiresApiKey: bool)

  /** A judge configuration asks for an API key exactly when its backend is online. */
  predicate WellFormed(c: JudgeConfig) {
    c.requiresApiKey <==> c.backend == Online
  }

  /** `require_env`: an absent or empty variable is an error. */
  function RequireEnv(env: Env, key: string): (r: Result<string, ConfigError>)
    ensures r.Success? <==> key in env && env[key] != ""
    ensures r.Success? ==> r.value == env[key]
    ensures r.Failure? ==> r.error == MissingEnv(key)
  {
    if key in env && env[key] != "" then Success(env[key]) else Failure(MissingEnv(key))
  }

  /** The stripped, non-empty items among `parts`, in order. */
  function NonEmptyStripped(parts: seq<string>): (items: seq<string>)
    ensures |items| <= |parts|
    ensures forall k :: 0 <= k < |items| ==> items[k] != "" && IsStripped(items[k])
  {
    if parts == [] then [] else KeptItem(parts[0]) + NonEmptyStripped(parts[1..])
  }

  /** What one part contributes: its stripped text, unless that is empty. */
  function KeptItem(part: string): (ks: seq<string>)
    ensures |ks| <= 1 && forall k :: 0 <= k < |ks| ==> ks[k] != "" && IsStripped(ks[k])
  {
    var item := Strip(part);
    if item != "" then [item] else []
  }

  /** `parse_list_env`: the comma-separated items of a required variable, stripped, empty ones dropped. */
  function ParseListEnv(env: Env, key: string): (r: Result<seq<string>, ConfigError>)
    ensures r.Failure? <==> RequireEnv(env, key).Failure?
    ensures r.Failure? ==> r.error == MissingEnv(key)
    ensures r.Success? ==> forall k :: 0 <= k < |r.value| ==>
              r.value[k] != "" && IsStripped(r.value[k]) && ',' !in r.value[k]
    ensures r.Success? ==> var parts := Split(env[key], ',');
              forall x :: x in r.value <==> exists k :: 0 <= k < |parts| && x in KeptItem(parts[k])
  {
    match RequireEnv(env, key)
    case Failure(e) => Failure(e)
    case Success(value) =>
      var parts := Split(value, ',');
      var items := NonEmptyStripped(parts);
      NoCommaSurvives(parts);
      NonEmptyStrippedItems(parts);
      Success(items)
  }

  /** A further part adds its stripped text at the end when that is non-empty, and nothing otherwise. */
  lemma {:induction false} NonEmptyStrippedSnoc(parts: seq<string>, p: string)
    ensures NonEmptyStripped(parts + [p]) == NonEmptyStripped(parts) + KeptItem(p)
  {
    if parts == [] {
      assert NonEmptyStripped([p]) == KeptItem(p) + NonEmptyStripped([]);
    } else {
      var q := parts[1..];
      assert (parts + [p])[1..] == q + [p];
      NonEmptyStrippedSnoc(q, p);
      calc {
        NonEmptyStripped(parts + [p]);
        KeptItem(parts[0]) + NonEmptyStripped(q + [p]);
        KeptItem(parts[0]) + (NonEmptyStripped(q) + KeptItem(p));
        (KeptItem(parts[0]) + NonEmptyStripped(q)) + KeptItem(p);
      }
    }
  }

  /** An item is kept exactly when some part contributes it. */
  lemma NonEmptyStrippedItems(parts: seq<string>)
    ensures forall x :: x in NonEmptyStripped(parts) <==> exists k :: 0 <= k < |parts| && x in KeptItem(parts[k])
  {
    forall x | x in NonEmptyStripped(parts)
      ensures exists k :: 0 <= k < |parts| && x in KeptItem(parts[k])
    {
      KeptFromSomePart(parts, x);
    }
    forall x, k | 0 <= k < |parts| && x in KeptItem(parts[k])
      ensures x in NonEmptyStripped(parts)
    {
      PartContributes(parts, k, x);
    }
  }

  lemma {:induction false} KeptFromSomePart(parts: seq<string>, x: string)
    requires x in NonEmptyStripped(parts)
    ensures exists k :: 0 <= k < |parts| && x in KeptItem(parts[k])
  {
    if x !in KeptItem(parts[0]) {
      KeptFromSomePart(parts[1..], x);
      var k :| 0 <= k < |parts[1..]| && x in KeptItem(parts[1..][k]);
      assert parts[k + 1] == parts[1..][k];
    }
  }

  lemma {:induction false} PartContributes(parts: seq<string>, k: nat, x: string)
    requires k < |parts| && x in KeptItem(parts[k])
    ensures x in NonEmptyStripped(parts)
  {
    if k > 0 {
      assert parts[1..][k - 1] == parts[k];
      PartContributes(parts[1..], k - 1, x);
    }
  }

  lemma {:induction false} NoCommaSurvives(parts: seq<string>)
    requires forall k :: 0 <= k < |parts| ==> ',' !in parts[k]
    ensures forall k :: 0 <= k < |NonEmptyStripped(parts)| ==> ',' !in NonEmptyStripped(parts)[k]
  {
    if parts != [] {
      NoCommaSurvives(parts[1..]);
      KeptItemNoComma(parts[0]);
      var items := NonEmptyStripped(parts);
      assert items == KeptItem(parts[0]) + NonEmptyStripped(parts[1..]);
      forall k | 0 <= k < |items|
        ensures ',' !in items[k]
      {
        if k >= |KeptItem(parts[0])| {
          assert items[k] == NonEmptyStripped(parts[1..])[k - |KeptItem(parts[0])|];
        }
      }
    }
  }

  lemma KeptItemNoComma(part: string)
    requires ',' !in part
    ensures forall k :: 0 <= k < |KeptItem(part)| ==> ',' !in KeptItem(part)[k]
  {
    var item := Strip(part);
    assert forall c :: c in item ==> c in part;
  }

  lemma {:induction false} NonEmptyStrippedKeepsClean(items: seq<string>)
    requires forall k :: 0 <= k < |items| ==> items[k] != "" && IsStripped(items[k])
    ensures NonEmptyStripped(items) == items
  {
    if items != [] {
      StripIdentity(items[0]);
      NonEmptyStrippedKeepsClean(items[1..]);
      assert [items[0]] + items[1..] == items;
    }
  }

  /**
   * Parsing a list undoes joining it with commas, for items that are
   * non-empty, free of commas and of surrounding whitespace.
   */
  lemma ParseListRoundTrip(env: Env, key: string, items: seq<string>)
    requires |items| > 0
    requires forall k :: 0 <= k < |items| ==> items[k] != "" && IsStripped(items[k]) && ',' !in items[k]
    ensures ParseListEnv(env[key := Join(items, ",")], key) == Success(items)
  {
    var value := Join(items, ",");
    var env' := env[key := value];
    assert value != "" by {
      JoinContainsPart(items, ",", 0);
    }
    assert RequireEnv(env', key) == Success(value);
    SplitJoin(items, ',');
    assert Split(value, ',') == items;
    NonEmptyStrippedKeepsClean(items);
  }

  /**
   * A comma-joined list whose parts may be padded with whitespace or empty
   * parses to the stripped non-empty parts, in order.
   */
  lemma ParseListOfJoined(env: Env, key: string, parts: seq<string>)
    requires |parts| > 0 && Join(parts, ",") != ""
    requires forall k :: 0 <= k < |parts| ==> ',' !in parts[k]
    ensures ParseListEnv(env[key := Join(parts, ",")], key) == Success(NonEmptyStripped(parts))
  {
    SplitJoin(parts, ',');
  }

  /** The parts `Split(Join(items, ", "), ',')` gives: every item after the first keeps the space before it. */
  function SpacedParts(items: seq<string>): (parts: seq<string>)
    ensures |parts| == |items|
  {
    if |items| <= 1 then items
    else SpacedParts(items[..|items| - 1]) + [" " + items[|items| - 1]]
  }

  /** A space before a non-empty stripped item is all that `strip` removes. */
  lemma SpacedItemKept(x: string)
    requires x != "" && IsStripped(x)
    ensures KeptItem(" " + x) == [x]
  {
    assert (" " + x)[1..] == x;
    assert TrimStart(" " + x, IsSpace) == x;
    StripIdentity(x);
  }

  lemma {:induction false} SpacedPartsJoin(items: seq<string>)
    requires |items| > 0
    ensures Join(SpacedParts(items), ",") == Join(items, ", ")
  {
    if |items| > 1 {
      var init, x := items[..|items| - 1], items[|items| - 1];
      SpacedPartsJoin(init);
      JoinSnoc(SpacedParts(init), ",", " " + x);
      assert items == init + [x];
      JoinSnoc(init, ", ", x);
    }
  }

  lemma {:induction false} SpacedPartsNoComma(items: seq<string>)
    requires forall k :: 0 <= k < |items| ==> ',' !in items[k]
    ensures forall k :: 0 <= k < |items| ==> ',' !in SpacedParts(items)[k]
  {
    if |items| > 1 {
      var init, x := items[..|items| - 1], items[|items| - 1];
      SpacedPartsNoComma(init);
      forall k | 0 <= k < |items|
        ensures ',' !in SpacedParts(items)[k]
      {
        if k < |init| {
          assert SpacedParts(items)[k] == SpacedParts(init)[k];
        } else {
          assert SpacedParts(items)[k] == " " + x;
        }
      }
    }
  }

  lemma InitLast(s: seq<string>)
    requires |s| > 0
    ensures s[..|s| - 1] + [s[|s| - 1]] == s
  {
  }

  lemma {:induction false} SpacedPartsStripped(items: seq<string>)
    requires forall k :: 0 <= k < |items| ==> items[k] != "" && IsStripped(items[k])
    ensures NonEmptyStripped(SpacedParts(items)) == items
  {
    if |items| <= 1 {
      NonEmptyStrippedKeepsClean(items);
    } else {
      var init, x := items[..|items| - 1], items[|items| - 1];
      var sp := SpacedParts(init);
      assert SpacedParts(items) == sp + [" " + x];
      SpacedPartsStripped(init);
      NonEmptyStrippedSnoc(sp, " " + x);
      SpacedItemKept(x);
      calc {
        NonEmptyStripped(sp + [" " + x]);
        NonEmptyStripped(sp) + KeptItem(" " + x);
        init + [x];
        { InitLast(items); }
        items;
      }
    }
  }

  /**
   * The usual way of writing the variable, items separated by a comma and a
   * space (`gpt-4o, llama3`), parses back to the items.
   */
  lemma ParseSpacedListRoundTrip(env: Env, key: string, items: seq<string>)
    requires |items| > 0
    requires forall k :: 0 <= k < |items| ==> items[k] != "" && IsStripped(items[k]) && ',' !in items[k]
    ensures ParseListEnv(env[key := Join(items, ", ")], key) == Success(items)
  {
    SpacedPartsJoin(items);
    SpacedPartsNoComma(items);
    SpacedPartsStripped(items);
    JoinContainsPart(items, ", ", 0);
    ParseListOfJoined(env, key, SpacedParts(items));
  }

  /** The two accepted spellings of a judge backend; nothing is lower-cased. */
  function BackendOf(name: string): (b: Option<Backend>)
    ensures b.Some? <==> name == "local" || name == "online"
    ensures b == Some(Online) <==> name == "online"
  {
    if name == "local" then Some(Local)
    else if name == "online" then Some(Online)
    else None
  }

  function BaseUrlKey(b: Backend): string {
    if b == Local then "LOCAL_BASE_URL" else "ONLINE_BASE_URL"
  }

  /** The judge entry at this backend name can be configured. */
  predicate EntryOk(env: Env, backendName: string) {
    BackendOf(backendName).Some? && RequireEnv(env, BaseUrlKey(BackendOf(backendName).value)).Success?
  }

  /** The error the first bad entry raises. */
  function EntryError(env: Env, backendName: string): ConfigError {
    if BackendOf(backendName).None? then BadBackend
    else MissingEnv(BaseUrlKey(BackendOf(backendName).value))
  }

  /** `c` is the configuration built for `model` served by the backend named `backendName`. */
  predicate Configured(env: Env, model: string, backendName: string, c: JudgeConfig) {
    && c.model == model
    && Some(c.backend) == BackendOf(backendName)
    && BaseUrlKey(c.backend) in env
    && c.baseUrl == env[BaseUrlKey(c.backend)]
    && WellFormed(c)
  }

  /** Entry `i` is the first one that cannot be configured. */
  predicate FirstBad(env: Env, backends: seq<string>, i: int) {
    && 0 <= i < |backends|
    && !EntryOk(env, backends[i])
    && forall j :: 0 <= j < i ==> EntryOk(env, backends[j])
  }

  /** The loop of `build_judge_configs` over lists of equal length. */
  method ConfigsFor(env: Env, models: seq<string>, backends: seq<string>)
    returns (r: Result<seq<JudgeConfig>, ConfigError>)
    requires |models| == |backends|
    ensures r.Success? <==> forall i :: 0 <= i < |backends| ==> EntryOk(env, backends[i])
    ensures r.Success? ==> |r.value| == |models|
    ensures r.Success? ==> forall i :: 0 <= i < |models| ==> Configured(env, models[i], backends[i], r.value[i])
    ensures r.Failure? ==> exists i :: FirstBad(env, backends, i) && r.error == EntryError(env, backends[i])
  {
    var configs: seq<JudgeConfig> := [];
    for i := 0 to |models|
      invariant |configs| == i
      invariant forall j :: 0 <= j < i ==> EntryOk(env, backends[j])
      invariant forall j :: 0 <= j < i ==> Configured(env, models[j], backends[j], configs[j])
    {
      var backend := BackendOf(backends[i]);
      if backend.None? {
        assert FirstBad(env, backends, i) && BadBackend == EntryError(env, backends[i]);
        return Failure(BadBackend);
      }
      var baseUrl := RequireEnv(env, BaseUrlKey(backend.value));
      if baseUrl.Failure? {
        assert FirstBad(env, backends, i) && baseUrl.error == EntryError(env, backends[i]);
        return Failure(baseUrl.error);
      }
      configs := configs + [JudgeConfig(models[i], backend.value, baseUrl.value, backend.value == Online)];
    }
    return Success(configs);
  }

  /**
   * `build_judge_configs`: both lists are required, must have the same
   * length, and every entry must be configurable; the first failing check
   * raises.
   */
  method BuildJudgeConfigs(env: Env) returns (r: Result<seq<JudgeConfig>, ConfigError>)
    ensures ParseListEnv(env, "JUDGE_MODELS").Failure? ==> r == Failure(MissingEnv("JUDGE_MODELS"))
    ensures (ParseListEnv(env, "JUDGE_MODELS").Success? && ParseListEnv(env, "JUDGE_BACKENDS").Failure?)
              ==> r == Failure(MissingEnv("JUDGE_BACKENDS"))
    ensures (ParseListEnv(env, "JUDGE_MODELS").Success? && ParseListEnv(env, "JUDGE_BACKENDS").Success?
             && |ParseListEnv(env, "JUDGE_MODELS").value| != |ParseListEnv(env, "JUDGE_BACKENDS").value|)
              ==> r == Failure(LengthMismatch)
    ensures r.Success? ==>
              && ParseListEnv(env, "JUDGE_MODELS").Success? && ParseListEnv(env, "JUDGE_BACKENDS").Success?
              && var models, backends := ParseListEnv(env, "JUDGE_MODELS").value, ParseListEnv(env, "JUDGE_BACKENDS").value;
                 && |r.value| == |models| == |backends|
                 && forall i :: 0 <= i < |models| ==> Configured(env, models[i], backends[i], r.value[i])
    ensures (ParseListEnv(env, "JUDGE_MODELS").Success? && ParseListEnv(env, "JUDGE_BACKENDS").Success?
             && |ParseListEnv(env, "JUDGE_MODELS").value| == |ParseListEnv(env, "JUDGE_BACKENDS").value|) ==>
              var backends := ParseListEnv(env, "JUDGE_BACKENDS").value;
              && (r.Success? <==> forall i :: 0 <= i < |backends| ==> EntryOk(env, backends[i]))
              && (r.Failure? ==> exists i :: FirstBad(env, backends, i) && r.error == EntryError(env, backends[i]))
  {
    var parsedModels := ParseListEnv(env, "JUDGE_MODELS");
    if parsedModels.Failure? {
      return Failure(parsedModels.error);
    }
    var parsedBackends := ParseListEnv(env, "JUDGE_BACKENDS");
    if parsedBackends.Failure? {
      return Failure(parsedBackends.error);
    }
    if |parsedModels.value| != |parsedBackends.value| {
      return Failure(LengthMismatch);
    }
    r := ConfigsFor(env, parsedModels.value, parsedBackends.value);
  }
}
