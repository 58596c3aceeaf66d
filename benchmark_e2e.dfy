/** scripts/benchmark_query_e2e.py: the scenario collection-key parser, the
    scenario table and the query payload of the end-to-end benchmark. The
    HTTP calls and the timing statistics are not modelled. */
module BenchmarkE2e {
  import opened Wrappers
  import opened Text
  import opened Errors
  import opened Dedup
  import CollectionService

  // ---------------------------------------------------------------------------
  // parse_collection_keys
  // ---------------------------------------------------------------------------

  /** `[item.strip().lower() for item in parts if item.strip()]`. */
  function CleanParts(parts: seq<string>): (r: seq<string>)
    ensures |r| <= |parts|
    decreases |parts|
  {
    if parts == [] then []
    else
      var init := parts[..|parts| - 1];
      var last := parts[|parts| - 1];
      CleanParts(init) + (if Strip(last) != [] then [Normalize(last)] else [])
  }

  /** A part is kept exactly when it is not blank, as its normal form. */
  predicate KeptPart(parts: seq<string>, k: string) {
    exists i :: 0 <= i < |parts| && !IsBlank(parts[i]) && Normalize(parts[i]) == k
  }

  /** The cleaned parts are exactly the normalised non-blank parts. */
  lemma CleanPartsMembers(parts: seq<string>)
    ensures forall k :: k in CleanParts(parts) <==> KeptPart(parts, k)
  {
    forall k ensures k in CleanParts(parts) <==> KeptPart(parts, k) {
      if k in CleanParts(parts) {
        CleanPartsAreKept(parts, k);
      }
      if KeptPart(parts, k) {
        KeptPartsAreClean(parts, k);
      }
    }
  }

  /** Every cleaned part comes from a non-blank part. */
  lemma {:induction false} CleanPartsAreKept(parts: seq<string>, k: string)
    requires k in CleanParts(parts)
    ensures KeptPart(parts, k)
    decreases |parts|
  {
    var init := parts[..|parts| - 1];
    var last := parts[|parts| - 1];
    var tail := if Strip(last) != [] then [Normalize(last)] else [];
    assert CleanParts(parts) == CleanParts(init) + tail;
    if k in CleanParts(init) {
      CleanPartsAreKept(init, k);
      var i :| 0 <= i < |init| && !IsBlank(init[i]) && Normalize(init[i]) == k;
      assert parts[i] == init[i];
    } else {
      StripEmptyIffBlank(last);
      assert k in tail;
      assert parts[|parts| - 1] == last;
    }
  }

  /** Every non-blank part contributes its normal form. */
  lemma {:induction false} KeptPartsAreClean(parts: seq<string>, k: string)
    requires KeptPart(parts, k)
    ensures k in CleanParts(parts)
    decreases |parts|
  {
    var init := parts[..|parts| - 1];
    var last := parts[|parts| - 1];
    var tail := if Strip(last) != [] then [Normalize(last)] else [];
    assert CleanParts(parts) == CleanParts(init) + tail;
    var i :| 0 <= i < |parts| && !IsBlank(parts[i]) && Normalize(parts[i]) == k;
    if i < |init| {
      assert init[i] == parts[i];
      KeptPartsAreClean(init, k);
    } else {
      assert i == |parts| - 1 && parts[i] == last;
      StripEmptyIffBlank(last);
      assert tail == [k];
    }
  }

  /** Every cleaned part is already normalised and not blank. */
  lemma {:induction false} CleanPartsNormal(parts: seq<string>)
    ensures forall k :: k in CleanParts(parts) ==> !IsBlank(k) && Normalize(k) == k
    decreases |parts|
  {
    if parts != [] {
      var init := parts[..|parts| - 1];
      var last := parts[|parts| - 1];
      CleanPartsNormal(init);
      StripEmptyIffBlank(last);
      NormalizeEmptyIffBlank(last);
      NormalizeEmptyIffBlank(Normalize(last));
      NormalizeIdempotent(last);
    }
  }

  /** The keys of a spec: comma-separated, trimmed, lowered, blank parts
      dropped, de-duplicated in order. */
  function SpecKeys(raw: string): seq<string> {
    Dedupe(CleanParts(Split(raw, ',')))
  }

  /** What `parse_collection_keys(raw, max_collections=...)` returns or raises. */
  function ParsedKeys(raw: string, maxCollections: int): (r: Result<seq<string>, ValueError>)
    ensures r.Err? <==> SpecKeys(raw) == [] || |SpecKeys(raw)| > maxCollections
    ensures r.Ok? ==> r.value == SpecKeys(raw)
  {
    var deduped := SpecKeys(raw);
    if deduped == [] then Err(ValueError("Invalid scenario collection keys: " + raw))
    else if |deduped| > maxCollections then
      Err(ValueError("Up to " + IntToString(maxCollections) + " collections are supported: " + raw))
    else Ok(deduped)
  }

  /** The parsed keys: between one and the maximum of them, pairwise
      distinct, normalised and never blank, exactly the normalised non-blank
      parts, in the order each first appears. */
  lemma ParsedKeysSpec(raw: string, maxCollections: int)
    requires ParsedKeys(raw, maxCollections).Ok?
    ensures var keys := ParsedKeys(raw, maxCollections).value;
            var parts := Split(raw, ',');
            && 1 <= |keys| <= maxCollections
            && (forall i, j :: 0 <= i < j < |keys| ==> keys[i] != keys[j])
            && (forall k :: k in keys ==> !IsBlank(k) && Normalize(k) == k)
            && (forall k :: k in keys <==> KeptPart(parts, k))
            && (forall i, j :: 0 <= i < j < |keys| ==> FirstBefore(CleanParts(parts), Id, keys[i], keys[j]))
  {
    var parts := Split(raw, ',');
    CleanPartsMembers(parts);
    CleanPartsNormal(parts);
    DedupeDistinct(CleanParts(parts));
    DedupeMembers(CleanParts(parts));
    DedupeFirstOrder(CleanParts(parts));
  }

  /** `parse_collection_keys`: the cleaning comprehension, the `seen`-set
      loop, and the two checks. */
  method ParseCollectionKeys(raw: string, maxCollections: int) returns (r: Result<seq<string>, ValueError>)
    ensures r == ParsedKeys(raw, maxCollections)
  {
    var keys := CleanParts(Split(raw, ','));
    var deduped := CollectionService.DedupeCollectionKeys(keys);
    if |deduped| == 0 {
      return Err(ValueError("Invalid scenario collection keys: " + raw));
    }
    if |deduped| > maxCollections {
      return Err(ValueError("Up to " + IntToString(maxCollections) + " collections are supported: " + raw));
    }
    return Ok(deduped);
  }

  // ---------------------------------------------------------------------------
  // build_scenarios
  // ---------------------------------------------------------------------------

  const DEFAULT_SCENARIOS: map<string, seq<string>> :=
    map["single_all" := ["all"], "single_fr" := ["fr"], "dual_fr_ge" := ["fr", "ge"]]

  /** `"custom_" + "_".join(keys)`. */
  function ScenarioName(keys: seq<string>): string {
    "custom_" + Join(keys, "_")
  }

  /** The loop of `build_scenarios` over custom specs, with the spec parser
      given: each spec's keys under its name, a later equal name replacing
      an earlier one; the first spec that does not parse stops it. */
  function CustomScenarios(specs: seq<string>, parse: string -> Result<seq<string>, ValueError>)
    : Result<map<string, seq<string>>, ValueError>
    decreases |specs|
  {
    if specs == [] then Ok(map[])
    else
      match CustomScenarios(specs[..|specs| - 1], parse)
      case Err(e) => Err(e)
      case Ok(scenarios) =>
        match parse(specs[|specs| - 1])
        case Err(e) => Err(e)
        case Ok(keys) => Ok(scenarios[ScenarioName(keys) := keys])
  }

  /** `build_scenarios`: the defaults for no specs, the custom table otherwise. */
  function Scenarios(specs: Option<seq<string>>, parse: string -> Result<seq<string>, ValueError>)
    : Result<map<string, seq<string>>, ValueError>
  {
    if specs.None? || specs.value == [] then Ok(DEFAULT_SCENARIOS) else CustomScenarios(specs.value, parse)
  }

  /** The parser of this script, with its default maximum of two. */
  function ParseSpec(raw: string): Result<seq<string>, ValueError> {
    ParsedKeys(raw, 2)
  }

  /** The scenario table is built exactly when every spec parses, and then
      every entry is stored under the name its keys give and holds the keys
      of some spec. */
  lemma {:induction false} CustomScenariosSpec(specs: seq<string>, parse: string -> Result<seq<string>, ValueError>)
    ensures CustomScenarios(specs, parse).Ok? <==> forall i :: 0 <= i < |specs| ==> parse(specs[i]).Ok?
    ensures CustomScenarios(specs, parse).Ok? ==>
              var m := CustomScenarios(specs, parse).value;
              forall name :: name in m ==>
                name == ScenarioName(m[name]) && exists i :: 0 <= i < |specs| && parse(specs[i]) == Ok(m[name])
    decreases |specs|
  {
    if specs != [] {
      var init := specs[..|specs| - 1];
      CustomScenariosSpec(init, parse);
      assert forall i :: 0 <= i < |init| ==> init[i] == specs[i];
    }
  }

  /** A later spec with the same name wins: the entry under the name of spec
      `i` holds spec `i`'s keys unless a later spec has that name too. */
  lemma {:induction false} LaterSpecWins(specs: seq<string>, parse: string -> Result<seq<string>, ValueError>, i: nat)
    requires CustomScenarios(specs, parse).Ok?
    requires i < |specs| && parse(specs[i]).Ok?
    requires forall j :: i < j < |specs| && parse(specs[j]).Ok? ==>
               ScenarioName(parse(specs[j]).value) != ScenarioName(parse(specs[i]).value)
    ensures ScenarioName(parse(specs[i]).value) in CustomScenarios(specs, parse).value
    ensures CustomScenarios(specs, parse).value[ScenarioName(parse(specs[i]).value)] == parse(specs[i]).value
    decreases |specs|
  {
    var init := specs[..|specs| - 1];
    if i < |init| {
      assert init[i] == specs[i];
      forall j | i < j < |init| && parse(init[j]).Ok?
        ensures ScenarioName(parse(init[j]).value) != ScenarioName(parse(init[i]).value)
      {
        assert init[j] == specs[j];
      }
      LaterSpecWins(init, parse, i);
    }
  }

  /** Without specs the default scenarios are used. */
  lemma NoSpecsGiveDefaults(specs: Option<seq<string>>, parse: string -> Result<seq<string>, ValueError>)
    requires specs.None? || specs.value == []
    ensures Scenarios(specs, parse) == Ok(DEFAULT_SCENARIOS)
    ensures DEFAULT_SCENARIOS.Keys == {"single_all", "single_fr", "dual_fr_ge"}
  {
  }

  /** `build_scenarios`: fills the table spec by spec. */
  method BuildScenarios(specs: Option<seq<string>>, parse: string -> Result<seq<string>, ValueError>)
    returns (r: Result<map<string, seq<string>>, ValueError>)
    ensures r == Scenarios(specs, parse)
  {
    if specs.None? || |specs.value| == 0 {
      return Ok(DEFAULT_SCENARIOS);
    }
    var rawSpecs := specs.value;
    var scenarios: map<string, seq<string>> := map[];
    for i := 0 to |rawSpecs|
      invariant CustomScenarios(rawSpecs[..i], parse) == Ok(scenarios)
    {
      assert rawSpecs[..i + 1][..i] == rawSpecs[..i];
      var keys := parse(rawSpecs[i]);
      if keys.Err? {
        CustomScenariosPrefixFails(rawSpecs, parse, i + 1);
        return Err(keys.error);
      }
      scenarios := scenarios[ScenarioName(keys.value) := keys.value];
    }
    assert rawSpecs[..|rawSpecs|] == rawSpecs;
    return Ok(scenarios);
  }

  /** Once a prefix of the specs fails, the whole table fails with that error. */
  lemma {:induction false} CustomScenariosPrefixFails(specs: seq<string>, parse: string -> Result<seq<string>, ValueError>,
                                                      n: nat)
    requires n <= |specs| && CustomScenarios(specs[..n], parse).Err?
    ensures CustomScenarios(specs, parse) == CustomScenarios(specs[..n], parse)
    decreases |specs| - n
  {
    if n < |specs| {
      assert specs[..n + 1][..n] == specs[..n];
      CustomScenariosPrefixFails(specs, parse, n + 1);
    } else {
      assert specs[..n] == specs;
    }
  }

  // ---------------------------------------------------------------------------
  // Query payload
  // ---------------------------------------------------------------------------

  /** A payload value: a string or a list of strings. */
  datatype PayloadValue = Text(text: string) | TextList(items: seq<string>)

  /** The JSON body the benchmark posts to `/query` for one scenario. */
  function QueryPayload(query: string, provider: string, model: string, baseUrl: string, apiKey: string,
                        keys: seq<string>): (p: map<string, PayloadValue>)
    requires keys != []
    ensures "query" in p && p["query"] == Text(query)
    ensures "llm_provider" in p && p["llm_provider"] == Text(provider)
    ensures p.Keys <= {"query", "llm_provider", "llm_model", "llm_base_url", "llm_api_key", "collection", "collections"}
    ensures "llm_model" in p <==> model != []
    ensures "llm_model" in p ==> p["llm_model"] == Text(model)
    ensures "llm_base_url" in p <==> baseUrl != []
    ensures "llm_base_url" in p ==> p["llm_base_url"] == Text(baseUrl)
    ensures "llm_api_key" in p <==> apiKey != []
    ensures "llm_api_key" in p ==> p["llm_api_key"] == Text(apiKey)
    ensures "collection" in p && p["collection"] == Text(keys[0])
    ensures "collections" in p <==> |keys| != 1
    ensures "collections" in p ==> p["collections"] == TextList(keys)
  {
    var base := map["query" := Text(query), "llm_provider" := Text(provider)];
    var withModel := if model != [] then base["llm_model" := Text(model)] else base;
    var withUrl := if baseUrl != [] then withModel["llm_base_url" := Text(baseUrl)] else withModel;
    var withKey := if apiKey != [] then withUrl["llm_api_key" := Text(apiKey)] else withUrl;
    if |keys| == 1 then withKey["collection" := Text(keys[0])]
    else withKey["collection" := Text(keys[0])]["collections" := TextList(keys)]
  }
}
