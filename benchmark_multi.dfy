/** scripts/benchmark_multi_collection.py: the scenario collection-key
    parser, the passage collection of one benchmark query, and the scenario
    table. The script reads its constants and its store through the module
    `app_api`; the names it asks for there are modelled as written (several
    are not defined in app_api.py) and, separately, as evidently intended
    (the service-layer settings and stores). Timing and statistics are not
    modelled. */
module BenchmarkMulti {
  import opened Wrappers
  import opened Text
  import opened Errors
  import opened Dedup
  import opened Settings
  import opened Common
  import CollectionService
  import QueryService
  import BenchmarkE2e

  /** What a call of the script raises: its own `ValueError`s (and those of
      the functions it calls), Python's `AttributeError` for a module name
      that does not exist, and `TypeError` for a call with more positional
      arguments than the function takes. */
  datatype ScriptError =
    | Raised(error: ValueError)
    | MissingAttribute(moduleName: string, name: string)
    | TooManyArguments(callee: string, given: nat)

  // ---------------------------------------------------------------------------
  // The module `app_api` as the script sees it
  // ---------------------------------------------------------------------------

  /** The integer constants app_api.py defines at module level. */
  const APP_API_INTS: map<string, int> :=
    map["SEARCH_K" := 3, "SEARCH_FETCH_K" := 10, "CHUNK_SIZE" := 800, "CHUNK_OVERLAP" := 120]

  /** The functions app_api.py defines, with the most positional arguments
      each accepts. */
  const APP_API_FUNCTIONS: map<string, nat> :=
    map["list_target_docs" := 0, "resolve_doc_path" := 1, "format_docs" := 1, "get_embeddings" := 0,
        "get_db" := 0, "get_vector_count" := 1, "get_vector_count_fast" := 0, "reindex" := 1]

  /** `app_api.NAME` for an integer constant. */
  function AppApiInt(name: string): (r: Result<int, ScriptError>)
    ensures r.Ok? <==> name in APP_API_INTS
    ensures r.Ok? ==> r.value == APP_API_INTS[name]
    ensures r.Err? ==> r.error == MissingAttribute("app_api", name)
  {
    if name in APP_API_INTS then Ok(APP_API_INTS[name]) else Err(MissingAttribute("app_api", name))
  }

  /** Whether `app_api.NAME(args)` with `given` positional arguments can be
      entered at all. */
  function AppApiCall(name: string, given: nat): (r: Option<ScriptError>)
    ensures r.None? <==> name in APP_API_FUNCTIONS && given <= APP_API_FUNCTIONS[name]
    ensures name !in APP_API_FUNCTIONS ==> r == Some(MissingAttribute("app_api", name))
  {
    if name !in APP_API_FUNCTIONS then Some(MissingAttribute("app_api", name))
    else if given > APP_API_FUNCTIONS[name] then Some(TooManyArguments(name, given))
    else None
  }

  // ---------------------------------------------------------------------------
  // parse_collection_keys
  // ---------------------------------------------------------------------------

  /** `parse_collection_keys` as written: after the cleaning and the
      de-duplication it reads `app_api.MAX_QUERY_COLLECTIONS` and calls
      `app_api.get_collection_config` for each key. */
  function ParseAsWritten(raw: string): (r: Result<seq<string>, ScriptError>)
    ensures BenchmarkE2e.SpecKeys(raw) == [] ==> r == Err(Raised(ValueError("Invalid collection spec: " + raw)))
    ensures BenchmarkE2e.SpecKeys(raw) != [] && "MAX_QUERY_COLLECTIONS" !in APP_API_INTS ==>
              r == Err(MissingAttribute("app_api", "MAX_QUERY_COLLECTIONS"))
    ensures r.Ok? ==> r.value == BenchmarkE2e.SpecKeys(raw) && "MAX_QUERY_COLLECTIONS" in APP_API_INTS &&
                      |r.value| <= APP_API_INTS["MAX_QUERY_COLLECTIONS"]
  {
    var deduped := BenchmarkE2e.SpecKeys(raw);
    if deduped == [] then Err(Raised(ValueError("Invalid collection spec: " + raw)))
    else
      match AppApiInt("MAX_QUERY_COLLECTIONS")
      case Err(e) => Err(e)
      case Ok(maxCollections) =>
        if |deduped| > maxCollections then
          Err(Raised(ValueError("Up to " + IntToString(maxCollections) + " collections are supported: " + raw)))
        else
          match AppApiCall("get_collection_config", 1)
          case Some(e) => Err(e)
          case None => Ok(deduped)
  }

  /** As written, every spec that names at least one key raises
      `AttributeError`: app_api.py has no `MAX_QUERY_COLLECTIONS`. Only the
      blank spec reaches its intended error. */
  lemma ParseAsWrittenAlwaysFails(raw: string)
    ensures BenchmarkE2e.SpecKeys(raw) != [] ==>
              ParseAsWritten(raw) == Err(MissingAttribute("app_api", "MAX_QUERY_COLLECTIONS"))
    ensures BenchmarkE2e.SpecKeys(raw) == [] ==>
              ParseAsWritten(raw) == Err(Raised(ValueError("Invalid collection spec: " + raw)))
    ensures ParseAsWritten(raw).Err?
  {
    assert "MAX_QUERY_COLLECTIONS" !in APP_API_INTS;
  }

  /** The spec `fr` names one registered key, and yet the parser as written
      rejects it while the corrected one accepts it. */
  lemma ParseAsWrittenRejectsFr()
    ensures ParseAsWritten("fr") == Err(MissingAttribute("app_api", "MAX_QUERY_COLLECTIONS"))
    ensures ParsedMultiKeys("fr") == Ok(["fr"])
  {
    SpecKeysOfFr();
    ParseAsWrittenAlwaysFails("fr");
    FrParses();
  }

  /** The corrected parser accepts the spec `fr`. */
  lemma FrParses()
    ensures ParsedMultiKeys("fr") == Ok(["fr"])
  {
    SpecKeysOfFr();
    CollectionKeysLiteral();
    assert forall k :: k in ["fr"] ==> k in CollectionKeys();
  }

  /** The keys of the spec `fr`. */
  lemma SpecKeysOfFr()
    ensures BenchmarkE2e.SpecKeys("fr") == ["fr"]
  {
    var parts := Split("fr", ',');
    assert parts == ["fr"] by { SplitOfFr(); }
    CollectionService.KeyFrIsNormal();
    StripEmptyIffBlank("fr");
    assert !IsSpace('f');
    assert !IsBlank("fr");
    assert BenchmarkE2e.CleanParts(parts) == BenchmarkE2e.CleanParts([]) + ["fr"];
    assert Dedupe(["fr"]) == ["fr"] by { DedupeOfSingle("fr"); }
  }

  /** A two-letter word without a comma is one part. */
  lemma SplitOfFr()
    ensures Split("fr", ',') == ["fr"]
  {
    var empty: string := [];
    assert Split(empty, ',') == [empty];
    var r := "r";
    assert r[0] == 'r' && r[0] != ',' && r[1..] == empty;
    assert [r[0]] + empty == r;
    assert Split(r, ',') == [[r[0]] + Split(empty, ',')[0]] + Split(empty, ',')[1..];
    assert Split(r, ',') == [r];
    var s := "fr";
    assert s[0] == 'f' && s[0] != ',' && s[1..] == r;
    var rest := Split(s[1..], ',');
    assert rest == [r] && rest[0] == r && rest[1..] == [];
    assert [s[0]] + r == s;
    assert Split(s, ',') == [[s[0]] + rest[0]] + rest[1..];
  }

  /** One key de-duplicates to itself. */
  lemma DedupeOfSingle(k: string)
    ensures Dedupe([k]) == [k]
  {
    assert [k][1..] == [];
  }

  /** The first unregistered key among `keys`, as the error
      `get_collection_config` raises for it. */
  function FirstUnregistered(keys: seq<string>): (r: Option<ValueError>)
    ensures r.None? <==> forall k :: k in keys ==> k in CollectionKeys()
    ensures r.Some? ==> exists i :: 0 <= i < |keys| && keys[i] !in CollectionKeys()
                                && (forall j :: 0 <= j < i ==> keys[j] in CollectionKeys())
                                && r.value == ValueError("Unsupported collection key: " + keys[i])
  {
    if keys == [] then None
    else
      match CollectionService.GetCollectionConfig(keys[0])
      case Err(e) => Some(e)
      case Ok(_) =>
        var rest := FirstUnregistered(keys[1..]);
        assert forall j :: 1 <= j < |keys| ==> keys[1..][j - 1] == keys[j];
        assert forall k :: k in keys ==> k == keys[0] || k in keys[1..];
        rest
  }

  /** `parse_collection_keys` as evidently intended: the service-wide
      `MAX_QUERY_COLLECTIONS` (two) and the registry lookup of each key. */
  function ParsedMultiKeys(raw: string): (r: Result<seq<string>, ValueError>)
    ensures r.Ok? <==> var keys := BenchmarkE2e.SpecKeys(raw);
                       keys != [] && |keys| <= MAX_QUERY_COLLECTIONS && forall k :: k in keys ==> k in CollectionKeys()
    ensures r.Ok? ==> r.value == BenchmarkE2e.SpecKeys(raw)
  {
    var deduped := BenchmarkE2e.SpecKeys(raw);
    if deduped == [] then Err(ValueError("Invalid collection spec: " + raw))
    else if |deduped| > MAX_QUERY_COLLECTIONS then
      Err(ValueError("Up to " + IntToString(MAX_QUERY_COLLECTIONS) + " collections are supported: " + raw))
    else
      match FirstUnregistered(deduped)
      case Some(e) => Err(e)
      case None => Ok(deduped)
  }

  /** The keys of an accepted spec are one or two distinct registered keys,
      exactly the normalised non-blank parts, in order of first appearance;
      they are also what the end-to-end script's parser returns. */
  lemma ParsedMultiKeysSpec(raw: string)
    requires ParsedMultiKeys(raw).Ok?
    ensures var keys := ParsedMultiKeys(raw).value;
            var parts := Split(raw, ',');
            && 1 <= |keys| <= MAX_QUERY_COLLECTIONS
            && (forall k :: k in keys ==> k in CollectionKeys())
            && (forall i, j :: 0 <= i < j < |keys| ==> keys[i] != keys[j])
            && (forall k :: k in keys <==> BenchmarkE2e.KeptPart(parts, k))
            && BenchmarkE2e.ParsedKeys(raw, MAX_QUERY_COLLECTIONS) == Ok(keys)
  {
    BenchmarkE2e.ParsedKeysSpec(raw, MAX_QUERY_COLLECTIONS);
  }

  /** The two parsers agree wherever the keys are registered; where one is
      not, only this one refuses the spec, naming the first such key. */
  lemma ParsersAgreeOnRegisteredKeys(raw: string)
    ensures var keys := BenchmarkE2e.SpecKeys(raw);
            (forall k :: k in keys ==> k in CollectionKeys()) ==>
              (ParsedMultiKeys(raw).Ok? <==> BenchmarkE2e.ParsedKeys(raw, MAX_QUERY_COLLECTIONS).Ok?)
    ensures var keys := BenchmarkE2e.SpecKeys(raw);
            keys != [] && |keys| <= MAX_QUERY_COLLECTIONS && FirstUnregistered(keys).Some? ==>
              ParsedMultiKeys(raw) == Err(FirstUnregistered(keys).value)
  {
  }

  /** `parse_collection_keys` (corrected): the cleaning comprehension, the
      `seen`-set loop, the two checks and the registry lookup loop. */
  method ParseCollectionKeys(raw: string) returns (r: Result<seq<string>, ValueError>)
    ensures r == ParsedMultiKeys(raw)
  {
    var keys := BenchmarkE2e.CleanParts(Split(raw, ','));
    var deduped := CollectionService.DedupeCollectionKeys(keys);
    if |deduped| == 0 {
      return Err(ValueError("Invalid collection spec: " + raw));
    }
    if |deduped| > MAX_QUERY_COLLECTIONS {
      return Err(ValueError("Up to " + IntToString(MAX_QUERY_COLLECTIONS) + " collections are supported: " + raw));
    }
    for i := 0 to |deduped|
      invariant FirstUnregistered(deduped) == FirstUnregistered(deduped[i..])
    {
      assert deduped[i..][1..] == deduped[i + 1..];
      var config := CollectionService.GetCollectionConfig(deduped[i]);
      if config.Err? {
        return Err(config.error);
      }
    }
    return Ok(deduped);
  }

  // ---------------------------------------------------------------------------
  // collect_docs_for_query
  // ---------------------------------------------------------------------------

  /** `collect_docs_for_query` as written: the first key's store is opened
      with `app_api.get_db(key)`, which takes no argument. */
  function CollectDocsAsWritten(keys: seq<string>, retrieve: string -> seq<Document>)
    : (r: Result<seq<Document>, ScriptError>)
    ensures keys == [] ==> r == Ok([])
    ensures keys != [] && AppApiCall("get_db", 1).Some? ==> r == Err(AppApiCall("get_db", 1).value)
    ensures r.Ok? && keys != [] ==> |r.value| <= QueryService.MaxDocs(|keys|)
  {
    if keys == [] then Ok([])
    else
      match AppApiCall("get_db", 1)
      case Some(e) => Err(e)
      case None => Ok(QueryService.Take(DedupeBy(retrieve(keys[0]), QueryService.Fingerprint, {}), QueryService.MaxDocs(|keys|)))
  }

  /** As written, every query with at least one collection raises
      `TypeError`, whatever the keys. */
  lemma CollectDocsAsWrittenAlwaysFails(keys: seq<string>, retrieve: string -> seq<Document>)
    ensures keys != [] <==> CollectDocsAsWritten(keys, retrieve).Err?
    ensures keys != [] ==> CollectDocsAsWritten(keys, retrieve) == Err(TooManyArguments("get_db", 1))
  {
  }

  /** `collect_docs_for_query` (corrected, through the service-layer
      `get_db(collection_key)`): retrieval collection by collection, the
      fingerprint de-duplication, and the cap. */
  method CollectDocsForQuery(keys: seq<string>, retrieve: string -> seq<Document>)
    returns (r: Result<seq<Document>, ValueError>)
    ensures r == QueryService.ContextPassages(keys, retrieve)
    ensures r.Err? <==> exists i :: 0 <= i < |keys| && keys[i] !in CollectionKeys()
    ensures r.Ok? ==> |r.value| <= QueryService.MaxDocs(|keys|) && KeysDistinct(r.value, QueryService.Fingerprint)
  {
    var docs: seq<Document> := [];
    var fingerprints: set<string> := {};
    ghost var all: seq<Document> := [];
    for i := 0 to |keys|
      invariant QueryService.Retrieved(keys[..i], retrieve) == Ok(all)
      invariant docs == DedupeBy(all, QueryService.Fingerprint, {})
      invariant fingerprints == SeenAfter(all, QueryService.Fingerprint, {})
    {
      assert keys[..i + 1][..i] == keys[..i];
      var key := keys[i];
      var name := CollectionService.GetCollectionName(key);
      if name.Err? {
        assert QueryService.Retrieved(keys[..i + 1], retrieve).Err?;
        QueryService.RetrievedPrefixFails(keys, retrieve, i + 1);
        QueryService.RetrievedFails(keys, retrieve);
        return Err(name.error);
      }
      docs, fingerprints := QueryService.AddUnseen(retrieve(key), all, docs, fingerprints);
      all := all + retrieve(key);
    }
    assert keys[..|keys|] == keys;
    QueryService.RetrievedFails(keys, retrieve);
    QueryService.ContextPassagesSpec(keys, retrieve);
    var maxDocs := if SEARCH_K * |keys| > SEARCH_K then SEARCH_K * |keys| else SEARCH_K;
    return Ok(if maxDocs <= |docs| then docs[..maxDocs] else docs);
  }

  // ---------------------------------------------------------------------------
  // build_scenarios
  // ---------------------------------------------------------------------------

  /** `build_scenarios` with the corrected parser: the same defaults and the
      same naming rule as the end-to-end script. */
  function MultiScenarios(specs: Option<seq<string>>): Result<map<string, seq<string>>, ValueError> {
    BenchmarkE2e.Scenarios(specs, ParsedMultiKeys)
  }

  /** Every scenario of a built table is named after its keys, which are one
      or two registered keys of some spec; the table is built exactly when
      every spec parses. */
  lemma MultiScenariosSpec(specs: seq<string>)
    requires specs != []
    ensures MultiScenarios(Some(specs)).Ok? <==> forall i :: 0 <= i < |specs| ==> ParsedMultiKeys(specs[i]).Ok?
    ensures MultiScenarios(Some(specs)).Ok? ==>
              var m := MultiScenarios(Some(specs)).value;
              forall name :: name in m ==>
                && name == BenchmarkE2e.ScenarioName(m[name])
                && 1 <= |m[name]| <= MAX_QUERY_COLLECTIONS
                && forall k :: k in m[name] ==> k in CollectionKeys()
  {
    BenchmarkE2e.CustomScenariosSpec(specs, ParsedMultiKeys);
    if MultiScenarios(Some(specs)).Ok? {
      var m := MultiScenarios(Some(specs)).value;
      forall name | name in m
        ensures 1 <= |m[name]| <= MAX_QUERY_COLLECTIONS && forall k :: k in m[name] ==> k in CollectionKeys()
      {
        var i :| 0 <= i < |specs| && ParsedMultiKeys(specs[i]) == Ok(m[name]);
      }
    }
  }

  /** `build_scenarios`: the defaults without specs, else the table filled
      spec by spec with the corrected parser. */
  method BuildScenarios(specs: Option<seq<string>>) returns (r: Result<map<string, seq<string>>, ValueError>)
    ensures r == MultiScenarios(specs)
  {
    r := BenchmarkE2e.BuildScenarios(specs, ParsedMultiKeys);
  }
}
