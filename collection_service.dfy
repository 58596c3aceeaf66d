/** services/collection_service.py: resolving a collection name or alias to a
    registry key, guessing a key from the query text, choosing the collections
    a query searches (with the route reason and whether a fallback to the
    default collection is allowed), the cap flags, and the per-collection
    status list. */
module CollectionService {
  import opened Wrappers
  import opened Text
  import opened Errors
  import opened Dedup
  import opened Settings

  const REASON_EXPLICIT: string := "explicit"
  const REASON_EXPLICIT_MULTI: string := "explicit_multi"
  const REASON_KEYWORD: string := "keyword"
  const REASON_DEFAULT: string := "default"

  // ---------------------------------------------------------------------------
  // Defaults per collection
  // ---------------------------------------------------------------------------

  /** `default_country_for_collection`: the registry's country, else `all`. */
  function DefaultCountryForCollection(key: string): (r: string)
    ensures key in COUNTRY_BY_COLLECTION_KEY ==> r == COUNTRY_BY_COLLECTION_KEY[key]
    ensures key !in COUNTRY_BY_COLLECTION_KEY ==> r == "all"
    ensures r in {"all", "france", "germany", "italy", "uk"}
  {
    if key in COUNTRY_BY_COLLECTION_KEY then COUNTRY_BY_COLLECTION_KEY[key] else "all"
  }

  /** `default_doc_type_for_collection`: `summary` exactly for `all` and `eu`. */
  function DefaultDocTypeForCollection(key: string): (r: string)
    ensures r == "summary" <==> key == "all" || key == "eu"
    ensures r != "summary" ==> r == "country"
  {
    if key in {"all", "eu"} then "summary" else "country"
  }

  // ---------------------------------------------------------------------------
  // Resolving a requested collection
  // ---------------------------------------------------------------------------

  /** The collection names in the form the resolver compares against, in
      registry order. */
  function NormalizedNames(): (r: seq<string>)
    ensures |r| == |COLLECTION_CONFIGS|
    ensures forall i :: 0 <= i < |r| ==> r[i] == Normalize(COLLECTION_CONFIGS[i].1.name)
  {
    seq(|COLLECTION_CONFIGS|, i requires 0 <= i < |COLLECTION_CONFIGS| => Normalize(COLLECTION_CONFIGS[i].1.name))
  }

  /** The first position of `value` in `names`. */
  function FirstNameMatch(value: string, names: seq<string>): (r: Option<nat>)
    ensures r.Some? ==> r.value < |names| && names[r.value] == value
    ensures r.Some? ==> forall j :: 0 <= j < r.value ==> names[j] != value
    ensures r.None? ==> forall j :: 0 <= j < |names| ==> names[j] != value
  {
    if names == [] then None
    else if names[0] == value then Some(0)
    else
      match FirstNameMatch(value, names[1..])
      case None => None
      case Some(i) => Some(i + 1)
  }

  /** `resolve_collection_key`: None for no or blank input; the key itself when
      the normalised input is a key; else the key of the first collection with
      that name; anything else is an error, never a silent default. */
  function ResolveCollectionKey(collection: Option<string>): (r: Result<Option<string>, ValueError>)
    ensures collection.None? || IsBlank(collection.value) ==> r == Ok(None)
    ensures r.Ok? && r.value.Some? ==> r.value.value in CollectionKeys()
    ensures collection.Some? && !IsBlank(collection.value) ==> r.Err? || r.value.Some?
    ensures collection.Some? && Normalize(collection.value) in CollectionKeys()
            ==> r == Ok(Some(Normalize(collection.value)))
    ensures collection.Some? && !IsBlank(collection.value) && Normalize(collection.value) !in CollectionKeys()
            && FirstNameMatch(Normalize(collection.value), NormalizedNames()).Some?
            ==> r == Ok(Some(COLLECTION_CONFIGS[FirstNameMatch(Normalize(collection.value), NormalizedNames()).value].0))
    ensures r.Err? <==> collection.Some? && !IsBlank(collection.value)
                        && Normalize(collection.value) !in CollectionKeys()
                        && FirstNameMatch(Normalize(collection.value), NormalizedNames()).None?
    ensures r.Err? ==> r.error == ValueError("Unsupported collection: " + collection.value)
  {
    if collection.None? then Ok(None)
    else
      var value := Normalize(collection.value);
      NormalizeEmptyIffBlank(collection.value);
      if value == [] then Ok(None)
      else if value in CollectionKeys() then Ok(Some(value))
      else
        match FirstNameMatch(value, NormalizedNames())
        case Some(i) => Ok(Some(COLLECTION_CONFIGS[i].0))
        case None => Err(ValueError("Unsupported collection: " + collection.value))
  }

  lemma KeyAllIsNormal() ensures Normalize("all") == "all" { NormalizeOfPlainWord("all"); }
  lemma KeyEuIsNormal() ensures Normalize("eu") == "eu" { NormalizeOfPlainWord("eu"); }
  lemma KeyFrIsNormal() ensures Normalize("fr") == "fr" { NormalizeOfPlainWord("fr"); }
  lemma KeyGeIsNormal() ensures Normalize("ge") == "ge" { NormalizeOfPlainWord("ge"); }
  lemma KeyItIsNormal() ensures Normalize("it") == "it" { NormalizeOfPlainWord("it"); }
  lemma KeyUkIsNormal() ensures Normalize("uk") == "uk" { NormalizeOfPlainWord("uk"); }

  lemma ResolveKeyAll()
    ensures ResolveCollectionKey(Some(COLLECTION_CONFIGS[0].0)) == Ok(Some(COLLECTION_CONFIGS[0].0))
  {
    assert COLLECTION_CONFIGS[0].0 == "all";
    KeyAllIsNormal();
    CollectionKeysLiteral();
  }

  lemma ResolveKeyEu()
    ensures ResolveCollectionKey(Some(COLLECTION_CONFIGS[1].0)) == Ok(Some(COLLECTION_CONFIGS[1].0))
  {
    assert COLLECTION_CONFIGS[1].0 == "eu";
    KeyEuIsNormal();
    CollectionKeysLiteral();
  }

  lemma ResolveKeyFr()
    ensures ResolveCollectionKey(Some(COLLECTION_CONFIGS[2].0)) == Ok(Some(COLLECTION_CONFIGS[2].0))
  {
    assert COLLECTION_CONFIGS[2].0 == "fr";
    KeyFrIsNormal();
    CollectionKeysLiteral();
  }

  lemma ResolveKeyGe()
    ensures ResolveCollectionKey(Some(COLLECTION_CONFIGS[3].0)) == Ok(Some(COLLECTION_CONFIGS[3].0))
  {
    assert COLLECTION_CONFIGS[3].0 == "ge";
    KeyGeIsNormal();
    CollectionKeysLiteral();
  }

  lemma ResolveKeyIt()
    ensures ResolveCollectionKey(Some(COLLECTION_CONFIGS[4].0)) == Ok(Some(COLLECTION_CONFIGS[4].0))
  {
    assert COLLECTION_CONFIGS[4].0 == "it";
    KeyItIsNormal();
    CollectionKeysLiteral();
  }

  lemma ResolveKeyUk()
    ensures ResolveCollectionKey(Some(COLLECTION_CONFIGS[5].0)) == Ok(Some(COLLECTION_CONFIGS[5].0))
  {
    assert COLLECTION_CONFIGS[5].0 == "uk";
    KeyUkIsNormal();
    CollectionKeysLiteral();
  }

  /** Every registry key resolves to itself. */
  lemma ResolveRegisteredKey(i: nat)
    requires i < |COLLECTION_CONFIGS|
    ensures ResolveCollectionKey(Some(COLLECTION_CONFIGS[i].0)) == Ok(Some(COLLECTION_CONFIGS[i].0))
  {
    if i == 0 { ResolveKeyAll(); }
    else if i == 1 { ResolveKeyEu(); }
    else if i == 2 { ResolveKeyFr(); }
    else if i == 3 { ResolveKeyGe(); }
    else if i == 4 { ResolveKeyIt(); }
    else { ResolveKeyUk(); }
  }

  /** Resolving is idempotent: a resolved key resolves to itself. */
  lemma ResolveCollectionKeyIdempotent(collection: Option<string>)
    requires ResolveCollectionKey(collection).Ok? && ResolveCollectionKey(collection).value.Some?
    ensures var k := ResolveCollectionKey(collection).value.value;
            ResolveCollectionKey(Some(k)) == Ok(Some(k))
  {
    var k := ResolveCollectionKey(collection).value.value;
    var i :| 0 <= i < |CollectionKeys()| && CollectionKeys()[i] == k;
    ResolveRegisteredKey(i);
  }

  /** `get_collection_config`. */
  function GetCollectionConfig(key: string): (r: Result<CollectionConfig, ValueError>)
    ensures r.Ok? <==> key in CollectionKeys()
    ensures r.Ok? ==> exists i :: 0 <= i < |COLLECTION_CONFIGS| && COLLECTION_CONFIGS[i] == (key, r.value)
    ensures r.Err? ==> r.error == ValueError("Unsupported collection key: " + key)
  {
    match KeyIndex(key, COLLECTION_CONFIGS)
    case Some(i) => Ok(COLLECTION_CONFIGS[i].1)
    case None => Err(ValueError("Unsupported collection key: " + key))
  }

  /** The position of `key` among the entries' keys. */
  function KeyIndex(key: string, entries: seq<(string, CollectionConfig)>): (r: Option<nat>)
    ensures r.Some? ==> r.value < |entries| && entries[r.value].0 == key
    ensures r.None? ==> forall j :: 0 <= j < |entries| ==> entries[j].0 != key
  {
    if entries == [] then None
    else if entries[0].0 == key then Some(0)
    else
      match KeyIndex(key, entries[1..])
      case None => None
      case Some(i) => Some(i + 1)
  }

  /** `get_collection_name`. */
  function GetCollectionName(key: string): (r: Result<string, ValueError>)
    ensures r.Ok? <==> key in CollectionKeys()
    ensures r.Ok? ==> exists i :: 0 <= i < |COLLECTION_CONFIGS| && COLLECTION_CONFIGS[i].0 == key
                                  && COLLECTION_CONFIGS[i].1.name == r.value
  {
    match GetCollectionConfig(key)
    case Ok(config) => Ok(config.name)
    case Err(e) => Err(e)
  }

  // ---------------------------------------------------------------------------
  // Guessing from the query
  // ---------------------------------------------------------------------------

  /** Some keyword of the collection, lower-cased, occurs in the normalised query. */
  predicate KeywordHit(normalized: string, config: CollectionConfig) {
    exists keyword :: keyword in config.keywords && Contains(normalized, Lower(keyword))
  }

  /** The first non-default entry with a keyword hit. */
  function FirstKeywordMatch(normalized: string, entries: seq<(string, CollectionConfig)>): (r: Option<nat>)
    ensures r.Some? ==> r.value < |entries| && entries[r.value].0 != DEFAULT_COLLECTION_KEY
                        && KeywordHit(normalized, entries[r.value].1)
    ensures r.Some? ==> forall j :: 0 <= j < r.value ==>
                          entries[j].0 == DEFAULT_COLLECTION_KEY || !KeywordHit(normalized, entries[j].1)
    ensures r.None? ==> forall j :: 0 <= j < |entries| ==>
                          entries[j].0 == DEFAULT_COLLECTION_KEY || !KeywordHit(normalized, entries[j].1)
  {
    if entries == [] then None
    else if entries[0].0 != DEFAULT_COLLECTION_KEY && KeywordHit(normalized, entries[0].1) then Some(0)
    else
      match FirstKeywordMatch(normalized, entries[1..])
      case None => None
      case Some(i) => Some(i + 1)
  }

  /** `guess_collection_key_from_query`: the first non-default key, in registry
      order, one of whose keywords occurs in the stripped, lower-cased query;
      otherwise the default key. */
  function GuessCollectionKeyFromQuery(query: string): (r: string)
    ensures r in CollectionKeys()
    ensures r != DEFAULT_COLLECTION_KEY ==>
              exists i :: 0 <= i < |COLLECTION_CONFIGS| && COLLECTION_CONFIGS[i].0 == r
                          && KeywordHit(Normalize(query), COLLECTION_CONFIGS[i].1)
                          && (forall j :: 0 <= j < i ==>
                                (COLLECTION_CONFIGS[j].0 == DEFAULT_COLLECTION_KEY || !KeywordHit(Normalize(query), COLLECTION_CONFIGS[j].1)))
    ensures r == DEFAULT_COLLECTION_KEY <==>
              forall i :: 0 <= i < |COLLECTION_CONFIGS| && COLLECTION_CONFIGS[i].0 != DEFAULT_COLLECTION_KEY
                          ==> !KeywordHit(Normalize(query), COLLECTION_CONFIGS[i].1)
  {
    DefaultKeyHasNoKeywords();
    assert CollectionKeys()[0] == DEFAULT_COLLECTION_KEY;
    match FirstKeywordMatch(Normalize(query), COLLECTION_CONFIGS)
    case Some(i) =>
      assert CollectionKeys()[i] == COLLECTION_CONFIGS[i].0;
      COLLECTION_CONFIGS[i].0
    case None => DEFAULT_COLLECTION_KEY
  }

  /** `resolve_collection_for_query`: an explicit key wins (`explicit`), then a
      keyword guess (`keyword`), then the default (`default`). */
  function ResolveCollectionForQuery(query: string, requested: Option<string>): (r: Result<(string, string), ValueError>)
    ensures r.Err? <==> ResolveCollectionKey(requested).Err?
    ensures r.Err? ==> r.error == ResolveCollectionKey(requested).error
    ensures ResolveCollectionKey(requested).Ok? && ResolveCollectionKey(requested).value.Some?
            ==> r == Ok((ResolveCollectionKey(requested).value.value, REASON_EXPLICIT))
    ensures ResolveCollectionKey(requested) == Ok(None) && GuessCollectionKeyFromQuery(query) != DEFAULT_COLLECTION_KEY
            ==> r == Ok((GuessCollectionKeyFromQuery(query), REASON_KEYWORD))
    ensures ResolveCollectionKey(requested) == Ok(None) && GuessCollectionKeyFromQuery(query) == DEFAULT_COLLECTION_KEY
            ==> r == Ok((DEFAULT_COLLECTION_KEY, REASON_DEFAULT))
    ensures r.Ok? ==> r.value.0 in CollectionKeys()
  {
    match ResolveCollectionKey(requested)
    case Err(e) => Err(e)
    case Ok(explicit) =>
      if explicit.Some? then Ok((explicit.value, REASON_EXPLICIT))
      else
        var guessed := GuessCollectionKeyFromQuery(query);
        if guessed != DEFAULT_COLLECTION_KEY then Ok((guessed, REASON_KEYWORD))
        else Ok((DEFAULT_COLLECTION_KEY, REASON_DEFAULT))
  }

  // ---------------------------------------------------------------------------
  // Several collections
  // ---------------------------------------------------------------------------

  /** `dedupe_collection_keys`: first-occurrence de-duplication. */
  method DedupeCollectionKeys(keys: seq<string>) returns (deduped: seq<string>)
    ensures deduped == Dedupe(keys)
    ensures forall i, j :: 0 <= i < j < |deduped| ==> deduped[i] != deduped[j]
    ensures forall k :: k in deduped <==> k in keys
  {
    var seen: set<string> := {};
    deduped := [];
    for i := 0 to |keys|
      invariant deduped == DedupeBy(keys[..i], Id, {})
      invariant seen == SeenAfter(keys[..i], Id, {})
    {
      DedupeByStep(keys[..i], Id, {}, keys[i]);
      SeenAfterStep(keys[..i], Id, {}, keys[i]);
      assert keys[..i + 1] == keys[..i] + [keys[i]];
      if keys[i] in seen {
        continue;
      }
      seen := seen + {keys[i]};
      deduped := deduped + [keys[i]];
    }
    assert keys[..|keys|] == keys;
    DedupeDistinct(keys);
    DedupeMembers(keys);
  }

  /** `[value.strip() for value in requested_collections or [] if value.strip()]`. */
  function ExplicitValues(values: seq<string>): (r: seq<string>)
    ensures |r| <= |values|
  {
    if values == [] then []
    else
      var v := Strip(values[0]);
      if v == [] then ExplicitValues(values[1..]) else [v] + ExplicitValues(values[1..])
  }

  /** Every explicit value is non-blank, and there is none exactly when every
      requested value is blank. */
  lemma {:induction false} ExplicitValuesSpec(values: seq<string>)
    ensures forall v :: v in ExplicitValues(values) ==> !IsBlank(v)
    ensures ExplicitValues(values) == [] <==> forall i :: 0 <= i < |values| ==> IsBlank(values[i])
    decreases |values|
  {
    if values != [] {
      var rest := ExplicitValues(values[1..]);
      ExplicitValuesSpec(values[1..]);
      assert forall i :: 1 <= i < |values| ==> values[i] == values[1..][i - 1];
      var v := Strip(values[0]);
      StripEmptyIffBlank(values[0]);
      if v != [] {
        assert ExplicitValues(values) == [v] + rest;
        assert !IsBlank(v) by { assert !IsSpace(v[0]); }
      }
    }
  }

  /** The keys of the explicit values, in order; the first unresolvable value's
      error otherwise. */
  function ResolveAll(values: seq<string>): (r: Result<seq<string>, ValueError>)
    ensures r.Ok? ==> forall k :: k in r.value ==> k in CollectionKeys()
    ensures r.Ok? ==> |r.value| <= |values|
  {
    if values == [] then Ok([])
    else
      match ResolveCollectionKey(Some(values[0]))
      case Err(e) => Err(e)
      case Ok(key) =>
        PrependKeys(if key.Some? then [key.value] else [], ResolveAll(values[1..]))
  }

  /** One step of the resolution, at position `i`. */
  lemma ResolveAllAt(values: seq<string>, i: nat)
    requires i < |values|
    ensures ResolveCollectionKey(Some(values[i])).Err? ==>
              ResolveAll(values[i..]) == Err(ResolveCollectionKey(Some(values[i])).error)
    ensures ResolveCollectionKey(Some(values[i])) == Ok(None) ==>
              ResolveAll(values[i..]) == ResolveAll(values[i + 1..])
    ensures ResolveCollectionKey(Some(values[i])).Ok? && ResolveCollectionKey(Some(values[i])).value.Some? ==>
              ResolveAll(values[i..]) == PrependKeys([ResolveCollectionKey(Some(values[i])).value.value], ResolveAll(values[i + 1..]))
  {
    assert values[i..][0] == values[i] && values[i..][1..] == values[i + 1..];
    PrependKeysEmpty(ResolveAll(values[i + 1..]));
  }

  /** The routing decision: the collections to search, the route reason, and
      whether the default-collection fallback is allowed. */
  datatype Routing = Routing(keys: seq<string>, reason: string, allowDefaultFallback: bool)

  /** What `resolve_collection_keys_for_query` decides. */
  function RouteQuery(query: string, requested: Option<string>, requestedList: Option<seq<string>>): (r: Result<Routing, ValueError>)
    // whatever the path: 1 or 2 distinct registered keys
    ensures r.Ok? ==> 1 <= |r.value.keys| <= MAX_QUERY_COLLECTIONS
    ensures r.Ok? ==> forall k :: k in r.value.keys ==> k in CollectionKeys()
    ensures r.Ok? ==> forall i, j :: 0 <= i < j < |r.value.keys| ==> r.value.keys[i] != r.value.keys[j]
    // explicit list: resolved, then de-duplicated, then capped; no fallback
    ensures ExplicitValues(requestedList.GetOr([])) != [] ==>
              var resolved := ResolveAll(ExplicitValues(requestedList.GetOr([])));
              && (resolved.Err? ==> r == Err(resolved.error))
              && (resolved.Ok? && Dedupe(resolved.value) == [] ==> r == Err(ValueError("No valid collections provided.")))
              && (resolved.Ok? && |Dedupe(resolved.value)| > MAX_QUERY_COLLECTIONS ==>
                    r == Err(ValueError("Too many collections. up to 2 collections are allowed.")))
              && (r.Ok? ==> resolved.Ok? && r.value.keys == Dedupe(resolved.value))
    ensures ExplicitValues(requestedList.GetOr([])) != [] && r.Ok? ==>
              && !r.value.allowDefaultFallback
              && (r.value.reason == REASON_EXPLICIT_MULTI <==> |r.value.keys| > 1)
              && (r.value.reason == REASON_EXPLICIT || r.value.reason == REASON_EXPLICIT_MULTI)
    // no explicit list: the single-collection resolution
    ensures ExplicitValues(requestedList.GetOr([])) == [] ==>
              var single := ResolveCollectionForQuery(query, requested);
              && (single.Err? ==> r == Err(single.error))
              && (single.Ok? ==> r.Ok? && r.value.keys == [single.value.0] && r.value.reason == single.value.1)
    ensures ExplicitValues(requestedList.GetOr([])) == [] && r.Ok? ==>
              (r.value.allowDefaultFallback <==> r.value.reason == REASON_KEYWORD && requested.None?)
  {
    var values := ExplicitValues(requestedList.GetOr([]));
    if values != [] then
      match ResolveAll(values)
      case Err(e) => Err(e)
      case Ok(resolved) =>
        var keys := Dedupe(resolved);
        DedupeDistinct(resolved);
        DedupeMembers(resolved);
        if keys == [] then Err(ValueError("No valid collections provided."))
        else if |keys| > MAX_QUERY_COLLECTIONS then Err(ValueError("Too many collections. up to 2 collections are allowed."))
        else Ok(Routing(keys, if |keys| > 1 then REASON_EXPLICIT_MULTI else REASON_EXPLICIT, false))
    else
      match ResolveCollectionForQuery(query, requested)
      case Err(e) => Err(e)
      case Ok(pair) => Ok(Routing([pair.0], pair.1, pair.1 == REASON_KEYWORD && requested.None?))
  }

  /** The loop of `resolve_collection_keys_for_query` that resolves the
      explicit values one by one; the first failure is raised at once. */
  method ResolveExplicitValues(values: seq<string>) returns (r: Result<seq<string>, ValueError>)
    ensures r == ResolveAll(values)
  {
    var keys: seq<string> := [];
    assert values[0..] == values;
    PrependKeysEmpty(ResolveAll(values));
    for i := 0 to |values|
      invariant ResolveAll(values) == PrependKeys(keys, ResolveAll(values[i..]))
    {
      ResolveAllAt(values, i);
      var key := ResolveCollectionKey(Some(values[i]));
      if key.Err? {
        return Err(key.error);
      }
      if key.value.None? {
        continue;
      }
      PrependKeysAssoc(keys, [key.value.value], ResolveAll(values[i + 1..]));
      keys := keys + [key.value.value];
    }
    assert values[|values|..] == [];
    assert keys + [] == keys;
    return Ok(keys);
  }

  /** `resolve_collection_keys_for_query`: the explicit list when it has a
      non-blank value (resolved, de-duplicated, capped), else the
      single-collection resolution. */
  method ResolveCollectionKeysForQuery(query: string, requested: Option<string>, requestedList: Option<seq<string>>)
    returns (r: Result<Routing, ValueError>)
    ensures r == RouteQuery(query, requested, requestedList)
  {
    var values := ExplicitValues(requestedList.GetOr([]));
    if values != [] {
      var resolved := ResolveExplicitValues(values);
      if resolved.Err? {
        return Err(resolved.error);
      }
      var deduped := DedupeCollectionKeys(resolved.value);
      if deduped == [] {
        return Err(ValueError("No valid collections provided."));
      }
      if |deduped| > MAX_QUERY_COLLECTIONS {
        return Err(ValueError("Too many collections. up to 2 collections are allowed."));
      }
      var reason := if |deduped| > 1 then REASON_EXPLICIT_MULTI else REASON_EXPLICIT;
      return Ok(Routing(deduped, reason, false));
    }
    var single := ResolveCollectionForQuery(query, requested);
    if single.Err? {
      return Err(single.error);
    }
    var (key, reason) := single.value;
    var allowDefaultFallback := reason == REASON_KEYWORD && requested.None?;
    return Ok(Routing([key], reason, allowDefaultFallback));
  }

  /** `keys` prepended to the keys of a resolution; an error stays the error. */
  function PrependKeys(keys: seq<string>, rest: Result<seq<string>, ValueError>): Result<seq<string>, ValueError> {
    match rest
    case Err(e) => Err(e)
    case Ok(more) => Ok(keys + more)
  }

  lemma PrependKeysEmpty(rest: Result<seq<string>, ValueError>)
    ensures PrependKeys([], rest) == rest
  {
    if rest.Ok? {
      assert [] + rest.value == rest.value;
    }
  }

  lemma PrependKeysAssoc(keys: seq<string>, more: seq<string>, rest: Result<seq<string>, ValueError>)
    ensures PrependKeys(keys, PrependKeys(more, rest)) == PrependKeys(keys + more, rest)
  {
    if rest.Ok? {
      assert keys + (more + rest.value) == (keys + more) + rest.value;
    }
  }

  // ---------------------------------------------------------------------------
  // Caps and statuses
  // ---------------------------------------------------------------------------

  /** The integer part of `calculate_cap_status` (the usage ratios are floats
      and are not modelled). */
  datatype CapStatus = CapStatus(softCap: int, hardCap: int, softExceeded: bool, hardExceeded: bool)

  /** `calculate_cap_status`. */
  function CalculateCapStatus(vectorCount: int): (c: CapStatus)
    ensures c.softCap == COLLECTION_SOFT_CAP && c.hardCap == COLLECTION_HARD_CAP
    ensures c.softExceeded <==> vectorCount >= COLLECTION_SOFT_CAP
    ensures c.hardExceeded <==> vectorCount >= COLLECTION_HARD_CAP
  {
    CapStatus(COLLECTION_SOFT_CAP, COLLECTION_HARD_CAP, vectorCount >= COLLECTION_SOFT_CAP, vectorCount >= COLLECTION_HARD_CAP)
  }

  /** Passing the hard cap means passing the soft cap. */
  lemma HardExceededImpliesSoft(vectorCount: int)
    ensures CalculateCapStatus(vectorCount).hardExceeded ==> CalculateCapStatus(vectorCount).softExceeded
  {
  }

  /** One item of `list_collection_statuses`. */
  datatype CollectionStatus = CollectionStatus(key: string, name: string, labelText: string, fileNames: seq<string>,
                                               vectors: int, cap: CapStatus)

  /** The status item of one registry entry; a count that is not available
      (`None`) is reported as 0. */
  function StatusOf(entry: (string, CollectionConfig), countFast: string -> Option<int>): CollectionStatus {
    var vectors := countFast(entry.1.name).GetOr(0);
    CollectionStatus(entry.0, entry.1.name, entry.1.labelText, entry.1.fileNames, vectors, CalculateCapStatus(vectors))
  }

  /** `list_collection_statuses`: one item per registered collection, in registry
      order, its count read through `countFast` by collection name. */
  method ListCollectionStatuses(countFast: string -> Option<int>) returns (items: seq<CollectionStatus>)
    ensures |items| == |COLLECTION_CONFIGS|
    ensures forall i :: 0 <= i < |items| ==> items[i] == StatusOf(COLLECTION_CONFIGS[i], countFast)
    ensures forall i :: 0 <= i < |items| ==> items[i].key == CollectionKeys()[i]
    ensures forall i :: 0 <= i < |items| ==>
              items[i].vectors == (if countFast(items[i].name).Some? then countFast(items[i].name).value else 0)
              && (items[i].cap.hardExceeded <==> items[i].vectors >= COLLECTION_HARD_CAP)
  {
    items := [];
    for i := 0 to |COLLECTION_CONFIGS|
      invariant |items| == i
      invariant forall j :: 0 <= j < i ==> items[j] == StatusOf(COLLECTION_CONFIGS[j], countFast)
    {
      var entry := COLLECTION_CONFIGS[i];
      var count := countFast(entry.1.name);
      var vectors := if count.Some? then count.value else 0;
      items := items + [CollectionStatus(entry.0, entry.1.name, entry.1.labelText, entry.1.fileNames,
                                         vectors, CalculateCapStatus(vectors))];
    }
  }
}
