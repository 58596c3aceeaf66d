/** api/routes_query.py: the `/query` handler. It validates the provider,
    routes the question to one or two collections, keeps the collections that
    hold vectors (falling back once to the default collection when a keyword
    guess found an empty one), sets the collection headers, and maps every
    failure to a typed `QueryAPIError`. The vector store, the LLM client and
    the chain invocation are parameters. */
module RoutesQuery {
  import opened Wrappers
  import opened Text
  import opened Errors
  import opened Settings
  import Common
  import CollectionService
  import RuntimeService
  import Http

  const HEADER_REQUEST_ID: string := "X-Request-ID"
  const HEADER_COLLECTION: string := "X-RAG-Collection"
  const HEADER_COLLECTIONS: string := "X-RAG-Collections"
  const FALLBACK_SUFFIX: string := "->fallback"

  const LLM_CHECK_HINT: string := "provider/base_url/api_key 설정과 모델 실행 상태를 확인하세요."

  const INVALID_PROVIDER_ERROR: QueryApiError :=
    QueryApiError("INVALID_PROVIDER", 400, "지원하지 않는 llm_provider입니다.",
                  Some("openai, ollama, lmstudio 중 하나를 사용하세요."))
  const LLM_CONNECT_ERROR: QueryApiError :=
    QueryApiError("LLM_CONNECTION_FAILED", 502, "LLM 연결에 실패했습니다.", Some(LLM_CHECK_HINT))
  const LLM_RESPONSE_ERROR: QueryApiError :=
    QueryApiError("LLM_CONNECTION_FAILED", 502, "LLM 응답 생성 중 연결 오류가 발생했습니다.", Some(LLM_CHECK_HINT))
  const INTERNAL_ERROR: QueryApiError :=
    QueryApiError("INTERNAL_ERROR", 500, "요청 처리 중 내부 오류가 발생했습니다.",
                  Some("잠시 후 다시 시도하거나 서버 로그에서 request_id를 확인하세요."))

  /** The collection-resolution error: the hint lists the registry keys and the cap. */
  function InvalidCollectionError(): QueryApiError {
    QueryApiError("INVALID_COLLECTION", 400, "지원하지 않는 collection입니다.",
                  Some("지원값: " + Join(CollectionKeys(), ", ") + ", 최대 " + NatToString(MAX_QUERY_COLLECTIONS) + "개 선택 가능"))
  }

  /** No selected collection holds vectors: the hint names the selected collections. */
  function VectorstoreEmptyError(selectedNames: seq<string>): QueryApiError {
    QueryApiError("VECTORSTORE_EMPTY", 400, "선택된 컬렉션에 인덱스가 없습니다. 먼저 /reindex를 실행하세요.",
                  Some("collections=" + Join(selectedNames, ",")))
  }

  /** The invocation ran out of time; the message names the limit in seconds. */
  function LlmTimeoutError(seconds: int): QueryApiError {
    QueryApiError("LLM_TIMEOUT", 504, "LLM 응답 시간이 제한(" + IntToString(seconds) + "초)을 초과했습니다.",
                  Some("모델 상태를 확인하거나 더 짧은 질문으로 다시 시도하세요."))
  }

  /** The request body. */
  datatype QueryRequest = QueryRequest(
    query: string, llmProvider: string, llmModel: Option<string>, llmApiKey: Option<string>,
    llmBaseUrl: Option<string>, collection: Option<string>, collections: Option<seq<string>>)

  /** The response body. */
  datatype QueryResponse = QueryResponse(answer: string, provider: string, model: string)

  /** How invoking the query chain ends: an answer, the time limit, or any
      other failure. */
  datatype LlmOutcome = Answered(answer: string) | TimedOut | Failed

  /** The collections a query searches and the route reason it logs. */
  datatype Selection = Selection(keys: seq<string>, reason: string)

  /** The outcome of the handler: the response or error, and the collection
      names the headers were set from (None when the handler stopped earlier). */
  datatype Handled = Handled(result: Result<QueryResponse, QueryApiError>, activeNames: Option<seq<string>>)

  /** The response whose header fields the handler sets. */
  class Response {
    var headers: map<string, string>

    constructor ()
      ensures headers == map[]
    {
      headers := map[];
    }
  }

  // ---------------------------------------------------------------------------
  // Provider
  // ---------------------------------------------------------------------------

  /** `req.llm_model or default_llm_model(...)`, then `resolve_llm_config`;
      any ValueError becomes INVALID_PROVIDER. */
  function ProviderStep(req: QueryRequest, env: Common.LlmEnv): (r: Result<Common.LlmConfig, QueryApiError>)
    ensures r.Err? <==> Common.NormalizeProvider(req.llmProvider).Err?
    ensures r.Err? ==> r.error == INVALID_PROVIDER_ERROR
    ensures r.Ok? ==> r.value.provider == Normalize(req.llmProvider) && r.value.provider in Common.SUPPORTED_PROVIDERS
    // the request's model, else the provider's default; this first resolution never reaches LLM_MODEL
    ensures r.Ok? && Common.Truthy(req.llmModel) ==> r.value.model == Strip(req.llmModel.value)
    ensures r.Ok? && !Common.Truthy(req.llmModel) ==> r.value.model == Strip(Common.DEFAULT_MODELS[r.value.provider])
  {
    if Common.Truthy(req.llmModel) then
      match Common.ResolveLlmConfig(req.llmProvider, req.llmModel, req.llmApiKey, req.llmBaseUrl, env)
      case Err(_) => Err(INVALID_PROVIDER_ERROR)
      case Ok(config) => Ok(config)
    else
      match Common.DefaultLlmModel(req.llmProvider)
      case Err(_) => Err(INVALID_PROVIDER_ERROR)
      case Ok(desired) =>
        assert desired != [];
        match Common.ResolveLlmConfig(req.llmProvider, Some(desired), req.llmApiKey, req.llmBaseUrl, env)
        case Err(_) => Err(INVALID_PROVIDER_ERROR)
        case Ok(config) => Ok(config)
  }

  // ---------------------------------------------------------------------------
  // Active collections
  // ---------------------------------------------------------------------------

  /** Every selected collection's store could be opened (`store(key)` is None
      when opening it raises; a failed count is already 0). */
  predicate StoreReachable(keys: seq<string>, store: string -> Option<int>) {
    forall i :: 0 <= i < |keys| ==> store(keys[i]).Some?
  }

  /** The selected keys whose collection holds vectors, in their order. */
  function ActiveKeys(keys: seq<string>, store: string -> Option<int>): (r: seq<string>)
    ensures |r| <= |keys|
    ensures forall k :: k in r <==> k in keys && store(k).Some? && store(k).value > 0
    decreases |keys|
  {
    if keys == [] then []
    else
      var last := keys[|keys| - 1];
      var rest := ActiveKeys(keys[..|keys| - 1], store);
      assert keys == keys[..|keys| - 1] + [last];
      if store(last).Some? && store(last).value > 0 then rest + [last] else rest
  }

  /** Filtering distributes over concatenation, so the active keys keep the
      selection order. */
  lemma {:induction false} ActiveKeysAppend(a: seq<string>, b: seq<string>, store: string -> Option<int>)
    ensures ActiveKeys(a + b, store) == ActiveKeys(a, store) + ActiveKeys(b, store)
    decreases |b|
  {
    if b == [] {
      assert a + b == a;
    } else {
      var last := b[|b| - 1];
      assert (a + b)[..|a + b| - 1] == a + b[..|b| - 1];
      ActiveKeysAppend(a, b[..|b| - 1], store);
    }
  }

  /** A key whose collection holds vectors is kept, and so is every key when
      all of them do. */
  lemma {:induction false} ActiveKeysOfAllActive(keys: seq<string>, store: string -> Option<int>)
    requires forall i :: 0 <= i < |keys| ==> store(keys[i]).Some? && store(keys[i]).value > 0
    ensures ActiveKeys(keys, store) == keys
    decreases |keys|
  {
    if keys != [] {
      ActiveKeysOfAllActive(keys[..|keys| - 1], store);
      assert keys == keys[..|keys| - 1] + [keys[|keys| - 1]];
    }
  }

  /** No key occurs twice. */
  predicate Distinct(keys: seq<string>) {
    forall i, j :: 0 <= i < j < |keys| ==> keys[i] != keys[j]
  }

  /** Distinct selected keys give distinct active keys. */
  lemma {:induction false} ActiveKeysDistinct(keys: seq<string>, store: string -> Option<int>)
    requires Distinct(keys)
    ensures Distinct(ActiveKeys(keys, store))
    decreases |keys|
  {
    if keys != [] {
      var init := keys[..|keys| - 1];
      var last := keys[|keys| - 1];
      ActiveKeysDistinct(init, store);
      forall n | 0 <= n < |init|
        ensures init[n] != last
      {
        assert init[n] == keys[n];
      }
      var rest := ActiveKeys(init, store);
      var r := ActiveKeys(keys, store);
      if store(last).Some? && store(last).value > 0 {
        assert r == rest + [last];
        forall i, j | 0 <= i < j < |r|
          ensures r[i] != r[j]
        {
          assert r[i] == rest[i] && rest[i] in rest;
          if j < |rest| {
            assert r[j] == rest[j];
          } else {
            assert r[j] == last;
            assert rest[i] in init;
          }
        }
      } else {
        assert r == rest;
      }
    }
  }

  /** The collection names of registered keys (`get_collection_name` per key). */
  function CollectionNames(keys: seq<string>): (r: seq<string>)
    requires forall k :: k in keys ==> k in CollectionKeys()
    ensures |r| == |keys|
    ensures forall i :: 0 <= i < |keys| ==> CollectionService.GetCollectionName(keys[i]) == Ok(r[i])
    decreases |keys|
  {
    if keys == [] then []
    else [CollectionService.GetCollectionName(keys[0]).value] + CollectionNames(keys[1..])
  }

  /** The active-collection block and the one-shot fallback, with the
      VECTORSTORE_EMPTY error when nothing is left; a store that cannot be
      opened is an internal error. */
  function SelectCollections(routing: CollectionService.Routing, store: string -> Option<int>): (r: Result<Selection, QueryApiError>)
    requires forall k :: k in routing.keys ==> k in CollectionKeys()
    ensures r.Ok? ==> r.value.keys != []
    ensures r.Ok? ==> forall k :: k in r.value.keys ==> k in CollectionKeys() && store(k).Some? && store(k).value > 0
    ensures r.Err? ==> r.error == INTERNAL_ERROR || r.error == VectorstoreEmptyError(CollectionNames(routing.keys))
  {
    if !StoreReachable(routing.keys, store) then Err(INTERNAL_ERROR)
    else
      var active := ActiveKeys(routing.keys, store);
      if active == [] && routing.allowDefaultFallback && DEFAULT_COLLECTION_KEY !in routing.keys then
        match store(DEFAULT_COLLECTION_KEY)
        case None => Err(INTERNAL_ERROR)
        case Some(count) =>
          if count > 0 then
            CollectionKeysLiteral();
            Ok(Selection([DEFAULT_COLLECTION_KEY], routing.reason + FALLBACK_SUFFIX))
          else Err(VectorstoreEmptyError(CollectionNames(routing.keys)))
      else if active == [] then Err(VectorstoreEmptyError(CollectionNames(routing.keys)))
      else Ok(Selection(active, routing.reason))
  }

  /** A selection is either the active keys under the routed reason, or the
      default collection alone, reached only when nothing selected is active,
      the fallback is allowed, the default is not already selected and holds
      vectors; the reason then gains the fallback suffix once. */
  lemma SelectionCases(routing: CollectionService.Routing, store: string -> Option<int>)
    requires forall k :: k in routing.keys ==> k in CollectionKeys()
    requires SelectCollections(routing, store).Ok?
    ensures var s := SelectCollections(routing, store).value;
            || (s.keys == ActiveKeys(routing.keys, store) && s.reason == routing.reason)
            || (&& ActiveKeys(routing.keys, store) == []
                && routing.allowDefaultFallback
                && DEFAULT_COLLECTION_KEY !in routing.keys
                && store(DEFAULT_COLLECTION_KEY).Some? && store(DEFAULT_COLLECTION_KEY).value > 0
                && s == Selection([DEFAULT_COLLECTION_KEY], routing.reason + FALLBACK_SUFFIX))
  {
  }

  /** When some selected collection holds vectors, the fallback is never
      tried: the selection is exactly the active keys. */
  lemma NoFallbackWhenActive(routing: CollectionService.Routing, store: string -> Option<int>)
    requires forall k :: k in routing.keys ==> k in CollectionKeys()
    requires StoreReachable(routing.keys, store)
    requires exists k :: k in routing.keys && store(k).Some? && store(k).value > 0
    ensures SelectCollections(routing, store) == Ok(Selection(ActiveKeys(routing.keys, store), routing.reason))
  {
    var k :| k in routing.keys && store(k).Some? && store(k).value > 0;
    assert k in ActiveKeys(routing.keys, store);
  }

  /** With every store reachable and nothing active, the request fails with
      VECTORSTORE_EMPTY exactly when the fallback does not apply or the
      default collection is empty too. */
  lemma EmptySelection(routing: CollectionService.Routing, store: string -> Option<int>)
    requires forall k :: k in routing.keys ==> k in CollectionKeys()
    requires StoreReachable(routing.keys, store) && store(DEFAULT_COLLECTION_KEY).Some?
    requires ActiveKeys(routing.keys, store) == []
    ensures SelectCollections(routing, store).Err?
            <==> !(routing.allowDefaultFallback && DEFAULT_COLLECTION_KEY !in routing.keys
                   && store(DEFAULT_COLLECTION_KEY).value > 0)
    ensures SelectCollections(routing, store).Err?
            ==> SelectCollections(routing, store).error == VectorstoreEmptyError(CollectionNames(routing.keys))
  {
  }

  // ---------------------------------------------------------------------------
  // The handler
  // ---------------------------------------------------------------------------

  /** The configuration `create_chat_llm` builds the client from: it runs
      `resolve_llm_config` a second time on the provider, model, key and URL
      the handler resolved, so an empty resolved model falls through to the
      LLM_MODEL setting there. */
  function ClientConfig(resolved: Common.LlmConfig, env: Common.LlmEnv): (r: Result<Common.LlmConfig, ValueError>)
    ensures resolved.provider in Common.SUPPORTED_PROVIDERS ==> r.Ok? && r.value.provider == resolved.provider
    ensures r.Ok? ==> r.value.provider in Common.SUPPORTED_PROVIDERS
    ensures r.Ok? && resolved.model != [] ==> r.value.model == Strip(resolved.model)
    ensures r.Ok? && resolved.model == [] && Common.Truthy(env.llmModel) ==> r.value.model == Strip(env.llmModel.value)
    ensures r.Ok? && resolved.model == [] && !Common.Truthy(env.llmModel)
            ==> r.value.model == Strip(Common.DEFAULT_MODELS[r.value.provider])
  {
    Common.OpenaiIsNormal();
    Common.OllamaIsNormal();
    Common.LmstudioIsNormal();
    Common.ResolveLlmConfig(resolved.provider, Some(resolved.model), resolved.apiKey, resolved.baseUrl, env)
  }

  /** The handler once the provider and the collections are resolved: the
      provider result `config`, the routing result `routing`, the environment
      the LLM client is configured from, the store, whether a client with a
      given configuration can be built, the chain's outcome with that client
      for a question over the chosen collections, and the timeout in seconds. */
  function Respond(config: Result<Common.LlmConfig, QueryApiError>, routing: Result<CollectionService.Routing, ValueError>,
                   env: Common.LlmEnv, store: string -> Option<int>, llmBuilds: Common.LlmConfig -> bool, invoke: (Common.LlmConfig, seq<string>, string) -> LlmOutcome,
                   question: string, timeoutSeconds: int): (h: Handled)
    requires routing.Ok? ==> forall k :: k in routing.value.keys ==> k in CollectionKeys()
    ensures h.activeNames.Some? ==> h.activeNames.value != []
  {
    match config
    case Err(e) => Handled(Err(e), None)
    case Ok(resolved) =>
      match routing
      case Err(_) => Handled(Err(InvalidCollectionError()), None)
      case Ok(route) =>
        match SelectCollections(route, store)
        case Err(e) => Handled(Err(e), None)
        case Ok(selection) =>
          var names := CollectionNames(selection.keys);
          match ClientConfig(resolved, env)
          case Err(_) => Handled(Err(LLM_CONNECT_ERROR), Some(names))
          case Ok(client) =>
            if !llmBuilds(client) then Handled(Err(LLM_CONNECT_ERROR), Some(names))
            else
              match invoke(client, selection.keys, question)
              case Answered(answer) => Handled(Ok(QueryResponse(answer, resolved.provider, resolved.model)), Some(names))
              case TimedOut => Handled(Err(LlmTimeoutError(timeoutSeconds)), Some(names))
              case Failed => Handled(Err(LLM_RESPONSE_ERROR), Some(names))
  }

  /** What `query` returns or raises, given the environment (`env`, the raw
      timeout setting), the store, whether an LLM client with a given
      configuration can be built, and the chain's outcome with that client
      for a question over the chosen collections. */
  function HandleQuery(req: QueryRequest, env: Common.LlmEnv, timeoutRaw: Option<string>,
                       store: string -> Option<int>, llmBuilds: Common.LlmConfig -> bool,
                       invoke: (Common.LlmConfig, seq<string>, string) -> LlmOutcome): (h: Handled)
    ensures h.activeNames.Some? ==> h.activeNames.value != []
  {
    Respond(ProviderStep(req, env), CollectionService.RouteQuery(req.query, req.collection, req.collections),
            env, store, llmBuilds, invoke, req.query, RuntimeService.GetQueryTimeoutSeconds(timeoutRaw))
  }

  /** The two collection headers, set once collections were chosen. */
  function CollectionHeaders(before: map<string, string>, activeNames: Option<seq<string>>): (h: map<string, string>)
    ensures activeNames.Some? && activeNames.value != [] ==>
              h == before[HEADER_COLLECTION := activeNames.value[0]][HEADER_COLLECTIONS := Join(activeNames.value, ",")]
    ensures activeNames.None? ==> h == before
  {
    if activeNames.Some? && activeNames.value != [] then
      before[HEADER_COLLECTION := activeNames.value[0]][HEADER_COLLECTIONS := Join(activeNames.value, ",")]
    else before
  }

  /** The response headers after the handler: the request id always, the two
      collection headers once collections were chosen, every other header as
      it was. */
  function ResponseHeaders(before: map<string, string>, requestId: string, activeNames: Option<seq<string>>): (h: map<string, string>)
    ensures h.Keys == before.Keys + {HEADER_REQUEST_ID}
                      + (if activeNames.Some? && activeNames.value != [] then {HEADER_COLLECTION, HEADER_COLLECTIONS} else {})
    ensures h[HEADER_REQUEST_ID] == requestId
    ensures activeNames.Some? && activeNames.value != [] ==>
              h[HEADER_COLLECTION] == activeNames.value[0] && h[HEADER_COLLECTIONS] == Join(activeNames.value, ",")
    ensures forall k :: k in before && k !in {HEADER_REQUEST_ID, HEADER_COLLECTION, HEADER_COLLECTIONS} ==> h[k] == before[k]
  {
    CollectionHeaders(before[HEADER_REQUEST_ID := requestId], activeNames)
  }

  /** A bad provider is reported as INVALID_PROVIDER whatever the collections
      say: provider validation runs first. */
  lemma ProviderCheckedFirst(req: QueryRequest, env: Common.LlmEnv, timeoutRaw: Option<string>,
                             store: string -> Option<int>, llmBuilds: Common.LlmConfig -> bool,
                             invoke: (Common.LlmConfig, seq<string>, string) -> LlmOutcome)
    requires Common.NormalizeProvider(req.llmProvider).Err?
    ensures HandleQuery(req, env, timeoutRaw, store, llmBuilds, invoke) == Handled(Err(INVALID_PROVIDER_ERROR), None)
  {
  }

  /** A valid provider with a collection request that cannot be routed gives
      INVALID_COLLECTION. */
  lemma InvalidCollectionReported(req: QueryRequest, env: Common.LlmEnv, timeoutRaw: Option<string>,
                                  store: string -> Option<int>, llmBuilds: Common.LlmConfig -> bool,
                                  invoke: (Common.LlmConfig, seq<string>, string) -> LlmOutcome)
    requires Common.NormalizeProvider(req.llmProvider).Ok?
    requires CollectionService.RouteQuery(req.query, req.collection, req.collections).Err?
    ensures HandleQuery(req, env, timeoutRaw, store, llmBuilds, invoke) == Handled(Err(InvalidCollectionError()), None)
  {
  }

  /** The INVALID_COLLECTION hint lists the six keys and the cap of two. */
  lemma InvalidCollectionHint()
    ensures InvalidCollectionError().hint == Some("지원값: " + "all, eu, fr, ge, it, uk" + ", 최대 " + "2" + "개 선택 가능")
  {
    JoinedKeys();
    assert NatToString(MAX_QUERY_COLLECTIONS) == "2";
  }

  lemma JoinedKeys()
    ensures Join(CollectionKeys(), ", ") == "all, eu, fr, ge, it, uk"
  {
    CollectionKeysLiteral();
    JoinedFromEu();
    JoinCons("all", ["eu", "fr", "ge", "it", "uk"], ", ");
    assert ["all"] + ["eu", "fr", "ge", "it", "uk"] == ["all", "eu", "fr", "ge", "it", "uk"];
  }

  lemma JoinedFromEu()
    ensures Join(["eu", "fr", "ge", "it", "uk"], ", ") == "eu, fr, ge, it, uk"
  {
    JoinedFromGe();
    JoinCons("fr", ["ge", "it", "uk"], ", ");
    assert ["fr"] + ["ge", "it", "uk"] == ["fr", "ge", "it", "uk"];
    var j4 := Join(["fr", "ge", "it", "uk"], ", ");
    assert j4 == "fr, ge, it, uk";
    JoinCons("eu", ["fr", "ge", "it", "uk"], ", ");
    assert ["eu"] + ["fr", "ge", "it", "uk"] == ["eu", "fr", "ge", "it", "uk"];
  }

  lemma JoinedFromGe()
    ensures Join(["ge", "it", "uk"], ", ") == "ge, it, uk"
  {
    JoinSingleton("uk", ", ");
    JoinCons("it", ["uk"], ", ");
    assert ["it"] + ["uk"] == ["it", "uk"];
    var j2 := Join(["it", "uk"], ", ");
    assert j2 == "it, uk";
    JoinCons("ge", ["it", "uk"], ", ");
    assert ["ge"] + ["it", "uk"] == ["ge", "it", "uk"];
  }

  /** Every error the handler raises carries one of the six codes with its
      fixed status, and a hint. */
  lemma RespondErrorCodes(config: Result<Common.LlmConfig, QueryApiError>, routing: Result<CollectionService.Routing, ValueError>,
                          env: Common.LlmEnv, store: string -> Option<int>, llmBuilds: Common.LlmConfig -> bool, invoke: (Common.LlmConfig, seq<string>, string) -> LlmOutcome,
                          question: string, timeoutSeconds: int)
    requires routing.Ok? ==> forall k :: k in routing.value.keys ==> k in CollectionKeys()
    requires config.Err? ==> config.error == INVALID_PROVIDER_ERROR
    requires Respond(config, routing, env, store, llmBuilds, invoke, question, timeoutSeconds).result.Err?
    ensures var e := Respond(config, routing, env, store, llmBuilds, invoke, question, timeoutSeconds).result.error;
            && e.hint.Some?
            && ((e.code == "INVALID_PROVIDER" && e.statusCode == 400)
                || (e.code == "INVALID_COLLECTION" && e.statusCode == 400)
                || (e.code == "VECTORSTORE_EMPTY" && e.statusCode == 400)
                || (e.code == "LLM_CONNECTION_FAILED" && e.statusCode == 502)
                || (e.code == "LLM_TIMEOUT" && e.statusCode == 504)
                || (e.code == "INTERNAL_ERROR" && e.statusCode == 500))
  {
    if config.Ok? && routing.Ok? && SelectCollections(routing.value, store).Ok? {
      var keys := SelectCollections(routing.value, store).value.keys;
      var client := ClientConfig(config.value, env);
      var e := Respond(config, routing, env, store, llmBuilds, invoke, question, timeoutSeconds).result.error;
      if client.Err? || !llmBuilds(client.value) {
        assert e == LLM_CONNECT_ERROR;
      } else if invoke(client.value, keys, question).TimedOut? {
        assert e == LlmTimeoutError(timeoutSeconds);
      } else {
        assert e == LLM_RESPONSE_ERROR;
      }
    }
  }

  /** The same for the whole handler. */
  lemma ErrorCodes(req: QueryRequest, env: Common.LlmEnv, timeoutRaw: Option<string>,
                   store: string -> Option<int>, llmBuilds: Common.LlmConfig -> bool,
                   invoke: (Common.LlmConfig, seq<string>, string) -> LlmOutcome)
    requires HandleQuery(req, env, timeoutRaw, store, llmBuilds, invoke).result.Err?
    ensures var e := HandleQuery(req, env, timeoutRaw, store, llmBuilds, invoke).result.error;
            && e.hint.Some?
            && (e.statusCode == 400 <==> e.code in {"INVALID_PROVIDER", "INVALID_COLLECTION", "VECTORSTORE_EMPTY"})
            && (e.statusCode == 502 <==> e.code == "LLM_CONNECTION_FAILED")
            && (e.statusCode == 504 <==> e.code == "LLM_TIMEOUT")
            && (e.statusCode == 500 <==> e.code == "INTERNAL_ERROR")
  {
    RespondErrorCodes(ProviderStep(req, env), CollectionService.RouteQuery(req.query, req.collection, req.collections),
                      env, store, llmBuilds, invoke, req.query, RuntimeService.GetQueryTimeoutSeconds(timeoutRaw));
  }

  /** Once collections are chosen, the LLM step decides: a client that cannot
      be built and a failed invocation give LLM_CONNECTION_FAILED/502, a
      timeout LLM_TIMEOUT/504 naming the limit, an answer the response with
      the resolved provider and model. */
  lemma LlmStepMapping(config: Common.LlmConfig, routing: CollectionService.Routing, env: Common.LlmEnv,
                       store: string -> Option<int>, llmBuilds: Common.LlmConfig -> bool, invoke: (Common.LlmConfig, seq<string>, string) -> LlmOutcome,
                       question: string, timeoutSeconds: int)
    requires forall k :: k in routing.keys ==> k in CollectionKeys()
    requires SelectCollections(routing, store).Ok?
    ensures var h := Respond(Ok(config), Ok(routing), env, store, llmBuilds, invoke, question, timeoutSeconds);
            var keys := SelectCollections(routing, store).value.keys;
            var client := ClientConfig(config, env);
            && h.activeNames == Some(CollectionNames(keys))
            && (client.Err? ==> h.result == Err(LLM_CONNECT_ERROR))
            && (client.Ok? && !llmBuilds(client.value) ==> h.result == Err(LLM_CONNECT_ERROR))
            && (client.Ok? && llmBuilds(client.value) && invoke(client.value, keys, question).TimedOut?
                ==> h.result == Err(LlmTimeoutError(timeoutSeconds)))
            && (client.Ok? && llmBuilds(client.value) && invoke(client.value, keys, question).Failed?
                ==> h.result == Err(LLM_RESPONSE_ERROR))
            && (client.Ok? && llmBuilds(client.value) && invoke(client.value, keys, question).Answered? ==>
                  h.result == Ok(QueryResponse(invoke(client.value, keys, question).answer, config.provider, config.model)))
  {
  }

  /** A successful answer comes from the resolved provider and model and from
      a chain over collections that all hold vectors, whose names the headers
      carry. */
  lemma AnswerProvenance(config: Result<Common.LlmConfig, QueryApiError>, routing: Result<CollectionService.Routing, ValueError>,
                         env: Common.LlmEnv, store: string -> Option<int>, llmBuilds: Common.LlmConfig -> bool, invoke: (Common.LlmConfig, seq<string>, string) -> LlmOutcome,
                         question: string, timeoutSeconds: int)
    requires routing.Ok? ==> forall k :: k in routing.value.keys ==> k in CollectionKeys()
    requires Respond(config, routing, env, store, llmBuilds, invoke, question, timeoutSeconds).result.Ok?
    ensures var h := Respond(config, routing, env, store, llmBuilds, invoke, question, timeoutSeconds);
            && config.Ok? && routing.Ok? && SelectCollections(routing.value, store).Ok?
            && ClientConfig(config.value, env).Ok? && llmBuilds(ClientConfig(config.value, env).value)
            && var keys := SelectCollections(routing.value, store).value.keys;
               && invoke(ClientConfig(config.value, env).value, keys, question) == Answered(h.result.value.answer)
               && h.result.value.provider == config.value.provider && h.result.value.model == config.value.model
               && h.activeNames == Some(CollectionNames(keys))
               && (forall k :: k in keys ==> store(k).Some? && store(k).value > 0)
  {
  }

  /** The fallback happens only for a keyword guess on a request that named
      no collection at all; the logged reason is then `keyword->fallback`. */
  lemma FallbackOnlyForKeywordGuess(req: QueryRequest, store: string -> Option<int>)
    requires CollectionService.RouteQuery(req.query, req.collection, req.collections).Ok?
    requires var routing := CollectionService.RouteQuery(req.query, req.collection, req.collections).value;
             var s := SelectCollections(routing, store);
             s.Ok? && s.value.keys != ActiveKeys(routing.keys, store)
    ensures var routing := CollectionService.RouteQuery(req.query, req.collection, req.collections).value;
            && req.collection.None?
            && CollectionService.ExplicitValues(req.collections.GetOr([])) == []
            && SelectCollections(routing, store).value
               == Selection([DEFAULT_COLLECTION_KEY], CollectionService.REASON_KEYWORD + FALLBACK_SUFFIX)
  {
    var routing := CollectionService.RouteQuery(req.query, req.collection, req.collections).value;
    SelectionCases(routing, store);
    assert routing.allowDefaultFallback;
  }

  /** The provider defaults are not blank. */
  lemma DefaultModelNotBlank(provider: string)
    requires provider in Common.SUPPORTED_PROVIDERS
    ensures Strip(Common.DEFAULT_MODELS[provider]) != []
  {
    var d := Common.DEFAULT_MODELS[provider];
    assert !IsSpace(d[0]);
    StripEmptyIffBlank(d);
  }

  /** Unless the request's `llm_model` is whitespace only, the resolved
      model is not empty, and the client is built with exactly the model the
      response reports. */
  lemma ClientModelIsReported(req: QueryRequest, env: Common.LlmEnv)
    requires ProviderStep(req, env).Ok?
    requires !(Common.Truthy(req.llmModel) && IsBlank(req.llmModel.value))
    ensures ProviderStep(req, env).value.model != []
    ensures ClientConfig(ProviderStep(req, env).value, env).Ok?
    ensures ClientConfig(ProviderStep(req, env).value, env).value.model == ProviderStep(req, env).value.model
  {
    var config := ProviderStep(req, env).value;
    if Common.Truthy(req.llmModel) {
      StripEmptyIffBlank(req.llmModel.value);
      StripIdempotent(req.llmModel.value);
    } else {
      DefaultModelNotBlank(config.provider);
      StripIdempotent(Common.DEFAULT_MODELS[config.provider]);
    }
  }

  /** A whitespace-only `llm_model` resolves to the empty model, which the
      response reports; the client is then built with the LLM_MODEL setting
      when it is set, else with the provider's default. */
  lemma BlankRequestModelReachesSetting(req: QueryRequest, env: Common.LlmEnv)
    requires ProviderStep(req, env).Ok?
    requires Common.Truthy(req.llmModel) && IsBlank(req.llmModel.value)
    ensures ProviderStep(req, env).value.model == []
    ensures var client := ClientConfig(ProviderStep(req, env).value, env);
            && client.Ok?
            && (Common.Truthy(env.llmModel) ==> client.value.model == Strip(env.llmModel.value))
            && (!Common.Truthy(env.llmModel) ==> client.value.model == Strip(Common.DEFAULT_MODELS[client.value.provider]))
  {
    StripEmptyIffBlank(req.llmModel.value);
  }

  /** The LLM_MODEL setting changes nothing `/query` does unless the
      request's `llm_model` is whitespace only: the handler resolves a
      non-empty model, and the client's second resolution keeps it. */
  lemma LlmModelSettingIgnored(req: QueryRequest, env: Common.LlmEnv, model: Option<string>, timeoutRaw: Option<string>,
                               store: string -> Option<int>, llmBuilds: Common.LlmConfig -> bool,
                               invoke: (Common.LlmConfig, seq<string>, string) -> LlmOutcome)
    requires !(Common.Truthy(req.llmModel) && IsBlank(req.llmModel.value))
    ensures HandleQuery(req, env, timeoutRaw, store, llmBuilds, invoke)
            == HandleQuery(req, env.(llmModel := model), timeoutRaw, store, llmBuilds, invoke)
  {
    var env2 := env.(llmModel := model);
    var p1 := ProviderStep(req, env);
    var p2 := ProviderStep(req, env2);
    assert p1 == p2;
    if p1.Ok? {
      ClientModelIsReported(req, env);
      ClientConfigIgnoresSetting(p1.value, env, model);
    }
    RespondDependsOnClient(p1, CollectionService.RouteQuery(req.query, req.collection, req.collections), env, env2,
                           store, llmBuilds, invoke, req.query, RuntimeService.GetQueryTimeoutSeconds(timeoutRaw));
  }

  /** The environment reaches the handler's outcome only through the
      client's configuration. */
  lemma RespondDependsOnClient(config: Result<Common.LlmConfig, QueryApiError>,
                               routing: Result<CollectionService.Routing, ValueError>,
                               env: Common.LlmEnv, env2: Common.LlmEnv, store: string -> Option<int>,
                               llmBuilds: Common.LlmConfig -> bool,
                               invoke: (Common.LlmConfig, seq<string>, string) -> LlmOutcome,
                               question: string, timeoutSeconds: int)
    requires routing.Ok? ==> forall k :: k in routing.value.keys ==> k in CollectionKeys()
    requires config.Ok? ==> ClientConfig(config.value, env) == ClientConfig(config.value, env2)
    ensures Respond(config, routing, env, store, llmBuilds, invoke, question, timeoutSeconds)
            == Respond(config, routing, env2, store, llmBuilds, invoke, question, timeoutSeconds)
  {
    if config.Ok? && routing.Ok? && SelectCollections(routing.value, store).Ok? {
      var selection := SelectCollections(routing.value, store).value;
      var names := CollectionNames(selection.keys);
      var client := ClientConfig(config.value, env);
      var h := match client
        case Err(_) => Handled(Err(LLM_CONNECT_ERROR), Some(names))
        case Ok(c) =>
          if !llmBuilds(c) then Handled(Err(LLM_CONNECT_ERROR), Some(names))
          else
            match invoke(c, selection.keys, question)
            case Answered(answer) => Handled(Ok(QueryResponse(answer, config.value.provider, config.value.model)), Some(names))
            case TimedOut => Handled(Err(LlmTimeoutError(timeoutSeconds)), Some(names))
            case Failed => Handled(Err(LLM_RESPONSE_ERROR), Some(names));
      assert Respond(config, routing, env, store, llmBuilds, invoke, question, timeoutSeconds) == h;
      assert Respond(config, routing, env2, store, llmBuilds, invoke, question, timeoutSeconds) == h;
    }
  }

  /** The client's second resolution consults LLM_MODEL only for an empty
      model. */
  lemma ClientConfigIgnoresSetting(c: Common.LlmConfig, env: Common.LlmEnv, model: Option<string>)
    requires c.model != []
    ensures ClientConfig(c, env) == ClientConfig(c, env.(llmModel := model))
  {
    assert Common.Or(Some(c.model), env.llmModel) == Common.Or(Some(c.model), model);
  }

  // ---------------------------------------------------------------------------
  // The handler, step by step
  // ---------------------------------------------------------------------------

  /** The loop that collects the active keys; None when a store cannot be
      opened (the loop stops there). */
  method FilterActiveKeys(keys: seq<string>, store: string -> Option<int>) returns (active: Option<seq<string>>)
    ensures active.None? <==> !StoreReachable(keys, store)
    ensures active.Some? ==> active.value == ActiveKeys(keys, store)
  {
    var kept: seq<string> := [];
    for i := 0 to |keys|
      invariant StoreReachable(keys[..i], store)
      invariant kept == ActiveKeys(keys[..i], store)
    {
      var count := store(keys[i]);
      if count.None? {
        return None;
      }
      assert keys[..i + 1][..i] == keys[..i];
      if count.value > 0 {
        kept := kept + [keys[i]];
      }
    }
    assert keys[..|keys|] == keys;
    return Some(kept);
  }

  /** The active-collection block and the fallback as the handler runs them;
      `reason` is the route reason after a possible fallback. */
  method ChooseCollections(routing: CollectionService.Routing, store: string -> Option<int>)
    returns (r: Result<Selection, QueryApiError>)
    requires forall k :: k in routing.keys ==> k in CollectionKeys()
    ensures r == SelectCollections(routing, store)
  {
    var active := FilterActiveKeys(routing.keys, store);
    if active.None? {
      return Err(INTERNAL_ERROR);
    }
    var activeKeys := active.value;
    var routeReason := routing.reason;
    if activeKeys == [] && routing.allowDefaultFallback && DEFAULT_COLLECTION_KEY !in routing.keys {
      var fallbackCount := store(DEFAULT_COLLECTION_KEY);
      if fallbackCount.None? {
        return Err(INTERNAL_ERROR);
      }
      if fallbackCount.value > 0 {
        activeKeys := [DEFAULT_COLLECTION_KEY];
        routeReason := routeReason + FALLBACK_SUFFIX;
      }
    }
    if activeKeys == [] {
      return Err(VectorstoreEmptyError(CollectionNames(routing.keys)));
    }
    return Ok(Selection(activeKeys, routeReason));
  }

  /** The handler after the provider and the routing: chooses the
      collections, sets the collection headers, and runs the LLM step. */
  method RespondSteps(config: Result<Common.LlmConfig, QueryApiError>, routing: Result<CollectionService.Routing, ValueError>,
                      env: Common.LlmEnv, store: string -> Option<int>, llmBuilds: Common.LlmConfig -> bool, invoke: (Common.LlmConfig, seq<string>, string) -> LlmOutcome,
                      question: string, timeoutSeconds: int, response: Response)
    returns (r: Result<QueryResponse, QueryApiError>)
    requires routing.Ok? ==> forall k :: k in routing.value.keys ==> k in CollectionKeys()
    modifies response
    ensures r == Respond(config, routing, env, store, llmBuilds, invoke, question, timeoutSeconds).result
    ensures response.headers
            == CollectionHeaders(old(response.headers), Respond(config, routing, env, store, llmBuilds, invoke, question, timeoutSeconds).activeNames)
  {
    if config.Err? {
      return Err(config.error);
    }
    if routing.Err? {
      return Err(InvalidCollectionError());
    }
    var selection := ChooseCollections(routing.value, store);
    if selection.Err? {
      return Err(selection.error);
    }
    var names := CollectionNames(selection.value.keys);
    response.headers := response.headers[HEADER_COLLECTION := names[0]][HEADER_COLLECTIONS := Join(names, ",")];
    var client := ClientConfig(config.value, env);
    if client.Err? || !llmBuilds(client.value) {
      return Err(LLM_CONNECT_ERROR);
    }
    var outcome := invoke(client.value, selection.value.keys, question);
    match outcome
    case Answered(answer) =>
      r := Ok(QueryResponse(answer, config.value.provider, config.value.model));
    case TimedOut =>
      r := Err(LlmTimeoutError(timeoutSeconds));
    case Failed =>
      r := Err(LLM_RESPONSE_ERROR);
  }

  /** `query`: records the request id, sets the headers it sets, and returns
      the response or the error `HandleQuery` describes. */
  method Query(req: QueryRequest, state: Http.RequestState, idHeader: string, uuid: string,
               env: Common.LlmEnv, timeoutRaw: Option<string>, store: string -> Option<int>,
               llmBuilds: Common.LlmConfig -> bool, invoke: (Common.LlmConfig, seq<string>, string) -> LlmOutcome, response: Response)
    returns (r: Result<QueryResponse, QueryApiError>)
    requires Http.IsFreshId(uuid)
    modifies state, response
    ensures r == HandleQuery(req, env, timeoutRaw, store, llmBuilds, invoke).result
    ensures response.headers == ResponseHeaders(old(response.headers),
                                                Http.ChooseRequestId(old(state.requestId), idHeader, uuid),
                                                HandleQuery(req, env, timeoutRaw, store, llmBuilds, invoke).activeNames)
    ensures old(state.requestId).Some? && !IsBlank(old(state.requestId).value) ==> state.requestId == old(state.requestId)
    ensures old(state.requestId).None? || IsBlank(old(state.requestId).value) ==>
              state.requestId == Some(Http.ChooseRequestId(old(state.requestId), idHeader, uuid))
  {
    var requestId := Http.GetOrCreateRequestId(state, idHeader, uuid);
    response.headers := response.headers[HEADER_REQUEST_ID := requestId];
    var timeoutSeconds := RuntimeService.GetQueryTimeoutSeconds(timeoutRaw);
    var config := ProviderStep(req, env);
    var routing := CollectionService.ResolveCollectionKeysForQuery(req.query, req.collection, req.collections);
    r := RespondSteps(config, routing, env, store, llmBuilds, invoke, req.query, timeoutSeconds, response);
  }
}
