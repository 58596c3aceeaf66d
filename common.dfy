/** common.py: the document file names and their countries, provider and
    chunking-mode normalisation, LLM configuration precedence, the optional
    positive integer setting, and the metadata bookkeeping of document loading
    and header splitting. Environment variables arrive as `Option<string>`
    parameters, files as `fileExists`/`readText` functions, and the LangChain
    splitters as functions from text or documents to documents. */
module Common {
  import opened Wrappers
  import opened Text
  import opened Errors

  const DEFAULT_FILE_NAMES: seq<string> := ["eu_summry.md", "fr.md", "ge.md", "it.md", "uk.md"]

  const COUNTRY_BY_STEM: map<string, string> :=
    map["eu_summry" := "all", "fr" := "france", "ge" := "germany", "it" := "italy", "uk" := "uk"]

  const CHUNKING_MODE_CHAR: string := "char"
  const CHUNKING_MODE_TOKEN: string := "token"
  const SUPPORTED_CHUNKING_MODES: set<string> := {CHUNKING_MODE_CHAR, CHUNKING_MODE_TOKEN}
  const DEFAULT_TOKEN_ENCODING: string := "cl100k_base"

  const SUPPORTED_PROVIDERS: set<string> := {"openai", "ollama", "lmstudio"}

  const DEFAULT_MODELS: map<string, string> :=
    map["openai" := "gpt-4o-mini", "ollama" := "qwen3:4b", "lmstudio" := "local-model"]

  const LMSTUDIO_DEFAULT_API_KEY: string := "lm-studio"
  const LMSTUDIO_DEFAULT_BASE_URL: string := "http://localhost:1234/v1"
  const OLLAMA_DEFAULT_BASE_URL: string := "http://localhost:11434"

  // ---------------------------------------------------------------------------
  // Python truthiness on optional strings
  // ---------------------------------------------------------------------------

  /** An optional string Python treats as true: present and non-empty. */
  predicate Truthy(s: Option<string>) {
    s.Some? && s.value != []
  }

  /** Python's `a or b` on optional strings. */
  function Or(a: Option<string>, b: Option<string>): Option<string> {
    if Truthy(a) then a else b
  }

  /** Python's `(s or "").strip() or None`. */
  function NonBlank(s: Option<string>): (r: Option<string>)
    ensures r.None? <==> s.None? || IsBlank(s.value)
    ensures r.Some? ==> r.value == Strip(s.value) && r.value != []
  {
    var t := Strip(s.GetOr(""));
    StripEmptyIffBlank(s.GetOr(""));
    if t == [] then None else Some(t)
  }

  /** Python's `str(x)` for an optional string: None renders as "None". */
  function PyStr(s: Option<string>): string {
    if s.Some? then s.value else "None"
  }

  // ---------------------------------------------------------------------------
  // Integer settings
  // ---------------------------------------------------------------------------

  /** `parse_optional_positive_int_env`, given the raw environment value. */
  function ParseOptionalPositiveInt(raw: Option<string>): (r: Option<int>)
    ensures r.Some? <==> raw.Some? && ParseInt(raw.value).Some? && ParseInt(raw.value).value > 0
    ensures r.Some? ==> r == ParseInt(raw.value)
  {
    if raw.None? then None
    else
      ParseIntOfStrip(raw.value);
      match ParseInt(Strip(raw.value))
      case None => None
      case Some(v) => if v <= 0 then None else Some(v)
  }

  /** A rendered positive integer is read back; zero and negatives are ignored. */
  lemma ParseOptionalPositiveIntOfRendered(n: int)
    ensures ParseOptionalPositiveInt(Some(IntToString(n))) == if n > 0 then Some(n) else None
  {
    ParseIntOfIntToString(n);
  }

  // ---------------------------------------------------------------------------
  // Provider and model
  // ---------------------------------------------------------------------------

  /** `normalize_provider`. */
  function NormalizeProvider(provider: string): (r: Result<string, ValueError>)
    ensures r.Ok? <==> Normalize(provider) in SUPPORTED_PROVIDERS
    ensures r.Ok? ==> r.value == Normalize(provider)
    ensures r.Err? ==> r.error == ValueError("Unsupported provider: " + provider)
  {
    var value := Normalize(provider);
    if value !in SUPPORTED_PROVIDERS then Err(ValueError("Unsupported provider: " + provider))
    else Ok(value)
  }

  /** A normalised provider normalises to itself. */
  lemma NormalizeProviderIdempotent(provider: string)
    requires NormalizeProvider(provider).Ok?
    ensures NormalizeProvider(NormalizeProvider(provider).value) == NormalizeProvider(provider)
  {
    NormalizeIdempotent(provider);
  }

  /** `default_llm_model`: the default model of a supported provider. */
  function DefaultLlmModel(provider: string): (r: Result<string, ValueError>)
    ensures r.Err? <==> NormalizeProvider(provider).Err?
    ensures r.Err? ==> r == Err(NormalizeProvider(provider).error)
    ensures r.Ok? ==> r.value == DEFAULT_MODELS[Normalize(provider)]
  {
    match NormalizeProvider(provider)
    case Err(e) => Err(e)
    case Ok(value) => Ok(DEFAULT_MODELS[value])
  }

  /** The three provider defaults. */
  lemma DefaultModels()
    ensures DefaultLlmModel("openai") == Ok("gpt-4o-mini")
    ensures DefaultLlmModel("ollama") == Ok("qwen3:4b")
    ensures DefaultLlmModel("lmstudio") == Ok("local-model")
  {
    OpenaiIsNormal();
    OllamaIsNormal();
    LmstudioIsNormal();
  }

  lemma OpenaiIsNormal() ensures Normalize("openai") == "openai" { NormalizeOfPlainWord("openai"); }
  lemma OllamaIsNormal() ensures Normalize("ollama") == "ollama" { NormalizeOfPlainWord("ollama"); }
  lemma LmstudioIsNormal() ensures Normalize("lmstudio") == "lmstudio" { NormalizeOfPlainWord("lmstudio"); }

  /** The environment values `resolve_llm_config` consults. */
  datatype LlmEnv = LlmEnv(
    llmModel: Option<string>,
    openaiApiKey: Option<string>, openaiApiBase: Option<string>,
    lmstudioApiKey: Option<string>, lmstudioBaseUrl: Option<string>,
    ollamaBaseUrl: Option<string>)

  /** `(provider, model, api_key, base_url)`. */
  datatype LlmConfig = LlmConfig(provider: string, model: string, apiKey: Option<string>, baseUrl: Option<string>)

  /** `resolve_llm_config`. */
  function ResolveLlmConfig(provider: string, model: Option<string>, apiKey: Option<string>,
                            baseUrl: Option<string>, env: LlmEnv): (r: Result<LlmConfig, ValueError>)
    ensures r.Err? <==> NormalizeProvider(provider).Err?
    ensures r.Err? ==> r.error == NormalizeProvider(provider).error
    ensures r.Ok? ==> r.value.provider == Normalize(provider) && r.value.provider in SUPPORTED_PROVIDERS
    // model: explicit, then LLM_MODEL, then the provider default; trimmed
    ensures r.Ok? && Truthy(model) ==> r.value.model == Strip(model.value)
    ensures r.Ok? && !Truthy(model) && Truthy(env.llmModel) ==> r.value.model == Strip(env.llmModel.value)
    ensures r.Ok? && !Truthy(model) && !Truthy(env.llmModel)
            ==> r.value.model == Strip(DEFAULT_MODELS[r.value.provider])
    // a non-blank explicit key or URL wins, trimmed, for every provider
    ensures r.Ok? && NonBlank(apiKey).Some? ==> r.value.apiKey == NonBlank(apiKey)
    ensures r.Ok? && NonBlank(baseUrl).Some? ==> r.value.baseUrl == NonBlank(baseUrl)
    // otherwise the provider's environment value, then its default
    ensures r.Ok? && r.value.provider == "openai" && NonBlank(apiKey).None? ==> r.value.apiKey == env.openaiApiKey
    ensures r.Ok? && r.value.provider == "openai" && NonBlank(baseUrl).None? ==> r.value.baseUrl == env.openaiApiBase
    ensures r.Ok? && r.value.provider == "lmstudio" && NonBlank(apiKey).None?
            ==> r.value.apiKey == if Truthy(env.lmstudioApiKey) then env.lmstudioApiKey else Some(LMSTUDIO_DEFAULT_API_KEY)
    ensures r.Ok? && r.value.provider == "lmstudio" && NonBlank(baseUrl).None?
            ==> r.value.baseUrl == if Truthy(env.lmstudioBaseUrl) then env.lmstudioBaseUrl else Some(LMSTUDIO_DEFAULT_BASE_URL)
    ensures r.Ok? && r.value.provider == "ollama" ==> r.value.apiKey == NonBlank(apiKey)
    ensures r.Ok? && r.value.provider == "ollama" && NonBlank(baseUrl).None?
            ==> r.value.baseUrl == if Truthy(env.ollamaBaseUrl) then env.ollamaBaseUrl else Some(OLLAMA_DEFAULT_BASE_URL)
    // lmstudio and ollama always end up with a base URL, lmstudio with a key too
    ensures r.Ok? && r.value.provider != "openai" ==> r.value.baseUrl.Some?
    ensures r.Ok? && r.value.provider == "lmstudio" ==> r.value.apiKey.Some?
  {
    match NormalizeProvider(provider)
    case Err(e) => Err(e)
    case Ok(value) =>
      var modelValue := Strip(Or(Or(model, env.llmModel), Some(DEFAULT_MODELS[value])).value);
      var key := NonBlank(apiKey);
      var url := NonBlank(baseUrl);
      if value == "openai" then
        Ok(LlmConfig(value, modelValue, Or(key, env.openaiApiKey), Or(url, env.openaiApiBase)))
      else if value == "lmstudio" then
        Ok(LlmConfig(value, modelValue, Or(Or(key, env.lmstudioApiKey), Some(LMSTUDIO_DEFAULT_API_KEY)),
                     Or(Or(url, env.lmstudioBaseUrl), Some(LMSTUDIO_DEFAULT_BASE_URL))))
      else
        Ok(LlmConfig(value, modelValue, key, Or(Or(url, env.ollamaBaseUrl), Some(OLLAMA_DEFAULT_BASE_URL))))
  }

  // ---------------------------------------------------------------------------
  // Chunking mode
  // ---------------------------------------------------------------------------

  /** `normalize_chunking_mode`: None and "" mean `char`. */
  function NormalizeChunkingMode(mode: Option<string>): (r: Result<string, ValueError>)
    ensures r.Ok? <==> Normalize(Or(mode, Some(CHUNKING_MODE_CHAR)).value) in SUPPORTED_CHUNKING_MODES
    ensures r.Ok? ==> r.value in SUPPORTED_CHUNKING_MODES
                      && r.value == Normalize(Or(mode, Some(CHUNKING_MODE_CHAR)).value)
    ensures r.Err? ==> r.error == ValueError("Unsupported chunking mode: " + PyStr(mode) + ". Use one of: char, token")
  {
    var value := Normalize(Or(mode, Some(CHUNKING_MODE_CHAR)).value);
    if value !in SUPPORTED_CHUNKING_MODES then
      Err(ValueError("Unsupported chunking mode: " + PyStr(mode) + ". Use one of: char, token"))
    else Ok(value)
  }

  lemma CharModeIsNormal()
    ensures Normalize(CHUNKING_MODE_CHAR) == CHUNKING_MODE_CHAR
  {
    NormalizeOfPlainWord(CHUNKING_MODE_CHAR);
  }

  /** No mode (None or "") means `char`. */
  lemma NormalizeChunkingModeDefault(mode: Option<string>)
    requires !Truthy(mode)
    ensures NormalizeChunkingMode(mode) == Ok(CHUNKING_MODE_CHAR)
  {
    CharModeIsNormal();
  }

  /** A normalised chunking mode normalises to itself. */
  lemma NormalizeChunkingModeIdempotent(mode: Option<string>)
    requires NormalizeChunkingMode(mode).Ok?
    ensures NormalizeChunkingMode(Some(NormalizeChunkingMode(mode).value)) == NormalizeChunkingMode(mode)
  {
    NormalizeIdempotent(Or(mode, Some(CHUNKING_MODE_CHAR)).value);
  }

  /** The splitter settings `build_text_splitter` hands to LangChain; the
      encoding is only used in token mode. */
  datatype SplitterConfig = SplitterConfig(chunkSize: int, chunkOverlap: int, mode: string, encoding: Option<string>)

  /** `build_text_splitter`: the mode is validated, and in token mode a blank
      encoding falls back to `cl100k_base`. */
  function BuildTextSplitter(chunkSize: int, chunkOverlap: int, mode: string, encoding: string): (r: Result<SplitterConfig, ValueError>)
    ensures r.Err? <==> NormalizeChunkingMode(Some(mode)).Err?
    ensures r.Ok? ==> r.value.mode == NormalizeChunkingMode(Some(mode)).value
                      && r.value.chunkSize == chunkSize && r.value.chunkOverlap == chunkOverlap
    ensures r.Ok? && r.value.mode == CHUNKING_MODE_CHAR ==> r.value.encoding.None?
    ensures r.Ok? && r.value.mode == CHUNKING_MODE_TOKEN
            ==> r.value.encoding == Some(if IsBlank(encoding) then DEFAULT_TOKEN_ENCODING else Strip(encoding))
  {
    match NormalizeChunkingMode(Some(mode))
    case Err(e) => Err(e)
    case Ok(m) =>
      if m == CHUNKING_MODE_CHAR then Ok(SplitterConfig(chunkSize, chunkOverlap, m, None))
      else
        var e := Strip(encoding);
        StripEmptyIffBlank(encoding);
        Ok(SplitterConfig(chunkSize, chunkOverlap, m, Some(if e == [] then DEFAULT_TOKEN_ENCODING else e)))
  }

  // ---------------------------------------------------------------------------
  // Documents
  // ---------------------------------------------------------------------------

  /** A LangChain `Document`: text and string metadata. */
  datatype Document = Document(pageContent: string, metadata: map<string, string>)

  /** The last position of `c` in `s`, or -1. */
  function LastIndexOf(s: string, c: char): (i: int)
    ensures -1 <= i < |s|
    ensures i >= 0 ==> s[i] == c
    ensures forall j :: i < j < |s| ==> s[j] != c
    decreases |s|
  {
    if s == [] then -1
    else if s[|s| - 1] == c then |s| - 1
    else LastIndexOf(s[..|s| - 1], c)
  }

  /** `pathlib`'s `stem` of a file name: the name without its last suffix; a
      leading dot or a trailing dot does not start a suffix. */
  function Stem(name: string): (r: string)
    ensures r <= name
  {
    var i := LastIndexOf(name, '.');
    if 0 < i < |name| - 1 then name[..i] else name
  }

  /** The stem of a name ending in a dot and two other characters drops those three. */
  lemma StemOfThreeCharSuffix(name: string)
    requires |name| > 3 && name[|name| - 3] == '.' && name[|name| - 2] != '.' && name[|name| - 1] != '.'
    ensures Stem(name) == name[..|name| - 3]
  {
    var n := |name|;
    assert name[..n - 1][..n - 2] == name[..n - 2];
    assert LastIndexOf(name[..n - 2], '.') == n - 3;
    assert LastIndexOf(name[..n - 1], '.') == n - 3;
  }

  /** The metadata `load_markdown_documents` attaches to a loaded file.
      The source reads `path.name` and `path.stem` of `data_dir / name`;
      `name` and `Stem(name)` stand for them, which is the same for the bare
      file names (no `/`) the collections are configured with. */
  function DocumentMetadata(name: string): (m: map<string, string>)
    ensures m.Keys == {"source", "topic", "country", "doc_type"}
    ensures m["source"] == name && m["topic"] == "europe_science_history"
    ensures m["country"] == if Stem(name) in COUNTRY_BY_STEM then COUNTRY_BY_STEM[Stem(name)] else "unknown"
    ensures m["doc_type"] == "summary" <==> Stem(name) == "eu_summry"
    ensures m["doc_type"] in {"summary", "country"}
  {
    var stem := Stem(name);
    map["source" := name, "topic" := "europe_science_history",
        "country" := if stem in COUNTRY_BY_STEM then COUNTRY_BY_STEM[stem] else "unknown",
        "doc_type" := if stem == "eu_summry" then "summary" else "country"]
  }

  /** What `load_markdown_documents` returns: one document per existing file,
      in the order given. */
  function LoadedDocuments(fileNames: seq<string>, fileExists: string -> bool, readText: string -> string): (r: seq<Document>)
    ensures |r| <= |fileNames|
  {
    if fileNames == [] then []
    else
      var rest := LoadedDocuments(fileNames[..|fileNames| - 1], fileExists, readText);
      var name := fileNames[|fileNames| - 1];
      if fileExists(name) then rest + [Document(readText(name), DocumentMetadata(name))] else rest
  }

  /** `load_markdown_documents`; `fileExists` and `readText` stand for the data
      directory (the skip message it prints is left out). */
  method LoadMarkdownDocuments(fileNames: seq<string>, fileExists: string -> bool, readText: string -> string)
    returns (docs: seq<Document>)
    ensures docs == LoadedDocuments(fileNames, fileExists, readText)
  {
    docs := [];
    for i := 0 to |fileNames|
      invariant docs == LoadedDocuments(fileNames[..i], fileExists, readText)
    {
      assert fileNames[..i + 1][..i] == fileNames[..i];
      var name := fileNames[i];
      if !fileExists(name) {
        continue;
      }
      docs := docs + [Document(readText(name), DocumentMetadata(name))];
    }
    assert fileNames[..|fileNames|] == fileNames;
  }

  /** Every loaded document comes from an existing file, carries that file's
      text, and gets its country and doc type from the file's stem. */
  lemma {:induction false} LoadedDocumentsFromFiles(fileNames: seq<string>, fileExists: string -> bool, readText: string -> string)
    ensures forall d :: d in LoadedDocuments(fileNames, fileExists, readText) ==>
              exists name :: name in fileNames && fileExists(name)
                             && d == Document(readText(name), DocumentMetadata(name))
    ensures (forall name :: name in fileNames ==> fileExists(name))
            ==> |LoadedDocuments(fileNames, fileExists, readText)| == |fileNames|
    decreases |fileNames|
  {
    if fileNames != [] {
      var init := fileNames[..|fileNames| - 1];
      LoadedDocumentsFromFiles(init, fileExists, readText);
      assert forall name :: name in init ==> name in fileNames;
    }
  }

  lemma DefaultStems()
    ensures Stem("eu_summry.md") == "eu_summry" && Stem("fr.md") == "fr" && Stem("ge.md") == "ge"
    ensures Stem("it.md") == "it" && Stem("uk.md") == "uk"
  {
    StemOfThreeCharSuffix("eu_summry.md");
    StemOfThreeCharSuffix("fr.md");
    StemOfThreeCharSuffix("ge.md");
    StemOfThreeCharSuffix("it.md");
    StemOfThreeCharSuffix("uk.md");
  }

  /** The default files all have known stems: each gets a real country, and
      only the summary file is typed `summary`. */
  lemma DefaultFileMetadata()
    ensures forall name :: name in DEFAULT_FILE_NAMES ==> DocumentMetadata(name)["country"] != "unknown"
    ensures forall name :: name in DEFAULT_FILE_NAMES ==>
              (DocumentMetadata(name)["doc_type"] == "summary" <==> name == "eu_summry.md")
  {
    DefaultStems();
  }

  /** `{**doc.metadata, **part.metadata}`: the header-local values win. */
  function MergeMetadata(docMeta: map<string, string>, partMeta: map<string, string>): (m: map<string, string>)
    ensures m.Keys == docMeta.Keys + partMeta.Keys
    ensures forall k :: k in partMeta ==> m[k] == partMeta[k]
    ensures forall k :: k in docMeta && k !in partMeta ==> m[k] == docMeta[k]
  {
    docMeta + partMeta
  }

  /** The header parts of one document, each carrying the merged metadata; a
      document without headers is one part with empty local metadata. */
  function HeaderParts(doc: Document, headerSplit: string -> seq<Document>): (r: seq<Document>)
    ensures |r| >= 1
    ensures headerSplit(doc.pageContent) == [] ==> r == [Document(doc.pageContent, doc.metadata)]
    ensures headerSplit(doc.pageContent) != [] ==>
              |r| == |headerSplit(doc.pageContent)|
              && forall i :: 0 <= i < |r| ==>
                   r[i] == Document(headerSplit(doc.pageContent)[i].pageContent,
                                    MergeMetadata(doc.metadata, headerSplit(doc.pageContent)[i].metadata))
  {
    var parts := headerSplit(doc.pageContent);
    var parts' := if parts == [] then [Document(doc.pageContent, map[])] else parts;
    assert doc.metadata + map[] == doc.metadata;
    seq(|parts'|, i requires 0 <= i < |parts'| => Document(parts'[i].pageContent, MergeMetadata(doc.metadata, parts'[i].metadata)))
  }

  /** The chunks `split_by_markdown_headers` produces: each document's header
      parts split by the text splitter, concatenated in document order. */
  function ChunksOf(docs: seq<Document>, headerSplit: string -> seq<Document>, cfg: SplitterConfig,
                    textSplit: (SplitterConfig, seq<Document>) -> seq<Document>): seq<Document>
  {
    if docs == [] then []
    else ChunksOf(docs[..|docs| - 1], headerSplit, cfg, textSplit) + textSplit(cfg, HeaderParts(docs[|docs| - 1], headerSplit))
  }

  /** The loop of `split_by_markdown_headers` over one document's header parts,
      overwriting each part's metadata with the merged one. */
  method AttachDocumentMetadata(doc: Document, headerSplit: string -> seq<Document>) returns (parts: seq<Document>)
    ensures parts == HeaderParts(doc, headerSplit)
  {
    var headerDocs := headerSplit(doc.pageContent);
    if headerDocs == [] {
      headerDocs := [Document(doc.pageContent, map[])];
    }
    parts := [];
    for j := 0 to |headerDocs|
      invariant |parts| == j
      invariant forall k :: 0 <= k < j ==>
                  parts[k] == Document(headerDocs[k].pageContent, MergeMetadata(doc.metadata, headerDocs[k].metadata))
    {
      parts := parts + [Document(headerDocs[j].pageContent, MergeMetadata(doc.metadata, headerDocs[j].metadata))];
    }
    assert doc.metadata + map[] == doc.metadata;
  }

  /** `split_by_markdown_headers`: `headerSplit` is the markdown header splitter
      on `##`/`###`/`####`, and `textSplit` the text splitter built from
      the validated settings. An unsupported mode fails before any document is
      split. */
  method SplitByMarkdownHeaders(docs: seq<Document>, chunkSize: int, chunkOverlap: int, mode: string, encoding: string,
                                headerSplit: string -> seq<Document>,
                                textSplit: (SplitterConfig, seq<Document>) -> seq<Document>)
    returns (r: Result<seq<Document>, ValueError>)
    ensures r.Err? <==> BuildTextSplitter(chunkSize, chunkOverlap, mode, encoding).Err?
    ensures r.Err? ==> r.error == BuildTextSplitter(chunkSize, chunkOverlap, mode, encoding).error
    ensures r.Ok? ==>
              r.value == ChunksOf(docs, headerSplit, BuildTextSplitter(chunkSize, chunkOverlap, mode, encoding).value, textSplit)
  {
    var built := BuildTextSplitter(chunkSize, chunkOverlap, mode, encoding);
    if built.Err? {
      return Err(built.error);
    }
    var cfg := built.value;
    var chunks: seq<Document> := [];
    for i := 0 to |docs|
      invariant chunks == ChunksOf(docs[..i], headerSplit, cfg, textSplit)
    {
      var parts := AttachDocumentMetadata(docs[i], headerSplit);
      assert docs[..i + 1][..i] == docs[..i];
      chunks := chunks + textSplit(cfg, parts);
    }
    assert docs[..|docs|] == docs;
    return Ok(chunks);
  }
}
