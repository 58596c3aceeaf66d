# trunk_rag, modelled in Dafny

trunk_rag is a retrieval-augmented question-answering service over a small
library of Markdown documents about the history of science in European
countries. A FastAPI application indexes the documents into Chroma
collections, one per country plus `all` and `eu`, and answers `/query` by
routing the question to one or two collections, assembling the retrieved
passages into a prompt context and asking an LLM. Users may propose new
documents through upload requests; an administrator approves or rejects
them, and approval ingests the document into its collection.

This project models the decision logic of that service and proves what it
promises:

- **Registry and routing** (`Settings`, `CollectionService`). These modules resolve names and aliases to collection keys and guess a key from the query text. They choose the collections a query searches, together with the route reason and the one-shot fallback to `all`. They also cover the cap flags and the per-collection status list.
- **Query path**:
  - `QueryService` de-duplicates the passages of several collections by fingerprint, caps them and lays out the context.
  - `RoutesQuery` is the `/query` handler: provider checks, the active collections, the response headers and the mapping of every failure to its typed error.
  - `Http` chooses the request id.
  - `Errors` holds the error payloads and the validation hint.
- **Ingestion** (`ValidateDoc`, `IndexService`, `Common`):
  - the pre-ingest document check;
  - the usable and rejected documents and the validation summary;
  - the hard cap on projected vectors;
  - the metadata bookkeeping of loading and splitting;
  - provider and LLM configuration and chunking-mode normalisation.
- **Runtime settings** (`RuntimeService`): this module covers the environment settings, the admin code check and the sanitising of uploaded file names.
- **Upload moderation** (`UploadService`, `RoutesUpload`, `RoutesSystem`). These modules cover:
  - the request listing, with its filters and newest-first order;
  - creation with optional auto-approval;
  - approve and reject on the request store, which is a class whose field the handlers update;
  - the status counts, the health report, reindexing and the admin probe.
- **Browser code** (`SharedJs`, `AppPage`):
  - HTML escaping, with a round trip through a decoder;
  - reading and formatting API errors;
  - the line-state Markdown renderer, proved to close every list and code block it opens;
  - the selected-collection choice.
- **Benchmark scripts** (`BenchmarkE2e`, `BenchmarkMulti`): the scenario key parsers, the scenario tables, the query payload and the benchmark's own passage collection.

`Text` writes out the Python and JavaScript string primitives the service relies on: whitespace, strip, lower, `in`, split, join, splitlines, decimal rendering and `int()`. `Dedup` is the first-occurrence de-duplication several modules share. `Wrappers` holds Option and Result.

Where the source loops and mutates, the model is a method with a loop, proved equal to a specification function. That function's properties are proved as lemmas. Examples are the status counting, the context assembly, the renderer and the key parsers. Where the source updates an object, the model is a class: the request store, the request state and the response headers.

Behaviour worth knowing, as the code has it:

- `/query` chooses the model as the request's `llm_model`, else the provider's default (api/routes_query.py:32). A non-empty, whitespace-only `llm_model` is truthy there, so it is kept and trimmed to the empty model. `create_chat_llm` then resolves the configuration again (common.py:148-153), and the empty model falls through to the `LLM_MODEL` setting, else the provider's default. The client is built with that model, but the response reports the empty model. For any other request the `LLM_MODEL` setting is never reached. `RoutesQuery.BlankRequestModelReachesSetting` and `RoutesQuery.LlmModelSettingIgnored` state the two cases.
- The listing of upload requests, `UploadService.ListUploadRequests`, and the `/upload-requests` handler built on it, `RoutesSystem.UploadRequests`, use the corrected reason and search filters of the first two findings below. In those filters a missing rejection reason is empty text. As written, the filters see it as the text `None`; `UploadService.ReasonFilterAsWritten` and `UploadService.SearchFilterAsWritten` model that.
- A request that `create_upload_request` builds always carries its metadata, so it is always usable. The auto-reject branch (api/routes_upload.py:73-76) is therefore unreachable from creation. `RoutesUpload.CreatedRequestsAreUsable` proves this, and `RoutesUpload.AutoApproveRejectsUnusable` states what that branch would do.
- The renderer does not check nesting: a header inside a list closes the list, but a fence inside a list leaves `<ul>` open until the end, so `<ul>` and `<pre>` can interleave. The balance proved is per tag kind, not well-nestedness.

## Model

| member | source | states |
|---|---|---|
| Settings.CollectionKeys | core/settings.py:34-71 | the registered keys, in registry order, one per collection entry |
| Settings.CollectionKeysLiteral | core/settings.py:34-71 | the registry holds exactly `all, eu, fr, ge, it, uk`, in that order |
| Settings.DefaultKeyHasNoKeywords | core/settings.py:10-40 | the default key `all` is the first entry, it has no keywords, and no other entry uses that key |
| Settings.RegistryEntriesDistinct | core/settings.py:34-71 | registry keys are pairwise distinct, and so are collection names |
| Settings.EveryKeyHasCountry | core/settings.py:34-80 | every registered key has a default country, and the country map has no other keys |
| Settings.Limits | core/settings.py:12-31 | the soft cap is positive and below the hard cap; at most 2 query collections; SEARCH_K is 3; the request statuses are exactly pending, approved, rejected |
| CollectionService.DefaultCountryForCollection | services/collection_service.py:15-16 | a registered key maps to its country; any other key maps to `all` |
| CollectionService.DefaultDocTypeForCollection | services/collection_service.py:19-22 | the type is `summary` exactly for `all` and `eu`, and `country` otherwise |
| CollectionService.FirstNameMatch | services/collection_service.py:36-38 | the first position whose name equals the value, or none when no name does |
| CollectionService.ResolveCollectionKey | services/collection_service.py:25-40 | absent or blank input gives no key; a normalized registered key resolves to itself; otherwise the first collection whose normalized name matches; any other non-blank input is the `Unsupported collection` error, never a silent default |
| CollectionService.ResolveRegisteredKey | services/collection_service.py:33-35 | every registered key resolves to itself |
| CollectionService.ResolveCollectionKeyIdempotent | services/collection_service.py:25-40 | resolving a resolved key gives it back |
| CollectionService.GetCollectionConfig | services/collection_service.py:43-47 | succeeds exactly for registered keys, with that key's entry; otherwise the `Unsupported collection key` error |
| CollectionService.GetCollectionName | services/collection_service.py:113-114 | succeeds exactly for registered keys, with the name of that key's entry |
| CollectionService.FirstKeywordMatch | services/collection_service.py:52-57 | the first non-default entry, in registry order, one of whose keywords occurs in the normalized query; none when no entry matches |
| CollectionService.GuessCollectionKeyFromQuery | services/collection_service.py:50-58 | a registered key; a non-default result is the first entry whose keyword occurs in the normalized query; the default exactly when no non-default entry's keyword occurs |
| CollectionService.ResolveCollectionForQuery | services/collection_service.py:61-69 | errors exactly when resolving the requested key errors; reason `explicit` for a resolved key, `keyword` for a non-default guess, `default` otherwise |
| CollectionService.DedupeCollectionKeys | services/collection_service.py:72-80 | no duplicates, the same elements as the input, first-occurrence order |
| CollectionService.ExplicitValuesSpec | services/collection_service.py:88 | the kept explicit values are the non-blank ones; none are kept exactly when all are blank |
| CollectionService.ResolveAll | services/collection_service.py:90-95 | on success every key is registered and there are no more keys than values |
| CollectionService.ResolveAllAt | services/collection_service.py:91-95 | the first value that fails to resolve decides the error; a value that resolves to nothing is skipped; a resolved key is prepended |
| CollectionService.RouteQuery | services/collection_service.py:83-106 | 1 or 2 distinct registered keys; an explicit list is resolved, de-duplicated, then capped, with reason `explicit`/`explicit_multi` and no fallback; otherwise the single resolved or guessed key; fallback allowed exactly on the keyword path without a requested collection |
| CollectionService.ResolveExplicitValues | services/collection_service.py:90-95 | the key-building loop computes `ResolveAll` |
| CollectionService.ResolveCollectionKeysForQuery | services/collection_service.py:83-106 | the method computes `RouteQuery` |
| CollectionService.CalculateCapStatus | services/collection_service.py:117-127 | caps echoed; soft exceeded exactly at or above 30,000 and hard exceeded exactly at or above 50,000 |
| CollectionService.HardExceededImpliesSoft | services/collection_service.py:125-126 | a count over the hard cap is also over the soft cap |
| CollectionService.ListCollectionStatuses | services/collection_service.py:130-148 | one status per registry entry, in order, with the fast count or 0 and its cap flags |
| Common.NonBlank | common.py:126-127 | nothing exactly for an absent or blank value; otherwise the trimmed, non-empty value |
| Common.ParseOptionalPositiveInt | common.py:86-96 | a value exactly when the variable is set, its trimmed text parses as an integer and that integer is positive; the value is the parsed integer |
| Common.ParseOptionalPositiveIntOfRendered | common.py:86-96 | the decimal rendering of n gives n back when n is positive, and nothing otherwise |
| Common.NormalizeProvider | common.py:99-103 | accepted exactly when the trimmed, lowered name is `openai`, `ollama` or `lmstudio`, giving that name; otherwise the `Unsupported provider` error |
| Common.NormalizeProviderIdempotent | common.py:99-103 | normalizing an accepted provider name again changes nothing |
| Common.DefaultLlmModel | common.py:106-113 | fails exactly when the provider is refused; otherwise the table entry of the normalized provider |
| Common.DefaultModels | common.py:108-112 | openai gives `gpt-4o-mini`, ollama `qwen3:4b`, lmstudio `local-model` |
| Common.ResolveLlmConfig | common.py:116-138 | fails exactly when the provider is refused; model taken from the argument, then `LLM_MODEL`, then the default, trimmed; a non-blank key or URL wins, otherwise the provider's environment value, then its default (lmstudio key and URL, ollama URL); openai may end without either |
| Common.NormalizeChunkingMode | common.py:215-220 | absent or empty gives `char`; otherwise accepted exactly when the trimmed, lowered value is `char` or `token`; otherwise the error naming the value and the supported modes |
| Common.NormalizeChunkingModeDefault | common.py:216 | an absent or empty mode gives `char` |
| Common.NormalizeChunkingModeIdempotent | common.py:215-220 | normalizing an accepted mode again changes nothing |
| Common.BuildTextSplitter | common.py:223-242 | fails exactly when the mode is refused; sizes echoed; `char` mode has no encoding; `token` mode uses the trimmed encoding or `cl100k_base` when blank |
| Common.LastIndexOf | common.py:198 | the position of the last occurrence of the character, or -1 when there is none |
| Common.Stem | common.py:198 | the stem is a prefix of the file name |
| Common.StemOfThreeCharSuffix | common.py:198 | a name ending in a dot and two non-dot characters loses exactly that suffix |
| Common.DocumentMetadata | common.py:200-209 | metadata holds exactly source, topic, country, doc_type; country from the stem table, else `unknown`; doc_type `summary` exactly for stem `eu_summry`, else `country` |
| Common.LoadedDocuments | common.py:188-212 | no more documents than file names |
| Common.LoadMarkdownDocuments | common.py:188-212 | the loop computes `LoadedDocuments` |
| Common.LoadedDocumentsFromFiles | common.py:191-210 | every loaded document is the text and metadata of an existing listed file; when every file exists there is one document per name |
| Common.DefaultStems | common.py:198 | the stems of the five default files |
| Common.DefaultFileMetadata | common.py:200-209 | every default file gets a known country, and only `eu_summry.md` is a summary |
| Common.MergeMetadata | common.py:269-270 | the merged keys are the union; a header-local value wins on collision, other document values are kept |
| Common.HeaderParts | common.py:265-270 | at least one part; no header parts gives the whole document with its metadata; otherwise one part per header part, each with merged metadata |
| Common.AttachDocumentMetadata | common.py:265-270 | the loop computes `HeaderParts` |
| Common.SplitByMarkdownHeaders | common.py:245-274 | fails exactly when the text splitter cannot be built; otherwise the chunks of every document's header parts, in document order |
| Errors.BuildQueryErrorPayload | core/errors.py:15-28 | the payload carries code, message, hint and request id verbatim, and `detail` equals the message |
| Errors.LocParts | core/errors.py:36 | the location items other than `body`, none dropped otherwise; a single item is kept exactly when it is not `body` |
| Errors.LocPartsAppend | core/errors.py:36 | the kept items of a concatenation are those of each part in order, so the dotted location keeps the order and the repetitions of the original items |
| Errors.BuildValidationHint | core/errors.py:31-43 | no errors gives the body-format hint; location `query` gives the query hint; a non-empty other location gives `loc: msg`; an empty location gives the message alone |
| Errors.EmptyQueryGetsQueryHint | core/errors.py:36-40 | the location `body.query` becomes `query` and gets the query hint |
| Http.RequestState.constructor | core/http.py:9 | a request's state starts with the id already recorded on it, or none |
| Http.ChooseRequestId | core/http.py:8-16 | never blank and already trimmed; an existing non-blank id wins, trimmed; then the trimmed non-blank header; then the fresh id |
| Http.ChooseRequestIdStable | core/http.py:10-15 | after the id is recorded, a second choice returns the same id whatever the header or fresh id |
| Http.GetOrCreateRequestId | core/http.py:8-16 | returns `ChooseRequestId`; an existing non-blank id is left as it is, otherwise the chosen id is written to the state |
| Http.RequestIdTwice | core/http.py:8-16 | two calls on the same request return the same non-empty id, the first call's choice; a non-blank stored id is kept, otherwise the request state now holds that id |
| RuntimeService.GetAdminCode | services/runtime_service.py:23-25 | never blank and already trimmed; the trimmed environment value when non-blank, otherwise `admin1234` |
| RuntimeService.VerifyAdminCode | services/runtime_service.py:99-101 | accepts exactly when the trimmed code equals the admin code; otherwise the 401 error |
| RuntimeService.VerifyAdminCodeAccepts | services/runtime_service.py:99-101 | the admin code is accepted, also padded with whitespace, and a blank code is refused |
| RuntimeService.PaddedAdminCodeAccepted | services/runtime_service.py:100 | the admin code padded with whitespace is accepted |
| RuntimeService.BlankAdminCodeRejected | services/runtime_service.py:100 | a blank code is refused |
| RuntimeService.ParseBoolEnv | services/runtime_service.py:32-36 | the default when unset; otherwise true exactly when the trimmed, lowered value is `1`, `true`, `yes`, `on` or `y` |
| RuntimeService.ParseBoolEnvOfNormalized | services/runtime_service.py:36 | normalizing the raw value first does not change the answer |
| RuntimeService.IsAutoApproveEnabled | services/runtime_service.py:39-40 | on exactly when the variable is set to one of the true words; off when unset |
| RuntimeService.GetQueryTimeoutSeconds | services/runtime_service.py:43-63 | always at least 1; the parsed value when it parses and is at least 1; otherwise 15 |
| RuntimeService.QueryTimeoutOfRendered | services/runtime_service.py:43-63 | the rendering of n gives n when n is at least 1, and 15 otherwise |
| RuntimeService.GetMaxContextChars | services/runtime_service.py:66-78 | nothing exactly for an unset, unparsable or non-positive value; otherwise the positive parsed value |
| RuntimeService.ChunkingModeSetting | services/runtime_service.py:82-91 | a supported mode: the normalized mode when accepted, `char` when refused or unset |
| RuntimeService.TokenEncodingSetting | services/runtime_service.py:93-95 | the trimmed encoding when non-blank, otherwise `cl100k_base` |
| RuntimeService.GetChunkingConfig | services/runtime_service.py:81-96 | always a supported mode and a non-empty encoding |
| RuntimeService.ChunkingConfigDefaults | services/runtime_service.py:82-93 | with nothing set the configuration is `char` with `cl100k_base` |
| RuntimeService.SafeChar | services/runtime_service.py:108 | the result is an allowed character; an allowed character is kept |
| RuntimeService.SafeChars | services/runtime_service.py:108 | the same length, each character replaced by its safe form |
| RuntimeService.WithMarkdownSuffix | services/runtime_service.py:109-110 | a name already ending in `.md`, ignoring case, is returned unchanged; any other name gets exactly `.md` appended; either way the result ends in `.md` and starts with the name |
| RuntimeService.WithMarkdownSuffixKeepsSafe | services/runtime_service.py:108-110 | adding the suffix keeps every character allowed |
| RuntimeService.SanitizeSourceName | services/runtime_service.py:104-111 | fails exactly for blank input, with `source_name is empty` |
| RuntimeService.SanitizedNameIsSafe | services/runtime_service.py:105-111 | every output character is alphanumeric or `_`, `-`, `.`; the output ends in `.md` ignoring case and starts with the safe form of the trimmed input |
| RuntimeService.SanitizeSourceNameIdempotent | services/runtime_service.py:104-111 | sanitizing a sanitized name gives it back |
| RuntimeService.SanitizeOfSanitized | services/runtime_service.py:104-111 | a name of allowed characters ending in `.md` is its own sanitized form |
| RuntimeService.SafeNameIsStripped | services/runtime_service.py:105 | a name of allowed characters has no surrounding whitespace |
| ValidateDoc.CompactLen | scripts/validate_rag_doc.py:19-20 | the count of non-whitespace characters is at most the length |
| ValidateDoc.CompactLenAppend | scripts/validate_rag_doc.py:19-20 | the compact length of a concatenation is the sum of the parts' |
| ValidateDoc.CompactLenBlank | scripts/validate_rag_doc.py:19-20 | the compact length is 0 exactly for blank text |
| ValidateDoc.CompactLenOfStrip | scripts/validate_rag_doc.py:41-42 | trimming the text does not change its compact length |
| ValidateDoc.MissingFields | scripts/validate_rag_doc.py:23-29 | no more missing fields than fields checked |
| ValidateDoc.MissingFieldsMembers | scripts/validate_rag_doc.py:25-28 | a field is reported exactly when it is checked and its value, absent counting as empty, is blank |
| ValidateDoc.MetadataMissingSpec | scripts/validate_rag_doc.py:14-29 | exactly the required fields among source, country, doc_type whose trimmed value is empty are reported; none exactly when all are present |
| ValidateDoc.ValidateMetadata | scripts/validate_rag_doc.py:23-29 | the loop computes `MetadataMissing` |
| ValidateDoc.HeaderOfStripped | scripts/validate_rag_doc.py:53-58 | a header has level 2 to 4 and a non-empty title |
| ValidateDoc.HeaderOf | scripts/validate_rag_doc.py:52-58 | a header has level 2 to 4 and a non-empty title |
| ValidateDoc.HeaderOfStrippedMatches | scripts/validate_rag_doc.py:13 | a trimmed line is a header exactly when it starts with 2 to 4 `#` followed by whitespace |
| ValidateDoc.HeaderTitleStripped | scripts/validate_rag_doc.py:58 | the header title has no surrounding whitespace |
| ValidateDoc.HeaderOfRendered | scripts/validate_rag_doc.py:13 | `k` hashes, a space and a title is a header of level k with that title for k in 2..4, and no header for `#` or five or more |
| ValidateDoc.HeadersAt | scripts/validate_rag_doc.py:51-58 | each line is classified independently of the others |
| ValidateDoc.ScanStep | scripts/validate_rag_doc.py:51-84 | scanning one more line is one step of the loop |
| ValidateDoc.ScanGrows | scripts/validate_rag_doc.py:51-84 | warnings and header positions only grow as lines are scanned |
| ValidateDoc.ScanWarningsAreHeaderWarnings | scripts/validate_rag_doc.py:60-82 | the loop only emits header warnings |
| ValidateDoc.ScanSeenH2None | scripts/validate_rag_doc.py:63-66 | no h2 has been seen exactly when no line is an h2 |
| ValidateDoc.ScanSeenH2Latest | scripts/validate_rag_doc.py:63-66 | the seen h2 is the title of the last h2 line |
| ValidateDoc.ScanSeenH3 | scripts/validate_rag_doc.py:63-73 | no h3 is open exactly when every h3 is followed by a later h2 |
| ValidateDoc.ScanSeenHeaders | scripts/validate_rag_doc.py:80-83 | the key of every header line is in the seen set |
| ValidateDoc.ScanPositionsAreHeaders | scripts/validate_rag_doc.py:84 | every recorded position is a header line with its level and title |
| ValidateDoc.ScanPositionsOrdered | scripts/validate_rag_doc.py:84 | positions are recorded in line order |
| ValidateDoc.ScanPositionOf | scripts/validate_rag_doc.py:84 | a header line's recorded position, found by index |
| ValidateDoc.ScanPositionsComplete | scripts/validate_rag_doc.py:84 | every header line is recorded |
| ValidateDoc.H3BeforeH2Warned | scripts/validate_rag_doc.py:68-70 | an h3 with no h2 before it is warned |
| ValidateDoc.H4WithoutH3Warned | scripts/validate_rag_doc.py:74-76 | an h4 with no h3 since the last h2 is warned |
| ValidateDoc.DuplicateHeaderWarned | scripts/validate_rag_doc.py:80-82 | a header whose (level, parent h2, parent h3, lowered title) repeats an earlier one is warned |
| ValidateDoc.ShortTitleWarned | scripts/validate_rag_doc.py:60-61 | a title shorter than 2 characters is warned |
| ValidateDoc.NoHeadersWarned | scripts/validate_rag_doc.py:86-87 | the no-headers warning is given exactly when no line is a header |
| ValidateDoc.FirstSectionWarned | scripts/validate_rag_doc.py:88-89 | the first recorded header is the first header line, and the first-section warning is given exactly when its level is not 2 |
| ValidateDoc.PySlice | scripts/validate_rag_doc.py:93 | Python slicing never yields more items than the sequence has |
| ValidateDoc.BodyLengthsAt | scripts/validate_rag_doc.py:91-94 | the k-th body length is the compact length of the lines from after header k up to the next header or the end |
| ValidateDoc.ShortSections | scripts/validate_rag_doc.py:94 | short sections are indexes of sections |
| ValidateDoc.ShortSectionsExact | scripts/validate_rag_doc.py:94-97 | a section is short exactly when its body has fewer than 20 non-whitespace characters; listed in order |
| ValidateDoc.SectionWarningsOfShort | scripts/validate_rag_doc.py:91-97 | one warning per short section, in order, naming its title |
| ValidateDoc.Reasons | scripts/validate_rag_doc.py:28 | one reason text per missing field, in order |
| ValidateDoc.WarningTexts | scripts/validate_rag_doc.py:43-96 | one warning text per warning, in order |
| ValidateDoc.MarkdownReport | scripts/validate_rag_doc.py:32-104 | the report names the source, its reasons are the missing fields, and it is usable exactly when there are none |
| ValidateDoc.UsableIgnoresText | scripts/validate_rag_doc.py:38-101 | usability depends only on the metadata, never on the text or its warnings |
| ValidateDoc.ShortDocumentWarned | scripts/validate_rag_doc.py:41-43 | the length warning is given exactly when the text has fewer than 200 non-whitespace characters, and then it comes first |
| ValidateDoc.NoShortDocumentInStructure | scripts/validate_rag_doc.py:45-97 | the structure checks never emit the length warning |
| ValidateDoc.ScanHeader | scripts/validate_rag_doc.py:57-84 | one header line updates the scan state as `ScanLine` says |
| ValidateDoc.ScanLines | scripts/validate_rag_doc.py:51-84 | the loop computes `Scan` of the classified lines |
| ValidateDoc.SectionBodyLength | scripts/validate_rag_doc.py:92-94 | computes the body length of one section |
| ValidateDoc.ShortSectionWarnings | scripts/validate_rag_doc.py:91-97 | the loop computes the section warnings |
| ValidateDoc.CheckStructure | scripts/validate_rag_doc.py:45-97 | computes the structure warnings |
| ValidateDoc.ValidateMarkdownText | scripts/validate_rag_doc.py:32-104 | the method computes `MarkdownReport` |
| ValidateDoc.CheckLength | scripts/validate_rag_doc.py:41-43 | computes the length warning |
| ValidateDoc.DocumentReportsAt | scripts/validate_rag_doc.py:107-112 | one report per document, in order, each with the document's source or `unknown` |
| ValidateDoc.ValidateLoadedDocuments | scripts/validate_rag_doc.py:107-112 | the loop computes `DocumentReports` |
| IndexService.RejectedItems | services/index_service.py:63-74 | no more rejected items than reports |
| IndexService.RejectedItemsAppend | services/index_service.py:65-73 | the rejected items of two report lists are those of the first followed by those of the second |
| IndexService.RejectedItemsHaveReasons | services/index_service.py:65-73 | every rejected item carries reasons and is the source and reasons of some report with non-empty reasons |
| IndexService.CollectRejectedItems | services/index_service.py:63-74 | the loop computes `RejectedItems` |
| IndexService.UsableDocs | services/index_service.py:185 | no more usable documents than documents |
| IndexService.UsableDocsAppend | services/index_service.py:185 | the usable documents of two aligned lists are those of the first followed by those of the second |
| IndexService.WarningDocs | services/index_service.py:187 | no more documents with warnings than reports |
| IndexService.PartitionCounts | services/index_service.py:185-186 | every document is either usable or rejected: the counts add up to the number of documents |
| IndexService.DocumentReportsWellFormed | services/index_service.py:184 | one report per document, each usable exactly when it has no reasons |
| IndexService.LoadedMetadataComplete | services/index_service.py:180-185 | a loaded file with a non-blank name always has the required metadata, so it is usable |
| IndexService.MetadataComplete | services/index_service.py:180-184 | the metadata of a loaded file misses no required field |
| IndexService.LoadedDocumentsUsable | services/index_service.py:180-185 | every document loaded from non-blank file names is usable |
| IndexService.UsableDocsOfAllUsable | services/index_service.py:185 | when every report is usable, the usable documents are all documents |
| IndexService.BuildValidationSummary | services/index_service.py:77-98 | the counts are echoed, `rejected_docs` is the number of rejected items, and the items are kept |
| IndexService.SummaryTextNamesUsable | services/index_service.py:86-89 | the summary text contains `usable=<n>` |
| IndexService.IndexDocumentsForCollection | services/index_service.py:101-172 | an unregistered key fails; otherwise the projected count is the chunk count when resetting, else the current count (0 when missing) plus the chunks; above 50,000 it is refused echoing the cap and the projection; otherwise the result reports the chunks added, the stored count and its cap status |
| IndexService.HardCapBoundary | services/index_service.py:119 | exactly 50,000 projected vectors is allowed and 50,001 is refused |
| IndexService.CapRefusalBeforeWrite | services/index_service.py:117-131 | a refusal does not depend on anything the store reports after writing |
| IndexService.SummaryOfAccountsForAll | services/index_service.py:184-193 | the summary counts all documents, usable plus rejected equals total, and the usable and warning counts come from the reports |
| IndexService.IngestUsable | services/index_service.py:204-216 | the reindex result reports the usable documents, all documents, the chunks of the usable ones, the summary and the collection name |
| IndexService.ReindexLoaded | services/index_service.py:181-216 | the unknown-collection error only for unregistered keys |
| IndexService.Reindex | services/index_service.py:175-216 | the unknown-collection error exactly for unregistered keys; otherwise reindexing the configured files of that collection |
| IndexService.ReindexLoadedErrors | services/index_service.py:181-202 | `No markdown files` exactly when nothing was loaded; `No usable markdown files` exactly when something was loaded and nothing is usable |
| IndexService.ReindexNoUsableSummary | services/index_service.py:195-202 | the no-usable error carries the validation summary, with every document rejected |
| IndexService.ReindexLoadedCounts | services/index_service.py:204-216 | on success at least one document is usable, and the counts and summary agree with the partition |
| IndexService.RegisteredFileNamesNotBlank | core/settings.py:34-71 | the file names configured for a collection are not blank |
| IndexService.ConfiguredDocsUsable | services/index_service.py:176-185 | every document loaded for a registered collection is usable |
| IndexService.ReindexOfRegisteredUsesAllDocuments | services/index_service.py:175-216 | for a registered collection the no-usable error cannot happen and every loaded document is ingested |
| IndexService.ResolveDocPath | services/index_service.py:237-243 | a name resolves exactly when it is in the default file list and its file exists under the data directory, and then to `<data dir>/<name>`; otherwise `Document not found` with 404 |
| IndexService.DefaultNamesArePlain | common.py:26-32 | no default file name holds a path separator or starts with `..` |
| IndexService.ResolveDocPathRefusesPaths | services/index_service.py:237-239 | a name with a path separator or a leading `..` is refused |
| QueryService.BlocksAt | services/query_service.py:34-37 | the i-th block is `[start+i] source=S h2=H` and the content, with source defaulting to `unknown` and h2 to empty |
| QueryService.FormattedDocsGrowth | services/query_service.py:32-38 | no passages give the empty text, one gives block 1, and each further passage adds a blank line and its numbered block |
| QueryService.FormatDocs | services/query_service.py:32-38 | the loop computes `FormattedDocs` |
| QueryService.RetrievedFails | services/query_service.py:45-46 | retrieval fails exactly when some key is unregistered, with the error of the first such key |
| QueryService.MaxDocs | services/query_service.py:64 | the cap is `max(SEARCH_K * n, SEARCH_K)` |
| QueryService.Take | services/query_service.py:65 | a prefix of at most n passages, all of them when there are fewer |
| QueryService.ContextPassages | services/query_service.py:45-65 | fails exactly when retrieval fails |
| QueryService.ContextPassagesSpec | services/query_service.py:45-65 | at most `max(K*n, K)` passages, no two with the same source, h2 and content fingerprint, each the first passage with its fingerprint, in collection-then-retrieval order, and every fingerprint kept when the cap is not reached |
| QueryService.TakeKeepsDedupeFacts | services/query_service.py:65 | capping keeps distinct fingerprints, first occurrences and order |
| QueryService.ContextLimit | services/query_service.py:66 | a set limit is positive |
| QueryService.Truncated | services/query_service.py:67-69 | a prefix of the context: exactly the first L characters when longer than L, otherwise the whole context |
| QueryService.CollectionContext | services/query_service.py:41-69 | fails exactly when retrieval fails |
| QueryService.CollectionContextWithinBudget | services/query_service.py:64-69 | the context is a prefix of the formatted kept passages, within the budget when one is set, and all of it when no budget applies |
| QueryService.AddUnseen | services/query_service.py:55-62 | the inner loop keeps exactly the passages whose fingerprint is new, as `DedupeBy` of everything seen so far |
| QueryService.AddIfUnseen | services/query_service.py:56-62 | one passage is kept exactly when its fingerprint is new, and its fingerprint is remembered |
| QueryService.BuildCollectionContext | services/query_service.py:41-69 | the method computes `CollectionContext` |
| QueryService.CappedContext | services/query_service.py:64-69 | the capped, formatted and truncated context |
| QueryService.RetrievedPrefixFails | services/query_service.py:45-46 | once a key fails, the later keys are not reached |
| RoutesQuery.Response.constructor | api/routes_query.py:19 | a response starts with no headers |
| RoutesQuery.ProviderStep | api/routes_query.py:31-45 | a refused provider gives INVALID_PROVIDER; otherwise the normalized provider, with the request's model or else the provider's default |
| RoutesQuery.ActiveKeys | api/routes_query.py:65-69 | a key is active exactly when it is selected and its count is above 0 |
| RoutesQuery.ActiveKeysAppend | api/routes_query.py:65-69 | the active keys keep the selection order |
| RoutesQuery.ActiveKeysOfAllActive | api/routes_query.py:65-69 | when every selected key has vectors, all are active |
| RoutesQuery.ActiveKeysDistinct | api/routes_query.py:65-69 | distinct selected keys give distinct active keys |
| RoutesQuery.CollectionNames | api/routes_query.py:83-92 | one collection name per key, in order |
| RoutesQuery.SelectCollections | api/routes_query.py:65-90 | on success a non-empty set of registered keys that all hold vectors; otherwise VECTORSTORE_EMPTY naming the selected collections, or the internal error |
| RoutesQuery.SelectionCases | api/routes_query.py:65-80 | a selection is either the active keys with the routing reason, or the one-shot fallback to `all`, with `->fallback`, when nothing is active, fallback is allowed, `all` was not selected and holds vectors |
| RoutesQuery.NoFallbackWhenActive | api/routes_query.py:71-75 | when some selected key holds vectors there is no fallback |
| RoutesQuery.EmptySelection | api/routes_query.py:71-90 | with nothing active the request fails exactly when the fallback does not apply, with VECTORSTORE_EMPTY naming the selected collections |
| RoutesQuery.Respond | api/routes_query.py:29-179 | collection-name headers are set only for a non-empty active selection |
| RoutesQuery.HandleQuery | api/routes_query.py:19-179 | collection-name headers are set only for a non-empty active selection |
| RoutesQuery.CollectionHeaders | api/routes_query.py:94-95 | `X-RAG-Collection` is the first active name and `X-RAG-Collections` all names joined by `,`; nothing is set otherwise |
| RoutesQuery.ResponseHeaders | api/routes_query.py:23-95 | the request id header is always set, the collection headers only with active names, and other headers are kept |
| RoutesQuery.ProviderCheckedFirst | api/routes_query.py:31-45 | a refused provider gives INVALID_PROVIDER whatever the collection |
| RoutesQuery.InvalidCollectionReported | api/routes_query.py:50-63 | a routing error gives INVALID_COLLECTION |
| RoutesQuery.InvalidCollectionHint | api/routes_query.py:57-62 | the hint names the supported keys `all, eu, fr, ge, it, uk` and the maximum 2 |
| RoutesQuery.JoinedKeys | api/routes_query.py:57 | the supported keys join to `all, eu, fr, ge, it, uk` |
| RoutesQuery.RespondErrorCodes | api/routes_query.py:29-179 | every error carries a hint and one of the six codes with its fixed status |
| RoutesQuery.ErrorCodes | api/routes_query.py:19-179 | every error carries a hint; status 400 exactly for INVALID_PROVIDER, INVALID_COLLECTION and VECTORSTORE_EMPTY, 502 for LLM_CONNECTION_FAILED, 504 for LLM_TIMEOUT, 500 for INTERNAL_ERROR |
| RoutesQuery.ClientConfig | common.py:141-153 | the client is configured by resolving the handler's configuration again: the provider is kept, a non-empty model is kept trimmed, and an empty model falls through to `LLM_MODEL`, else the provider's default |
| RoutesQuery.LlmStepMapping | api/routes_query.py:97-151 | a client configuration that fails to resolve or a client that cannot be built gives LLM_CONNECTION_FAILED/502, a timeout LLM_TIMEOUT/504, any other invocation failure LLM_CONNECTION_FAILED/502, an answer the response with the resolved provider and model |
| RoutesQuery.AnswerProvenance | api/routes_query.py:92-151 | an answer comes from the resolved provider and model over collections that all hold vectors, whose names the headers carry |
| RoutesQuery.FallbackOnlyForKeywordGuess | api/routes_query.py:71-80 | the fallback happens only for a keyword guess with no requested collection or list, with reason `keyword->fallback` |
| RoutesQuery.ClientModelIsReported | api/routes_query.py:32-38 | unless the request's `llm_model` is whitespace only, the resolved model is not empty and the client is built with exactly the model the response reports |
| RoutesQuery.BlankRequestModelReachesSetting | api/routes_query.py:32-38 | a whitespace-only `llm_model` resolves to the empty model, which the response reports, while the client is built with the `LLM_MODEL` setting when it is set, else the provider's default |
| RoutesQuery.LlmModelSettingIgnored | api/routes_query.py:32-38 | unless the request's `llm_model` is whitespace only, the `LLM_MODEL` setting never changes the outcome |
| RoutesQuery.RespondDependsOnClient | api/routes_query.py:97-151 | the environment reaches the outcome only through the client's configuration |
| RoutesQuery.FilterActiveKeys | api/routes_query.py:65-69 | the loop computes the active keys, or fails when a store cannot be opened |
| RoutesQuery.ChooseCollections | api/routes_query.py:65-90 | the method computes `SelectCollections` |
| RoutesQuery.RespondSteps | api/routes_query.py:29-179 | the method computes `Respond` and sets the collection headers |
| RoutesQuery.Query | api/routes_query.py:19-179 | the handler computes `HandleQuery`, and the response headers carry the request id and the active collection names; a non-blank stored request id is kept, otherwise the request state now holds the chosen id |
| UploadService.Filter | services/upload_service.py:57-79 | a list comprehension: at most as many items, an item kept exactly when it is stored and passes, and a sub-multiset of the store |
| UploadService.StatusFilter | services/upload_service.py:55-57 | no filter without a status; otherwise exactly the stored items whose lowered status equals the trimmed, lowered filter |
| UploadService.ReasonFilter | services/upload_service.py:59-66 | no filter for an absent or blank query; otherwise exactly the stored items whose trimmed, lowered reason contains the query, a missing reason counting as empty |
| UploadService.SearchFilter | services/upload_service.py:68-79 | no filter for an absent or blank query; otherwise exactly the items where the query occurs in the lowered id, source name, collection key, status or reason |
| UploadService.ReasonFilterNeedsReason | services/upload_service.py:59-66 | an item a reason query keeps has a reason |
| UploadService.ReasonFilterAsWritten | services/upload_service.py:59-66 | as written: the text of a missing reason is Python's `None` |
| UploadService.ReasonFilterAsWrittenMatchesMissingReason | services/upload_service.py:65 | as written, the query `none` keeps a request that has no reason; the corrected filter does not |
| UploadService.AsWrittenKeepsMissingReason | services/upload_service.py:65 | as written, `none` matches the text of a missing reason |
| UploadService.ReasonFilterDropsMissingReason | services/upload_service.py:59-66 | with a missing reason as empty, `none` does not match it |
| UploadService.SearchFilterAsWritten | services/upload_service.py:68-79 | as written: the text of a missing reason is Python's `None` |
| UploadService.SearchFilterAsWrittenMatchesMissingReason | services/upload_service.py:78 | as written, the search `none` finds a request whose fields do not hold it; the corrected filter does not |
| UploadService.NoFieldHoldsNone | services/upload_service.py:74-78 | the fields of that request do not hold `none` |
| UploadService.InsertByCreated | services/upload_service.py:81 | one more item, the same items plus the new one |
| UploadService.SortByCreatedDesc | services/upload_service.py:81 | a permutation of the items |
| UploadService.InsertKeepsNewestFirst | services/upload_service.py:81 | inserting into a newest-first list keeps it newest first |
| UploadService.SortByCreatedDescNewestFirst | services/upload_service.py:81 | the sorted list is ordered by `created_at`, newest first |
| UploadService.NewestFirstPairwise | services/upload_service.py:81 | in a newest-first list no item was created before a later one |
| UploadService.ListUploadRequestsMembers | services/upload_service.py:47-81 | the filters compose by AND: an item is listed exactly when it is stored and passes every filter that applies |
| UploadService.ListUploadRequests | services/upload_service.py:47-81 | the listing is a sub-multiset of the store, sorted by `created_at` newest first |
| UploadService.ListAllIsPermutation | services/upload_service.py:47-81 | with no filter the listing is the whole store, reordered |
| UploadService.FirstWithId | services/upload_service.py:86-88 | the index of the first item with the id, or none when no item has it |
| UploadService.FindUploadRequest | services/upload_service.py:84-89 | the first item with the id and its index, or `Upload request not found` with 404 |
| UploadService.FirstWithIdIs | services/upload_service.py:86-88 | an index whose item has the id and no earlier item does is the first |
| UploadService.EnsurePendingStatus | services/upload_service.py:92-95 | passes exactly for status `pending`; otherwise 400 naming the status |
| UploadService.BuildUploadRequestMetadata | services/upload_service.py:98-111 | source, country and doc_type only; a non-blank country or doc_type wins, trimmed; otherwise the collection defaults |
| UploadService.DefaultsNotBlank | services/collection_service.py:15-22 | the collection defaults are never blank |
| UploadService.UploadMetadataComplete | services/upload_service.py:98-111 | upload metadata with a non-blank source misses no required field |
| UploadService.ResolveRequestedCollectionKey | services/upload_service.py:114-119 | absent or blank gives `all`; a resolvable value its key; an unknown value the 400 naming the supported keys |
| RoutesUpload.RequestStore.constructor | services/upload_service.py:18-44 | the store starts with the given items |
| RoutesUpload.Ingest | services/index_service.py:101-131 | ingestion of one document without reset reports the collection key and the stored count, or is refused by the hard cap |
| RoutesUpload.PendingRequest | api/routes_upload.py:32-69 | a created request names a registered collection |
| RoutesUpload.CreateUploadRequest | api/routes_upload.py:30-102 | computes `CreateOutcome`; success appends exactly the new request; an error leaves the store unchanged |
| RoutesUpload.CreatedRequestStartsPending | api/routes_upload.py:52-69 | a created request is pending, with no approval, rejection, reason or ingest, `usable` equal to the validation's, the new id, the content, the clock time, the resolved collection and the sanitized name |
| RoutesUpload.GeneratedSeedNotBlank | api/routes_upload.py:34 | the generated name `upload_<seconds>` is never blank |
| RoutesUpload.CreateErrors | api/routes_upload.py:32-38 | an unknown collection gives the 400, and a given but blank source name the 422 |
| RoutesUpload.CreatedRequestsAreUsable | api/routes_upload.py:40-62 | a created request always has its metadata, so it is usable |
| RoutesUpload.AutoApproveOffKeepsPending | api/routes_upload.py:71-72 | with auto-approve off the pending request is stored and nothing is ingested |
| RoutesUpload.AutoApprove | api/routes_upload.py:71-95 | an unusable request is rejected with the fixed reason and keeps its ingest; a usable one fails exactly when indexing fails, else is approved at `now` with the indexing result; no other field than the decision fields and the update time changes |
| RoutesUpload.AutoApproveRejectsUnusable | api/routes_upload.py:73-95 | an unusable request is rejected with `auto-approve enabled but validation failed`, and nothing is ingested |
| RoutesUpload.AutoApproveOnApproves | api/routes_upload.py:77-95 | with auto-approve on, a usable request is ingested without reset and approved with the ingest result, or the ingest error is raised |
| RoutesUpload.ApprovalCollection | api/routes_upload.py:120-128 | a registered key, or `Unsupported collection.` with 400 |
| RoutesUpload.ApproveUploadRequest | api/routes_upload.py:105-157 | computes `ApproveOutcome`; an error leaves the store unchanged; success replaces only the item at its index |
| RoutesUpload.RejectUploadRequest | api/routes_upload.py:160-178 | computes `RejectOutcome`; an error leaves the store unchanged; success replaces only the item at its index |
| RoutesUpload.UploadRequestDetail | api/routes_upload.py:23-27 | the first item with that id, or the 404 |
| RoutesUpload.AdminCheckedFirst | api/routes_upload.py:105-178 | a refused admin code gives 401 before any store access |
| RoutesUpload.ApproveRefusals | api/routes_upload.py:110-125 | an unknown id gives 404, a non-pending request 400 naming its status, an unusable one the validation 400 |
| RoutesUpload.RejectRefusals | api/routes_upload.py:165-166 | an unknown id gives 404, and the request fails exactly when it is not pending |
| RoutesUpload.ApprovedFields | api/routes_upload.py:113-154 | an approved request was pending and usable; it is approved with the resolved collection and its name, approval time, no rejection, the ingest result, and every other field kept |
| RoutesUpload.ApprovalCollectionChoice | api/routes_upload.py:121-123 | a given override wins, resolved; without one the request's own collection |
| RoutesUpload.RejectedFields | api/routes_upload.py:168-175 | a rejected request was pending; only status, trimmed reason, times, approval and ingest change |
| RoutesUpload.FirstWithIdAfterUpdate | api/routes_upload.py:154-175 | replacing the found item keeps it the first with its id |
| RoutesUpload.DecisionIsFinal | api/routes_upload.py:105-178 | once approved or rejected, a request can be neither approved nor rejected again |
| RoutesSystem.SortedStatusesAreSorted | api/routes_system.py:51 | the listed statuses are exactly the request statuses, once each, in string order |
| RoutesSystem.StatusParamError | api/routes_system.py:46-52 | an error exactly when a truthy status is not a request status after trim and lowercase, and then the 400 listing the sorted statuses |
| RoutesSystem.CountStatus | api/routes_system.py:60-63 | the count of one status is at most the number of items |
| RoutesSystem.StatusCounts | api/routes_system.py:55-63 | the counts have exactly the keys pending, approved and rejected, each the number of items with that lowered status |
| RoutesSystem.CountStatuses | api/routes_system.py:55-63 | the counting loop yields exactly the per-status counts |
| RoutesSystem.CountStatusStep | api/routes_system.py:60-63 | one more item adds one to its own status's count and nothing to the others |
| RoutesSystem.CountStatusAppend | api/routes_system.py:60-63 | counts add over concatenation |
| RoutesSystem.CountStatusPermutation | api/routes_system.py:60-63 | counts do not depend on the order of the items |
| RoutesSystem.RemoveAtMultiset | api/routes_system.py:60 | removing one item takes exactly that item out of the multiset |
| RoutesSystem.CountStatusRemoveAt | api/routes_system.py:60-63 | a count is the count without one item plus that item's own |
| RoutesSystem.CountStatusSingle | api/routes_system.py:61-63 | one item counts once, for its lowered status |
| RoutesSystem.CountsSum | api/routes_system.py:60-63 | the three counts add up to the number of items whose status is one of the three |
| RoutesSystem.CountsBounded | api/routes_system.py:60-63 | the three counts add up to at most the number of stored items |
| RoutesSystem.UploadRequests | api/routes_system.py:40-69 | the handler computes the status check, the listing with the corrected reason and search filters, and the counts |
| RoutesSystem.CountsOverStore | api/routes_system.py:60 | the counts over the unfiltered listing equal the counts over the store |
| RoutesSystem.UnfilteredIsPermutation | api/routes_system.py:60 | the unfiltered listing is the store, reordered |
| RoutesSystem.CountsIgnoreFilters | api/routes_system.py:54-63 | whatever the filters, the counts are those of the whole store, and sum to at most its size |
| RoutesSystem.ListingStatusErrors | api/routes_system.py:46-52 | the listing fails exactly for a truthy unsupported status, with `Unsupported status. Use one of: approved, pending, rejected` |
| RoutesSystem.Health | api/routes_system.py:12-28 | status `ok`, the default collection key and name, the store directory, the collection's fast vector count, and the auto-approve flag, chunking mode, query timeout and context limit as the runtime settings compute them; hence a supported mode, a timeout of at least one second and a positive limit when there is one |
| RoutesSystem.FilterCountsStatus | api/routes_system.py:15 | filtering by a status keeps exactly as many items as that status counts |
| RoutesSystem.HealthPendingMatchesCounts | api/routes_system.py:15-63 | the pending count of `/health` equals the pending count of `/upload-requests` |
| RoutesSystem.ReindexCollectionKey | api/routes_system.py:74-81 | the key to reindex is always registered |
| RoutesSystem.ReindexResolvesLikeUpload | api/routes_system.py:74-81 | the reindex key is resolved exactly as an upload's, absent or blank giving `all` |
| RoutesSystem.ReindexEndpoint | api/routes_system.py:72-82 | an unknown collection is the upload resolver's 400; otherwise the reply is exactly `reindex` on the resolved key (none or blank meaning `all`), its error wrapped as an indexing failure, which is never an unknown collection |
| RoutesSystem.ReindexEndpointUsesAllDocuments | api/routes_system.py:72-82 | for a collection that resolves, the endpoint never reports that no usable document was found, and a success indexes every loaded document |
| RoutesSystem.AdminAuth | api/routes_system.py:85-88 | `{ok: true}` exactly when the trimmed code equals the admin code; otherwise the 401 |
| BenchmarkE2e.CleanParts | scripts/benchmark_query_e2e.py:46 | no more parts than the split gives |
| BenchmarkE2e.CleanPartsMembers | scripts/benchmark_query_e2e.py:46 | a key is kept exactly when some comma-separated part, trimmed and lowered, is that key and is not blank |
| BenchmarkE2e.CleanPartsAreKept | scripts/benchmark_query_e2e.py:46 | every kept key comes from a non-blank part |
| BenchmarkE2e.KeptPartsAreClean | scripts/benchmark_query_e2e.py:46 | every non-blank part, trimmed and lowered, is kept |
| BenchmarkE2e.CleanPartsNormal | scripts/benchmark_query_e2e.py:46 | kept keys are not blank and are already trimmed and lowered |
| BenchmarkE2e.ParsedKeys | scripts/benchmark_query_e2e.py:45-58 | an error exactly when no key remains or more than `max_collections` remain; otherwise the cleaned, de-duplicated keys |
| BenchmarkE2e.ParsedKeysSpec | scripts/benchmark_query_e2e.py:45-58 | a parsed spec has between one and `max_collections` distinct, normalized keys, exactly the non-blank parts, in first-occurrence order |
| BenchmarkE2e.ParseCollectionKeys | scripts/benchmark_query_e2e.py:45-58 | the loop with `seen` and `deduped` computes the parsed keys or the error |
| BenchmarkE2e.CustomScenariosSpec | scripts/benchmark_query_e2e.py:65-70 | custom scenarios succeed exactly when every spec parses; each name is `custom_` with its keys joined by `_`, mapped to the keys of some spec |
| BenchmarkE2e.LaterSpecWins | scripts/benchmark_query_e2e.py:66-69 | a spec whose name no later spec repeats is the one stored under that name |
| BenchmarkE2e.NoSpecsGiveDefaults | scripts/benchmark_query_e2e.py:61-63 | no specs, or an empty list, give the three default scenarios |
| BenchmarkE2e.BuildScenarios | scripts/benchmark_query_e2e.py:61-70 | the loop computes the scenarios or the first parse error |
| BenchmarkE2e.CustomScenariosPrefixFails | scripts/benchmark_query_e2e.py:66-67 | once a spec fails, the later specs do not matter |
| BenchmarkE2e.QueryPayload | scripts/benchmark_query_e2e.py:142-157 | no keys beyond the seven the script writes; query and provider always; model, base URL and key exactly when non-empty, each with its given value; `collection` is the first key; `collections`, the whole list, only with several keys |
| BenchmarkMulti.AppApiInt | app_api.py:29-37 | the integer constants app_api.py defines, or the missing-attribute error |
| BenchmarkMulti.AppApiCall | app_api.py:118-146 | a call succeeds exactly when app_api.py defines the function with at least that many parameters |
| BenchmarkMulti.ParseAsWritten | scripts/benchmark_multi_collection.py:58-65 | as written: a blank spec is the invalid-spec error; a spec with keys fails on the missing `MAX_QUERY_COLLECTIONS`; a success would be the cleaned keys within that maximum |
| BenchmarkMulti.ParseAsWrittenAlwaysFails | scripts/benchmark_multi_collection.py:58-65 | as written, every spec naming a key fails on `app_api.MAX_QUERY_COLLECTIONS`; only the blank spec reaches its own error |
| BenchmarkMulti.ParseAsWrittenRejectsFr | scripts/benchmark_multi_collection.py:60 | as written `fr` is rejected; the corrected parser gives `["fr"]` |
| BenchmarkMulti.FrParses | scripts/benchmark_multi_collection.py:49-66 | the corrected parser gives `["fr"]` for `fr` |
| BenchmarkMulti.FirstUnregistered | scripts/benchmark_multi_collection.py:64-65 | none exactly when every key is registered; otherwise the error names the first unregistered key |
| BenchmarkMulti.ParsedMultiKeys | scripts/benchmark_multi_collection.py:49-66 | success exactly when keys remain, no more than the maximum, all registered; then the cleaned, de-duplicated keys |
| BenchmarkMulti.ParsedMultiKeysSpec | scripts/benchmark_multi_collection.py:49-66 | a parsed spec has between one and the maximum distinct, registered keys, exactly the non-blank parts, as the e2e parser gives |
| BenchmarkMulti.ParsersAgreeOnRegisteredKeys | scripts/benchmark_multi_collection.py:49-66 | on registered keys both parsers agree; an unknown key raises for its first occurrence |
| BenchmarkMulti.ParseCollectionKeys | scripts/benchmark_multi_collection.py:49-66 | the loops compute the corrected parse |
| BenchmarkMulti.CollectDocsAsWritten | scripts/benchmark_multi_collection.py:73 | as written: no keys give no documents; with keys, the call `get_db(key)` fails whenever app_api's `get_db` cannot take the argument; a success stays within the cap |
| BenchmarkMulti.CollectDocsAsWrittenAlwaysFails | scripts/benchmark_multi_collection.py:73 | as written, any key fails on `app_api.get_db`, which takes no argument |
| BenchmarkMulti.CollectDocsForQuery | scripts/benchmark_multi_collection.py:69-92 | the loops compute the query service's context passages: an error exactly for an unknown key, at most `max(SEARCH_K * keys, SEARCH_K)` passages, no two with one fingerprint |
| BenchmarkMulti.MultiScenariosSpec | scripts/benchmark_multi_collection.py:140-148 | scenarios succeed exactly when every spec parses; every name is its keys' `custom_` name, with one to the maximum registered keys |
| BenchmarkMulti.BuildScenarios | scripts/benchmark_multi_collection.py:140-148 | the loop computes the scenarios or the first parse error |
| SharedJs.ReplaceAll | web/js/shared.js:3-5 | replacing every occurrence of a character by text without it leaves none, and adds no character not in the input or the replacement |
| SharedJs.ReplaceAllAppend | web/js/shared.js:3-5 | replacing distributes over concatenation |
| SharedJs.ReplaceAllAbsent | web/js/shared.js:3-5 | a string without the character is unchanged |
| SharedJs.ReplaceAllOfMatch | web/js/shared.js:3-5 | the character alone becomes the replacement |
| SharedJs.EscapeCharSteps | web/js/shared.js:3-5 | the three chained replacements on one character give its entity, or the character itself |
| SharedJs.EscapeHtmlIsPerChar | web/js/shared.js:1-6 | `escapeHtml` escapes character by character: `&`, `<`, `>` become their entities and nothing else changes |
| SharedJs.EscapeHtml | web/js/shared.js:1-6 | the escaped text contains no `<` and no `>` |
| SharedJs.EscapeHtmlAmpersands | web/js/shared.js:1-6 | every `&` of the escaped text begins `&amp;`, `&lt;` or `&gt;` |
| SharedJs.EscapedAmpersands | web/js/shared.js:1-6 | the same, for the per-character escaping |
| SharedJs.Unescape | web/js/shared.js:1-6 | decoding the three entities never lengthens the text |
| SharedJs.EscapeHtmlRoundTrip | web/js/shared.js:1-6 | decoding the escaped text gives back the input |
| SharedJs.UnescapeEscaped | web/js/shared.js:1-6 | decoding undoes the per-character escaping |
| SharedJs.EscapeHtmlInjective | web/js/shared.js:1-6 | two inputs with the same escaping are equal |
| SharedJs.JsOr | web/js/shared.js:16-24 | the JavaScript or-operator is truthy exactly when one of its operands is |
| SharedJs.DetailMessage | web/js/shared.js:12-17 | a string detail is the message; an object detail gives its truthy `message` or its JSON text; anything else the empty string |
| SharedJs.ParseApiError | web/js/shared.js:9-11 | data that is falsy or not an object gives the fallback with an empty hint and request id |
| SharedJs.MessagePrecedence | web/js/shared.js:12-22 | the message is `data.message`, else a non-empty string detail, else the detail's message, else its JSON text, else the fallback |
| SharedJs.HintPrecedence | web/js/shared.js:18-20 | the hint is `data.hint`, else the object detail's hint, else empty |
| SharedJs.RequestIdOrEmpty | web/js/shared.js:24 | the request id is truthy or empty, and is `data.request_id` when that is truthy |
| SharedJs.MessageNeverEmpty | web/js/shared.js:22 | with a non-empty fallback the message is always truthy |
| SharedJs.FormatApiError | web/js/shared.js:28-33 | the message, then a `hint: …` segment only for a truthy hint, then a `request_id: …` segment only for a truthy request id, joined by a bar with spaces |
| SharedJs.FormatOfNonObject | web/js/shared.js:9-33 | the formatted error of non-object data is the fallback alone |
| SharedJs.FormatOfStringFields | web/js/shared.js:8-33 | a response with a string message, hint and request id formats as the message followed by the non-empty segments |
| AppPage.RenderMarkdownBasic | web/js/app_page.js:35-80 | the loop computes the rendered HTML, whose `<ul>` and `<pre><code>` are all closed |
| AppPage.RenderLine | web/js/app_page.js:40-75 | one line's pass of the loop appends exactly its chunks and moves to its next state |
| AppPage.PushTextLine | web/js/app_page.js:56-75 | a list line opens a list when none is open and stays in it; any other line closes an open list first |
| AppPage.RenderSnoc | web/js/app_page.js:40-76 | rendering one more line appends that line's step to the rendering so far |
| AppPage.CodeModeIsFenceParity | web/js/app_page.js:41-50 | after a sequence of lines the renderer is in code exactly when it has seen an odd number of fence lines |
| AppPage.CodeLinesVerbatim | web/js/app_page.js:51-54 | a line inside code is emitted escaped with a newline, never as a header or list item, and leaves the state alone |
| AppPage.FenceToggles | web/js/app_page.js:41-50 | a fence line toggles code mode, opening or closing the code block |
| AppPage.WrappedIsNotTag | web/js/app_page.js:57-75 | wrapped content is not one of the block tags |
| AppPage.ParagraphIsNotTag | web/js/app_page.js:72-75 | a paragraph is not one of the block tags |
| AppPage.CodeLineIsNotTag | web/js/app_page.js:51-54 | an escaped code line is not one of the block tags |
| AppPage.PlainChunk | web/js/app_page.js:51-75 | a content chunk does not change the open-tag balance |
| AppPage.StepBalance | web/js/app_page.js:40-76 | each line's chunks open or close exactly as many lists and code blocks as its state change says |
| AppPage.TextStepBalance | web/js/app_page.js:56-75 | outside code a line never opens or closes code, and its list tags follow the list state |
| AppPage.ContentChunkIsNotTag | web/js/app_page.js:57-75 | headers, list items and paragraphs are not block tags |
| AppPage.RenderBalance | web/js/app_page.js:40-76 | after any lines the open lists and code blocks are exactly those the state has open |
| AppPage.OpenAppend | web/js/app_page.js:40-79 | the tag balance adds over concatenation |
| AppPage.FinalCloseCounts | web/js/app_page.js:77-78 | the final closes close exactly what is still open |
| AppPage.ChunksBalanced | web/js/app_page.js:35-80 | the output has as many `<ul>` as `</ul>` and as many `<pre><code>` as `</code></pre>` |
| Text.LeadingHashes | web/js/app_page.js:57-65 | the number of leading `#` characters, the header level both the renderer and the document check read: all are `#`, and the next is not |
| AppPage.LeadingHashesAtLeast | web/js/app_page.js:57-65 | a run of `#` is counted at least in full |
| AppPage.HeaderPrefix | web/js/app_page.js:57-65 | a line starts with `n` hashes and a space exactly when it has `n` leading hashes followed by a space |
| AppPage.HeaderLevelIsHashCount | web/js/app_page.js:57-65 | outside code, a line with two to four hashes and a space becomes the header of that level, checked longest first, and closes an open list |
| AppPage.ListClosedByOtherLines | web/js/app_page.js:56-75 | outside code, a list line opens `<ul>` only when none is open and never closes it; any other line closes an open list and opens none |
| AppPage.BlankLineBreaks | web/js/app_page.js:69-71 | a blank line closes an open list and emits `<br>` |
| AppPage.Items | web/js/app_page.js:66-68 | one list item per line |
| AppPage.ListLinesShareOneList | web/js/app_page.js:66-68 | consecutive `- ` lines render as one `<ul>` holding one item per line |
| AppPage.ListLineNotHeader | web/js/app_page.js:57-68 | a list line is not a header |
| AppPage.GetSelectedCollectionKeys | web/js/app_page.js:114-121 | at most two keys, exactly the non-empty selections, no duplicates, the primary first |

## Left out

- File and network I/O: the JSON request store is read and written whole, and the lock around it is not modelled. Each handler is one atomic step on `RoutesUpload.RequestStore`.
- Concurrency: request handling and the upload lock are left out.
- Clocks, `uuid4()`, `time.time()` and `perf_counter()` are parameters.
- Timings and latencies are left out.
- Floating point: the usage ratios and the usable ratio with its percentage text are left out, as are `percentile` and `mean` in the benchmark scripts and `Math.round` in the UI.
- The LLM, Chroma, the embeddings and the LangChain splitters are inputs: a split function, a fast count function, a retrieval function, or a stored count.
- The thread-pool timeout of `/query` is an abstract outcome of the LLM call.
- UploadService.SortByCreatedDesc: the contract does not state Python's stable order for requests with equal `created_at`. It is proved a permutation in newest-first order. Timestamps are compared as strings in code-point order, as Python compares them.
- Logging and log formats are left out.
- `JSON.stringify` is a parameter of `SharedJs.ParseApiError`.
- JavaScript numbers are integers in `SharedJs.JsValue`.
- `String()` of non-string values is modelled only for the value kinds `JsValue` has.
- The DOM wiring and fetch handlers of the web pages are left out, and so is web/js/admin_page.js.
- The benchmarks' network calls, `health_check`, `call_query`, `run_scenario`, `ensure_indexed`, `benchmark_scenario` and the report files are not modelled.
- Python `str.lower()` is modelled for ASCII letters only. The documents are Korean and English, and Hangul has no case.
- `str.isalnum` is modelled as ASCII letters and digits plus Hangul. `int()` parsing is modelled as an optional sign and ASCII digits, with single underscores between digits.
- Of app_api.py, the model keeps only the constants and function arities that the multi-collection benchmark reads. Its legacy single-collection endpoints are not part of this model.
- FastAPI request validation by pydantic is left out: handlers receive already-typed requests, and only the hint built from a validation error is modelled.
- CORS, static files and the HTML pages (api/routes_docs_ui.py) are left out.

## Findings

| source | as written | input that shows it | evidently intended | confidence | as-written member | corrected member |
|---|---|---|---|---|---|---|
| services/upload_service.py:65 | the reason filter matches against `str(item.get("rejected_reason", ""))`, which is `None` for a stored null reason | a request with `rejected_reason: null` and the filter `reason=none` | a missing reason counts as empty text and matches no non-blank query | not executed | UploadService.ReasonFilterAsWrittenMatchesMissingReason | UploadService.ReasonFilter |
| services/upload_service.py:78 | the search filter joins `str(item.get("rejected_reason", ""))`, `None` for a null reason, into the searched text | a pending request `r1` with a null reason and the search `q=none` | the search finds only text the request holds | not executed | UploadService.SearchFilterAsWrittenMatchesMissingReason | UploadService.SearchFilter |
| scripts/benchmark_multi_collection.py:60-65 | the parser reads `app_api.MAX_QUERY_COLLECTIONS` and calls `app_api.get_collection_config`, neither of which app_api.py defines | `--scenario fr` | at most the service's maximum number of collections, each a registered key | not executed | BenchmarkMulti.ParseAsWrittenRejectsFr | BenchmarkMulti.ParsedMultiKeysSpec |
| scripts/benchmark_multi_collection.py:73 | each collection's store is opened with `app_api.get_db(key)`, but app_api.py's `get_db` takes no argument | any query with collection keys `["all"]` | the store of that collection, as the service layer's `get_db(collection_key)` opens it | not executed | BenchmarkMulti.CollectDocsAsWrittenAlwaysFails | BenchmarkMulti.CollectDocsForQuery |
