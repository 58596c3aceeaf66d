/** services/index_service.py: the bookkeeping around ingestion, which covers
    - which validated documents are usable and which are rejected (and why);
    - the counts in the validation summary;
    - the hard-cap check on the projected number of vectors;
    - the whitelist of documents that may be served.
    The vector store, the embedder and the splitters are inputs here. */
module IndexService {
  import opened Wrappers
  import opened Text
  import opened Errors
  import opened Settings
  import opened ValidateDoc
  import Common
  import CollectionService
  import RuntimeService

  const HARD_CAP_MESSAGE: string := "Hard cap exceeded for selected collection."
  const HARD_CAP_HINT: string := "컬렉션 분리 또는 기존 데이터 정리 후 다시 시도하세요."
  const NO_USABLE_MESSAGE: string := "No usable markdown files after validation."

  // ---------------------------------------------------------------------------
  // collect_rejected_items
  // ---------------------------------------------------------------------------

  /** One item of the `rejected` list. */
  datatype RejectedItem = RejectedItem(source: string, reasons: seq<string>)

  /** The item a report contributes, if its reasons are non-empty. */
  function RejectedOf(report: Report): seq<RejectedItem> {
    if Reasons(report) != [] then [RejectedItem(report.source, Reasons(report))] else []
  }

  /** The rejected items of `reports`, in report order. */
  function RejectedItems(reports: seq<Report>): (r: seq<RejectedItem>)
    ensures |r| <= |reports|
  {
    if reports == [] then [] else RejectedItems(reports[..|reports| - 1]) + RejectedOf(reports[|reports| - 1])
  }

  /** Rejection is decided report by report: the items of a concatenation are
      the items of each part, in order. */
  lemma {:induction false} RejectedItemsAppend(a: seq<Report>, b: seq<Report>)
    ensures RejectedItems(a + b) == RejectedItems(a) + RejectedItems(b)
    decreases |b|
  {
    if b == [] {
      assert a + b == a;
    } else {
      var b' := b[..|b| - 1];
      assert (a + b)[..|a + b| - 1] == a + b';
      assert (a + b)[|a + b| - 1] == b[|b| - 1];
      RejectedItemsAppend(a, b');
    }
  }

  /** Every item carries a non-empty list of reasons, and its source is the
      source of some rejected report. */
  lemma {:induction false} RejectedItemsHaveReasons(reports: seq<Report>, k: nat)
    requires k < |RejectedItems(reports)|
    ensures RejectedItems(reports)[k].reasons != []
    ensures exists i :: 0 <= i < |reports| && Reasons(reports[i]) != [] &&
                        RejectedItems(reports)[k] == RejectedItem(reports[i].source, Reasons(reports[i]))
    decreases |reports|
  {
    var n := |reports| - 1;
    var init := RejectedItems(reports[..n]);
    if k < |init| {
      RejectedItemsHaveReasons(reports[..n], k);
      var i :| 0 <= i < n && Reasons(reports[..n][i]) != [] &&
               init[k] == RejectedItem(reports[..n][i].source, Reasons(reports[..n][i]));
      assert reports[..n][i] == reports[i];
    } else {
      assert RejectedItems(reports)[k] == RejectedItem(reports[n].source, Reasons(reports[n]));
    }
  }

  /** `collect_rejected_items`. The reports come from
      `validate_loaded_documents`, which always sets a source, so the
      `unknown` default for a missing source never applies. */
  method CollectRejectedItems(reports: seq<Report>) returns (rejected: seq<RejectedItem>)
    ensures rejected == RejectedItems(reports)
  {
    rejected := [];
    for i := 0 to |reports|
      invariant rejected == RejectedItems(reports[..i])
    {
      assert reports[..i + 1][..i] == reports[..i];
      var reasons := Reasons(reports[i]);
      if reasons != [] {
        rejected := rejected + [RejectedItem(reports[i].source, reasons)];
      }
    }
    assert reports[..|reports|] == reports;
  }

  // ---------------------------------------------------------------------------
  // The partition in reindex
  // ---------------------------------------------------------------------------

  /** `[doc for doc, report in zip(docs, reports) if report["usable"]]`; `zip`
      stops at the shorter list. */
  function UsableDocs(docs: seq<Common.Document>, reports: seq<Report>): (r: seq<Common.Document>)
    ensures |r| <= |docs|
  {
    if docs == [] || reports == [] then []
    else (if reports[0].usable then [docs[0]] else []) + UsableDocs(docs[1..], reports[1..])
  }

  /** The filter keeps order: on aligned lists it splits over a concatenation. */
  lemma {:induction false} UsableDocsAppend(d1: seq<Common.Document>, r1: seq<Report>, d2: seq<Common.Document>, r2: seq<Report>)
    requires |d1| == |r1|
    ensures UsableDocs(d1 + d2, r1 + r2) == UsableDocs(d1, r1) + UsableDocs(d2, r2)
    decreases |d1|
  {
    if d1 == [] {
      assert d1 + d2 == d2 && r1 + r2 == r2;
    } else {
      assert (d1 + d2)[1..] == d1[1..] + d2 && (r1 + r2)[1..] == r1[1..] + r2;
      UsableDocsAppend(d1[1..], r1[1..], d2, r2);
    }
  }

  /** The number of reports with at least one warning. */
  function WarningDocs(reports: seq<Report>): (n: nat)
    ensures n <= |reports|
  {
    if reports == [] then 0 else (if reports[0].warnings != [] then 1 else 0) + WarningDocs(reports[1..])
  }

  /** The reports `validate_markdown_text` produces: usable exactly when there
      are no reasons. */
  predicate WellFormed(reports: seq<Report>) {
    forall i :: 0 <= i < |reports| ==> (reports[i].usable <==> reports[i].missing == [])
  }

  /** Every document is usable or rejected, never both: the usable documents
      and the rejected items together account for all documents. */
  lemma {:induction false} PartitionCounts(docs: seq<Common.Document>, reports: seq<Report>)
    requires |docs| == |reports| && WellFormed(reports)
    ensures |UsableDocs(docs, reports)| + |RejectedItems(reports)| == |docs|
    decreases |docs|
  {
    if docs != [] {
      assert WellFormed(reports[1..]) by {
        forall i | 0 <= i < |reports[1..]|
          ensures reports[1..][i].usable <==> reports[1..][i].missing == []
        {
          assert reports[1..][i] == reports[i + 1];
        }
      }
      PartitionCounts(docs[1..], reports[1..]);
      assert reports == [reports[0]] + reports[1..];
      RejectedItemsAppend([reports[0]], reports[1..]);
      assert RejectedItems([reports[0]]) == RejectedOf(reports[0]) by {
        assert [reports[0]][..0] == [];
      }
    }
  }

  /** The reports of loaded documents are well formed. */
  lemma DocumentReportsWellFormed(docs: seq<Common.Document>)
    ensures |DocumentReports(docs)| == |docs| && WellFormed(DocumentReports(docs))
  {
    var reports := DocumentReports(docs);
    forall i | 0 <= i < |reports|
      ensures reports[i].usable <==> reports[i].missing == []
    {
      DocumentReportsAt(docs, i);
    }
  }

  /** A document loaded from a file with a non-blank name is always usable. */
  lemma LoadedMetadataComplete(name: string, text: string)
    requires !IsBlank(name)
    ensures DocumentReport(Common.Document(text, Common.DocumentMetadata(name))).usable
  {
    MetadataComplete(name);
  }

  /** The metadata of a loaded file carries a non-blank source, country and
      document type whenever the file name is non-blank. */
  lemma MetadataComplete(name: string)
    requires !IsBlank(name)
    ensures MetadataMissing(Common.DocumentMetadata(name)) == []
  {
    var m := Common.DocumentMetadata(name);
    assert !IsBlank(m["country"]) by {
      var stem := Common.Stem(name);
      if stem in Common.COUNTRY_BY_STEM {
        var v := Common.COUNTRY_BY_STEM[stem];
        assert v in {"all", "france", "germany", "italy", "uk"};
        assert !IsSpace(v[0]);
      } else {
        assert !IsSpace("unknown"[0]);
      }
    }
    assert !IsBlank(m["doc_type"]) by {
      if m["doc_type"] == "summary" { assert !IsSpace("summary"[0]); } else { assert !IsSpace("country"[0]); }
    }
    MetadataMissingSpec(m);
  }

  /** Every document loaded from non-blank file names is usable. */
  lemma {:induction false} LoadedDocumentsUsable(fileNames: seq<string>, fileExists: string -> bool, readText: string -> string)
    requires forall i :: 0 <= i < |fileNames| ==> !IsBlank(fileNames[i])
    ensures forall i :: 0 <= i < |Common.LoadedDocuments(fileNames, fileExists, readText)| ==>
              DocumentReport(Common.LoadedDocuments(fileNames, fileExists, readText)[i]).usable
    decreases |fileNames|
  {
    if fileNames != [] {
      var init := fileNames[..|fileNames| - 1];
      var name := fileNames[|fileNames| - 1];
      LoadedDocumentsUsable(init, fileExists, readText);
      if fileExists(name) {
        LoadedMetadataComplete(name, readText(name));
      }
    }
  }

  /** When every report is usable, no document is filtered out. */
  lemma {:induction false} UsableDocsOfAllUsable(docs: seq<Common.Document>, reports: seq<Report>)
    requires |docs| <= |reports|
    requires forall i :: 0 <= i < |docs| ==> reports[i].usable
    ensures UsableDocs(docs, reports) == docs
    decreases |docs|
  {
    if docs != [] {
      assert forall i :: 0 <= i < |docs| - 1 ==> reports[1..][i] == reports[i + 1];
      UsableDocsOfAllUsable(docs[1..], reports[1..]);
    }
  }

  // ---------------------------------------------------------------------------
  // build_validation_summary
  // ---------------------------------------------------------------------------

  /** The integer and text parts of the validation summary; `usable_ratio` is
      a float and only its rendering, `ratioText`, is carried. */
  datatype ValidationSummary = ValidationSummary(totalDocs: int, usableDocs: int, rejectedDocs: int, warningDocs: int,
                                                 summaryText: string, rejected: seq<RejectedItem>)

  /** `total=…, usable=…, rejected=…, warnings=…, usable_ratio=…`. */
  function SummaryText(total: int, usable: int, rejected: int, warnings: int, ratioText: string): string {
    ("total=" + IntToString(total) + ", ")
    + ("usable=" + IntToString(usable))
    + (", rejected=" + IntToString(rejected) + ", warnings=" + IntToString(warnings) + ", usable_ratio=" + ratioText)
  }

  /** `build_validation_summary`: the counts are echoed, the rejected count is
      the number of rejected items. */
  function BuildValidationSummary(totalDocs: int, usableDocs: int, rejectedItems: seq<RejectedItem>, warningDocs: int,
                                  ratioText: string): (s: ValidationSummary)
    ensures s.totalDocs == totalDocs && s.usableDocs == usableDocs && s.warningDocs == warningDocs
    ensures s.rejectedDocs == |rejectedItems| && s.rejected == rejectedItems
  {
    ValidationSummary(totalDocs, usableDocs, |rejectedItems|, warningDocs,
                      SummaryText(totalDocs, usableDocs, |rejectedItems|, warningDocs, ratioText), rejectedItems)
  }

  /** The summary text names the usable count. */
  lemma SummaryTextNamesUsable(totalDocs: int, usableDocs: int, rejectedItems: seq<RejectedItem>, warningDocs: int,
                               ratioText: string)
    ensures Contains(BuildValidationSummary(totalDocs, usableDocs, rejectedItems, warningDocs, ratioText).summaryText,
                     "usable=" + IntToString(usableDocs))
  {
    ContainsInfix("total=" + IntToString(totalDocs) + ", ", "usable=" + IntToString(usableDocs),
                  ", rejected=" + IntToString(|rejectedItems|) + ", warnings=" + IntToString(warningDocs)
                  + ", usable_ratio=" + ratioText);
  }

  // ---------------------------------------------------------------------------
  // index_documents_for_collection
  // ---------------------------------------------------------------------------

  /** Why ingestion stops. Unknown keys raise a ValueError; the others are HTTP
      400 responses. */
  datatype IndexError =
    | UnknownCollection(error: ValueError)
    | HardCapExceeded(collection: string, collectionKey: string, projectedVectors: int, hardCap: int)
    | NoMarkdownFiles
    | NoUsableDocuments(validation: ValidationSummary)

  /** The `chunking` part of an ingest result. */
  datatype ChunkingSummary = ChunkingSummary(mode: string, tokenEncoding: string, chunkSize: nat, chunkOverlap: nat)

  datatype IngestResult = IngestResult(chunksAdded: nat, vectors: int, cap: CollectionService.CapStatus,
                                       collection: string, collectionKey: string, chunking: ChunkingSummary)

  /** The count after ingestion: a reset starts from zero, otherwise the
      current count (0 when it cannot be read) grows by the chunks. */
  function ProjectedVectors(reset: bool, current: Option<int>, chunkCount: nat): int {
    if reset then chunkCount else current.GetOr(0) + chunkCount
  }

  /** `index_documents_for_collection`, where
      - `chunks` is what `split_by_markdown_headers` made of the documents;
      - `countFast` reads a collection's count by name;
      - `storedCount` is the count the store reports after writing.
      The hard cap is checked before anything is written. */
  function IndexDocumentsForCollection(collectionKey: string, reset: bool, chunking: RuntimeService.ChunkingConfig,
                                       chunks: seq<Common.Document>, countFast: string -> Option<int>,
                                       storedCount: int): (r: Result<IngestResult, IndexError>)
    ensures r.Err? ==> r.error.UnknownCollection? || r.error.HardCapExceeded?
    ensures (r.Err? && r.error.UnknownCollection?) <==> collectionKey !in CollectionKeys()
    ensures (r.Err? && r.error.HardCapExceeded?) <==>
              collectionKey in CollectionKeys() &&
              ProjectedVectors(reset, countFast(CollectionService.GetCollectionName(collectionKey).value), |chunks|) > COLLECTION_HARD_CAP
    ensures r.Err? && r.error.HardCapExceeded? ==>
              r.error.hardCap == COLLECTION_HARD_CAP && r.error.collectionKey == collectionKey &&
              r.error.collection == CollectionService.GetCollectionName(collectionKey).value &&
              r.error.projectedVectors == ProjectedVectors(reset, countFast(r.error.collection), |chunks|)
    ensures r.Ok? ==> r.value.chunksAdded == |chunks| && r.value.vectors == storedCount
                      && r.value.cap == CollectionService.CalculateCapStatus(storedCount)
                      && r.value.collectionKey == collectionKey
  {
    match CollectionService.GetCollectionName(collectionKey)
    case Err(e) => Err(UnknownCollection(e))
    case Ok(name) =>
      var projected := ProjectedVectors(reset, countFast(name), |chunks|);
      if projected > COLLECTION_HARD_CAP then
        Err(HardCapExceeded(name, collectionKey, projected, COLLECTION_HARD_CAP))
      else
        Ok(IngestResult(|chunks|, storedCount, CollectionService.CalculateCapStatus(storedCount), name, collectionKey,
                        ChunkingSummary(chunking.mode, chunking.tokenEncoding, CHUNK_SIZE, CHUNK_OVERLAP)))
  }

  /** Exactly the hard cap is still allowed; one more vector is refused. */
  lemma HardCapBoundary(collectionKey: string, chunking: RuntimeService.ChunkingConfig,
                        chunks: seq<Common.Document>, countFast: string -> Option<int>, storedCount: int)
    requires collectionKey in CollectionKeys()
    ensures |chunks| == COLLECTION_HARD_CAP ==>
              IndexDocumentsForCollection(collectionKey, true, chunking, chunks, countFast, storedCount).Ok?
    ensures |chunks| == COLLECTION_HARD_CAP + 1 ==>
              IndexDocumentsForCollection(collectionKey, true, chunking, chunks, countFast, storedCount).Err?
  {
  }

  /** A refused ingestion is decided before any write: the outcome does not
      depend on what the store would hold afterwards. */
  lemma CapRefusalBeforeWrite(collectionKey: string, reset: bool, chunking: RuntimeService.ChunkingConfig,
                              chunks: seq<Common.Document>, countFast: string -> Option<int>, stored1: int, stored2: int)
    ensures IndexDocumentsForCollection(collectionKey, reset, chunking, chunks, countFast, stored1).Err? ==>
              IndexDocumentsForCollection(collectionKey, reset, chunking, chunks, countFast, stored2)
              == IndexDocumentsForCollection(collectionKey, reset, chunking, chunks, countFast, stored1)
  {
  }

  // ---------------------------------------------------------------------------
  // reindex
  // ---------------------------------------------------------------------------

  datatype ReindexResult = ReindexResult(docs: nat, docsTotal: nat, chunks: nat, vectors: int, collection: string,
                                         collectionKey: string, cap: CollectionService.CapStatus,
                                         chunking: ChunkingSummary, validation: ValidationSummary)

  /** The validation summary `reindex` builds for the loaded documents. */
  function SummaryOf(docs: seq<Common.Document>, ratioText: string): ValidationSummary {
    var reports := DocumentReports(docs);
    BuildValidationSummary(|docs|, |UsableDocs(docs, reports)|, RejectedItems(reports), WarningDocs(reports), ratioText)
  }

  /** Every loaded document is counted once, either as usable or as rejected. */
  lemma SummaryOfAccountsForAll(docs: seq<Common.Document>, ratioText: string)
    ensures SummaryOf(docs, ratioText).totalDocs == |docs|
    ensures SummaryOf(docs, ratioText).usableDocs + SummaryOf(docs, ratioText).rejectedDocs == |docs|
    ensures SummaryOf(docs, ratioText).usableDocs == |UsableDocs(docs, DocumentReports(docs))|
    ensures SummaryOf(docs, ratioText).warningDocs == WarningDocs(DocumentReports(docs))
  {
    DocumentReportsWellFormed(docs);
    PartitionCounts(docs, DocumentReports(docs));
  }

  /** The ingestion step of `reindex`, once usable documents are known. */
  function IngestUsable(reset: bool, collectionKey: string, name: string, docsTotal: nat, usable: seq<Common.Document>,
                        chunking: RuntimeService.ChunkingConfig, split: seq<Common.Document> -> seq<Common.Document>,
                        countFast: string -> Option<int>, storedCount: int, summary: ValidationSummary): (r: Result<ReindexResult, IndexError>)
    ensures r.Err? ==> r.error.UnknownCollection? || r.error.HardCapExceeded?
    ensures r.Err? && r.error.UnknownCollection? ==> collectionKey !in CollectionKeys()
    ensures r.Ok? ==> r.value.docs == |usable| && r.value.docsTotal == docsTotal && r.value.chunks == |split(usable)|
                      && r.value.validation == summary && r.value.collection == name
  {
    match IndexDocumentsForCollection(collectionKey, reset, chunking, split(usable), countFast, storedCount)
    case Err(e) => Err(e)
    case Ok(ingest) =>
      Ok(ReindexResult(|usable|, docsTotal, ingest.chunksAdded, ingest.vectors, name, collectionKey,
                       ingest.cap, ingest.chunking, summary))
  }

  /** `reindex` once the documents of collection `name` are loaded. */
  function ReindexLoaded(reset: bool, collectionKey: string, name: string, docs: seq<Common.Document>,
                         chunking: RuntimeService.ChunkingConfig, split: seq<Common.Document> -> seq<Common.Document>,
                         countFast: string -> Option<int>, storedCount: int, ratioText: string): (r: Result<ReindexResult, IndexError>)
    ensures r.Err? && r.error.UnknownCollection? ==> collectionKey !in CollectionKeys()
  {
    if docs == [] then Err(NoMarkdownFiles)
    else if UsableDocs(docs, DocumentReports(docs)) == [] then Err(NoUsableDocuments(SummaryOf(docs, ratioText)))
    else IngestUsable(reset, collectionKey, name, |docs|, UsableDocs(docs, DocumentReports(docs)), chunking, split,
                      countFast, storedCount, SummaryOf(docs, ratioText))
  }

  /** The documents `reindex` loads for a registered key; none for an
      unknown one. */
  function ConfiguredDocs(collectionKey: string, fileExists: string -> bool, readText: string -> string): seq<Common.Document> {
    match CollectionService.GetCollectionConfig(collectionKey)
    case Ok(config) => Common.LoadedDocuments(config.fileNames, fileExists, readText)
    case Err(_) => []
  }

  /** `reindex`, where
      - `fileExists` and `readText` stand for the data directory;
      - `split` stands for the splitters;
      - `countFast` and `storedCount` stand for the store, as above;
      - `ratioText` is the rendered usable ratio. */
  function Reindex(reset: bool, collectionKey: string, fileExists: string -> bool, readText: string -> string,
                   chunking: RuntimeService.ChunkingConfig, split: seq<Common.Document> -> seq<Common.Document>,
                   countFast: string -> Option<int>, storedCount: int, ratioText: string): (r: Result<ReindexResult, IndexError>)
    ensures (r.Err? && r.error.UnknownCollection?) <==> collectionKey !in CollectionKeys()
    ensures collectionKey in CollectionKeys() ==>
              r == ReindexLoaded(reset, collectionKey, CollectionService.GetCollectionConfig(collectionKey).value.name,
                                 ConfiguredDocs(collectionKey, fileExists, readText), chunking, split, countFast,
                                 storedCount, ratioText)
  {
    match CollectionService.GetCollectionConfig(collectionKey)
    case Err(e) => Err(UnknownCollection(e))
    case Ok(config) =>
      ReindexLoaded(reset, collectionKey, config.name, Common.LoadedDocuments(config.fileNames, fileExists, readText),
                    chunking, split, countFast, storedCount, ratioText)
  }

  /** The errors of `reindex` on loaded documents: no document at all, or no
      usable document. */
  lemma ReindexLoadedErrors(reset: bool, collectionKey: string, name: string, docs: seq<Common.Document>,
                            chunking: RuntimeService.ChunkingConfig, split: seq<Common.Document> -> seq<Common.Document>,
                            countFast: string -> Option<int>, storedCount: int, ratioText: string)
    ensures var r := ReindexLoaded(reset, collectionKey, name, docs, chunking, split, countFast, storedCount, ratioText);
            ((r.Err? && r.error.NoMarkdownFiles?) <==> docs == [])
            && ((r.Err? && r.error.NoUsableDocuments?) <==> docs != [] && UsableDocs(docs, DocumentReports(docs)) == [])
  {
  }

  /** The "no usable documents" error carries the validation summary, in
      which every document is rejected; it is raised before ingestion. */
  lemma ReindexNoUsableSummary(reset: bool, collectionKey: string, name: string, docs: seq<Common.Document>,
                               chunking: RuntimeService.ChunkingConfig, split: seq<Common.Document> -> seq<Common.Document>,
                               countFast: string -> Option<int>, storedCount: int, ratioText: string)
    ensures var r := ReindexLoaded(reset, collectionKey, name, docs, chunking, split, countFast, storedCount, ratioText);
            r.Err? && r.error.NoUsableDocuments? ==>
              r.error.validation == SummaryOf(docs, ratioText) && r.error.validation.rejectedDocs == |docs|
  {
    if docs != [] && UsableDocs(docs, DocumentReports(docs)) == [] {
      SummaryOfAccountsForAll(docs, ratioText);
    }
  }

  /** A successful `reindex` counts the usable documents in `docs`, all of
      them in `docs_total`, and in `chunks` the chunks split from the usable
      ones. */
  lemma ReindexLoadedCounts(reset: bool, collectionKey: string, name: string, docs: seq<Common.Document>,
                            chunking: RuntimeService.ChunkingConfig, split: seq<Common.Document> -> seq<Common.Document>,
                            countFast: string -> Option<int>, storedCount: int, ratioText: string)
    ensures var r := ReindexLoaded(reset, collectionKey, name, docs, chunking, split, countFast, storedCount, ratioText);
            var usable := UsableDocs(docs, DocumentReports(docs));
            r.Ok? ==>
              r.value.docs == |usable| > 0 && r.value.docsTotal == |docs| && r.value.chunks == |split(usable)|
              && r.value.validation == SummaryOf(docs, ratioText) && r.value.collection == name
              && r.value.validation.usableDocs + r.value.validation.rejectedDocs == |docs|
  {
    SummaryOfAccountsForAll(docs, ratioText);
  }

  /** The file names of every registered collection are non-blank. */
  lemma RegisteredFileNamesNotBlank(key: string)
    requires key in CollectionKeys()
    ensures forall i :: 0 <= i < |CollectionService.GetCollectionConfig(key).value.fileNames| ==>
              !IsBlank(CollectionService.GetCollectionConfig(key).value.fileNames[i])
  {
    var names := CollectionService.GetCollectionConfig(key).value.fileNames;
    forall i | 0 <= i < |names|
      ensures !IsBlank(names[i])
    {
      assert names[i] in Common.DEFAULT_FILE_NAMES;
      assert !IsSpace(names[i][0]);
    }
  }

  /** Every document loaded for a registered collection is usable. */
  lemma ConfiguredDocsUsable(collectionKey: string, fileExists: string -> bool, readText: string -> string)
    requires collectionKey in CollectionKeys()
    ensures var docs := ConfiguredDocs(collectionKey, fileExists, readText);
            UsableDocs(docs, DocumentReports(docs)) == docs
  {
    var docs := ConfiguredDocs(collectionKey, fileExists, readText);
    RegisteredFileNamesNotBlank(collectionKey);
    LoadedDocumentsUsable(CollectionService.GetCollectionConfig(collectionKey).value.fileNames, fileExists, readText);
    forall i | 0 <= i < |docs|
      ensures DocumentReports(docs)[i].usable
    {
      DocumentReportsAt(docs, i);
    }
    DocumentReportsWellFormed(docs);
    UsableDocsOfAllUsable(docs, DocumentReports(docs));
  }

  /** The documents of a registered collection always carry their metadata,
      so `reindex` of a registered key never fails for lack of usable
      documents, and every loaded document is ingested. */
  lemma ReindexOfRegisteredUsesAllDocuments(reset: bool, collectionKey: string, fileExists: string -> bool,
                                            readText: string -> string, chunking: RuntimeService.ChunkingConfig,
                                            split: seq<Common.Document> -> seq<Common.Document>,
                                            countFast: string -> Option<int>, storedCount: int, ratioText: string)
    requires collectionKey in CollectionKeys()
    ensures var r := Reindex(reset, collectionKey, fileExists, readText, chunking, split, countFast, storedCount, ratioText);
            !(r.Err? && r.error.NoUsableDocuments?) && (r.Ok? ==> r.value.docs == r.value.docsTotal)
  {
    ConfiguredDocsUsable(collectionKey, fileExists, readText);
  }

  // ---------------------------------------------------------------------------
  // resolve_doc_path
  // ---------------------------------------------------------------------------

  /** `resolve_doc_path`: only the default document names are served, and
      only when the file exists under `dataDir`. */
  function ResolveDocPath(docName: string, dataDir: string, fileExists: string -> bool): (r: Result<string, HttpError>)
    ensures r.Ok? <==> docName in Common.DEFAULT_FILE_NAMES && fileExists(dataDir + "/" + docName)
    ensures r.Ok? ==> r.value == dataDir + "/" + docName
    ensures r.Err? ==> r.error == HttpError(404, "Document not found: " + docName)
  {
    if docName !in Common.DEFAULT_FILE_NAMES then Err(HttpError(404, "Document not found: " + docName))
    else
      var path := dataDir + "/" + docName;
      if !fileExists(path) then Err(HttpError(404, "Document not found: " + docName)) else Ok(path)
  }

  /** The default document names are plain file names. */
  lemma DefaultNamesArePlain()
    ensures forall n :: n in Common.DEFAULT_FILE_NAMES ==> '/' !in n && '\\' !in n && !StartsWith(n, "..")
  {
    forall n | n in Common.DEFAULT_FILE_NAMES
      ensures '/' !in n && '\\' !in n && !StartsWith(n, "..")
    {
      assert n == "eu_summry.md" || n == "fr.md" || n == "ge.md" || n == "it.md" || n == "uk.md";
      assert n[0] != '.';
    }
  }

  /** A name with a path separator or a parent-directory step cannot escape
      the data directory: it is refused before any file is looked at. */
  lemma ResolveDocPathRefusesPaths(docName: string, dataDir: string, fileExists: string -> bool)
    requires '/' in docName || '\\' in docName || StartsWith(docName, "..")
    ensures ResolveDocPath(docName, dataDir, fileExists).Err?
  {
    DefaultNamesArePlain();
  }
}
