/** api/routes_upload.py: creating an upload request, and the two moderation
    decisions, approve and reject, on the request store. Each handler is one
    atomic step on the store; the clock, the fresh id, the auto-approve
    setting, the admin code setting and the indexer's inputs are parameters. */
module RoutesUpload {
  import opened Wrappers
  import opened Text
  import opened Errors
  import opened Settings
  import Common
  import CollectionService
  import ValidateDoc
  import IndexService
  import RuntimeService
  import UploadService

  type UploadRequest = UploadService.UploadRequest

  /** The JSON file of upload requests, as the sequence it holds. */
  class RequestStore {
    var items: seq<UploadRequest>

    constructor(items: seq<UploadRequest>)
      ensures this.items == items
    {
      this.items := items;
    }
  }

  /** The body of `POST /upload-requests`. */
  datatype CreateRequest = CreateRequest(content: string, sourceName: Option<string>, collection: Option<string>,
                                         country: Option<string>, docType: Option<string>)

  /** The body of `POST /upload-requests/{id}/approve`. */
  datatype ApproveAction = ApproveAction(code: string, collection: Option<string>)

  /** The body of `POST /upload-requests/{id}/reject`. */
  datatype RejectAction = RejectAction(code: string, reason: string)

  /** The two clock readings a handler makes: `int(time.time())` and
      `utc_now_iso()`. */
  datatype Clock = Clock(epochSeconds: int, now: string)

  /** What indexing one document needs besides the document: the chunking
      setting, the splitter, the fast vector count and the count after the
      write. */
  datatype Indexer = Indexer(chunking: RuntimeService.ChunkingConfig, split: Common.Document -> seq<Common.Document>,
                             countFast: string -> Option<int>, storedCount: int)

  /** Why a handler fails: an HTTP error, or an indexing error that the
      handler lets propagate. */
  datatype UploadError = Http(error: HttpError) | IngestFailed(failure: IndexService.IndexError)

  /** The reply of `create_upload_request`. */
  datatype Created = Created(autoApprove: bool, request: UploadRequest)

  const SOURCE_NAME_REQUIRED: string := "source_name is required."
  const AUTO_REJECT_REASON: string := "auto-approve enabled but validation failed"
  const NOT_USABLE_DETAIL: string := "Validation failed request cannot be approved. Check request.validation.reasons."
  const UNSUPPORTED_COLLECTION_DETAIL: string := "Unsupported collection."

  /** Indexing a request's one document into a collection, never resetting it. */
  function Ingest(indexer: Indexer, collectionKey: string, content: string, metadata: map<string, string>)
    : (r: Result<IndexService.IngestResult, IndexService.IndexError>)
    ensures r.Ok? ==> r.value.collectionKey == collectionKey && r.value.vectors == indexer.storedCount
    ensures r.Err? && collectionKey in CollectionKeys() ==>
              r.error.HardCapExceeded? &&
              r.error.projectedVectors == IndexService.ProjectedVectors(false, indexer.countFast(r.error.collection),
                                                                        |indexer.split(Common.Document(content, metadata))|)
  {
    IndexService.IndexDocumentsForCollection(collectionKey, false, indexer.chunking,
                                             indexer.split(Common.Document(content, metadata)),
                                             indexer.countFast, indexer.storedCount)
  }

  // ---------------------------------------------------------------------------
  // Create
  // ---------------------------------------------------------------------------

  /** `req.source_name or f"upload_{int(time.time())}"`. */
  function SourceSeed(sourceName: Option<string>, epochSeconds: int): string {
    if Common.Truthy(sourceName) then sourceName.value else "upload_" + IntToString(epochSeconds)
  }

  /** The request item as first built, before auto-approval, or the 400 of an
      unknown collection, or the 422 of a blank source name. */
  function PendingRequest(req: CreateRequest, clock: Clock, newId: string): (r: Result<UploadRequest, HttpError>)
    ensures r.Ok? ==> r.value.collectionKey in CollectionKeys()
  {
    match UploadService.ResolveRequestedCollectionKey(req.collection)
    case Err(e) => Err(e)
    case Ok(collectionKey) =>
      match RuntimeService.SanitizeSourceName(SourceSeed(req.sourceName, clock.epochSeconds))
      case Err(_) => Err(HttpError(422, SOURCE_NAME_REQUIRED))
      case Ok(sourceName) =>
        var metadata := UploadService.BuildUploadRequestMetadata(sourceName, collectionKey, req.country, req.docType);
        var validation := ValidateDoc.MarkdownReport(sourceName, req.content, metadata);
        Ok(UploadService.UploadRequest(newId, REQUEST_STATUS_PENDING, collectionKey,
                                       CollectionService.GetCollectionName(collectionKey).value, sourceName, req.content,
                                       metadata, validation, validation.usable, clock.now, clock.now,
                                       None, None, None, None))
  }

  /** With auto-approve on: an unusable item is rejected without indexing,
      a usable one is indexed into its collection and approved. */
  function AutoApprove(item: UploadRequest, now: string, indexer: Indexer): (r: Result<UploadRequest, UploadError>)
    ensures r.Err? <==> item.usable && Ingest(indexer, item.collectionKey, item.content, item.metadata).Err?
    ensures !item.usable ==> r.Ok? && r.value.status == REQUEST_STATUS_REJECTED
                             && r.value.rejectedReason == Some(AUTO_REJECT_REASON) && r.value.ingest == item.ingest
    ensures item.usable && r.Ok? ==> r.value.status == REQUEST_STATUS_APPROVED && r.value.approvedAt == Some(now)
                                     && r.value.ingest == Some(Ingest(indexer, item.collectionKey, item.content, item.metadata).value)
    // only the decision fields and the update time change
    ensures r.Ok? ==> r.value.(status := item.status, approvedAt := item.approvedAt, rejectedAt := item.rejectedAt,
                               rejectedReason := item.rejectedReason, ingest := item.ingest, updatedAt := item.updatedAt) == item
  {
    if !item.usable then
      Ok(item.(status := REQUEST_STATUS_REJECTED, rejectedAt := Some(now), rejectedReason := Some(AUTO_REJECT_REASON),
               updatedAt := now))
    else
      match Ingest(indexer, item.collectionKey, item.content, item.metadata)
      case Err(e) => Err(IngestFailed(e))
      case Ok(result) =>
        Ok(item.(status := REQUEST_STATUS_APPROVED, approvedAt := Some(now), ingest := Some(result), updatedAt := now))
  }

  /** The outcome of `create_upload_request`. */
  function CreateOutcome(req: CreateRequest, clock: Clock, newId: string, autoApproveRaw: Option<string>,
                         indexer: Indexer): Result<Created, UploadError>
  {
    match PendingRequest(req, clock, newId)
    case Err(e) => Err(Http(e))
    case Ok(item) =>
      if !RuntimeService.IsAutoApproveEnabled(autoApproveRaw) then Ok(Created(false, item))
      else
        match AutoApprove(item, clock.now, indexer)
        case Err(e) => Err(e)
        case Ok(decided) => Ok(Created(true, decided))
  }

  /** `create_upload_request`: builds the item field by field and appends it
      to the store; on an error the store is untouched. */
  method CreateUploadRequest(store: RequestStore, req: CreateRequest, clock: Clock, newId: string,
                             autoApproveRaw: Option<string>, indexer: Indexer) returns (r: Result<Created, UploadError>)
    modifies store
    ensures r == CreateOutcome(req, clock, newId, autoApproveRaw, indexer)
    ensures r.Ok? ==> store.items == old(store.items) + [r.value.request]
    ensures r.Err? ==> store.items == old(store.items)
  {
    var resolved := UploadService.ResolveRequestedCollectionKey(req.collection);
    if resolved.Err? {
      return Err(Http(resolved.error));
    }
    var collectionKey := resolved.value;
    var sanitized := RuntimeService.SanitizeSourceName(SourceSeed(req.sourceName, clock.epochSeconds));
    if sanitized.Err? {
      return Err(Http(HttpError(422, SOURCE_NAME_REQUIRED)));
    }
    var sourceName := sanitized.value;
    var metadata := UploadService.BuildUploadRequestMetadata(sourceName, collectionKey, req.country, req.docType);
    var validation := ValidateDoc.ValidateMarkdownText(sourceName, req.content, metadata);
    var now := clock.now;
    var item := UploadService.UploadRequest(newId, REQUEST_STATUS_PENDING, collectionKey,
                                            CollectionService.GetCollectionName(collectionKey).value, sourceName,
                                            req.content, metadata, validation, validation.usable, now, now,
                                            None, None, None, None);
    var autoApprove := RuntimeService.IsAutoApproveEnabled(autoApproveRaw);
    if autoApprove {
      if !item.usable {
        item := item.(status := REQUEST_STATUS_REJECTED);
        item := item.(rejectedAt := Some(now));
        item := item.(rejectedReason := Some(AUTO_REJECT_REASON));
      } else {
        var ingest := Ingest(indexer, collectionKey, req.content, item.metadata);
        if ingest.Err? {
          return Err(IngestFailed(ingest.error));
        }
        item := item.(status := REQUEST_STATUS_APPROVED);
        item := item.(approvedAt := Some(now));
        item := item.(ingest := Some(ingest.value));
      }
      item := item.(updatedAt := now);
    }
    store.items := store.items + [item];
    return Ok(Created(autoApprove, item));
  }

  /** A new request starts pending and undecided, with the collection, source
      name and metadata the service derives and `usable` taken from its
      validation. */
  lemma CreatedRequestStartsPending(req: CreateRequest, clock: Clock, newId: string)
    requires PendingRequest(req, clock, newId).Ok?
    ensures var item := PendingRequest(req, clock, newId).value;
            && item.status == REQUEST_STATUS_PENDING
            && item.approvedAt.None? && item.rejectedAt.None? && item.rejectedReason.None? && item.ingest.None?
            && item.usable == item.validation.usable
            && item.id == newId && item.content == req.content
            && item.createdAt == clock.now && item.updatedAt == clock.now
            && item.collectionKey == UploadService.ResolveRequestedCollectionKey(req.collection).value
            && item.collection == CollectionService.GetCollectionName(item.collectionKey).value
            && item.sourceName == RuntimeService.SanitizeSourceName(SourceSeed(req.sourceName, clock.epochSeconds)).value
            && item.metadata == UploadService.BuildUploadRequestMetadata(item.sourceName, item.collectionKey,
                                                                         req.country, req.docType)
            && item.validation == ValidateDoc.MarkdownReport(item.sourceName, req.content, item.metadata)
  {
  }

  /** The generated source seed is never blank. */
  lemma GeneratedSeedNotBlank(epochSeconds: int)
    ensures !IsBlank("upload_" + IntToString(epochSeconds))
  {
    var s := "upload_" + IntToString(epochSeconds);
    assert s[0] == 'u';
    assert !IsSpace(s[0]);
  }

  /** Creation fails with 400 exactly for an unsupported collection, and
      otherwise with 422 exactly for a given source name that is all
      whitespace; with no source name a generated one is used. */
  lemma CreateErrors(req: CreateRequest, clock: Clock, newId: string)
    ensures var r := PendingRequest(req, clock, newId);
            && (CollectionService.ResolveCollectionKey(req.collection).Err? ==> r == Err(UploadService.UnsupportedCollection()))
            && (CollectionService.ResolveCollectionKey(req.collection).Ok? ==>
                  (r.Err? <==> Common.Truthy(req.sourceName) && IsBlank(req.sourceName.value))
                  && (r.Err? ==> r.error == HttpError(422, SOURCE_NAME_REQUIRED)))
  {
    GeneratedSeedNotBlank(clock.epochSeconds);
  }

  /** Every request the API creates is usable: the sanitized source name is
      never blank and the collection defaults fill country and document
      type, so the metadata check always passes. */
  lemma CreatedRequestsAreUsable(req: CreateRequest, clock: Clock, newId: string)
    requires PendingRequest(req, clock, newId).Ok?
    ensures PendingRequest(req, clock, newId).value.usable
    ensures PendingRequest(req, clock, newId).value.validation.missing == []
  {
    var collectionKey := UploadService.ResolveRequestedCollectionKey(req.collection).value;
    var seed := SourceSeed(req.sourceName, clock.epochSeconds);
    var sourceName := RuntimeService.SanitizeSourceName(seed).value;
    RuntimeService.SanitizedNameIsSafe(seed);
    assert !IsBlank(sourceName) by {
      assert EndsWith(Lower(sourceName), ".md");
      SafeNameNotBlank(sourceName);
    }
    UploadService.UploadMetadataComplete(sourceName, collectionKey, req.country, req.docType);
  }

  /** A non-empty string of safe characters is not blank. */
  lemma SafeNameNotBlank(s: string)
    requires EndsWith(Lower(s), ".md")
    requires forall i :: 0 <= i < |s| ==> RuntimeService.IsSafeChar(s[i])
    ensures !IsBlank(s)
  {
    assert |Lower(s)| == |s|;
    assert |s| > 0;
    RuntimeService.SafeCharNotSpace(s[0]);
  }

  /** With auto-approve off the new item is stored pending and nothing is
      indexed: the outcome does not depend on the indexer. */
  lemma AutoApproveOffKeepsPending(req: CreateRequest, clock: Clock, newId: string, autoApproveRaw: Option<string>,
                                   indexer: Indexer, other: Indexer)
    requires !RuntimeService.IsAutoApproveEnabled(autoApproveRaw)
    requires PendingRequest(req, clock, newId).Ok?
    ensures CreateOutcome(req, clock, newId, autoApproveRaw, indexer) == Ok(Created(false, PendingRequest(req, clock, newId).value))
    ensures CreateOutcome(req, clock, newId, autoApproveRaw, indexer) == CreateOutcome(req, clock, newId, autoApproveRaw, other)
  {
  }

  /** An unusable item under auto-approve is rejected with the fixed reason
      and nothing is indexed: the outcome does not depend on the indexer. */
  lemma AutoApproveRejectsUnusable(item: UploadRequest, now: string, indexer: Indexer, other: Indexer)
    requires !item.usable
    ensures AutoApprove(item, now, indexer) == AutoApprove(item, now, other)
    ensures var r := AutoApprove(item, now, indexer);
            && r.Ok? && r.value.status == REQUEST_STATUS_REJECTED
            && r.value.rejectedReason == Some(AUTO_REJECT_REASON) && r.value.rejectedAt == Some(now)
            && r.value.updatedAt == now && r.value.ingest == item.ingest
  {
  }

  /** With auto-approve on, creation indexes the document into the request's
      collection without a reset and stores the request approved with the
      indexing result; an indexing error fails the whole call. The rejecting
      branch is never taken by a created request. */
  lemma AutoApproveOnApproves(req: CreateRequest, clock: Clock, newId: string, autoApproveRaw: Option<string>,
                              indexer: Indexer)
    requires RuntimeService.IsAutoApproveEnabled(autoApproveRaw)
    requires PendingRequest(req, clock, newId).Ok?
    ensures var item := PendingRequest(req, clock, newId).value;
            var ingest := Ingest(indexer, item.collectionKey, req.content, item.metadata);
            var r := CreateOutcome(req, clock, newId, autoApproveRaw, indexer);
            && (ingest.Err? ==> r == Err(IngestFailed(ingest.error)))
            && (ingest.Ok? ==> r == Ok(Created(true, item.(status := REQUEST_STATUS_APPROVED, approvedAt := Some(clock.now),
                                                           ingest := Some(ingest.value), updatedAt := clock.now))))
  {
    CreatedRequestsAreUsable(req, clock, newId);
    CreatedRequestStartsPending(req, clock, newId);
  }

  // ---------------------------------------------------------------------------
  // Approve and reject
  // ---------------------------------------------------------------------------

  /** `action.collection or item["collection_key"]`, resolved; none means `all`. */
  function ApprovalCollection(requested: Option<string>, item: UploadRequest): (r: Result<string, HttpError>)
    ensures r.Ok? ==> r.value in CollectionKeys()
    ensures r.Err? ==> r.error == HttpError(400, UNSUPPORTED_COLLECTION_DETAIL)
  {
    CollectionKeysLiteral();
    match CollectionService.ResolveCollectionKey(Common.Or(requested, Some(item.collectionKey)))
    case Err(_) => Err(HttpError(400, UNSUPPORTED_COLLECTION_DETAIL))
    case Ok(key) => Ok(key.GetOr(DEFAULT_COLLECTION_KEY))
  }

  /** The approval of one stored item: pending and usable are required, then
      the document is indexed into the resolved collection. */
  function ApproveItem(item: UploadRequest, requested: Option<string>, now: string, indexer: Indexer)
    : Result<UploadRequest, UploadError>
  {
    match UploadService.EnsurePendingStatus(item)
    case Some(e) => Err(Http(e))
    case None =>
      if !item.usable then Err(Http(HttpError(400, NOT_USABLE_DETAIL)))
      else
        match ApprovalCollection(requested, item)
        case Err(e) => Err(Http(e))
        case Ok(collectionKey) =>
          match Ingest(indexer, collectionKey, item.content, item.metadata)
          case Err(e) => Err(IngestFailed(e))
          case Ok(result) =>
            Ok(item.(status := REQUEST_STATUS_APPROVED, collectionKey := collectionKey,
                     collection := CollectionService.GetCollectionName(collectionKey).value,
                     approvedAt := Some(now), updatedAt := now, rejectedAt := None, rejectedReason := None,
                     ingest := Some(result)))
  }

  /** The rejection of one stored item: pending is required. */
  function RejectItem(item: UploadRequest, reason: string, now: string): Result<UploadRequest, HttpError> {
    match UploadService.EnsurePendingStatus(item)
    case Some(e) => Err(e)
    case None =>
      Ok(item.(status := REQUEST_STATUS_REJECTED, rejectedReason := Some(Strip(reason)), rejectedAt := Some(now),
               updatedAt := now, approvedAt := None, ingest := None))
  }

  /** The outcome of `approve_upload_request` on the stored items: the index
      of the decided item and its new value. */
  function ApproveOutcome(items: seq<UploadRequest>, requestId: string, action: ApproveAction,
                          adminEnv: Option<string>, now: string, indexer: Indexer): Result<(nat, UploadRequest), UploadError>
  {
    match RuntimeService.VerifyAdminCode(action.code, adminEnv)
    case Some(e) => Err(Http(e))
    case None =>
      match UploadService.FirstWithId(items, requestId)
      case None => Err(Http(UploadService.NotFound(requestId)))
      case Some(index) =>
        match ApproveItem(items[index], action.collection, now, indexer)
        case Err(e) => Err(e)
        case Ok(item) => Ok((index, item))
  }

  /** The outcome of `reject_upload_request` on the stored items. */
  function RejectOutcome(items: seq<UploadRequest>, requestId: string, action: RejectAction,
                         adminEnv: Option<string>, now: string): Result<(nat, UploadRequest), HttpError>
  {
    match RuntimeService.VerifyAdminCode(action.code, adminEnv)
    case Some(e) => Err(e)
    case None =>
      match UploadService.FirstWithId(items, requestId)
      case None => Err(UploadService.NotFound(requestId))
      case Some(index) =>
        match RejectItem(items[index], action.reason, now)
        case Err(e) => Err(e)
        case Ok(item) => Ok((index, item))
  }

  /** `approve_upload_request`: checks the code, finds the item, checks and
      updates it field by field, and writes it back at its index. */
  method ApproveUploadRequest(store: RequestStore, requestId: string, action: ApproveAction, adminEnv: Option<string>,
                              now: string, indexer: Indexer) returns (r: Result<UploadRequest, UploadError>)
    modifies store
    ensures var o := ApproveOutcome(old(store.items), requestId, action, adminEnv, now, indexer);
            && (o.Err? ==> r == Err(o.error) && store.items == old(store.items))
            && (o.Ok? ==> o.value.0 < |old(store.items)| && r == Ok(o.value.1)
                          && store.items == old(store.items)[o.value.0 := o.value.1])
  {
    var denied := RuntimeService.VerifyAdminCode(action.code, adminEnv);
    if denied.Some? {
      return Err(Http(denied.value));
    }
    var found := UploadService.FindUploadRequest(store.items, requestId);
    if found.Err? {
      return Err(Http(found.error));
    }
    var (item, index) := found.value;
    var notPending := UploadService.EnsurePendingStatus(item);
    if notPending.Some? {
      return Err(Http(notPending.value));
    }
    if !item.usable {
      return Err(Http(HttpError(400, NOT_USABLE_DETAIL)));
    }
    var resolved := ApprovalCollection(action.collection, item);
    if resolved.Err? {
      return Err(Http(resolved.error));
    }
    var collectionKey := resolved.value;
    var ingest := Ingest(indexer, collectionKey, item.content, item.metadata);
    if ingest.Err? {
      return Err(IngestFailed(ingest.error));
    }
    item := item.(status := REQUEST_STATUS_APPROVED);
    item := item.(collectionKey := collectionKey);
    item := item.(collection := CollectionService.GetCollectionName(collectionKey).value);
    item := item.(approvedAt := Some(now));
    item := item.(updatedAt := now);
    item := item.(rejectedAt := None);
    item := item.(rejectedReason := None);
    item := item.(ingest := Some(ingest.value));
    store.items := store.items[index := item];
    return Ok(item);
  }

  /** `reject_upload_request`: checks the code, finds the pending item and
      writes it back rejected at its index. */
  method RejectUploadRequest(store: RequestStore, requestId: string, action: RejectAction, adminEnv: Option<string>,
                             now: string) returns (r: Result<UploadRequest, HttpError>)
    modifies store
    ensures var o := RejectOutcome(old(store.items), requestId, action, adminEnv, now);
            && (o.Err? ==> r == Err(o.error) && store.items == old(store.items))
            && (o.Ok? ==> o.value.0 < |old(store.items)| && r == Ok(o.value.1)
                          && store.items == old(store.items)[o.value.0 := o.value.1])
  {
    var denied := RuntimeService.VerifyAdminCode(action.code, adminEnv);
    if denied.Some? {
      return Err(denied.value);
    }
    var found := UploadService.FindUploadRequest(store.items, requestId);
    if found.Err? {
      return Err(found.error);
    }
    var (item, index) := found.value;
    var notPending := UploadService.EnsurePendingStatus(item);
    if notPending.Some? {
      return Err(notPending.value);
    }
    item := item.(status := REQUEST_STATUS_REJECTED);
    item := item.(rejectedReason := Some(Strip(action.reason)));
    item := item.(rejectedAt := Some(now));
    item := item.(updatedAt := now);
    item := item.(approvedAt := None);
    item := item.(ingest := None);
    store.items := store.items[index := item];
    return Ok(item);
  }

  /** `upload_request_detail`: the first stored item with the id, or 404. */
  method UploadRequestDetail(store: RequestStore, requestId: string) returns (r: Result<UploadRequest, HttpError>)
    ensures r.Ok? <==> UploadService.FirstWithId(store.items, requestId).Some?
    ensures r.Ok? ==> r.value == store.items[UploadService.FirstWithId(store.items, requestId).value]
    ensures r.Err? ==> r.error == UploadService.NotFound(requestId)
  {
    var found := UploadService.FindUploadRequest(store.items, requestId);
    if found.Err? {
      return Err(found.error);
    }
    return Ok(found.value.0);
  }

  // ---------------------------------------------------------------------------
  // Properties of the decisions
  // ---------------------------------------------------------------------------

  /** A wrong admin code is refused with 401 before the store is consulted:
      the outcome is the same for every store. */
  lemma AdminCheckedFirst(items: seq<UploadRequest>, requestId: string, approve: ApproveAction, reject: RejectAction,
                          adminEnv: Option<string>, now: string, indexer: Indexer)
    ensures RuntimeService.VerifyAdminCode(approve.code, adminEnv).Some? ==>
              ApproveOutcome(items, requestId, approve, adminEnv, now, indexer)
              == Err(Http(HttpError(401, RuntimeService.ADMIN_CODE_ERROR)))
    ensures RuntimeService.VerifyAdminCode(reject.code, adminEnv).Some? ==>
              RejectOutcome(items, requestId, reject, adminEnv, now) == Err(HttpError(401, RuntimeService.ADMIN_CODE_ERROR))
  {
  }

  /** With an accepted code: an unknown id gives 404, a decided request 400
      naming its status, and an unusable pending request 400, so a request
      that failed validation cannot be approved. */
  lemma ApproveRefusals(items: seq<UploadRequest>, requestId: string, action: ApproveAction, adminEnv: Option<string>,
                        now: string, indexer: Indexer)
    requires RuntimeService.VerifyAdminCode(action.code, adminEnv).None?
    ensures var r := ApproveOutcome(items, requestId, action, adminEnv, now, indexer);
            var found := UploadService.FirstWithId(items, requestId);
            && (found.None? ==> r == Err(Http(HttpError(404, "Upload request not found: " + requestId))))
            && (found.Some? && items[found.value].status != REQUEST_STATUS_PENDING ==>
                  r == Err(Http(HttpError(400, "Request is not pending. status=" + items[found.value].status))))
            && (found.Some? && items[found.value].status == REQUEST_STATUS_PENDING && !items[found.value].usable ==>
                  r == Err(Http(HttpError(400, NOT_USABLE_DETAIL))))
  {
  }

  /** With an accepted code: an unknown id gives 404 and a decided request
      400 naming its status; an unusable request can still be rejected. */
  lemma RejectRefusals(items: seq<UploadRequest>, requestId: string, action: RejectAction, adminEnv: Option<string>,
                       now: string)
    requires RuntimeService.VerifyAdminCode(action.code, adminEnv).None?
    ensures var r := RejectOutcome(items, requestId, action, adminEnv, now);
            var found := UploadService.FirstWithId(items, requestId);
            && (found.None? ==> r == Err(HttpError(404, "Upload request not found: " + requestId)))
            && (found.Some? ==>
                  (r.Err? <==> items[found.value].status != REQUEST_STATUS_PENDING)
                  && (r.Err? ==> r == Err(HttpError(400, "Request is not pending. status=" + items[found.value].status))))
  {
  }

  /** A successful approval decides the first item with the id, which was
      pending and usable: it becomes approved in a registered collection
      with the indexing result, its rejection fields are cleared, and its
      id, source, content, metadata, validation and creation time stay. */
  lemma ApprovedFields(items: seq<UploadRequest>, requestId: string, action: ApproveAction, adminEnv: Option<string>,
                       now: string, indexer: Indexer)
    requires ApproveOutcome(items, requestId, action, adminEnv, now, indexer).Ok?
    ensures var (index, item) := ApproveOutcome(items, requestId, action, adminEnv, now, indexer).value;
            var before := items[UploadService.FirstWithId(items, requestId).value];
            && RuntimeService.VerifyAdminCode(action.code, adminEnv).None?
            && UploadService.FirstWithId(items, requestId) == Some(index)
            && before.status == REQUEST_STATUS_PENDING && before.usable
            && item.status == REQUEST_STATUS_APPROVED
            && item.collectionKey == ApprovalCollection(action.collection, before).value
            && item.collectionKey in CollectionKeys()
            && item.collection == CollectionService.GetCollectionName(item.collectionKey).value
            && item.approvedAt == Some(now) && item.updatedAt == now
            && item.rejectedAt.None? && item.rejectedReason.None?
            && item.ingest == Some(Ingest(indexer, item.collectionKey, before.content, before.metadata).value)
            && item.id == before.id && item.sourceName == before.sourceName && item.content == before.content
            && item.metadata == before.metadata && item.validation == before.validation
            && item.usable == before.usable && item.createdAt == before.createdAt
  {
  }

  /** The collection an approval uses: a given override, resolved; without
      one, the request's own registered collection. */
  lemma ApprovalCollectionChoice(requested: Option<string>, item: UploadRequest)
    ensures Common.Truthy(requested) && Normalize(requested.value) in CollectionKeys() ==>
              ApprovalCollection(requested, item) == Ok(Normalize(requested.value))
    ensures !Common.Truthy(requested) && item.collectionKey in CollectionKeys() ==>
              ApprovalCollection(requested, item) == Ok(item.collectionKey)
  {
    if !Common.Truthy(requested) && item.collectionKey in CollectionKeys() {
      var i :| 0 <= i < |CollectionKeys()| && CollectionKeys()[i] == item.collectionKey;
      CollectionService.ResolveRegisteredKey(i);
    }
  }

  /** A successful rejection decides the first item with the id, which was
      pending: it becomes rejected with the trimmed reason, loses any
      approval and indexing result, and keeps everything else. */
  lemma RejectedFields(items: seq<UploadRequest>, requestId: string, action: RejectAction, adminEnv: Option<string>,
                       now: string)
    requires RejectOutcome(items, requestId, action, adminEnv, now).Ok?
    ensures var (index, item) := RejectOutcome(items, requestId, action, adminEnv, now).value;
            var before := items[UploadService.FirstWithId(items, requestId).value];
            && RuntimeService.VerifyAdminCode(action.code, adminEnv).None?
            && UploadService.FirstWithId(items, requestId) == Some(index)
            && before.status == REQUEST_STATUS_PENDING
            && item == before.(status := REQUEST_STATUS_REJECTED, rejectedReason := Some(Strip(action.reason)),
                               rejectedAt := Some(now), updatedAt := now, approvedAt := None, ingest := None)
  {
  }

  /** Writing a decided item back at the first position of its id keeps that
      position first. */
  lemma FirstWithIdAfterUpdate(items: seq<UploadRequest>, requestId: string, index: nat, item: UploadRequest)
    requires UploadService.FirstWithId(items, requestId) == Some(index)
    requires item.id == requestId
    ensures UploadService.FirstWithId(items[index := item], requestId) == Some(index)
  {
    UploadService.FirstWithIdIs(items[index := item], requestId, index);
  }

  /** A decision is final: once a request is approved or rejected, a further
      approval or rejection of its id is refused with 400 naming the new
      status. */
  lemma DecisionIsFinal(items: seq<UploadRequest>, requestId: string, index: nat, decided: UploadRequest,
                        approve: ApproveAction, reject: RejectAction, adminEnv: Option<string>, now: string,
                        indexer: Indexer)
    requires ApproveOutcome(items, requestId, approve, adminEnv, now, indexer) == Ok((index, decided))
             || RejectOutcome(items, requestId, reject, adminEnv, now) == Ok((index, decided))
    requires RuntimeService.VerifyAdminCode(approve.code, adminEnv).None?
    requires RuntimeService.VerifyAdminCode(reject.code, adminEnv).None?
    ensures var after := items[index := decided];
            && ApproveOutcome(after, requestId, approve, adminEnv, now, indexer)
               == Err(Http(HttpError(400, "Request is not pending. status=" + decided.status)))
            && RejectOutcome(after, requestId, reject, adminEnv, now)
               == Err(HttpError(400, "Request is not pending. status=" + decided.status))
  {
    if ApproveOutcome(items, requestId, approve, adminEnv, now, indexer) == Ok((index, decided)) {
      ApprovedFields(items, requestId, approve, adminEnv, now, indexer);
    } else {
      RejectedFields(items, requestId, reject, adminEnv, now);
    }
    FirstWithIdAfterUpdate(items, requestId, index, decided);
    var after := items[index := decided];
    assert after[index] == decided;
    assert decided.status != REQUEST_STATUS_PENDING;
    ApproveRefusals(after, requestId, approve, adminEnv, now, indexer);
    RejectRefusals(after, requestId, reject, adminEnv, now);
  }
}
