/** api/routes_system.py: the health report, the moderation listing with its
    status counts, the reindex endpoint's collection choice and the admin
    code probe. */
module RoutesSystem {
  import opened Wrappers
  import opened Text
  import opened Errors
  import opened Settings
  import Common
  import CollectionService
  import IndexService
  import RuntimeService
  import UploadService

  type UploadRequest = UploadService.UploadRequest

  // ---------------------------------------------------------------------------
  // Status parameter
  // ---------------------------------------------------------------------------

  /** `sorted(REQUEST_STATUSES)`. */
  const SORTED_STATUSES: seq<string> := [REQUEST_STATUS_APPROVED, REQUEST_STATUS_PENDING, REQUEST_STATUS_REJECTED]

  /** The listed statuses are exactly the request statuses, in increasing
      string order, so they are the sorted enumeration of the set. */
  lemma SortedStatusesAreSorted()
    ensures forall s :: s in SORTED_STATUSES <==> s in REQUEST_STATUSES
    ensures |SORTED_STATUSES| == |REQUEST_STATUSES|
    ensures forall i, j :: 0 <= i < j < |SORTED_STATUSES| ==> StrLess(SORTED_STATUSES[i], SORTED_STATUSES[j])
  {
    assert StrLess("approved", "pending") by { assert "approved"[0] < "pending"[0]; }
    assert StrLess("pending", "rejected") by { assert "pending"[0] < "rejected"[0]; }
    StrLessTransitive("approved", "pending", "rejected");
    assert REQUEST_STATUSES == {"pending", "approved", "rejected"};
    assert |REQUEST_STATUSES| == 3 by {
      assert {"pending", "approved", "rejected"} == {"pending"} + {"approved"} + {"rejected"};
    }
  }

  /** The 400 of an unknown status, listing the sorted statuses. */
  function UnsupportedStatus(): HttpError {
    HttpError(400, "Unsupported status. Use one of: " + Join(SORTED_STATUSES, ", "))
  }

  /** The check on the `status` query parameter: a given (non-empty) value
      must be a status after trimming and lowering. */
  function StatusParamError(status: Option<string>): (r: Option<HttpError>)
    ensures r.None? <==> !Common.Truthy(status) || Normalize(status.value) in REQUEST_STATUSES
    ensures r.Some? ==> r.value == UnsupportedStatus()
  {
    if Common.Truthy(status) && Normalize(status.value) !in REQUEST_STATUSES then Some(UnsupportedStatus()) else None
  }

  // ---------------------------------------------------------------------------
  // Counts
  // ---------------------------------------------------------------------------

  /** How many items have the status, compared after lowering. */
  function CountStatus(items: seq<UploadRequest>, status: string): (n: nat)
    ensures n <= |items|
    decreases |items|
  {
    if items == [] then 0
    else CountStatus(items[..|items| - 1], status) + (if Lower(items[|items| - 1].status) == status then 1 else 0)
  }

  /** The `counts` object: one entry per request status. */
  function StatusCounts(items: seq<UploadRequest>): (counts: map<string, nat>)
    ensures counts.Keys == REQUEST_STATUSES
    ensures forall s :: s in counts ==> counts[s] == CountStatus(items, s)
  {
    map s | s in REQUEST_STATUSES :: CountStatus(items, s)
  }

  /** The counting loop of `upload_requests` over the listed items. */
  method CountStatuses(listed: seq<UploadRequest>) returns (counts: map<string, nat>)
    ensures counts == StatusCounts(listed)
  {
    counts := map[REQUEST_STATUS_PENDING := 0, REQUEST_STATUS_APPROVED := 0, REQUEST_STATUS_REJECTED := 0];
    for i := 0 to |listed|
      invariant counts.Keys == REQUEST_STATUSES
      invariant forall s :: s in counts ==> counts[s] == CountStatus(listed[..i], s)
    {
      var current := Lower(listed[i].status);
      if current in counts {
        counts := counts[current := counts[current] + 1];
      }
      forall s | s in REQUEST_STATUSES
        ensures counts[s] == CountStatus(listed[..i + 1], s)
      {
        CountStatusStep(listed, i, s);
      }
    }
    assert listed[..|listed|] == listed;
  }

  /** One more item adds one to the count of its lowered status. */
  lemma CountStatusStep(items: seq<UploadRequest>, i: nat, status: string)
    requires i < |items|
    ensures CountStatus(items[..i + 1], status)
            == CountStatus(items[..i], status) + (if Lower(items[i].status) == status then 1 else 0)
  {
    assert items[..i + 1][..i] == items[..i];
  }

  /** Counting is additive over concatenation. */
  lemma {:induction false} CountStatusAppend(a: seq<UploadRequest>, b: seq<UploadRequest>, status: string)
    ensures CountStatus(a + b, status) == CountStatus(a, status) + CountStatus(b, status)
    decreases |b|
  {
    if b == [] {
      assert a + b == a;
    } else {
      var init := b[..|b| - 1];
      assert (a + b)[..|a + b| - 1] == a + init;
      CountStatusAppend(a, init, status);
    }
  }

  /** Counting does not depend on the order of the items. */
  lemma {:induction false} CountStatusPermutation(a: seq<UploadRequest>, b: seq<UploadRequest>, status: string)
    requires multiset(a) == multiset(b)
    ensures CountStatus(a, status) == CountStatus(b, status)
    decreases |a|
  {
    if a == [] {
      assert |b| == |multiset(b)| == 0;
    } else {
      var init := a[..|a| - 1];
      var last := a[|a| - 1];
      assert a == init + [last];
      assert last in multiset(b);
      var i :| 0 <= i < |b| && b[i] == last;
      var rest := b[..i] + b[i + 1..];
      assert multiset(init) == multiset(rest) by {
        assert multiset(a) == multiset(init) + multiset{last};
        RemoveAtMultiset(b, i);
        assert multiset(init) == multiset(a) - multiset{last};
        assert multiset(rest) == multiset(b) - multiset{last};
      }
      CountStatusPermutation(init, rest, status);
      CountStatusRemoveAt(b, i, status);
      CountStatusAppend(init, [last], status);
      CountStatusSingle(last, status);
    }
  }

  lemma RemoveAtMultiset(b: seq<UploadRequest>, i: nat)
    requires i < |b|
    ensures multiset(b) == multiset(b[..i] + b[i + 1..]) + multiset{b[i]}
  {
    assert b == b[..i] + [b[i]] + b[i + 1..];
  }

  lemma CountStatusRemoveAt(b: seq<UploadRequest>, i: nat, status: string)
    requires i < |b|
    ensures CountStatus(b, status) == CountStatus(b[..i] + b[i + 1..], status) + CountStatus([b[i]], status)
  {
    assert b == b[..i] + [b[i]] + b[i + 1..];
    CountStatusAppend(b[..i] + [b[i]], b[i + 1..], status);
    CountStatusAppend(b[..i], [b[i]], status);
    CountStatusAppend(b[..i], b[i + 1..], status);
  }

  lemma CountStatusSingle(item: UploadRequest, status: string)
    ensures CountStatus([item], status) == (if Lower(item.status) == status then 1 else 0)
  {
    assert [item][..0] == [];
  }

  /** An item whose lowered status is one of the request statuses. */
  predicate IsCounted(item: UploadRequest) {
    Lower(item.status) in REQUEST_STATUSES
  }

  /** The counts add up to the number of items whose lowered status is a
      request status; items with any other status are not counted. */
  lemma {:induction false} CountsSum(items: seq<UploadRequest>)
    ensures CountStatus(items, REQUEST_STATUS_PENDING) + CountStatus(items, REQUEST_STATUS_APPROVED)
            + CountStatus(items, REQUEST_STATUS_REJECTED) == |UploadService.Filter(items, IsCounted)|
    decreases |items|
  {
    if items != [] {
      CountsSum(items[..|items| - 1]);
    }
  }

  /** So the counts never add up to more than the stored items. */
  lemma CountsBounded(items: seq<UploadRequest>)
    ensures CountStatus(items, REQUEST_STATUS_PENDING) + CountStatus(items, REQUEST_STATUS_APPROVED)
            + CountStatus(items, REQUEST_STATUS_REJECTED) <= |items|
  {
    CountsSum(items);
  }

  // ---------------------------------------------------------------------------
  // Listing
  // ---------------------------------------------------------------------------

  /** The reply of `GET /upload-requests`. */
  datatype Listing = Listing(autoApprove: bool, counts: map<string, nat>, requests: seq<UploadRequest>)

  /** The outcome of `upload_requests`: the status check, then the filtered
      listing and the counts over every stored item. */
  function UploadRequestsOutcome(items: seq<UploadRequest>, status: Option<string>, reason: Option<string>,
                                 q: Option<string>, autoApproveRaw: Option<string>): Result<Listing, HttpError>
  {
    match StatusParamError(status)
    case Some(e) => Err(e)
    case None =>
      Ok(Listing(RuntimeService.IsAutoApproveEnabled(autoApproveRaw), StatusCounts(items),
                 UploadService.ListUploadRequests(items, status, reason, q)))
  }

  /** `upload_requests`: counts by a loop over the unfiltered listing. */
  method UploadRequests(items: seq<UploadRequest>, status: Option<string>, reason: Option<string>, q: Option<string>,
                        autoApproveRaw: Option<string>) returns (r: Result<Listing, HttpError>)
    ensures r == UploadRequestsOutcome(items, status, reason, q, autoApproveRaw)
  {
    var denied := StatusParamError(status);
    if denied.Some? {
      return Err(denied.value);
    }
    var listed := UploadService.ListUploadRequests(items, status, reason, q);
    var everything := UploadService.ListUploadRequests(items, None, None, None);
    var counts := CountStatuses(everything);
    CountsOverStore(items);
    return Ok(Listing(RuntimeService.IsAutoApproveEnabled(autoApproveRaw), counts, listed));
  }

  /** Counting the unfiltered listing is counting the store. */
  lemma CountsOverStore(items: seq<UploadRequest>)
    ensures StatusCounts(UploadService.ListUploadRequests(items, None, None, None)) == StatusCounts(items)
  {
    var everything := UploadService.ListUploadRequests(items, None, None, None);
    UnfilteredIsPermutation(items);
    forall s | s in REQUEST_STATUSES
      ensures CountStatus(everything, s) == CountStatus(items, s)
    {
      CountStatusPermutation(everything, items, s);
    }
  }

  /** With no filter, the listing holds every stored request, reordered. */
  lemma UnfilteredIsPermutation(items: seq<UploadRequest>)
    ensures multiset(UploadService.ListUploadRequests(items, None, None, None)) == multiset(items)
  {
  }

  /** The counts ignore the filters: whatever the filters, an accepted
      listing carries the counts of the whole store. */
  lemma CountsIgnoreFilters(items: seq<UploadRequest>, status: Option<string>, reason: Option<string>,
                            q: Option<string>, autoApproveRaw: Option<string>)
    requires UploadRequestsOutcome(items, status, reason, q, autoApproveRaw).Ok?
    ensures UploadRequestsOutcome(items, status, reason, q, autoApproveRaw).value.counts == StatusCounts(items)
    ensures var counts := StatusCounts(items);
            counts[REQUEST_STATUS_PENDING] + counts[REQUEST_STATUS_APPROVED] + counts[REQUEST_STATUS_REJECTED] <= |items|
  {
    CountsBounded(items);
  }

  /** A status filter is accepted exactly when its trimmed, lowered value is
      a status; otherwise the listing is refused with the 400. */
  lemma ListingStatusErrors(items: seq<UploadRequest>, status: Option<string>, reason: Option<string>,
                            q: Option<string>, autoApproveRaw: Option<string>)
    ensures UploadRequestsOutcome(items, status, reason, q, autoApproveRaw).Err? <==>
              Common.Truthy(status) && Normalize(status.value) !in REQUEST_STATUSES
    ensures UploadRequestsOutcome(items, status, reason, q, autoApproveRaw).Err? ==>
              UploadRequestsOutcome(items, status, reason, q, autoApproveRaw).error ==
              HttpError(400, "Unsupported status. Use one of: " + Join(["approved", "pending", "rejected"], ", "))
  {
  }

  // ---------------------------------------------------------------------------
  // Health
  // ---------------------------------------------------------------------------

  /** The reply of `GET /health`. */
  datatype HealthReport = HealthReport(status: string, collectionKey: string, collection: string, persistDir: string,
                                       vectors: Option<int>, autoApprove: bool, pendingRequests: nat,
                                       chunkingMode: string, queryTimeoutSeconds: int, maxContextChars: Option<int>)

  /** `health`, with the settings, the store directory and the vector count
      given. */
  function Health(items: seq<UploadRequest>, persistDir: string, countFast: string -> Option<int>,
                  autoApproveRaw: Option<string>, rawMode: Option<string>, rawEncoding: Option<string>,
                  timeoutRaw: Option<string>, maxContextRaw: Option<string>): (r: HealthReport)
    ensures r.status == "ok" && r.collectionKey == DEFAULT_COLLECTION_KEY && r.persistDir == persistDir
    ensures r.collection == CollectionService.GetCollectionName(DEFAULT_COLLECTION_KEY).value
    ensures r.vectors == countFast(r.collection)
    ensures r.autoApprove == RuntimeService.IsAutoApproveEnabled(autoApproveRaw)
    ensures r.chunkingMode == RuntimeService.GetChunkingConfig(rawMode, rawEncoding).mode
    ensures r.queryTimeoutSeconds == RuntimeService.GetQueryTimeoutSeconds(timeoutRaw)
    ensures r.maxContextChars == RuntimeService.GetMaxContextChars(maxContextRaw)
    ensures r.chunkingMode in Common.SUPPORTED_CHUNKING_MODES && r.queryTimeoutSeconds >= 1
    ensures r.maxContextChars.Some? ==> r.maxContextChars.value > 0
  {
    CollectionKeysLiteral();
    var collection := CollectionService.GetCollectionName(DEFAULT_COLLECTION_KEY).value;
    HealthReport("ok", DEFAULT_COLLECTION_KEY, collection, persistDir, countFast(collection),
                 RuntimeService.IsAutoApproveEnabled(autoApproveRaw),
                 |UploadService.ListUploadRequests(items, Some(REQUEST_STATUS_PENDING), None, None)|,
                 RuntimeService.GetChunkingConfig(rawMode, rawEncoding).mode,
                 RuntimeService.GetQueryTimeoutSeconds(timeoutRaw), RuntimeService.GetMaxContextChars(maxContextRaw))
  }

  /** Filtering on one lowered status keeps as many items as it counts. */
  lemma {:induction false} FilterCountsStatus(items: seq<UploadRequest>, keep: UploadRequest -> bool, status: string)
    requires forall x :: keep(x) == (Lower(x.status) == status)
    ensures |UploadService.Filter(items, keep)| == CountStatus(items, status)
    decreases |items|
  {
    if items != [] {
      FilterCountsStatus(items[..|items| - 1], keep, status);
    }
  }

  /** The health report's pending number agrees with the listing's pending
      count. */
  lemma HealthPendingMatchesCounts(items: seq<UploadRequest>, persistDir: string, countFast: string -> Option<int>,
                                   autoApproveRaw: Option<string>, rawMode: Option<string>, rawEncoding: Option<string>,
                                   timeoutRaw: Option<string>, maxContextRaw: Option<string>)
    ensures Health(items, persistDir, countFast, autoApproveRaw, rawMode, rawEncoding, timeoutRaw, maxContextRaw).pendingRequests
            == StatusCounts(items)[REQUEST_STATUS_PENDING]
  {
    NormalizeOfPlainWord(REQUEST_STATUS_PENDING);
    var pending := UploadService.StatusFilter(items, Some(REQUEST_STATUS_PENDING));
    assert pending == UploadService.Filter(items, x => UploadService.StatusMatches(x, REQUEST_STATUS_PENDING));
    FilterCountsStatus(items, x => UploadService.StatusMatches(x, REQUEST_STATUS_PENDING), REQUEST_STATUS_PENDING);
    var listed := UploadService.ListUploadRequests(items, Some(REQUEST_STATUS_PENDING), None, None);
    assert |listed| == |pending|;
  }

  // ---------------------------------------------------------------------------
  // Reindex and admin probe
  // ---------------------------------------------------------------------------

  /** The body of `POST /reindex`. */
  datatype ReindexRequest = ReindexRequest(reset: bool, collection: Option<string>)

  /** Why a reindex fails: the collection, or the indexing itself. */
  datatype ReindexFailure = BadCollection(error: HttpError) | ReindexFailed(failure: IndexService.IndexError)

  /** `resolve_collection_key(req.collection) or "all"`, an unknown value
      being the 400 that lists the registry keys. */
  function ReindexCollectionKey(collection: Option<string>): (r: Result<string, HttpError>)
    ensures r.Ok? ==> r.value in CollectionKeys()
  {
    CollectionKeysLiteral();
    match CollectionService.ResolveCollectionKey(collection)
    case Err(_) => Err(HttpError(400, "Unsupported collection. Use one of: " + Join(CollectionKeys(), ", ")))
    case Ok(key) => Ok(key.GetOr(DEFAULT_COLLECTION_KEY))
  }

  /** The reindex endpoint picks its collection exactly as upload creation
      does: none or blank means `all`, an unknown value is the same 400. */
  lemma ReindexResolvesLikeUpload(collection: Option<string>)
    ensures ReindexCollectionKey(collection) == UploadService.ResolveRequestedCollectionKey(collection)
    ensures collection.None? || IsBlank(collection.value) ==> ReindexCollectionKey(collection) == Ok(DEFAULT_COLLECTION_KEY)
  {
  }

  /** `reindex_endpoint`, with the data files, splitter and counts given. */
  function ReindexEndpoint(req: ReindexRequest, fileExists: string -> bool, readText: string -> string,
                           chunking: RuntimeService.ChunkingConfig, split: seq<Common.Document> -> seq<Common.Document>,
                           countFast: string -> Option<int>, storedCount: int, ratioText: string)
    : (r: Result<IndexService.ReindexResult, ReindexFailure>)
    ensures UploadService.ResolveRequestedCollectionKey(req.collection).Err? ==>
              r == Err(BadCollection(UploadService.ResolveRequestedCollectionKey(req.collection).error))
    ensures UploadService.ResolveRequestedCollectionKey(req.collection).Ok? ==>
              var o := IndexService.Reindex(req.reset, UploadService.ResolveRequestedCollectionKey(req.collection).value,
                                            fileExists, readText, chunking, split, countFast, storedCount, ratioText);
              (r.Ok? <==> o.Ok?) && (o.Ok? ==> r.value == o.value) && (o.Err? ==> r == Err(ReindexFailed(o.error)))
    ensures r.Err? && r.error.ReindexFailed? ==> !r.error.failure.UnknownCollection?
  {
    ReindexResolvesLikeUpload(req.collection);
    match ReindexCollectionKey(req.collection)
    case Err(e) => Err(BadCollection(e))
    case Ok(collectionKey) =>
      match IndexService.Reindex(req.reset, collectionKey, fileExists, readText, chunking, split, countFast,
                                 storedCount, ratioText)
      case Err(e) => Err(ReindexFailed(e))
      case Ok(result) => Ok(result)
  }

  /** A reindex of a collection the request names (or of `all`) never
      reports that no usable document was found, and it indexes every
      document it loaded. */
  lemma ReindexEndpointUsesAllDocuments(req: ReindexRequest, fileExists: string -> bool, readText: string -> string,
                                        chunking: RuntimeService.ChunkingConfig,
                                        split: seq<Common.Document> -> seq<Common.Document>,
                                        countFast: string -> Option<int>, storedCount: int, ratioText: string)
    requires ReindexCollectionKey(req.collection).Ok?
    ensures var r := ReindexEndpoint(req, fileExists, readText, chunking, split, countFast, storedCount, ratioText);
            (r.Err? ==> r.error.ReindexFailed? && !r.error.failure.NoUsableDocuments?) &&
            (r.Ok? ==> r.value.docs == r.value.docsTotal)
  {
    IndexService.ReindexOfRegisteredUsesAllDocuments(req.reset, ReindexCollectionKey(req.collection).value, fileExists, readText,
                                        chunking, split, countFast, storedCount, ratioText);
  }

  /** The reply of `POST /admin/auth`. */
  datatype AuthReply = AuthReply(ok: bool)

  /** `admin_auth`: `{ok: true}` exactly when the code is accepted, else the 401. */
  function AdminAuth(code: string, adminEnv: Option<string>): (r: Result<AuthReply, HttpError>)
    ensures r.Ok? <==> Strip(code) == RuntimeService.GetAdminCode(adminEnv)
    ensures r.Ok? ==> r.value.ok
    ensures r.Err? ==> r.error == HttpError(401, RuntimeService.ADMIN_CODE_ERROR)
  {
    match RuntimeService.VerifyAdminCode(code, adminEnv)
    case Some(e) => Err(e)
    case None => Ok(AuthReply(true))
  }
}
