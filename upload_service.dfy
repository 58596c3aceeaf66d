/** services/upload_service.py: the stored upload requests, the filters and
    order of the request listing, finding a request by id, the pending check,
    the metadata a new request gets, and the collection a request names.
    The store file itself is read and written by `RoutesUpload.RequestStore`;
    here the stored items are a sequence. */
module UploadService {
  import opened Wrappers
  import opened Text
  import opened Errors
  import opened Settings
  import Common
  import CollectionService
  import ValidateDoc
  import IndexService

  /** One stored upload request, with the fields the service writes. */
  datatype UploadRequest = UploadRequest(
    id: string, status: string, collectionKey: string, collection: string, sourceName: string,
    content: string, metadata: map<string, string>, validation: ValidateDoc.Report, usable: bool,
    createdAt: string, updatedAt: string, approvedAt: Option<string>, rejectedAt: Option<string>,
    rejectedReason: Option<string>, ingest: Option<IndexService.IngestResult>)

  // ---------------------------------------------------------------------------
  // Filters
  // ---------------------------------------------------------------------------

  /** The items `keep` accepts, in their order (a list comprehension). */
  function Filter(items: seq<UploadRequest>, keep: UploadRequest -> bool): (r: seq<UploadRequest>)
    ensures |r| <= |items|
    ensures forall x :: x in r <==> x in items && keep(x)
    ensures multiset(r) <= multiset(items)
    decreases |items|
  {
    if items == [] then []
    else
      var init := items[..|items| - 1];
      var last := items[|items| - 1];
      assert items == init + [last];
      Filter(init, keep) + (if keep(last) then [last] else [])
  }

  /** The lowered status equals the normalised filter value. */
  predicate StatusMatches(item: UploadRequest, value: string) {
    Lower(item.status) == value
  }

  /** The text of a request's rejection reason the filters search: no reason
      is the empty text. */
  function ReasonText(item: UploadRequest): string {
    item.rejectedReason.GetOr("")
  }

  /** The normalised reason contains the query. */
  predicate ReasonMatches(item: UploadRequest, query: string) {
    Contains(Normalize(ReasonText(item)), query)
  }

  /** The query occurs, ignoring case, in the id, the source name, the
      collection key, the status or the rejection reason. */
  predicate SearchMatches(item: UploadRequest, query: string) {
    || Contains(Lower(item.id), query)
    || Contains(Lower(item.sourceName), query)
    || Contains(Lower(item.collectionKey), query)
    || Contains(Lower(item.status), query)
    || Contains(Lower(ReasonText(item)), query)
  }

  /** A reason or search parameter that filters: given and not blank. */
  predicate QueryActive(query: Option<string>) {
    Common.Truthy(query) && Normalize(query.value) != []
  }

  /** The status filter: applied whenever a status is given. */
  function StatusFilter(items: seq<UploadRequest>, status: Option<string>): (r: seq<UploadRequest>)
    ensures !Common.Truthy(status) ==> r == items
    ensures multiset(r) <= multiset(items)
    ensures forall x :: x in r <==> x in items && (Common.Truthy(status) ==> StatusMatches(x, Normalize(status.value)))
  {
    if Common.Truthy(status) then
      var value := Normalize(status.value);
      Filter(items, x => StatusMatches(x, value))
    else items
  }

  /** The reason filter: a blank reason is ignored. */
  function ReasonFilter(items: seq<UploadRequest>, reason: Option<string>): (r: seq<UploadRequest>)
    ensures !QueryActive(reason) ==> r == items
    ensures multiset(r) <= multiset(items)
    ensures forall x :: x in r <==> x in items && (QueryActive(reason) ==> ReasonMatches(x, Normalize(reason.value)))
  {
    if QueryActive(reason) then
      var query := Normalize(reason.value);
      Filter(items, x => ReasonMatches(x, query))
    else items
  }

  /** The search filter: a blank search is ignored. */
  function SearchFilter(items: seq<UploadRequest>, search: Option<string>): (r: seq<UploadRequest>)
    ensures !QueryActive(search) ==> r == items
    ensures multiset(r) <= multiset(items)
    ensures forall x :: x in r <==> x in items && (QueryActive(search) ==> SearchMatches(x, Normalize(search.value)))
  {
    if QueryActive(search) then
      var query := Normalize(search.value);
      Filter(items, x => SearchMatches(x, query))
    else items
  }

  /** A request with a reason query kept has a rejection reason: a request
      with none never matches. */
  lemma ReasonFilterNeedsReason(items: seq<UploadRequest>, reason: Option<string>, x: UploadRequest)
    requires QueryActive(reason) && x in ReasonFilter(items, reason)
    ensures x.rejectedReason.Some?
  {
    assert Normalize("") == "";
    NothingInEmpty(Normalize(reason.value));
  }

  lemma NothingInEmpty(needle: string)
    requires needle != []
    ensures !Contains("", needle)
  {
  }

  // ---------------------------------------------------------------------------
  // The filters as written
  // ---------------------------------------------------------------------------

  /** The reason text as the listing computes it: `str(...)` of a missing
      reason is the text `None`. */
  function ReasonTextAsWritten(item: UploadRequest): string {
    Common.PyStr(item.rejectedReason)
  }

  /** The reason filter with that text. */
  function ReasonFilterAsWritten(items: seq<UploadRequest>, reason: Option<string>): (r: seq<UploadRequest>)
    ensures forall x :: x in r <==> x in items
                                    && (QueryActive(reason) ==> Contains(Normalize(ReasonTextAsWritten(x)), Normalize(reason.value)))
  {
    if QueryActive(reason) then
      var query := Normalize(reason.value);
      Filter(items, x => Contains(Normalize(ReasonTextAsWritten(x)), query))
    else items
  }

  lemma NoneNormal() ensures Normalize("None") == "none" {
    StripNoSpace("None");
  }

  lemma NoneQueryNormal() ensures Normalize("none") == "none" {
    NormalizeOfPlainWord("none");
  }

  /** A request that was never rejected matches the reason query `none` as
      written, and does not once a missing reason counts as empty. */
  lemma ReasonFilterAsWrittenMatchesMissingReason(item: UploadRequest)
    requires item.rejectedReason.None?
    ensures ReasonFilterAsWritten([item], Some("none")) == [item]
    ensures ReasonFilter([item], Some("none")) == []
  {
    AsWrittenKeepsMissingReason(item);
    ReasonFilterDropsMissingReason(item);
  }

  /** As written, the text of a missing reason is `None`, which holds `none`. */
  lemma AsWrittenKeepsMissingReason(item: UploadRequest)
    requires item.rejectedReason.None?
    ensures ReasonFilterAsWritten([item], Some("none")) == [item]
  {
    NoneNormal();
    NoneQueryNormal();
    assert QueryActive(Some("none"));
    assert Contains("none", "none");
    assert [item][..0] == [];
  }

  /** A missing reason counts as empty, which does not hold `none`. */
  lemma ReasonFilterDropsMissingReason(item: UploadRequest)
    requires item.rejectedReason.None?
    ensures ReasonFilter([item], Some("none")) == []
  {
    NoneQueryNormal();
    assert QueryActive(Some("none"));
    assert Normalize("") == "";
    assert !Contains("", "none");
    assert !ReasonMatches(item, "none");
    assert [item][..0] == [];
  }

  /** The search match with that text. */
  predicate SearchMatchesAsWritten(item: UploadRequest, query: string) {
    || Contains(Lower(item.id), query)
    || Contains(Lower(item.sourceName), query)
    || Contains(Lower(item.collectionKey), query)
    || Contains(Lower(item.status), query)
    || Contains(Lower(ReasonTextAsWritten(item)), query)
  }

  /** The search filter with that text. */
  function SearchFilterAsWritten(items: seq<UploadRequest>, search: Option<string>): (r: seq<UploadRequest>)
    ensures forall x :: x in r <==> x in items && (QueryActive(search) ==> SearchMatchesAsWritten(x, Normalize(search.value)))
  {
    if QueryActive(search) then
      var query := Normalize(search.value);
      Filter(items, x => SearchMatchesAsWritten(x, query))
    else items
  }

  /** The search `none` finds, as written, a pending request whose other
      fields do not contain it, and does not once a missing reason counts as
      empty. */
  lemma SearchFilterAsWrittenMatchesMissingReason(item: UploadRequest)
    requires item.rejectedReason.None?
    requires item.id == "r1" && item.sourceName == "a.md" && item.collectionKey == "all" && item.status == "pending"
    ensures item in SearchFilterAsWritten([item], Some("none"))
    ensures SearchFilter([item], Some("none")) == []
  {
    SearchAsWrittenKeepsMissingReason(item);
    NoFieldHoldsNone(item);
    NoneQueryNormal();
    assert QueryActive(Some("none"));
    assert [item][..0] == [];
  }

  lemma SearchAsWrittenKeepsMissingReason(item: UploadRequest)
    requires item.rejectedReason.None?
    ensures item in SearchFilterAsWritten([item], Some("none"))
  {
    NoneQueryNormal();
    assert QueryActive(Some("none"));
    assert Lower("None") == "none";
    assert Contains("none", "none");
  }

  lemma NoFieldHoldsNone(item: UploadRequest)
    requires item.rejectedReason.None?
    requires item.id == "r1" && item.sourceName == "a.md" && item.collectionKey == "all" && item.status == "pending"
    ensures !SearchMatches(item, "none")
  {
    assert 'o' in "none";
    NoOAfterLower("");
    NoOAfterLower("r1");
    NoOAfterLower("a.md");
    NoOAfterLower("all");
    NoOAfterLower("pending");
    MissingCharNotContained(Lower(""), "none", 'o');
    MissingCharNotContained(Lower("r1"), "none", 'o');
    MissingCharNotContained(Lower("a.md"), "none", 'o');
    MissingCharNotContained(Lower("all"), "none", 'o');
    MissingCharNotContained(Lower("pending"), "none", 'o');
  }

  lemma NoOAfterLower(s: string)
    requires 'o' !in s && 'O' !in s
    ensures 'o' !in Lower(s)
  {
  }

  // ---------------------------------------------------------------------------
  // Newest first
  // ---------------------------------------------------------------------------

  /** Each item was created no earlier than the next one. */
  predicate NewestFirst(items: seq<UploadRequest>) {
    forall i :: 0 <= i < |items| - 1 ==> !StrLess(items[i].createdAt, items[i + 1].createdAt)
  }

  /** `x` placed after every item created no earlier than it. */
  function InsertByCreated(x: UploadRequest, sorted: seq<UploadRequest>): (r: seq<UploadRequest>)
    ensures |r| == |sorted| + 1
    ensures multiset(r) == multiset(sorted) + multiset{x}
    ensures r[0] == x || (sorted != [] && r[0] == sorted[0])
    decreases |sorted|
  {
    if sorted == [] then [x]
    else if !StrLess(sorted[0].createdAt, x.createdAt) then
      assert sorted == [sorted[0]] + sorted[1..];
      [sorted[0]] + InsertByCreated(x, sorted[1..])
    else [x] + sorted
  }

  /** `sorted(items, key=created_at, reverse=True)`: later items are inserted
      behind equal ones, so equal keys keep their order. */
  function SortByCreatedDesc(items: seq<UploadRequest>): (r: seq<UploadRequest>)
    ensures multiset(r) == multiset(items)
    ensures |r| == |items|
    decreases |items|
  {
    if items == [] then []
    else
      var init := items[..|items| - 1];
      assert items == init + [items[|items| - 1]];
      InsertByCreated(items[|items| - 1], SortByCreatedDesc(init))
  }

  lemma {:induction false} InsertKeepsNewestFirst(x: UploadRequest, sorted: seq<UploadRequest>)
    requires NewestFirst(sorted)
    ensures NewestFirst(InsertByCreated(x, sorted))
    decreases |sorted|
  {
    if sorted != [] {
      var r := InsertByCreated(x, sorted);
      if !StrLess(sorted[0].createdAt, x.createdAt) {
        var rest := sorted[1..];
        InsertKeepsNewestFirst(x, rest);
        var t := InsertByCreated(x, rest);
        assert r == [sorted[0]] + t;
        assert !StrLess(sorted[0].createdAt, t[0].createdAt) by {
          if t[0] != x {
            assert t[0] == sorted[1];
          }
        }
        forall i | 0 <= i < |r| - 1
          ensures !StrLess(r[i].createdAt, r[i + 1].createdAt)
        {
          if i > 0 {
            assert r[i] == t[i - 1] && r[i + 1] == t[i];
          }
        }
      } else {
        StrLessAsymmetric(sorted[0].createdAt, x.createdAt);
        assert r == [x] + sorted;
        forall i | 0 <= i < |r| - 1
          ensures !StrLess(r[i].createdAt, r[i + 1].createdAt)
        {
          if i > 0 {
            assert r[i] == sorted[i - 1] && r[i + 1] == sorted[i];
          }
        }
      }
    }
  }

  /** The listing order: newest first. */
  lemma {:induction false} SortByCreatedDescNewestFirst(items: seq<UploadRequest>)
    ensures NewestFirst(SortByCreatedDesc(items))
    decreases |items|
  {
    if items != [] {
      var init := items[..|items| - 1];
      SortByCreatedDescNewestFirst(init);
      InsertKeepsNewestFirst(items[|items| - 1], SortByCreatedDesc(init));
    }
  }

  /** Newest first between neighbours is newest first between any two items. */
  lemma {:induction false} NewestFirstPairwise(items: seq<UploadRequest>, i: nat, j: nat)
    requires NewestFirst(items) && i <= j < |items|
    ensures !StrLess(items[i].createdAt, items[j].createdAt)
    decreases j - i
  {
    if i == j {
      StrLessIrreflexive(items[i].createdAt);
    } else {
      NewestFirstPairwise(items, i + 1, j);
      StrAtLeastTransitive(items[i].createdAt, items[i + 1].createdAt, items[j].createdAt);
    }
  }

  // ---------------------------------------------------------------------------
  // The listing
  // ---------------------------------------------------------------------------

  /** An item passes every filter that applies. */
  predicate Selected(x: UploadRequest, status: Option<string>, reason: Option<string>, search: Option<string>) {
    && (Common.Truthy(status) ==> StatusMatches(x, Normalize(status.value)))
    && (QueryActive(reason) ==> ReasonMatches(x, Normalize(reason.value)))
    && (QueryActive(search) ==> SearchMatches(x, Normalize(search.value)))
  }

  /** `list_upload_requests` over the stored items: status, then reason, then
      search, then newest first. */
  function ListUploadRequests(items: seq<UploadRequest>, status: Option<string>, reason: Option<string>,
                              search: Option<string>): (r: seq<UploadRequest>)
    ensures multiset(r) <= multiset(items)
    ensures NewestFirst(r)
  {
    var filtered := SearchFilter(ReasonFilter(StatusFilter(items, status), reason), search);
    SortByCreatedDescNewestFirst(filtered);
    SortByCreatedDesc(filtered)
  }

  /** The filters combine by AND: an item is listed exactly when it is stored
      and passes every filter that applies. */
  lemma ListUploadRequestsMembers(items: seq<UploadRequest>, status: Option<string>, reason: Option<string>,
                                  search: Option<string>)
    ensures forall x :: x in ListUploadRequests(items, status, reason, search) <==> x in items && Selected(x, status, reason, search)
  {
    var byStatus := StatusFilter(items, status);
    var byReason := ReasonFilter(byStatus, reason);
    var filtered := SearchFilter(byReason, search);
    var r := SortByCreatedDesc(filtered);
    forall x
      ensures x in r <==> x in items && Selected(x, status, reason, search)
    {
      assert x in r <==> x in multiset(filtered);
      assert x in filtered <==> x in byReason && (QueryActive(search) ==> SearchMatches(x, Normalize(search.value)));
      assert x in byReason <==> x in byStatus && (QueryActive(reason) ==> ReasonMatches(x, Normalize(reason.value)));
    }
  }

  /** With no filter, the listing is every stored item, newest first. */
  lemma ListAllIsPermutation(items: seq<UploadRequest>)
    ensures multiset(ListUploadRequests(items, None, None, None)) == multiset(items)
  {
  }

  // ---------------------------------------------------------------------------
  // Finding a request
  // ---------------------------------------------------------------------------

  /** The position of the first item with the id. */
  function FirstWithId(items: seq<UploadRequest>, requestId: string): (r: Option<nat>)
    ensures r.Some? ==> r.value < |items| && items[r.value].id == requestId
    ensures r.Some? ==> forall j :: 0 <= j < r.value ==> items[j].id != requestId
    ensures r.None? <==> forall j :: 0 <= j < |items| ==> items[j].id != requestId
    decreases |items|
  {
    if items == [] then None
    else if items[0].id == requestId then Some(0)
    else
      match FirstWithId(items[1..], requestId)
      case None => None
      case Some(i) => Some(i + 1)
  }

  /** The 404 of an unknown id. */
  function NotFound(requestId: string): HttpError {
    HttpError(404, "Upload request not found: " + requestId)
  }

  /** `find_upload_request`: the first item with the id and its index, or 404. */
  method FindUploadRequest(items: seq<UploadRequest>, requestId: string) returns (r: Result<(UploadRequest, nat), HttpError>)
    ensures r.Ok? <==> FirstWithId(items, requestId).Some?
    ensures r.Ok? ==> r.value.1 == FirstWithId(items, requestId).value && r.value.0 == items[r.value.1]
    ensures r.Err? ==> r.error == NotFound(requestId)
  {
    for index := 0 to |items|
      invariant forall j :: 0 <= j < index ==> items[j].id != requestId
    {
      if items[index].id == requestId {
        FirstWithIdIs(items, requestId, index);
        return Ok((items[index], index));
      }
    }
    return Err(NotFound(requestId));
  }

  /** The first matching position is the one a scan from the front stops at. */
  lemma FirstWithIdIs(items: seq<UploadRequest>, requestId: string, index: nat)
    requires index < |items| && items[index].id == requestId
    requires forall j :: 0 <= j < index ==> items[j].id != requestId
    ensures FirstWithId(items, requestId) == Some(index)
  {
    var r := FirstWithId(items, requestId);
    assert r.Some?;
    if r.value < index {
    } else if r.value > index {
    }
  }

  // ---------------------------------------------------------------------------
  // Pending check, metadata, collection
  // ---------------------------------------------------------------------------

  /** `ensure_pending_status`: 400, naming the status, unless it is exactly
      `pending`. */
  function EnsurePendingStatus(item: UploadRequest): (r: Option<HttpError>)
    ensures r.None? <==> item.status == REQUEST_STATUS_PENDING
    ensures r.Some? ==> r.value == HttpError(400, "Request is not pending. status=" + item.status)
  {
    if item.status != REQUEST_STATUS_PENDING then Some(HttpError(400, "Request is not pending. status=" + item.status))
    else None
  }

  /** `build_upload_request_metadata`: a non-blank country or document type
      wins, trimmed; otherwise the collection's default. */
  function BuildUploadRequestMetadata(sourceName: string, collectionKey: string, country: Option<string>,
                                      docType: Option<string>): (m: map<string, string>)
    ensures m.Keys == {"source", "country", "doc_type"}
    ensures m["source"] == sourceName
    ensures Common.NonBlank(country).Some? ==> m["country"] == Strip(country.value)
    ensures Common.NonBlank(country).None? ==> m["country"] == CollectionService.DefaultCountryForCollection(collectionKey)
    ensures Common.NonBlank(docType).Some? ==> m["doc_type"] == Strip(docType.value)
    ensures Common.NonBlank(docType).None? ==> m["doc_type"] == CollectionService.DefaultDocTypeForCollection(collectionKey)
  {
    var metadataCountry := Common.NonBlank(country).GetOr(CollectionService.DefaultCountryForCollection(collectionKey));
    var metadataDocType := Common.NonBlank(docType).GetOr(CollectionService.DefaultDocTypeForCollection(collectionKey));
    map["source" := sourceName, "country" := metadataCountry, "doc_type" := metadataDocType]
  }

  /** The default countries and document types are not blank. */
  lemma DefaultsNotBlank(collectionKey: string)
    ensures !IsBlank(CollectionService.DefaultCountryForCollection(collectionKey))
    ensures !IsBlank(CollectionService.DefaultDocTypeForCollection(collectionKey))
  {
    var c := CollectionService.DefaultCountryForCollection(collectionKey);
    assert c[0] != ' ' && !IsSpace(c[0]) by {
      assert c == "all" || c == "france" || c == "germany" || c == "italy" || c == "uk";
    }
    var d := CollectionService.DefaultDocTypeForCollection(collectionKey);
    assert !IsSpace(d[0]) by {
      assert d == "summary" || d == "country";
    }
  }

  /** With a non-blank source name the metadata lacks no required field. */
  lemma UploadMetadataComplete(sourceName: string, collectionKey: string, country: Option<string>, docType: Option<string>)
    requires !IsBlank(sourceName)
    ensures ValidateDoc.MetadataMissing(BuildUploadRequestMetadata(sourceName, collectionKey, country, docType)) == []
  {
    var m := BuildUploadRequestMetadata(sourceName, collectionKey, country, docType);
    DefaultsNotBlank(collectionKey);
    ValidateDoc.MetadataMissingSpec(m);
    StripEmptyIffBlank(country.GetOr(""));
    StripEmptyIffBlank(docType.GetOr(""));
    assert !IsBlank(ValidateDoc.MetadataValue(m, "source"));
    assert !IsBlank(ValidateDoc.MetadataValue(m, "country"));
    assert !IsBlank(ValidateDoc.MetadataValue(m, "doc_type"));
  }

  /** The 400 of an unknown collection, listing the registry keys. */
  function UnsupportedCollection(): HttpError {
    HttpError(400, "Unsupported collection. Use one of: " + Join(CollectionKeys(), ", "))
  }

  /** `resolve_requested_collection_key`: no or blank input means `all`. */
  function ResolveRequestedCollectionKey(collection: Option<string>): (r: Result<string, HttpError>)
    ensures r.Err? <==> CollectionService.ResolveCollectionKey(collection).Err?
    ensures r.Err? ==> r.error == UnsupportedCollection()
    ensures r.Ok? ==> r.value in CollectionKeys()
    ensures collection.None? || IsBlank(collection.value) ==> r == Ok(DEFAULT_COLLECTION_KEY)
    ensures CollectionService.ResolveCollectionKey(collection).Ok? && CollectionService.ResolveCollectionKey(collection).value.Some?
            ==> r == Ok(CollectionService.ResolveCollectionKey(collection).value.value)
  {
    CollectionKeysLiteral();
    match CollectionService.ResolveCollectionKey(collection)
    case Err(_) => Err(UnsupportedCollection())
    case Ok(key) => Ok(key.GetOr(DEFAULT_COLLECTION_KEY))
  }
}
