/** core/http.py: the request id a response carries. An id already recorded
    on the request wins, then the `X-Request-ID` header, then a fresh UUID;
    the chosen id is recorded on the request so later calls agree. */
module Http {
  import opened Wrappers
  import opened Text

  /** The mutable `request.state`; `requestId` is None until an id is
      recorded (a value that is not a string counts as None). */
  class RequestState {
    var requestId: Option<string>

    constructor (existing: Option<string>)
      ensures requestId == existing
    {
      requestId := existing;
    }
  }

  /** A usable UUID: non-empty and with no surrounding whitespace, as `uuid4()`
      renders. */
  predicate IsFreshId(uuid: string) {
    uuid != [] && Strip(uuid) == uuid
  }

  /** The id `get_or_create_request_id` returns for a recorded id, a header
      value (`""` when absent) and a fresh UUID. */
  function ChooseRequestId(existing: Option<string>, header: string, uuid: string): (r: string)
    requires IsFreshId(uuid)
    ensures r != [] && Strip(r) == r
    ensures existing.Some? && !IsBlank(existing.value) ==> r == Strip(existing.value)
    ensures (existing.None? || IsBlank(existing.value)) && !IsBlank(header) ==> r == Strip(header)
    ensures (existing.None? || IsBlank(existing.value)) && IsBlank(header) ==> r == uuid
  {
    StripEmptyIffBlank(existing.GetOr(""));
    StripEmptyIffBlank(header);
    if existing.Some? && Strip(existing.value) != [] then
      StripIdempotent(existing.value);
      Strip(existing.value)
    else if Strip(header) != [] then
      StripIdempotent(header);
      Strip(header)
    else uuid
  }

  /** Asking again, with any header and any fresh UUID, gives the same id. */
  lemma ChooseRequestIdStable(existing: Option<string>, header: string, uuid: string, header2: string, uuid2: string)
    requires IsFreshId(uuid) && IsFreshId(uuid2)
    ensures var id := ChooseRequestId(existing, header, uuid);
            var recorded := if existing.Some? && !IsBlank(existing.value) then existing else Some(id);
            ChooseRequestId(recorded, header2, uuid2) == id
  {
    var id := ChooseRequestId(existing, header, uuid);
    if existing.Some? && !IsBlank(existing.value) {
      assert ChooseRequestId(existing, header2, uuid2) == Strip(existing.value);
    } else {
      StripEmptyIffBlank(id);
      assert !IsBlank(id);
    }
  }

  /** `get_or_create_request_id`: the header and the UUID are parameters. */
  method GetOrCreateRequestId(state: RequestState, header: string, uuid: string) returns (id: string)
    requires IsFreshId(uuid)
    modifies state
    ensures id == ChooseRequestId(old(state.requestId), header, uuid)
    ensures old(state.requestId).Some? && !IsBlank(old(state.requestId).value) ==> state.requestId == old(state.requestId)
    ensures old(state.requestId).None? || IsBlank(old(state.requestId).value) ==> state.requestId == Some(id)
  {
    var existing := state.requestId;
    StripEmptyIffBlank(existing.GetOr(""));
    if existing.Some? && Strip(existing.value) != [] {
      return Strip(existing.value);
    }
    var headerValue := Strip(header);
    id := if headerValue != [] then headerValue else uuid;
    state.requestId := Some(id);
  }

  /** Two calls on one request return the same id. */
  method RequestIdTwice(state: RequestState, header1: string, uuid1: string, header2: string, uuid2: string)
    returns (first: string, second: string)
    requires IsFreshId(uuid1) && IsFreshId(uuid2)
    modifies state
    ensures first == second && first != []
    ensures first == ChooseRequestId(old(state.requestId), header1, uuid1)
    ensures old(state.requestId).Some? && !IsBlank(old(state.requestId).value) ==> state.requestId == old(state.requestId)
    ensures old(state.requestId).None? || IsBlank(old(state.requestId).value) ==> state.requestId == Some(first)
  {
    first := GetOrCreateRequestId(state, header1, uuid1);
    second := GetOrCreateRequestId(state, header2, uuid2);
    ChooseRequestIdStable(old(state.requestId), header1, uuid1, header2, uuid2);
  }
}
