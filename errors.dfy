/** core/errors.py: the typed query error, its JSON payload, and the hint
    derived from a request-validation failure; plus the two exception kinds
    the rest of the service raises (Python's ValueError and FastAPI's
    HTTPException with a text detail). */
module Errors {
  import opened Wrappers
  import opened Text

  /** Python's `ValueError(message)`. */
  datatype ValueError = ValueError(message: string)

  /** FastAPI's `HTTPException(status_code, detail)` with a text detail. */
  datatype HttpError = HttpError(statusCode: int, detail: string)

  /** `QueryAPIError`: the four fields are stored exactly as given. */
  datatype QueryApiError = QueryApiError(code: string, statusCode: int, message: string, hint: Option<string>)

  /** The uniform JSON error body of the query endpoint. */
  datatype ErrorPayload = ErrorPayload(code: string, message: string, hint: Option<string>, requestId: string, detail: string)

  /** `build_query_error_payload`: every key is present and `detail` repeats the message. */
  function BuildQueryErrorPayload(code: string, message: string, requestId: string, hint: Option<string>): (p: ErrorPayload)
    ensures p.code == code && p.message == message && p.hint == hint && p.requestId == requestId
    ensures p.detail == p.message
  {
    ErrorPayload(code, message, hint, requestId, message)
  }

  /** One location component of a request-validation error (`str` or `int`). */
  datatype LocItem = LocName(name: string) | LocIndex(index: int)

  /** One entry of `RequestValidationError.errors()`: `loc` and `msg` may be absent. */
  datatype ValidationIssue = ValidationIssue(loc: Option<seq<LocItem>>, msg: Option<string>)

  const BODY_FORMAT_HINT: string := "요청 본문 형식을 확인하세요."
  const DEFAULT_ISSUE_MESSAGE: string := "요청 본문 형식이 올바르지 않습니다."
  const QUERY_HINT: string := "query는 1자 이상 입력해야 합니다."

  /** Python's `str(item)` for a location component. */
  function LocItemText(item: LocItem): string {
    match item
    case LocName(name) => name
    case LocIndex(index) => IntToString(index)
  }

  /** The location components as text, with every `"body"` component dropped. */
  function LocParts(items: seq<LocItem>): (r: seq<string>)
    ensures |r| <= |items|
    ensures forall p :: p in r ==> p != "body"
    ensures forall i :: 0 <= i < |items| && LocItemText(items[i]) != "body" ==> LocItemText(items[i]) in r
    ensures |items| == 1 ==> r == if LocItemText(items[0]) == "body" then [] else [LocItemText(items[0])]
  {
    if items == [] then []
    else
      var rest := LocParts(items[1..]);
      if LocItemText(items[0]) == "body" then rest else [LocItemText(items[0])] + rest
  }

  /** The kept components of a concatenation are those of each part, in
      order: with the single-component case this fixes both the order and the
      number of times each component appears. */
  lemma {:induction false} LocPartsAppend(a: seq<LocItem>, b: seq<LocItem>)
    ensures LocParts(a + b) == LocParts(a) + LocParts(b)
    decreases |a|
  {
    if a != [] {
      assert (a + b)[0] == a[0];
      assert (a + b)[1..] == a[1..] + b;
      LocPartsAppend(a[1..], b);
      if LocItemText(a[0]) != "body" {
        assert LocParts(a + b) == [LocItemText(a[0])] + (LocParts(a[1..]) + LocParts(b));
      }
    } else {
      assert a + b == b;
    }
  }

  /** The dotted location of the first validation issue. */
  function IssueLoc(issue: ValidationIssue): string {
    Join(LocParts(issue.loc.GetOr([])), ".")
  }

  /** `build_validation_hint`. */
  function BuildValidationHint(issues: seq<ValidationIssue>): (h: string)
    ensures issues == [] ==> h == BODY_FORMAT_HINT
    ensures issues != [] && IssueLoc(issues[0]) == "query" ==> h == QUERY_HINT
    ensures issues != [] && IssueLoc(issues[0]) != "query" && IssueLoc(issues[0]) != ""
            ==> h == IssueLoc(issues[0]) + ": " + issues[0].msg.GetOr(DEFAULT_ISSUE_MESSAGE)
    ensures issues != [] && IssueLoc(issues[0]) == "" ==> h == issues[0].msg.GetOr(DEFAULT_ISSUE_MESSAGE)
  {
    if issues == [] then BODY_FORMAT_HINT
    else
      var loc := IssueLoc(issues[0]);
      var msg := issues[0].msg.GetOr(DEFAULT_ISSUE_MESSAGE);
      if loc == "query" then QUERY_HINT
      else if loc != "" then loc + ": " + msg
      else msg
  }

  /** An empty `query` field is reported at location `body.query`, which
      yields the fixed query hint. */
  lemma EmptyQueryGetsQueryHint(msg: Option<string>)
    ensures BuildValidationHint([ValidationIssue(Some([LocName("body"), LocName("query")]), msg)]) == QUERY_HINT
  {
    var items := [LocName("body"), LocName("query")];
    assert LocParts(items[1..]) == ["query"];
    assert LocParts(items) == ["query"];
  }
}
