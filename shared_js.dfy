/** web/js/shared.js: HTML escaping and the reading and formatting of API
    errors in the browser. JavaScript values are modelled by `JsValue`
    (numbers as integers), `||` and truthiness as JavaScript defines them,
    and `JSON.stringify` is a parameter. */
module SharedJs {
  import opened Text

  // ---------------------------------------------------------------------------
  // escapeHtml
  // ---------------------------------------------------------------------------

  /** `s.replaceAll(c, rep)` for a one-character pattern. */
  function ReplaceAll(s: string, c: char, rep: string): (r: string)
    ensures c !in rep ==> c !in r
    ensures forall x :: x in r ==> x in s || x in rep
    decreases |s|
  {
    if s == [] then []
    else (if s[0] == c then rep else [s[0]]) + ReplaceAll(s[1..], c, rep)
  }

  /** `escapeHtml`: `&` first, then `<`, then `>`. */
  function EscapeHtml(s: string): (r: string)
    ensures '<' !in r && '>' !in r
  {
    ReplaceAll(ReplaceAll(ReplaceAll(s, '&', "&amp;"), '<', "&lt;"), '>', "&gt;")
  }

  /** The escape of one character. */
  function EscapeChar(c: char): string {
    if c == '&' then "&amp;" else if c == '<' then "&lt;" else if c == '>' then "&gt;" else [c]
  }

  /** The reference escape: each character replaced by its escape. */
  function Escaped(s: string): string
    decreases |s|
  {
    if s == [] then [] else EscapeChar(s[0]) + Escaped(s[1..])
  }

  /** `replaceAll` distributes over concatenation. */
  lemma {:induction false} ReplaceAllAppend(a: string, b: string, c: char, rep: string)
    ensures ReplaceAll(a + b, c, rep) == ReplaceAll(a, c, rep) + ReplaceAll(b, c, rep)
    decreases |a|
  {
    if a == [] {
      assert a + b == b;
    } else {
      var h := if a[0] == c then rep else [a[0]];
      var ra := ReplaceAll(a[1..], c, rep);
      var rb := ReplaceAll(b, c, rep);
      assert (a + b) != [] && (a + b)[0] == a[0] && (a + b)[1..] == a[1..] + b;
      assert ReplaceAll(a + b, c, rep) == h + ReplaceAll(a[1..] + b, c, rep);
      ReplaceAllAppend(a[1..], b, c, rep);
      assert ReplaceAll(a, c, rep) == h + ra;
      assert h + (ra + rb) == (h + ra) + rb;
    }
  }

  /** A string without the pattern is left as it is. */
  lemma {:induction false} ReplaceAllAbsent(s: string, c: char, rep: string)
    requires c !in s
    ensures ReplaceAll(s, c, rep) == s
    decreases |s|
  {
    if s != [] {
      assert s[1..] + [] == s[1..];
      assert c !in s[1..];
      ReplaceAllAbsent(s[1..], c, rep);
      assert [s[0]] + s[1..] == s;
    }
  }

  /** The three chained replacements escape each character on its own. */
  lemma {:induction false} EscapeHtmlIsPerChar(s: string)
    ensures EscapeHtml(s) == Escaped(s)
    decreases |s|
  {
    if s != [] {
      var c := s[0];
      EscapeHtmlIsPerChar(s[1..]);
      var a := ReplaceAll(s[1..], '&', "&amp;");
      var b := ReplaceAll(a, '<', "&lt;");
      var first := if c == '&' then "&amp;" else [c];
      assert ReplaceAll(s, '&', "&amp;") == first + a;
      ReplaceAllAppend(first, a, '<', "&lt;");
      var second := ReplaceAll(first, '<', "&lt;");
      ReplaceAllAppend(second, b, '>', "&gt;");
      EscapeCharSteps(c);
    }
  }

  /** The chained replacements on the escape of one character. */
  lemma EscapeCharSteps(c: char)
    ensures var first := if c == '&' then "&amp;" else [c];
            ReplaceAll(ReplaceAll(first, '<', "&lt;"), '>', "&gt;") == EscapeChar(c)
  {
    if c == '&' {
      ReplaceAllAbsent("&amp;", '<', "&lt;");
      ReplaceAllAbsent("&amp;", '>', "&gt;");
    } else if c == '<' {
      ReplaceAllOfMatch(c, "&lt;");
      ReplaceAllAbsent("&lt;", '>', "&gt;");
    } else if c == '>' {
      ReplaceAllAbsent([c], '<', "&lt;");
      ReplaceAllOfMatch(c, "&gt;");
    } else {
      ReplaceAllAbsent([c], '<', "&lt;");
      ReplaceAllAbsent([c], '>', "&gt;");
    }
  }

  /** The replaced character alone becomes its replacement. */
  lemma ReplaceAllOfMatch(c: char, rep: string)
    ensures ReplaceAll([c], c, rep) == rep
  {
    assert [c][1..] == [];
    assert rep + [] == rep;
  }

  /** An entity this escape produces starts at position `i`. */
  predicate EntityAt(r: string, i: nat)
    requires i <= |r|
  {
    StartsWith(r[i..], "&amp;") || StartsWith(r[i..], "&lt;") || StartsWith(r[i..], "&gt;")
  }

  /** In the escaped text every `&` begins `&amp;`, `&lt;` or `&gt;`. */
  lemma EscapeHtmlAmpersands(s: string)
    ensures var r := EscapeHtml(s);
            forall i :: 0 <= i < |r| && r[i] == '&' ==> EntityAt(r, i)
  {
    EscapeHtmlIsPerChar(s);
    EscapedAmpersands(s);
  }

  lemma {:induction false} EscapedAmpersands(s: string)
    ensures forall i :: 0 <= i < |Escaped(s)| && Escaped(s)[i] == '&' ==> EntityAt(Escaped(s), i)
    decreases |s|
  {
    if s != [] {
      var e := EscapeChar(s[0]);
      var rest := Escaped(s[1..]);
      var r := Escaped(s);
      EscapedAmpersands(s[1..]);
      assert r == e + rest;
      forall i | 0 <= i < |r| && r[i] == '&' ensures EntityAt(r, i) {
        if i < |e| {
          assert i == 0 && r[i..] == e + rest;
          PrefixOfAppend(e, rest);
        } else {
          var j := i - |e|;
          assert r[i] == rest[j];
          assert r[i..] == rest[j..];
          assert EntityAt(rest, j);
        }
      }
    }
  }

  /** A string starts with itself followed by anything. */
  lemma PrefixOfAppend(a: string, b: string)
    ensures StartsWith(a + b, a)
  {
    assert (a + b)[..|a|] == a;
  }

  /** The decoder of the three entities this escape produces. */
  function Unescape(r: string): (s: string)
    ensures |s| <= |r|
    decreases |r|
  {
    if r == [] then []
    else if StartsWith(r, "&amp;") then "&" + Unescape(r[5..])
    else if StartsWith(r, "&lt;") then "<" + Unescape(r[4..])
    else if StartsWith(r, "&gt;") then ">" + Unescape(r[4..])
    else [r[0]] + Unescape(r[1..])
  }

  /** Decoding the escape gives back the text, so no two texts share an
      escape. */
  lemma EscapeHtmlRoundTrip(s: string)
    ensures Unescape(EscapeHtml(s)) == s
  {
    EscapeHtmlIsPerChar(s);
    UnescapeEscaped(s);
  }

  lemma {:induction false} UnescapeEscaped(s: string)
    ensures Unescape(Escaped(s)) == s
    decreases |s|
  {
    if s != [] {
      var c := s[0];
      var rest := Escaped(s[1..]);
      UnescapeEscaped(s[1..]);
      var r := EscapeChar(c) + rest;
      assert Escaped(s) == r;
      PrefixOfAppend(EscapeChar(c), rest);
      if c == '&' {
        assert r[5..] == rest;
      } else if c == '<' {
        assert r[1] == 'l' && "&amp;"[1] == 'a';
        assert r[4..] == rest;
      } else if c == '>' {
        assert r[1] == 'g' && "&amp;"[1] == 'a' && "&lt;"[1] == 'l';
        assert r[4..] == rest;
      } else {
        assert r[0] == c && r[1..] == rest;
      }
      assert [c] + s[1..] == s;
    }
  }

  /** Different texts have different escapes. */
  lemma EscapeHtmlInjective(a: string, b: string)
    requires EscapeHtml(a) == EscapeHtml(b)
    ensures a == b
  {
    EscapeHtmlRoundTrip(a);
    EscapeHtmlRoundTrip(b);
  }

  // ---------------------------------------------------------------------------
  // JavaScript values
  // ---------------------------------------------------------------------------

  /** A JavaScript value as parsed JSON and property access produce it. */
  datatype JsValue =
    | Undefined
    | Null
    | Bool(b: bool)
    | Num(n: int)
    | Str(s: string)
    | Arr(items: seq<JsValue>)
    | Obj(fields: map<string, JsValue>)

  /** JavaScript truthiness (`NaN` aside, as numbers are integers here). */
  predicate Truthy(v: JsValue) {
    match v
    case Undefined => false
    case Null => false
    case Bool(b) => b
    case Num(n) => n != 0
    case Str(s) => s != []
    case Arr(_) => true
    case Obj(_) => true
  }

  /** `typeof v === "object"`: objects, arrays and `null`. */
  predicate IsObjectType(v: JsValue) {
    v.Obj? || v.Arr? || v.Null?
  }

  /** `a || b`. */
  function JsOr(a: JsValue, b: JsValue): (r: JsValue)
    ensures Truthy(r) <==> Truthy(a) || Truthy(b)
  {
    if Truthy(a) then a else b
  }

  /** Property access `v.name`: only objects hold named properties here. */
  function Get(v: JsValue, name: string): JsValue {
    if v.Obj? && name in v.fields then v.fields[name] else Undefined
  }

  /** `String(v)`, as template literals convert: arrays join their elements
      with commas, writing `null` and `undefined` elements as empty. */
  function ToJsString(v: JsValue): string
    decreases v
  {
    match v
    case Undefined => "undefined"
    case Null => "null"
    case Bool(b) => if b then "true" else "false"
    case Num(n) => IntToString(n)
    case Str(s) => s
    case Obj(_) => "[object Object]"
    case Arr(items) =>
      Join(seq(|items|, i requires 0 <= i < |items| =>
                 if items[i].Undefined? || items[i].Null? then "" else ToJsString(items[i])), ",")
  }

  /** How `Array.prototype.join` writes one element. */
  function JoinText(v: JsValue): string {
    if v.Undefined? || v.Null? then "" else ToJsString(v)
  }

  // ---------------------------------------------------------------------------
  // parseApiError and formatApiError
  // ---------------------------------------------------------------------------

  /** The `{message, hint, requestId}` object `parseApiError` returns. */
  datatype ApiError = ApiError(message: JsValue, hint: JsValue, requestId: JsValue)

  /** The message a `detail` value contributes: itself when a string, its
      `message` or else its JSON text when a truthy object, else empty. */
  function DetailMessage(detail: JsValue, stringify: JsValue -> string): (r: JsValue)
    ensures detail.Str? ==> r == detail
    ensures !detail.Str? && !(Truthy(detail) && IsObjectType(detail)) ==> r == Str("")
    ensures Truthy(detail) && IsObjectType(detail) ==>
              r == (if Truthy(Get(detail, "message")) then Get(detail, "message") else Str(stringify(detail)))
  {
    if detail.Str? then detail
    else if Truthy(detail) && IsObjectType(detail) then JsOr(Get(detail, "message"), Str(stringify(detail)))
    else Str("")
  }

  /** The hint a `detail` value contributes: its `hint` or empty when a
      truthy object, else empty. */
  function DetailHint(detail: JsValue): JsValue {
    if Truthy(detail) && IsObjectType(detail) then JsOr(Get(detail, "hint"), Str("")) else Str("")
  }

  /** `parseApiError(data, fallbackMessage)`. */
  function ParseApiError(data: JsValue, fallback: string, stringify: JsValue -> string): (e: ApiError)
    ensures !Truthy(data) || !IsObjectType(data) ==> e == ApiError(Str(fallback), Str(""), Str(""))
  {
    if !Truthy(data) || !IsObjectType(data) then ApiError(Str(fallback), Str(""), Str(""))
    else
      var detail := Get(data, "detail");
      var detailMessage := DetailMessage(detail, stringify);
      var hint := JsOr(Get(data, "hint"), DetailHint(detail));
      ApiError(JsOr(JsOr(Get(data, "message"), detailMessage), Str(fallback)), hint, JsOr(Get(data, "request_id"), Str("")))
  }

  /** The message comes from `data.message`, else from a non-empty string
      `detail`, else from an object `detail` (its `message`, else its JSON
      text), else it is the fallback. */
  lemma MessagePrecedence(data: JsValue, fallback: string, stringify: JsValue -> string)
    requires Truthy(data) && IsObjectType(data)
    ensures var m := ParseApiError(data, fallback, stringify).message;
            var detail := Get(data, "detail");
            && (Truthy(Get(data, "message")) ==> m == Get(data, "message"))
            && (!Truthy(Get(data, "message")) && detail.Str? && detail.s != [] ==> m == detail)
            && (!Truthy(Get(data, "message")) && detail.Obj? && Truthy(Get(detail, "message")) ==> m == Get(detail, "message"))
            && (!Truthy(Get(data, "message")) && detail.Obj? && !Truthy(Get(detail, "message")) && stringify(detail) != []
                ==> m == Str(stringify(detail)))
            && (!Truthy(Get(data, "message")) && !detail.Str? && !detail.Obj? && !detail.Arr? ==> m == Str(fallback))
  {
  }

  /** The hint comes from `data.hint`, else from an object `detail`'s
      `hint`, else it is empty; it is always truthy or the empty string when
      `data.hint` is absent. */
  lemma HintPrecedence(data: JsValue, fallback: string, stringify: JsValue -> string)
    requires Truthy(data) && IsObjectType(data)
    ensures var h := ParseApiError(data, fallback, stringify).hint;
            var detail := Get(data, "detail");
            && (Truthy(Get(data, "hint")) ==> h == Get(data, "hint"))
            && (!Truthy(Get(data, "hint")) && detail.Obj? && Truthy(Get(detail, "hint")) ==> h == Get(detail, "hint"))
            && (!Truthy(Get(data, "hint")) && !(detail.Obj? && Truthy(Get(detail, "hint"))) && !detail.Arr? ==> h == Str(""))
  {
  }

  /** The request id is `data.request_id` when truthy, else empty. */
  lemma RequestIdOrEmpty(data: JsValue, fallback: string, stringify: JsValue -> string)
    ensures var id := ParseApiError(data, fallback, stringify).requestId;
            Truthy(id) || id == Str("")
    ensures Truthy(data) && IsObjectType(data) && Truthy(Get(data, "request_id")) ==>
              ParseApiError(data, fallback, stringify).requestId == Get(data, "request_id")
  {
  }

  /** A parsed message is never falsy when the fallback is not empty. */
  lemma MessageNeverEmpty(data: JsValue, fallback: string, stringify: JsValue -> string)
    requires fallback != []
    ensures Truthy(ParseApiError(data, fallback, stringify).message)
  {
  }

  /** `formatApiError`: the message, then the truthy hint and request id as
      `hint: …` and `request_id: …`, joined by ` | `. */
  function FormatApiError(e: ApiError): (r: string)
    // the message, then one ` | `-separated segment for each of a truthy hint
    // and a truthy request id, in that order
    ensures r == JoinText(e.message)
                 + (if Truthy(e.hint) then " | " + ("hint: " + ToJsString(e.hint)) else "")
                 + (if Truthy(e.requestId) then " | " + ("request_id: " + ToJsString(e.requestId)) else "")
  {
    var m := JoinText(e.message);
    var h := "hint: " + ToJsString(e.hint);
    var id := "request_id: " + ToJsString(e.requestId);
    JoinSegments(m, h, id, Truthy(e.hint), Truthy(e.requestId));
    Join([m] + (if Truthy(e.hint) then [h] else []) + (if Truthy(e.requestId) then [id] else []), " | ")
  }

  /** The formatted error is the message followed by one ` | `-separated
      segment for each of a truthy hint and a truthy request id, in that
      order. */
  lemma JoinSegments(m: string, h: string, id: string, withHint: bool, withId: bool)
    ensures Join([m] + (if withHint then [h] else []) + (if withId then [id] else []), " | ")
            == m + (if withHint then " | " + h else "") + (if withId then " | " + id else "")
  {
    if withHint && withId {
      assert [m] + [h] + [id] == [m, h, id];
      JoinThree(m, h, id, " | ");
    } else if withHint {
      assert [m] + [h] + [] == [m, h];
      JoinTwo(m, h, " | ");
      assert m + " | " + h == m + (" | " + h) + "";
    } else if withId {
      assert [m] + [] + [id] == [m, id];
      JoinTwo(m, id, " | ");
      assert m + " | " + id == m + "" + (" | " + id);
    } else {
      assert [m] + [] + [] == [m];
      assert m == m + "" + "";
    }
  }

  lemma JoinTwo(x: string, y: string, sep: string)
    ensures Join([x, y], sep) == x + sep + y
  {
    assert [x, y][1..] == [y];
  }

  lemma JoinThree(x: string, y: string, z: string, sep: string)
    ensures Join([x, y, z], sep) == x + (sep + y) + (sep + z)
  {
    assert [x, y, z][1..] == [y, z];
    JoinTwo(y, z, sep);
    assert x + sep + (y + sep + z) == x + (sep + y) + (sep + z);
  }

  /** Data that is not an object formats as the bare fallback message. */
  lemma FormatOfNonObject(data: JsValue, fallback: string, stringify: JsValue -> string)
    requires !Truthy(data) || !IsObjectType(data)
    ensures FormatApiError(ParseApiError(data, fallback, stringify)) == fallback
  {
  }

  /** An error body with a string message, hint and request id formats as
      `message | hint: … | request_id: …`, leaving out the empty ones. */
  lemma FormatOfStringFields(message: string, hint: string, requestId: string, fallback: string,
                             stringify: JsValue -> string)
    requires message != []
    ensures var data := Obj(map["message" := Str(message), "hint" := Str(hint), "request_id" := Str(requestId)]);
            FormatApiError(ParseApiError(data, fallback, stringify))
            == message + (if hint != [] then " | " + ("hint: " + hint) else "")
                       + (if requestId != [] then " | " + ("request_id: " + requestId) else "")
  {
    var data := Obj(map["message" := Str(message), "hint" := Str(hint), "request_id" := Str(requestId)]);
    var e := ParseApiError(data, fallback, stringify);
    assert e.message == Str(message);
    assert e.hint == (if hint != [] then Str(hint) else Str(""));
    assert e.requestId == (if requestId != [] then Str(requestId) else Str(""));
  }
}
