/** services/runtime_service.py: settings read from the environment (each
    environment value is a parameter, None when unset), the admin-code check
    and the sanitising of uploaded file names. */
module RuntimeService {
  import opened Wrappers
  import opened Text
  import opened Errors
  import Common
  import Settings

  const DEFAULT_ADMIN_CODE: string := "admin1234"
  const ADMIN_CODE_ERROR: string := "관리자 인증코드가 올바르지 않습니다."
  const TRUE_WORDS: set<string> := {"1", "true", "yes", "on", "y"}

  lemma DefaultAdminCodeIsStripped() ensures Strip(DEFAULT_ADMIN_CODE) == DEFAULT_ADMIN_CODE
  {
    StripNoSpace(DEFAULT_ADMIN_CODE);
  }

  /** `get_admin_code`: the stripped value, or the default when unset or blank. */
  function GetAdminCode(env: Option<string>): (r: string)
    ensures r != [] && Strip(r) == r
    ensures env.Some? && !IsBlank(env.value) ==> r == Strip(env.value)
    ensures env.None? || IsBlank(env.value) ==> r == DEFAULT_ADMIN_CODE
  {
    var value := Strip(env.GetOr(DEFAULT_ADMIN_CODE));
    DefaultAdminCodeIsStripped();
    StripIdempotent(env.GetOr(DEFAULT_ADMIN_CODE));
    StripEmptyIffBlank(env.GetOr(DEFAULT_ADMIN_CODE));
    if value != [] then value else DEFAULT_ADMIN_CODE
  }

  /** `verify_admin_code`: None when accepted, the 401 error otherwise. */
  function VerifyAdminCode(code: string, adminEnv: Option<string>): (r: Option<HttpError>)
    ensures r.None? <==> Strip(code) == GetAdminCode(adminEnv)
    ensures r.Some? ==> r.value == HttpError(401, ADMIN_CODE_ERROR)
  {
    if Strip(code) != GetAdminCode(adminEnv) then Some(HttpError(401, ADMIN_CODE_ERROR)) else None
  }

  /** The admin code is accepted, with or without surrounding whitespace; a
      blank code never is. */
  lemma VerifyAdminCodeAccepts(adminEnv: Option<string>, pad: string)
    requires IsBlank(pad)
    ensures VerifyAdminCode(GetAdminCode(adminEnv), adminEnv).None?
    ensures VerifyAdminCode(pad + GetAdminCode(adminEnv) + pad, adminEnv).None?
    ensures VerifyAdminCode(pad, adminEnv).Some?
  {
    PaddedAdminCodeAccepted(adminEnv, pad);
    BlankAdminCodeRejected(adminEnv, pad);
  }

  lemma PaddedAdminCodeAccepted(adminEnv: Option<string>, pad: string)
    requires IsBlank(pad)
    ensures VerifyAdminCode(pad + GetAdminCode(adminEnv) + pad, adminEnv).None?
  {
    var code := GetAdminCode(adminEnv);
    StripPadded(pad, code, pad);
  }

  lemma BlankAdminCodeRejected(adminEnv: Option<string>, pad: string)
    requires IsBlank(pad)
    ensures VerifyAdminCode(pad, adminEnv).Some?
  {
    StripEmptyIffBlank(pad);
  }

  /** `parse_bool_env`. */
  function ParseBoolEnv(raw: Option<string>, default: bool): (r: bool)
    ensures raw.None? ==> r == default
    ensures raw.Some? ==> (r <==> Normalize(raw.value) in TRUE_WORDS)
  {
    if raw.None? then default else Normalize(raw.value) in TRUE_WORDS
  }

  /** Only the stripped, lower-cased form of a set value matters. */
  lemma ParseBoolEnvOfNormalized(raw: string, default: bool)
    ensures ParseBoolEnv(Some(Normalize(raw)), default) == ParseBoolEnv(Some(raw), default)
  {
    assert Normalize(Normalize(raw)) == Normalize(raw) by { NormalizeIdempotent(raw); }
  }

  /** `is_auto_approve_enabled`: off unless set to a true word. */
  function IsAutoApproveEnabled(raw: Option<string>): (r: bool)
    ensures r <==> raw.Some? && Normalize(raw.value) in TRUE_WORDS
  {
    ParseBoolEnv(raw, false)
  }

  /** `get_query_timeout_seconds`: the parsed value when it is at least 1,
      otherwise 15; unset means the rendered default. */
  function GetQueryTimeoutSeconds(raw: Option<string>): (r: int)
    ensures r >= 1
    ensures raw.Some? && ParseInt(raw.value).Some? && ParseInt(raw.value).value >= 1 ==> r == ParseInt(raw.value).value
    ensures raw.None? || ParseInt(raw.value).None? || ParseInt(raw.value).value < 1 ==> r == Settings.DEFAULT_QUERY_TIMEOUT_SECONDS
  {
    var text := raw.GetOr(IntToString(Settings.DEFAULT_QUERY_TIMEOUT_SECONDS));
    ParseIntOfIntToString(Settings.DEFAULT_QUERY_TIMEOUT_SECONDS);
    ParseIntOfStrip(text);
    match ParseInt(Strip(text))
    case None => Settings.DEFAULT_QUERY_TIMEOUT_SECONDS
    case Some(n) => if n < 1 then Settings.DEFAULT_QUERY_TIMEOUT_SECONDS else n
  }

  /** A rendered timeout is read back when positive. */
  lemma QueryTimeoutOfRendered(n: int)
    ensures GetQueryTimeoutSeconds(Some(IntToString(n))) == if n >= 1 then n else Settings.DEFAULT_QUERY_TIMEOUT_SECONDS
  {
    ParseIntOfIntToString(n);
  }

  /** `get_max_context_chars`: the same rule as the optional positive integer
      settings. */
  function GetMaxContextChars(raw: Option<string>): (r: Option<int>)
    ensures r.Some? ==> r.value > 0
    ensures r.None? <==> raw.None? || ParseInt(raw.value).None? || ParseInt(raw.value).value <= 0
    ensures r.Some? ==> r == ParseInt(raw.value)
  {
    Common.ParseOptionalPositiveInt(raw)
  }

  lemma DefaultEncodingIsStripped()
    ensures Strip(Common.DEFAULT_TOKEN_ENCODING) == Common.DEFAULT_TOKEN_ENCODING
  {
    StripNoSpace(Common.DEFAULT_TOKEN_ENCODING);
  }

  /** The chunking mode `get_chunking_config` settles on: an unsupported mode
      falls back to `char`; unset means `char`. */
  function ChunkingModeSetting(rawMode: Option<string>): (m: string)
    ensures m in Common.SUPPORTED_CHUNKING_MODES
    ensures Common.NormalizeChunkingMode(Some(rawMode.GetOr(Common.CHUNKING_MODE_CHAR))).Ok? ==>
              m == Common.NormalizeChunkingMode(Some(rawMode.GetOr(Common.CHUNKING_MODE_CHAR))).value
    ensures Common.NormalizeChunkingMode(Some(rawMode.GetOr(Common.CHUNKING_MODE_CHAR))).Err? ==>
              m == Common.CHUNKING_MODE_CHAR
  {
    match Common.NormalizeChunkingMode(Some(rawMode.GetOr(Common.CHUNKING_MODE_CHAR)))
    case Ok(m) => m
    case Err(_) => Common.CHUNKING_MODE_CHAR
  }

  /** The token encoding `get_chunking_config` settles on. */
  function TokenEncodingSetting(rawEncoding: Option<string>): (e: string)
    ensures e != []
    ensures rawEncoding.Some? && !IsBlank(rawEncoding.value) ==> e == Strip(rawEncoding.value)
    ensures rawEncoding.None? || IsBlank(rawEncoding.value) ==> e == Common.DEFAULT_TOKEN_ENCODING
  {
    DefaultEncodingIsStripped();
    var encoding := Strip(rawEncoding.GetOr(Common.DEFAULT_TOKEN_ENCODING));
    StripEmptyIffBlank(rawEncoding.GetOr(Common.DEFAULT_TOKEN_ENCODING));
    if encoding == [] then Common.DEFAULT_TOKEN_ENCODING else encoding
  }

  datatype ChunkingConfig = ChunkingConfig(mode: string, tokenEncoding: string)

  /** `get_chunking_config`. */
  function GetChunkingConfig(rawMode: Option<string>, rawEncoding: Option<string>): (r: ChunkingConfig)
    ensures r.mode in Common.SUPPORTED_CHUNKING_MODES && r.tokenEncoding != []
  {
    ChunkingConfig(ChunkingModeSetting(rawMode), TokenEncodingSetting(rawEncoding))
  }

  /** Unset settings give the `char` mode and the default encoding. */
  lemma ChunkingConfigDefaults()
    ensures GetChunkingConfig(None, None) == ChunkingConfig(Common.CHUNKING_MODE_CHAR, Common.DEFAULT_TOKEN_ENCODING)
  {
    Common.CharModeIsNormal();
    assert Common.Truthy(Some(Common.CHUNKING_MODE_CHAR));
  }

  // ---------------------------------------------------------------------------
  // sanitize_source_name
  // ---------------------------------------------------------------------------

  /** The characters a sanitised name keeps. */
  predicate IsSafeChar(c: char) {
    IsAlnum(c) || c == '_' || c == '-' || c == '.'
  }

  function SafeChar(c: char): (d: char)
    ensures IsSafeChar(d)
    ensures IsSafeChar(c) ==> d == c
  {
    if IsSafeChar(c) then c else '_'
  }

  /** Every unsafe character replaced by `_`. */
  function SafeChars(s: string): (r: string)
    ensures |r| == |s|
    ensures forall i :: 0 <= i < |s| ==> r[i] == SafeChar(s[i])
  {
    seq(|s|, i requires 0 <= i < |s| => SafeChar(s[i]))
  }

  lemma SafeCharNotSpace(c: char)
    requires IsSafeChar(c)
    ensures !IsSpace(c)
  {
  }

  /** `safe` with `.md` appended unless it already ends in `.md`, ignoring case. */
  function WithMarkdownSuffix(safe: string): (r: string)
    ensures EndsWith(Lower(r), ".md")
    ensures |safe| <= |r| && r[..|safe|] == safe
    ensures EndsWith(Lower(safe), ".md") ==> r == safe
    ensures !EndsWith(Lower(safe), ".md") ==> r == safe + ".md"
  {
    if EndsWith(Lower(safe), ".md") then safe
    else
      var named := safe + ".md";
      assert Lower(named)[|named| - 3..] == ".md" by {
        assert named[|safe|] == '.' && named[|safe| + 1] == 'm' && named[|safe| + 2] == 'd';
      }
      named
  }

  /** Appending `.md` keeps a name of safe characters safe. */
  lemma WithMarkdownSuffixKeepsSafe(safe: string)
    requires forall i :: 0 <= i < |safe| ==> IsSafeChar(safe[i])
    ensures forall i :: 0 <= i < |WithMarkdownSuffix(safe)| ==> IsSafeChar(WithMarkdownSuffix(safe)[i])
  {
    var r := WithMarkdownSuffix(safe);
    if !EndsWith(Lower(safe), ".md") {
      assert r == safe + ".md";
      forall i | 0 <= i < |r| ensures IsSafeChar(r[i]) {
        if i < |safe| {
          assert r[i] == safe[i];
        } else {
          assert r[i] == ".md"[i - |safe|];
        }
      }
    }
  }

  /** `sanitize_source_name`. */
  function SanitizeSourceName(sourceName: string): (r: Result<string, ValueError>)
    ensures r.Err? <==> IsBlank(sourceName)
    ensures r.Err? ==> r.error == ValueError("source_name is empty")
  {
    var value := Strip(sourceName);
    StripEmptyIffBlank(sourceName);
    if value == [] then Err(ValueError("source_name is empty"))
    else
      var safe := SafeChars(value);
      Ok(WithMarkdownSuffix(safe))
  }

  /** A sanitised name holds only safe characters, ends in `.md` ignoring
      case, and starts with the stripped input, unsafe characters replaced. */
  lemma SanitizedNameIsSafe(sourceName: string)
    requires SanitizeSourceName(sourceName).Ok?
    ensures var r := SanitizeSourceName(sourceName).value;
            && (forall i :: 0 <= i < |r| ==> IsSafeChar(r[i]))
            && EndsWith(Lower(r), ".md")
            && |Strip(sourceName)| <= |r| && r[..|Strip(sourceName)|] == SafeChars(Strip(sourceName))
  {
    var safe := SafeChars(Strip(sourceName));
    assert SanitizeSourceName(sourceName).value == WithMarkdownSuffix(safe);
    assert forall i :: 0 <= i < |safe| ==> IsSafeChar(safe[i]);
    WithMarkdownSuffixKeepsSafe(safe);
  }

  /** Sanitising an already sanitised name changes nothing. */
  lemma SanitizeSourceNameIdempotent(sourceName: string)
    requires SanitizeSourceName(sourceName).Ok?
    ensures SanitizeSourceName(SanitizeSourceName(sourceName).value) == SanitizeSourceName(sourceName)
  {
    var r := SanitizeSourceName(sourceName).value;
    SanitizedNameIsSafe(sourceName);
    SanitizeOfSanitized(r);
  }

  /** A name of safe characters ending in `.md` is its own sanitised form. */
  lemma SanitizeOfSanitized(r: string)
    requires forall i :: 0 <= i < |r| ==> IsSafeChar(r[i])
    requires EndsWith(Lower(r), ".md")
    ensures SanitizeSourceName(r) == Ok(r)
  {
    SafeNameIsStripped(r);
    SafeCharsOfSafe(r);
    SanitizeOfFixedPoint(r);
  }

  lemma SafeNameIsStripped(r: string)
    requires forall i :: 0 <= i < |r| ==> IsSafeChar(r[i])
    ensures Strip(r) == r
  {
    forall i | 0 <= i < |r| ensures !IsSpace(r[i]) {
      SafeCharNotSpace(r[i]);
    }
    StripNoSpace(r);
  }

  lemma SanitizeOfFixedPoint(r: string)
    requires Strip(r) == r && SafeChars(r) == r && EndsWith(Lower(r), ".md")
    ensures SanitizeSourceName(r) == Ok(r)
  {
    SanitizeOfNonEmptyStripped(r);
    assert WithMarkdownSuffix(r) == r;
  }

  lemma SanitizeOfNonEmptyStripped(r: string)
    requires Strip(r) == r && EndsWith(Lower(r), ".md")
    ensures SanitizeSourceName(r) == Ok(WithMarkdownSuffix(SafeChars(r)))
  {
    assert r != [];
  }

  lemma SafeCharsOfSafe(s: string)
    requires forall i :: 0 <= i < |s| ==> IsSafeChar(s[i])
    ensures SafeChars(s) == s
  {
    var t := SafeChars(s);
    assert forall i :: 0 <= i < |s| ==> t[i] == s[i];
  }
}
