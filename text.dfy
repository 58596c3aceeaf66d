/** The string primitives of Python and JavaScript that the service relies on,
    written out over `seq<char>`: whitespace, strip, lower, `in`, join, split,
    splitlines, decimal rendering and `int()` parsing. */
module Text {
  import opened Wrappers

  // ---------------------------------------------------------------------------
  // Whitespace and strip
  // ---------------------------------------------------------------------------

  /** Python's `str.isspace` (also what `strip()`, `split()` and `re`'s `\s` use). */
  predicate IsSpace(c: char) {
    var n := c as int;
    n == 32 || 9 <= n <= 13 || 0x1c <= n <= 0x1f || n == 0x85 || n == 0xa0 || n == 0x1680
    || 0x2000 <= n <= 0x200a || n == 0x2028 || n == 0x2029 || n == 0x202f || n == 0x205f
    || n == 0x3000
  }

  /** True when `s.strip()` is empty, i.e. Python treats the stripped string as false. */
  predicate IsBlank(s: string) {
    forall i :: 0 <= i < |s| ==> IsSpace(s[i])
  }

  /** Python's `lstrip()`. */
  function TrimStart(s: string): (r: string)
    ensures |r| <= |s|
    ensures r != [] ==> !IsSpace(r[0])
  {
    if s == [] then []
    else if IsSpace(s[0]) then TrimStart(s[1..])
    else s
  }

  /** `lstrip()` keeps a suffix of its input. */
  lemma {:induction false} TrimStartSuffix(s: string)
    ensures TrimStart(s) == s[|s| - |TrimStart(s)|..]
    decreases |s|
  {
    if s != [] && IsSpace(s[0]) {
      TrimStartSuffix(s[1..]);
      assert s[1..][|s| - 1 - |TrimStart(s)|..] == s[|s| - |TrimStart(s)|..];
    }
  }

  /** What `lstrip()` removes is whitespace. */
  lemma {:induction false} TrimStartSpaces(s: string)
    ensures forall i :: 0 <= i < |s| - |TrimStart(s)| ==> IsSpace(s[i])
    decreases |s|
  {
    if s != [] && IsSpace(s[0]) {
      TrimStartSpaces(s[1..]);
      forall i | 0 < i < |s| - |TrimStart(s)| ensures IsSpace(s[i]) {
        assert s[i] == s[1..][i - 1];
      }
    }
  }

  /** Python's `rstrip()`. */
  function TrimEnd(s: string): (r: string)
    ensures |r| <= |s|
    ensures r != [] ==> !IsSpace(r[|r| - 1])
  {
    if s == [] then []
    else if IsSpace(s[|s| - 1]) then TrimEnd(s[..|s| - 1])
    else s
  }

  /** `rstrip()` keeps a prefix of its input. */
  lemma {:induction false} TrimEndPrefix(s: string)
    ensures TrimEnd(s) == s[..|TrimEnd(s)|]
    decreases |s|
  {
    if s != [] && IsSpace(s[|s| - 1]) {
      TrimEndPrefix(s[..|s| - 1]);
      assert s[..|s| - 1][..|TrimEnd(s)|] == s[..|TrimEnd(s)|];
    }
  }

  /** What `rstrip()` removes is whitespace. */
  lemma {:induction false} TrimEndSpaces(s: string)
    ensures forall i :: |TrimEnd(s)| <= i < |s| ==> IsSpace(s[i])
    decreases |s|
  {
    if s != [] && IsSpace(s[|s| - 1]) {
      TrimEndSpaces(s[..|s| - 1]);
      forall i | |TrimEnd(s)| <= i < |s| - 1 ensures IsSpace(s[i]) {
        assert s[i] == s[..|s| - 1][i];
      }
    }
  }

  /** Python's `strip()`: no surrounding whitespace is left. */
  function Strip(s: string): (r: string)
    ensures r != [] ==> !IsSpace(r[0]) && !IsSpace(r[|r| - 1])
    ensures |r| <= |s|
  {
    TrimEndPrefix(TrimStart(s));
    TrimEnd(TrimStart(s))
  }

  /** `strip()` is empty exactly when the input is all whitespace. */
  lemma StripEmptyIffBlank(s: string)
    ensures Strip(s) == [] <==> IsBlank(s)
  {
    var t := TrimStart(s);
    TrimStartSpaces(s);
    TrimEndSpaces(t);
    if !IsBlank(s) {
      var i :| 0 <= i < |s| && !IsSpace(s[i]);
      assert i >= |s| - |t|;
      assert t != [] && !IsSpace(t[0]);
    } else {
      TrimStartOfBlank(s);
    }
  }

  lemma {:induction false} TrimStartOfBlank(s: string)
    requires IsBlank(s)
    ensures TrimStart(s) == []
    decreases |s|
  {
    if s != [] {
      assert IsSpace(s[0]);
      assert IsBlank(s[1..]) by {
        forall i | 0 <= i < |s| - 1 ensures IsSpace(s[1..][i]) {
          assert s[1..][i] == s[i + 1];
        }
      }
      TrimStartOfBlank(s[1..]);
    }
  }

  /** A string without any whitespace is its own strip. */
  lemma StripNoSpace(s: string)
    requires forall i :: 0 <= i < |s| ==> !IsSpace(s[i])
    ensures Strip(s) == s
  {
    assert TrimStart(s) == s by {
      if s != [] { assert !IsSpace(s[0]); }
    }
    if s != [] { assert !IsSpace(s[|s| - 1]); }
  }

  // ---------------------------------------------------------------------------
  // Case
  // ---------------------------------------------------------------------------

  /** Python's `lower()` on one character, for ASCII letters (other scripts
      the service handles, such as Hangul, have no case). */
  function LowerChar(c: char): char {
    if 'A' <= c <= 'Z' then (c as int + 32) as char else c
  }

  function Lower(s: string): (r: string)
    ensures |r| == |s|
    ensures forall i :: 0 <= i < |s| ==> r[i] == LowerChar(s[i])
  {
    seq(|s|, i requires 0 <= i < |s| => LowerChar(s[i]))
  }

  /** Lower-casing keeps whitespace where it was. */
  lemma LowerKeepsSpaces(s: string)
    ensures forall i :: 0 <= i < |s| ==> (IsSpace(Lower(s)[i]) <==> IsSpace(s[i]))
  {
  }

  /** A string with no whitespace at either end is its own strip. */
  lemma StripOfTrimmed(r: string)
    requires r != [] ==> !IsSpace(r[0]) && !IsSpace(r[|r| - 1])
    ensures Strip(r) == r
  {
    if r != [] {
      assert TrimStart(r) == r;
    }
  }

  /** Surrounding whitespace does not survive `strip()`. */
  lemma StripPadded(left: string, s: string, right: string)
    requires IsBlank(left) && IsBlank(right) && Strip(s) == s
    ensures Strip(left + s + right) == s
  {
    var t := left + s + right;
    assert t == left + (s + right);
    if s == [] {
      assert IsBlank(t);
      StripEmptyIffBlank(t);
    } else {
      assert TrimStart(t) == s + right by { TrimStartPadded(left, s + right); }
      assert TrimEnd(s + right) == s by { TrimEndPadded(s, right); }
    }
  }

  lemma {:induction false} TrimStartPadded(pad: string, s: string)
    requires IsBlank(pad) && (s == [] || !IsSpace(s[0]))
    ensures TrimStart(pad + s) == s
    decreases |pad|
  {
    if pad == [] {
      assert pad + s == s;
    } else {
      assert (pad + s)[1..] == pad[1..] + s;
      TrimStartPadded(pad[1..], s);
    }
  }

  lemma {:induction false} TrimEndPadded(s: string, pad: string)
    requires IsBlank(pad) && (s == [] || !IsSpace(s[|s| - 1]))
    ensures TrimEnd(s + pad) == s
    decreases |pad|
  {
    if pad == [] {
      assert s + pad == s;
    } else {
      var t := s + pad;
      assert t[..|t| - 1] == s + pad[..|pad| - 1];
      TrimEndPadded(s, pad[..|pad| - 1]);
    }
  }

  /** Stripping twice is stripping once. */
  lemma StripIdempotent(s: string)
    ensures Strip(Strip(s)) == Strip(s)
  {
    StripOfTrimmed(Strip(s));
  }

  /** `s.strip().lower()`, the normal form of keys, statuses, modes and
      providers. */
  function Normalize(s: string): (r: string)
    ensures |r| <= |s|
  {
    Lower(Strip(s))
  }

  lemma NormalizeEmptyIffBlank(s: string)
    ensures Normalize(s) == [] <==> IsBlank(s)
  {
    StripEmptyIffBlank(s);
  }

  lemma LowerCharKeepsSpace(c: char)
    ensures IsSpace(LowerChar(c)) == IsSpace(c)
  {
  }

  lemma LowerIdempotent(s: string)
    ensures Lower(Lower(s)) == Lower(s)
  {
  }

  /** A word of lower-case letters, digits and punctuation is its own normal form. */
  lemma NormalizeOfPlainWord(s: string)
    requires forall i :: 0 <= i < |s| ==> !IsSpace(s[i]) && !('A' <= s[i] <= 'Z')
    ensures Normalize(s) == s
  {
    var t := Strip(s);
    StripNoSpace(s);
    LowerOfPlain(s);
    assert Normalize(s) == Lower(t);
  }

  lemma LowerOfPlain(s: string)
    requires forall i :: 0 <= i < |s| ==> !('A' <= s[i] <= 'Z')
    ensures Lower(s) == s
  {
    var l := Lower(s);
    assert forall i :: 0 <= i < |s| ==> l[i] == s[i];
  }

  /** A normalised string is its own normal form. */
  lemma NormalizeIdempotent(s: string)
    ensures Normalize(Normalize(s)) == Normalize(s)
  {
    var t := Strip(s);
    var r := Lower(t);
    assert Normalize(s) == r;
    if r != [] {
      assert r[0] == LowerChar(t[0]) && r[|r| - 1] == LowerChar(t[|t| - 1]);
      LowerCharKeepsSpace(t[0]);
      LowerCharKeepsSpace(t[|t| - 1]);
    }
    StripOfTrimmed(r);
    assert Normalize(r) == Lower(r);
    LowerIdempotent(t);
  }

  // ---------------------------------------------------------------------------
  // String order
  // ---------------------------------------------------------------------------

  /** Python's `a < b` on strings: lexicographic by code point, a proper
      prefix coming first. */
  predicate StrLess(a: string, b: string)
    decreases |a|
  {
    if a == [] then b != []
    else if b == [] then false
    else if a[0] != b[0] then a[0] < b[0]
    else StrLess(a[1..], b[1..])
  }

  lemma {:induction false} StrLessIrreflexive(a: string)
    ensures !StrLess(a, a)
    decreases |a|
  {
    if a != [] {
      StrLessIrreflexive(a[1..]);
    }
  }

  lemma {:induction false} StrLessAsymmetric(a: string, b: string)
    requires StrLess(a, b)
    ensures !StrLess(b, a)
    decreases |a|
  {
    if a != [] && b != [] && a[0] == b[0] {
      StrLessAsymmetric(a[1..], b[1..]);
    }
  }

  /** Any two strings are ordered one way or the other, or equal. */
  lemma {:induction false} StrLessTotal(a: string, b: string)
    ensures StrLess(a, b) || StrLess(b, a) || a == b
    decreases |a|
  {
    if a != [] && b != [] && a[0] == b[0] {
      StrLessTotal(a[1..], b[1..]);
      assert a == [a[0]] + a[1..] && b == [b[0]] + b[1..];
    }
  }

  lemma {:induction false} StrLessTransitive(a: string, b: string, c: string)
    requires StrLess(a, b) && StrLess(b, c)
    ensures StrLess(a, c)
    decreases |a|
  {
    if a != [] && a[0] == b[0] && b[0] == c[0] {
      StrLessTransitive(a[1..], b[1..], c[1..]);
    }
  }

  /** `>=` on strings is transitive. */
  lemma StrAtLeastTransitive(a: string, b: string, c: string)
    requires !StrLess(a, b) && !StrLess(b, c)
    ensures !StrLess(a, c)
  {
    StrLessTotal(a, b);
    StrLessTotal(b, c);
    if StrLess(a, c) {
      if a == b {
      } else if b == c {
      } else {
        StrLessTransitive(c, b, a);
        StrLessAsymmetric(c, a);
      }
    }
  }

  /** How many `#` a text starts with: the header level both Markdown
      readers of the service count. */
  function LeadingHashes(s: string): (n: nat)
    ensures n <= |s|
    ensures forall i :: 0 <= i < n ==> s[i] == '#'
    ensures n < |s| ==> s[n] != '#'
    decreases |s|
  {
    if s != [] && s[0] == '#' then 1 + LeadingHashes(s[1..]) else 0
  }

  // ---------------------------------------------------------------------------
  // Substrings, prefixes, suffixes
  // ---------------------------------------------------------------------------

  /** Python's `needle in hay` on strings (and JavaScript's `includes`). */
  predicate Contains(hay: string, needle: string)
    decreases |hay|
  {
    needle <= hay || (hay != [] && Contains(hay[1..], needle))
  }

  /** A needle holding a character the haystack lacks is not contained. */
  lemma {:induction false} MissingCharNotContained(hay: string, needle: string, c: char)
    requires c in needle && c !in hay
    ensures !Contains(hay, needle)
    decreases |hay|
  {
    if hay != [] {
      MissingCharNotContained(hay[1..], needle, c);
    }
  }

  /** `Contains` holds exactly when the needle sits at some offset. */
  lemma {:induction false} ContainsAt(hay: string, needle: string, k: nat)
    requires k + |needle| <= |hay| && hay[k..k + |needle|] == needle
    ensures Contains(hay, needle)
    decreases k
  {
    if k == 0 {
      assert needle <= hay;
    } else {
      assert hay[1..][k - 1..k - 1 + |needle|] == needle;
      ContainsAt(hay[1..], needle, k - 1);
    }
  }

  /** A string contains every piece it is built from. */
  lemma ContainsInfix(a: string, b: string, c: string)
    ensures Contains(a + b + c, b)
  {
    var hay := a + b + c;
    assert hay[|a|..|a| + |b|] == b;
    ContainsAt(hay, b, |a|);
  }

  lemma {:induction false} ContainsHasOffset(hay: string, needle: string) returns (k: nat)
    requires Contains(hay, needle)
    ensures k + |needle| <= |hay| && hay[k..k + |needle|] == needle
    decreases |hay|
  {
    if needle <= hay {
      k := 0;
    } else {
      var k' := ContainsHasOffset(hay[1..], needle);
      k := k' + 1;
      assert hay[k..k + |needle|] == hay[1..][k'..k' + |needle|];
    }
  }

  predicate StartsWith(s: string, prefix: string) {
    prefix <= s
  }

  predicate EndsWith(s: string, suffix: string) {
    |suffix| <= |s| && s[|s| - |suffix|..] == suffix
  }

  // ---------------------------------------------------------------------------
  // Join and split
  // ---------------------------------------------------------------------------

  /** Python's `sep.join(parts)` and JavaScript's `parts.join(sep)`. */
  function Join(parts: seq<string>, sep: string): string
    decreases |parts|
  {
    if parts == [] then []
    else if |parts| == 1 then parts[0]
    else parts[0] + sep + Join(parts[1..], sep)
  }

  lemma JoinCons(x: string, rest: seq<string>, sep: string)
    requires rest != []
    ensures Join([x] + rest, sep) == x + sep + Join(rest, sep)
  {
    assert ([x] + rest)[1..] == rest;
  }

  lemma JoinSingleton(s: string, sep: string)
    ensures Join([s], sep) == s
  {
  }

  /** Joining one more part adds the separator and that part. */
  lemma {:induction false} JoinAppend(parts: seq<string>, sep: string, x: string)
    requires parts != []
    ensures Join(parts + [x], sep) == Join(parts, sep) + sep + x
    decreases |parts|
  {
    if |parts| == 1 {
      assert parts + [x] == [parts[0], x];
      assert [parts[0], x][1..] == [x];
    } else {
      assert (parts + [x])[1..] == parts[1..] + [x];
      JoinAppend(parts[1..], sep, x);
      assert Join(parts + [x], sep) == parts[0] + sep + (Join(parts[1..], sep) + sep + x);
    }
  }

  /** Python's `s.split(sep)` and JavaScript's `s.split(sep)` for a
      one-character separator: always at least one part. */
  function Split(s: string, sep: char): (r: seq<string>)
    ensures |r| >= 1
    decreases |s|
  {
    if s == [] then [[]]
    else
      var rest := Split(s[1..], sep);
      if s[0] == sep then [[]] + rest
      else [[s[0]] + rest[0]] + rest[1..]
  }

  /** Splitting and joining back on the same separator is the identity, and no
      part contains the separator. */
  lemma SplitJoin(s: string, sep: char)
    ensures Join(Split(s, sep), [sep]) == s
    ensures forall p :: p in Split(s, sep) ==> sep !in p
  {
    JoinOfSplit(s, sep);
    SplitPartsLackSeparator(s, sep);
  }

  lemma {:induction false} JoinOfSplit(s: string, sep: char)
    ensures Join(Split(s, sep), [sep]) == s
    decreases |s|
  {
    if s != [] {
      var rest := Split(s[1..], sep);
      JoinOfSplit(s[1..], sep);
      assert s == [s[0]] + s[1..];
      if s[0] == sep {
        assert Split(s, sep) == [[]] + rest;
        assert Join([[]] + rest, [sep]) == [] + [sep] + Join(rest, [sep]);
      } else {
        var r := Split(s, sep);
        assert r == [[s[0]] + rest[0]] + rest[1..];
        if |rest| == 1 {
          assert Join(rest, [sep]) == rest[0];
        } else {
          assert Join(rest, [sep]) == rest[0] + [sep] + Join(rest[1..], [sep]);
          assert r[1..] == rest[1..];
        }
      }
    }
  }

  lemma {:induction false} SplitPartsLackSeparator(s: string, sep: char)
    ensures forall p :: p in Split(s, sep) ==> sep !in p
    decreases |s|
  {
    if s != [] {
      var rest := Split(s[1..], sep);
      SplitPartsLackSeparator(s[1..], sep);
      var r := Split(s, sep);
      if s[0] == sep {
        assert r == [[]] + rest;
      } else {
        assert r == [[s[0]] + rest[0]] + rest[1..];
        assert forall p :: p in r ==> p == [s[0]] + rest[0] || p in rest;
      }
    }
  }

  /** The line boundaries of Python's `str.splitlines`. */
  predicate IsLineBoundary(c: char) {
    var n := c as int;
    n == 10 || n == 13 || n == 0x0b || n == 0x0c || 0x1c <= n <= 0x1e || n == 0x85
    || n == 0x2028 || n == 0x2029
  }

  function FirstLineBoundary(s: string): (i: nat)
    ensures i <= |s|
    ensures forall j :: 0 <= j < i ==> !IsLineBoundary(s[j])
    ensures i < |s| ==> IsLineBoundary(s[i])
    decreases |s|
  {
    if s == [] then 0
    else if IsLineBoundary(s[0]) then 0
    else 1 + FirstLineBoundary(s[1..])
  }

  /** Python's `str.splitlines()`: "\r\n" counts as one boundary and a final
      boundary does not start an empty line. */
  function SplitLines(s: string): (r: seq<string>)
    ensures |r| <= |s|
    decreases |s|
  {
    if s == [] then []
    else
      var i := FirstLineBoundary(s);
      if i == |s| then [s]
      else
        var skip := if s[i] == '\r' && i + 1 < |s| && s[i + 1] == '\n' then 2 else 1;
        [s[..i]] + SplitLines(s[i + skip..])
  }

  /** No line holds a line boundary. */
  lemma {:induction false} SplitLinesNoBoundary(s: string, k: nat, j: nat)
    requires k < |SplitLines(s)| && j < |SplitLines(s)[k]|
    ensures !IsLineBoundary(SplitLines(s)[k][j])
    decreases |s|
  {
    var i := FirstLineBoundary(s);
    var lines := SplitLines(s);
    if i == |s| {
      assert lines == [s];
    } else {
      var skip := if s[i] == '\r' && i + 1 < |s| && s[i + 1] == '\n' then 2 else 1;
      var rest := SplitLines(s[i + skip..]);
      assert lines == [s[..i]] + rest;
      if k == 0 {
        assert lines[0][j] == s[j];
      } else {
        assert lines[k] == rest[k - 1];
        SplitLinesNoBoundary(s[i + skip..], k - 1, j);
      }
    }
  }

  // ---------------------------------------------------------------------------
  // Decimal numbers
  // ---------------------------------------------------------------------------

  predicate IsDigit(c: char) {
    '0' <= c <= '9'
  }

  function DigitChar(d: nat): (c: char)
    requires d < 10
    ensures IsDigit(c)
  {
    ('0' as int + d) as char
  }

  function DigitValue(c: char): nat {
    if IsDigit(c) then c as int - '0' as int else 0
  }

  /** Python's `str(n)` for a non-negative integer. */
  function NatToString(n: nat): (r: string)
    ensures |r| >= 1
    ensures forall i :: 0 <= i < |r| ==> IsDigit(r[i])
    decreases n
  {
    if n < 10 then [DigitChar(n)] else NatToString(n / 10) + [DigitChar(n % 10)]
  }

  /** Python's `str(n)`. */
  function IntToString(n: int): string {
    if n < 0 then "-" + NatToString(-n) else NatToString(n)
  }

  /** The body of a base-10 literal that Python's `int()` accepts: digits,
      with single underscores allowed between two digits. */
  predicate IsDigitGroup(s: string) {
    |s| > 0 && IsDigit(s[0]) && IsDigit(s[|s| - 1]) && GroupChars(s)
  }

  /** Every character is a digit or an underscore, and no two underscores are adjacent. */
  predicate GroupChars(s: string)
    decreases |s|
  {
    s == [] || ((IsDigit(s[0]) || (s[0] == '_' && !(|s| > 1 && s[1] == '_'))) && GroupChars(s[1..]))
  }

  /** A string of digits satisfies `GroupChars`. */
  lemma {:induction false} DigitsAreGroupChars(s: string)
    requires forall i :: 0 <= i < |s| ==> IsDigit(s[i])
    ensures GroupChars(s)
    decreases |s|
  {
    if s != [] {
      assert forall i :: 0 <= i < |s| - 1 ==> s[1..][i] == s[i + 1];
      DigitsAreGroupChars(s[1..]);
    }
  }

  /** The value of a digit group, underscores ignored. */
  function DecimalValue(s: string): nat
    decreases |s|
  {
    if s == [] then 0
    else if s[|s| - 1] == '_' then DecimalValue(s[..|s| - 1])
    else DecimalValue(s[..|s| - 1]) * 10 + DigitValue(s[|s| - 1])
  }

  /** Python's `int(s)` in base 10: surrounding whitespace and one sign are
      accepted; anything else is a `ValueError`, here `None`. */
  function ParseInt(s: string): Option<int> {
    ParseSigned(Strip(s))
  }

  /** `int()` on an already stripped string: an optional sign, then a digit group. */
  function ParseSigned(t: string): Option<int> {
    if |t| > 0 && (t[0] == '+' || t[0] == '-') then
      if IsDigitGroup(t[1..]) then
        var v: int := DecimalValue(t[1..]);
        Some(if t[0] == '-' then -v else v)
      else None
    else if IsDigitGroup(t) then Some(DecimalValue(t))
    else None
  }

  lemma {:induction false} DecimalValueOfNatToString(n: nat)
    ensures DecimalValue(NatToString(n)) == n
    decreases n
  {
    if n >= 10 {
      var s := NatToString(n);
      DecimalValueOfNatToString(n / 10);
      assert s[..|s| - 1] == NatToString(n / 10);
    }
  }

  lemma NatToStringIsDigitGroup(n: nat)
    ensures IsDigitGroup(NatToString(n))
  {
    DigitsAreGroupChars(NatToString(n));
  }

  /** The characters of a digit group are not whitespace. */
  lemma {:induction false} GroupCharsNoSpace(d: string)
    requires GroupChars(d)
    ensures forall i :: 0 <= i < |d| ==> !IsSpace(d[i])
    decreases |d|
  {
    if d != [] {
      GroupCharsNoSpace(d[1..]);
      NumeralNotSpace(d[0]);
      forall i | 0 < i < |d| ensures !IsSpace(d[i]) {
        assert d[i] == d[1..][i - 1];
      }
    }
  }

  /** A minus sign before a string without whitespace survives `strip()`. */
  lemma StripNegativeNoSpace(d: string)
    requires forall i :: 0 <= i < |d| ==> !IsSpace(d[i])
    ensures Strip("-" + d) == "-" + d
  {
    var s := ['-'] + d;
    assert "-" + d == s;
    NumeralNotSpace('-');
    forall i | 0 < i < |s| ensures !IsSpace(s[i]) {
      assert s[i] == d[i - 1];
    }
    StripNoSpace(s);
  }

  lemma NumeralNotSpace(c: char)
    requires IsDigit(c) || c == '_' || c == '-'
    ensures !IsSpace(c)
  {
  }

  /** `int()` reads a digit group, with or without a leading minus, as its value. */
  lemma ParseIntOfDigitGroup(d: string)
    requires IsDigitGroup(d)
    ensures ParseInt(d) == Some(DecimalValue(d) as int)
    ensures ParseInt("-" + d) == Some(-(DecimalValue(d) as int))
  {
    ParseIntOfUnsigned(d);
    ParseIntOfNegative(d);
  }

  lemma ParseIntOfUnsigned(d: string)
    requires IsDigitGroup(d)
    ensures ParseInt(d) == Some(DecimalValue(d) as int)
  {
    GroupCharsNoSpace(d);
    StripNoSpace(d);
    ParseSignedUnsigned(d);
  }

  lemma ParseSignedUnsigned(t: string)
    requires |t| > 0 && IsDigit(t[0])
    ensures ParseSigned(t) == if IsDigitGroup(t) then Some(DecimalValue(t) as int) else None
  {
  }

  lemma ParseIntOfNegative(d: string)
    requires IsDigitGroup(d)
    ensures ParseInt("-" + d) == Some(-(DecimalValue(d) as int))
  {
    GroupCharsNoSpace(d);
    StripNegativeNoSpace(d);
    ParseSignedNegative(d);
  }

  lemma ParseSignedNegative(d: string)
    ensures ParseSigned("-" + d) == if IsDigitGroup(d) then Some(-(DecimalValue(d) as int)) else None
  {
    var t := "-" + d;
    assert t[0] == '-';
    assert t[1..] == d;
  }

  /** `int(s.strip())` is `int(s)`: parsing already ignores surrounding whitespace. */
  lemma ParseIntOfStrip(s: string)
    ensures ParseInt(Strip(s)) == ParseInt(s)
  {
    StripIdempotent(s);
  }

  /** `int(str(n)) == n`: parsing undoes rendering. */
  lemma ParseIntOfIntToString(n: int)
    ensures ParseInt(IntToString(n)) == Some(n)
  {
    var m: nat := if n < 0 then -n else n;
    DecimalValueOfNatToString(m);
    NatToStringIsDigitGroup(m);
    ParseIntOfDigitGroup(NatToString(m));
  }

  // ---------------------------------------------------------------------------
  // Character classes
  // ---------------------------------------------------------------------------

  /** Python's `str.isalnum` on one character, for ASCII letters and digits,
      Hangul syllables and Hangul compatibility jamo. */
  predicate IsAlnum(c: char) {
    var n := c as int;
    ('a' <= c <= 'z') || ('A' <= c <= 'Z') || IsDigit(c) || 0xac00 <= n <= 0xd7a3
    || 0x3131 <= n <= 0x318e
  }
}
