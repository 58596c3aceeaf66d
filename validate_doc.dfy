/** scripts/validate_rag_doc.py: the pre-ingest check of a Markdown document.
    Missing required metadata makes a document unusable (a "reason"); length,
    header-shape, header-order, duplicate-header and short-section findings
    are only warnings. */
module ValidateDoc {
  import opened Wrappers
  import opened Text
  import Common

  const REQUIRED_METADATA_FIELDS: seq<string> := ["source", "country", "doc_type"]
  const SECTION_MIN_BODY_LEN: nat := 20
  const DOC_MIN_LEN: nat := 200

  // ---------------------------------------------------------------------------
  // _compact_len
  // ---------------------------------------------------------------------------

  /** `len("".join(text.split()))`: the number of non-whitespace characters. */
  function CompactLen(s: string): (n: nat)
    ensures n <= |s|
  {
    if s == [] then 0 else (if IsSpace(s[0]) then 0 else 1) + CompactLen(s[1..])
  }

  lemma {:induction false} CompactLenAppend(a: string, b: string)
    ensures CompactLen(a + b) == CompactLen(a) + CompactLen(b)
    decreases |a|
  {
    if a == [] {
      assert a + b == b;
    } else {
      assert (a + b)[1..] == a[1..] + b;
      CompactLenAppend(a[1..], b);
    }
  }

  lemma {:induction false} CompactLenBlank(s: string)
    ensures CompactLen(s) == 0 <==> IsBlank(s)
    decreases |s|
  {
    if s != [] {
      CompactLenBlank(s[1..]);
      assert IsBlank(s) <==> IsSpace(s[0]) && IsBlank(s[1..]) by {
        assert forall i :: 1 <= i < |s| ==> s[i] == s[1..][i - 1];
      }
    }
  }

  /** Stripping does not change the compact length. */
  lemma CompactLenOfStrip(s: string)
    ensures CompactLen(Strip(s)) == CompactLen(s)
  {
    CompactLenOfTrimStart(s);
    CompactLenOfTrimEnd(TrimStart(s));
  }

  lemma {:induction false} CompactLenOfTrimStart(s: string)
    ensures CompactLen(TrimStart(s)) == CompactLen(s)
    decreases |s|
  {
    if s != [] && IsSpace(s[0]) {
      CompactLenOfTrimStart(s[1..]);
    }
  }

  lemma {:induction false} CompactLenOfTrimEnd(s: string)
    ensures CompactLen(TrimEnd(s)) == CompactLen(s)
    decreases |s|
  {
    if s != [] && IsSpace(s[|s| - 1]) {
      var p := s[..|s| - 1];
      CompactLenOfTrimEnd(p);
      assert s == p + [s[|s| - 1]];
      CompactLenAppend(p, [s[|s| - 1]]);
    }
  }

  // ---------------------------------------------------------------------------
  // _validate_metadata
  // ---------------------------------------------------------------------------

  /** `str(metadata.get(key, ""))`, metadata values being held as their text. */
  function MetadataValue(metadata: map<string, string>, key: string): string {
    if key in metadata then metadata[key] else ""
  }

  /** The text of the reason for a missing field. */
  function ReasonText(source: string, key: string): string {
    source + ": missing metadata `" + key + "`"
  }

  /** The fields, in order, whose stripped value is empty. */
  function MissingFields(metadata: map<string, string>, fields: seq<string>): (r: seq<string>)
    ensures |r| <= |fields|
  {
    if fields == [] then []
    else
      var last := fields[|fields| - 1];
      MissingFields(metadata, fields[..|fields| - 1]) + (if IsBlank(MetadataValue(metadata, last)) then [last] else [])
  }

  /** A field is reported missing exactly when it is one of the fields and its
      value is blank. */
  lemma {:induction false} MissingFieldsMembers(metadata: map<string, string>, fields: seq<string>)
    ensures forall k :: k in MissingFields(metadata, fields) <==> k in fields && IsBlank(MetadataValue(metadata, k))
    decreases |fields|
  {
    if fields != [] {
      var init := fields[..|fields| - 1];
      var last := fields[|fields| - 1];
      MissingFieldsMembers(metadata, init);
      assert fields == init + [last];
    }
  }

  /** The required fields a metadata map lacks, in the order of
      `REQUIRED_METADATA_FIELDS`. */
  function MetadataMissing(metadata: map<string, string>): (r: seq<string>)
    ensures |r| <= |REQUIRED_METADATA_FIELDS|
  {
    MissingFields(metadata, REQUIRED_METADATA_FIELDS)
  }

  /** A required field is reported exactly when its value is blank; none is
      reported exactly when every one has a value. */
  lemma MetadataMissingSpec(metadata: map<string, string>)
    ensures forall k :: k in MetadataMissing(metadata) <==> k in REQUIRED_METADATA_FIELDS && IsBlank(MetadataValue(metadata, k))
    ensures MetadataMissing(metadata) == [] <==> forall k :: k in REQUIRED_METADATA_FIELDS ==> !IsBlank(MetadataValue(metadata, k))
  {
    var missing := MetadataMissing(metadata);
    MissingFieldsMembers(metadata, REQUIRED_METADATA_FIELDS);
    if missing != [] {
      assert missing[0] in missing;
    }
  }

  /** `_validate_metadata`: the loop appends, for each required field with no
      value, the reason naming it; here the field stands for its reason, whose
      text is `ReasonText`. */
  method ValidateMetadata(metadata: map<string, string>) returns (missing: seq<string>)
    ensures missing == MetadataMissing(metadata)
  {
    missing := [];
    for i := 0 to |REQUIRED_METADATA_FIELDS|
      invariant missing == MissingFields(metadata, REQUIRED_METADATA_FIELDS[..i])
    {
      var key := REQUIRED_METADATA_FIELDS[i];
      assert REQUIRED_METADATA_FIELDS[..i + 1][..i] == REQUIRED_METADATA_FIELDS[..i];
      var value := Strip(MetadataValue(metadata, key));
      StripEmptyIffBlank(MetadataValue(metadata, key));
      if value == [] {
        missing := missing + [key];
      }
    }
    assert REQUIRED_METADATA_FIELDS[..|REQUIRED_METADATA_FIELDS|] == REQUIRED_METADATA_FIELDS;
  }

  // ---------------------------------------------------------------------------
  // HEADER_RE on a stripped line
  // ---------------------------------------------------------------------------

  /** The level and title `HEADER_RE` finds in a stripped line: two to four
      `#`, then whitespace, then the title. Since the line is stripped, the
      lazy title group reaches the last character. */
  function HeaderOfStripped(line: string): (r: Option<(nat, string)>)
    ensures r.Some? ==> 2 <= r.value.0 <= 4 && r.value.1 != []
  {
    var m := LeadingHashes(line);
    if 2 <= m <= 4 && m < |line| && IsSpace(line[m]) then
      var rest := line[m..];
      StripEmptyIffBlank(rest);
      if IsBlank(rest) then None else Some((m, Strip(rest)))
    else None
  }

  /** The header reading of a raw line: the line is stripped first. */
  function HeaderOf(rawLine: string): (r: Option<(nat, string)>)
    ensures r.Some? ==> 2 <= r.value.0 <= 4 && r.value.1 != []
  {
    HeaderOfStripped(Strip(rawLine))
  }

  /** On a stripped line the title group is never blank, so the regular
      expression matches exactly on 2-4 hashes followed by whitespace. */
  lemma HeaderOfStrippedMatches(line: string)
    requires Strip(line) == line
    ensures HeaderOfStripped(line).Some? <==>
              2 <= LeadingHashes(line) <= 4 && LeadingHashes(line) < |line| && IsSpace(line[LeadingHashes(line)])
  {
    var m := LeadingHashes(line);
    if 2 <= m <= 4 && m < |line| && IsSpace(line[m]) {
      TailNotBlank(line, m);
    }
  }

  /** A suffix of a line that ends in a non-space character is not blank. */
  lemma TailNotBlank(line: string, m: nat)
    requires m < |line| && !IsSpace(line[|line| - 1])
    ensures !IsBlank(line[m..])
  {
    var rest := line[m..];
    assert rest[|rest| - 1] == line[|line| - 1];
  }

  /** The title of a header is stripped. */
  lemma HeaderTitleStripped(rawLine: string)
    requires HeaderOf(rawLine).Some?
    ensures Strip(HeaderOf(rawLine).value.1) == HeaderOf(rawLine).value.1
  {
    var line := Strip(rawLine);
    StripIdempotent(line[LeadingHashes(line)..]);
  }

  /** `k` hash signs. */
  function Hashes(k: nat): (r: string)
    ensures |r| == k && forall i :: 0 <= i < k ==> r[i] == '#'
  {
    seq(k, i => '#')
  }

  lemma {:induction false} LeadingHashesOf(k: nat, rest: string)
    requires rest == [] || rest[0] != '#'
    ensures LeadingHashes(Hashes(k) + rest) == k
    decreases k
  {
    if k == 0 {
      assert Hashes(k) + rest == rest;
    } else {
      assert (Hashes(k) + rest)[1..] == Hashes(k - 1) + rest;
      LeadingHashesOf(k - 1, rest);
    }
  }

  /** The line `k` hash signs, a space and a title. */
  function HeaderLine(k: nat, title: string): string {
    Hashes(k) + " " + title
  }

  lemma HeaderLineStripped(k: nat, title: string)
    requires 1 <= k && title != [] && Strip(title) == title
    ensures Strip(HeaderLine(k, title)) == HeaderLine(k, title)
  {
    var line := HeaderLine(k, title);
    assert line[|line| - 1] == title[|title| - 1];
    assert line[0] == '#';
    StripOfTrimmed(line);
  }

  lemma HeaderLineHashes(k: nat, title: string)
    ensures LeadingHashes(HeaderLine(k, title)) == k
    ensures HeaderLine(k, title)[k..] == " " + title
  {
    assert HeaderLine(k, title) == Hashes(k) + (" " + title);
    LeadingHashesOf(k, " " + title);
  }

  lemma StripOfSpaceThen(title: string)
    requires Strip(title) == title
    ensures Strip(" " + title) == title
  {
    assert IsBlank(" ") && IsBlank("");
    StripPadded(" ", title, "");
    assert " " + title + "" == " " + title;
  }

  /** The header line `k` hash signs, a space and a title is read back as
      level `k` and that title, for levels 2 to 4; for one hash sign, or five
      or more, the line is not a header. */
  lemma HeaderOfRendered(k: nat, title: string)
    requires 1 <= k && title != [] && Strip(title) == title
    ensures 2 <= k <= 4 ==> HeaderOf(HeaderLine(k, title)) == Some((k, title))
    ensures k == 1 || k >= 5 ==> HeaderOf(HeaderLine(k, title)) == None
  {
    var line := HeaderLine(k, title);
    HeaderLineStripped(k, title);
    assert HeaderOf(line) == HeaderOfStripped(line);
    HeaderLineHashes(k, title);
    if 2 <= k <= 4 {
      StripOfSpaceThen(title);
      assert line[k] == ' ';
      assert !IsBlank(line[k..]) by {
        assert line[k..][|line[k..]| - 1] == title[|title| - 1];
      }
    }
  }

  // ---------------------------------------------------------------------------
  // The warnings
  // ---------------------------------------------------------------------------

  /** A warning of `validate_markdown_text`; `WarningText` gives its text. */
  datatype Warning =
    | ShortDocument
    | ShortTitle(title: string)
    | H3BeforeH2(title: string)
    | H4BeforeH3(title: string)
    | Duplicated(title: string, level: nat)
    | NoHeaders
    | FirstNotH2
    | ShortSection(title: string)

  /** The text the validator appends for a warning about `source`. */
  function WarningText(source: string, w: Warning): string {
    match w
    case ShortDocument => source + ": document length is under recommended " + NatToString(DOC_MIN_LEN) + " chars"
    case ShortTitle(title) => source + ": short header title '" + title + "'"
    case H3BeforeH2(title) => source + ": '### " + title + "' appears before any '##' section"
    case H4BeforeH3(title) => source + ": '#### " + title + "' appears before any '###' section"
    case Duplicated(title, level) => source + ": duplicated header '" + title + "' at level h" + NatToString(level)
    case NoHeaders => source + ": no allowed headers(##/###/####) found"
    case FirstNotH2 => source + ": first section should start with '##'"
    case ShortSection(title) =>
      source + ": section '" + title + "' body is under recommended " + NatToString(SECTION_MIN_BODY_LEN) + " chars"
  }

  /** A warning raised while reading the header lines. */
  predicate IsHeaderWarning(w: Warning) {
    w.ShortTitle? || w.H3BeforeH2? || w.H4BeforeH3? || w.Duplicated?
  }

  // ---------------------------------------------------------------------------
  // The line loop of validate_markdown_text
  // ---------------------------------------------------------------------------

  /** A line read as a header: its level and title, or None. */
  type Header = Option<(nat, string)>

  /** The header reading of every line. */
  function Headers(lines: seq<string>): (hs: seq<Header>)
    ensures |hs| == |lines|
  {
    Mapped(HeaderOf, lines)
  }

  lemma HeadersAt(lines: seq<string>, i: nat)
    requires i < |lines|
    ensures Headers(lines)[i] == HeaderOf(lines[i])
  {
    MappedAt(HeaderOf, lines, i);
  }

  /** What a header is de-duplicated on: level, enclosing `##` and `###`
      titles, lower-cased title. */
  datatype HeaderKey = HeaderKey(level: nat, parentH2: Option<string>, parentH3: Option<string>, titleKey: string)

  /** One entry of `header_positions`. */
  datatype Position = Position(lineIndex: nat, level: nat, title: string)

  /** The variables the line loop updates. */
  datatype ScanState = ScanState(seenH2: Option<string>, seenH3: Option<string>, seenHeaders: set<HeaderKey>,
                                 warnings: seq<Warning>, positions: seq<Position>)

  const INITIAL_SCAN: ScanState := ScanState(None, None, {}, [], [])

  /** The key of a header of `level`, with the parents the loop records. */
  function KeyFor(st: ScanState, level: nat, title: string): HeaderKey {
    if level == 2 then HeaderKey(level, None, None, Lower(title))
    else if level == 3 then HeaderKey(level, st.seenH2, None, Lower(title))
    else HeaderKey(level, st.seenH2, st.seenH3, Lower(title))
  }

  /** The warnings one header adds, in the order the loop adds them. */
  function HeaderWarnings(st: ScanState, level: nat, title: string): seq<Warning> {
    (if |title| < 2 then [ShortTitle(title)] else [])
    + (if level == 3 && st.seenH2.None? then [H3BeforeH2(title)] else [])
    + (if level != 2 && level != 3 && st.seenH3.None? then [H4BeforeH3(title)] else [])
    + (if KeyFor(st, level, title) in st.seenHeaders then [Duplicated(title, level)] else [])
  }

  /** One iteration of the line loop, on the line's header reading. */
  function ScanLine(st: ScanState, idx: nat, h: Header): ScanState {
    match h
    case None => st
    case Some((level, title)) =>
      ScanState(if level == 2 then Some(title) else st.seenH2,
                if level == 2 then None else if level == 3 then Some(title) else st.seenH3,
                st.seenHeaders + {KeyFor(st, level, title)},
                st.warnings + HeaderWarnings(st, level, title),
                st.positions + [Position(idx, level, title)])
  }

  /** The loop state after the given lines, read as headers. */
  function Scan(hs: seq<Header>): ScanState
    decreases |hs|
  {
    if hs == [] then INITIAL_SCAN
    else ScanLine(Scan(hs[..|hs| - 1]), |hs| - 1, hs[|hs| - 1])
  }

  lemma ScanStep(hs: seq<Header>, n: nat)
    requires n < |hs|
    ensures Scan(hs[..n + 1]) == ScanLine(Scan(hs[..n]), n, hs[n])
  {
    assert hs[..n + 1][..n] == hs[..n];
  }

  /** The header level of line `i`, 0 for a line that is not a header. */
  function LevelAt(hs: seq<Header>, i: nat): nat
    requires i < |hs|
  {
    if hs[i].None? then 0 else hs[i].value.0
  }

  /** Scanning more lines only appends warnings and positions. */
  lemma {:induction false} ScanGrows(hs: seq<Header>, n: nat)
    requires n <= |hs|
    ensures Scan(hs[..n]).warnings <= Scan(hs).warnings
    ensures Scan(hs[..n]).positions <= Scan(hs).positions
    decreases |hs| - n
  {
    if n == |hs| {
      assert hs[..n] == hs;
    } else {
      var p := hs[..|hs| - 1];
      assert p[..n] == hs[..n];
      ScanGrows(p, n);
    }
  }

  /** Every warning of the loop is a header warning. */
  lemma {:induction false} ScanWarningsAreHeaderWarnings(hs: seq<Header>)
    ensures forall w :: w in Scan(hs).warnings ==> IsHeaderWarning(w)
    decreases |hs|
  {
    if hs != [] {
      ScanWarningsAreHeaderWarnings(hs[..|hs| - 1]);
    }
  }

  /** `seen_h2` is None exactly until the first `##` header. */
  lemma {:induction false} ScanSeenH2None(hs: seq<Header>)
    ensures Scan(hs).seenH2.None? <==> forall i :: 0 <= i < |hs| ==> LevelAt(hs, i) != 2
    decreases |hs|
  {
    if hs != [] {
      var n := |hs| - 1;
      var p := hs[..n];
      ScanSeenH2None(p);
      assert forall i :: 0 <= i < n ==> LevelAt(p, i) == LevelAt(hs, i);
      assert Scan(hs) == ScanLine(Scan(p), n, hs[n]);
      if LevelAt(hs, n) == 2 {
        assert Scan(hs).seenH2.Some?;
      } else {
        assert Scan(hs).seenH2 == Scan(p).seenH2;
      }
    }
  }

  /** `seen_h2` is the title of the latest `##` header. */
  lemma {:induction false} ScanSeenH2Latest(hs: seq<Header>)
    ensures Scan(hs).seenH2.Some? ==>
              exists i :: 0 <= i < |hs| && hs[i] == Some((2, Scan(hs).seenH2.value))
                          && forall j :: i < j < |hs| ==> LevelAt(hs, j) != 2
    decreases |hs|
  {
    if hs != [] {
      var n := |hs| - 1;
      var p := hs[..n];
      ScanSeenH2Latest(p);
      assert Scan(hs) == ScanLine(Scan(p), n, hs[n]);
      if LevelAt(hs, n) == 2 {
        assert hs[n] == Some((2, Scan(hs).seenH2.value));
      } else if Scan(p).seenH2.Some? {
        assert Scan(hs).seenH2 == Scan(p).seenH2;
        var i :| 0 <= i < |p| && p[i] == Some((2, Scan(p).seenH2.value))
                 && forall j :: i < j < |p| ==> LevelAt(p, j) != 2;
        assert forall j :: i < j < n ==> LevelAt(p, j) == LevelAt(hs, j);
        assert hs[i] == Some((2, Scan(hs).seenH2.value));
      } else {
        assert Scan(hs).seenH2 == Scan(p).seenH2;
      }
    }
  }

  /** Some `##` header follows line `i` among the first `n` lines. */
  predicate ClosedByH2(hs: seq<Header>, i: nat, n: nat)
    requires n <= |hs|
  {
    exists k :: i < k < n && LevelAt(hs, k) == 2
  }

  /** Every `###` header among the first `n` lines has a `##` header after it. */
  predicate AllH3Closed(hs: seq<Header>, n: nat)
    requires n <= |hs|
  {
    forall i :: 0 <= i < n && LevelAt(hs, i) == 3 ==> ClosedByH2(hs, i, n)
  }

  lemma AllH3ClosedPrefix(hs: seq<Header>, n: nat)
    requires 0 < n <= |hs| && LevelAt(hs, n - 1) != 2 && LevelAt(hs, n - 1) != 3
    ensures AllH3Closed(hs, n) <==> AllH3Closed(hs[..n - 1], n - 1)
  {
    var p := hs[..n - 1];
    assert forall i :: 0 <= i < n - 1 ==> LevelAt(p, i) == LevelAt(hs, i);
    forall i | 0 <= i < n - 1 ensures ClosedByH2(hs, i, n) <==> ClosedByH2(p, i, n - 1) {
      if ClosedByH2(hs, i, n) {
        var k :| i < k < n && LevelAt(hs, k) == 2;
        assert LevelAt(p, k) == 2;
      }
      if ClosedByH2(p, i, n - 1) {
        var k :| i < k < n - 1 && LevelAt(p, k) == 2;
        assert LevelAt(hs, k) == 2;
      }
    }
  }

  /** `seen_h3` is None exactly when every `###` header so far has been
      followed by a `##` header. */
  lemma {:induction false} ScanSeenH3(hs: seq<Header>)
    ensures Scan(hs).seenH3.None? <==> AllH3Closed(hs, |hs|)
    decreases |hs|
  {
    if hs != [] {
      var n := |hs| - 1;
      var p := hs[..n];
      ScanSeenH3(p);
      assert Scan(hs) == ScanLine(Scan(p), n, hs[n]);
      if LevelAt(hs, n) == 2 {
        assert Scan(hs).seenH3.None?;
        forall i | 0 <= i < |hs| && LevelAt(hs, i) == 3 ensures ClosedByH2(hs, i, |hs|) {
          assert i < n;
        }
      } else if LevelAt(hs, n) == 3 {
        assert Scan(hs).seenH3.Some?;
        assert !ClosedByH2(hs, n, |hs|);
      } else {
        assert Scan(hs).seenH3 == Scan(p).seenH3;
        AllH3ClosedPrefix(hs, |hs|);
      }
    }
  }

  /** The key the loop computes for the header on line `i`. */
  function KeyAt(hs: seq<Header>, i: nat): HeaderKey
    requires i < |hs| && hs[i].Some?
  {
    KeyFor(Scan(hs[..i]), hs[i].value.0, hs[i].value.1)
  }

  lemma KeyAtPrefix(hs: seq<Header>, n: nat, i: nat)
    requires i < n <= |hs| && hs[i].Some?
    ensures KeyAt(hs[..n], i) == KeyAt(hs, i)
  {
    assert hs[..n][..i] == hs[..i];
  }

  /** Every header's key is in `seen_headers`. */
  lemma {:induction false} ScanSeenHeaders(hs: seq<Header>)
    ensures forall i :: 0 <= i < |hs| && hs[i].Some? ==> KeyAt(hs, i) in Scan(hs).seenHeaders
    decreases |hs|
  {
    if hs != [] {
      var n := |hs| - 1;
      var p := hs[..n];
      ScanSeenHeaders(p);
      assert Scan(hs) == ScanLine(Scan(p), n, hs[n]);
      assert Scan(p).seenHeaders <= Scan(hs).seenHeaders;
      forall i | 0 <= i < |hs| && hs[i].Some?
        ensures KeyAt(hs, i) in Scan(hs).seenHeaders
      {
        if i < n {
          KeyAtPrefix(hs, n, i);
        } else {
          assert hs[..i] == p;
        }
      }
    }
  }

  /** Each of `header_positions` is a header line, in line order. */
  lemma {:induction false} ScanPositionsAreHeaders(hs: seq<Header>)
    ensures forall k :: 0 <= k < |Scan(hs).positions| ==>
              Scan(hs).positions[k].lineIndex < |hs|
              && hs[Scan(hs).positions[k].lineIndex] == Some((Scan(hs).positions[k].level, Scan(hs).positions[k].title))
    decreases |hs|
  {
    if hs != [] {
      var n := |hs| - 1;
      var p := hs[..n];
      ScanPositionsAreHeaders(p);
      assert Scan(hs) == ScanLine(Scan(p), n, hs[n]);
      var ps := Scan(hs).positions;
      var qs := Scan(p).positions;
      assert qs <= ps;
      forall k | 0 <= k < |ps|
        ensures ps[k].lineIndex < |hs| && hs[ps[k].lineIndex] == Some((ps[k].level, ps[k].title))
      {
        if k < |qs| {
          assert ps[k] == qs[k];
          assert p[qs[k].lineIndex] == hs[qs[k].lineIndex];
        }
      }
    }
  }

  /** `header_positions` is in increasing line order. */
  lemma {:induction false} ScanPositionsOrdered(hs: seq<Header>)
    ensures forall k, l :: 0 <= k < l < |Scan(hs).positions| ==>
              Scan(hs).positions[k].lineIndex < Scan(hs).positions[l].lineIndex
    decreases |hs|
  {
    if hs != [] {
      var n := |hs| - 1;
      var p := hs[..n];
      ScanPositionsOrdered(p);
      ScanPositionsAreHeaders(p);
      assert Scan(hs) == ScanLine(Scan(p), n, hs[n]);
      var ps := Scan(hs).positions;
      var qs := Scan(p).positions;
      assert qs <= ps;
      forall k, l | 0 <= k < l < |ps| ensures ps[k].lineIndex < ps[l].lineIndex {
        assert ps[k] == qs[k];
        if l < |qs| {
          assert ps[l] == qs[l];
        }
      }
    }
  }

  /** The position `header_positions` holds for header line `i`. */
  lemma {:induction false} ScanPositionOf(hs: seq<Header>, i: nat) returns (k: nat)
    requires i < |hs| && hs[i].Some?
    ensures k < |Scan(hs).positions| && Scan(hs).positions[k].lineIndex == i
    decreases |hs|
  {
    var n := |hs| - 1;
    var p := hs[..n];
    assert Scan(hs) == ScanLine(Scan(p), n, hs[n]);
    if i < n {
      assert p[i] == hs[i];
      k := ScanPositionOf(p, i);
      var qs := Scan(p).positions;
      if hs[n].Some? {
        assert Scan(hs).positions == qs + [Position(n, hs[n].value.0, hs[n].value.1)];
      } else {
        assert Scan(hs).positions == qs;
      }
      assert Scan(hs).positions[k] == qs[k];
    } else {
      k := |Scan(hs).positions| - 1;
    }
  }

  /** Some entry of `positions` is for line `i`. */
  predicate HasPositionFor(positions: seq<Position>, i: int) {
    exists k :: 0 <= k < |positions| && positions[k].lineIndex == i
  }

  /** Each header line is in `header_positions`. */
  lemma {:induction false} ScanPositionsComplete(hs: seq<Header>)
    ensures forall i :: 0 <= i < |hs| && hs[i].Some? ==> HasPositionFor(Scan(hs).positions, i)
  {
    forall i | 0 <= i < |hs| && hs[i].Some? ensures HasPositionFor(Scan(hs).positions, i) {
      var k := ScanPositionOf(hs, i);
    }
  }

  /** A `###` header with no `##` header before it is warned about. */
  lemma H3BeforeH2Warned(hs: seq<Header>, i: nat)
    requires i < |hs| && LevelAt(hs, i) == 3
    requires forall j :: 0 <= j < i ==> LevelAt(hs, j) != 2
    ensures H3BeforeH2(hs[i].value.1) in Scan(hs).warnings
  {
    var p := hs[..i];
    assert forall j :: 0 <= j < i ==> LevelAt(p, j) == LevelAt(hs, j);
    ScanSeenH2None(p);
    ScanStep(hs, i);
    ScanGrows(hs, i + 1);
    assert H3BeforeH2(hs[i].value.1) in HeaderWarnings(Scan(p), 3, hs[i].value.1);
    assert H3BeforeH2(hs[i].value.1) in Scan(hs[..i + 1]).warnings;
  }

  /** A `####` header with no `###` header since the latest `##` header is
      warned about. */
  lemma H4WithoutH3Warned(hs: seq<Header>, i: nat)
    requires i < |hs| && LevelAt(hs, i) == 4
    requires AllH3Closed(hs, i)
    ensures H4BeforeH3(hs[i].value.1) in Scan(hs).warnings
  {
    var p := hs[..i];
    assert forall j :: 0 <= j < i ==> LevelAt(p, j) == LevelAt(hs, j);
    forall j | 0 <= j < i && LevelAt(p, j) == 3 ensures ClosedByH2(p, j, i) {
      var k :| j < k < i && LevelAt(hs, k) == 2;
      assert LevelAt(p, k) == 2;
    }
    ScanSeenH3(p);
    ScanStep(hs, i);
    ScanGrows(hs, i + 1);
    assert H4BeforeH3(hs[i].value.1) in HeaderWarnings(Scan(p), 4, hs[i].value.1);
    assert H4BeforeH3(hs[i].value.1) in Scan(hs[..i + 1]).warnings;
  }

  /** A header whose key an earlier header already had is warned about. */
  lemma DuplicateHeaderWarned(hs: seq<Header>, j: nat, i: nat)
    requires j < i < |hs| && hs[j].Some? && hs[i].Some?
    requires KeyAt(hs, j) == KeyAt(hs, i)
    ensures Duplicated(hs[i].value.1, hs[i].value.0) in Scan(hs).warnings
  {
    var p := hs[..i];
    ScanSeenHeaders(p);
    KeyAtPrefix(hs, i, j);
    ScanStep(hs, i);
    ScanGrows(hs, i + 1);
    var (level, title) := hs[i].value;
    assert Duplicated(title, level) in HeaderWarnings(Scan(p), level, title);
    assert Duplicated(title, level) in Scan(hs[..i + 1]).warnings;
  }

  /** A title shorter than two characters is warned about. */
  lemma ShortTitleWarned(hs: seq<Header>, i: nat)
    requires i < |hs| && hs[i].Some? && |hs[i].value.1| < 2
    ensures ShortTitle(hs[i].value.1) in Scan(hs).warnings
  {
    var p := hs[..i];
    ScanStep(hs, i);
    ScanGrows(hs, i + 1);
    var (level, title) := hs[i].value;
    assert ShortTitle(title) in HeaderWarnings(Scan(p), level, title);
    assert ShortTitle(title) in Scan(hs[..i + 1]).warnings;
  }

  // ---------------------------------------------------------------------------
  // After the line loop
  // ---------------------------------------------------------------------------

  /** The warning about missing headers or a first header that is not `##`. */
  function PresenceWarnings(positions: seq<Position>): seq<Warning> {
    if positions == [] then [NoHeaders]
    else if positions[0].level != 2 then [FirstNotH2]
    else []
  }

  /** "No allowed headers" is warned exactly when no line is a header. */
  lemma NoHeadersWarned(hs: seq<Header>)
    ensures NoHeaders in PresenceWarnings(Scan(hs).positions) <==> forall i :: 0 <= i < |hs| ==> hs[i].None?
  {
    ScanPositionsAreHeaders(hs);
    ScanPositionsComplete(hs);
    var ps := Scan(hs).positions;
    if ps != [] {
      assert hs[ps[0].lineIndex].Some?;
    }
  }

  /** With some header, the first position is the first header line, and the
      "first section" warning is raised exactly when it is not `##`. */
  lemma FirstSectionWarned(hs: seq<Header>, i0: nat)
    requires i0 < |hs| && hs[i0].Some?
    ensures Scan(hs).positions != []
    ensures Scan(hs).positions[0].lineIndex < |hs|
    ensures hs[Scan(hs).positions[0].lineIndex] == Some((Scan(hs).positions[0].level, Scan(hs).positions[0].title))
    ensures forall i :: 0 <= i < Scan(hs).positions[0].lineIndex ==> hs[i].None?
    ensures FirstNotH2 in PresenceWarnings(Scan(hs).positions) <==> Scan(hs).positions[0].level != 2
  {
    ScanPositionsAreHeaders(hs);
    ScanPositionsComplete(hs);
    FirstPositionIsFirst(hs);
  }

  /** No header line comes before the first position. */
  lemma FirstPositionIsFirst(hs: seq<Header>)
    requires Scan(hs).positions != []
    ensures forall i :: 0 <= i < |hs| && hs[i].Some? ==> Scan(hs).positions[0].lineIndex <= i
  {
    ScanPositionsComplete(hs);
    ScanPositionsOrdered(hs);
    var ps := Scan(hs).positions;
    forall i | 0 <= i < |hs| && hs[i].Some? ensures ps[0].lineIndex <= i {
      var k :| 0 <= k < |ps| && ps[k].lineIndex == i;
      if k > 0 {
        assert ps[0].lineIndex < ps[k].lineIndex;
      }
    }
  }

  /** Python's `s[a:b]` for non-negative bounds. */
  function PySlice<T>(s: seq<T>, a: nat, b: nat): (r: seq<T>)
    ensures |r| <= |s|
  {
    if a >= b || a >= |s| then [] else s[a..if b <= |s| then b else |s|]
  }

  /** The line index where the `k`-th section ends. */
  function NextLineIndex(lines: seq<string>, positions: seq<Position>, k: nat): nat {
    if k + 1 >= |positions| then |lines| else positions[k + 1].lineIndex
  }

  /** `"\n".join(lines[line_idx + 1 : next_line_idx]).strip()`: the text
      between a header line and the next header line. */
  function SectionBody(lines: seq<string>, lineIdx: nat, nextLineIdx: nat): string {
    Strip(Join(PySlice(lines, lineIdx + 1, nextLineIdx), "\n"))
  }

  /** The compact length of the body of section `k`: the non-whitespace
      characters between its header line and the next one (stripping the body
      first does not change this count, by `CompactLenOfStrip`). */
  function SectionLength(lines: seq<string>, positions: seq<Position>, k: nat): nat
    requires k < |positions|
  {
    CompactLen(Join(PySlice(lines, positions[k].lineIndex + 1, NextLineIndex(lines, positions, k)), "\n"))
  }

  /** The compact lengths of the bodies of the first `n` sections. */
  function BodyLengths(lines: seq<string>, positions: seq<Position>, n: nat): (r: seq<nat>)
    requires n <= |positions|
    ensures |r| == n
  {
    if n == 0 then [] else BodyLengths(lines, positions, n - 1) + [SectionLength(lines, positions, n - 1)]
  }

  lemma {:induction false} BodyLengthsAt(lines: seq<string>, positions: seq<Position>, n: nat, k: nat)
    requires k < n <= |positions|
    ensures BodyLengths(lines, positions, n)[k] == SectionLength(lines, positions, k)
  {
    if k < n - 1 {
      BodyLengthsAt(lines, positions, n - 1, k);
    }
  }

  /** The indices below `n` of the sections whose body is short. */
  function ShortSections(lens: seq<nat>, n: nat): (r: seq<nat>)
    requires n <= |lens|
    ensures forall i :: 0 <= i < |r| ==> r[i] < n
  {
    if n == 0 then []
    else ShortSections(lens, n - 1) + (if lens[n - 1] < SECTION_MIN_BODY_LEN then [n - 1] else [])
  }

  /** The short sections are exactly those whose body is below the minimum,
      listed once each in section order. */
  lemma {:induction false} ShortSectionsExact(lens: seq<nat>, n: nat)
    requires n <= |lens|
    ensures forall k: nat :: k in ShortSections(lens, n) <==> k < n && lens[k] < SECTION_MIN_BODY_LEN
    ensures forall i, j :: 0 <= i < j < |ShortSections(lens, n)| ==> ShortSections(lens, n)[i] < ShortSections(lens, n)[j]
    decreases n
  {
    if n > 0 {
      ShortSectionsExact(lens, n - 1);
    }
  }

  /** The short-section warnings of the first `n` sections, in section order. */
  function SectionWarnings(positions: seq<Position>, lens: seq<nat>, n: nat): seq<Warning>
    requires n <= |positions| && n <= |lens|
  {
    if n == 0 then []
    else SectionWarnings(positions, lens, n - 1)
         + (if lens[n - 1] < SECTION_MIN_BODY_LEN then [ShortSection(positions[n - 1].title)] else [])
  }

  /** There is one warning per short section, naming that section's title. */
  lemma {:induction false} SectionWarningsOfShort(positions: seq<Position>, lens: seq<nat>, n: nat)
    requires n <= |positions| && n <= |lens|
    ensures |SectionWarnings(positions, lens, n)| == |ShortSections(lens, n)|
    ensures forall i :: 0 <= i < |ShortSections(lens, n)| ==>
              SectionWarnings(positions, lens, n)[i] == ShortSection(positions[ShortSections(lens, n)[i]].title)
    decreases n
  {
    if n > 0 {
      SectionWarningsOfShort(positions, lens, n - 1);
      var a := SectionWarnings(positions, lens, n - 1);
      var short := ShortSections(lens, n - 1);
      if lens[n - 1] < SECTION_MIN_BODY_LEN {
        var w := ShortSection(positions[n - 1].title);
        assert SectionWarnings(positions, lens, n) == a + [w];
        assert ShortSections(lens, n) == short + [n - 1];
        forall i | 0 <= i < |short| + 1
          ensures (a + [w])[i] == ShortSection(positions[(short + [n - 1])[i]].title)
        {
          if i < |short| {
            assert (a + [w])[i] == a[i];
            assert (short + [n - 1])[i] == short[i];
          }
        }
      } else {
        assert SectionWarnings(positions, lens, n) == a;
        assert ShortSections(lens, n) == short;
      }
    }
  }

  /** The document-length warning. */
  function LengthWarnings(text: string): seq<Warning> {
    if CompactLen(Strip(text)) < DOC_MIN_LEN then [ShortDocument] else []
  }

  // ---------------------------------------------------------------------------
  // validate_markdown_text and validate_loaded_documents
  // ---------------------------------------------------------------------------

  /** A report: the missing fields stand for the reasons (`ReasonText`), each
      warning for its text (`WarningText`). */
  datatype Report = Report(source: string, usable: bool, missing: seq<string>, warnings: seq<Warning>)

  /** The report's `reasons`, as text. */
  function Reasons(r: Report): (texts: seq<string>)
    ensures |texts| == |r.missing|
    ensures forall i :: 0 <= i < |r.missing| ==> texts[i] == ReasonText(r.source, r.missing[i])
  {
    seq(|r.missing|, i requires 0 <= i < |r.missing| => ReasonText(r.source, r.missing[i]))
  }

  /** The report's `warnings`, as text. */
  function WarningTexts(r: Report): (texts: seq<string>)
    ensures |texts| == |r.warnings|
    ensures forall i :: 0 <= i < |r.warnings| ==> texts[i] == WarningText(r.source, r.warnings[i])
  {
    seq(|r.warnings|, i requires 0 <= i < |r.warnings| => WarningText(r.source, r.warnings[i]))
  }

  /** The warnings of `validate_markdown_text` for lines read as `hs`: the
      line-loop, header-presence and short-section warnings, in that order. */
  function StructureWarnings(lines: seq<string>, hs: seq<Header>): seq<Warning> {
    var scan := Scan(hs);
    scan.warnings + PresenceWarnings(scan.positions)
    + SectionWarnings(scan.positions, BodyLengths(lines, scan.positions, |scan.positions|), |scan.positions|)
  }

  /** What `validate_markdown_text` reports. */
  function MarkdownReport(source: string, text: string, metadata: map<string, string>): (r: Report)
    ensures r.source == source
    ensures r.usable <==> r.missing == []
    ensures r.missing == MetadataMissing(metadata)
  {
    var missing := MetadataMissing(metadata);
    var lines := SplitLines(text);
    Report(source, missing == [], missing, LengthWarnings(text) + StructureWarnings(lines, Headers(lines)))
  }

  /** Warnings never decide usability: the text does not matter to it. */
  lemma UsableIgnoresText(source: string, text1: string, text2: string, metadata: map<string, string>)
    ensures MarkdownReport(source, text1, metadata).usable == MarkdownReport(source, text2, metadata).usable
  {
  }

  /** The length warning is raised, first, exactly when the document has
      fewer than 200 non-whitespace characters. */
  lemma ShortDocumentWarned(source: string, text: string, metadata: map<string, string>)
    ensures var r := MarkdownReport(source, text, metadata);
            ShortDocument in r.warnings <==> CompactLen(text) < DOC_MIN_LEN
    ensures var r := MarkdownReport(source, text, metadata);
            CompactLen(text) < DOC_MIN_LEN ==> r.warnings[0] == ShortDocument
  {
    CompactLenOfStrip(text);
    var lines := SplitLines(text);
    NoShortDocumentInStructure(lines, Headers(lines));
  }

  /** The header and section checks never raise the length warning. */
  lemma NoShortDocumentInStructure(lines: seq<string>, hs: seq<Header>)
    ensures ShortDocument !in StructureWarnings(lines, hs)
  {
    var scan := Scan(hs);
    ScanWarningsAreHeaderWarnings(hs);
    var lens := BodyLengths(lines, scan.positions, |scan.positions|);
    SectionWarningsOfShort(scan.positions, lens, |scan.positions|);
    var sw := SectionWarnings(scan.positions, lens, |scan.positions|);
    assert ShortDocument !in sw;
  }

  // ---------------------------------------------------------------------------
  // The loops
  // ---------------------------------------------------------------------------

  /** The body of the line loop for a header line: the warnings, the parents
      recorded in the de-duplication key, and the updates of `seen_h2`,
      `seen_h3`, `seen_headers` and `header_positions`. */
  method ScanHeader(st: ScanState, idx: nat, level: nat, title: string) returns (next: ScanState)
    ensures next == ScanLine(st, idx, Some((level, title)))
  {
    var seenH2, seenH3, seenHeaders, warnings, positions := st.seenH2, st.seenH3, st.seenHeaders, st.warnings, st.positions;
    if |title| < 2 {
      warnings := warnings + [ShortTitle(title)];
    }
    var parentH2: Option<string>;
    var parentH3: Option<string>;
    if level == 2 {
      parentH2, parentH3 := None, None;
      seenH2, seenH3 := Some(title), None;
    } else if level == 3 {
      if seenH2.None? {
        warnings := warnings + [H3BeforeH2(title)];
      }
      parentH2, parentH3 := seenH2, None;
      seenH3 := Some(title);
    } else {
      if seenH3.None? {
        warnings := warnings + [H4BeforeH3(title)];
      }
      parentH2, parentH3 := seenH2, seenH3;
    }
    var key := HeaderKey(level, parentH2, parentH3, Lower(title));
    if key in seenHeaders {
      warnings := warnings + [Duplicated(title, level)];
    }
    seenHeaders := seenHeaders + {key};
    positions := positions + [Position(idx, level, title)];
    assert key == KeyFor(st, level, title);
    assert warnings == st.warnings + HeaderWarnings(st, level, title);
    next := ScanState(seenH2, seenH3, seenHeaders, warnings, positions);
  }

  /** The line loop of `validate_markdown_text`. */
  method ScanLines(lines: seq<string>) returns (st: ScanState)
    ensures st == Scan(Headers(lines))
  {
    ghost var hs := Headers(lines);
    st := INITIAL_SCAN;
    for idx := 0 to |lines|
      invariant st == Scan(hs[..idx])
    {
      ScanStep(hs, idx);
      HeadersAt(lines, idx);
      var header := HeaderOf(lines[idx]);
      if header.None? {
        continue;
      }
      var (level, title) := header.value;
      st := ScanHeader(st, idx, level, title);
    }
    assert hs[..|lines|] == hs;
  }

  /** The body of the section loop: the compact length of the text between
      the header of section `index` and the next header. */
  method SectionBodyLength(lines: seq<string>, positions: seq<Position>, index: nat) returns (n: nat)
    requires index < |positions|
    ensures n == BodyLengths(lines, positions, |positions|)[index]
  {
    var lineIdx := positions[index].lineIndex;
    var nextLineIdx := NextLineIndex(lines, positions, index);
    var body := SectionBody(lines, lineIdx, nextLineIdx);
    n := CompactLen(body);
    CompactLenOfStrip(Join(PySlice(lines, lineIdx + 1, nextLineIdx), "\n"));
    BodyLengthsAt(lines, positions, |positions|, index);
  }

  /** The section loop of `validate_markdown_text`. */
  method ShortSectionWarnings(lines: seq<string>, positions: seq<Position>) returns (warnings: seq<Warning>)
    ensures warnings == SectionWarnings(positions, BodyLengths(lines, positions, |positions|), |positions|)
  {
    ghost var lens := BodyLengths(lines, positions, |positions|);
    warnings := [];
    for index := 0 to |positions|
      invariant warnings == SectionWarnings(positions, lens, index)
    {
      var bodyLen := SectionBodyLength(lines, positions, index);
      if bodyLen < SECTION_MIN_BODY_LEN {
        warnings := warnings + [ShortSection(positions[index].title)];
      }
    }
  }

  /** The header and section checks of `validate_markdown_text`. */
  method CheckStructure(lines: seq<string>) returns (warnings: seq<Warning>)
    ensures warnings == StructureWarnings(lines, Headers(lines))
  {
    var scan := ScanLines(lines);
    warnings := scan.warnings;
    if scan.positions == [] {
      warnings := warnings + [NoHeaders];
    } else if scan.positions[0].level != 2 {
      warnings := warnings + [FirstNotH2];
    }
    var sectionWarnings := ShortSectionWarnings(lines, scan.positions);
    warnings := warnings + sectionWarnings;
  }

  /** `validate_markdown_text`. */
  method ValidateMarkdownText(source: string, text: string, metadata: map<string, string>) returns (report: Report)
    ensures report == MarkdownReport(source, text, metadata)
  {
    var missing := ValidateMetadata(metadata);
    var warnings := CheckLength(text);
    var lines := SplitLines(text);
    var structure := CheckStructure(lines);
    warnings := warnings + structure;
    report := Report(source, |missing| == 0, missing, warnings);
  }

  /** The document-length check of `validate_markdown_text`. */
  method CheckLength(text: string) returns (warnings: seq<Warning>)
    ensures warnings == LengthWarnings(text)
  {
    warnings := [];
    var normalized := Strip(text);
    if CompactLen(normalized) < DOC_MIN_LEN {
      warnings := warnings + [ShortDocument];
    }
  }

  /** The source a loaded document is reported under. */
  function SourceOf(doc: Common.Document): string {
    if "source" in doc.metadata then doc.metadata["source"] else "unknown"
  }

  /** The report of one loaded document. */
  function DocumentReport(doc: Common.Document): Report {
    MarkdownReport(SourceOf(doc), doc.pageContent, doc.metadata)
  }

  /** `f` applied to every element, in order. */
  function Mapped<A, B>(f: A -> B, s: seq<A>): (r: seq<B>)
    ensures |r| == |s|
  {
    if s == [] then [] else Mapped(f, s[..|s| - 1]) + [f(s[|s| - 1])]
  }

  lemma {:induction false} MappedAt<A, B>(f: A -> B, s: seq<A>, i: nat)
    requires i < |s|
    ensures Mapped(f, s)[i] == f(s[i])
    decreases |s|
  {
    var n := |s| - 1;
    assert Mapped(f, s) == Mapped(f, s[..n]) + [f(s[n])];
    if i < n {
      MappedAt(f, s[..n], i);
      assert s[..n][i] == s[i];
    }
  }

  /** The reports of `validate_loaded_documents`. */
  function DocumentReports(docs: seq<Common.Document>): seq<Report> {
    Mapped(DocumentReport, docs)
  }

  /** One report per document, in order. */
  lemma DocumentReportsAt(docs: seq<Common.Document>, i: nat)
    requires i < |docs|
    ensures |DocumentReports(docs)| == |docs|
    ensures DocumentReports(docs)[i] == DocumentReport(docs[i])
  {
    MappedAt(DocumentReport, docs, i);
  }

  /** `validate_loaded_documents`. */
  method ValidateLoadedDocuments(docs: seq<Common.Document>) returns (reports: seq<Report>)
    ensures reports == DocumentReports(docs)
  {
    reports := [];
    for i := 0 to |docs|
      invariant reports == Mapped(DocumentReport, docs[..i])
    {
      assert docs[..i + 1][..i] == docs[..i];
      var report := ValidateMarkdownText(SourceOf(docs[i]), docs[i].pageContent, docs[i].metadata);
      reports := reports + [report];
    }
    assert docs[..|docs|] == docs;
  }
}
