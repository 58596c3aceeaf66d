/** web/js/app_page.js: the line-by-line Markdown renderer of the answer pane
    and the choice of the selected collections. The page's DOM wiring and
    fetch handlers are not modelled. */
module AppPage {
  import opened Text
  import opened SharedJs

  // ---------------------------------------------------------------------------
  // renderMarkdownBasic
  // ---------------------------------------------------------------------------

  const FENCE: string := "```"

  /** The two flags the renderer carries from line to line. */
  datatype RenderState = RenderState(inList: bool, inCode: bool)

  const START: RenderState := RenderState(false, false)

  /** Whitespace as JavaScript's `String.prototype.trim` removes it. */
  predicate IsJsSpace(c: char) {
    var n := c as int;
    n == 0x09 || n == 0x0a || n == 0x0b || n == 0x0c || n == 0x0d || n == 0x20 || n == 0xa0
    || n == 0x1680 || 0x2000 <= n <= 0x200a || n == 0x2028 || n == 0x2029 || n == 0x202f
    || n == 0x205f || n == 0x3000 || n == 0xfeff
  }

  /** `text.trim() === ""`. */
  predicate IsJsBlank(s: string) {
    forall i :: 0 <= i < |s| ==> IsJsSpace(s[i])
  }

  /** The `</ul>` that closes an open list. */
  function CloseList(st: RenderState): seq<string> {
    if st.inList then ["</ul>"] else []
  }

  /** What one line pushes onto `html`, and the flags after it. */
  function LineStep(st: RenderState, line: string): (seq<string>, RenderState) {
    if StartsWith(line, FENCE) then
      if !st.inCode then (["<pre><code>"], st.(inCode := true)) else (["</code></pre>"], st.(inCode := false))
    else if st.inCode then ([EscapeHtml(line) + "\n"], st)
    else
      var text := EscapeHtml(line);
      if IsListText(text) then (OpenList(st) + [ContentChunk(text)], st.(inList := true))
      else (CloseList(st) + [ContentChunk(text)], st.(inList := false))
  }

  /** The `<ul>` that opens a list when none is open. */
  function OpenList(st: RenderState): seq<string> {
    if !st.inList then ["<ul>"] else []
  }

  /** The `- ` branch is reached: no header prefix and a list prefix. */
  predicate IsListText(text: string) {
    !StartsWith(text, "#### ") && !StartsWith(text, "### ") && !StartsWith(text, "## ") && StartsWith(text, "- ")
  }

  /** The one content chunk a line outside code pushes, by the first prefix
      that matches, longest header first. */
  function ContentChunk(text: string): string {
    if StartsWith(text, "#### ") then "<h4>" + text[5..] + "</h4>"
    else if StartsWith(text, "### ") then "<h3>" + text[4..] + "</h3>"
    else if StartsWith(text, "## ") then "<h2>" + text[3..] + "</h2>"
    else if StartsWith(text, "- ") then "<li>" + text[2..] + "</li>"
    else if IsJsBlank(text) then "<br>"
    else "<p>" + text + "</p>"
  }

  /** The loop over the lines: everything pushed, and the final flags. */
  function Render(lines: seq<string>): (seq<string>, RenderState)
    decreases |lines|
  {
    if lines == [] then ([], START)
    else
      var prev := Render(lines[..|lines| - 1]);
      var step := LineStep(prev.1, lines[|lines| - 1]);
      (prev.0 + step.0, step.1)
  }

  /** What is closed after the loop: the list, then the code block. */
  function FinalClose(st: RenderState): seq<string> {
    (if st.inList then ["</ul>"] else []) + (if st.inCode then ["</code></pre>"] else [])
  }

  /** All chunks `renderMarkdownBasic` pushes, in order. */
  function Chunks(markdown: string): seq<string> {
    var r := Render(Split(markdown, '\n'));
    r.0 + FinalClose(r.1)
  }

  /** The rendered HTML: the chunks joined without separator. */
  function RenderedHtml(markdown: string): string {
    Join(Chunks(markdown), "")
  }

  /** `renderMarkdownBasic`. */
  method RenderMarkdownBasic(markdown: string) returns (out: string)
    ensures out == RenderedHtml(markdown)
    ensures OpenLists(Chunks(markdown)) == 0 && OpenCode(Chunks(markdown)) == 0
  {
    var lines := Split(markdown, '\n');
    var html: seq<string> := [];
    var inList := false;
    var inCode := false;
    for i := 0 to |lines|
      invariant Render(lines[..i]) == (html, RenderState(inList, inCode))
    {
      var line := lines[i];
      assert lines[..i + 1] == lines[..i] + [line];
      RenderSnoc(lines[..i], line);
      html, inList, inCode := RenderLine(html, inList, inCode, line);
    }
    assert lines[..|lines|] == lines;
    if inList {
      html := html + ["</ul>"];
    }
    if inCode {
      html := html + ["</code></pre>"];
    }
    assert html == Chunks(markdown);
    ChunksBalanced(markdown);
    out := Join(html, "");
  }

  /** The body of the loop for one line; each early `return` is a
      `continue` of the loop. */
  method RenderLine(html: seq<string>, inList: bool, inCode: bool, line: string)
    returns (html': seq<string>, inList': bool, inCode': bool)
    ensures var step := LineStep(RenderState(inList, inCode), line);
            html' == html + step.0 && RenderState(inList', inCode') == step.1
  {
    html', inList', inCode' := html, inList, inCode;
    if StartsWith(line, FENCE) {
      if !inCode' {
        html' := html' + ["<pre><code>"];
        inCode' := true;
      } else {
        html' := html' + ["</code></pre>"];
        inCode' := false;
      }
      return;
    }
    if inCode' {
      html' := html' + [EscapeHtml(line) + "\n"];
      return;
    }
    html', inList' := PushTextLine(html', inList', EscapeHtml(line));
  }

  /** The branches of the loop for a line outside code, on its escaped
      text: close or open the list, then push the content chunk. */
  method PushTextLine(html: seq<string>, inList: bool, text: string) returns (html': seq<string>, inList': bool)
    ensures IsListText(text) ==> html' == html + OpenList(RenderState(inList, false)) + [ContentChunk(text)] && inList'
    ensures !IsListText(text) ==> html' == html + CloseList(RenderState(inList, false)) + [ContentChunk(text)] && !inList'
  {
    html', inList' := html, inList;
    if StartsWith(text, "#### ") {
      if inList' { html' := html' + ["</ul>"]; inList' := false; }
      html' := html' + ["<h4>" + text[5..] + "</h4>"];
    } else if StartsWith(text, "### ") {
      if inList' { html' := html' + ["</ul>"]; inList' := false; }
      html' := html' + ["<h3>" + text[4..] + "</h3>"];
    } else if StartsWith(text, "## ") {
      if inList' { html' := html' + ["</ul>"]; inList' := false; }
      html' := html' + ["<h2>" + text[3..] + "</h2>"];
    } else if StartsWith(text, "- ") {
      if !inList' { html' := html' + ["<ul>"]; inList' := true; }
      html' := html' + ["<li>" + text[2..] + "</li>"];
    } else if IsJsBlank(text) {
      if inList' { html' := html' + ["</ul>"]; inList' := false; }
      html' := html' + ["<br>"];
    } else {
      if inList' { html' := html' + ["</ul>"]; inList' := false; }
      html' := html' + ["<p>" + text + "</p>"];
    }
  }

  /** One step of the loop. */
  lemma RenderSnoc(lines: seq<string>, line: string)
    ensures var prev := Render(lines);
            var step := LineStep(prev.1, line);
            Render(lines + [line]) == (prev.0 + step.0, step.1)
  {
    assert (lines + [line])[..|lines|] == lines;
  }

  // --- code mode ---

  /** How many of the lines open or close a code block. */
  function FenceCount(lines: seq<string>): nat
    decreases |lines|
  {
    if lines == [] then 0
    else FenceCount(lines[..|lines| - 1]) + (if StartsWith(lines[|lines| - 1], FENCE) then 1 else 0)
  }

  /** The renderer is in code mode exactly after an odd number of fences. */
  lemma {:induction false} CodeModeIsFenceParity(lines: seq<string>)
    ensures Render(lines).1.inCode <==> FenceCount(lines) % 2 == 1
    decreases |lines|
  {
    if lines != [] {
      CodeModeIsFenceParity(lines[..|lines| - 1]);
    }
  }

  /** A line after an odd number of fences that is not itself a fence is
      pushed escaped and followed by a newline, untouched otherwise: no
      header, list item or paragraph markup, and no `<` of its own. */
  lemma CodeLinesVerbatim(lines: seq<string>, k: nat)
    requires k < |lines| && FenceCount(lines[..k]) % 2 == 1 && !StartsWith(lines[k], FENCE)
    ensures Render(lines[..k + 1]).0 == Render(lines[..k]).0 + [EscapeHtml(lines[k]) + "\n"]
    ensures Render(lines[..k + 1]).1 == Render(lines[..k]).1
    ensures '<' !in EscapeHtml(lines[k]) + "\n"
  {
    CodeModeIsFenceParity(lines[..k]);
    assert lines[..k + 1] == lines[..k] + [lines[k]];
    RenderSnoc(lines[..k], lines[k]);
  }

  /** A fence toggles code mode and leaves the list flag alone. */
  lemma FenceToggles(st: RenderState, line: string)
    requires StartsWith(line, FENCE)
    ensures LineStep(st, line).1 == RenderState(st.inList, !st.inCode)
    ensures LineStep(st, line).0 == (if st.inCode then ["</code></pre>"] else ["<pre><code>"])
  {
  }

  // --- balance ---

  /** The `<ul>`s still open after some chunks. */
  function OpenLists(chunks: seq<string>): int {
    (multiset(chunks)["<ul>"] as int) - multiset(chunks)["</ul>"]
  }

  /** The code blocks still open after some chunks. */
  function OpenCode(chunks: seq<string>): int {
    (multiset(chunks)["<pre><code>"] as int) - multiset(chunks)["</code></pre>"]
  }

  /** A chunk wrapped in a two-letter tag is none of the structural tags. */
  lemma WrappedIsNotTag(open: string, text: string, close: string)
    requires |open| >= 2 && open[0] == '<' && open[1] != 'u' && open[1] != '/' && open[1] != 'p'
    ensures var c := open + text + close;
            c != "<ul>" && c != "</ul>" && c != "<pre><code>" && c != "</code></pre>"
  {
    var c := open + text + close;
    assert c[1] == open[1];
  }

  /** A paragraph is none of the structural tags. */
  lemma ParagraphIsNotTag(text: string)
    ensures var c := "<p>" + text + "</p>";
            c != "<ul>" && c != "</ul>" && c != "<pre><code>" && c != "</code></pre>"
  {
    var c := "<p>" + text + "</p>";
    assert c[2] == '>';
  }

  /** A code line is none of the structural tags. */
  lemma CodeLineIsNotTag(line: string)
    ensures var c := EscapeHtml(line) + "\n";
            c != "<ul>" && c != "</ul>" && c != "<pre><code>" && c != "</code></pre>"
  {
    var e := EscapeHtml(line);
    var c := e + "\n";
    if e == [] {
      assert c == "\n";
    } else {
      assert c[0] == e[0] && e[0] in e;
    }
  }

  /** A chunk that is no structural tag leaves the open counts alone. */
  lemma PlainChunk(pre: seq<string>, c: string)
    requires c != "<ul>" && c != "</ul>" && c != "<pre><code>" && c != "</code></pre>"
    ensures OpenLists(pre + [c]) == OpenLists(pre) && OpenCode(pre + [c]) == OpenCode(pre)
  {
    assert multiset(pre + [c]) == multiset(pre) + multiset{c};
  }

  /** What one step does to the open counts: each follows its flag. */
  lemma StepBalance(st: RenderState, line: string)
    ensures var step := LineStep(st, line);
            && OpenLists(step.0) == (if step.1.inList then 1 else 0) - (if st.inList then 1 else 0)
            && OpenCode(step.0) == (if step.1.inCode then 1 else 0) - (if st.inCode then 1 else 0)
  {
    if StartsWith(line, FENCE) {
      assert "<pre><code>" != "</code></pre>" && "<pre><code>" != "<ul>" && "<pre><code>" != "</ul>";
      assert "</code></pre>" != "<ul>" && "</code></pre>" != "</ul>";
    } else if st.inCode {
      CodeLineIsNotTag(line);
      PlainChunk([], EscapeHtml(line) + "\n");
    } else {
      TextStepBalance(st, line);
    }
  }

  /** The same, for a line outside code. */
  lemma TextStepBalance(st: RenderState, line: string)
    requires !st.inCode && !StartsWith(line, FENCE)
    ensures var step := LineStep(st, line);
            && OpenLists(step.0) == (if step.1.inList then 1 else 0) - (if st.inList then 1 else 0)
            && OpenCode(step.0) == 0 && !step.1.inCode
  {
    var text := EscapeHtml(line);
    var c := ContentChunk(text);
    ContentChunkIsNotTag(text);
    var pre := if IsListText(text) then OpenList(st) else CloseList(st);
    assert LineStep(st, line).0 == pre + [c];
    PlainChunk(pre, c);
    assert "<ul>" != "</ul>" && "<ul>" != "<pre><code>" && "<ul>" != "</code></pre>";
    assert "</ul>" != "<pre><code>" && "</ul>" != "</code></pre>";
  }

  /** No content chunk is a structural tag. */
  lemma ContentChunkIsNotTag(text: string)
    ensures var c := ContentChunk(text);
            c != "<ul>" && c != "</ul>" && c != "<pre><code>" && c != "</code></pre>"
  {
    if StartsWith(text, "#### ") {
      WrappedIsNotTag("<h4>", text[5..], "</h4>");
    } else if StartsWith(text, "### ") {
      WrappedIsNotTag("<h3>", text[4..], "</h3>");
    } else if StartsWith(text, "## ") {
      WrappedIsNotTag("<h2>", text[3..], "</h2>");
    } else if StartsWith(text, "- ") {
      WrappedIsNotTag("<li>", text[2..], "</li>");
    } else if IsJsBlank(text) {
      assert "<br>"[1] == 'b';
    } else {
      ParagraphIsNotTag(text);
    }
  }

  /** After any lines, exactly one `<ul>` is open while the list flag is
      set and none otherwise, and likewise for code blocks. */
  lemma {:induction false} RenderBalance(lines: seq<string>)
    ensures var r := Render(lines);
            && OpenLists(r.0) == (if r.1.inList then 1 else 0)
            && OpenCode(r.0) == (if r.1.inCode then 1 else 0)
    decreases |lines|
  {
    if lines != [] {
      var init := lines[..|lines| - 1];
      RenderBalance(init);
      var prev := Render(init);
      StepBalance(prev.1, lines[|lines| - 1]);
      var step := LineStep(prev.1, lines[|lines| - 1]);
      OpenAppend(prev.0, step.0);
    }
  }

  /** Open counts add up over concatenation. */
  lemma OpenAppend(a: seq<string>, b: seq<string>)
    ensures OpenLists(a + b) == OpenLists(a) + OpenLists(b)
    ensures OpenCode(a + b) == OpenCode(a) + OpenCode(b)
  {
    assert multiset(a + b) == multiset(a) + multiset(b);
  }

  /** The closing chunks close what the flags say is open. */
  lemma FinalCloseCounts(st: RenderState)
    ensures OpenLists(FinalClose(st)) == -(if st.inList then 1 else 0)
    ensures OpenCode(FinalClose(st)) == -(if st.inCode then 1 else 0)
  {
    var l: seq<string> := if st.inList then ["</ul>"] else [];
    var c: seq<string> := if st.inCode then ["</code></pre>"] else [];
    assert "</ul>" != "<ul>" && "</ul>" != "<pre><code>" && "</ul>" != "</code></pre>";
    assert "</code></pre>" != "<ul>" && "</code></pre>" != "<pre><code>";
    OpenAppend(l, c);
  }

  /** Every `<ul>` and every `<pre><code>` of the output is closed, so each
      opening tag has its closing one. */
  lemma ChunksBalanced(markdown: string)
    ensures OpenLists(Chunks(markdown)) == 0 && OpenCode(Chunks(markdown)) == 0
    ensures multiset(Chunks(markdown))["<ul>"] == multiset(Chunks(markdown))["</ul>"]
    ensures multiset(Chunks(markdown))["<pre><code>"] == multiset(Chunks(markdown))["</code></pre>"]
  {
    var r := Render(Split(markdown, '\n'));
    RenderBalance(Split(markdown, '\n'));
    FinalCloseCounts(r.1);
    OpenAppend(r.0, FinalClose(r.1));
  }

  // --- headers and lists ---

  /** The header tag for a level. */
  function HeaderChunk(level: nat, body: string): string
    requires 2 <= level <= 4
  {
    if level == 4 then "<h4>" + body + "</h4>" else if level == 3 then "<h3>" + body + "</h3>" else "<h2>" + body + "</h2>"
  }

  /** A text opening with `n` `#`s has at least `n` leading `#`s. */
  lemma {:induction false} LeadingHashesAtLeast(s: string, n: nat)
    requires n <= |s| && forall i :: 0 <= i < n ==> s[i] == '#'
    ensures LeadingHashes(s) >= n
    decreases n
  {
    if n > 0 {
      assert forall i :: 0 <= i < n - 1 ==> s[1..][i] == s[i + 1];
      LeadingHashesAtLeast(s[1..], n - 1);
    }
  }

  /** `prefix` is `n` `#`s and a space. */
  lemma HeaderPrefix(text: string, n: nat, prefix: string)
    requires |prefix| == n + 1 && (forall i :: 0 <= i < n ==> prefix[i] == '#') && prefix[n] == ' '
    ensures StartsWith(text, prefix) <==> LeadingHashes(text) == n && n < |text| && text[n] == ' '
  {
    if StartsWith(text, prefix) {
      assert forall i :: 0 <= i <= n ==> text[i] == prefix[i];
      LeadingHashesAtLeast(text, n);
    }
    if LeadingHashes(text) == n && n < |text| && text[n] == ' ' {
      assert text[..n + 1] == prefix;
    }
  }

  /** Outside code, a line whose escaped text is two to four `#`s and a
      space becomes a header of that level, closing an open list; the
      prefixes exclude each other, so testing them longest first only
      decides which one applies. */
  lemma HeaderLevelIsHashCount(st: RenderState, line: string)
    requires !st.inCode && !StartsWith(line, FENCE)
    requires var text := EscapeHtml(line);
             var n := LeadingHashes(text);
             2 <= n <= 4 && n < |text| && text[n] == ' '
    ensures var text := EscapeHtml(line);
            var n := LeadingHashes(text);
            LineStep(st, line) == (CloseList(st) + [HeaderChunk(n, text[n + 1..])], st.(inList := false))
  {
    var text := EscapeHtml(line);
    HeaderPrefix(text, 4, "#### ");
    HeaderPrefix(text, 3, "### ");
    HeaderPrefix(text, 2, "## ");
  }

  /** Outside code, every line that is not a list item closes an open list,
      and a list item opens one only when none is open. */
  lemma ListClosedByOtherLines(st: RenderState, line: string)
    requires !st.inCode && !StartsWith(line, FENCE)
    ensures var step := LineStep(st, line);
            var text := EscapeHtml(line);
            && (IsListText(text) ==> step.1.inList && (("<ul>" in step.0) <==> !st.inList) && "</ul>" !in step.0)
            && (!IsListText(text) ==> !step.1.inList && (("</ul>" in step.0) <==> st.inList) && "<ul>" !in step.0)
  {
    var text := EscapeHtml(line);
    ContentChunkIsNotTag(text);
  }

  /** A blank line (after escaping, as `trim` sees it) outside code
      closes an open list and pushes `<br>`. */
  lemma BlankLineBreaks(st: RenderState, line: string)
    requires !st.inCode && !StartsWith(line, FENCE) && IsJsBlank(EscapeHtml(line))
    ensures LineStep(st, line) == (CloseList(st) + ["<br>"], st.(inList := false))
  {
    var text := EscapeHtml(line);
    if text != [] {
      assert IsJsSpace(text[0]);
    }
  }

  /** The list items of consecutive `- ` lines. */
  function Items(lines: seq<string>): (r: seq<string>)
    requires forall i :: 0 <= i < |lines| ==> 2 <= |EscapeHtml(lines[i])|
    ensures |r| == |lines|
    decreases |lines|
  {
    if lines == [] then []
    else
      var last := lines[|lines| - 1];
      Items(lines[..|lines| - 1]) + ["<li>" + EscapeHtml(last)[2..] + "</li>"]
  }

  /** A list line: its escaped text starts with `- `. */
  predicate IsListLine(line: string) {
    StartsWith(EscapeHtml(line), "- ") && !StartsWith(line, FENCE)
  }

  /** Consecutive `- ` lines at the start share one `<ul>`, one `<li>` each. */
  lemma {:induction false} ListLinesShareOneList(lines: seq<string>)
    requires lines != [] && forall i :: 0 <= i < |lines| ==> IsListLine(lines[i])
    ensures forall i :: 0 <= i < |lines| ==> 2 <= |EscapeHtml(lines[i])|
    ensures Render(lines) == (["<ul>"] + Items(lines), RenderState(true, false))
    decreases |lines|
  {
    var init := lines[..|lines| - 1];
    var last := lines[|lines| - 1];
    ListLineNotHeader(last);
    if init == [] {
      assert lines == [last];
      assert Render(init) == ([], START);
      assert Items(lines) == Items(init) + ["<li>" + EscapeHtml(last)[2..] + "</li>"];
      assert Items(init) == [];
      var c := "<li>" + EscapeHtml(last)[2..] + "</li>";
      assert ContentChunk(EscapeHtml(last)) == c;
      assert LineStep(START, last) == (["<ul>"] + [c], RenderState(true, false));
      assert Render(lines) == ([] + (["<ul>"] + [c]), RenderState(true, false));
      assert [] + (["<ul>"] + [c]) == ["<ul>"] + ([] + [c]);
    } else {
      assert forall i :: 0 <= i < |init| ==> init[i] == lines[i];
      ListLinesShareOneList(init);
      var c := "<li>" + EscapeHtml(last)[2..] + "</li>";
      assert ContentChunk(EscapeHtml(last)) == c;
      var items := Items(init);
      assert LineStep(RenderState(true, false), last) == ([] + [c], RenderState(true, false));
      assert Items(lines) == items + [c];
      assert (["<ul>"] + items) + ([] + [c]) == ["<ul>"] + (items + [c]);
    }
  }

  /** A list line is none of the header lines. */
  lemma ListLineNotHeader(line: string)
    requires IsListLine(line)
    ensures 2 <= |EscapeHtml(line)|
    ensures var text := EscapeHtml(line);
            !StartsWith(text, "#### ") && !StartsWith(text, "### ") && !StartsWith(text, "## ")
  {
    var text := EscapeHtml(line);
    assert text[0] == '-';
  }

  // ---------------------------------------------------------------------------
  // getSelectedCollectionKeys
  // ---------------------------------------------------------------------------

  /** `getSelectedCollectionKeys`: the primary selection if any, then the
      secondary one if any and different, at most two. */
  method GetSelectedCollectionKeys(first: string, second: string) returns (keys: seq<string>)
    ensures |keys| <= 2
    ensures forall k :: k in keys <==> k != "" && (k == first || k == second)
    ensures forall i, j :: 0 <= i < j < |keys| ==> keys[i] != keys[j]
    ensures first != "" ==> keys != [] && keys[0] == first
    ensures first == "" && second != "" ==> keys == [second]
  {
    var values: seq<string> := [];
    if first != "" {
      values := values + [first];
    }
    if second != "" && second != first {
      values := values + [second];
    }
    keys := values[..if |values| < 2 then |values| else 2];
    assert keys == values;
  }
}
