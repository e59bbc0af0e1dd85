/** The two header parsers of a Bus message: the canonical grammar (message_grammar.py) and the strict
    one that authenticates an append (_metadata_headers in safe_lane_append.py). Both work on exact
    text: line splitting, stripping and the header expression are spelled out character by character. */
module MessageGrammar {
  import opened Wrappers
  import opened Text

  // ---- Characters and lines, as Python's str sees them ----

  predicate IsBoundary(c: char) {
    '\n' <= c <= '\r' || '\U{1c}' <= c <= '\U{1e}' || c == '\U{85}' || c == '\U{2028}' || c == '\U{2029}'
  }

  predicate IsSpace(c: char) {
    || '\t' <= c <= '\r' || '\U{1c}' <= c <= ' ' || c == '\U{85}' || c == '\U{a0}' || c == '\U{1680}'
    || '\U{2000}' <= c <= '\U{200a}' || c == '\U{2028}' || c == '\U{2029}' || c == '\U{202f}' || c == '\U{205f}'
    || c == '\U{3000}'
  }

  predicate AllSpace(s: string) {
    forall i :: 0 <= i < |s| ==> IsSpace(s[i])
  }

  function LStrip(s: string): string {
    if s != [] && IsSpace(s[0]) then LStrip(s[1..]) else s
  }

  function RStrip(s: string): string {
    if s != [] && IsSpace(s[|s| - 1]) then RStrip(s[..|s| - 1]) else s
  }

  function Strip(s: string): string {
    RStrip(LStrip(s))
  }

  function ContentLength(text: string): (n: nat)
    ensures n <= |text|
  {
    if text == [] || IsBoundary(text[0]) then 0 else 1 + ContentLength(text[1..])
  }

  // The length of the line terminator at the start of the text: CR LF counts as one.
  function TerminatorLength(text: string): (n: nat)
    ensures n <= |text| && n <= 2
    ensures text != [] ==> n > 0
  {
    if text == [] then 0 else if |text| > 1 && text[0] == '\r' && text[1] == '\n' then 2 else 1
  }

  // str.splitlines(keepends)
  function SplitLines(text: string, keepEnds: bool): seq<string>
    decreases |text|
  {
    if text == [] then []
    else
      var n := ContentLength(text);
      var t := TerminatorLength(text[n..]);
      assert n == 0 ==> t > 0;
      [text[..if keepEnds then n + t else n]] + SplitLines(text[n + t..], keepEnds)
  }

  // ---- Header lines ----

  predicate IsKeyChar(c: char) {
    'A' <= c <= 'Z' || 'a' <= c <= 'z' || '0' <= c <= '9' || c == '_' || c == '-'
  }

  function KeyLength(line: string): (n: nat)
    ensures n <= |line|
  {
    if line == [] || !IsKeyChar(line[0]) then 0 else 1 + KeyLength(line[1..])
  }

  function NormalizeKey(key: string): string {
    seq(|key|, i requires 0 <= i < |key| => if key[i] == '-' then '_' else FoldChar(key[i]))
  }

  predicate Quoted(text: string, quote: char) {
    |text| >= 2 && text[0] == quote && text[|text| - 1] == quote
  }

  function UnwrapScalar(value: string): string {
    var text := Strip(value);
    if Quoted(text, '`') || Quoted(text, '"') || Quoted(text, '\'') then Strip(text[1..|text| - 1]) else text
  }

  datatype Header = Header(key: string, value: string)

  // A key of letters, digits, underscores and hyphens, white space, a colon, and the value.
  function ParseHeader(line: string): Option<Header> {
    var k := KeyLength(line);
    var rest := LStrip(line[k..]);
    if k == 0 || rest == [] || rest[0] != ':' then None
    else Some(Header(NormalizeKey(line[..k]), UnwrapScalar(rest[1..])))
  }

  predicate Blank(line: string) {
    Strip(line) == []
  }

  predicate IsFence(line: string) {
    Strip(line) == "---"
  }

  predicate IsTitle(line: string) {
    var text := LStrip(line);
    text != [] && text[0] == '#'
  }

  // ---- Both parsers, on lines ----

  type Headers = map<string, string>

  datatype GrammarError =
    | HeaderBlockMissing
    | DuplicateHeader(key: string)
    | InvalidFrontmatterHeader
    | FrontmatterUnterminated

  // Headers together with the index of the line that ended the block (the number of lines if none did).
  datatype Block = Block(headers: Headers, end: nat)

  function SkipBlank(lines: seq<string>, i: nat): (n: nat)
    requires i <= |lines|
    ensures i <= n <= |lines|
    decreases |lines| - i
  {
    if i < |lines| && Blank(lines[i]) then SkipBlank(lines, i + 1) else i
  }

  predicate HasFrontmatter(lines: seq<string>) {
    var i := SkipBlank(lines, 0);
    i < |lines| && IsFence(lines[i])
  }

  // The first line that can hold an inline header: after blank lines, one title, and blank lines.
  function InlineStart(lines: seq<string>): (n: nat)
    ensures n <= |lines|
  {
    var i := SkipBlank(lines, 0);
    if i < |lines| && IsTitle(lines[i]) then SkipBlank(lines, i + 1) else i
  }

  // One contiguous block of header lines; it ends at the first blank or other line.
  function InlineBlock(lines: seq<string>, i: nat, headers: Headers, started: bool): Result<Block, GrammarError>
    requires i <= |lines|
    decreases |lines| - i
  {
    if i == |lines| then (if started then Ok(Block(headers, i)) else Err(HeaderBlockMissing))
    else if Blank(lines[i]) then
      (if started then Ok(Block(headers, i)) else InlineBlock(lines, i + 1, headers, false))
    else
      match ParseHeader(lines[i])
      case None => if started then Ok(Block(headers, i)) else Err(HeaderBlockMissing)
      case Some(h) =>
        if h.key in headers then Err(DuplicateHeader(h.key))
        else InlineBlock(lines, i + 1, headers[h.key := h.value], true)
  }

  // ---- The strict parser (safe_lane_append.py) ----

  predicate StrictSkips(line: string) {
    Blank(line) || line[0] in " \t"
  }

  function StrictFrontmatter(lines: seq<string>, i: nat, headers: Headers): Result<Block, GrammarError>
    requires i <= |lines|
    decreases |lines| - i
  {
    if i == |lines| then Err(FrontmatterUnterminated)
    else if IsFence(lines[i]) then (if headers == map[] then Err(HeaderBlockMissing) else Ok(Block(headers, i)))
    else if StrictSkips(lines[i]) then StrictFrontmatter(lines, i + 1, headers)
    else
      match ParseHeader(lines[i])
      case None => Err(InvalidFrontmatterHeader)
      case Some(h) =>
        if h.key in headers then Err(DuplicateHeader(h.key))
        else StrictFrontmatter(lines, i + 1, headers[h.key := h.value])
  }

  function StrictBlock(lines: seq<string>): Result<Block, GrammarError> {
    if HasFrontmatter(lines) then StrictFrontmatter(lines, SkipBlank(lines, 0) + 1, map[])
    else InlineBlock(lines, InlineStart(lines), map[], false)
  }

  // ---- The canonical grammar (message_grammar.py) ----

  // Indented lines and list items are provenance, not headers.
  predicate GrammarSkips(line: string) {
    || Blank(line)
    || IsSpace(line[0])
    || Strip(line)[0] == '-'
  }

  // raw.rstrip("\r\n")
  function TrimEnd(line: string): string {
    if line != [] && line[|line| - 1] in "\r\n" then TrimEnd(line[..|line| - 1]) else line
  }

  function GrammarFrontmatter(lines: seq<string>, i: nat, headers: Headers): Result<Block, GrammarError>
    requires i <= |lines|
    decreases |lines| - i
  {
    if i == |lines| then Err(FrontmatterUnterminated)
    else if IsFence(lines[i]) then (if headers == map[] then Err(HeaderBlockMissing) else Ok(Block(headers, i)))
    else if GrammarSkips(lines[i]) then GrammarFrontmatter(lines, i + 1, headers)
    else
      match ParseHeader(TrimEnd(lines[i]))
      case None => Err(InvalidFrontmatterHeader)
      case Some(h) =>
        if h.key in headers then Err(DuplicateHeader(h.key))
        else GrammarFrontmatter(lines, i + 1, headers[h.key := h.value])
  }

  function Trimmed(lines: seq<string>): seq<string> {
    seq(|lines|, i requires 0 <= i < |lines| => TrimEnd(lines[i]))
  }

  function GrammarBlock(lines: seq<string>): Result<Block, GrammarError> {
    if HasFrontmatter(lines) then GrammarFrontmatter(lines, SkipBlank(lines, 0) + 1, map[])
    else InlineBlock(Trimmed(lines), InlineStart(lines), map[], false)
  }

  // ---- Trailing white space never matters ----

  lemma {:induction false} RStripPadded(x: string, w: string)
    requires AllSpace(w)
    ensures RStrip(x + w) == RStrip(x)
    decreases |w|
  {
    if w == [] {
      assert x + w == x;
    } else {
      RStripPadded(x, w[..|w| - 1]);
      assert (x + w)[..|x + w| - 1] == x + w[..|w| - 1];
    }
  }

  lemma {:induction false} LStripAllSpace(w: string)
    requires AllSpace(w)
    ensures LStrip(w) == []
  {
    if w != [] { LStripAllSpace(w[1..]); }
  }

  lemma {:induction false} LStripPadded(x: string, w: string)
    requires AllSpace(w)
    ensures LStrip(x + w) == if LStrip(x) == [] then [] else LStrip(x) + w
  {
    if x == [] {
      LStripAllSpace(w);
      assert x + w == w;
    } else {
      assert (x + w)[0] == x[0] && (x + w)[1..] == x[1..] + w;
      if IsSpace(x[0]) { LStripPadded(x[1..], w); }
    }
  }

  lemma StripPadded(x: string, w: string)
    requires AllSpace(w)
    ensures Strip(x + w) == Strip(x)
  {
    LStripPadded(x, w);
    RStripPadded(LStrip(x), w);
  }

  lemma {:induction false} KeyLengthPadded(x: string, w: string)
    requires AllSpace(w)
    ensures KeyLength(x + w) == KeyLength(x)
  {
    if x == [] {
      assert x + w == w;
    } else {
      assert (x + w)[0] == x[0] && (x + w)[1..] == x[1..] + w;
      if IsKeyChar(x[0]) { KeyLengthPadded(x[1..], w); }
    }
  }

  lemma ParseHeaderPadded(x: string, w: string)
    requires AllSpace(w)
    ensures ParseHeader(x + w) == ParseHeader(x)
  {
    KeyLengthPadded(x, w);
    var k := KeyLength(x);
    assert (x + w)[..k] == x[..k] && (x + w)[k..] == x[k..] + w;
    LStripPadded(x[k..], w);
    var rest := LStrip(x[k..]);
    if rest != [] {
      assert (rest + w)[0] == rest[0] && (rest + w)[1..] == rest[1..] + w;
      StripPadded(rest[1..], w);
    }
  }

  lemma {:induction false} TrimEndPads(line: string) returns (w: string)
    ensures AllSpace(w) && line == TrimEnd(line) + w
  {
    if line != [] && line[|line| - 1] in "\r\n" {
      var v := TrimEndPads(line[..|line| - 1]);
      w := v + [line[|line| - 1]];
    } else {
      w := [];
    }
  }

  // Two readings of the same lines, one with more white space at line ends.
  ghost predicate Pads(bare: string, kept: string) {
    bare <= kept && AllSpace(kept[|bare|..])
  }

  ghost predicate PadsAll(bare: seq<string>, kept: seq<string>) {
    |bare| == |kept| && forall i :: 0 <= i < |bare| ==> Pads(bare[i], kept[i])
  }

  lemma PaddedLine(bare: string, kept: string)
    requires Pads(bare, kept)
    ensures Blank(bare) == Blank(kept) && IsFence(bare) == IsFence(kept) && IsTitle(bare) == IsTitle(kept)
    ensures ParseHeader(kept) == ParseHeader(bare)
    ensures GrammarSkips(kept) == GrammarSkips(bare)
    ensures ParseHeader(TrimEnd(kept)) == ParseHeader(bare) && Blank(TrimEnd(kept)) == Blank(bare)
  {
    var w := kept[|bare|..];
    assert kept == bare + w;
    StripPadded(bare, w);
    LStripPadded(bare, w);
    ParseHeaderPadded(bare, w);
    var v := TrimEndPads(kept);
    ParseHeaderPadded(TrimEnd(kept), v);
    StripPadded(TrimEnd(kept), v);
    if !Blank(bare) { assert kept[0] == bare[0]; }
  }

  lemma {:induction false} SkipBlankPadded(bare: seq<string>, kept: seq<string>, i: nat)
    requires PadsAll(bare, kept) && i <= |bare|
    ensures SkipBlank(kept, i) == SkipBlank(bare, i)
    decreases |bare| - i
  {
    if i < |bare| {
      PaddedLine(bare[i], kept[i]);
      if Blank(bare[i]) { SkipBlankPadded(bare, kept, i + 1); }
    }
  }

  // Lines that the inline loop cannot tell apart.
  ghost predicate Similar(a: seq<string>, b: seq<string>) {
    |a| == |b| && forall i :: 0 <= i < |a| ==> Blank(a[i]) == Blank(b[i]) && ParseHeader(a[i]) == ParseHeader(b[i])
  }

  lemma {:induction false} InlineSimilar(a: seq<string>, b: seq<string>, i: nat, headers: Headers, started: bool)
    requires Similar(a, b) && i <= |a|
    ensures InlineBlock(a, i, headers, started) == InlineBlock(b, i, headers, started)
    decreases |a| - i
  {
    if i < |a| {
      if Blank(a[i]) {
        if !started { InlineSimilar(a, b, i + 1, headers, false); }
      } else if ParseHeader(a[i]).Some? {
        var h := ParseHeader(a[i]).value;
        if h.key !in headers { InlineSimilar(a, b, i + 1, headers[h.key := h.value], true); }
      }
    }
  }

  lemma TrimmedSimilar(bare: seq<string>, kept: seq<string>)
    requires PadsAll(bare, kept)
    ensures Similar(Trimmed(kept), bare)
  {
    forall i | 0 <= i < |bare|
      ensures Blank(Trimmed(kept)[i]) == Blank(bare[i]) && ParseHeader(Trimmed(kept)[i]) == ParseHeader(bare[i])
    {
      PaddedLine(bare[i], kept[i]);
    }
  }

  lemma {:induction false} GrammarFrontmatterPadded(bare: seq<string>, kept: seq<string>, i: nat, headers: Headers)
    requires PadsAll(bare, kept) && i <= |bare|
    ensures GrammarFrontmatter(kept, i, headers) == GrammarFrontmatter(bare, i, headers)
    decreases |bare| - i
  {
    if i < |bare| {
      PaddedLine(bare[i], kept[i]);
      PaddedLine(bare[i], bare[i]);
      if IsFence(bare[i]) {
      } else if GrammarSkips(bare[i]) {
        GrammarFrontmatterPadded(bare, kept, i + 1, headers);
      } else if ParseHeader(bare[i]).Some? {
        var h := ParseHeader(bare[i]).value;
        if h.key !in headers { GrammarFrontmatterPadded(bare, kept, i + 1, headers[h.key := h.value]); }
      }
    }
  }

  // The grammar finds the same block whether or not the lines keep their terminators.
  lemma GrammarBlockPadded(bare: seq<string>, kept: seq<string>)
    requires PadsAll(bare, kept)
    ensures GrammarBlock(kept) == GrammarBlock(bare)
  {
    hide GrammarFrontmatter;
    hide InlineBlock;
    hide Trimmed;
    hide Strip;
    hide ParseHeader;
    hide GrammarSkips;
    SkipBlankPadded(bare, kept, 0);
    var i := SkipBlank(bare, 0);
    if i < |bare| {
      PaddedLine(bare[i], kept[i]);
      SkipBlankPadded(bare, kept, i + 1);
    }
    assert PadsAll(bare, bare);
    if HasFrontmatter(bare) {
      GrammarFrontmatterPadded(bare, kept, i + 1, map[]);
    } else {
      TrimmedSimilar(bare, kept);
      TrimmedSimilar(bare, bare);
      InlineSimilar(Trimmed(kept), bare, InlineStart(bare), map[], false);
      InlineSimilar(Trimmed(bare), bare, InlineStart(bare), map[], false);
    }
  }

  lemma {:induction false} ContentLengthBoundary(text: string)
    ensures var n := ContentLength(text);
            && (n < |text| ==> IsBoundary(text[n]))
            && (forall i :: 0 <= i < n ==> !IsBoundary(text[i]))
  {
    if text != [] && !IsBoundary(text[0]) { ContentLengthBoundary(text[1..]); }
  }

  lemma TerminatorIsSpace(text: string)
    requires text != [] ==> IsBoundary(text[0])
    ensures AllSpace(text[..TerminatorLength(text)])
  {
  }

  lemma {:induction false} KeptLinesPad(text: string)
    ensures PadsAll(SplitLines(text, false), SplitLines(text, true))
    decreases |text|
  {
    if text != [] {
      var n := ContentLength(text);
      var t := TerminatorLength(text[n..]);
      ContentLengthBoundary(text);
      TerminatorIsSpace(text[n..]);
      assert text[..n + t][n..] == text[n..][..t] && text[..n + t][..n] == text[..n];
      assert Pads(text[..n], text[..n + t]);
      var rest := text[n + t..];
      KeptLinesPad(rest);
      ConsPads(text[..n], text[..n + t], SplitLines(rest, false), SplitLines(rest, true));
    }
  }

  lemma ConsPads(bare: string, kept: string, bares: seq<string>, kepts: seq<string>)
    requires Pads(bare, kept) && PadsAll(bares, kepts)
    ensures PadsAll([bare] + bares, [kept] + kepts)
  {
  }

  // ---- Agreement of the two parsers ----

  predicate Underscored(key: string) {
    key != [] && key[0] == '_'
  }

  // Equal values for every key that does not start with an underscore; the grammar has no key of its own.
  ghost predicate Agree(strict: Headers, grammar: Headers) {
    && (forall k :: k in grammar ==> k in strict && strict[k] == grammar[k])
    && (forall k :: k in strict && !Underscored(k) ==> k in grammar)
  }

  lemma HeaderLineFacts(line: string)
    requires ParseHeader(line).Some?
    ensures !Blank(line) && !IsSpace(line[0]) && Strip(line)[0] == line[0]
    ensures line[0] == '-' ==> Underscored(ParseHeader(line).value.key)
  {
    assert KeyLength(line) > 0;
    assert !IsSpace(line[0]);
    assert LStrip(line) == line;
    RStripFirst(line);
  }

  lemma {:induction false} RStripFirst(s: string)
    requires s != [] && !IsSpace(s[0])
    ensures RStrip(s) != [] && RStrip(s)[0] == s[0]
  {
    if IsSpace(s[|s| - 1]) { RStripFirst(s[..|s| - 1]); }
  }

  // Reading on from line i with headers that agree so far: both parsers end at the same fence with
  // headers that agree, unless the grammar is left with no header at all.
  lemma {:induction false} FrontmatterAgrees(lines: seq<string>, i: nat, strict: Headers, grammar: Headers)
    requires i <= |lines| && Agree(strict, grammar)
    requires StrictFrontmatter(lines, i, strict).Ok?
    ensures var s, g := StrictFrontmatter(lines, i, strict).value, GrammarFrontmatter(lines, i, grammar);
            if g.Ok? then g.value.end == s.end && Agree(s.headers, g.value.headers)
            else g.error == HeaderBlockMissing && Agree(s.headers, map[])
    decreases |lines| - i
  {
    var line := lines[i];
    if IsFence(line) {
    } else if StrictSkips(line) {
      FrontmatterAgrees(lines, i + 1, strict, grammar);
    } else {
      var h := ParseHeader(line).value;
      HeaderLineFacts(line);
      PaddedLine(line, line);
      var more := strict[h.key := h.value];
      if GrammarSkips(line) {
        FrontmatterAgrees(lines, i + 1, more, grammar);
      } else {
        FrontmatterAgrees(lines, i + 1, more, grammar[h.key := h.value]);
      }
    }
  }

  lemma BlocksAgree(lines: seq<string>)
    requires StrictBlock(lines).Ok?
    ensures var s, g := StrictBlock(lines).value, GrammarBlock(lines);
            if g.Ok? then g.value.end == s.end && Agree(s.headers, g.value.headers)
            else g.error == HeaderBlockMissing && Agree(s.headers, map[])
  {
    if HasFrontmatter(lines) {
      FrontmatterAgrees(lines, SkipBlank(lines, 0) + 1, map[], map[]);
    } else {
      assert PadsAll(lines, lines);
      TrimmedSimilar(lines, lines);
      InlineSimilar(Trimmed(lines), lines, InlineStart(lines), map[], false);
    }
  }

  function MetadataHeaders(text: string): Result<Headers, GrammarError> {
    var block := StrictBlock(SplitLines(text, false));
    if block.Ok? then Ok(block.value.headers) else Err(block.error)
  }

  function DocumentHeaders(text: string): Result<Headers, GrammarError> {
    var block := GrammarBlock(SplitLines(text, true));
    if block.Ok? then Ok(block.value.headers) else Err(block.error)
  }

  predicate Identified(headers: Headers) {
    && "message_id" in headers && headers["message_id"] != ""
    && "writer" in headers && headers["writer"] != ""
  }

  // Whatever text the strict parser accepts and finds a message id and a writer in, the canonical
  // grammar accepts too, with equal values for every key that does not start with an underscore.
  lemma ParsersAgree(text: string)
    requires MetadataHeaders(text).Ok? && Identified(MetadataHeaders(text).value)
    ensures DocumentHeaders(text).Ok?
    ensures Agree(MetadataHeaders(text).value, DocumentHeaders(text).value)
    ensures Identified(DocumentHeaders(text).value)
  {
    var bare := SplitLines(text, false);
    KeptLinesPad(text);
    GrammarBlockPadded(bare, SplitLines(text, true));
    BlocksAgree(bare);
    assert "message_id" in StrictBlock(bare).value.headers && !Underscored("message_id") && !Underscored("writer");
  }

  // A line between two fences that holds a header for both parsers.
  predicate VisibleHeader(line: string) {
    !StrictSkips(line) && line[0] != '-'
  }

  predicate SomeVisible(lines: seq<string>, from: nat, to: nat) {
    exists k :: from <= k < to && k < |lines| && VisibleHeader(lines[k])
  }

  lemma SomeVisibleStep(lines: seq<string>, i: nat, to: nat)
    requires i < to && i < |lines|
    ensures SomeVisible(lines, i, to) <==> VisibleHeader(lines[i]) || SomeVisible(lines, i + 1, to)
  {
  }

  lemma HeaderLineKind(line: string)
    requires ParseHeader(line).Some? && !StrictSkips(line)
    ensures GrammarSkips(line) <==> !VisibleHeader(line)
    ensures ParseHeader(TrimEnd(line)) == ParseHeader(line)
    ensures GrammarSkips(line) ==> Underscored(ParseHeader(line).value.key)
  {
    HeaderLineFacts(line);
    PaddedLine(line, line);
  }

  lemma SkippedByBoth(line: string)
    requires StrictSkips(line)
    ensures GrammarSkips(line) && !VisibleHeader(line)
  {
  }

  lemma {:induction false} FrontmatterAcceptance(lines: seq<string>, i: nat, strict: Headers, grammar: Headers)
    requires i <= |lines| && Agree(strict, grammar)
    requires StrictFrontmatter(lines, i, strict).Ok?
    ensures var end := StrictFrontmatter(lines, i, strict).value.end;
            && i <= end < |lines|
            && (GrammarFrontmatter(lines, i, grammar).Ok? <==>
                  grammar != map[] || SomeVisible(lines, i, end))
    decreases |lines| - i
  {
    var line := lines[i];
    StrictEndsLater(lines, i, strict);
    if IsFence(line) {
    } else if StrictSkips(line) {
      SkippedByBoth(line);
      FrontmatterAcceptance(lines, i + 1, strict, grammar);
      SomeVisibleStep(lines, i, StrictFrontmatter(lines, i, strict).value.end);
    } else {
      var h := ParseHeader(line).value;
      HeaderLineKind(line);
      var more := strict[h.key := h.value];
      if GrammarSkips(line) {
        FrontmatterAcceptance(lines, i + 1, more, grammar);
      } else {
        assert h.key in grammar[h.key := h.value];
        FrontmatterAcceptance(lines, i + 1, more, grammar[h.key := h.value]);
      }
      SomeVisibleStep(lines, i, StrictFrontmatter(lines, i, strict).value.end);
    }
  }

  // Exactly when the grammar also accepts what the strict parser accepts: unless there is front matter
  // in which every header line is a list item for the grammar.
  lemma GrammarAcceptsIff(text: string)
    requires MetadataHeaders(text).Ok?
    ensures DocumentHeaders(text).Ok? <==> Visible(SplitLines(text, false))
  {
    var lines := SplitLines(text, false);
    KeptLinesPad(text);
    GrammarBlockPadded(lines, SplitLines(text, true));
    BlockAcceptance(lines);
  }

  // No front matter, or some line of it is a header line for both parsers.
  predicate Visible(lines: seq<string>) {
    HasFrontmatter(lines) && StrictBlock(lines).Ok? ==>
      SomeVisible(lines, SkipBlank(lines, 0) + 1, StrictBlock(lines).value.end)
  }

  lemma BlockAcceptance(lines: seq<string>)
    requires StrictBlock(lines).Ok?
    ensures GrammarBlock(lines).Ok? <==> Visible(lines)
  {
    if HasFrontmatter(lines) {
      FrontmatterAcceptance(lines, SkipBlank(lines, 0) + 1, map[], map[]);
    } else {
      TrimmedSimilar(lines, lines);
      InlineSimilar(Trimmed(lines), lines, InlineStart(lines), map[], false);
    }
  }

  // A text that the strict parser accepts and the grammar refuses: its one header is a list item.
  lemma ListItemHeaderText()
    ensures MetadataHeaders("---\n-a:b\n---") == Ok(map["_a" := "b"])
    ensures DocumentHeaders("---\n-a:b\n---") == Err(HeaderBlockMissing)
  {
    var text := "---\n-a:b\n---";
    assert SplitLines(text, false) == ["---", "-a:b", "---"] by { ListItemLines(); }
    KeptLinesPad(text);
    GrammarBlockPadded(SplitLines(text, false), SplitLines(text, true));
    ListItemHeaderLines();
  }

  lemma ListItemLines()
    ensures SplitLines("---\n-a:b\n---", false) == ["---", "-a:b", "---"]
  {
    hide SplitLines;
    FirstLineIs("---\n-a:b\n---", "---", "-a:b\n---");
    FirstLineIs("-a:b\n---", "-a:b", "---");
    LastLineIs("---");
  }

  lemma LastLineIs(line: string)
    requires line != [] && forall i :: 0 <= i < |line| ==> !IsBoundary(line[i])
    ensures SplitLines(line, false) == [line]
  {
    assert line + [] == line;
    ContentLengthIs(line, []);
    assert line[|line|..] == [] && line[..|line|] == line;
    SplitUnfolds(line, |line|, 0);
    assert SplitLines([], false) == [];
  }

  lemma {:induction false} ContentLengthIs(line: string, rest: string)
    requires forall i :: 0 <= i < |line| ==> !IsBoundary(line[i])
    requires rest == [] || IsBoundary(rest[0])
    ensures ContentLength(line + rest) == |line|
  {
    if line == [] {
      assert line + rest == rest;
    } else {
      assert (line + rest)[0] == line[0] && (line + rest)[1..] == line[1..] + rest;
      ContentLengthIs(line[1..], rest);
    }
  }

  lemma FirstLineIs(text: string, line: string, rest: string)
    requires text == line + ['\n'] + rest
    requires forall i :: 0 <= i < |line| ==> !IsBoundary(line[i])
    ensures SplitLines(text, false) == [line] + SplitLines(rest, false)
  {
    var end := ['\n'] + rest;
    assert text == line + end;
    ContentLengthIs(line, end);
    assert text[|line|..] == end && text[..|line|] == line && text[|line| + 1..] == rest;
    SplitUnfolds(text, |line|, 1);
  }

  lemma ListItemHeaderLines()
    ensures StrictBlock(["---", "-a:b", "---"]) == Ok(Block(map["_a" := "b"], 2))
    ensures GrammarBlock(["---", "-a:b", "---"]) == Err(HeaderBlockMissing)
  {
    var lines := ["---", "-a:b", "---"];
    FenceIsFence();
    ListItemHeader();
    assert "_a" in map["_a" := "b"];
    assert StrictFrontmatter(lines, 2, map["_a" := "b"]) == Ok(Block(map["_a" := "b"], 2));
    assert StrictFrontmatter(lines, 1, map[]) == StrictFrontmatter(lines, 2, map["_a" := "b"]);
    assert GrammarFrontmatter(lines, 2, map[]) == Err(HeaderBlockMissing);
  }

  lemma FenceIsFence()
    ensures IsFence("---") && !Blank("---")
  {
    assert LStrip("---") == "---";
    assert RStrip("---") == "---";
  }

  lemma ListItemHeader()
    ensures ParseHeader("-a:b") == Some(Header("_a", "b")) && Strip("-a:b") == "-a:b"
  {
    var line := "-a:b";
    assert KeyLength(line) == 2 by {
      assert line[1..] == "a:b" && "a:b"[1..] == ":b";
      assert KeyLength(":b") == 0;
      assert KeyLength("a:b") == 1;
    }
    assert line[2..] == ":b" && LStrip(":b") == ":b" && ":b"[1..] == "b";
    assert LStrip("b") == "b" && RStrip("b") == "b";
    assert UnwrapScalar("b") == "b";
    assert line[..2] == "-a" && NormalizeKey("-a") == "_a";
    assert LStrip(line) == line && RStrip(line) == line;
  }

  // ---- Once the block has ended, nothing appended changes the headers ----

  lemma {:induction false} SkipBlankPrefix(a: seq<string>, b: seq<string>, i: nat, m: nat)
    requires i <= m <= |a| && m <= |b| && a[..m] == b[..m] && SkipBlank(a, i) < m
    ensures SkipBlank(b, i) == SkipBlank(a, i)
    decreases |a| - i
  {
    assert a[i] == a[..m][i] && b[i] == b[..m][i];
    if Blank(a[i]) { SkipBlankPrefix(a, b, i + 1, m); }
  }

  lemma {:induction false} InlinePrefix(a: seq<string>, b: seq<string>, i: nat, m: nat, headers: Headers, started: bool)
    requires i <= |a| && m <= |a| && m <= |b| && a[..m] == b[..m]
    requires InlineBlock(a, i, headers, started).Ok? && InlineBlock(a, i, headers, started).value.end < m
    ensures i < m && InlineBlock(b, i, headers, started) == InlineBlock(a, i, headers, started)
    decreases |a| - i
  {
    hide ParseHeader;
    hide Strip;
    InlineEndsLater(a, i, headers, started);
    assert a[i] == a[..m][i] && b[i] == b[..m][i];
    if Blank(a[i]) {
      if !started { InlinePrefix(a, b, i + 1, m, headers, false); }
    } else if ParseHeader(a[i]).Some? {
      var h := ParseHeader(a[i]).value;
      InlinePrefix(a, b, i + 1, m, headers[h.key := h.value], true);
    }
  }

  lemma {:induction false} InlineEndsLater(lines: seq<string>, i: nat, headers: Headers, started: bool)
    requires i <= |lines| && InlineBlock(lines, i, headers, started).Ok?
    ensures i <= InlineBlock(lines, i, headers, started).value.end <= |lines|
    decreases |lines| - i
  {
    hide ParseHeader;
    hide Strip;
    if i < |lines| {
      if Blank(lines[i]) {
        if !started { InlineEndsLater(lines, i + 1, headers, false); }
      } else if ParseHeader(lines[i]).Some? {
        var h := ParseHeader(lines[i]).value;
        InlineEndsLater(lines, i + 1, headers[h.key := h.value], true);
      }
    }
  }

  lemma {:induction false} StrictPrefix(a: seq<string>, b: seq<string>, i: nat, m: nat, headers: Headers)
    requires i < m <= |a| && m <= |b| && a[..m] == b[..m]
    requires StrictFrontmatter(a, i, headers).Ok? && StrictFrontmatter(a, i, headers).value.end < m
    ensures StrictFrontmatter(b, i, headers) == StrictFrontmatter(a, i, headers)
    decreases |a| - i
  {
    hide ParseHeader;
    hide Strip;
    assert a[i] == a[..m][i] && b[i] == b[..m][i];
    if IsFence(a[i]) {
    } else {
      if i + 1 == m { StrictEndsLater(a, i, headers); }
      if StrictSkips(a[i]) {
        StrictEndsLater(a, i + 1, headers);
        StrictPrefix(a, b, i + 1, m, headers);
      } else {
        var h := ParseHeader(a[i]).value;
        StrictEndsLater(a, i + 1, headers[h.key := h.value]);
        StrictPrefix(a, b, i + 1, m, headers[h.key := h.value]);
      }
    }
  }

  lemma {:induction false} StrictEndsLater(lines: seq<string>, i: nat, headers: Headers)
    requires i <= |lines| && StrictFrontmatter(lines, i, headers).Ok?
    ensures i <= StrictFrontmatter(lines, i, headers).value.end < |lines|
    decreases |lines| - i
  {
    if IsFence(lines[i]) {
    } else if StrictSkips(lines[i]) {
      StrictEndsLater(lines, i + 1, headers);
    } else {
      var h := ParseHeader(lines[i]).value;
      StrictEndsLater(lines, i + 1, headers[h.key := h.value]);
    }
  }

  // The strict parser looks at the lines up to the one that ends the block, and no further.
  lemma StrictBlockPrefix(a: seq<string>, b: seq<string>, m: nat)
    requires m <= |a| && m <= |b| && a[..m] == b[..m]
    requires StrictBlock(a).Ok? && StrictBlock(a).value.end < m
    ensures StrictBlock(b) == StrictBlock(a)
  {
    var i := SkipBlank(a, 0);
    if HasFrontmatter(a) {
      StrictEndsLater(a, i + 1, map[]);
      SkipBlankPrefix(a, b, 0, m);
      assert a[i] == a[..m][i] && b[i] == b[..m][i];
      StrictPrefix(a, b, i + 1, m, map[]);
    } else {
      var start := InlineStart(a);
      InlineEndsLater(a, start, map[], false);
      SkipBlankPrefix(a, b, 0, m);
      assert a[i] == a[..m][i] && b[i] == b[..m][i];
      if IsTitle(a[i]) { SkipBlankPrefix(a, b, i + 1, m); }
      InlinePrefix(a, b, start, m, map[], false);
    }
  }

  predicate EndsLine(text: string) {
    text != [] && IsBoundary(text[|text| - 1])
  }

  // The line that ended the header block is complete: another line follows it or it is terminated.
  predicate BlockClosed(text: string) {
    var lines := SplitLines(text, false);
    && StrictBlock(lines).Ok?
    && (StrictBlock(lines).value.end + 1 < |lines| || (StrictBlock(lines).value.end < |lines| && EndsLine(text)))
  }

  lemma {:induction false} ContentLengthAppend(text: string, more: string)
    requires ContentLength(text) < |text|
    ensures ContentLength(text + more) == ContentLength(text)
  {
    assert (text + more)[0] == text[0];
    if !IsBoundary(text[0]) {
      assert (text + more)[1..] == text[1..] + more;
      ContentLengthAppend(text[1..], more);
    }
  }

  lemma {:induction false} ContentLengthNoBoundary(text: string)
    requires ContentLength(text) == |text| && text != []
    ensures !EndsLine(text)
  {
    if |text| > 1 { ContentLengthNoBoundary(text[1..]); }
  }

  // The lines of b begin with those of a, except perhaps the last one, which b may continue.
  ghost predicate Continues(a: seq<string>, b: seq<string>, complete: bool) {
    && (a != [] ==> |a| - 1 <= |b| && a[..|a| - 1] == b[..|a| - 1])
    && (complete ==> |a| <= |b| && a == b[..|a|])
  }

  // Appending to a text keeps every complete line.
  lemma {:induction false} SplitAppend(text: string, more: string)
    ensures Continues(SplitLines(text, false), SplitLines(text + more, false), EndsLine(text))
    decreases |text|
  {
    if text != [] {
      var n := ContentLength(text);
      if n == |text| {
        ContentLengthNoBoundary(text);
        assert text[n..] == [];
        assert SplitLines(text, false) == [text[..n]] + SplitLines([], false);
      } else {
        var tail, tail' := FirstLine(text, more);
        if tail == [] {
          assert SplitLines(tail, false) == [];
        } else {
          SplitAppend(tail, more);
        }
        ConsContinues(text[..n], SplitLines(tail, false), SplitLines(tail', false), EndsLine(tail));
      }
    }
  }

  lemma ConsContinues(line: string, a: seq<string>, b: seq<string>, complete: bool)
    requires Continues(a, b, complete)
    ensures Continues([line] + a, [line] + b, complete || a == [])
  {
    if a != [] {
      assert ([line] + a)[..|a|] == [line] + a[..|a| - 1];
      assert ([line] + b)[..|a|] == [line] + b[..|a| - 1];
    }
    if complete { assert ([line] + b)[..|a| + 1] == [line] + b[..|a|]; }
  }

  // SplitLines takes off one line and its terminator.
  lemma SplitUnfolds(text: string, n: nat, t: nat)
    requires text != [] && n == ContentLength(text) && t == TerminatorLength(text[n..])
    ensures n + t <= |text| && SplitLines(text, false) == [text[..n]] + SplitLines(text[n + t..], false)
  {
    hide ContentLength;
    hide TerminatorLength;
  }

  lemma TakeAndDrop(text: string, more: string, k: nat)
    requires k <= |text|
    ensures (text + more)[..k] == text[..k] && (text + more)[k..] == text[k..] + more
  {
  }

  lemma TerminatorAppend(text: string, more: string)
    requires TerminatorLength(text) < |text|
    ensures TerminatorLength(text + more) == TerminatorLength(text)
  {
  }

  lemma EndsLineSuffix(text: string, k: nat)
    requires k < |text|
    ensures EndsLine(text[k..]) == EndsLine(text)
  {
  }

  // The first line of a text is complete, so it is also the first line of any longer text. Only a
  // final CR may join with an appended LF; then nothing of the text is left after its first line.
  lemma FirstLine(text: string, more: string) returns (tail: string, tail': string)
    requires ContentLength(text) < |text|
    ensures |tail| < |text|
    ensures SplitLines(text, false) == [text[..ContentLength(text)]] + SplitLines(tail, false)
    ensures SplitLines(text + more, false) == [text[..ContentLength(text)]] + SplitLines(tail', false)
    ensures tail != [] ==> tail' == tail + more && EndsLine(tail) == EndsLine(text)
  {
    hide SplitLines;
    hide ContentLength;
    hide TerminatorLength;
    hide EndsLine;
    hide IsBoundary;
    var n := ContentLength(text);
    ContentLengthAppend(text, more);
    TakeAndDrop(text, more, n);
    var rest := text[n..];
    var t, t' := TerminatorLength(rest), TerminatorLength(rest + more);
    SplitUnfolds(text, n, t);
    SplitUnfolds(text + more, n, t');
    tail, tail' := text[n + t..], (text + more)[n + t'..];
    if tail != [] {
      TerminatorAppend(rest, more);
      TakeAndDrop(text, more, n + t);
      EndsLineSuffix(text, n + t);
    }
  }

  // Once the header block has ended, any text can be appended without changing what either parser finds.
  lemma AppendingKeepsHeaders(text: string, more: string)
    requires BlockClosed(text)
    ensures MetadataHeaders(text + more) == MetadataHeaders(text)
    ensures DocumentHeaders(text).Ok? ==> DocumentHeaders(text + more) == DocumentHeaders(text)
  {
    var a, b := SplitLines(text, false), SplitLines(text + more, false);
    var m := StrictBlock(a).value.end + 1;
    SplitAppend(text, more);
    assert a[..m] == b[..m] by {
      if m < |a| { assert a[..m] == a[..|a| - 1][..m] && b[..m] == b[..|a| - 1][..m]; }
    }
    StrictBlockPrefix(a, b, m);
    KeptLinesPad(text);
    KeptLinesPad(text + more);
    GrammarBlockPadded(a, SplitLines(text, true));
    GrammarBlockPadded(b, SplitLines(text + more, true));
    BlocksAgree(a);
    if GrammarBlock(a).Ok? { GrammarBlockPrefix(a, b, m); }
  }

  lemma {:induction false} GrammarPrefix(a: seq<string>, b: seq<string>, i: nat, m: nat, headers: Headers)
    requires i < m <= |a| && m <= |b| && a[..m] == b[..m]
    requires GrammarFrontmatter(a, i, headers).Ok? && GrammarFrontmatter(a, i, headers).value.end < m
    ensures GrammarFrontmatter(b, i, headers) == GrammarFrontmatter(a, i, headers)
    decreases |a| - i
  {
    hide ParseHeader;
    hide TrimEnd;
    hide Strip;
    assert a[i] == a[..m][i] && b[i] == b[..m][i];
    if IsFence(a[i]) {
    } else if GrammarSkips(a[i]) {
      GrammarEndsLater(a, i + 1, headers);
      GrammarPrefix(a, b, i + 1, m, headers);
    } else {
      var h := ParseHeader(TrimEnd(a[i])).value;
      GrammarEndsLater(a, i + 1, headers[h.key := h.value]);
      GrammarPrefix(a, b, i + 1, m, headers[h.key := h.value]);
    }
  }

  lemma {:induction false} GrammarEndsLater(lines: seq<string>, i: nat, headers: Headers)
    requires i <= |lines| && GrammarFrontmatter(lines, i, headers).Ok?
    ensures i <= GrammarFrontmatter(lines, i, headers).value.end < |lines|
    decreases |lines| - i
  {
    if IsFence(lines[i]) {
    } else if GrammarSkips(lines[i]) {
      GrammarEndsLater(lines, i + 1, headers);
    } else {
      var h := ParseHeader(TrimEnd(lines[i])).value;
      GrammarEndsLater(lines, i + 1, headers[h.key := h.value]);
    }
  }

  // Where the inline headers start is decided by the lines before the end of the block.
  lemma StartPrefix(a: seq<string>, b: seq<string>, m: nat)
    requires m <= |a| && m <= |b| && a[..m] == b[..m] && SkipBlank(a, 0) < m
    ensures HasFrontmatter(b) == HasFrontmatter(a) && SkipBlank(b, 0) == SkipBlank(a, 0)
    ensures InlineStart(a) < m ==> InlineStart(b) == InlineStart(a)
  {
    hide IsFence;
    hide IsTitle;
    hide Blank;
    var i := SkipBlank(a, 0);
    SkipBlankPrefix(a, b, 0, m);
    assert a[i] == a[..m][i] && b[i] == b[..m][i];
    if IsTitle(a[i]) && InlineStart(a) < m { SkipBlankPrefix(a, b, i + 1, m); }
  }

  lemma SelfSimilar(lines: seq<string>)
    ensures Similar(Trimmed(lines), lines)
  {
    TrimmedSimilar(lines, lines);
  }

  // So does the canonical grammar.
  lemma GrammarBlockPrefix(a: seq<string>, b: seq<string>, m: nat)
    requires m <= |a| && m <= |b| && a[..m] == b[..m]
    requires GrammarBlock(a).Ok? && GrammarBlock(a).value.end < m
    ensures GrammarBlock(b) == GrammarBlock(a)
  {
    hide GrammarFrontmatter;
    hide InlineBlock;
    hide Similar;
    hide Trimmed;
    hide IsFence;
    hide IsTitle;
    hide SkipBlank;
    var start := InlineStart(a);
    if HasFrontmatter(a) {
      GrammarEndsLater(a, SkipBlank(a, 0) + 1, map[]);
      StartPrefix(a, b, m);
      GrammarPrefix(a, b, SkipBlank(a, 0) + 1, m, map[]);
    } else {
      SelfSimilar(a);
      SelfSimilar(b);
      InlineSimilar(Trimmed(a), a, start, map[], false);
      InlineEndsLater(a, start, map[], false);
      StartPrefix(a, b, m);
      InlinePrefix(a, b, start, m, map[], false);
      InlineSimilar(Trimmed(b), b, start, map[], false);
    }
  }

  // ---- The parsers as loops ----

  method SkipBlankLines(lines: seq<string>, from: nat) returns (index: nat)
    requires from <= |lines|
    ensures index == SkipBlank(lines, from)
  {
    index := from;
    while index < |lines| && Blank(lines[index])
      invariant index <= |lines|
      invariant SkipBlank(lines, index) == SkipBlank(lines, from)
    {
      index := index + 1;
    }
  }

  method ScanStrictFrontmatter(lines: seq<string>, from: nat) returns (r: Result<Block, GrammarError>)
    requires from <= |lines|
    ensures r == StrictFrontmatter(lines, from, map[])
  {
    hide ParseHeader;
    hide Strip;
    var index := from;
    var headers: Headers := map[];
    while index < |lines|
      invariant index <= |lines|
      invariant StrictFrontmatter(lines, index, headers) == StrictFrontmatter(lines, from, map[])
    {
      var line := lines[index];
      if IsFence(line) {
        if headers == map[] { return Err(HeaderBlockMissing); }
        return Ok(Block(headers, index));
      }
      if !StrictSkips(line) {
        var h := ParseHeader(line);
        if h.None? { return Err(InvalidFrontmatterHeader); }
        if h.value.key in headers { return Err(DuplicateHeader(h.value.key)); }
        headers := headers[h.value.key := h.value.value];
      }
      index := index + 1;
    }
    return Err(FrontmatterUnterminated);
  }

  method ScanStrictInline(lines: seq<string>, from: nat) returns (r: Result<Block, GrammarError>)
    requires from <= |lines|
    ensures r == InlineBlock(lines, from, map[], false)
  {
    hide ParseHeader;
    hide Blank;
    var index := from;
    var headers: Headers := map[];
    var started := false;
    while index < |lines|
      invariant index <= |lines|
      invariant InlineBlock(lines, index, headers, started) == InlineBlock(lines, from, map[], false)
    {
      var line := lines[index];
      if Blank(line) {
        if started { break; }
        index := index + 1;
        continue;
      }
      var h := ParseHeader(line);
      if h.None? {
        if !started { return Err(HeaderBlockMissing); }
        break;
      }
      if h.value.key in headers { return Err(DuplicateHeader(h.value.key)); }
      headers := headers[h.value.key := h.value.value];
      started := true;
      index := index + 1;
    }
    if !started { return Err(HeaderBlockMissing); }
    return Ok(Block(headers, index));
  }

  method ParseMetadataHeaders(text: string) returns (r: Result<Headers, GrammarError>)
    ensures r == MetadataHeaders(text)
  {
    hide SplitLines;
    hide IsFence;
    hide IsTitle;
    hide StrictFrontmatter;
    hide InlineBlock;
    hide SkipBlank;
    var lines := SplitLines(text, false);
    var index := SkipBlankLines(lines, 0);
    var block: Result<Block, GrammarError>;
    if index < |lines| && IsFence(lines[index]) {
      block := ScanStrictFrontmatter(lines, index + 1);
    } else {
      if index < |lines| && IsTitle(lines[index]) {
        index := SkipBlankLines(lines, index + 1);
      }
      block := ScanStrictInline(lines, index);
    }
    if block.Err? { return Err(block.error); }
    return Ok(block.value.headers);
  }

  function Join(lines: seq<string>): string {
    if lines == [] then [] else lines[0] + Join(lines[1..])
  }

  lemma {:induction false} JoinKeptLines(text: string)
    ensures Join(SplitLines(text, true)) == text
    decreases |text|
  {
    if text != [] {
      var n := ContentLength(text) + TerminatorLength(text[ContentLength(text)..]);
      JoinKeptLines(text[n..]);
      assert text == text[..n] + text[n..];
    }
  }

  lemma {:induction false} JoinSuffix(lines: seq<string>, i: nat)
    requires i <= |lines|
    ensures |Join(lines[i..])| <= |Join(lines)| && Join(lines[i..]) == Join(lines)[|Join(lines)| - |Join(lines[i..])|..]
  {
    if i > 0 {
      JoinSuffix(lines[1..], i - 1);
      assert lines[1..][i - 1..] == lines[i..];
    }
  }

  method ScanFrontmatter(lines: seq<string>, from: nat) returns (r: Result<Block, GrammarError>)
    requires from <= |lines|
    ensures r == GrammarFrontmatter(lines, from, map[])
    ensures r.Ok? ==> r.value.end < |lines|
  {
    var index := from;
    var headers: Headers := map[];
    while index < |lines|
      invariant index <= |lines|
      invariant GrammarFrontmatter(lines, index, headers) == GrammarFrontmatter(lines, from, map[])
    {
      var line := lines[index];
      if IsFence(line) {
        if headers == map[] { return Err(HeaderBlockMissing); }
        return Ok(Block(headers, index));
      }
      if !GrammarSkips(line) {
        var h := ParseHeader(TrimEnd(line));
        if h.None? { return Err(InvalidFrontmatterHeader); }
        if h.value.key in headers { return Err(DuplicateHeader(h.value.key)); }
        headers := headers[h.value.key := h.value.value];
      }
      index := index + 1;
    }
    return Err(FrontmatterUnterminated);
  }

  method ScanInline(lines: seq<string>, from: nat) returns (r: Result<Block, GrammarError>)
    requires from <= |lines|
    ensures r == InlineBlock(Trimmed(lines), from, map[], false)
    ensures r.Ok? ==> r.value.end <= |lines|
  {
    ghost var trimmed := Trimmed(lines);
    var index := from;
    var headers: Headers := map[];
    var started := false;
    while index < |lines|
      invariant index <= |lines|
      invariant InlineBlock(trimmed, index, headers, started) == InlineBlock(trimmed, from, map[], false)
    {
      var line := lines[index];
      TrimmedBlank(line);
      assert trimmed[index] == TrimEnd(line);
      if Blank(line) {
        if started { break; }
        index := index + 1;
        continue;
      }
      var h := ParseHeader(TrimEnd(line));
      if h.None? {
        if !started { return Err(HeaderBlockMissing); }
        break;
      }
      if h.value.key in headers { return Err(DuplicateHeader(h.value.key)); }
      headers := headers[h.value.key := h.value.value];
      started := true;
      index := index + 1;
    }
    if !started { return Err(HeaderBlockMissing); }
    return Ok(Block(headers, index));
  }

  lemma BodyIsSuffix(text: string, index: nat)
    requires index <= |SplitLines(text, true)|
    ensures var body := Join(SplitLines(text, true)[index..]);
            |body| <= |text| && body == text[|text| - |body|..]
  {
    JoinKeptLines(text);
    JoinSuffix(SplitLines(text, true), index);
  }

  // The document as headers and body. The body is what is left of the text itself, untouched.
  method SplitDocument(text: string) returns (r: Result<(Headers, string), GrammarError>)
    ensures r.Ok? ==> DocumentHeaders(text) == Ok(r.value.0)
    ensures r.Ok? ==> |r.value.1| <= |text| && r.value.1 == text[|text| - |r.value.1|..]
    ensures r.Err? ==> DocumentHeaders(text) == Err(r.error)
  {
    hide SplitLines;
    hide IsFence;
    hide IsTitle;
    hide Join;
    hide GrammarFrontmatter;
    hide InlineBlock;
    var lines := SplitLines(text, true);
    var index := SkipBlankLines(lines, 0);
    if index < |lines| && IsFence(lines[index]) {
      var block := ScanFrontmatter(lines, index + 1);
      if block.Err? { return Err(block.error); }
      index := SkipBlankLines(lines, block.value.end + 1);
      BodyIsSuffix(text, index);
      return Ok((block.value.headers, Join(lines[index..])));
    }
    if index < |lines| && IsTitle(lines[index]) {
      index := SkipBlankLines(lines, index + 1);
    }
    var block := ScanInline(lines, index);
    if block.Err? { return Err(block.error); }
    index := block.value.end;
    if index < |lines| && Blank(lines[index]) { index := index + 1; }
    BodyIsSuffix(text, index);
    return Ok((block.value.headers, Join(lines[index..])));
  }

  lemma TrimmedBlank(line: string)
    ensures Blank(TrimEnd(line)) == Blank(line)
  {
    var w := TrimEndPads(line);
    StripPadded(TrimEnd(line), w);
  }
}
