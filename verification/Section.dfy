/** section.go: the one structural markdown parser every stacked document shares, and the
    blockquote idiom that keeps free text out of its way. */
module Section {
  import opened Options
  import Prose
  import opened Text

  // -- folding names -------------------------------------------------------------------------------

  function Lower(c: char): char {
    if 'A' <= c <= 'Z' then c - 'A' + 'a' else c
  }

  function ToLower(s: string): (r: string)
    ensures |r| == |s| && forall i | 0 <= i < |s| :: r[i] == Lower(s[i])
  {
    seq(|s|, i requires 0 <= i < |s| => Lower(s[i]))
  }

  /** The blanks a regular expression's \s stands for. */
  predicate ReSpace(c: char) { c == ' ' || c == '\t' || c == '\n' || c == '\U{000C}' || c == '\r' }

  predicate Folds(c: char) { ReSpace(c) || c == '_' || c == '-' }

  function DropFolding(s: string): (r: string)
    ensures |r| <= |s|
  {
    if s != "" && Folds(s[0]) then DropFolding(s[1..]) else s
  }

  /** Every run of blanks, hyphens and underscores becomes one space. */
  function Fold(s: string): string
    decreases |s|
  {
    if s == "" then ""
    else if Folds(s[0]) then " " + Fold(DropFolding(s[1..]))
    else [s[0]] + Fold(s[1..])
  }

  function Normalize(text: string): string { Fold(ToLower(Trim(text))) }

  lemma {:induction false} FoldKeepsPrefix(p: string, rest: string)
    requires forall i | 0 <= i < |p| :: !Folds(p[i])
    ensures Fold(p + rest) == p + Fold(rest)
  {
    if p == "" {
      assert p + rest == rest;
    } else {
      assert (p + rest)[1..] == p[1..] + rest;
      FoldKeepsPrefix(p[1..], rest);
      assert [p[0]] + (p[1..] + Fold(rest)) == p + Fold(rest);
    }
  }

  lemma {:induction false} NormalizeKeepsFirst(s: string)
    requires s != "" && !IsSpace(s[0]) && !Folds(s[0])
    ensures Normalize(s) != "" && Normalize(s)[0] == Lower(s[0])
  {
    TrimRightKeepsFront(s[..1], s[1..]);
    assert s == s[..1] + s[1..];
    var t := ToLower(Trim(s));
    assert t[0] == Lower(s[0]);
  }

  // -- headings, bullets, numbered items -----------------------------------------------------------

  function HashSpan(s: string): (n: nat)
    ensures n <= |s|
  {
    if s != "" && s[0] == '#' then 1 + HashSpan(s[1..]) else 0
  }

  function SkipReSpace(s: string): (r: string)
    ensures |r| <= |s|
  {
    if s != "" && ReSpace(s[0]) then SkipReSpace(s[1..]) else s
  }

  function DropReSpaceRight(s: string): string {
    if s != "" && ReSpace(s[|s| - 1]) then DropReSpaceRight(s[..|s| - 1]) else s
  }

  function DropHashRight(s: string): string {
    if s != "" && s[|s| - 1] == '#' then DropHashRight(s[..|s| - 1]) else s
  }

  /** A heading's level and name: one to six hashes, a blank, the name, and an optional closing
      run of hashes that is not part of it. */
  function Heading(line: string): Option<(nat, string)> {
    var level := HashSpan(line);
    if 1 <= level <= 6 && level < |line| && ReSpace(line[level]) then
      Some((level, Trim(DropReSpaceRight(DropHashRight(DropReSpaceRight(SkipReSpace(line[level..])))))))
    else None
  }

  /** What a bullet line carries after its marker. */
  function Bullet(line: string): Option<string> {
    var s := SkipReSpace(line);
    if |s| > 1 && s[0] in "-*+" && ReSpace(s[1]) then Some(SkipReSpace(s[1..])) else None
  }

  function DigitSpan(s: string): (n: nat)
    ensures n <= |s| && AllDigits(s[..n]) && (n < |s| ==> !IsDigit(s[n]))
  {
    if s != "" && IsDigit(s[0]) then 1 + DigitSpan(s[1..]) else 0
  }

  function Numbered(line: string): Option<string> {
    var s := SkipReSpace(line);
    var n := DigitSpan(s);
    if n > 0 && n + 1 < |s| && s[n] in ".)" && ReSpace(s[n + 1]) then Some(SkipReSpace(s[n + 1..])) else None
  }

  // -- documents -----------------------------------------------------------------------------------

  datatype SectionOf = SectionOf(name: string, lines: seq<string>)

  /** A parsed file; `preamble` holds the trimmed lines before the first section, still to be joined. */
  datatype Document = Document(title: string, preamble: seq<string>, sections: seq<SectionOf>)

  function AddLine(sections: seq<SectionOf>, line: string): seq<SectionOf>
    requires sections != []
  {
    Front(sections) + [Last(sections).(lines := Last(sections).lines + [line])]
  }

  function DocumentStep(doc: Document, line: string): Document {
    match Heading(line)
    case Some((level, name)) =>
      if level == 1 && doc.title == "" && doc.sections == [] then doc.(title := name)
      else doc.(sections := doc.sections + [SectionOf(name, [])])
    case None =>
      if doc.sections == [] then doc.(preamble := doc.preamble + [Trim(line)])
      else doc.(sections := AddLine(doc.sections, line))
  }

  function ReadLines(doc: Document, lines: seq<string>): Document
    decreases |lines|
  {
    if lines == [] then doc else ReadLines(DocumentStep(doc, lines[0]), lines[1..])
  }

  const EMPTY_DOCUMENT := Document("", [], [])

  const BYTE_ORDER_MARK := '\U{FEFF}'

  /** strings.ReplaceAll(text, "\r\n", "\n"). */
  function UnixLines(text: string): string
    decreases |text|
  {
    if text == "" then ""
    else if |text| > 1 && text[0] == '\r' && text[1] == '\n' then "\n" + UnixLines(text[2..])
    else [text[0]] + UnixLines(text[1..])
  }

  function WithoutMark(text: string): string {
    if text != "" && text[0] == BYTE_ORDER_MARK then text[1..] else text
  }

  function Parsed(text: string): Document {
    ReadLines(EMPTY_DOCUMENT, Lines(UnixLines(WithoutMark(text))))
  }

  method ParseDocument(text: string) returns (doc: Document, preambleText: string)
    ensures doc == Parsed(text) && preambleText == Prose.Joined(doc.preamble)
  {
    var title, preamble, sections := "", [], [];
    var lines := Lines(UnixLines(WithoutMark(text)));
    var i := 0;
    while i < |lines|
      invariant 0 <= i <= |lines|
      invariant ReadLines(EMPTY_DOCUMENT, lines) == ReadLines(Document(title, preamble, sections), lines[i..])
    {
      var raw := lines[i];
      assert lines[i..][0] == raw && lines[i..][1..] == lines[i + 1..];
      match Heading(raw) {
        case Some((level, name)) =>
          if level == 1 && title == "" && sections == [] {
            title := name;
          } else {
            sections := sections + [SectionOf(name, [])];
          }
        case None =>
          if sections == [] {
            preamble := preamble + [Trim(raw)];
          } else {
            sections := AddLine(sections, raw);
          }
      }
      i := i + 1;
    }
    doc := Document(title, preamble, sections);
    preambleText := Prose.Paragraphs(preamble);
  }

  // -- a section's body ----------------------------------------------------------------------------

  datatype OpenItem = Closed | InBullets | InNumbered

  datatype Body = Body(fields: map<string, string>, bullets: seq<string>, numbered: seq<string>, prose: seq<string>)

  datatype BodyState = BodyState(body: Body, open: OpenItem)

  predicate StartsIndented(line: string) { line != "" && (line[0] == ' ' || line[0] == '\t') }

  function ContinueLast(items: seq<string>, line: string): seq<string> {
    if items == [] then items else Front(items) + [Last(items) + " " + Trim(line)]
  }

  /** The key of a `Key: value` line, normalized, and its trimmed value. */
  function FieldOf(line: string): Option<(string, string)> {
    match Cut(line, ":")
    case None => None
    case Some((key, value)) => Some((Normalize(key), Trim(value)))
  }

  predicate IsField(line: string, keys: set<string>) {
    FieldOf(line).Some? && FieldOf(line).value.0 in keys
  }

  function BodyStep(st: BodyState, line: string, keys: set<string>): BodyState {
    var b := st.body;
    if Trim(line) == "" then BodyState(b.(prose := b.prose + [""]), Closed)
    else if Bullet(line).Some? then
      BodyState(b.(bullets := b.bullets + [Trim(Bullet(line).value)]), InBullets)
    else if Numbered(line).Some? then
      BodyState(b.(numbered := b.numbered + [Trim(Numbered(line).value)]), InNumbered)
    else if st.open != Closed && StartsIndented(line) then
      BodyState(if st.open == InBullets then b.(bullets := ContinueLast(b.bullets, line))
                else b.(numbered := ContinueLast(b.numbered, line)), st.open)
    else if IsField(line, keys) then
      var (key, value) := FieldOf(line).value;
      BodyState(b.(fields := b.fields[key := value]), Closed)
    else BodyState(b.(prose := b.prose + [Trim(line)]), Closed)
  }

  function ReadBody(st: BodyState, lines: seq<string>, keys: set<string>): BodyState
    decreases |lines|
  {
    if lines == [] then st else ReadBody(BodyStep(st, lines[0], keys), lines[1..], keys)
  }

  const EMPTY_BODY := BodyState(Body(map[], [], [], []), Closed)

  /** A section's lines, structured; `keys` are the normalized names of its known fields. */
  function BodyOf(lines: seq<string>, keys: set<string>): Body { ReadBody(EMPTY_BODY, lines, keys).body }

  method StructuredBody(lines: seq<string>, keys: set<string>) returns (body: Body, proseText: string)
    ensures body == BodyOf(lines, keys) && proseText == Prose.Joined(body.prose)
  {
    body := Body(map[], [], [], []);
    var open := Closed;
    var i := 0;
    while i < |lines|
      invariant 0 <= i <= |lines|
      invariant ReadBody(EMPTY_BODY, lines, keys) == ReadBody(BodyState(body, open), lines[i..], keys)
    {
      var line := lines[i];
      assert lines[i..][0] == line && lines[i..][1..] == lines[i + 1..];
      i := i + 1;
      if Trim(line) == "" {
        body := body.(prose := body.prose + [""]);
        open := Closed;
        continue;
      }
      if Bullet(line).Some? {
        body := body.(bullets := body.bullets + [Trim(Bullet(line).value)]);
        open := InBullets;
        continue;
      }
      if Numbered(line).Some? {
        body := body.(numbered := body.numbered + [Trim(Numbered(line).value)]);
        open := InNumbered;
        continue;
      }
      if open != Closed && StartsIndented(line) {
        body := if open == InBullets then body.(bullets := ContinueLast(body.bullets, line))
                else body.(numbered := ContinueLast(body.numbered, line));
        continue;
      }
      open := Closed;
      if IsField(line, keys) {
        var field := FieldOf(line).value;
        body := body.(fields := body.fields[field.0 := field.1]);
        continue;
      }
      body := body.(prose := body.prose + [Trim(line)]);
    }
    proseText := Prose.Paragraphs(body.prose);
  }

  /** Body.Field for one name. */
  function Field(body: Body, key: string): string {
    if key in body.fields then body.fields[key] else ""
  }

  // -- quoting -------------------------------------------------------------------------------------

  function QuoteLine(line: string): string { if line == "" then ">" else "> " + line }

  function QuoteLines(lines: seq<string>): (r: seq<string>)
    ensures |r| == |lines| && forall i | 0 <= i < |r| :: r[i] == QuoteLine(lines[i])
  {
    seq(|lines|, i requires 0 <= i < |lines| => QuoteLine(lines[i]))
  }

  function Quoted(text: string): string { Join(QuoteLines(Lines(text))) }

  method Quote(text: string) returns (quoted: string)
    ensures quoted == Quoted(text)
  {
    var lines, out := Lines(text), [];
    var i := 0;
    while i < |lines|
      invariant 0 <= i <= |lines|
      invariant |out| == i && forall j | 0 <= j < i :: out[j] == QuoteLine(lines[j])
    {
      if lines[i] == "" {
        out := out + [">"];
      } else {
        out := out + ["> " + lines[i]];
      }
      i := i + 1;
    }
    assert out == QuoteLines(lines);
    quoted := Join(out);
  }

  /** What a line of a blockquote holds; any other line holds nothing. */
  function UnquoteLine(line: string): Option<string> {
    var stripped := Trim(line);
    if "> " <= stripped then Some(stripped[2..]) else if stripped == ">" then Some("") else None
  }

  function Held(line: string): seq<string> {
    match UnquoteLine(line) case Some(l) => [l] case None => []
  }

  function UnquoteLines(lines: seq<string>): seq<string> {
    if lines == [] then [] else UnquoteLines(Front(lines)) + Held(Last(lines))
  }

  function Unquoted(lines: seq<string>): string { Join(UnquoteLines(lines)) }

  method Unquote(lines: seq<string>) returns (text: string)
    ensures text == Unquoted(lines)
  {
    var recovered := [];
    var i := 0;
    while i < |lines|
      invariant 0 <= i <= |lines|
      invariant recovered == UnquoteLines(lines[..i])
    {
      assert Front(lines[..i + 1]) == lines[..i];
      var stripped := Trim(lines[i]);
      if "> " <= stripped {
        recovered := recovered + [stripped[2..]];
      } else if stripped == ">" {
        recovered := recovered + [""];
      }
      i := i + 1;
    }
    assert lines[..i] == lines;
    text := Join(recovered);
  }

  // -- labelled blocks -----------------------------------------------------------------------------

  predicate LabelChar(c: char) { IsAlpha(c) || IsDigit(c) || c == ' ' || c == '_' || c == '-' }

  /** A short label ending in a bare colon. */
  predicate IsLabel(stripped: string) {
    && stripped != "" && Last(stripped) == ':' && |stripped| <= 40
    && var head := Front(stripped);
       head != "" && IsAlpha(head[0]) && forall i | 0 <= i < |head| :: LabelChar(head[i])
  }

  datatype BlockState = BlockState(blocks: map<string, string>, name: string, pending: seq<string>)

  function Commit(st: BlockState): BlockState {
    BlockState(if st.name != "" && st.pending != [] then st.blocks[Normalize(st.name) := Unquoted(st.pending)]
               else st.blocks, "", [])
  }

  function BlockStep(st: BlockState, line: string): BlockState {
    var stripped := Trim(line);
    if ">" <= stripped then (if st.name != "" then st.(pending := st.pending + [line]) else st)
    else if IsLabel(stripped) then Commit(st).(name := Front(stripped))
    else if stripped != "" then Commit(st)
    else if st.name != "" && st.pending != [] then Commit(st)
    else st
  }

  function ReadBlocks(st: BlockState, lines: seq<string>): BlockState
    decreases |lines|
  {
    if lines == [] then st else ReadBlocks(BlockStep(st, lines[0]), lines[1..])
  }

  const EMPTY_BLOCKS := BlockState(map[], "", [])

  function BlocksOf(lines: seq<string>): map<string, string> {
    Commit(ReadBlocks(EMPTY_BLOCKS, lines + [""])).blocks
  }

  method LabelledBlocks(lines: seq<string>) returns (blocks: map<string, string>)
    ensures blocks == BlocksOf(lines)
  {
    var st := EMPTY_BLOCKS;
    var all := lines + [""];
    var i := 0;
    while i < |all|
      invariant 0 <= i <= |all|
      invariant ReadBlocks(EMPTY_BLOCKS, all) == ReadBlocks(st, all[i..])
    {
      assert all[i..][0] == all[i] && all[i..][1..] == all[i + 1..];
      var stripped := Trim(all[i]);
      if ">" <= stripped {
        if st.name != "" {
          st := st.(pending := st.pending + [all[i]]);
        }
      } else if IsLabel(stripped) {
        st := Commit(st).(name := Front(stripped));
      } else if stripped != "" || (st.name != "" && st.pending != []) {
        st := Commit(st);
      }
      i := i + 1;
    }
    st := Commit(st);
    blocks := st.blocks;
  }
}
