/** The rendered document chapter by chapter: its sections are its chapters. */
module SessionChapters {
  import opened Options
  import opened Quoting
  import opened Section
  import opened SectionFacts
  import opened SessionFacts
  import opened SessionLines
  import opened SessionSections
  import opened SessionStore
  import opened Text

  // -- chapters as lines ---------------------------------------------------------------------------

  function BodyLines(c: Chapter): seq<string> { FlatLines(c.body) }

  /** A heading on one line, above lines that are none, the last of them blank. */
  ghost predicate GoodChapter(c: Chapter) {
    && (c.hashes == "##" || c.hashes == "###")
    && c.title != "" && !ReSpace(c.title[0]) && OneLine(c.title)
    && c.body != [] && Last(c.body) == ""
    && Headless(Seen(BodyLines(c)))
  }

  function SectionAs(c: Chapter): SectionOf { SectionOf(TitleKept(c.title), Seen(BodyLines(c))) }

  function SectionsAs(chapters: seq<Chapter>): (r: seq<SectionOf>)
    ensures |r| == |chapters| && forall i | 0 <= i < |r| :: r[i] == SectionAs(chapters[i])
  {
    seq(|chapters|, i requires 0 <= i < |chapters| => SectionAs(chapters[i]))
  }

  lemma ChapterLines(c: Chapter)
    requires GoodChapter(c)
    ensures FlatLines(ChapterPieces(c)) == [c.hashes + " " + c.title] + BodyLines(c)
  {
    hide Lines, Headless;
    OneLineIsItsLine(c.hashes + " " + c.title);
    assert ChapterPieces(c)[1..] == c.body;
  }

  /** Reading the lines of well-formed chapters makes them the sections, in order. */
  lemma {:induction false} ChaptersRead(doc: Document, chapters: seq<Chapter>)
    requires forall c | c in chapters :: GoodChapter(c)
    ensures ReadLines(doc, Seen(FlatLines(PiecesOf(chapters))))
         == doc.(sections := doc.sections + SectionsAs(chapters))
  {
    hide ReadLines, FlatLines, ChapterPieces, GoodChapter, BodyLines, Seen, SectionAs;
    if chapters == [] {
      NoLinesRead(doc);
      assert doc.sections + SectionsAs([]) == doc.sections;
    } else {
      var c := Last(chapters);
      var lines, more := FlatLines(PiecesOf(Front(chapters))), FlatLines(ChapterPieces(c));
      assert c in chapters && forall d | d in Front(chapters) :: d in chapters;
      ChaptersRead(doc, Front(chapters));
      FlatLinesAppend(PiecesOf(Front(chapters)), ChapterPieces(c));
      SeenAppend(lines, more);
      ReadLinesAppend(doc, Seen(lines), Seen(more));
      ChapterRead(doc.(sections := doc.sections + SectionsAs(Front(chapters))), c);
      assert SectionsAs(chapters) == SectionsAs(Front(chapters)) + [SectionAs(c)];
    }
  }

  lemma NoLinesRead(doc: Document)
    ensures FlatLines(PiecesOf([])) == [] && Seen([]) == [] && ReadLines(doc, []) == doc
  {
  }

  lemma ChapterRead(doc: Document, c: Chapter)
    requires GoodChapter(c)
    ensures ReadLines(doc, Seen(FlatLines(ChapterPieces(c)))) == doc.(sections := doc.sections + [SectionAs(c)])
  {
    hide ReadLines, FlatLines, ChapterPieces, Heading, DropReturn, Seen, Headless, TitleKept, BodyLines;
    ChapterLines(c);
    var line := c.hashes + " " + c.title;
    SeenAppend([line], BodyLines(c));
    SeenOne(line);
    SeenHeading(c.hashes, c.title);
    HeadingRead(doc, DropReturn(line), Seen(BodyLines(c)));
  }

  lemma SeenOne(line: string)
    ensures Seen([line]) == [DropReturn(line)]
  {
  }

  /** A body that ends in a blank piece ends in a blank line. */
  lemma BodyEnds(body: seq<string>)
    requires body != [] && Last(body) == ""
    ensures FlatLines(body) != [] && Last(FlatLines(body)) == ""
  {
    hide FlatLines;
    assert body == Front(body) + [""];
    FlatLinesAppend(Front(body), [""]);
    FlatOfOne("");
    OneLineIsItsLine("");
  }

  lemma ChaptersEnd(chapters: seq<Chapter>)
    requires chapters != [] && GoodChapter(Last(chapters))
    ensures FlatLines(PiecesOf(chapters)) != [] && Last(FlatLines(PiecesOf(chapters))) == ""
  {
    hide FlatLines, Headless;
    var pieces := PiecesOf(chapters);
    assert Last(pieces) == Last(Last(chapters).body) == "";
    BodyEnds(pieces);
  }

  /** When the last line is blank, every line loses its carriage return. */
  lemma {:induction false} UnixEndsSeen(lines: seq<string>)
    requires lines != [] && Last(lines) == ""
    ensures UnixEnds(lines) == Seen(lines)
  {
    if |lines| > 1 {
      UnixEndsSeen(lines[1..]);
      assert lines == [lines[0]] + lines[1..];
      SeenAppend([lines[0]], lines[1..]);
    } else {
      assert lines == [""];
    }
  }

  // -- the document --------------------------------------------------------------------------------

  /** The sections of a rendered document are its chapters, for any one-line runtime name. */
  lemma DocumentRead(codec: Codec, name: string, now: int, chapters: seq<Chapter>)
    requires CleanCodec(codec) && OneLine(name) && forall c | c in chapters :: GoodChapter(c)
    ensures Parsed(Join(HeadPieces(codec, name, now) + PiecesOf(chapters))).sections == SectionsAs(chapters)
  {
    hide ReadLines, Join, Lines, FlatLines, PiecesOf, GoodChapter, DropReturn, SectionsAs, UnixEnds, UnixLines, Seen,
      CleanCodec, DocumentStep;
    var title, rest := "# Session -- " + name, ["", "Saved at: " + codec.showTime(now), ""];
    var head, body := HeadPieces(codec, name, now), FlatLines(PiecesOf(chapters));
    var text := Join(head + PiecesOf(chapters));
    assert head == [title] + rest;
    HeadFirst(codec, name, now, PiecesOf(chapters));
    LinesOfUnixLines(text);
    DocumentLines(codec, name, now, chapters);
    SeenAppend(head, body);
    SeenAppend([title], rest);
    SeenOne(title);
    HeadPlain(codec, now);
    SeenAsIs(rest);
    assert [DropReturn(title)] + rest + Seen(body) == [DropReturn(title)] + (rest + Seen(body));
    TitleRead(name, rest + Seen(body));
    var titled := DocumentStep(EMPTY_DOCUMENT, DropReturn(title));
    ReadLinesAppend(titled, rest, Seen(body));
    PreambleRead(titled, rest);
    ChaptersRead(ReadLines(titled, rest), chapters);
    assert [] + SectionsAs(chapters) == SectionsAs(chapters);
  }

  lemma HeadFirst(codec: Codec, name: string, now: int, pieces: seq<string>)
    ensures WithoutMark(Join(HeadPieces(codec, name, now) + pieces)) == Join(HeadPieces(codec, name, now) + pieces)
  {
    hide Join;
    var head := HeadPieces(codec, name, now);
    assert head + pieces == ["# Session -- " + name] + (head[1..] + pieces);
    TitleFirst(name, head[1..] + pieces);
  }

  /** The document's lines, as they are seen without carriage returns. */
  lemma DocumentLines(codec: Codec, name: string, now: int, chapters: seq<Chapter>)
    requires CleanCodec(codec) && OneLine(name) && forall c | c in chapters :: GoodChapter(c)
    ensures var head, pieces := HeadPieces(codec, name, now), PiecesOf(chapters);
            UnixEnds(Lines(Join(head + pieces))) == Seen(head + FlatLines(pieces))
  {
    hide Join, Lines, FlatLines, GoodChapter, UnixEnds, Seen, CleanCodec, ChapterPieces;
    var head, pieces := HeadPieces(codec, name, now), PiecesOf(chapters);
    LinesOfJoin(head + pieces);
    FlatLinesAppend(head, pieces);
    HeadLines(codec, name, now);
    if chapters == [] {
      NoLinesRead(EMPTY_DOCUMENT);
    } else {
      assert Last(chapters) in chapters;
      ChaptersEnd(chapters);
    }
    assert Last(head + FlatLines(pieces)) == "";
    UnixEndsSeen(head + FlatLines(pieces));
  }

  lemma TitleFirst(name: string, more: seq<string>)
    ensures Join(["# Session -- " + name] + more) != "" && Join(["# Session -- " + name] + more)[0] == '#'
  {
    hide Join;
    JoinOfMore("# Session -- " + name, more);
    if more == [] {
      assert ["# Session -- " + name] + more == ["# Session -- " + name];
    }
  }

  lemma HeadLines(codec: Codec, name: string, now: int)
    requires CleanCodec(codec) && OneLine(name)
    ensures FlatLines(HeadPieces(codec, name, now)) == HeadPieces(codec, name, now)
  {
    hide FlatLines;
    assert OneLine(codec.showTime(now));
    FlatLinesOfOneLiners(HeadPieces(codec, name, now));
  }

  lemma HeadPlain(codec: Codec, now: int)
    requires CleanCodec(codec)
    ensures forall l | l in ["", "Saved at: " + codec.showTime(now), ""] :: Heading(l) == None && DropReturn(l) == l
  {
    hide Bullet, Numbered, Trim, UnquoteLine;
    var line := "Saved at: " + codec.showTime(now);
    LetterLine(line);
    assert Clean(codec.showTime(now)) && Last(line) == Last(codec.showTime(now));
    BlankPlain();
  }

  lemma BlankPlain()
    ensures Heading("") == None && DropReturn("") == ""
  {
  }

  /** The title line is read as the title, even when it loses a carriage return. */
  lemma TitleRead(name: string, rest: seq<string>)
    ensures var line := DropReturn("# Session -- " + name);
            ReadLines(EMPTY_DOCUMENT, [line] + rest) == ReadLines(DocumentStep(EMPTY_DOCUMENT, line), rest)
            && DocumentStep(EMPTY_DOCUMENT, line).sections == []
  {
    hide Trim, DropHashRight, DropReSpaceRight, SkipReSpace;
    var line := DropReturn("# Session -- " + name);
    assert line[0] == '#' && line[1] == ' ';
    assert line[1..][0] == ' ';
    assert HashSpan(line) == 1;
    assert Heading(line).Some? && Heading(line).value.0 == 1;
    assert ([line] + rest)[1..] == rest;
  }

  // -- the bodies of the chapters ------------------------------------------------------------------

  /** One blockquote between plain lines, line by line. */
  lemma QuotedBody(before: seq<string>, text: string, after: seq<string>)
    requires forall p | p in before + after :: OneLine(p)
    ensures Seen(FlatLines(before + [Quoted(text)] + after)) == Seen(before) + QuotedLinesOf(text) + Seen(after)
  {
    hide FlatLines, Quoted, QuoteLines, Lines, Seen;
    FlatLinesAppend(before + [Quoted(text)], after);
    FlatLinesAppend(before, [Quoted(text)]);
    assert forall p | p in before :: p in before + after;
    assert forall p | p in after :: p in before + after;
    FlatLinesOfOneLiners(before);
    FlatLinesOfOneLiners(after);
    FlatOfOne(Quoted(text));
    LinesOfQuoted(text);
    SeenAppend(before + QuoteLines(Lines(text)), after);
    SeenAppend(before, QuoteLines(Lines(text)));
  }

  lemma FlatOfOne(piece: string)
    ensures FlatLines([piece]) == Lines(piece)
  {
    hide Lines;
    assert [piece][1..] == [];
    assert FlatLines([]) == [];
    assert Lines(piece) + [] == Lines(piece);
  }

  lemma QuotesPlain(text: string)
    ensures Headless(QuotedLinesOf(text))
  {
    hide Heading, Bullet, Numbered, IsLabel, Trim, IsField, Lines, Seen;
    SeenQuotes(Lines(text));
    forall q | q in QuotedLinesOf(text)
      ensures Heading(q) == None
    {
      MarkedIsNeverStructure(q, {});
    }
  }

  lemma FieldPlain(name: string, value: string)
    requires name != "" && IsAlpha(name[0]) && Clean(value)
    ensures Heading(name + ": " + value) == None && DropReturn(name + ": " + value) == name + ": " + value
  {
    hide Bullet, Numbered, Trim, UnquoteLine, Heading, OneLine;
    LetterLine(name + ": " + value);
    SeenClean(name, value);
  }

  /** What unquoting a whole section gives: the text of its one blockquote, shaved. */
  lemma SectionText(before: seq<string>, text: string, after: seq<string>)
    requires forall l | l in before + after :: UnquoteLine(l) == None
    ensures Unquoted(before + QuotedLinesOf(text) + after) == Shaved(text)
  {
    hide UnquoteLine, UnquoteLines, QuotedLinesOf, Shaved;
    var quotes := QuotedLinesOf(text);
    UnquoteLinesAppend(before + quotes, after);
    UnquoteLinesAppend(before, quotes);
    assert forall l | l in before :: l in before + after;
    assert forall l | l in after :: l in before + after;
    NothingHeld(before);
    NothingHeld(after);
    UnquotedIs(text);
    var held := UnquoteLines(quotes);
    assert [] + held + [] == held;
  }

  /** A section's fields are those of the lines before its blockquote. */
  lemma SectionFields(before: seq<string>, text: string, keys: set<string>)
    requires forall k | k in keys :: k == "" || k[0] != '>'
    ensures BodyOf(before + QuotedLinesOf(text) + [""], keys).fields == BodyOf(before, keys).fields
  {
    hide ReadBody, BodyStep, Seen;
    var quotes := QuotedLinesOf(text);
    ReadBodyAppend(EMPTY_BODY, before + quotes, [""], keys);
    ReadBodyAppend(EMPTY_BODY, before, quotes, keys);
    var st := ReadBody(EMPTY_BODY, before, keys);
    QuoteRead(st, text, keys);
    ReadBodyOne(ReadBody(st, quotes, keys), "", keys);
    BlankStep(ReadBody(st, quotes, keys), keys);
  }

  /** The field lines between two blank lines. */
  lemma OneFieldRead(name: string, value: string, keys: set<string>)
    requires name != "" && IsAlpha(name[0]) && ':' !in name && Clean(value) && Normalize(name) in keys
    ensures BodyOf(["", name + ": " + value, ""], keys).fields == map[Normalize(name) := value]
  {
    hide ReadBody, BodyStep, Normalize, Trim;
    TrimmedStays(value);
    var line := name + ": " + value;
    assert ["", line, ""] == [""] + ([line] + [""]);
    ReadBodyFirst(EMPTY_BODY, "", [line] + [""], keys);
    BlankStep(EMPTY_BODY, keys);
    var st := BodyStep(EMPTY_BODY, "", keys);
    FieldStep(st, name, value, keys);
    ReadBodyFirst(st, line, [""], keys);
    var next := BodyStep(st, line, keys);
    ReadBodyOne(next, "", keys);
    BlankStep(next, keys);
    assert map[][Normalize(name) := value] == map[Normalize(name) := value];
  }

  lemma TwoFieldsRead(name: string, value: string, name': string, value': string, keys: set<string>)
    requires name != "" && IsAlpha(name[0]) && ':' !in name && Clean(value) && Normalize(name) in keys
    requires name' != "" && IsAlpha(name'[0]) && ':' !in name' && Clean(value') && Normalize(name') in keys
    ensures BodyOf(["", name + ": " + value, name' + ": " + value', ""], keys).fields
         == map[Normalize(name) := value][Normalize(name') := value']
  {
    hide ReadBody, BodyStep, Normalize, Trim;
    TrimmedStays(value);
    TrimmedStays(value');
    var line, line' := name + ": " + value, name' + ": " + value';
    assert ["", line, line', ""] == [""] + ([line] + ([line'] + [""]));
    ReadBodyFirst(EMPTY_BODY, "", [line] + ([line'] + [""]), keys);
    BlankStep(EMPTY_BODY, keys);
    var st := BodyStep(EMPTY_BODY, "", keys);
    FieldStep(st, name, value, keys);
    ReadBodyFirst(st, line, [line'] + [""], keys);
    var next := BodyStep(st, line, keys);
    FieldStep(next, name', value', keys);
    ReadBodyFirst(next, line', [""], keys);
    var last := BodyStep(next, line', keys);
    ReadBodyOne(last, "", keys);
    BlankStep(last, keys);
  }
}
