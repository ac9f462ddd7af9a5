/** Reading a record's block back: where its inputs, its rationale and its output stand, and what the section
    readers make of them. */
module TrailReading {
  import opened Folding
  import SessionFacts
  import opened Options
  import opened Quoting
  import opened Section
  import opened SectionFacts
  import opened Text
  import opened TrailRecord
  import TrailMarkdown

  predicate InOrder(keys: seq<string>) { forall i, j | 0 <= i < j < |keys| :: Before(keys[i], keys[j]) }

  /** These are the inputs whose values take one line, in key order. */
  ghost predicate OneLineInputs(r: Record, keys: seq<string>) {
    InOrder(keys) && forall k :: k in keys <==> k in r.inputs && '\n' !in r.inputs[k]
  }

  /** These are the inputs whose values take more, but for blank ones, in key order. */
  ghost predicate LongInputs(r: Record, keys: seq<string>) {
    InOrder(keys) && forall k :: k in keys <==> k in r.inputs && '\n' in r.inputs[k] && Trim(r.inputs[k]) != ""
  }

  /** A label line and the text quoted below it. */
  datatype Part = Part(line: string, text: string)

  /** What a record quotes: its longer inputs, its rationale, and an output too long for the header. */
  function PartsOf(r: Record, long: seq<string>): seq<Part>
    requires forall k | k in long :: k in r.inputs
  {
    InputParts(r, long) + WhyPart(r) + OutputPart(r)
  }

  function InputParts(r: Record, long: seq<string>): (parts: seq<Part>)
    requires forall k | k in long :: k in r.inputs
    ensures |parts| == |long|
    ensures forall i | 0 <= i < |long| :: parts[i] == Part(Capitalize(long[i]) + ":", r.inputs[long[i]])
  {
    seq(|long|, i requires 0 <= i < |long| => Part(Capitalize(long[i]) + ":", r.inputs[long[i]]))
  }

  function WhyPart(r: Record): seq<Part> { if r.rationale != "" then [Part("Why:", r.rationale)] else [] }

  function OutputPart(r: Record): seq<Part> {
    if '\n' in r.output || |r.output| > 80 then [Part("Output:", r.output)] else []
  }

  lemma CapitalizeIs(s: string)
    requires s != ""
    ensures |Capitalize(s)| == |s| && Capitalize(s)[1..] == s[1..]
    ensures Capitalize(s)[0] == if 'a' <= s[0] <= 'z' then (s[0] as int - 32) as char else s[0]
  {
  }

  function PartLines(p: Part): seq<string> { [p.line] + QuoteLines(Lines(p.text)) + [""] }

  function PartsLines(parts: seq<Part>): seq<string> {
    if parts == [] then [] else PartsLines(Front(parts)) + PartLines(Last(parts))
  }

  lemma {:induction false} PartsAppend(a: seq<Part>, b: seq<Part>)
    ensures PartsLines(a + b) == PartsLines(a) + PartsLines(b)
  {
    hide PartLines;
    if b == [] {
      assert a + b == a;
    } else {
      assert Front(a + b) == a + Front(b) && Last(a + b) == Last(b);
      PartsAppend(a, Front(b));
      assert PartsLines(a) + (PartsLines(Front(b)) + PartLines(Last(b)))
          == PartsLines(a) + PartsLines(Front(b)) + PartLines(Last(b));
    }
  }

  lemma OnePart(p: Part)
    ensures PartsLines([p]) == PartLines(p)
  {
    hide PartLines;
    assert Front([p]) == [];
  }

  // -- line by line --------------------------------------------------------------------------------

  function Bullets(r: Record, keys: seq<string>): (lines: seq<string>)
    requires forall k | k in keys :: k in r.inputs
    ensures |lines| == |keys| && forall i | 0 <= i < |keys| :: lines[i] == "- " + keys[i] + ": " + r.inputs[keys[i]]
  {
    seq(|keys|, i requires 0 <= i < |keys| => "- " + keys[i] + ": " + r.inputs[keys[i]])
  }

  lemma LabelledLines(line: string, text: string)
    requires OneLine(line)
    ensures FlatLines([line, Quoted(text), ""]) == PartLines(Part(line, text))
  {
    hide Lines, QuoteLines, FlatLines;
    assert [line, Quoted(text), ""] == [line] + ([Quoted(text)] + [""]);
    FlatLinesAppend([line], [Quoted(text)] + [""]);
    FlatLinesAppend([Quoted(text)], [""]);
    FlatLinesOfOneLiners([line]);
    FlatLinesOfOneLiners([""]);
    OnePiece(Quoted(text));
    LinesOfQuoted(text);
    assert [line] + (QuoteLines(Lines(text)) + [""]) == [line] + QuoteLines(Lines(text)) + [""];
  }

  lemma OnePiece(piece: string)
    ensures FlatLines([piece]) == Lines(piece)
  {
    hide Lines;
    assert [piece][1..] == [] && FlatLines([]) == [];
    assert Lines(piece) + [] == Lines(piece);
  }

  lemma LabelOneLine(key: string)
    requires OneLine(key)
    ensures OneLine(Capitalize(key) + ":")
  {
    if key != "" {
      assert key[0] in key && forall c | c in key[1..] :: c in key;
    }
  }

  /** The one-line inputs are the bullets. */
  lemma {:induction false} SimpleLines(r: Record, keys: seq<string>)
    requires InOrder(keys) && forall k | k in keys :: k in r.inputs
    ensures var simple := SimpleKeys(r.inputs, keys);
            InOrder(simple) && forall k :: k in simple <==> k in keys && '\n' !in r.inputs[k]
  {
    hide InOrder;
    if keys == [] {
      NothingInOrder();
    } else {
      var front, last := Front(keys), Last(keys);
      assert keys == front + [last] && last in keys && forall k | k in front :: k in keys;
      FrontInOrder(keys);
      SimpleLines(r, front);
      var before := SimpleKeys(r.inputs, front);
      AfterFront(keys, before);
      assert before + [] == before;
    }
  }

  lemma NothingInOrder()
    ensures InOrder([])
  {
  }

  lemma FrontInOrder(keys: seq<string>)
    requires keys != [] && InOrder(keys)
    ensures InOrder(Front(keys))
  {
    hide Before;
    assert forall i | 0 <= i < |Front(keys)| :: Front(keys)[i] == keys[i];
  }

  lemma {:induction false} BulletsAre(r: Record, keys: seq<string>)
    requires forall k | k in keys :: k in r.inputs
    ensures InputLines(r.inputs, keys) == Bullets(r, keys)
  {
    if keys != [] {
      assert Last(keys) in keys && forall k | k in Front(keys) :: k in keys;
      BulletsAre(r, Front(keys));
    }
  }

  /** The longer inputs are the first parts. */
  lemma {:induction false} LongLines(r: Record, keys: seq<string>) returns (long: seq<string>)
    requires InOrder(keys) && forall k | k in keys :: k in r.inputs && OneLine(k)
    ensures InOrder(long) && forall k :: k in long <==> k in keys && '\n' in r.inputs[k] && Trim(r.inputs[k]) != ""
    ensures forall k | k in LongKeys(r.inputs, keys) :: k in r.inputs
    ensures FlatLines(AllLongPieces(r.inputs, LongKeys(r.inputs, keys)))
         == PartsLines(InputParts(r, long))
  {
    hide FlatLines, Trim, PartLines, Capitalize, Quoted, InOrder;
    KeysStay(r.inputs, keys);
    if keys == [] {
      long := [];
      NoLines();
      NothingInOrder();
    } else {
      var front, last := Front(keys), Last(keys);
      FrontInOrder(keys);
      var value := r.inputs[last];
      assert keys == front + [last] && last in keys && forall k | k in front :: k in keys;
      var before := LongLines(r, front);
      var had := LongKeys(r.inputs, front);
      if OneLine(value) {
        long := before;
        assert LongKeys(r.inputs, keys) == had;
      } else {
        assert LongKeys(r.inputs, keys) == had + [last] && Front(had + [last]) == had;
        FlatLinesAppend(AllLongPieces(r.inputs, had), LongPieces(last, value));
        if Trim(value) == "" {
          long := before;
          NoLines();
          assert forall s: seq<string> :: s + [] == s;
        } else {
          long := before + [last];
          LongMore(r, before, last);
          LabelOneLine(last);
          LabelledLines(Capitalize(last) + ":", value);
          AfterFront(keys, before);
        }
      }
    }
  }

  lemma NoLines()
    ensures FlatLines([]) == []
  {
  }

  lemma AfterFront(keys: seq<string>, before: seq<string>)
    requires keys != [] && InOrder(keys) && InOrder(before) && forall k | k in before :: k in Front(keys)
    ensures InOrder(before + [Last(keys)])
  {
    hide Before;
    var front := Front(keys);
    forall i | 0 <= i < |before|
      ensures Before(before[i], Last(keys))
    {
      assert before[i] in front;
      var j :| 0 <= j < |front| && front[j] == before[i];
      assert Before(keys[j], keys[|front|]);
    }
  }

  lemma LongMore(r: Record, before: seq<string>, last: string)
    requires last in r.inputs && forall k | k in before :: k in r.inputs
    ensures forall k | k in before + [last] :: k in r.inputs
    ensures PartsLines(InputParts(r, before + [last]))
         == PartsLines(InputParts(r, before)) + PartLines(Part(Capitalize(last) + ":", r.inputs[last]))
  {
    hide PartLines, Capitalize;
    assert Front(InputParts(r, before + [last])) == InputParts(r, before);
  }

  lemma EndLines(r: Record)
    ensures FlatLines(WhyPieces(r)) == PartsLines(WhyPart(r))
    ensures FlatLines(OutputPieces(r)) == PartsLines(OutputPart(r))
  {
    hide FlatLines, PartLines, Quoted;
    NoLines();
    WordsOneLine();
    LabelledLines("Why:", r.rationale);
    LabelledLines("Output:", r.output);
    OnePart(Part("Why:", r.rationale));
    OnePart(Part("Output:", r.output));
  }

  lemma WordsOneLine()
    ensures OneLine("Why:") && OneLine("Output:") && OneLine("")
  {
  }

  lemma BulletsOneLine(r: Record, keys: seq<string>)
    requires forall k | k in keys :: k in r.inputs && OneLine(k) && OneLine(r.inputs[k])
    ensures forall l | l in Bullets(r, keys) :: OneLine(l)
  {
    forall i | 0 <= i < |keys|
      ensures OneLine(Bullets(r, keys)[i])
    {
      assert keys[i] in keys;
    }
  }

  lemma SimpleFlat(r: Record, keys: seq<string>)
    requires forall k | k in keys :: k in r.inputs && OneLine(k) && OneLine(r.inputs[k])
    ensures FlatLines(if keys != [] then Bullets(r, keys) + [""] else [])
         == if keys != [] then Bullets(r, keys) + [""] else []
  {
    hide FlatLines;
    BulletsOneLine(r, keys);
    WordsOneLine();
    FlatLinesOfOneLiners(if keys != [] then Bullets(r, keys) + [""] else []);
  }

  /** A record's block, line by line: the header and a blank line, a bullet for every one-line input in key
      order and a blank line below them, then each longer input, the rationale and a long output quoted in full
      under its label, a blank line below each. */
  lemma LinesAre(r: Record) returns (simple: seq<string>, long: seq<string>)
    requires SingleLine(r)
    ensures OneLineInputs(r, simple) && LongInputs(r, long)
    ensures Lines(Block(r)) == [Header(r), ""] + (if simple != [] then Bullets(r, simple) + [""] else [])
                             + PartsLines(PartsOf(r, long))
  {
    hide Lines, FlatLines, Header, WhyPieces, OutputPieces, SortedKeys, PartsLines, SimpleKeys, LongKeys, InputLines,
      AllLongPieces, Trim, Block, Bullets, InputParts, WhyPart, OutputPart, InOrder;
    var keys := SortedKeys(r.inputs.Keys);
    KeysStay(r.inputs, keys);
    KeysInOrder(r.inputs.Keys);
    SimpleLines(r, keys);
    simple := SimpleKeys(r.inputs, keys);
    BulletsAre(r, simple);
    long := LongLines(r, keys);
    BlockLines(r);
    PieceLines(r, simple, InputParts(r, long));
    EndLines(r);
    PartsAppend(InputParts(r, long), WhyPart(r));
    PartsAppend(InputParts(r, long) + WhyPart(r), OutputPart(r));
    HeadAndRest(Header(r), if simple != [] then Bullets(r, simple) + [""] else [], PartsLines(InputParts(r, long)),
                PartsLines(WhyPart(r)), PartsLines(OutputPart(r)));
  }

  lemma KeysInOrder(keys: set<string>)
    ensures InOrder(SortedKeys(keys))
  {
    hide Before;
  }

  lemma HeadAndRest(header: string, a: seq<string>, b: seq<string>, c: seq<string>, d: seq<string>)
    ensures [header] + ([""] + a + b + c + d) == [header, ""] + a + (b + c + d)
  {
  }

  lemma PieceLines(r: Record, simple: seq<string>, quoted: seq<Part>)
    requires SingleLine(r) && (forall k | k in simple :: k in r.inputs && OneLine(r.inputs[k]))
    requires SimplePieces(r.inputs) == if simple != [] then Bullets(r, simple) + [""] else []
    requires FlatLines(MultilinePieces(r.inputs)) == PartsLines(quoted)
    ensures FlatLines(RecordPieces(r)[1..])
         == [""] + (if simple != [] then Bullets(r, simple) + [""] else []) + PartsLines(quoted)
            + FlatLines(WhyPieces(r)) + FlatLines(OutputPieces(r))
  {
    hide FlatLines, Header, WhyPieces, OutputPieces, SimplePieces, MultilinePieces, PartsLines, Bullets;
    var a, b := SimplePieces(r.inputs), MultilinePieces(r.inputs);
    assert RecordPieces(r)[1..] == [""] + a + b + WhyPieces(r) + OutputPieces(r);
    FlatLinesAppend([""] + a + b + WhyPieces(r), OutputPieces(r));
    FlatLinesAppend([""] + a + b, WhyPieces(r));
    FlatLinesAppend([""] + a, b);
    FlatLinesAppend([""], a);
    WordsOneLine();
    FlatLinesOfOneLiners([""]);
    SimpleFlat(r, simple);
  }

  /** The header: the stage, the output as far as it fits, the model in parentheses. */
  lemma HeaderIs(r: Record)
    ensures "### " + r.stage <= Header(r)
    ensures Header(r) == "### " + r.stage + (if r.output == "" then "" else " -- " + Clip(r.output))
                       + (if r.model == "" then "" else "  (" + r.model + ")")
    ensures |Clip(r.output)| <= 80
    ensures |Collapse(r.output)| <= 80 ==> Clip(r.output) == Collapse(r.output)
    ensures |Collapse(r.output)| > 80 ==> Clip(r.output) == Collapse(r.output)[..77] + "..."
  {
    hide Collapse;
  }

  /** A broken record is reported under its stage, when that is one word and an output follows it. */
  lemma LabelIsStage(r: Record)
    requires SingleLine(r) && ' ' !in r.stage && Trimmed(r.stage) && r.output != ""
    ensures TrailMarkdown.LabelOf(Block(r)) == r.stage
  {
    hide Lines, Block, Clip, Trim;
    BlockLines(r);
    var after := Clip(r.output) + (if r.model != "" then "  (" + r.model + ")" else "");
    assert Header(r) == "### " + (r.stage + " -- " + after);
    assert Header(r)[4..] == r.stage + " -- " + after;
    CutAfter(r.stage, " -- ", after);
    TrimmedStays(r.stage);
  }

  /** Two collapsed texts side by side. */
  function Beside(a: string, b: string): string { if a == "" then b else if b == "" then a else a + " " + b }

  /** Collapsing turns every run of blanks into one space and drops those at the ends; a word stays as it is, and
      of blanks alone nothing stays. */
  lemma CollapseIs(a: string, blanks: string, b: string)
    requires Blank(blanks) && blanks != ""
    ensures Collapse(a + blanks + b) == Beside(Collapse(a), Collapse(b))
    ensures (forall c | c in a :: !IsSpace(c)) ==> Collapse(a) == a
    ensures Collapse(blanks) == ""
  {
    hide IsSpace, Collapse;
    CollapseApart(a, blanks, b);
    WordAlone(a);
    BlankAlone(blanks);
  }

  lemma {:induction false} CollapseApart(a: string, blanks: string, b: string)
    requires Blank(blanks) && blanks != ""
    ensures Collapse(a + blanks + b) == Beside(Collapse(a), Collapse(b))
    decreases |a|
  {
    hide IsSpace, Collapse;
    BlankCollapses(blanks, b);
    BlankAlone("");
    var whole := a + blanks + b;
    if a == "" {
      assert whole == blanks + b;
    } else if IsSpace(a[0]) {
      assert whole[1..] == a[1..] + blanks + b;
      CollapseApart(a[1..], blanks, b);
      BlankFirst(a);
      BlankFirst(whole);
    } else {
      var n := WordSpan(a);
      WordSpanKeeps(a, blanks + b);
      assert whole == a + (blanks + b) && whole[..n] == a[..n] && whole[n..] == a[n..] + blanks + b;
      CollapseApart(a[n..], blanks, b);
      WordFirst(a);
      WordFirst(whole);
      BesideTwice(a[..n], Collapse(a[n..]), Collapse(b));
    }
  }

  lemma BlankFirst(s: string)
    requires s != "" && IsSpace(s[0])
    ensures Collapse(s) == Collapse(s[1..])
  {
  }

  lemma WordFirst(s: string)
    requires s != "" && !IsSpace(s[0])
    ensures WordSpan(s) > 0 && Collapse(s) == Beside(s[..WordSpan(s)], Collapse(s[WordSpan(s)..]))
  {
  }

  lemma BesideTwice(a: string, b: string, c: string)
    ensures Beside(Beside(a, b), c) == Beside(a, Beside(b, c))
  {
    assert a + " " + b + " " + c == a + " " + (b + " " + c);
  }

  lemma {:induction false} BlankCollapses(blanks: string, b: string)
    requires Blank(blanks)
    ensures Collapse(blanks + b) == Collapse(b)
  {
    if blanks == "" {
      assert blanks + b == b;
    } else {
      assert (blanks + b)[1..] == blanks[1..] + b;
      BlankCollapses(blanks[1..], b);
    }
  }

  lemma BlankAlone(a: string)
    ensures Blank(a) ==> Collapse(a) == ""
  {
    if Blank(a) {
      BlankCollapses(a, "");
      assert a + "" == a;
    }
  }

  lemma {:induction false} WordSpanAll(a: string)
    requires forall c | c in a :: !IsSpace(c)
    ensures WordSpan(a) == |a|
  {
    if a != "" {
      assert a[0] in a && forall c | c in a[1..] :: c in a;
      WordSpanAll(a[1..]);
    }
  }

  lemma WordAlone(a: string)
    ensures (forall c | c in a :: !IsSpace(c)) ==> Collapse(a) == a
  {
    hide IsSpace;
    if forall c | c in a :: !IsSpace(c) {
      WordSpanAll(a);
      if a != "" {
        assert a[0] in a;
        assert a[..|a|] == a && a[|a|..] == "";
      }
    }
  }

  /** Blanks, or the end, end a word. */
  lemma {:induction false} WordSpanKeeps(a: string, rest: string)
    requires rest == "" || IsSpace(rest[0])
    ensures WordSpan(a + rest) == WordSpan(a)
  {
    if a == "" {
      assert a + rest == rest;
    } else {
      assert (a + rest)[1..] == a[1..] + rest;
      WordSpanKeeps(a[1..], rest);
    }
  }

  // -- what the readers make of it -----------------------------------------------------------------

  /** The name a label line gives its blockquote, if it is read as a label at all. */
  function LabelName(line: string): Option<string> {
    if IsLabel(Trim(line)) then Some(Normalize(Front(Trim(line)))) else None
  }

  /** What the parts come to as labelled blocks: the later of two with one name counts. */
  function PartsRead(parts: seq<Part>): map<string, string> {
    if parts == [] then map[]
    else
      match LabelName(Last(parts).line)
      case Some(name) => PartsRead(Front(parts))[name := Shaved(Last(parts).text)]
      case None => PartsRead(Front(parts))
  }

  lemma PartRead(blocks: map<string, string>, p: Part)
    requires Trim(p.line) != ""
    ensures ReadBlocks(BlockState(blocks, "", []), PartLines(p))
         == BlockState(match LabelName(p.line) case Some(name) => blocks[name := Shaved(p.text)] case None => blocks,
                       "", [])
  {
    hide Trim, IsLabel, Normalize, Shaved, QuoteLines, Lines, Unquoted, ReadBlocks;
    var st, quotes := BlockState(blocks, "", []), QuoteLines(Lines(p.text));
    QuotesAreMarked(p.text);
    ReadBlocksAppend(st, [p.line] + quotes, [""]);
    ReadBlocksAppend(st, [p.line], quotes);
    var begun := BlockStep(st, p.line);
    OneLineRead(st, p.line);
    if IsLabel(Trim(p.line)) {
      LabelStarts(Trim(p.line));
      PendingRead(begun, quotes);
      assert [] + quotes == quotes && |quotes| == |Lines(p.text)| > 0;
      BlankEndsBlock(begun.(pending := quotes));
      QuoteTextIs(p.text);
    } else {
      assert begun == st;
      QuotesIgnored(begun, quotes);
      OneLineRead(begun, "");
      TrimAll("");
      BlankIsNoLabel();
    }
  }

  lemma LabelStarts(stripped: string)
    requires IsLabel(stripped)
    ensures !(">" <= stripped) && Front(stripped) != ""
  {
  }

  lemma QuoteTextIs(text: string)
    ensures Unquoted(QuoteLines(Lines(text))) == Shaved(text)
  {
    hide QuoteLines, Lines, UnquoteLines;
    QuotedLines(Lines(text));
  }

  lemma QuotesAreMarked(text: string)
    ensures forall q | q in QuoteLines(Lines(text)) :: ">" <= Trim(q)
  {
    hide Lines, Trim, QuoteLine, Heading, Bullet, Numbered, IsLabel;
    LinesAreOneLine(text);
    QuoteLinesAreOneLine(Lines(text));
    forall q | q in QuoteLines(Lines(text))
      ensures ">" <= Trim(q)
    {
      MarkedIsNeverStructure(q, {});
    }
  }

  lemma OneLineRead(st: BlockState, line: string)
    ensures ReadBlocks(st, [line]) == BlockStep(st, line)
  {
    hide BlockStep;
    assert [line][1..] == [];
  }

  /** Without a label above them quoted lines add nothing. */
  lemma {:induction false} QuotesIgnored(st: BlockState, lines: seq<string>)
    requires st.name == "" && forall l | l in lines :: ">" <= Trim(l)
    ensures ReadBlocks(st, lines) == st
    decreases |lines|
  {
    hide Trim, IsLabel;
    if lines != [] {
      assert lines[0] in lines && forall l | l in lines[1..] :: l in lines;
      QuotesIgnored(st, lines[1..]);
    }
  }

  lemma {:induction false} PartsAreRead(parts: seq<Part>)
    requires forall p | p in parts :: Trim(p.line) != ""
    ensures ReadBlocks(EMPTY_BLOCKS, PartsLines(parts)) == BlockState(PartsRead(parts), "", [])
  {
    hide Trim, LabelName, PartLines, ReadBlocks, Shaved;
    if parts == [] {
      NothingRead(EMPTY_BLOCKS);
    } else {
      var front, p := Front(parts), Last(parts);
      assert p in parts && forall q | q in front :: q in parts;
      PartsAreRead(front);
      ReadBlocksAppend(EMPTY_BLOCKS, PartsLines(front), PartLines(p));
      PartRead(PartsRead(front), p);
    }
  }

  lemma NothingRead(st: BlockState)
    ensures ReadBlocks(st, []) == st
  {
  }

  /** Header, bullets and blank lines make no block. */
  lemma {:induction false} PlainLinesRead(lines: seq<string>)
    requires forall l | l in lines :: !(">" <= Trim(l)) && !IsLabel(Trim(l))
    ensures ReadBlocks(EMPTY_BLOCKS, lines) == EMPTY_BLOCKS
    decreases |lines|
  {
    hide Trim, IsLabel;
    if lines != [] {
      assert lines[0] in lines && forall l | l in lines[1..] :: l in lines;
      PlainLinesRead(lines[1..]);
    }
  }

  lemma SymbolLine(line: string)
    requires line != "" && line[0] in "-#"
    ensures !(">" <= Trim(line)) && !IsLabel(Trim(line))
  {
    assert line == line[..1] + line[1..];
    TrimRightKeepsFront(line[..1], line[1..]);
    assert Trim(line)[0] == line[0];
  }

  lemma LabelNotBlank(line: string)
    requires line != "" && Last(line) == ':'
    ensures Trim(line) != ""
  {
    assert line == Front(line) + ":" + "";
    assert TrimRight(line) == line;
    TrimLeftShape(line);
  }

  /** The labelled blocks of a record's block are exactly what it quotes, each text under its label's normalized
      name and without the blanks its lines end in; where two labels read alike the later counts, and a key that
      makes no label hides its value. */
  lemma BlocksAre(r: Record) returns (long: seq<string>)
    requires SingleLine(r)
    ensures LongInputs(r, long) && BlocksOf(Lines(Block(r))) == PartsRead(PartsOf(r, long))
  {
    hide Lines, Header, Trim, IsLabel, PartsLines, Block, ReadBlocks, PartsRead, Capitalize, PartsOf;
    var simple;
    simple, long := LinesAre(r);
    var head := [Header(r), ""] + (if simple != [] then Bullets(r, simple) + [""] else []);
    var parts := PartsOf(r, long);
    HeadIsPlain(r, simple);
    PartsNotBlank(r, long);
    assert Lines(Block(r)) + [""] == head + PartsLines(parts) + [""];
    ReadBlocksAppend(EMPTY_BLOCKS, head + PartsLines(parts), [""]);
    ReadBlocksAppend(EMPTY_BLOCKS, head, PartsLines(parts));
    PlainLinesRead(head);
    PartsAreRead(parts);
    var st := BlockState(PartsRead(parts), "", []);
    OneLineRead(st, "");
    TrimAll("");
  }

  lemma HeadIsPlain(r: Record, simple: seq<string>)
    requires forall k | k in simple :: k in r.inputs
    ensures forall l | l in [Header(r), ""] + (if simple != [] then Bullets(r, simple) + [""] else []) ::
              !(">" <= Trim(l)) && !IsLabel(Trim(l))
  {
    hide Trim, IsLabel, Clip;
    TrimAll("");
    BlankIsNoLabel();
    SymbolLine(Header(r));
    forall l | l in Bullets(r, simple)
      ensures !(">" <= Trim(l)) && !IsLabel(Trim(l))
    {
      SymbolLine(l);
    }
  }

  lemma BlankIsNoLabel()
    ensures !IsLabel("")
  {
  }

  lemma PartsNotBlank(r: Record, long: seq<string>)
    requires forall k | k in long :: k in r.inputs
    ensures forall p | p in PartsOf(r, long) :: Trim(p.line) != ""
  {
    hide Trim, Capitalize;
    LabelNotBlank("Why:");
    LabelNotBlank("Output:");
    forall i | 0 <= i < |long|
      ensures Trim(Capitalize(long[i]) + ":") != ""
    {
      LabelNotBlank(Capitalize(long[i]) + ":");
    }
  }

  /** So a text quoted under a label that no later label repeats is there to be read. */
  lemma {:induction false} PartIsThere(parts: seq<Part>, i: nat)
    requires i < |parts| && LabelName(parts[i].line).Some?
    requires forall j | i < j < |parts| :: LabelName(parts[j].line) != LabelName(parts[i].line)
    ensures LabelName(parts[i].line).value in PartsRead(parts)
    ensures PartsRead(parts)[LabelName(parts[i].line).value] == Shaved(parts[i].text)
  {
    hide LabelName, Shaved;
    if i < |parts| - 1 {
      PartIsThere(Front(parts), i);
    }
  }

  /** And nothing else is. */
  lemma {:induction false} NothingElseIsThere(parts: seq<Part>, name: string)
    requires name in PartsRead(parts)
    ensures exists i | 0 <= i < |parts| :: LabelName(parts[i].line) == Some(name)
  {
    hide LabelName, Shaved;
    if LabelName(Last(parts).line) != Some(name) {
      NothingElseIsThere(Front(parts), name);
      var i :| 0 <= i < |Front(parts)| && LabelName(Front(parts)[i].line) == Some(name);
      assert parts[i] == Front(parts)[i];
    }
  }

  /** The rationale stands under "why" and a long output under "output", whatever they and the inputs say. */
  lemma ReasonsAreThere(r: Record)
    requires SingleLine(r)
    ensures var blocks := BlocksOf(Lines(Block(r)));
            && (r.rationale != "" ==> "why" in blocks && blocks["why"] == Shaved(r.rationale))
            && ('\n' in r.output || |r.output| > 80 ==> "output" in blocks && blocks["output"] == Shaved(r.output))
  {
    hide Lines, Block, BlocksOf, PartsRead, LabelName, Capitalize, Shaved;
    var long := BlocksAre(r);
    var parts := PartsOf(r, long);
    WordNames();
    if r.rationale != "" {
      assert parts[|long|] == Part("Why:", r.rationale);
      PartIsThere(parts, |long|);
    }
    if '\n' in r.output || |r.output| > 80 {
      assert parts[|parts| - 1] == Part("Output:", r.output);
      PartIsThere(parts, |parts| - 1);
    }
  }

  lemma WordNames()
    ensures LabelName("Why:") == Some("why") && LabelName("Output:") == Some("output")
  {
    assert Front("Why:") == "Why" && Front("Output:") == "Output";
    assert Trim("Why:") == "Why:" && Trim("Output:") == "Output:";
    WhyIs();
    OutputIs();
  }

  lemma WhyIs()
    ensures Normalize("Why") == "why" && IsLabel("Why:")
  {
    assert ToLower(Trim("Why")) == "why";
    assert Fold("why") == "why";
  }

  lemma OutputIs()
    ensures Normalize("Output") == "output" && IsLabel("Output:")
  {
    hide Normalize, Settled;
    OutputLower();
    OutputSettled();
    NormalizeIs("Output", "output");
  }

  lemma OutputLower()
    ensures ToLower("Output") == "output" && Trimmed("Output") && IsLabel("Output:")
  {
    assert Front("Output:") == "Output";
  }

  lemma OutputSettled()
    ensures Settled("output")
  {
  }

  // -- its bullets ---------------------------------------------------------------------------------

  /** The texts of the bullets of some inputs. */
  function BulletTexts(r: Record, keys: seq<string>): (texts: seq<string>)
    requires forall k | k in keys :: k in r.inputs
    ensures |texts| == |keys|
    ensures forall i | 0 <= i < |keys| :: texts[i] == Trim(keys[i] + ": " + r.inputs[keys[i]])
  {
    seq(|keys|, i requires 0 <= i < |keys| => Trim(keys[i] + ": " + r.inputs[keys[i]]))
  }

  /** The label lines that are themselves read as bullets. */
  function LabelBullets(parts: seq<Part>): seq<string> {
    if parts == [] then []
    else
      LabelBullets(Front(parts))
      + match Bullet(Last(parts).line) case Some(text) => [Trim(text)] case None => []
  }

  lemma {:induction false} InputsRead(st: BodyState, r: Record, keys: seq<string>)
    requires forall k | k in keys :: k in r.inputs
    ensures ReadBody(st, Bullets(r, keys), {}).body.bullets == st.body.bullets + BulletTexts(r, keys)
  {
    hide ReadBody, BodyStep, Trim;
    if keys == [] {
      NoBodyRead(st);
      assert st.body.bullets + BulletTexts(r, keys) == st.body.bullets;
    } else {
      var front, last := Front(keys), Last(keys);
      assert last in keys && forall k | k in front :: k in keys;
      InputsRead(st, r, front);
      var line := "- " + last + ": " + r.inputs[last];
      assert Bullets(r, keys) == Bullets(r, front) + [line];
      ReadBodyAppend(st, Bullets(r, front), [line], {});
      var before := ReadBody(st, Bullets(r, front), {});
      BodyLine(before, line);
      BulletStep(before, last, r.inputs[last]);
      assert BulletTexts(r, keys) == BulletTexts(r, front) + [Trim(last + ": " + r.inputs[last])];
    }
  }

  lemma BulletStep(st: BodyState, key: string, value: string)
    ensures BodyStep(st, "- " + key + ": " + value, {}).body.bullets == st.body.bullets + [Trim(key + ": " + value)]
  {
    hide Trim, Bullet, Heading;
    var line := "- " + key + ": " + value;
    assert line == ['-'] + ([' '] + (key + ": " + value));
    SessionFacts.DashLine(key + ": " + value);
  }

  lemma NoBodyRead(st: BodyState)
    ensures ReadBody(st, [], {}) == st
  {
  }

  lemma BodyLine(st: BodyState, line: string)
    ensures ReadBody(st, [line], {}) == BodyStep(st, line, {})
  {
    hide BodyStep;
    assert [line][1..] == [];
  }

  /** A label, its quote and its blank line add a bullet only if the label is one. */
  lemma PartBullets(st: BodyState, p: Part)
    requires st.open == Closed && Trim(p.line) != ""
    ensures var after := ReadBody(st, PartLines(p), {});
            after.open == Closed && after.body.bullets == st.body.bullets + LabelBullets([p])
  {
    hide ReadBody, BodyStep, Trim, Bullet, QuoteLines, Lines;
    var quotes := QuoteLines(Lines(p.text));
    ReadBodyAppend(st, [p.line] + quotes, [""], {});
    ReadBodyAppend(st, [p.line], quotes, {});
    BodyLine(st, p.line);
    var begun := BodyStep(st, p.line, {});
    LabelLineBullets(st, p.line);
    QuotesUnstructured(p.text);
    UnstructuredRead(begun, quotes, {});
    var quoted := ReadBody(begun, quotes, {});
    BodyLine(quoted, "");
    BlankCloses(quoted);
    assert Front([p]) == [] && LabelBullets([]) == [];
    assert forall s: seq<string> :: [] + s == s;
  }

  lemma LabelLineBullets(st: BodyState, line: string)
    requires st.open == Closed && Trim(line) != ""
    ensures BodyStep(st, line, {}).body.bullets
         == st.body.bullets + match Bullet(line) case Some(text) => [Trim(text)] case None => []
  {
    hide Trim, Bullet, Numbered, Heading;
  }

  lemma BlankCloses(st: BodyState)
    ensures BodyStep(st, "", {}).open == Closed && BodyStep(st, "", {}).body.bullets == st.body.bullets
  {
    hide Bullet, Numbered;
    TrimAll("");
  }

  lemma QuotesUnstructured(text: string)
    ensures forall q | q in QuoteLines(Lines(text)) :: Unstructured(q, {})
  {
    hide Lines, Trim, QuoteLine, Heading, Bullet, Numbered, IsLabel;
    LinesAreOneLine(text);
    QuoteLinesAreOneLine(Lines(text));
    forall q | q in QuoteLines(Lines(text))
      ensures Unstructured(q, {})
    {
      MarkedIsNeverStructure(q, {});
    }
  }

  lemma {:induction false} PartsBullets(st: BodyState, parts: seq<Part>)
    requires st.open == Closed && forall p | p in parts :: Trim(p.line) != ""
    ensures var after := ReadBody(st, PartsLines(parts), {});
            after.open == Closed && after.body.bullets == st.body.bullets + LabelBullets(parts)
  {
    hide ReadBody, Trim, Bullet, PartLines;
    if parts == [] {
      NoBodyRead(st);
      assert st.body.bullets + [] == st.body.bullets;
    } else {
      var front, p := Front(parts), Last(parts);
      assert p in parts && forall q | q in front :: q in parts;
      PartsBullets(st, front);
      ReadBodyAppend(st, PartsLines(front), PartLines(p), {});
      PartBullets(ReadBody(st, PartsLines(front), {}), p);
      assert Front([p]) == [] && LabelBullets([]) == [];
      assert LabelBullets(parts) == LabelBullets(front) + LabelBullets([p]);
    }
  }

  /** The bullets of a record's block are its one-line inputs in key order, each as its key, a colon and its value,
      and after them only such labels as are themselves written like bullets. */
  lemma BulletsAreRead(r: Record) returns (simple: seq<string>, long: seq<string>)
    requires SingleLine(r)
    ensures OneLineInputs(r, simple) && LongInputs(r, long)
    ensures BodyOf(Lines(Block(r)), {}).bullets == BulletTexts(r, simple) + LabelBullets(PartsOf(r, long))
  {
    hide Lines, Header, Trim, PartsLines, Block, ReadBody, BodyStep, Capitalize, PartsOf, LabelBullets, Bullets,
      BulletTexts;
    simple, long := LinesAre(r);
    var parts := PartsOf(r, long);
    PartsNotBlank(r, long);
    var st := ReadBody(EMPTY_BODY, [Header(r), ""], {});
    HeaderRead(r);
    var lines := if simple != [] then Bullets(r, simple) + [""] else [];
    ReadBodyAppend(EMPTY_BODY, [Header(r), ""] + lines, PartsLines(parts), {});
    ReadBodyAppend(EMPTY_BODY, [Header(r), ""], lines, {});
    InputsRead(st, r, simple);
    NoBodyRead(st);
    ReadBodyAppend(st, Bullets(r, simple), [""], {});
    var listed := ReadBody(st, Bullets(r, simple), {});
    BodyLine(listed, "");
    BlankCloses(listed);
    PartsBullets(ReadBody(st, lines, {}), parts);
    assert forall s: seq<string> :: [] + s == s;
  }

  lemma HeaderRead(r: Record)
    ensures var st := ReadBody(EMPTY_BODY, [Header(r), ""], {}); st.open == Closed && st.body.bullets == []
  {
    hide ReadBody, BodyStep, Trim, Clip;
    assert [Header(r), ""] == [Header(r)] + [""];
    ReadBodyAppend(EMPTY_BODY, [Header(r)], [""], {});
    BodyLine(EMPTY_BODY, Header(r));
    var st := BodyStep(EMPTY_BODY, Header(r), {});
    HashIsNoItem(Header(r));
    HashStep(Header(r));
    BodyLine(st, "");
    BlankCloses(st);
  }

  lemma HashIsNoItem(line: string)
    requires line != "" && line[0] == '#'
    ensures Bullet(line) == None && Numbered(line) == None
  {
    assert SkipReSpace(line) == line && DigitSpan(line) == 0;
  }

  lemma HashStep(line: string)
    requires Bullet(line) == None && Numbered(line) == None
    ensures BodyStep(EMPTY_BODY, line, {}).body.bullets == []
  {
    hide Bullet, Numbered, Trim;
  }
}
