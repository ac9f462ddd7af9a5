/** How the readers of section.go work through lines piece by piece. */
module SectionFacts {
  import opened Options
  import opened Quoting
  import opened Section
  import opened Text

  // -- carriage returns ----------------------------------------------------------------------------

  function DropReturn(line: string): string {
    if line != "" && Last(line) == '\r' then Front(line) else line
  }

  /** Every line but the last loses one carriage return at its end. */
  function UnixEnds(lines: seq<string>): (r: seq<string>)
    ensures |r| == |lines|
  {
    if |lines| < 2 then lines else [DropReturn(lines[0])] + UnixEnds(lines[1..])
  }

  /** Lines as they are read, each without one carriage return at its end. */
  function Seen(lines: seq<string>): (r: seq<string>)
    ensures |r| == |lines| && forall i | 0 <= i < |r| :: r[i] == DropReturn(lines[i])
  {
    seq(|lines|, i requires 0 <= i < |lines| => DropReturn(lines[i]))
  }

  lemma SeenAppend(a: seq<string>, b: seq<string>)
    ensures Seen(a + b) == Seen(a) + Seen(b)
  {
    hide DropReturn;
  }

  lemma SeenAsIs(lines: seq<string>)
    requires forall l | l in lines :: DropReturn(l) == l
    ensures Seen(lines) == lines
  {
    hide DropReturn;
    assert forall i | 0 <= i < |lines| :: lines[i] in lines;
  }

  lemma DropReturnTrims(line: string)
    ensures Trim(DropReturn(line)) == Trim(line)
  {
  }

  /** A line of a blockquote is still one, and holds the same, without a carriage return at its end. */
  lemma SeenQuote(line: string)
    ensures var q := DropReturn(QuoteLine(line));
            q != "" && q[0] == '>' && UnquoteLine(q) == UnquoteLine(QuoteLine(line))
  {
    hide Trim;
    DropReturnTrims(QuoteLine(line));
    if line != "" {
      assert ("> " + line)[0] == '>' && Front("> " + line)[0] == ("> " + line)[0];
    }
  }

  lemma SeenQuotes(lines: seq<string>)
    ensures forall q | q in Seen(QuoteLines(lines)) :: q != "" && q[0] == '>'
  {
    hide DropReturn, QuoteLine;
    var quotes := Seen(QuoteLines(lines));
    forall q | q in quotes
      ensures q != "" && q[0] == '>'
    {
      var i :| 0 <= i < |quotes| && quotes[i] == q;
      SeenQuote(lines[i]);
    }
  }

  lemma {:induction false} SeenHold(lines: seq<string>)
    ensures UnquoteLines(Seen(QuoteLines(lines))) == UnquoteLines(QuoteLines(lines))
  {
    hide DropReturn, QuoteLine, UnquoteLine;
    if lines != [] {
      var front, last := Front(lines), Last(lines);
      SeenHold(front);
      SeenQuote(last);
      assert Front(QuoteLines(lines)) == QuoteLines(front);
      assert Front(Seen(QuoteLines(lines))) == Seen(QuoteLines(front));
    }
  }

  lemma {:induction false} LinesOfUnixLines(text: string)
    ensures Lines(UnixLines(text)) == UnixEnds(Lines(text))
    decreases |text|
  {
    hide Glue, UnixEnds;
    if text == "" {
      UnixEndsOfOne("");
    } else if |text| > 1 && text[0] == '\r' && text[1] == '\n' {
      var rest := text[2..];
      LinesOfUnixLines(rest);
      assert text[1..][0] == '\n' && text[1..][1..] == rest;
      assert ("\n" + UnixLines(rest))[1..] == UnixLines(rest);
      UnixEndsGlueBoth(Lines(rest));
    } else {
      LinesOfUnixLines(text[1..]);
      assert ([text[0]] + UnixLines(text[1..]))[1..] == UnixLines(text[1..]);
      FirstLineEmpty(text[1..]);
      var lines := Lines(text[1..]);
      if text[0] == '\n' {
        UnixEndsGlueNewline(lines);
      } else {
        assert lines == [lines[0]] + lines[1..];
        UnixEndsGlueCharacter(text[0], lines[0], lines[1..]);
      }
    }
  }

  lemma UnixEndsOfOne(line: string)
    ensures UnixEnds([line]) == [line]
  {
  }

  lemma FirstLineEmpty(text: string)
    ensures Lines(text)[0] == "" ==> |Lines(text)| == 1 || (text != "" && text[0] == '\n')
  {
  }

  lemma UnixEndsMore(first: string, rest: seq<string>)
    ensures UnixEnds([first] + rest) == if rest == [] then [first] else [DropReturn(first)] + UnixEnds(rest)
  {
    assert ([first] + rest)[1..] == rest;
  }

  lemma GlueCharacter(c: char, first: string, rest: seq<string>)
    requires c != '\n'
    ensures Glue(c, [first] + rest) == [[c] + first] + rest
  {
  }

  lemma UnixEndsGlueBoth(lines: seq<string>)
    requires lines != []
    ensures UnixEnds(Glue('\r', Glue('\n', lines))) == Glue('\n', UnixEnds(lines))
  {
    hide UnixEnds, Glue;
    GlueNewline(lines);
    GlueNewline(UnixEnds(lines));
    GlueCharacter('\r', "", lines);
    UnixEndsMore(['\r'] + "", lines);
  }

  lemma UnixEndsGlueNewline(lines: seq<string>)
    requires lines != []
    ensures UnixEnds(Glue('\n', lines)) == Glue('\n', UnixEnds(lines))
  {
    hide UnixEnds, Glue;
    GlueNewline(lines);
    GlueNewline(UnixEnds(lines));
    UnixEndsMore("", lines);
  }

  lemma UnixEndsGlueCharacter(c: char, first: string, rest: seq<string>)
    requires c != '\n' && (c == '\r' && first == "" ==> rest == [])
    ensures UnixEnds(Glue(c, [first] + rest)) == Glue(c, UnixEnds([first] + rest))
  {
    hide UnixEnds, Glue, DropReturn;
    UnixEndsMore(first, rest);
    GlueCharacter(c, first, rest);
    UnixEndsMore([c] + first, rest);
    if rest == [] {
      GlueCharacter(c, first, []);
      assert [first] + [] == [first];
    } else {
      DropReturnLater(c, first);
      GlueCharacter(c, DropReturn(first), UnixEnds(rest));
    }
  }

  lemma DropReturnLater(c: char, line: string)
    requires line != "" || c != '\r'
    ensures DropReturn([c] + line) == [c] + DropReturn(line)
  {
    if line != "" {
      assert Front([c] + line) == [c] + Front(line);
    }
  }

  // -- digits ---------------------------------------------------------------------------------------

  lemma {:induction false} DigitSpanOf(digits: string, rest: string)
    requires AllDigits(digits) && (rest == "" || !IsDigit(rest[0]))
    ensures DigitSpan(digits + rest) == |digits|
  {
    if digits == "" {
      assert digits + rest == rest;
    } else {
      assert (digits + rest)[1..] == digits[1..] + rest;
      DigitSpanOf(digits[1..], rest);
    }
  }

  // -- sections ------------------------------------------------------------------------------------

  predicate Headless(lines: seq<string>) { forall l | l in lines :: Heading(l) == None }

  lemma {:induction false} ReadLinesAppend(doc: Document, a: seq<string>, b: seq<string>)
    ensures ReadLines(doc, a + b) == ReadLines(ReadLines(doc, a), b)
    decreases |a|
  {
    hide DocumentStep;
    if a == [] {
      assert a + b == b;
    } else {
      assert (a + b)[1..] == a[1..] + b;
      ReadLinesAppend(DocumentStep(doc, a[0]), a[1..], b);
    }
  }

  /** Lines under no section only reach the preamble. */
  lemma {:induction false} PreambleRead(doc: Document, lines: seq<string>)
    requires doc.sections == [] && Headless(lines)
    ensures ReadLines(doc, lines).sections == []
    decreases |lines|
  {
    hide Heading;
    if lines != [] {
      assert lines[0] in lines && forall l | l in lines[1..] :: l in lines;
      PreambleRead(DocumentStep(doc, lines[0]), lines[1..]);
    }
  }

  /** Lines without headings all go to the open section. */
  lemma {:induction false} SectionRead(doc: Document, before: seq<SectionOf>, name: string,
                                       had: seq<string>, lines: seq<string>)
    requires doc.sections == before + [SectionOf(name, had)] && Headless(lines)
    ensures ReadLines(doc, lines) == doc.(sections := before + [SectionOf(name, had + lines)])
    decreases |lines|
  {
    hide Heading;
    if lines == [] {
      assert had + lines == had;
    } else {
      assert lines[0] in lines && forall l | l in lines[1..] :: l in lines;
      var next := DocumentStep(doc, lines[0]);
      assert Front(doc.sections) == before;
      assert next.sections == before + [SectionOf(name, had + [lines[0]])];
      SectionRead(next, before, name, had + [lines[0]], lines[1..]);
      assert had + [lines[0]] + lines[1..] == had + lines;
    }
  }

  /** A heading below the title, then lines without headings: one section more. */
  lemma HeadingRead(doc: Document, line: string, lines: seq<string>)
    requires Heading(line).Some? && Heading(line).value.0 > 1 && Headless(lines)
    ensures ReadLines(doc, [line] + lines)
         == doc.(sections := doc.sections + [SectionOf(Heading(line).value.1, lines)])
  {
    hide Heading;
    assert ([line] + lines)[1..] == lines;
    var name := Heading(line).value.1;
    assert DocumentStep(doc, line) == doc.(sections := doc.sections + [SectionOf(name, [])]);
    SectionRead(DocumentStep(doc, line), doc.sections, name, [], lines);
    assert [] + lines == lines;
  }

  // -- bodies --------------------------------------------------------------------------------------

  lemma {:induction false} ReadBodyAppend(st: BodyState, a: seq<string>, b: seq<string>, keys: set<string>)
    ensures ReadBody(st, a + b, keys) == ReadBody(ReadBody(st, a, keys), b, keys)
    decreases |a|
  {
    hide BodyStep;
    if a == [] {
      assert a + b == b;
    } else {
      assert (a + b)[1..] == a[1..] + b;
      ReadBodyAppend(BodyStep(st, a[0], keys), a[1..], b, keys);
    }
  }

  ghost predicate SameStructure(a: Body, b: Body) {
    a.fields == b.fields && a.bullets == b.bullets && a.numbered == b.numbered
  }

  /** A line that is neither a list item nor a known field, nor a wrapped item. */
  predicate Unstructured(line: string, keys: set<string>) {
    || Trim(line) == ""
    || (Bullet(line) == None && Numbered(line) == None && !StartsIndented(line) && !IsField(line, keys))
  }

  lemma {:induction false} UnstructuredRead(st: BodyState, lines: seq<string>, keys: set<string>)
    requires forall l | l in lines :: Unstructured(l, keys)
    ensures SameStructure(ReadBody(st, lines, keys).body, st.body)
    ensures lines != [] || st.open == Closed ==> ReadBody(st, lines, keys).open == Closed
    decreases |lines|
  {
    hide Bullet, Numbered, IsField, Trim;
    if lines != [] {
      assert lines[0] in lines && forall l | l in lines[1..] :: l in lines;
      UnstructuredRead(BodyStep(st, lines[0], keys), lines[1..], keys);
    }
  }

  /** A blockquote leaves the fields and the lists alone. */
  lemma QuoteRead(st: BodyState, text: string, keys: set<string>)
    requires forall k | k in keys :: k == "" || k[0] != '>'
    ensures SameStructure(ReadBody(st, Seen(QuoteLines(Lines(text))), keys).body, st.body)
    ensures ReadBody(st, Seen(QuoteLines(Lines(text))), keys).open == Closed
  {
    hide Bullet, Numbered, IsField, Trim, ReadBody, Heading, IsLabel, QuoteLines, Lines, Seen;
    var quotes := Seen(QuoteLines(Lines(text)));
    SeenQuotes(Lines(text));
    forall l | l in quotes
      ensures Unstructured(l, keys)
    {
      MarkedIsNeverStructure(l, keys);
    }
    UnstructuredRead(st, quotes, keys);
  }

  // -- blocks --------------------------------------------------------------------------------------

  lemma {:induction false} ReadBlocksAppend(st: BlockState, a: seq<string>, b: seq<string>)
    ensures ReadBlocks(st, a + b) == ReadBlocks(ReadBlocks(st, a), b)
    decreases |a|
  {
    hide BlockStep;
    if a == [] {
      assert a + b == b;
    } else {
      assert (a + b)[1..] == a[1..] + b;
      ReadBlocksAppend(BlockStep(st, a[0]), a[1..], b);
    }
  }

  /** Without a blockquote no block is made. */
  lemma {:induction false} NoBlockRead(st: BlockState, lines: seq<string>)
    requires st.pending == [] && forall l | l in lines :: !(">" <= Trim(l))
    ensures ReadBlocks(st, lines).blocks == st.blocks && ReadBlocks(st, lines).pending == []
    decreases |lines|
  {
    hide IsLabel, Trim, Unquoted, Normalize;
    if lines != [] {
      assert lines[0] in lines && forall l | l in lines[1..] :: l in lines;
      NoBlockRead(BlockStep(st, lines[0]), lines[1..]);
    }
  }

  lemma {:induction false} PendingRead(st: BlockState, lines: seq<string>)
    requires st.name != "" && forall l | l in lines :: ">" <= Trim(l)
    ensures ReadBlocks(st, lines) == st.(pending := st.pending + lines)
    decreases |lines|
  {
    hide IsLabel, Trim, Unquoted, Normalize;
    if lines == [] {
      assert st.pending + lines == st.pending;
    } else {
      assert lines[0] in lines && forall l | l in lines[1..] :: l in lines;
      PendingRead(BlockStep(st, lines[0]), lines[1..]);
      assert st.pending + [lines[0]] + lines[1..] == st.pending + lines;
    }
  }

  /** A label, its blockquote and a blank line make one block. */
  lemma BlockRead(st: BlockState, name: string, text: string)
    requires st.pending == [] && name != "" && IsLabel(Trim(name + ":")) && Trim(name + ":") == name + ":"
    ensures ReadBlocks(st, [name + ":"] + Seen(QuoteLines(Lines(text))) + [""])
         == BlockState(st.blocks[Normalize(name) := Unquoted(Seen(QuoteLines(Lines(text))))], "", [])
  {
    hide IsLabel, Normalize, Unquoted, QuoteLines, Lines, Heading, Bullet, Numbered, IsField, Seen;
    var quotes := Seen(QuoteLines(Lines(text)));
    SeenQuotes(Lines(text));
    forall l | l in quotes
      ensures ">" <= Trim(l)
    {
      MarkedIsNeverStructure(l, {});
    }
    LabelRead(st, name);
    var open := BlockState(st.blocks, name, []);
    PendingRead(open, quotes);
    assert open.pending + quotes == quotes && |quotes| == |Lines(text)| > 0;
    ReadBlocksAppend(st, [name + ":"], quotes);
    ReadBlocksAppend(st, [name + ":"] + quotes, [""]);
    BlankEndsBlock(open.(pending := quotes));
  }

  lemma LabelRead(st: BlockState, name: string)
    requires st.pending == [] && name != "" && IsLabel(Trim(name + ":")) && Trim(name + ":") == name + ":"
    ensures ReadBlocks(st, [name + ":"]) == BlockState(st.blocks, name, [])
  {
    assert Front(name + ":") == name;
    assert IsLabel(name + ":") && !(">" <= name + ":") by {
      assert IsAlpha((name + ":")[0]);
    }
    assert [name + ":"][1..] == [];
  }

  lemma BlankEndsBlock(st: BlockState)
    requires st.name != "" && st.pending != []
    ensures ReadBlocks(st, [""]) == BlockState(st.blocks[Normalize(st.name) := Unquoted(st.pending)], "", [])
  {
    assert [""][1..] == [];
  }
}
