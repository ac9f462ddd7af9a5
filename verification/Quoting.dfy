/** The blockquote idiom of section.go: what reading a quoted text gives back, and that no quoted
    line is ever taken for structure. */
module Quoting {
  import opened Options
  import opened Section
  import opened Text

  // -- one line ------------------------------------------------------------------------------------

  lemma {:induction false} TrimRightOfBoth(a: string, b: string)
    ensures TrimRight(a + b) == if TrimRight(b) == "" then TrimRight(a) else a + TrimRight(b)
  {
    if b == "" {
      assert a + b == a;
    } else if IsSpace(Last(b)) {
      assert (a + b)[..|a + b| - 1] == a + Front(b);
      TrimRightOfBoth(a, Front(b));
    }
  }

  /** A quoted line is read back without its trailing blanks. */
  lemma QuotedLine(line: string)
    ensures UnquoteLine(QuoteLine(line)) == Some(TrimRight(line))
  {
    if line != "" {
      TrimRightOfBoth("> ", line);
      var kept := TrimRight("> " + line);
      assert kept == if TrimRight(line) == "" then TrimRight("> ") else "> " + TrimRight(line);
      assert "> "[..1] == ">" && TrimRight("> ") == TrimRight(">") == ">";
      assert kept[0] == '>';
      if TrimRight(line) != "" {
        assert kept[2..] == TrimRight(line);
      }
    }
  }

  lemma UnquoteOneMore(lines: seq<string>, line: string)
    ensures UnquoteLines(lines + [line]) == UnquoteLines(lines) + Held(line)
  {
    assert Front(lines + [line]) == lines;
  }

  lemma {:induction false} UnquoteLinesAppend(a: seq<string>, b: seq<string>)
    ensures UnquoteLines(a + b) == UnquoteLines(a) + UnquoteLines(b)
  {
    hide UnquoteLines, Held;
    if b == [] {
      assert a + b == a;
      NothingHeld([]);
    } else {
      assert a + b == a + Front(b) + [Last(b)] && b == Front(b) + [Last(b)];
      UnquoteLinesAppend(a, Front(b));
      UnquoteOneMore(a + Front(b), Last(b));
      UnquoteOneMore(Front(b), Last(b));
    }
  }

  function TrimmedLines(lines: seq<string>): (r: seq<string>)
    ensures |r| == |lines| && forall i | 0 <= i < |r| :: r[i] == TrimRight(lines[i])
  {
    seq(|lines|, i requires 0 <= i < |lines| => TrimRight(lines[i]))
  }

  lemma HeldOfQuoted(line: string)
    ensures Held(QuoteLine(line)) == [TrimRight(line)]
  {
    QuotedLine(line);
  }

  lemma {:induction false} QuotedLines(lines: seq<string>)
    ensures UnquoteLines(QuoteLines(lines)) == TrimmedLines(lines)
  {
    hide UnquoteLines, Held, QuoteLine, TrimRight;
    if lines == [] {
      NothingHeld([]);
    } else {
      assert QuoteLines(lines) == QuoteLines(Front(lines)) + [QuoteLine(Last(lines))];
      QuotedLines(Front(lines));
      HeldOfQuoted(Last(lines));
      UnquoteOneMore(QuoteLines(Front(lines)), QuoteLine(Last(lines)));
      assert TrimmedLines(lines) == TrimmedLines(Front(lines)) + [TrimRight(Last(lines))];
    }
  }

  /** Lines that are no blockquote add nothing to what is read back. */
  lemma {:induction false} NothingHeld(lines: seq<string>)
    requires forall l | l in lines :: UnquoteLine(l) == None
    ensures UnquoteLines(lines) == []
  {
    if lines != [] {
      assert Last(lines) in lines && forall l | l in Front(lines) :: l in lines;
      NothingHeld(Front(lines));
    }
  }

  // -- a whole text --------------------------------------------------------------------------------

  /** No line of the text ends in a blank. */
  predicate NoTrailingBlanks(text: string) { forall l | l in Lines(text) :: TrimRight(l) == l }

  lemma QuoteLinesAreOneLine(lines: seq<string>)
    requires forall l | l in lines :: OneLine(l)
    ensures forall q | q in QuoteLines(lines) :: OneLine(q) && q != "" && q[0] == '>'
  {
    var quoted := QuoteLines(lines);
    forall q | q in quoted
      ensures OneLine(q) && q != "" && q[0] == '>'
    {
      var i :| 0 <= i < |quoted| && quoted[i] == q;
      assert lines[i] in lines;
    }
  }

  /** The lines of a blockquote are the quoted lines. */
  lemma LinesOfQuoted(text: string)
    ensures Lines(Quoted(text)) == QuoteLines(Lines(text))
  {
    LinesAreOneLine(text);
    var quoted := QuoteLines(Lines(text));
    QuoteLinesAreOneLine(Lines(text));
    LinesOfJoin(quoted);
    FlatLinesOfOneLiners(quoted);
  }

  /** A text without the blanks its lines end in. */
  function Shaved(text: string): string { Join(TrimmedLines(Lines(text))) }

  lemma LinesOfShaved(text: string)
    ensures Lines(Shaved(text)) == TrimmedLines(Lines(text))
  {
    hide TrimRight, Lines, Join, FlatLines;
    var kept := TrimmedLines(Lines(text));
    TrimmedLinesAreOneLine(text);
    LinesOfJoin(kept);
    FlatLinesOfOneLiners(kept);
  }

  /** Shaving changes a text exactly when one of its lines ends in a blank. */
  lemma ShavedSame(text: string)
    ensures Shaved(text) == text <==> NoTrailingBlanks(text)
  {
    hide TrimRight, Lines, Join;
    var lines := Lines(text);
    LinesOfShaved(text);
    JoinOfLines(text);
    var kept := TrimmedLines(lines);
    if NoTrailingBlanks(text) {
      assert forall i | 0 <= i < |lines| :: lines[i] in lines;
      assert kept == lines;
    } else {
      var l :| l in lines && TrimRight(l) != l;
      var i :| 0 <= i < |lines| && lines[i] == l;
      assert kept[i] != lines[i];
    }
  }

  lemma ShavedHasNoBlanks(text: string)
    ensures NoTrailingBlanks(Shaved(text))
  {
    hide TrimRight, Lines, Join;
    LinesOfShaved(text);
    var lines, kept := Lines(text), TrimmedLines(Lines(text));
    forall l | l in kept
      ensures TrimRight(l) == l
    {
      var i :| 0 <= i < |kept| && kept[i] == l;
      TrimRightTwice(lines[i]);
    }
  }

  lemma {:induction false} TrimRightTwice(s: string)
    ensures TrimRight(TrimRight(s)) == TrimRight(s)
  {
    TrimRightShape(s);
  }

  /** Quote then Unquote gives the text back exactly when none of its lines ends in a blank. */
  lemma QuoteRoundTrip(text: string)
    ensures Unquoted(Lines(Quoted(text))) == Shaved(text)
    ensures Unquoted(Lines(Quoted(text))) == text <==> NoTrailingBlanks(text)
  {
    hide TrimRight, Lines, Join, UnquoteLines, QuoteLine, FlatLines, Shaved;
    LinesOfQuoted(text);
    QuotedLines(Lines(text));
    ShavedSame(text);
    ShavedIs(text);
  }

  lemma ShavedIs(text: string)
    ensures Shaved(text) == Join(TrimmedLines(Lines(text)))
  {
  }

  lemma TrimmedLinesAreOneLine(text: string)
    ensures forall l | l in TrimmedLines(Lines(text)) :: OneLine(l)
  {
    LinesAreOneLine(text);
    var lines, kept := Lines(text), TrimmedLines(Lines(text));
    forall l | l in kept
      ensures OneLine(l)
    {
      var i :| 0 <= i < |kept| && kept[i] == l;
      assert OneLine(lines[i]);
      TrimRightShape(lines[i]);
    }
  }

  // -- never structure -----------------------------------------------------------------------------

  /** No line of a blockquote is read as a heading, a list item, a label or a known field, whatever
      the text says: every field name starts with some other character. */
  lemma QuoteIsNeverStructure(text: string, line: string, keys: set<string>)
    requires line in Lines(Quoted(text))
    requires forall k | k in keys :: k == "" || k[0] != '>'
    ensures Heading(line) == None && Bullet(line) == None && Numbered(line) == None
    ensures !IsLabel(Trim(line)) && !IsField(line, keys)
    ensures ">" <= Trim(line) && !StartsIndented(line)
  {
    LinesOfQuoted(text);
    LinesAreOneLine(text);
    QuoteLinesAreOneLine(Lines(text));
    MarkedIsNeverStructure(line, keys);
  }

  lemma MarkedIsNeverStructure(line: string, keys: set<string>)
    requires line != "" && line[0] == '>'
    requires forall k | k in keys :: k == "" || k[0] != '>'
    ensures Heading(line) == None && Bullet(line) == None && Numbered(line) == None
    ensures !IsLabel(Trim(line)) && !IsField(line, keys)
    ensures ">" <= Trim(line) && !StartsIndented(line)
  {
    TrimKeepsMark(line);
    match Cut(line, ":") {
      case None =>
      case Some((key, value)) =>
        assert key != "" && key[0] == '>' by {
          assert line[0] != ':';
          assert Find(line, ":").value > 0;
        }
        NormalizeKeepsFirst(key);
    }
  }

  lemma TrimKeepsMark(line: string)
    requires line != "" && line[0] == '>'
    ensures ">" <= Trim(line)
  {
    assert line == ">" + line[1..];
    TrimRightKeepsFront(">", line[1..]);
  }
}
