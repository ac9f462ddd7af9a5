/** The section parser line by line: what each kind of line does, whatever was read before it. */
module BodyReading {
  import opened Folding
  import opened Options
  import opened Quoting
  import opened Section
  import opened SectionFacts
  import opened SessionFacts
  import opened SessionLines
  import opened Text

  predicate AllReSpace(s: string) { forall i | 0 <= i < |s| :: ReSpace(s[i]) }

  lemma {:induction false} IndentSkipped(indent: string, rest: string)
    requires AllReSpace(indent) && (rest == "" || !ReSpace(rest[0]))
    ensures SkipReSpace(indent + rest) == rest
  {
    if indent == "" {
      assert indent + rest == rest;
    } else {
      assert (indent + rest)[1..] == indent[1..] + rest;
      IndentSkipped(indent[1..], rest);
    }
  }

  /** What stands after the marker and its blank, trimmed. */
  lemma MarkedText(blank: char, text: string)
    requires ReSpace(blank)
    ensures Trim(SkipReSpace([blank] + text)) == Trim(text)
  {
    hide Trim;
    SkipTrims([blank] + text);
    SpaceTrimmed(blank, text);
  }

  lemma {:induction false} IndentTrimmed(indent: string, rest: string)
    requires AllReSpace(indent)
    ensures Trim(indent + rest) == Trim(rest)
  {
    hide Trim;
    if indent == "" {
      assert indent + rest == rest;
    } else {
      assert indent + rest == [indent[0]] + (indent[1..] + rest);
      SpaceTrimmed(indent[0], indent[1..] + rest);
      IndentTrimmed(indent[1..], rest);
    }
  }

  lemma VisibleFirst(s: string)
    requires s != "" && !IsSpace(s[0])
    ensures Trim(s) != ""
  {
    assert s == s[..1] + s[1..];
    TrimRightKeepsFront(s[..1], s[1..]);
  }

  /** A dash, a star or a plus and a blank make a bullet, however far it is indented. */
  lemma BulletLine(st: BodyState, indent: string, marker: char, blank: char, text: string, keys: set<string>)
    requires AllReSpace(indent) && marker in "-*+" && ReSpace(blank)
    ensures BodyStep(st, indent + ([marker] + ([blank] + text)), keys)
         == BodyState(st.body.(bullets := st.body.bullets + [Trim(text)]), InBullets)
  {
    hide Trim, IsSpace;
    var rest := [marker] + ([blank] + text);
    MarkerIsVisible(marker);
    IndentSkipped(indent, rest);
    IndentTrimmed(indent, rest);
    VisibleFirst(rest);
    assert rest[1..] == [blank] + text;
    MarkedText(blank, text);
  }

  lemma MarkerIsVisible(marker: char)
    requires marker in "-*+"
    ensures !ReSpace(marker) && !IsSpace(marker) && !IsDigit(marker)
  {
  }

  /** Digits, a dot or a parenthesis, and a blank make a numbered item. */
  lemma NumberedLine(st: BodyState, indent: string, digits: string, end: char, blank: char, text: string,
                     keys: set<string>)
    requires AllReSpace(indent) && digits != "" && AllDigits(digits) && (end == '.' || end == ')') && ReSpace(blank)
    ensures BodyStep(st, indent + (digits + ([end] + ([blank] + text))), keys)
         == BodyState(st.body.(numbered := st.body.numbered + [Trim(text)]), InNumbered)
  {
    hide Trim, IsSpace, Bullet, Numbered;
    var rest := digits + ([end] + ([blank] + text));
    DigitIsVisible(digits[0]);
    assert rest[0] == digits[0];
    IndentTrimmed(indent, rest);
    VisibleFirst(rest);
    NumberedItem(indent, digits, end, blank, text);
    MarkedText(blank, text);
  }

  lemma NumberedItem(indent: string, digits: string, end: char, blank: char, text: string)
    requires AllReSpace(indent) && digits != "" && AllDigits(digits) && (end == '.' || end == ')') && ReSpace(blank)
    ensures var line := indent + (digits + ([end] + ([blank] + text)));
            Bullet(line) == None && Numbered(line) == Some(SkipReSpace([blank] + text))
  {
    hide IsSpace;
    var rest := digits + ([end] + ([blank] + text));
    DigitIsVisible(digits[0]);
    assert rest[0] == digits[0];
    IndentSkipped(indent, rest);
    DigitSpanOf(digits, [end] + ([blank] + text));
    assert rest[|digits|] == end && rest[|digits| + 1] == blank && rest[|digits| + 1..] == [blank] + text;
  }

  lemma DigitIsVisible(c: char)
    requires IsDigit(c)
    ensures !ReSpace(c) && !IsSpace(c) && c !in "-*+"
  {
  }

  /** An indented line of words goes on with the item above it, after one space. */
  lemma WrappedLine(st: BodyState, indent: string, text: string, keys: set<string>)
    requires indent != "" && AllReSpace(indent) && (indent[0] == ' ' || indent[0] == '\t')
    requires text != "" && IsAlpha(text[0])
    ensures st.open == InBullets && st.body.bullets != [] ==>
              BodyStep(st, indent + text, keys) ==
                st.(body := st.body.(bullets := Front(st.body.bullets) + [Last(st.body.bullets) + " " + Trim(text)]))
    ensures st.open == InNumbered && st.body.numbered != [] ==>
              BodyStep(st, indent + text, keys) ==
                st.(body := st.body.(numbered := Front(st.body.numbered) + [Last(st.body.numbered) + " " + Trim(text)]))
  {
    hide Trim, IsField;
    IndentSkipped(indent, text);
    IndentTrimmed(indent, text);
    VisibleFirst(text);
    assert DigitSpan(text) == 0;
  }

  /** A line of words that is no known field is prose, and ends whatever list was open. */
  lemma ProseLine(st: BodyState, text: string, keys: set<string>)
    requires text != "" && IsAlpha(text[0])
    requires ':' !in text || forall k | k in keys :: Cut(text, ":").Some? && Normalize(Cut(text, ":").value.0) != k
    ensures BodyStep(st, text, keys) == BodyState(st.body.(prose := st.body.prose + [Trim(text)]), Closed)
  {
    hide Trim, Normalize, Find;
    LetterLine(text);
    NoColonFound(text);
  }

  /** A blank line is a blank line of prose, and ends whatever list was open. */
  lemma BlankLine(st: BodyState, blanks: string, keys: set<string>)
    requires Blank(blanks)
    ensures BodyStep(st, blanks, keys) == BodyState(st.body.(prose := st.body.prose + [""]), Closed)
  {
    TrimAll(blanks);
  }

  /** A known field, whatever stands after its first colon; the last of one name counts. */
  lemma FieldLine(st: BodyState, name: string, value: string, keys: set<string>)
    requires name != "" && IsAlpha(name[0]) && ':' !in name && Normalize(name) in keys
    ensures var after := BodyStep(st, name + ": " + value, keys).body;
            && Field(after, Normalize(name)) == Trim(value)
            && forall k | k != Normalize(name) :: Field(after, k) == Field(st.body, k)
  {
    hide Normalize, Trim, BodyStep;
    FieldStep(st, name, value, keys);
  }

  /** A label: at most forty characters, a bare colon last, before it a letter and then letters, digits, blanks,
      hyphens and underscores only. */
  lemma LabelIs(line: string)
    ensures IsLabel(line) <==>
              && 2 <= |line| <= 40 && line[|line| - 1] == ':'
              && ('a' <= line[0] <= 'z' || 'A' <= line[0] <= 'Z')
              && forall i | 0 <= i < |line| - 1 ::
                   'a' <= line[i] <= 'z' || 'A' <= line[i] <= 'Z' || '0' <= line[i] <= '9' || line[i] in " _-"
  {
  }

  // -- documents -----------------------------------------------------------------------------------

  /** One to six hashes, a blank and a name make a heading of that level; seven make none. */
  lemma HeadingIs(hashes: string, name: string, closing: string)
    requires hashes != "" && (forall i | 0 <= i < |hashes| :: hashes[i] == '#') && GoodName(name)
    requires closing == "" || (closing[0] == ' ' && forall i | 0 < i < |closing| :: closing[i] == '#')
    ensures Heading(hashes + " " + (name + closing)) == if |hashes| <= 6 then Some((|hashes|, name)) else None
  {
    hide Trim, DropReSpaceRight, DropHashRight;
    var s := name + closing;
    var line := hashes + " " + s;
    assert line == hashes + (" " + s) && line[|hashes|..] == " " + s;
    HashSpanOf(hashes, " " + s);
    assert (" " + s)[0] == ' ' && (" " + s)[1..] == s && s[0] == name[0];
    assert SkipReSpace(" " + s) == s;
    assert line[|hashes|] == ' ';
    ClosingDropped(name, closing);
    TrimmedStays(name);
  }

  /** The closing run of hashes and the blank before it are no part of the name. */
  lemma ClosingDropped(name: string, closing: string)
    requires GoodName(name)
    requires closing == "" || (closing[0] == ' ' && forall i | 0 < i < |closing| :: closing[i] == '#')
    ensures DropReSpaceRight(DropHashRight(DropReSpaceRight(name + closing))) == name
  {
    hide IsSpace;
    NoReSpaceRight(name);
    if closing == "" {
      assert name + closing == name;
    } else {
      SpaceDropped(name);
      if closing == " " {
        assert name + closing == name + " ";
      } else {
        var whole := name + closing;
        assert Last(whole) == Last(closing) == '#';
        assert DropReSpaceRight(whole) == whole;
        HashesDropped(name + " ", closing[1..]);
        assert whole == name + " " + closing[1..];
      }
    }
  }

  lemma SpaceDropped(name: string)
    requires GoodName(name)
    ensures DropReSpaceRight(name + " ") == name && DropHashRight(name) == name && DropReSpaceRight(name) == name
  {
    NoReSpaceRight(name);
    assert (name + " ")[..|name|] == name;
  }

  lemma {:induction false} HashesDropped(front: string, hashes: string)
    requires front != "" && Last(front) != '#' && forall i | 0 <= i < |hashes| :: hashes[i] == '#'
    ensures DropHashRight(front + hashes) == front
  {
    if hashes == "" {
      assert front + hashes == front;
    } else {
      assert (front + hashes)[..|front + hashes| - 1] == front + Front(hashes);
      HashesDropped(front, Front(hashes));
    }
  }

  /** What a line does to a document: the first heading of level one, above all sections, is its title; every other
      heading opens a section of its name; any other line belongs to the open section, or before the first to the
      preamble. */
  lemma DocumentLine(doc: Document, line: string, name: string)
    ensures Heading(line) == Some((1, name)) && doc.title == "" && doc.sections == [] ==>
              DocumentStep(doc, line) == doc.(title := name)
    ensures Heading(line) == Some((1, name)) && (doc.title != "" || doc.sections != []) ==>
              DocumentStep(doc, line) == doc.(sections := doc.sections + [SectionOf(name, [])])
    ensures Heading(line).Some? && Heading(line).value.0 > 1 ==>
              DocumentStep(doc, line) == doc.(sections := doc.sections + [SectionOf(Heading(line).value.1, [])])
    ensures Heading(line) == None && doc.sections == [] ==>
              DocumentStep(doc, line) == doc.(preamble := doc.preamble + [Trim(line)])
    ensures Heading(line) == None && doc.sections != [] ==>
              var open := Last(doc.sections);
              DocumentStep(doc, line) == doc.(sections := Front(doc.sections) + [open.(lines := open.lines + [line])])
  {
    hide Heading;
  }

  /** A byte order mark before the text is not read. */
  lemma MarkIsDropped(text: string)
    requires text == "" || text[0] != '\U{FEFF}'
    ensures Parsed("\U{FEFF}" + text) == Parsed(text)
  {
    hide ReadLines, UnixLines, Lines;
    assert ("\U{FEFF}" + text)[1..] == text;
  }

  // -- names ---------------------------------------------------------------------------------------

  lemma FoldsIs(c: char)
    ensures Folds(c) <==> c in "_- \t\n\r\U{000C}"
  {
  }

  lemma FoldFirst(s: string)
    requires s != ""
    ensures Fold(s) == if Folds(s[0]) then " " + Fold(DropFolding(s[1..])) else [s[0]] + Fold(s[1..])
  {
  }

  /** Every run of blanks, hyphens and underscores between two words becomes one space. */
  lemma {:induction false} RunIsOneSpace(a: string, run: string, b: string)
    requires run != "" && forall i | 0 <= i < |run| :: Folds(run[i])
    requires (a == "" || !Folds(Last(a))) && (b == "" || !Folds(b[0]))
    ensures Fold(a + run + b) == Fold(a) + " " + Fold(b)
    decreases |a|, 0
  {
    hide Fold, Folds, DropFolding;
    if a == "" {
      RunFirst(run, b);
    } else {
      TailOf(a, run, b);
      FoldFirst(a);
      FoldFirst(a + run + b);
      if Folds(a[0]) {
        RunIsOneSpaceAfter(a[1..], run, b);
      } else {
        RunIsOneSpace(a[1..], run, b);
        Apart([a[0]], Fold(a[1..]), Fold(b));
      }
    }
  }

  /** The same after a first blank, whose whole run is passed over. */
  lemma {:induction false} RunIsOneSpaceAfter(a: string, run: string, b: string)
    requires run != "" && forall i | 0 <= i < |run| :: Folds(run[i])
    requires a != "" && !Folds(Last(a)) && (b == "" || !Folds(b[0]))
    ensures " " + Fold(DropFolding(a + run + b)) == " " + Fold(DropFolding(a)) + " " + Fold(b)
    decreases |a|, 1
  {
    hide Fold, Folds, DropFolding;
    var rest := DropFolding(a);
    Together(a, run, b);
    FoldsThrough(a, run + b);
    LastStays(a);
    Together(rest, run, b);
    RunIsOneSpace(rest, run, b);
    Apart(" ", Fold(rest), Fold(b));
  }

  lemma RunFirst(run: string, b: string)
    requires run != "" && (forall i | 0 <= i < |run| :: Folds(run[i])) && (b == "" || !Folds(b[0]))
    ensures Fold("" + run + b) == Fold("") + " " + Fold(b)
  {
    hide Fold, Folds, DropFolding;
    WithNothing(run, b);
    WithNothing(" ", Fold(b));
    TailOf(run, b, "");
    assert run + b + "" == run + b && run[1..] + b + "" == run[1..] + b;
    FoldFirst(run + b);
    RunDropped(run[1..], b);
    NothingFolds();
  }

  lemma WithNothing(a: string, b: string)
    ensures "" + a + b == a + b
  {
  }

  lemma TailOf(a: string, run: string, b: string)
    requires a != ""
    ensures a + run + b != "" && (a + run + b)[0] == a[0] && (a + run + b)[1..] == a[1..] + run + b
    ensures |a| > 1 ==> a[1..] != "" && Last(a[1..]) == Last(a)
    ensures |a| == 1 ==> a[0] == Last(a) && a[1..] == ""
  {
  }

  lemma Together(a: string, b: string, c: string)
    ensures a + (b + c) == a + b + c
  {
  }

  lemma Apart(a: string, b: string, c: string)
    ensures a + (b + " " + c) == a + b + " " + c
  {
  }

  lemma LastStays(a: string)
    requires a != "" && !Folds(Last(a))
    ensures DropFolding(a) != "" && Last(DropFolding(a)) == Last(a)
  {
    DropFoldingShape(a);
  }

  lemma NothingFolds()
    ensures Fold("") == ""
  {
  }

  lemma {:induction false} RunDropped(run: string, b: string)
    requires (forall i | 0 <= i < |run| :: Folds(run[i])) && (b == "" || !Folds(b[0]))
    ensures DropFolding(run + b) == b
  {
    if run == "" {
      assert run + b == b;
    } else {
      assert (run + b)[1..] == run[1..] + b;
      RunDropped(run[1..], b);
    }
  }

  lemma {:induction false} FoldsThrough(a: string, rest: string)
    requires a != "" && !Folds(Last(a))
    ensures DropFolding(a + rest) == DropFolding(a) + rest
  {
    if Folds(a[0]) {
      assert (a + rest)[1..] == a[1..] + rest;
      FoldsThrough(a[1..], rest);
    }
  }

  /** Lowering changes the letters A to Z and nothing else. */
  lemma LowerIs(c: char)
    ensures Lower(c) == if 'A' <= c <= 'Z' then (c as int + 32) as char else c
  {
  }
}
