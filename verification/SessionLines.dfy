/** The lines the session codec writes, one kind at a time, and what the section parser makes of
    each. */
module SessionLines {
  import opened Folding
  import opened Options
  import opened Quoting
  import opened Section
  import opened SectionFacts
  import opened SessionStore
  import opened Text

  // -- well-formed values --------------------------------------------------------------------------

  /** A single line with neither end blank, not empty. */
  predicate Clean(s: string) { s != "" && Trimmed(s) && OneLine(s) }

  /** What the library writes is one word on a line. */
  ghost predicate CleanCodec(codec: Codec) {
    && (forall t :: Clean(codec.showTime(t)))
    && (forall x :: Clean(codec.showNumber(x)))
    && (forall x :: Clean(codec.showFact(x)))
  }

  /** The number a number's text is read back as. */
  function KeptNumber(codec: Codec, x: Float): Float {
    match codec.readNumber(codec.showNumber(x)) case Some(y) => y case None => ONE
  }

  /** The instant an instant's text is read back as: the clock's when it is unreadable. */
  function KeptTime(codec: Codec, now: int, t: int): int {
    match codec.readTime(codec.showTime(t)) case Some(u) => u case None => now
  }

  /** A codec that writes instants and bits as decimal integers is clean and keeps every value. */
  lemma DecimalCodecKeepsAll(codec: Codec)
    requires codec.showTime == ShowInt && codec.readTime == Atoi
    requires codec.showNumber == ((x: Float) => ShowInt(x.bits)) && codec.showFact == codec.showNumber
    requires codec.readNumber == ((s: string) => if Atoi(s).Some? then Some(Float(Atoi(s).value)) else None)
    ensures CleanCodec(codec)
    ensures forall x :: KeptNumber(codec, x) == x
    ensures forall now, t :: KeptTime(codec, now, t) == t
  {
    hide Atoi, ShowInt;
    forall n: int
      ensures Atoi(ShowInt(n)) == Some(n) && Clean(ShowInt(n))
    {
      ShownInt(n);
    }
  }

  /** The name survives its heading: see AdaptationNameKept. */
  predicate GoodName(name: string) { Clean(name) && Last(name) != '#' }

  // -- integers ------------------------------------------------------------------------------------

  lemma DigitShape(c: char)
    requires IsDigit(c)
    ensures !IsSpace(c) && c != '\n' && c != '-' && c != '+'
  {
  }

  lemma DecimalShape(m: nat)
    ensures AllDigits(Decimal(m)) && Clean(Decimal(m)) && Decimal(m)[0] != '-' && Decimal(m)[0] != '+'
  {
    hide IsDigit, IsSpace, Decimal;
    NumberOfDecimal(m);
    var digits := Decimal(m);
    forall i | 0 <= i < |digits|
      ensures !IsSpace(digits[i]) && digits[i] != '\n' && digits[i] != '-' && digits[i] != '+'
    {
      DigitShape(digits[i]);
    }
  }

  lemma ShownInt(n: int)
    ensures Atoi(ShowInt(n)) == Some(n) && Clean(ShowInt(n))
  {
    hide IsDigit, IsSpace, Decimal, Number;
    var m: nat := if n < 0 then -n else n;
    var digits := Decimal(m);
    NumberOfDecimal(m);
    DecimalShape(m);
    if n < 0 {
      assert ("-" + digits)[1..] == digits && Last("-" + digits) == Last(digits);
      SignIsNoSpace();
    }
  }

  lemma SignIsNoSpace()
    ensures !IsSpace('-')
  {
  }

  // -- field lines ---------------------------------------------------------------------------------

  /** What the readers make of a line that starts with a letter. */
  lemma LetterLine(line: string)
    requires line != "" && IsAlpha(line[0])
    ensures Heading(line) == None && Bullet(line) == None && Numbered(line) == None
    ensures !StartsIndented(line) && Trim(line) != "" && !(">" <= Trim(line)) && UnquoteLine(line) == None
  {
    TrimRightKeepsFront(line[..1], line[1..]);
    assert line == line[..1] + line[1..];
    assert Trim(line)[0] == line[0];
    assert SkipReSpace(line) == line && DigitSpan(line) == 0;
  }

  lemma TrimSpaced(value: string)
    requires Clean(value)
    ensures Trim(" " + value) == value
  {
    TrimRightOfBoth(" ", value);
    assert TrimRight(value) == value && TrimLeft(value) == value;
    assert (" " + value)[0] == ' ' && (" " + value)[1..] == value;
  }

  lemma FieldCut(name: string, value: string)
    requires ':' !in name
    ensures FieldOf(name + ": " + value) == Some((Normalize(name), Trim(value)))
  {
    hide Normalize, Trim, Cut;
    assert name + ": " + value == name + ":" + (" " + value);
    CutAfter(name, ":", " " + value);
    SpaceTrimmed(' ', value);
    assert [' '] + value == " " + value;
  }

  lemma SpaceTrimmed(c: char, value: string)
    requires IsSpace(c)
    ensures Trim([c] + value) == Trim(value)
  {
    hide IsSpace;
    TrimRightOfBoth([c], value);
    assert TrimRight([c]) == "" by {
      assert [c][..0] == "";
    }
    if TrimRight(value) != "" {
      assert ([c] + TrimRight(value))[1..] == TrimRight(value);
    }
  }

  /** A known field's line sets that field and nothing else. */
  lemma FieldStep(st: BodyState, name: string, value: string, keys: set<string>)
    requires name != "" && IsAlpha(name[0]) && ':' !in name && Normalize(name) in keys
    ensures BodyStep(st, name + ": " + value, keys)
         == BodyState(st.body.(fields := st.body.fields[Normalize(name) := Trim(value)]), Closed)
  {
    hide Normalize, Bullet, Numbered, Trim, FieldOf, UnquoteLine, Heading, IsLabel;
    LetterLine(name + ": " + value);
    FieldCut(name, value);
  }

  /** A field's line without a carriage return is the line of its value without one. */
  lemma SeenField(name: string, value: string)
    ensures DropReturn(name + ": " + value) == name + ": " + DropReturn(value)
    ensures Trim(DropReturn(value)) == Trim(value)
  {
    hide Trim;
    DropReturnTrims(value);
    if value != "" {
      assert Front(name + ": " + value) == name + ": " + Front(value);
    }
  }

  // -- headings ------------------------------------------------------------------------------------

  /** What a heading keeps of its text. */
  function TitleKept(s: string): string { Trim(DropReSpaceRight(DropHashRight(DropReSpaceRight(s)))) }

  lemma TitleOf(hashes: string, s: string)
    requires hashes == "##" || hashes == "###"
    requires s != "" && !ReSpace(s[0])
    ensures Heading(hashes + " " + s) == Some((|hashes|, TitleKept(s)))
  {
    hide Trim, DropReSpaceRight, DropHashRight;
    var line := hashes + " " + s;
    assert line == hashes + (" " + s) && line[|hashes|..] == " " + s;
    HashSpanOf(hashes, " " + s);
    assert (" " + s)[0] == ' ' && (" " + s)[1..] == s;
    assert SkipReSpace(" " + s) == s;
    assert line[|hashes|] == ' ';
  }

  /** A heading is the same without a carriage return at its end. */
  lemma SeenHeading(hashes: string, s: string)
    requires hashes == "##" || hashes == "###"
    requires s != "" && !ReSpace(s[0])
    ensures Heading(DropReturn(hashes + " " + s)) == Some((|hashes|, TitleKept(s)))
  {
    hide Trim, DropHashRight, Heading;
    if Last(s) == '\r' {
      assert Front(hashes + " " + s) == hashes + " " + Front(s);
      TitleOf(hashes, Front(s));
      assert DropReSpaceRight(s) == DropReSpaceRight(Front(s));
    } else {
      TitleOf(hashes, s);
    }
  }

  lemma GoodTitleKept(title: string)
    requires GoodName(title)
    ensures TitleKept(title) == title
  {
    NoReSpaceRight(title);
    TrimmedStays(title);
  }

  lemma {:induction false} HashSpanOf(hashes: string, rest: string)
    requires forall i | 0 <= i < |hashes| :: hashes[i] == '#'
    requires rest == "" || rest[0] != '#'
    ensures HashSpan(hashes + rest) == |hashes|
  {
    if hashes == "" {
      assert hashes + rest == rest;
    } else {
      assert (hashes + rest)[1..] == hashes[1..] + rest;
      HashSpanOf(hashes[1..], rest);
    }
  }

  /** What an adaptation's heading gives back as its name. */
  function NameKept(name: string): string {
    var heading := Heading("## Adaptation -- " + name);
    if heading.Some? then AdaptationName(heading.value.1) else ""
  }

  lemma {:induction false} DropHashAfter(front: string, name: string)
    requires front != "" && Last(front) != '#'
    ensures DropHashRight(front + name) == front + DropHashRight(name)
  {
    if name == "" {
      assert front + name == front;
    } else if Last(name) == '#' {
      assert (front + name)[..|front + name| - 1] == front + Front(name);
      DropHashAfter(front, Front(name));
    }
  }

  lemma {:induction false} DropHashShorter(name: string)
    requires name != "" && Last(name) == '#'
    ensures |DropHashRight(name)| < |name| && DropHashRight(name) <= name
  {
    if Front(name) != "" && Last(Front(name)) == '#' {
      DropHashShorter(Front(name));
    }
  }

  lemma {:induction false} DropReSpaceShorter(s: string)
    ensures DropReSpaceRight(s) <= s
  {
    if s != "" && ReSpace(s[|s| - 1]) {
      DropReSpaceShorter(Front(s));
    }
  }

  /** A single-line name comes back from its heading exactly when it is non-empty, has no blank at
      either end and does not end in a hash: blanks are trimmed, an empty name leaves the heading
      itself, and trailing hashes read as the heading's closing run. */
  lemma AdaptationNameKept(name: string)
    requires OneLine(name)
    ensures NameKept(name) == name <==> GoodName(name)
  {
    hide NameKept, Trimmed;
    NameKeptIsTrimmed(name);
    if Clean(name) {
      CleanNameKept(name);
    }
  }

  /** One hash after a good name is lost. */
  lemma OneHashIsLost(name: string)
    requires GoodName(name)
    ensures NameKept(name + "#") == name
  {
    hide Heading, Trim, DropReSpaceRight, DropHashRight, AdaptationName;
    var title := "Adaptation -- " + name;
    var s := "Adaptation -- " + (name + "#");
    assert s == title + "#" && "##" + " " + s == "## Adaptation -- " + (name + "#");
    TitleOf("##", s);
    NoReSpaceRight(s);
    LastHashDropped(title);
    GoodTitle(name);
    NoReSpaceRight(title);
    TrimmedStays(title);
    NameAfterDashes(name);
  }

  lemma LastHashDropped(s: string)
    requires s != "" && Last(s) != '#'
    ensures DropHashRight(s + "#") == s
  {
    assert (s + "#")[..|s|] == s;
  }

  /** The name "x#" comes back as "x". */
  lemma HashedName()
    ensures NameKept("x#") == "x"
  {
    hide NameKept;
    assert "x" + "#" == "x#" && GoodName("x");
    OneHashIsLost("x");
  }

  /** Whatever the heading was, the name read from it is non-empty and trimmed. */
  lemma NameKeptIsTrimmed(name: string)
    ensures NameKept(name) != "" && Trimmed(NameKept(name))
  {
    hide Heading, Trim, DropReSpaceRight, DropHashRight, Cut;
    var s := "Adaptation -- " + name;
    assert "##" + " " + s == "## Adaptation -- " + name;
    TitleOf("##", s);
    var title := Heading("## Adaptation -- " + name).value.1;
    TitleStarts(name);
    TrimIsTrimmed(DropReSpaceRight(DropHashRight(DropReSpaceRight(s))));
    if Cut(title, "--").Some? {
      TrimIsTrimmed(Cut(title, "--").value.1);
    }
  }

  lemma TitleStarts(name: string)
    ensures "Adaptation --" <= TitleKept("Adaptation -- " + name)
  {
    hide Trim, DropReSpaceRight, DropHashRight;
    var front, s := "Adaptation --", "Adaptation -- " + name;
    assert s == front + (" " + name);
    DropReSpaceAfter(front, " " + name);
    var kept := DropReSpaceRight(" " + name);
    DropHashAfter(front, kept);
    DropReSpaceAfter(front, DropHashRight(kept));
    TrimKeepsFront(front, DropReSpaceRight(DropHashRight(kept)));
  }

  lemma TrimKeepsFront(front: string, rest: string)
    requires front != "" && !IsSpace(front[0]) && !IsSpace(Last(front))
    ensures front <= Trim(front + rest)
  {
    TrimRightKeepsFront(front, rest);
  }

  lemma CleanNameKept(name: string)
    requires Clean(name)
    ensures NameKept(name) == name <==> Last(name) != '#'
  {
    hide NameKept, IsSpace, Trimmed;
    if Last(name) != '#' {
      GoodNameKept(name);
    } else {
      HashedNameIsLost(name);
    }
  }

  lemma GoodNameKept(name: string)
    requires GoodName(name)
    ensures NameKept(name) == name
  {
    hide Heading, TitleKept, AdaptationName, Clean;
    var title := "Adaptation -- " + name;
    GoodTitle(name);
    assert title != "" && !ReSpace(title[0]);
    TitleOf("##", title);
    GoodTitleKept(title);
    assert "##" + " " + title == "## Adaptation -- " + name;
    NameAfterDashes(name);
  }

  lemma GoodTitle(name: string)
    requires GoodName(name)
    ensures GoodName("Adaptation -- " + name)
  {
    assert Last("Adaptation -- " + name) == Last(name);
  }

  lemma NameAfterDashes(name: string)
    requires Clean(name)
    ensures AdaptationName("Adaptation -- " + name) == name
  {
    assert "Adaptation -- " + name == "Adaptation " + "--" + (" " + name);
    CutAfter("Adaptation ", "--", " " + name);
    TrimSpaced(name);
  }

  lemma HashedNameIsLost(name: string)
    requires Clean(name) && Last(name) == '#'
    ensures NameKept(name) != name
  {
    hide Heading, AdaptationName;
    var line := "## Adaptation -- " + name;
    HashedHeading(name);
    if Heading(line).Some? {
      var title := Heading(line).value.1;
      ShortTitle(title, name);
    }
  }

  /** The title keeps its front and loses the run of hashes. */
  lemma HashedHeading(name: string)
    requires Clean(name) && Last(name) == '#'
    ensures Heading("## Adaptation -- " + name).Some? ==>
              var title := Heading("## Adaptation -- " + name).value.1;
              Trimmed(title) && |title| < 14 + |name| && title <= "Adaptation -- " + name && "Adaptation --" <= title
  {
    hide Heading, Trim, DropReSpaceRight, DropHashRight;
    var s := "Adaptation -- " + name;
    assert "##" + " " + s == "## Adaptation -- " + name;
    TitleOf("##", s);
    NoReSpaceRight(s);
    DropHashAfter("Adaptation -- ", name);
    DropHashShorter(name);
    KeepsDashes(DropHashRight(name));
    TrimIsTrimmed(DropReSpaceRight("Adaptation -- " + DropHashRight(name)));
  }

  lemma NoReSpaceRight(s: string)
    requires s != "" && !IsSpace(Last(s))
    ensures DropReSpaceRight(s) == s
  {
  }

  lemma KeepsDashes(rest: string)
    ensures var title := Trim(DropReSpaceRight("Adaptation -- " + rest));
            title <= "Adaptation -- " + rest && "Adaptation --" <= title
  {
    var s := "Adaptation -- " + rest;
    assert s == "Adaptation --" + (" " + rest);
    DropReSpaceAfter("Adaptation --", " " + rest);
    DropReSpaceShorter(" " + rest);
    var kept := DropReSpaceRight(" " + rest);
    TrimRightKeepsFront("Adaptation --", kept);
    TrimRightShape(kept);
  }

  lemma {:induction false} DropReSpaceAfter(front: string, rest: string)
    requires front != "" && !ReSpace(Last(front))
    ensures DropReSpaceRight(front + rest) == front + DropReSpaceRight(rest)
  {
    if rest == "" {
      assert front + rest == front;
    } else if ReSpace(Last(rest)) {
      assert (front + rest)[..|front + rest| - 1] == front + Front(rest);
      DropReSpaceAfter(front, Front(rest));
    }
  }

  lemma ShortTitle(title: string, name: string)
    requires name != "" && Last(name) == '#'
    requires Trimmed(title) && |title| < 14 + |name|
    requires title <= "Adaptation -- " + name && "Adaptation --" <= title
    ensures AdaptationName(title) != name
  {
    hide Trim;
    var rest := title[13..];
    assert title == "Adaptation " + "--" + rest;
    CutAfter("Adaptation ", "--", rest);
    if rest == "" {
      assert Last(title) == '-' && Trim("") == "" by {
        TrimAll("");
      }
    } else {
      assert rest[0] == title[13] == ("Adaptation -- " + name)[13] == ' ';
      assert Last(rest) == Last(title);
      TrimSpacedShorter(rest);
    }
  }

  lemma TrimSpacedShorter(rest: string)
    requires rest != "" && rest[0] == ' ' && !IsSpace(Last(rest))
    ensures Trim(rest) != "" && |Trim(rest)| < |rest|
  {
    TrimLeftShape(rest[1..]);
    TrimLeftShape(rest);
  }
}
