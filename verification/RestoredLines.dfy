/** What restoring can give at all: whatever the text, each name, field and list item comes from a
    single line of it. */
module RestoredLines {
  import opened Options
  import opened Quoting
  import opened Section
  import opened SectionFacts
  import opened SessionLines
  import opened SessionStore
  import opened Text

  predicate OneLiners(lines: seq<string>) { forall l | l in lines :: OneLine(l) }

  // -- parts of a line -----------------------------------------------------------------------------

  lemma {:induction false} SkippedOneLine(s: string)
    requires OneLine(s)
    ensures OneLine(SkipReSpace(s))
  {
    if s != "" && ReSpace(s[0]) {
      SkippedOneLine(s[1..]);
    }
  }

  lemma TrimOneLine(s: string)
    requires OneLine(s)
    ensures OneLine(Trim(s))
  {
    hide IsSpace;
    TrimRightShape(s);
    TrimLeftShape(TrimRight(s));
  }

  lemma {:induction false} DropHashOneLine(s: string)
    requires OneLine(s)
    ensures OneLine(DropHashRight(s))
  {
    if s != "" && Last(s) == '#' {
      DropHashOneLine(Front(s));
    }
  }

  lemma DropReSpaceOneLine(s: string)
    requires OneLine(s)
    ensures OneLine(DropReSpaceRight(s))
  {
    DropReSpaceShorter(s);
  }

  lemma HeadingOneLine(line: string)
    requires OneLine(line)
    ensures Heading(line).Some? ==> OneLine(Heading(line).value.1)
  {
    hide Trim, SkipReSpace, DropReSpaceRight, DropHashRight;
    var s := SkipReSpace(line[HashSpan(line)..]);
    SkippedOneLine(line[HashSpan(line)..]);
    DropReSpaceOneLine(s);
    DropHashOneLine(DropReSpaceRight(s));
    DropReSpaceOneLine(DropHashRight(DropReSpaceRight(s)));
    TrimOneLine(DropReSpaceRight(DropHashRight(DropReSpaceRight(s))));
  }

  lemma CutOneLine(s: string, sep: string)
    requires OneLine(s)
    ensures Cut(s, sep).Some? ==> OneLine(Cut(s, sep).value.0) && OneLine(Cut(s, sep).value.1)
  {
    hide Find;
  }

  // -- sections ------------------------------------------------------------------------------------

  predicate SectionFits(section: SectionOf) { OneLine(section.name) && OneLiners(section.lines) }

  predicate SectionsFit(sections: seq<SectionOf>) { forall x | x in sections :: SectionFits(x) }

  lemma {:induction false} SectionsReadFit(doc: Document, lines: seq<string>)
    requires SectionsFit(doc.sections) && OneLiners(lines)
    ensures SectionsFit(ReadLines(doc, lines).sections)
    decreases |lines|
  {
    hide Heading, OneLine;
    if lines != [] {
      assert lines[0] in lines && forall l | l in lines[1..] :: l in lines;
      HeadingOneLine(lines[0]);
      if doc.sections != [] {
        assert Last(doc.sections) in doc.sections && forall x | x in Front(doc.sections) :: x in doc.sections;
      }
      assert SectionsFit(DocumentStep(doc, lines[0]).sections);
      SectionsReadFit(DocumentStep(doc, lines[0]), lines[1..]);
    }
  }

  lemma ParsedFits(text: string)
    ensures SectionsFit(Parsed(text).sections)
  {
    hide Lines, ReadLines, UnixLines;
    LinesAreOneLine(UnixLines(WithoutMark(text)));
    SectionsReadFit(EMPTY_DOCUMENT, Lines(UnixLines(WithoutMark(text))));
  }

  // -- bodies --------------------------------------------------------------------------------------

  predicate BodyFits(body: Body) {
    OneLiners(body.bullets) && forall k | k in body.fields :: OneLine(body.fields[k])
  }

  lemma BulletOneLine(line: string)
    requires OneLine(line)
    ensures Bullet(line).Some? ==> OneLine(Bullet(line).value)
  {
    hide SkipReSpace;
    SkippedOneLine(line);
    var s := SkipReSpace(line);
    if s != "" {
      SkippedOneLine(s[1..]);
    }
  }

  lemma ContinuedFits(items: seq<string>, line: string)
    requires OneLiners(items) && OneLine(line)
    ensures OneLiners(ContinueLast(items, line))
  {
    hide Trim;
    TrimOneLine(line);
    if items != [] {
      assert Last(items) in items && forall x | x in Front(items) :: x in items;
    }
  }

  lemma BodyStepFits(st: BodyState, line: string, keys: set<string>)
    requires BodyFits(st.body) && OneLine(line)
    ensures BodyFits(BodyStep(st, line, keys).body)
  {
    hide Bullet, Numbered, Trim, ContinueLast, OneLine, Normalize, Cut;
    BulletOneLine(line);
    if Bullet(line).Some? {
      TrimOneLine(Bullet(line).value);
    }
    ContinuedFits(st.body.bullets, line);
    CutOneLine(line, ":");
    if Cut(line, ":").Some? {
      TrimOneLine(Cut(line, ":").value.1);
    }
  }

  lemma {:induction false} BodyReadFits(st: BodyState, lines: seq<string>, keys: set<string>)
    requires BodyFits(st.body) && OneLiners(lines)
    ensures BodyFits(ReadBody(st, lines, keys).body)
    decreases |lines|
  {
    hide BodyStep, BodyFits, OneLine;
    if lines != [] {
      assert lines[0] in lines && forall l | l in lines[1..] :: l in lines;
      BodyStepFits(st, lines[0], keys);
      BodyReadFits(BodyStep(st, lines[0], keys), lines[1..], keys);
    }
  }

  lemma BodyOfFits(lines: seq<string>, keys: set<string>)
    requires OneLiners(lines)
    ensures BodyFits(BodyOf(lines, keys))
  {
    hide ReadBody;
    BodyReadFits(EMPTY_BODY, lines, keys);
  }

  // -- entries and adaptations ---------------------------------------------------------------------

  predicate ValueFits(v: Value) { v.Str? ==> OneLine(v.text) }

  predicate ContextFits(context: map<string, Value>) {
    forall k | k in context :: OneLine(k) && ValueFits(context[k])
  }

  predicate EvidenceFits(evidence: Option<Evidence>) { evidence.Some? ==> OneLine(evidence.value.basis) }

  lemma CoercedFits(codec: Codec, text: string)
    requires OneLine(text)
    ensures ValueFits(Coerce(codec, text))
  {
    hide Trim, ToLower;
    TrimOneLine(text);
  }

  lemma {:induction false} ContextOfFits(codec: Codec, bullets: seq<string>)
    requires OneLiners(bullets)
    ensures ContextFits(ContextOf(codec, bullets))
  {
    hide Cut, Coerce, Trim, OneLine, ValueFits;
    if bullets != [] {
      assert Last(bullets) in bullets && forall b | b in Front(bullets) :: b in bullets;
      ContextOfFits(codec, Front(bullets));
      CutOneLine(Last(bullets), ": ");
      CutOneLine(Last(bullets), ":");
      match FactOf(Last(bullets)) {
        case None =>
        case Some((key, value)) =>
          TrimOneLine(key);
          CoercedFits(codec, value);
      }
    }
  }

  lemma EntryOfFits(codec: Codec, now: int, section: SectionOf)
    requires SectionFits(section)
    ensures ContextFits(EntryOf(codec, now, section).context) && EvidenceFits(EntryOf(codec, now, section).evidence)
  {
    hide BodyOf, BlocksOf, ContextOf, ContextFits, Trim;
    BodyOfFits(section.lines, ENTRY_KEYS);
    ContextOfFits(codec, BodyOf(section.lines, ENTRY_KEYS).bullets);
  }

  lemma AdaptationNameFits(heading: string)
    requires OneLine(heading)
    ensures OneLine(AdaptationName(heading))
  {
    hide Cut, Trim, OneLine;
    CutOneLine(heading, "--");
    if Cut(heading, "--").Some? {
      TrimOneLine(Cut(heading, "--").value.1);
    }
  }

  // -- whole sessions ------------------------------------------------------------------------------

  predicate SessionFits(s: Session) {
    && (forall e | e in s.working :: ContextFits(e.context) && EvidenceFits(e.evidence))
    && (forall a | a in s.adaptations :: OneLine(a.name))
  }

  lemma StepFits(codec: Codec, now: int, s: Session, section: SectionOf)
    requires SessionFits(s) && SectionFits(section)
    ensures SessionFits(RestoreStep(codec, now, s, section))
  {
    hide Normalize, Unquoted, EntryOf, BodyOf, AdaptationName, ContextFits, EvidenceFits, OneLine;
    EntryOfFits(codec, now, section);
    AdaptationNameFits(section.name);
  }

  lemma {:induction false} FoldFits(codec: Codec, now: int, s: Session, sections: seq<SectionOf>)
    requires SessionFits(s) && SectionsFit(sections)
    ensures SessionFits(RestoreFrom(codec, now, s, sections))
  {
    hide RestoreStep, SessionFits, SectionFits;
    if sections != [] {
      assert Last(sections) in sections && forall x | x in Front(sections) :: x in sections;
      FoldFits(codec, now, s, Front(sections));
      StepFits(codec, now, RestoreFrom(codec, now, s, Front(sections)), Last(sections));
    }
  }

  /** No text is restored to a key, a fact, an evidence basis or an adaptation's name of two lines. */
  lemma RestoredFits(codec: Codec, now: int, text: string)
    ensures SessionFits(Restored(codec, now, text))
  {
    hide RestoreFrom, Parsed;
    ParsedFits(text);
    FoldFits(codec, now, NOTHING, Parsed(text).sections);
  }
}
