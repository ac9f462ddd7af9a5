/** The session round trip: what restoring a rendered state gives, for every state whose unquoted
    texts each fit on a line. */
module SessionRoundTrip {
  import opened Folding
  import opened Options
  import opened Quoting
  import opened Section
  import opened SectionFacts
  import opened SessionChapters
  import opened SessionFacts
  import opened SessionLines
  import opened SessionSections
  import opened SessionStore
  import opened Text

  // -- numbered and named titles -------------------------------------------------------------------

  lemma DecimalClean(n: nat)
    ensures GoodName(Decimal(n))
  {
    ShownInt(n);
    NumberOfDecimal(n);
    assert IsDigit(Last(Decimal(n)));
  }

  lemma TitleClean(front: string, back: string)
    requires front != "" && !IsSpace(front[0]) && OneLine(front) && GoodName(back)
    ensures GoodName(front + back) && TitleKept(front + back) == front + back
  {
    hide TitleKept;
    assert Last(front + back) == Last(back);
    GoodTitleKept(front + back);
  }

  /** Section kinds are told apart by one character of their names. */
  lemma OtherKind(p: string, q: string, key: string, i: nat)
    requires p <= key && i < |p| && i < |q| && p[i] != q[i]
    ensures !(q <= key) && q != key
  {
    assert key[i] == p[i];
  }

  lemma GoodHeading(title: string)
    requires GoodName(title)
    ensures title != "" && !ReSpace(title[0]) && OneLine(title)
  {
  }

  // -- compressed summaries ------------------------------------------------------------------------

  lemma CompressedGood(i: nat, summary: string)
    ensures GoodChapter(CompressedChapter(i, summary))
    ensures Seen(BodyLines(CompressedChapter(i, summary))) == [""] + QuotedLinesOf(summary) + [""]
  {
    hide FlatLines, QuotedLinesOf, Quoted, Heading, Seen, TitleKept, GoodName;
    DecimalClean(i + 1);
    TitleClean("Compressed ", Decimal(i + 1));
    GoodHeading("Compressed " + Decimal(i + 1));
    QuotedBody([""], summary, [""]);
    BlankSeen();
    QuotesPlain(summary);
    BlankPlain();
  }

  lemma BlankSeen()
    ensures Seen([""]) == [""]
  {
    SeenOne("");
  }

  lemma CompressedStep(codec: Codec, now: int, s: Session, i: nat, summary: string)
    ensures RestoreStep(codec, now, s, SectionAs(CompressedChapter(i, summary)))
         == s.(compressed := s.compressed + [Shaved(summary)])
  {
    hide Normalize, Unquoted, QuotedLinesOf, BodyOf, EntryOf, AdaptationOf, BodyLines, CompressedChapter, UnquoteLine,
      Shaved, Seen, TitleKept;
    CompressedGood(i, summary);
    CompressedTitle(i, summary);
    BlankHoldsNothing();
    SectionText([""], summary, [""]);
  }

  lemma BlankHoldsNothing()
    ensures UnquoteLine("") == None
  {
  }

  lemma CompressedTitle(i: nat, summary: string)
    ensures "compressed" <= Normalize(TitleKept(CompressedChapter(i, summary).title))
  {
    hide Normalize, Trim, TitleKept;
    DecimalClean(i + 1);
    TitleClean("Compressed ", Decimal(i + 1));
    assert "Compressed " + Decimal(i + 1) == "Compressed" + (" " + Decimal(i + 1));
    NormalizeStarts("Compressed", "compressed", " " + Decimal(i + 1));
  }

  // -- entries -------------------------------------------------------------------------------------

  /** What an entry writes outside a blockquote fits on its line. */
  predicate EntryFits(codec: Codec, e: Entry) {
    && (e.evidence.Some? ==> OneLine(e.evidence.value.basis))
    && forall k | k in e.context :: OneLine(k) && OneLine(Show(codec, e.context[k]))
  }

  lemma EntryBody(codec: Codec, i: nat, e: Entry)
    requires CleanCodec(codec) && EntryFits(codec, e)
    ensures Seen(BodyLines(EntryChapter(codec, i, e))) == EntryLines(codec, e)
  {
    hide FlatLines, Quoted, EntryHead, ContextPieces, Show, EntryFits, QuotedLinesOf, OneLine, CleanCodec, Seen;
    var head, context := EntryHead(codec, e), ContextPieces(codec, e.context);
    EntryPiecesOneLine(codec, e);
    var intent := ["Intent:"] + [Quoted(e.intent)] + [""];
    var decision := ["Decision:"] + [Quoted(Show(codec, e.decision))] + [""];
    LabelsOneLine();
    LabelsSeen();
    QuotedBody(["Intent:"], e.intent, [""]);
    QuotedBody(["Decision:"], Show(codec, e.decision), [""]);
    FlatLinesAppend(head + intent + decision, context);
    FlatLinesAppend(head + intent, decision);
    FlatLinesAppend(head, intent);
    FlatLinesOfOneLiners(head);
    FlatLinesOfOneLiners(context);
    SeenAppend(head + FlatLines(intent) + FlatLines(decision), context);
    SeenAppend(head + FlatLines(intent), FlatLines(decision));
    SeenAppend(head, FlatLines(intent));
  }

  lemma LabelsOneLine()
    ensures OneLine("Intent:") && OneLine("Decision:") && OneLine("")
  {
  }

  lemma LabelsSeen()
    ensures Seen(["Intent:"]) == ["Intent:"] && Seen(["Decision:"]) == ["Decision:"] && Seen([""]) == [""]
  {
    SeenOne("Intent:");
    SeenOne("Decision:");
    SeenOne("");
  }

  lemma EntryPiecesOneLine(codec: Codec, e: Entry)
    requires CleanCodec(codec) && EntryFits(codec, e)
    ensures forall p | p in EntryHead(codec, e) :: OneLine(p)
    ensures forall p | p in ContextPieces(codec, e.context) :: OneLine(p)
  {
    hide SortedKeys, Show, FactLine, Trimmed;
    assert OneLine(codec.showTime(e.timestamp));
    if e.evidence.Some? {
      assert OneLine(codec.showNumber(e.evidence.value.confidence));
    }
    forall k | k in e.context
      ensures OneLine(FactLine(codec, k, e.context[k]))
    {
      FactOneLine(codec, k, e.context[k]);
    }
  }

  lemma FactOneLine(codec: Codec, key: string, v: Value)
    requires OneLine(key) && OneLine(Show(codec, v))
    ensures OneLine(FactLine(codec, key, v))
  {
    hide Show;
  }

  lemma SeenHeadless(lines: seq<string>)
    requires forall l | l in lines :: Heading(DropReturn(l)) == None
    ensures Headless(Seen(lines))
  {
    hide Heading, DropReturn;
    var seen := Seen(lines);
    forall l | l in seen
      ensures Heading(l) == None
    {
      var i :| 0 <= i < |seen| && seen[i] == l;
      assert lines[i] in lines;
    }
  }

  lemma LetterSeen(line: string)
    requires line != "" && IsAlpha(line[0])
    ensures Heading(DropReturn(line)) == None
  {
    hide Heading, Bullet, Numbered, Trim, UnquoteLine;
    LetterLine(DropReturn(line));
  }

  lemma EntryHeadless(codec: Codec, e: Entry)
    ensures Headless(EntryLines(codec, e))
  {
    hide Heading, EntryHead, ContextPieces, QuotedLinesOf, Show, Seen;
    QuotesPlain(e.intent);
    QuotesPlain(Show(codec, e.decision));
    BlankPlain();
    LabelsPlain();
    HeadHeadless(codec, e);
    ContextHeadless(codec, e.context);
  }

  lemma LabelsPlain()
    ensures Heading("Intent:") == None && Heading("Decision:") == None
  {
    hide Bullet, Numbered, Trim, UnquoteLine, Heading;
    LetterLine("Intent:");
    LetterLine("Decision:");
  }

  lemma HeadHeadless(codec: Codec, e: Entry)
    ensures Headless(Seen(EntryHead(codec, e)))
  {
    hide Heading, Seen, DropReturn;
    BlankPlain();
    LetterSeen("Timestamp: " + codec.showTime(e.timestamp));
    if e.evidence.Some? {
      LetterSeen("Evidence basis: " + e.evidence.value.basis);
      LetterSeen("Evidence confidence: " + codec.showNumber(e.evidence.value.confidence));
    }
    SeenHeadless(EntryHead(codec, e));
  }

  lemma ContextHeadless(codec: Codec, context: map<string, Value>)
    ensures Headless(Seen(ContextPieces(codec, context)))
  {
    hide Heading, Seen, DropReturn, FactLine, SortedKeys, Trim, Bullet;
    BlankPlain();
    LetterSeen("Context:");
    forall k | k in context
      ensures Heading(DropReturn(FactLine(codec, k, context[k]))) == None
    {
      FactLineIsBullet(codec, k, context[k]);
    }
    SeenHeadless(ContextPieces(codec, context));
  }

  lemma EntryTitle(codec: Codec, i: nat, e: Entry)
    ensures GoodName(EntryChapter(codec, i, e).title)
    ensures "entry" <= Normalize(TitleKept(EntryChapter(codec, i, e).title))
  {
    hide Normalize, Trim, TitleKept;
    DecimalClean(i + 1);
    TitleClean("Entry ", Decimal(i + 1));
    assert "Entry " + Decimal(i + 1) == "Entry" + (" " + Decimal(i + 1));
    NormalizeStarts("Entry", "entry", " " + Decimal(i + 1));
  }

  lemma EntryGood(codec: Codec, i: nat, e: Entry)
    requires CleanCodec(codec) && EntryFits(codec, e)
    ensures GoodChapter(EntryChapter(codec, i, e))
  {
    hide EntryFits, BodyLines, EntryLines, GoodName, Normalize, CleanCodec, Seen, Headless, EntryChapter, TitleKept;
    EntryTitle(codec, i, e);
    GoodHeading(EntryChapter(codec, i, e).title);
    EntryEnds(codec, i, e);
    EntryBody(codec, i, e);
    EntryHeadless(codec, e);
  }

  lemma EntryEnds(codec: Codec, i: nat, e: Entry)
    ensures EntryChapter(codec, i, e).hashes == "##"
    ensures EntryChapter(codec, i, e).body != [] && Last(EntryChapter(codec, i, e).body) == ""
  {
    hide Quoted, Show, SortedKeys, EntryHead, FactLines;
  }

  lemma EntryStep(codec: Codec, now: int, s: Session, i: nat, e: Entry)
    requires CleanCodec(codec) && EntryFits(codec, e)
    ensures RestoreStep(codec, now, s, SectionAs(EntryChapter(codec, i, e)))
         == s.(working := s.working + [KeptEntry(codec, now, e)])
  {
    hide Normalize, Unquoted, BodyOf, EntryOf, AdaptationOf, BodyLines, EntryChapter, EntryFits, CleanCodec, EntryLines,
      Seen, TitleKept, KeptEntry;
    var title := TitleKept(EntryChapter(codec, i, e).title);
    EntryTitle(codec, i, e);
    EntryBody(codec, i, e);
    OtherKind("entry", "compressed", Normalize(title), 0);
    EntryIsRead(codec, now, e, title);
  }

  // -- experience ----------------------------------------------------------------------------------

  lemma ExperienceGood(observations: int)
    ensures GoodChapter(ExperienceChapter(observations))
    ensures Seen(BodyLines(ExperienceChapter(observations))) == ["", "Observations" + ": " + ShowInt(observations), ""]
  {
    hide FlatLines, ShowInt, Heading, DropReturn;
    ShownInt(observations);
    var line := "Observations" + ": " + ShowInt(observations);
    assert line == "Observations: " + ShowInt(observations);
    assert OneLine(line);
    FlatLinesOfOneLiners(["", line, ""]);
    FieldPlain("Observations", ShowInt(observations));
    BlankPlain();
    SeenAsIs(["", line, ""]);
  }

  lemma ExperienceTitle()
    ensures Normalize(TitleKept("Experience")) == "experience"
  {
    hide Normalize, Trim, Settled, TitleKept;
    ExperienceLower();
    ExperienceSettled();
    GoodTitleKept("Experience");
    NormalizeIs("Experience", "experience");
  }

  lemma ExperienceLower()
    ensures ToLower("Experience") == "experience" && GoodName("Experience")
  {
  }

  lemma ExperienceSettled()
    ensures Settled("experience")
  {
  }

  lemma ExperienceStep(codec: Codec, now: int, s: Session, observations: int)
    ensures RestoreStep(codec, now, s, SectionAs(ExperienceChapter(observations)))
         == s.(observations := observations)
  {
    hide Normalize, Unquoted, BodyOf, EntryOf, AdaptationOf, ShowInt, Trim, Atoi, Seen, TitleKept, BodyLines;
    ExperienceGood(observations);
    ExperienceTitle();
    OtherKind("experience", "compressed", "experience", 0);
    OtherKind("experience", "entry", "experience", 1);
    ShownInt(observations);
    FieldNames();
    OneFieldRead("Observations", ShowInt(observations), {"observations"});
    TrimmedStays(ShowInt(observations));
  }

  // -- observed decisions --------------------------------------------------------------------------

  function ObservedHead(count: int): seq<string> { ["", "Count" + ": " + ShowInt(count), ""] }

  lemma ObservedGood(decision: string, count: int)
    ensures GoodChapter(ObservedChapter(decision, count))
    ensures Seen(BodyLines(ObservedChapter(decision, count))) == ObservedHead(count) + QuotedLinesOf(decision) + [""]
  {
    hide FlatLines, QuotedLinesOf, Quoted, ShowInt, Heading, DropReturn, Seen;
    ShownInt(count);
    CountLine(ShowInt(count));
    QuotedBody(ObservedHead(count), decision, [""]);
    FieldPlain("Count", ShowInt(count));
    QuotesPlain(decision);
    BlankPlain();
    SeenAsIs(ObservedHead(count));
    SeenAsIs([""]);
  }

  lemma CountLine(value: string)
    requires OneLine(value)
    ensures "Count" + ": " + value == "Count: " + value && OneLine("Count" + ": " + value)
  {
  }

  lemma ObservedTitle()
    ensures "observed" <= Normalize(TitleKept("Observed decision"))
  {
    hide Normalize, Trim, TitleKept;
    GoodTitleKept("Observed decision");
    assert "Observed decision" == "Observed" + " decision";
    NormalizeStarts("Observed", "observed", " decision");
  }

  lemma ObservedStep(codec: Codec, now: int, s: Session, decision: string, count: int)
    ensures RestoreStep(codec, now, s, SectionAs(ObservedChapter(decision, count)))
         == s.(decisionCounts := s.decisionCounts[Shaved(decision) := count])
  {
    hide Normalize, Unquoted, BodyOf, EntryOf, AdaptationOf, BodyLines, AtoiOr, Field, Seen, TitleKept, Shaved;
    ObservedTitle();
    var key := Normalize(TitleKept("Observed decision"));
    OtherKind("observed", "compressed", key, 0);
    OtherKind("observed", "entry", key, 0);
    OtherKind("observed", "experience", key, 0);
    ObservedFields(decision, count);
  }

  /** The decision is the quote's text, shaved, and its count the field's number. */
  lemma ObservedFields(decision: string, count: int)
    ensures var lines := Seen(BodyLines(ObservedChapter(decision, count)));
            && Unquoted(lines) == Shaved(decision)
            && AtoiOr(Field(BodyOf(lines, {"count"}), "count"), 1) == count
  {
    hide Normalize, Unquoted, BodyOf, BodyLines, ShowInt, Trim, Atoi, QuotedLinesOf, UnquoteLine, Seen, Shaved;
    ObservedGood(decision, count);
    ShownInt(count);
    FieldNames();
    var head := ObservedHead(count);
    OneFieldRead("Count", ShowInt(count), {"count"});
    SectionFields(head, decision, {"count"});
    BlankHoldsNothing();
    LetterHoldsNothing("Count" + ": " + ShowInt(count));
    SectionText(head, decision, [""]);
    TrimmedStays(ShowInt(count));
  }

  lemma LetterHoldsNothing(line: string)
    requires line != "" && IsAlpha(line[0])
    ensures UnquoteLine(line) == None
  {
    LetterLine(line);
  }

  // -- adaptations ---------------------------------------------------------------------------------

  function AdaptationHead(codec: Codec, a: Adaptation): seq<string> {
    ["", "Confidence" + ": " + codec.showNumber(a.confidence),
     "Evidence count" + ": " + ShowInt(a.evidenceCount), ""]
  }

  /** The adaptation that is read back. */
  function KeptAdaptation(codec: Codec, a: Adaptation): Adaptation {
    Adaptation(NameKept(a.name), Shaved(a.insight), KeptNumber(codec, a.confidence), a.evidenceCount)
  }

  lemma AdaptationHeadSeen(codec: Codec, a: Adaptation)
    requires CleanCodec(codec)
    ensures forall l | l in AdaptationHead(codec, a) :: OneLine(l) && Heading(l) == None && DropReturn(l) == l
  {
    hide ShowInt, Heading, DropReturn, IsSpace;
    ShownInt(a.evidenceCount);
    var show := codec.showNumber(a.confidence);
    assert Clean(show);
    FieldPlain("Confidence", show);
    FieldPlain("Evidence count", ShowInt(a.evidenceCount));
    BlankPlain();
  }

  lemma AdaptationGood(codec: Codec, a: Adaptation)
    requires CleanCodec(codec) && OneLine(a.name)
    ensures GoodChapter(AdaptationChapter(codec, a))
    ensures Seen(BodyLines(AdaptationChapter(codec, a))) == AdaptationHead(codec, a) + QuotedLinesOf(a.insight) + [""]
  {
    hide FlatLines, QuotedLinesOf, Quoted, ShowInt, Heading, DropReturn, Seen, CleanCodec;
    var head := AdaptationHead(codec, a);
    AdaptationHeadSeen(codec, a);
    AdaptationBody(codec, a);
    QuotedBody(head, a.insight, [""]);
    QuotesPlain(a.insight);
    BlankPlain();
    SeenAsIs(head);
    SeenAsIs([""]);
  }

  lemma AdaptationBody(codec: Codec, a: Adaptation)
    ensures AdaptationChapter(codec, a).body == AdaptationHead(codec, a) + [Quoted(a.insight)] + [""]
  {
    hide Quoted, ShowInt;
    assert forall s: string :: "Confidence" + ": " + s == "Confidence: " + s;
    assert forall s: string :: "Evidence count" + ": " + s == "Evidence count: " + s;
  }

  lemma AdaptationTitle(name: string)
    ensures "adaptation" <= Normalize(TitleKept("Adaptation -- " + name))
    ensures AdaptationName(TitleKept("Adaptation -- " + name)) == NameKept(name)
  {
    hide Normalize, Trim, TitleKept, Heading, AdaptationName;
    TitleOf("##", "Adaptation -- " + name);
    assert "##" + " " + ("Adaptation -- " + name) == "## Adaptation -- " + name;
    TitleStarts(name);
    TitleTrimmed("Adaptation -- " + name);
    var title := TitleKept("Adaptation -- " + name);
    assert title == "Adaptation" + title[10..];
    NormalizeStarts("Adaptation", "adaptation", title[10..]);
  }

  lemma TitleTrimmed(s: string)
    ensures Trimmed(TitleKept(s))
  {
    TrimIsTrimmed(DropReSpaceRight(DropHashRight(DropReSpaceRight(s))));
  }

  lemma AdaptationIsRead(codec: Codec, a: Adaptation)
    requires CleanCodec(codec)
    ensures var lines := AdaptationHead(codec, a) + QuotedLinesOf(a.insight) + [""];
            AdaptationOf(codec, SectionOf(TitleKept("Adaptation -- " + a.name), lines)) == KeptAdaptation(codec, a)
  {
    hide Normalize, Unquoted, BodyOf, ShowInt, Trim, Atoi, QuotedLinesOf, UnquoteLine, AdaptationName, TitleKept,
      Shaved, NameKept;
    AdaptationTitle(a.name);
    ShownInt(a.evidenceCount);
    FieldNames();
    var head, show := AdaptationHead(codec, a), codec.showNumber(a.confidence);
    assert Clean(show);
    TwoFieldsRead("Confidence", show, "Evidence count", ShowInt(a.evidenceCount), ADAPTATION_KEYS);
    SectionFields(head, a.insight, ADAPTATION_KEYS);
    BlankHoldsNothing();
    LetterHoldsNothing("Confidence" + ": " + show);
    LetterHoldsNothing("Evidence count" + ": " + ShowInt(a.evidenceCount));
    SectionText(head, a.insight, [""]);
    TrimmedStays(ShowInt(a.evidenceCount));
    TrimmedStays(show);
  }

  lemma AdaptationStep(codec: Codec, now: int, s: Session, a: Adaptation)
    requires CleanCodec(codec) && OneLine(a.name)
    ensures RestoreStep(codec, now, s, SectionAs(AdaptationChapter(codec, a)))
         == s.(adaptations := s.adaptations + [KeptAdaptation(codec, a)])
  {
    hide Normalize, Unquoted, BodyOf, EntryOf, BodyLines, AdaptationOf, AdaptationHead, CleanCodec, Seen, TitleKept,
      KeptAdaptation, AdaptationName, NameKept;
    AdaptationGood(codec, a);
    AdaptationTitle(a.name);
    var key := Normalize(TitleKept("Adaptation -- " + a.name));
    OtherKind("adaptation", "compressed", key, 0);
    OtherKind("adaptation", "entry", key, 0);
    OtherKind("adaptation", "experience", key, 0);
    OtherKind("adaptation", "observed", key, 0);
    AdaptationIsRead(codec, a);
  }

  // -- all sections, in order ----------------------------------------------------------------------

  lemma {:induction false} RestoreFromAppend(codec: Codec, now: int, s: Session, a: seq<SectionOf>, b: seq<SectionOf>)
    ensures RestoreFrom(codec, now, s, a + b) == RestoreFrom(codec, now, RestoreFrom(codec, now, s, a), b)
  {
    hide RestoreStep;
    if b == [] {
      assert a + b == a;
    } else {
      assert Front(a + b) == a + Front(b);
      RestoreFromAppend(codec, now, s, a, Front(b));
    }
  }

  lemma RestoreOneMore(codec: Codec, now: int, s: Session, chapters: seq<Chapter>, c: Chapter)
    ensures RestoreFrom(codec, now, s, SectionsAs(chapters + [c]))
         == RestoreStep(codec, now, RestoreFrom(codec, now, s, SectionsAs(chapters)), SectionAs(c))
  {
    hide RestoreStep, SectionAs;
    assert Front(SectionsAs(chapters + [c])) == SectionsAs(chapters);
  }

  lemma RestoreNone(codec: Codec, now: int, s: Session)
    ensures RestoreFrom(codec, now, s, SectionsAs([])) == s
  {
  }

  function KeptTexts(texts: seq<string>): (r: seq<string>)
    ensures |r| == |texts| && forall i | 0 <= i < |r| :: r[i] == Shaved(texts[i])
  {
    seq(|texts|, i requires 0 <= i < |texts| => Shaved(texts[i]))
  }

  lemma {:induction false} CompressedRestored(codec: Codec, now: int, s: Session, texts: seq<string>)
    ensures RestoreFrom(codec, now, s, SectionsAs(CompressedChapters(texts)))
         == s.(compressed := s.compressed + KeptTexts(texts))
  {
    hide RestoreFrom, RestoreStep, SectionAs, CompressedChapter, Shaved;
    if texts == [] {
      RestoreNone(codec, now, s);
      assert s.compressed + KeptTexts(texts) == s.compressed;
    } else {
      var i, t := |texts| - 1, Last(texts);
      assert CompressedChapters(texts) == CompressedChapters(Front(texts)) + [CompressedChapter(i, t)];
      CompressedRestored(codec, now, s, Front(texts));
      RestoreOneMore(codec, now, s, CompressedChapters(Front(texts)), CompressedChapter(i, t));
      var had := s.compressed + KeptTexts(Front(texts));
      CompressedStep(codec, now, s.(compressed := had), i, t);
      assert had + [Shaved(t)] == s.compressed + KeptTexts(texts);
    }
  }

  function KeptEntries(codec: Codec, now: int, working: seq<Entry>): (r: seq<Entry>)
    ensures |r| == |working| && forall i | 0 <= i < |r| :: r[i] == KeptEntry(codec, now, working[i])
  {
    seq(|working|, i requires 0 <= i < |working| => KeptEntry(codec, now, working[i]))
  }

  lemma {:induction false} EntriesRestored(codec: Codec, now: int, s: Session, working: seq<Entry>)
    requires CleanCodec(codec) && forall e | e in working :: EntryFits(codec, e)
    ensures RestoreFrom(codec, now, s, SectionsAs(EntryChapters(codec, working)))
         == s.(working := s.working + KeptEntries(codec, now, working))
  {
    hide RestoreFrom, RestoreStep, SectionAs, EntryChapter, EntryFits, KeptEntry, CleanCodec;
    if working == [] {
      RestoreNone(codec, now, s);
      assert s.working + KeptEntries(codec, now, working) == s.working;
    } else {
      var i, e := |working| - 1, Last(working);
      assert forall x | x in Front(working) :: x in working;
      assert EntryChapters(codec, working) == EntryChapters(codec, Front(working)) + [EntryChapter(codec, i, e)];
      EntriesRestored(codec, now, s, Front(working));
      RestoreOneMore(codec, now, s, EntryChapters(codec, Front(working)), EntryChapter(codec, i, e));
      var had := s.working + KeptEntries(codec, now, Front(working));
      EntryStep(codec, now, s.(working := had), i, e);
      assert had + [KeptEntry(codec, now, e)] == s.working + KeptEntries(codec, now, working);
    }
  }

  /** The counts of some decisions, under the texts that are read back: the last in order wins. */
  function KeptCounts(counts: map<string, int>, keys: seq<string>): map<string, int>
    requires forall k | k in keys :: k in counts
  {
    if keys == [] then map[]
    else
      assert forall k | k in Front(keys) :: k in keys;
      KeptCounts(counts, Front(keys))[Shaved(Last(keys)) := counts[Last(keys)]]
  }

  lemma {:induction false} ObservedRestored(codec: Codec, now: int, s: Session, counts: map<string, int>,
                                            keys: seq<string>)
    requires s.decisionCounts == map[] && forall k | k in keys :: k in counts
    ensures RestoreFrom(codec, now, s, SectionsAs(ObservedChapters(counts, keys)))
         == s.(decisionCounts := KeptCounts(counts, keys))
  {
    hide RestoreFrom, RestoreStep, SectionAs, ObservedChapter, Shaved;
    if keys == [] {
      RestoreNone(codec, now, s);
    } else {
      var key := Last(keys);
      assert key in keys && forall x | x in Front(keys) :: x in keys;
      assert ObservedChapters(counts, keys)
          == ObservedChapters(counts, Front(keys)) + [ObservedChapter(key, counts[key])];
      ObservedRestored(codec, now, s, counts, Front(keys));
      RestoreOneMore(codec, now, s, ObservedChapters(counts, Front(keys)), ObservedChapter(key, counts[key]));
      ObservedStep(codec, now, s.(decisionCounts := KeptCounts(counts, Front(keys))), key, counts[key]);
    }
  }

  function KeptAdaptations(codec: Codec, adaptations: seq<Adaptation>): (r: seq<Adaptation>)
    ensures |r| == |adaptations| && forall i | 0 <= i < |r| :: r[i] == KeptAdaptation(codec, adaptations[i])
  {
    seq(|adaptations|, i requires 0 <= i < |adaptations| => KeptAdaptation(codec, adaptations[i]))
  }

  lemma {:induction false} AdaptationsRestored(codec: Codec, now: int, s: Session, adaptations: seq<Adaptation>)
    requires CleanCodec(codec) && forall a | a in adaptations :: OneLine(a.name)
    ensures RestoreFrom(codec, now, s, SectionsAs(AdaptationChapters(codec, adaptations)))
         == s.(adaptations := s.adaptations + KeptAdaptations(codec, adaptations))
  {
    hide RestoreFrom, RestoreStep, SectionAs, AdaptationChapter, KeptAdaptation, CleanCodec, OneLine;
    if adaptations == [] {
      RestoreNone(codec, now, s);
      assert s.adaptations + KeptAdaptations(codec, adaptations) == s.adaptations;
    } else {
      var a := Last(adaptations);
      assert a in adaptations && forall x | x in Front(adaptations) :: x in adaptations;
      assert AdaptationChapters(codec, adaptations)
          == AdaptationChapters(codec, Front(adaptations)) + [AdaptationChapter(codec, a)];
      AdaptationsRestored(codec, now, s, Front(adaptations));
      RestoreOneMore(codec, now, s, AdaptationChapters(codec, Front(adaptations)), AdaptationChapter(codec, a));
      var had := s.adaptations + KeptAdaptations(codec, Front(adaptations));
      AdaptationStep(codec, now, s.(adaptations := had), a);
      assert had + [KeptAdaptation(codec, a)] == s.adaptations + KeptAdaptations(codec, adaptations);
    }
  }

  // -- what any state becomes ----------------------------------------------------------------------

  /** What a state writes outside a blockquote fits on its line. */
  predicate Fits(codec: Codec, s: Session) {
    && (forall e | e in s.working :: EntryFits(codec, e))
    && (forall a | a in s.adaptations :: OneLine(a.name))
  }

  /** The state that is read back. */
  function Kept(codec: Codec, now: int, s: Session): Session {
    Session(KeptTexts(s.compressed), KeptEntries(codec, now, s.working), s.observations,
            KeptCounts(s.decisionCounts, SortedKeys(s.decisionCounts.Keys)), KeptAdaptations(codec, s.adaptations))
  }

  lemma ChaptersGood(codec: Codec, s: Session)
    requires CleanCodec(codec) && Fits(codec, s)
    ensures forall c | c in ChaptersOf(codec, s) :: GoodChapter(c)
  {
    hide GoodChapter, EntryFits, CompressedChapter, EntryChapter, ObservedChapter, AdaptationChapter, ExperienceChapter,
      SortedKeys, CleanCodec, OneLine;
    forall i: nat | i < |s.compressed|
      ensures GoodChapter(CompressedChapter(i, s.compressed[i]))
    {
      CompressedGood(i, s.compressed[i]);
    }
    forall i: nat | i < |s.working|
      ensures GoodChapter(EntryChapter(codec, i, s.working[i]))
    {
      assert s.working[i] in s.working;
      EntryGood(codec, i, s.working[i]);
    }
    forall d | d in s.decisionCounts
      ensures GoodChapter(ObservedChapter(d, s.decisionCounts[d]))
    {
      ObservedGood(d, s.decisionCounts[d]);
    }
    forall a | a in s.adaptations
      ensures GoodChapter(AdaptationChapter(codec, a))
    {
      AdaptationGood(codec, a);
    }
    ExperienceGood(s.observations);
  }

  /** Rendering and restoring turns every state that fits its lines into the kept one, for any one-line
      runtime name. */
  lemma RestoredIsKept(codec: Codec, name: string, saved: int, now: int, s: Session)
    requires CleanCodec(codec) && Fits(codec, s) && OneLine(name)
    ensures Restored(codec, now, Rendered(codec, name, saved, s)) == Kept(codec, now, s)
  {
    hide GoodChapter, EntryFits, RestoreFrom, Parsed, Join, HeadPieces, PiecesOf, CompressedChapters, EntryChapters,
      ObservedChapters, AdaptationChapters, ExperienceChapter, SortedKeys, CleanCodec, SectionsAs, KeptEntries,
      KeptTexts, KeptCounts, KeptAdaptations, RestoreStep, SectionAs, OneLine;
    ChaptersGood(codec, s);
    DocumentRead(codec, name, saved, ChaptersOf(codec, s));
    var keys := SortedKeys(s.decisionCounts.Keys);
    var a, b := CompressedChapters(s.compressed), EntryChapters(codec, s.working);
    var c := [ExperienceChapter(s.observations)];
    var d, e := ObservedChapters(s.decisionCounts, keys), AdaptationChapters(codec, s.adaptations);
    SectionsAppend(a + b + c + d, e);
    SectionsAppend(a + b + c, d);
    SectionsAppend(a + b, c);
    SectionsAppend(a, b);
    var s0 := NOTHING;
    var (ra, rb, rc, rd, re) := (SectionsAs(a), SectionsAs(b), SectionsAs(c), SectionsAs(d), SectionsAs(e));
    RestoreFromAppend(codec, now, s0, ra + rb + rc + rd, re);
    RestoreFromAppend(codec, now, s0, ra + rb + rc, rd);
    RestoreFromAppend(codec, now, s0, ra + rb, rc);
    RestoreFromAppend(codec, now, s0, ra, rb);
    CompressedRestored(codec, now, s0, s.compressed);
    var s1 := s0.(compressed := s0.compressed + KeptTexts(s.compressed));
    EntriesRestored(codec, now, s1, s.working);
    var s2 := s1.(working := s1.working + KeptEntries(codec, now, s.working));
    RestoreOneMore(codec, now, s2, [], ExperienceChapter(s.observations));
    RestoreNone(codec, now, s2);
    ExperienceStep(codec, now, s2, s.observations);
    assert [] + c == c;
    var s3 := s2.(observations := s.observations);
    ObservedRestored(codec, now, s3, s.decisionCounts, keys);
    var s4 := s3.(decisionCounts := KeptCounts(s.decisionCounts, keys));
    AdaptationsRestored(codec, now, s4, s.adaptations);
  }

  lemma SectionsAppend(a: seq<Chapter>, b: seq<Chapter>)
    ensures SectionsAs(a + b) == SectionsAs(a) + SectionsAs(b)
  {
    hide SectionAs;
  }
}
