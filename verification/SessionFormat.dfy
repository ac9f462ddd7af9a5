/** The session document as written, chapter by chapter, and what restoring makes of sections that say less than
    rendering writes. */
module SessionFormat {
  import opened Options
  import opened Section
  import opened SessionStore
  import opened Text

  /** The summaries first, then the entries, the experience, the observed decisions in key order, the
      adaptations. */
  lemma ChaptersInOrder(codec: Codec, s: Session)
    ensures var all, keys := ChaptersOf(codec, s), SortedKeys(s.decisionCounts.Keys);
            var n, m := |s.compressed|, |s.compressed| + |s.working| + 1;
            && |all| == m + |keys| + |s.adaptations|
            && (forall i: nat | i < n :: all[i] == CompressedChapter(i, s.compressed[i]))
            && (forall i: nat | i < |s.working| :: all[n + i] == EntryChapter(codec, i, s.working[i]))
            && all[m - 1] == ExperienceChapter(s.observations)
            && (forall i: nat | i < |keys| :: all[m + i] == ObservedChapter(keys[i], s.decisionCounts[keys[i]]))
            && (forall i: nat | i < |s.adaptations| ::
                  all[m + |keys| + i] == AdaptationChapter(codec, s.adaptations[i]))
  {
    hide SortedKeys, CompressedChapter, EntryChapter, ExperienceChapter, ObservedChapter, AdaptationChapter;
    var keys := SortedKeys(s.decisionCounts.Keys);
    FiveInARow(CompressedChapters(s.compressed), EntryChapters(codec, s.working), [ExperienceChapter(s.observations)],
               ObservedChapters(s.decisionCounts, keys), AdaptationChapters(codec, s.adaptations));
  }

  lemma FiveInARow<T>(a: seq<T>, b: seq<T>, c: seq<T>, d: seq<T>, e: seq<T>)
    ensures var all := a + b + c + d + e;
            && |all| == |a| + |b| + |c| + |d| + |e|
            && (forall i: nat | i < |a| :: all[i] == a[i])
            && (forall i: nat | i < |b| :: all[|a| + i] == b[i])
            && (forall i: nat | i < |c| :: all[|a| + |b| + i] == c[i])
            && (forall i: nat | i < |d| :: all[|a| + |b| + |c| + i] == d[i])
            && (forall i: nat | i < |e| :: all[|a| + |b| + |c| + |d| + i] == e[i])
  {
  }

  /** The document is its head and then the chapters' pieces, joined by newlines. */
  lemma DocumentIs(codec: Codec, name: string, now: int, s: Session, chapters: seq<Chapter>, c: Chapter)
    ensures Rendered(codec, name, now, s)
         == Join(["# Session -- " + name, "", "Saved at: " + codec.showTime(now), ""] + PiecesOf(ChaptersOf(codec, s)))
    ensures PiecesOf([]) == [] && PiecesOf(chapters + [c]) == PiecesOf(chapters) + [c.hashes + " " + c.title] + c.body
  {
    hide ChaptersOf, Join;
    assert Front(chapters + [c]) == chapters;
    assert PiecesOf(chapters) + ([c.hashes + " " + c.title] + c.body)
        == PiecesOf(chapters) + [c.hashes + " " + c.title] + c.body;
  }

  /** A fact as it is written. */
  lemma FactIs(codec: Codec, key: string, v: Value)
    ensures FactLine(codec, key, v) == "- " + key + ": " + (match v
                                                           case Flag(on) => if on then "true" else "false"
                                                           case Num(x) => codec.showFact(x)
                                                           case Str(text) => text)
  {
  }

  /** A context is written below its label, a bullet for each fact in key order; an empty one not at all. */
  lemma ContextIs(codec: Codec, context: map<string, Value>)
    ensures |context| == 0 ==> ContextPieces(codec, context) == []
    ensures |context| > 0 ==>
              var keys, pieces := SortedKeys(context.Keys), ContextPieces(codec, context);
              && |pieces| == |keys| + 3 && pieces[0] == "Context:" && pieces[1] == "" && Last(pieces) == ""
              && forall i | 0 <= i < |keys| :: pieces[i + 2] == FactLine(codec, keys[i], context[keys[i]])
  {
    hide SortedKeys, FactLine;
  }

  /** A section is read by what its normalized name starts with; any other kind changes nothing. */
  lemma SectionKinds(codec: Codec, now: int, s: Session, section: SectionOf)
    ensures var key, after := Normalize(section.name), RestoreStep(codec, now, s, section);
            if "compressed" <= key then after == s.(compressed := s.compressed + [Unquoted(section.lines)])
            else if "entry" <= key then after == s.(working := s.working + [EntryOf(codec, now, section)])
            else if key == "experience" then after == s.(observations := after.observations)
            else if "observed" <= key then
              Unquoted(section.lines) in after.decisionCounts
              && after == s.(decisionCounts := s.decisionCounts[Unquoted(section.lines) :=
                                                 after.decisionCounts[Unquoted(section.lines)]])
            else if "adaptation" <= key then after == s.(adaptations := s.adaptations + [AdaptationOf(codec, section)])
            else after == s
  {
    hide Normalize, Unquoted, EntryOf, AdaptationOf, BodyOf;
  }

  /** What a field that is missing, blank or unreadable counts for: no observation, one decision, no evidence count,
      full confidence, no evidence without a basis, and the clock's reading for an instant. */
  lemma DefaultsAre(codec: Codec, now: int, s: Session, section: SectionOf)
    ensures Normalize(section.name) == "experience"
            && Atoi(Trim(Field(BodyOf(section.lines, {"observations"}), "observations"))) == None ==>
              RestoreStep(codec, now, s, section) == s.(observations := 0)
    ensures Normalize(section.name) == "observed decision"
            && Atoi(Trim(Field(BodyOf(section.lines, {"count"}), "count"))) == None ==>
              RestoreStep(codec, now, s, section)
                == s.(decisionCounts := s.decisionCounts[Unquoted(section.lines) := 1])
    ensures Atoi(Trim(Field(BodyOf(section.lines, ADAPTATION_KEYS), "evidence count"))) == None ==>
              AdaptationOf(codec, section).evidenceCount == 0
    ensures codec.readNumber(Trim(Field(BodyOf(section.lines, ADAPTATION_KEYS), "confidence"))) == None ==>
              AdaptationOf(codec, section).confidence == Float(0x3FF0_0000_0000_0000)
    ensures var e, body := EntryOf(codec, now, section), BodyOf(section.lines, ENTRY_KEYS);
            && (Field(body, "evidence basis") == "" <==> e.evidence == None)
            && (e.evidence.Some? && codec.readNumber(Trim(Field(body, "evidence confidence"))) == None ==>
                  e.evidence.value.confidence == Float(0x3FF0_0000_0000_0000))
            && (codec.readTime(Trim(Field(body, "timestamp"))) == None ==> e.timestamp == now)
  {
    hide Normalize, Unquoted, BodyOf, BlocksOf, ContextOf, Atoi, Trim, AdaptationName;
    ObservedIsItsKind();
  }

  lemma ObservedIsItsKind()
    ensures "observed" <= "observed decision"
    ensures !("compressed" <= "observed decision") && !("entry" <= "observed decision")
    ensures !("compressed" <= "experience") && !("entry" <= "experience")
  {
    assert "observed decision"[..8] == "observed";
    assert "compressed"[0] == 'c' && "entry"[1] == 'n' && "experience"[1] == 'x';
  }

  /** A whole number may carry either sign. */
  lemma SignedIntegers(digits: string)
    requires digits != "" && AllDigits(digits)
    ensures Atoi(digits) == Some(Number(digits)) && Atoi("+" + digits) == Some(Number(digits))
    ensures Atoi("-" + digits) == Some(-(Number(digits) as int))
  {
    assert ("+" + digits)[1..] == digits && ("-" + digits)[1..] == digits;
    assert IsDigit(digits[0]);
  }
}
