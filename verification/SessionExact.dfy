/** When the session round trip is exact: the states that come back as they were, and no others. */
module SessionExact {
  import opened Options
  import opened Quoting
  import opened RestoredLines
  import opened Section
  import opened SessionFacts
  import opened SessionLines
  import opened SessionRoundTrip
  import opened SessionSections
  import opened SessionStore
  import opened Text

  /** An entry with its decision turned into a string, as markdown holds it. */
  function AsString(codec: Codec, e: Entry): Entry { e.(decision := Str(Show(codec, e.decision))) }

  function AsStrings(codec: Codec, working: seq<Entry>): (r: seq<Entry>)
    ensures |r| == |working| && forall i | 0 <= i < |r| :: r[i] == AsString(codec, working[i])
  {
    seq(|working|, i requires 0 <= i < |working| => AsString(codec, working[i]))
  }

  // -- what lasts ----------------------------------------------------------------------------------

  predicate EvidenceLasts(codec: Codec, evidence: Option<Evidence>) {
    match evidence
    case Some(ev) =>
      ev.basis != "" && Trimmed(ev.basis) && KeptNumber(codec, ev.confidence) == ev.confidence
    case None => true
  }

  predicate EntryLasts(codec: Codec, now: int, e: Entry) {
    && NoTrailingBlanks(e.intent) && NoTrailingBlanks(Show(codec, e.decision))
    && ContextLasts(codec, e.context) && EvidenceLasts(codec, e.evidence)
    && KeptTime(codec, now, e.timestamp) == e.timestamp
  }

  predicate AdaptationLasts(codec: Codec, a: Adaptation) {
    GoodName(a.name) && NoTrailingBlanks(a.insight) && KeptNumber(codec, a.confidence) == a.confidence
  }

  /** No quoted line ends in a blank, no fact looks like another kind of fact, names and keys can be
      told from what surrounds them, and numbers and instants are read back. */
  predicate Lasts(codec: Codec, now: int, s: Session) {
    && (forall t | t in s.compressed :: NoTrailingBlanks(t))
    && (forall e | e in s.working :: EntryLasts(codec, now, e))
    && (forall d | d in s.decisionCounts :: NoTrailingBlanks(d))
    && (forall a | a in s.adaptations :: AdaptationLasts(codec, a))
  }

  // -- layer by layer ------------------------------------------------------------------------------

  lemma TextsKept(texts: seq<string>)
    ensures KeptTexts(texts) == texts <==> forall t | t in texts :: NoTrailingBlanks(t)
  {
    hide Shaved, NoTrailingBlanks;
    forall i | 0 <= i < |texts|
      ensures Shaved(texts[i]) == texts[i] <==> NoTrailingBlanks(texts[i])
    {
      ShavedSame(texts[i]);
    }
    if KeptTexts(texts) == texts {
      assert forall i | 0 <= i < |texts| :: texts[i] == KeptTexts(texts)[i];
    } else {
      var i :| 0 <= i < |texts| && KeptTexts(texts)[i] != texts[i];
      assert texts[i] in texts;
    }
  }

  lemma EvidenceKept(codec: Codec, evidence: Option<Evidence>)
    ensures KeptEvidence(codec, evidence) == evidence <==> EvidenceLasts(codec, evidence)
  {
    hide Trim, KeptNumber;
    if evidence.Some? {
      TrimIsTrimmed(evidence.value.basis);
      if Trimmed(evidence.value.basis) {
        TrimmedStays(evidence.value.basis);
      }
    }
  }

  lemma EntryKept(codec: Codec, now: int, e: Entry)
    requires CleanCodec(codec)
    ensures KeptEntry(codec, now, e) == AsString(codec, e) <==> EntryLasts(codec, now, e)
  {
    hide Shaved, NoTrailingBlanks, Show, KeptContext, ContextLasts, KeptEvidence, EvidenceLasts, KeptTime, CleanCodec;
    ShavedSame(e.intent);
    ShavedSame(Show(codec, e.decision));
    ContextKept(codec, e.context);
    EvidenceKept(codec, e.evidence);
  }

  lemma EntriesKept(codec: Codec, now: int, working: seq<Entry>)
    requires CleanCodec(codec)
    ensures KeptEntries(codec, now, working) == AsStrings(codec, working)
       <==> forall e | e in working :: EntryLasts(codec, now, e)
  {
    hide KeptEntry, AsString, EntryLasts, CleanCodec;
    var kept, strings := KeptEntries(codec, now, working), AsStrings(codec, working);
    forall i | 0 <= i < |working|
      ensures kept[i] == strings[i] <==> EntryLasts(codec, now, working[i])
    {
      EntryKept(codec, now, working[i]);
    }
    if kept != strings {
      var i :| 0 <= i < |working| && kept[i] != strings[i];
      assert working[i] in working;
    }
  }

  lemma AdaptationKept(codec: Codec, a: Adaptation)
    requires OneLine(a.name)
    ensures KeptAdaptation(codec, a) == a <==> AdaptationLasts(codec, a)
  {
    hide Shaved, NoTrailingBlanks, NameKept, GoodName, KeptNumber;
    AdaptationNameKept(a.name);
    ShavedSame(a.insight);
  }

  lemma AdaptationsKept(codec: Codec, adaptations: seq<Adaptation>)
    requires forall a | a in adaptations :: OneLine(a.name)
    ensures KeptAdaptations(codec, adaptations) == adaptations
       <==> forall a | a in adaptations :: AdaptationLasts(codec, a)
  {
    hide KeptAdaptation, AdaptationLasts, OneLine;
    var kept := KeptAdaptations(codec, adaptations);
    forall i | 0 <= i < |adaptations|
      ensures kept[i] == adaptations[i] <==> AdaptationLasts(codec, adaptations[i])
    {
      assert adaptations[i] in adaptations;
      AdaptationKept(codec, adaptations[i]);
    }
    if kept != adaptations {
      var i :| 0 <= i < |adaptations| && kept[i] != adaptations[i];
      assert adaptations[i] in adaptations;
    }
  }

  // -- counts --------------------------------------------------------------------------------------

  lemma {:induction false} KeptCountsAreShaved(counts: map<string, int>, keys: seq<string>)
    requires forall k | k in keys :: k in counts
    ensures forall d | d in KeptCounts(counts, keys) :: NoTrailingBlanks(d)
  {
    hide Shaved, NoTrailingBlanks;
    if keys != [] {
      assert forall k | k in Front(keys) :: k in keys;
      KeptCountsAreShaved(counts, Front(keys));
      ShavedHasNoBlanks(Last(keys));
    }
  }

  lemma {:induction false} ShavedCountsStay(counts: map<string, int>, keys: seq<string>)
    requires forall k | k in keys :: k in counts
    requires forall d | d in counts :: NoTrailingBlanks(d)
    ensures KeptCounts(counts, keys) == map k | k in keys :: counts[k]
  {
    hide Shaved, NoTrailingBlanks;
    if keys != [] {
      var key := Last(keys);
      assert key in keys && forall k | k in Front(keys) :: k in keys;
      ShavedCountsStay(counts, Front(keys));
      ShavedSame(key);
      assert forall k :: k in keys <==> k in Front(keys) || k == key by {
        assert keys == Front(keys) + [key];
      }
    }
  }

  lemma CountsKept(counts: map<string, int>)
    ensures KeptCounts(counts, SortedKeys(counts.Keys)) == counts <==> forall d | d in counts :: NoTrailingBlanks(d)
  {
    hide NoTrailingBlanks, KeptCounts, SortedKeys;
    var keys := SortedKeys(counts.Keys);
    KeptCountsAreShaved(counts, keys);
    if forall d | d in counts :: NoTrailingBlanks(d) {
      ShavedCountsStay(counts, keys);
      assert (map k | k in keys :: counts[k]) == counts;
    }
  }

  // -- the theorem ---------------------------------------------------------------------------------

  lemma KeptExactly(codec: Codec, now: int, s: Session)
    requires CleanCodec(codec) && Fits(codec, s)
    ensures Kept(codec, now, s) == s.(working := AsStrings(codec, s.working)) <==> Lasts(codec, now, s)
  {
    hide NoTrailingBlanks, EntryLasts, AdaptationLasts, KeptTexts, KeptEntries, KeptCounts, KeptAdaptations, AsStrings,
      SortedKeys, CleanCodec, EntryFits, OneLine;
    TextsKept(s.compressed);
    EntriesKept(codec, now, s.working);
    CountsKept(s.decisionCounts);
    AdaptationsKept(codec, s.adaptations);
  }

  lemma FactFits(codec: Codec, v: Value)
    requires CleanCodec(codec) && ValueFits(v)
    ensures OneLine(Show(codec, v))
  {
    match v {
      case Flag(_) =>
      case Num(x) => assert Clean(codec.showFact(x));
      case Str(_) =>
    }
  }

  lemma EntryFitsAsRestored(codec: Codec, e: Entry)
    requires CleanCodec(codec) && ContextFits(e.context) && EvidenceFits(e.evidence)
    ensures EntryFits(codec, e)
  {
    hide CleanCodec, Show, OneLine, ValueFits;
    forall k | k in e.context
      ensures OneLine(Show(codec, e.context[k]))
    {
      FactFits(codec, e.context[k]);
    }
  }

  /** A state that came from restoring some text fits its lines. */
  lemma FitsAsRestored(codec: Codec, now: int, text: string, s: Session)
    requires CleanCodec(codec)
    requires Restored(codec, now, text) == s.(working := AsStrings(codec, s.working))
    ensures Fits(codec, s)
  {
    hide Restored, CleanCodec, ContextFits, EvidenceFits, EntryFits, OneLine;
    RestoredFits(codec, now, text);
    var strings := AsStrings(codec, s.working);
    forall e | e in s.working
      ensures EntryFits(codec, e)
    {
      var i :| 0 <= i < |s.working| && s.working[i] == e;
      assert strings[i] in strings && strings[i] == AsString(codec, e);
      EntryFitsAsRestored(codec, e);
    }
  }

  /** A state survives being rendered and restored, its decisions as strings, exactly when what it writes
      outside a blockquote fits on its line and what it writes lasts: over every state, every text in it,
      every reading of the clocks and any one-line runtime name. */
  lemma RestoredAsRendered(codec: Codec, name: string, saved: int, now: int, s: Session)
    requires CleanCodec(codec) && OneLine(name)
    ensures Restored(codec, now, Rendered(codec, name, saved, s)) == s.(working := AsStrings(codec, s.working))
       <==> Fits(codec, s) && Lasts(codec, now, s)
  {
    hide Restored, Rendered, Kept, Fits, Lasts, CleanCodec, AsStrings, OneLine;
    if Fits(codec, s) {
      RestoredIsKept(codec, name, saved, now, s);
      KeptExactly(codec, now, s);
    } else if Restored(codec, now, Rendered(codec, name, saved, s)) == s.(working := AsStrings(codec, s.working)) {
      FitsAsRestored(codec, now, Rendered(codec, name, saved, s), s);
    }
  }

  /** What the facts of any entry come back as, once its keys last: a flag as itself, a number as what its
      text says, and a text as a flag when it says "true", "yes", "false" or "no", as a number when the
      library reads one in it, and otherwise without the blanks around it. */
  lemma FactsComeBackAs(codec: Codec, name: string, saved: int, now: int, s: Session, i: nat, k: string)
    requires CleanCodec(codec) && OneLine(name) && Fits(codec, s)
    requires i < |s.working| && KeysLast(codec, s.working[i].context) && k in s.working[i].context
    ensures var after := Restored(codec, now, Rendered(codec, name, saved, s)).working;
            && |after| == |s.working| && after[i].context.Keys == s.working[i].context.Keys
            && match s.working[i].context[k]
               case Flag(on) => after[i].context[k] == Flag(on)
               case Num(x) => Says(codec, codec.showFact(x), after[i].context[k])
               case Str(text) =>
                 && (after[i].context[k] == Flag(true) <==> ToLower(Trim(text)) in {"true", "yes"})
                 && (after[i].context[k] == Flag(false) <==> ToLower(Trim(text)) in {"false", "no"})
                 && Says(codec, text, after[i].context[k])
  {
    hide Restored, Rendered, Fits, CleanCodec, OneLine, KeysLast, Says, Trim, ToLower, SortedKeys, KeptContext,
      KeptEvidence, KeptTime, Shaved, KeptTexts, KeptCounts, KeptAdaptations;
    var context, v := s.working[i].context, s.working[i].context[k];
    RestoredIsKept(codec, name, saved, now, s);
    FactsSayWhatIsRead(codec, context);
    var read := KeptContext(codec, context)[k];
    CoerceReadsWhatIsSaid(codec, Show(codec, v), read);
    FlagsSayThemselves();
  }

  lemma FlagsSayThemselves()
    ensures ToLower(Trim("true")) == "true" && ToLower(Trim("false")) == "false"
  {
    FlagWords();
  }
}
