/** What restoring makes of each kind of section the session codec writes. */
module SessionSections {
  import opened Folding
  import opened Options
  import opened Quoting
  import opened Section
  import opened SectionFacts
  import opened SessionFacts
  import opened SessionLines
  import opened SessionStore
  import opened Text

  // -- field names and labels ----------------------------------------------------------------------

  lemma LowerWords()
    ensures ToLower("Timestamp") == "timestamp"
    ensures ToLower("Observations") == "observations"
    ensures ToLower("Count") == "count"
    ensures ToLower("Confidence") == "confidence"
    ensures ToLower("Intent") == "intent"
    ensures ToLower("Decision") == "decision"
    ensures ToLower("Context") == "context"
  {
  }

  lemma LowerPairs()
    ensures ToLower("Evidence basis") == "evidence basis"
    ensures ToLower("Evidence confidence") == "evidence confidence"
    ensures ToLower("Evidence count") == "evidence count"
  {
  }

  lemma SettledWords()
    ensures Settled("timestamp")
    ensures Settled("observations")
    ensures Settled("count")
    ensures Settled("confidence")
  {
  }

  lemma SettledMoreWords()
    ensures Settled("intent")
    ensures Settled("decision")
    ensures Settled("context")
  {
  }

  lemma SettledBasis()
    ensures Settled("evidence basis")
  {
  }

  lemma SettledConfidence()
    ensures Settled("evidence confidence")
  {
  }

  lemma SettledCount()
    ensures Settled("evidence count")
  {
  }

  lemma FieldNames()
    ensures Normalize("Timestamp") == "timestamp"
    ensures Normalize("Evidence basis") == "evidence basis"
    ensures Normalize("Evidence confidence") == "evidence confidence"
    ensures Normalize("Observations") == "observations"
    ensures Normalize("Count") == "count"
    ensures Normalize("Confidence") == "confidence"
    ensures Normalize("Evidence count") == "evidence count"
  {
    hide Normalize, Trim, Settled, ToLower;
    LowerWords();
    LowerPairs();
    SettledWords();
    SettledMoreWords();
    SettledBasis();
    SettledConfidence();
    SettledCount();
    NormalizeIs("Timestamp", "timestamp");
    NormalizeIs("Evidence basis", "evidence basis");
    NormalizeIs("Evidence confidence", "evidence confidence");
    NormalizeIs("Observations", "observations");
    NormalizeIs("Count", "count");
    NormalizeIs("Confidence", "confidence");
    NormalizeIs("Evidence count", "evidence count");
  }

  lemma LabelNames()
    ensures Normalize("Intent") == "intent"
    ensures Normalize("Decision") == "decision"
    ensures Normalize("Context") == "context"
  {
    hide Normalize, Trim, Settled, ToLower;
    LowerWords();
    SettledWords();
    SettledMoreWords();
    NormalizeIs("Intent", "intent");
    NormalizeIs("Decision", "decision");
    NormalizeIs("Context", "context");
  }

  /** A label line is a label, and no known field of an entry. */
  lemma LabelShape(name: string)
    requires name in ["Intent", "Decision", "Context"]
    ensures IsLabel(name + ":") && IsAlpha((name + ":")[0]) && name != "" && ':' !in name && Trimmed(name + ":")
  {
    assert Last(name + ":") == ':' && Front(name + ":") == name;
  }

  lemma LabelLine(name: string)
    requires name in ["Intent", "Decision", "Context"]
    ensures IsLabel(name + ":") && Trim(name + ":") == name + ":" && Unstructured(name + ":", ENTRY_KEYS)
    ensures Heading(name + ":") == None
  {
    hide Normalize, Heading, Bullet, Numbered, Trim, UnquoteLine, IsLabel, IsAlpha;
    LabelNames();
    LabelShape(name);
    var line := name + ":";
    LetterLine(line);
    assert Last(line) == ':' && Front(line) == name && OneLine(line);
    TrimmedStays(line);
    CutAfter(name, ":", "");
    assert name + ":" + "" == line;
  }

  // -- one entry -----------------------------------------------------------------------------------

  /** The lines of a blockquote as the restored document shows them. */
  function QuotedLinesOf(text: string): seq<string> { Seen(QuoteLines(Lines(text))) }

  /** An entry's section, line by line. */
  function EntryLines(codec: Codec, e: Entry): seq<string> {
    Seen(EntryHead(codec, e))
    + (["Intent:"] + QuotedLinesOf(e.intent) + [""])
    + (["Decision:"] + QuotedLinesOf(Show(codec, e.decision)) + [""])
    + Seen(ContextPieces(codec, e.context))
  }

  function WithEvidence(codec: Codec, fields: map<string, string>, evidence: Option<Evidence>): map<string, string> {
    match evidence
    case Some(ev) =>
      fields["evidence basis" := Trim(ev.basis)]["evidence confidence" := codec.showNumber(ev.confidence)]
    case None => fields
  }

  /** The fields an entry's head sets. */
  function EntryFields(codec: Codec, e: Entry): map<string, string> {
    WithEvidence(codec, map["timestamp" := codec.showTime(e.timestamp)], e.evidence)
  }

  lemma BlankStep(st: BodyState, keys: set<string>)
    ensures SameStructure(BodyStep(st, "", keys).body, st.body) && BodyStep(st, "", keys).open == Closed
  {
  }

  lemma EvidenceRead(codec: Codec, st: BodyState, evidence: Option<Evidence>, rest: seq<string>)
    requires CleanCodec(codec) && st.open == Closed
    ensures ReadBody(st, Seen(EvidencePieces(codec, evidence)) + rest, ENTRY_KEYS)
         == ReadBody(st.(body := st.body.(fields := WithEvidence(codec, st.body.fields, evidence))), rest, ENTRY_KEYS)
  {
    hide BodyStep, ReadBody, Normalize, Trim, DropReturn;
    match evidence {
      case None =>
        assert Seen([]) + rest == rest;
      case Some(ev) =>
        FieldNames();
        EvidenceSeen(codec, ev);
        var show, kept := codec.showNumber(ev.confidence), DropReturn(ev.basis);
        assert Clean(show);
        TrimmedStays(show);
        SeenField("Evidence basis", ev.basis);
        var basis, confidence := "Evidence basis" + ": " + kept, "Evidence confidence" + ": " + show;
        assert Seen(EvidencePieces(codec, evidence)) + rest == [basis] + ([confidence] + rest);
        FieldStep(st, "Evidence basis", kept, ENTRY_KEYS);
        ReadBodyFirst(st, basis, [confidence] + rest, ENTRY_KEYS);
        var next := BodyStep(st, basis, ENTRY_KEYS);
        FieldStep(next, "Evidence confidence", show, ENTRY_KEYS);
        ReadBodyFirst(next, confidence, rest, ENTRY_KEYS);
    }
  }

  lemma EvidenceSeen(codec: Codec, ev: Evidence)
    requires CleanCodec(codec)
    ensures Seen(EvidencePieces(codec, Some(ev)))
         == ["Evidence basis" + ": " + DropReturn(ev.basis),
             "Evidence confidence" + ": " + codec.showNumber(ev.confidence)]
  {
    hide DropReturn;
    var show := codec.showNumber(ev.confidence);
    assert Clean(show);
    SeenField("Evidence basis", ev.basis);
    SeenClean("Evidence confidence", show);
    assert "Evidence basis" + ": " + ev.basis == "Evidence basis: " + ev.basis;
    assert "Evidence confidence" + ": " + show == "Evidence confidence: " + show;
  }

  /** A clean field's line holds no carriage return. */
  lemma SeenClean(name: string, value: string)
    requires Clean(value)
    ensures DropReturn(name + ": " + value) == name + ": " + value
  {
    assert Last(name + ": " + value) == Last(value);
  }

  lemma HeadSeen(codec: Codec, e: Entry)
    requires CleanCodec(codec)
    ensures Seen(EntryHead(codec, e))
         == [""] + (["Timestamp" + ": " + codec.showTime(e.timestamp)]
                    + (Seen(EvidencePieces(codec, e.evidence)) + [""]))
  {
    hide DropReturn, EvidencePieces;
    var stamp := "Timestamp" + ": " + codec.showTime(e.timestamp);
    assert stamp == "Timestamp: " + codec.showTime(e.timestamp) && Clean(codec.showTime(e.timestamp));
    SeenClean("Timestamp", codec.showTime(e.timestamp));
    SeenBlank();
  }

  lemma SeenBlank()
    ensures DropReturn("") == ""
  {
  }

  lemma EntryHeadRead(codec: Codec, e: Entry)
    requires CleanCodec(codec)
    ensures var after := ReadBody(EMPTY_BODY, Seen(EntryHead(codec, e)), ENTRY_KEYS);
            after.body.fields == EntryFields(codec, e) && after.body.bullets == [] && after.open == Closed
  {
    hide BodyStep, ReadBody, Normalize, EvidencePieces, EntryHead, Seen, WithEvidence, Trim;
    FieldNames();
    HeadSeen(codec, e);
    var show := codec.showTime(e.timestamp);
    assert Clean(show);
    TrimmedStays(show);
    var stamp := "Timestamp" + ": " + show;
    var rest := Seen(EvidencePieces(codec, e.evidence)) + [""];
    ReadBodyFirst(EMPTY_BODY, "", [stamp] + rest, ENTRY_KEYS);
    BlankStep(EMPTY_BODY, ENTRY_KEYS);
    var st := BodyStep(EMPTY_BODY, "", ENTRY_KEYS);
    FieldStep(st, "Timestamp", show, ENTRY_KEYS);
    ReadBodyFirst(st, stamp, rest, ENTRY_KEYS);
    var next := BodyStep(st, stamp, ENTRY_KEYS);
    assert next.body.fields == map["timestamp" := show];
    EvidenceRead(codec, next, e.evidence, [""]);
    var last := next.(body := next.body.(fields := WithEvidence(codec, next.body.fields, e.evidence)));
    ReadBodyOne(last, "", ENTRY_KEYS);
    BlankStep(last, ENTRY_KEYS);
  }

  /** A label with its blockquote leaves an entry's fields and bullets alone. */
  lemma LabelledQuoteRead(st: BodyState, name: string, text: string)
    requires name in ["Intent", "Decision", "Context"]
    ensures var after := ReadBody(st, [name + ":"] + QuotedLinesOf(text) + [""], ENTRY_KEYS);
            SameStructure(after.body, st.body) && after.open == Closed
  {
    hide BodyStep, ReadBody, QuoteLines, Unstructured, Normalize, IsLabel, Trim, Heading;
    LabelLine(name);
    var quotes := QuotedLinesOf(text);
    ReadBodyAppend(st, [name + ":"] + quotes, [""], ENTRY_KEYS);
    ReadBodyAppend(st, [name + ":"], quotes, ENTRY_KEYS);
    UnstructuredRead(st, [name + ":"], ENTRY_KEYS);
    var begun := ReadBody(st, [name + ":"], ENTRY_KEYS);
    QuoteRead(begun, text, ENTRY_KEYS);
    var quoted := ReadBody(begun, quotes, ENTRY_KEYS);
    ReadBodyOne(quoted, "", ENTRY_KEYS);
    BlankStep(quoted, ENTRY_KEYS);
  }

  lemma ContextRead(codec: Codec, st: BodyState, context: map<string, Value>)
    ensures var after := ReadBody(st, Seen(ContextPieces(codec, context)), ENTRY_KEYS);
            after.body.fields == st.body.fields
            && after.body.bullets == st.body.bullets + FactTexts(codec, context, SortedKeys(context.Keys))
  {
    hide BodyStep, ReadBody, FactLines, SortedKeys, Unstructured, Normalize, IsLabel, Trim, Heading, DropReturn;
    var keys := SortedKeys(context.Keys);
    if |context| == 0 {
      assert context.Keys == {};
      NoSortedKeys();
      assert st.body.bullets + FactTexts(codec, context, keys) == st.body.bullets;
      NothingRead(st, ENTRY_KEYS);
    } else {
      var lines := Seen(FactLines(codec, context, keys));
      LabelLine("Context");
      assert "Context" + ":" == "Context:";
      ContextSeen(codec, context);
      ReadBodyAppend(st, ["Context:", ""] + lines, [""], ENTRY_KEYS);
      ReadBodyAppend(st, ["Context:", ""], lines, ENTRY_KEYS);
      BlankUnstructured(ENTRY_KEYS);
      UnstructuredRead(st, ["Context:", ""], ENTRY_KEYS);
      var begun := ReadBody(st, ["Context:", ""], ENTRY_KEYS);
      FactsRead(codec, begun, context, keys, ENTRY_KEYS);
      var listed := ReadBody(begun, lines, ENTRY_KEYS);
      ReadBodyOne(listed, "", ENTRY_KEYS);
      BlankStep(listed, ENTRY_KEYS);
    }
  }

  lemma ContextSeen(codec: Codec, context: map<string, Value>)
    requires |context| > 0
    ensures Seen(ContextPieces(codec, context))
         == ["Context:", ""] + Seen(FactLines(codec, context, SortedKeys(context.Keys))) + [""]
  {
    hide FactLines, SortedKeys, Seen;
    var lines := FactLines(codec, context, SortedKeys(context.Keys));
    SeenAppend(["Context:", ""] + lines, [""]);
    SeenAppend(["Context:", ""], lines);
    SeenAsIs(["Context:", ""]);
    SeenAsIs([""]);
  }

  lemma NoSortedKeys()
    ensures SortedKeys({}) == []
  {
  }

  lemma BlankUnstructured(keys: set<string>)
    ensures Unstructured("", keys)
  {
  }

  /** The structured body of an entry's section: its fields and its facts, whatever the texts say. */
  lemma EntryBodyRead(codec: Codec, e: Entry)
    requires CleanCodec(codec)
    ensures var body := BodyOf(EntryLines(codec, e), ENTRY_KEYS);
            body.fields == EntryFields(codec, e)
            && body.bullets == FactTexts(codec, e.context, SortedKeys(e.context.Keys))
  {
    hide ReadBody, EntryHead, QuotedLinesOf, ContextPieces, EntryFields, FactTexts, SortedKeys, Show, CleanCodec, Seen;
    var head := Seen(EntryHead(codec, e));
    var intent := ["Intent:"] + QuotedLinesOf(e.intent) + [""];
    var decision := ["Decision:"] + QuotedLinesOf(Show(codec, e.decision)) + [""];
    var context := Seen(ContextPieces(codec, e.context));
    EntryHeadRead(codec, e);
    var st0 := ReadBody(EMPTY_BODY, head, ENTRY_KEYS);
    ReadBodyAppend(EMPTY_BODY, head, intent, ENTRY_KEYS);
    LabelledQuoteRead(st0, "Intent", e.intent);
    assert "Intent" + ":" == "Intent:" && "Decision" + ":" == "Decision:";
    var st1 := ReadBody(st0, intent, ENTRY_KEYS);
    ReadBodyAppend(EMPTY_BODY, head + intent, decision, ENTRY_KEYS);
    LabelledQuoteRead(st1, "Decision", Show(codec, e.decision));
    var st2 := ReadBody(st1, decision, ENTRY_KEYS);
    ReadBodyAppend(EMPTY_BODY, head + intent + decision, context, ENTRY_KEYS);
    ContextRead(codec, st2, e.context);
    var facts := FactTexts(codec, e.context, SortedKeys(e.context.Keys));
    assert [] + facts == facts;
  }

  // -- its blocks ----------------------------------------------------------------------------------

  predicate Unmarked(lines: seq<string>) { forall l | l in lines :: !(">" <= Trim(l)) }

  lemma SeenUnmarked(lines: seq<string>)
    requires Unmarked(lines)
    ensures Unmarked(Seen(lines))
  {
    hide Trim, DropReturn;
    var seen := Seen(lines);
    forall l | l in seen
      ensures !(">" <= Trim(l))
    {
      var i :| 0 <= i < |seen| && seen[i] == l;
      DropReturnTrims(lines[i]);
      assert lines[i] in lines;
    }
  }

  lemma EntryHeadUnmarked(codec: Codec, e: Entry)
    ensures Unmarked(Seen(EntryHead(codec, e)))
  {
    hide Trim, Heading, Bullet, Numbered, UnquoteLine;
    TrimAll("");
    LetterLine("Timestamp: " + codec.showTime(e.timestamp));
    if e.evidence.Some? {
      LetterLine("Evidence basis: " + e.evidence.value.basis);
      LetterLine("Evidence confidence: " + codec.showNumber(e.evidence.value.confidence));
    }
    assert Unmarked(EntryHead(codec, e));
    SeenUnmarked(EntryHead(codec, e));
  }

  lemma FactUnmarked(codec: Codec, key: string, v: Value)
    ensures !(">" <= Trim(FactLine(codec, key, v)))
  {
    hide Trim, Heading, Bullet, FactLine;
    FactLineIsBullet(codec, key, v);
    DropReturnTrims(FactLine(codec, key, v));
  }

  lemma ContextUnmarked(codec: Codec, context: map<string, Value>)
    ensures Unmarked(Seen(ContextPieces(codec, context)))
  {
    hide Trim, Heading, Bullet, Numbered, UnquoteLine, SortedKeys, FactLine;
    TrimAll("");
    LetterLine("Context:");
    forall k | k in context
      ensures !(">" <= Trim(FactLine(codec, k, context[k])))
    {
      FactUnmarked(codec, k, context[k]);
    }
    assert Unmarked(ContextPieces(codec, context));
    SeenUnmarked(ContextPieces(codec, context));
  }

  /** The labelled blocks of an entry's section: its intent and its decision, whatever they say,
      without the blanks their lines end in. */
  lemma EntryBlocksRead(codec: Codec, e: Entry)
    ensures BlocksOf(EntryLines(codec, e))
         == map["intent" := Shaved(e.intent), "decision" := Shaved(Show(codec, e.decision))]
  {
    hide ReadBlocks, EntryHead, QuotedLinesOf, ContextPieces, Show, Unquoted, IsLabel, Normalize, Trim, BlockStep,
      Heading, Unstructured, Seen, Shaved;
    LabelNames();
    var head := Seen(EntryHead(codec, e));
    var intent := ["Intent" + ":"] + QuotedLinesOf(e.intent) + [""];
    var decision := ["Decision" + ":"] + QuotedLinesOf(Show(codec, e.decision)) + [""];
    var context := Seen(ContextPieces(codec, e.context));
    assert "Intent" + ":" == "Intent:" && "Decision" + ":" == "Decision:";
    assert EntryLines(codec, e) + [""] == head + intent + decision + (context + [""]);
    ReadBlocksAppend(EMPTY_BLOCKS, head + intent + decision, context + [""]);
    ReadBlocksAppend(EMPTY_BLOCKS, head + intent, decision);
    ReadBlocksAppend(EMPTY_BLOCKS, head, intent);
    EntryHeadUnmarked(codec, e);
    NoBlockRead(EMPTY_BLOCKS, head);
    var st0 := ReadBlocks(EMPTY_BLOCKS, head);
    LabelledBlockRead(st0, "Intent", e.intent);
    var st1 := ReadBlocks(st0, intent);
    LabelledBlockRead(st1, "Decision", Show(codec, e.decision));
    var st2 := ReadBlocks(st1, decision);
    ContextUnmarked(codec, e.context);
    TrimAll("");
    NoBlockRead(st2, context + [""]);
    assert st2.blocks == map["intent" := Shaved(e.intent)]["decision" := Shaved(Show(codec, e.decision))];
  }

  lemma LabelledBlockRead(st: BlockState, name: string, text: string)
    requires st.pending == [] && name in ["Intent", "Decision", "Context"]
    ensures ReadBlocks(st, [name + ":"] + QuotedLinesOf(text) + [""])
         == BlockState(st.blocks[Normalize(name) := Shaved(text)], "", [])
  {
    hide ReadBlocks, Unquoted, IsLabel, Normalize, Trim, Heading, Unstructured, Shaved, Seen;
    LabelLine(name);
    LabelShape(name);
    BlockRead(st, name, text);
    UnquotedIs(text);
  }

  lemma UnquotedIs(text: string)
    ensures Unquoted(QuotedLinesOf(text)) == Shaved(text)
  {
    hide QuoteLines, Lines, UnquoteLines, Seen;
    SeenHold(Lines(text));
    QuotedLines(Lines(text));
  }

  // -- what an entry becomes -----------------------------------------------------------------------

  /** The evidence that is read back: a blank basis reads as none. */
  function KeptEvidence(codec: Codec, evidence: Option<Evidence>): Option<Evidence> {
    match evidence
    case Some(ev) =>
      if Trim(ev.basis) == "" then None else Some(Evidence(Trim(ev.basis), KeptNumber(codec, ev.confidence)))
    case None => None
  }

  /** The entry that is read back. */
  function KeptEntry(codec: Codec, now: int, e: Entry): Entry {
    Entry(Shaved(e.intent), Str(Shaved(Show(codec, e.decision))), KeptContext(codec, e.context),
          KeptEvidence(codec, e.evidence), KeptTime(codec, now, e.timestamp))
  }

  /** Restoring an entry's section gives the kept entry, whatever the entry's texts say. */
  lemma EntryIsRead(codec: Codec, now: int, e: Entry, name: string)
    requires CleanCodec(codec)
    ensures EntryOf(codec, now, SectionOf(name, EntryLines(codec, e))) == KeptEntry(codec, now, e)
  {
    hide BodyOf, BlocksOf, EntryLines, ContextOf, FactTexts, SortedKeys, Show, Trim, Shaved;
    EntryBodyRead(codec, e);
    EntryBlocksRead(codec, e);
    assert Clean(codec.showTime(e.timestamp));
    TrimmedStays(codec.showTime(e.timestamp));
    if e.evidence.Some? {
      var c := e.evidence.value.confidence;
      assert Clean(codec.showNumber(c));
      TrimmedStays(codec.showNumber(c));
    }
  }
}
