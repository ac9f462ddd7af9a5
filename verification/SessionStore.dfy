/** session_store.go, the markdown codec: a runtime's memory layers written as one document and
    read back through the shared section parser. */
module SessionStore {
  import opened Options
  import opened Section
  import opened Text

  // -- what a session holds ------------------------------------------------------------------------

  /** A float64, told apart by its bits. */
  datatype Float = Float(bits: int)

  const ONE := Float(0x3FF0_0000_0000_0000)

  /** A plain fact as Coerce reads it. */
  datatype Value = Flag(on: bool) | Num(number: Float) | Str(text: string)

  datatype Evidence = Evidence(basis: string, confidence: Float)

  datatype Entry = Entry(intent: string, decision: Value, context: map<string, Value>,
                         evidence: Option<Evidence>, timestamp: int)

  datatype Adaptation = Adaptation(name: string, insight: string, confidence: Float, evidenceCount: int)

  datatype Session = Session(compressed: seq<string>, working: seq<Entry>, observations: int,
                             decisionCounts: map<string, int>, adaptations: seq<Adaptation>)

  /** The standard library's readers and writers of instants and floating-point numbers; `showFact`
      is how a number is formatted inside a fact. */
  datatype Codec = Codec(showTime: int -> string, readTime: string -> Option<int>,
                         showNumber: Float -> string, readNumber: string -> Option<Float>,
                         showFact: Float -> string)

  // -- facts and numbers as text -------------------------------------------------------------------

  function Show(codec: Codec, v: Value): string {
    match v
    case Flag(on) => if on then "true" else "false"
    case Num(number) => codec.showFact(number)
    case Str(text) => text
  }

  function Coerce(codec: Codec, text: string): Value {
    var value := Trim(text);
    var lower := ToLower(value);
    if lower == "true" || lower == "yes" then Flag(true)
    else if lower == "false" || lower == "no" then Flag(false)
    else
      match codec.readNumber(value)
      case Some(number) => Num(number)
      case None => Str(value)
  }

  function ShowInt(n: int): string { if n < 0 then "-" + Decimal(-n) else Decimal(n) }

  /** strconv.Atoi on integers of any size. */
  function Atoi(s: string): Option<int> {
    var digits := if s != "" && s[0] in "+-" then s[1..] else s;
    if digits == "" || !AllDigits(digits) then None
    else
      var n: int := Number(digits);
      Some(if s[0] == '-' then -n else n)
  }

  function AtoiOr(value: string, fallback: int): int {
    match Atoi(Trim(value)) case Some(n) => n case None => fallback
  }

  function AtofOr(codec: Codec, value: string, fallback: Float): Float {
    match codec.readNumber(Trim(value)) case Some(x) => x case None => fallback
  }

  // -- rendering -----------------------------------------------------------------------------------

  /** A heading and the pieces of text beneath it. */
  datatype Chapter = Chapter(hashes: string, title: string, body: seq<string>)

  function ChapterPieces(c: Chapter): seq<string> { [c.hashes + " " + c.title] + c.body }

  function PiecesOf(chapters: seq<Chapter>): seq<string> {
    if chapters == [] then [] else PiecesOf(Front(chapters)) + ChapterPieces(Last(chapters))
  }

  function HeadPieces(codec: Codec, name: string, now: int): seq<string> {
    ["# Session -- " + name, "", "Saved at: " + codec.showTime(now), ""]
  }

  function CompressedChapter(i: nat, summary: string): Chapter {
    Chapter("##", "Compressed " + Decimal(i + 1), [""] + [Quoted(summary)] + [""])
  }

  function EvidencePieces(codec: Codec, evidence: Option<Evidence>): seq<string> {
    match evidence
    case Some(e) => ["Evidence basis: " + e.basis, "Evidence confidence: " + codec.showNumber(e.confidence)]
    case None => []
  }

  function FactLine(codec: Codec, key: string, v: Value): string { "- " + key + ": " + Show(codec, v) }

  function FactLines(codec: Codec, context: map<string, Value>, keys: seq<string>): (r: seq<string>)
    requires forall k | k in keys :: k in context
    ensures |r| == |keys| && forall i | 0 <= i < |r| :: r[i] == FactLine(codec, keys[i], context[keys[i]])
  {
    seq(|keys|, i requires 0 <= i < |keys| => FactLine(codec, keys[i], context[keys[i]]))
  }

  function ContextPieces(codec: Codec, context: map<string, Value>): seq<string> {
    if |context| > 0 then ["Context:", ""] + FactLines(codec, context, SortedKeys(context.Keys)) + [""] else []
  }

  function EntryHead(codec: Codec, e: Entry): seq<string> {
    ["", "Timestamp: " + codec.showTime(e.timestamp)] + EvidencePieces(codec, e.evidence) + [""]
  }

  function EntryChapter(codec: Codec, i: nat, e: Entry): Chapter {
    Chapter("##", "Entry " + Decimal(i + 1),
            EntryHead(codec, e)
            + (["Intent:"] + [Quoted(e.intent)] + [""])
            + (["Decision:"] + [Quoted(Show(codec, e.decision))] + [""])
            + ContextPieces(codec, e.context))
  }

  function ExperienceChapter(observations: int): Chapter {
    Chapter("##", "Experience", ["", "Observations: " + ShowInt(observations), ""])
  }

  function ObservedChapter(decision: string, count: int): Chapter {
    Chapter("###", "Observed decision", ["", "Count: " + ShowInt(count), ""] + [Quoted(decision)] + [""])
  }

  function AdaptationChapter(codec: Codec, a: Adaptation): Chapter {
    Chapter("##", "Adaptation -- " + a.name,
            ["", "Confidence: " + codec.showNumber(a.confidence),
             "Evidence count: " + ShowInt(a.evidenceCount), ""] + [Quoted(a.insight)] + [""])
  }

  function CompressedChapters(compressed: seq<string>): (r: seq<Chapter>)
    ensures |r| == |compressed| && forall i | 0 <= i < |r| :: r[i] == CompressedChapter(i, compressed[i])
  {
    seq(|compressed|, i requires 0 <= i < |compressed| => CompressedChapter(i, compressed[i]))
  }

  function EntryChapters(codec: Codec, working: seq<Entry>): (r: seq<Chapter>)
    ensures |r| == |working| && forall i | 0 <= i < |r| :: r[i] == EntryChapter(codec, i, working[i])
  {
    seq(|working|, i requires 0 <= i < |working| => EntryChapter(codec, i, working[i]))
  }

  function ObservedChapters(counts: map<string, int>, keys: seq<string>): (r: seq<Chapter>)
    requires forall k | k in keys :: k in counts
    ensures |r| == |keys| && forall i | 0 <= i < |r| :: r[i] == ObservedChapter(keys[i], counts[keys[i]])
  {
    seq(|keys|, i requires 0 <= i < |keys| => ObservedChapter(keys[i], counts[keys[i]]))
  }

  function AdaptationChapters(codec: Codec, adaptations: seq<Adaptation>): (r: seq<Chapter>)
    ensures |r| == |adaptations| && forall i | 0 <= i < |r| :: r[i] == AdaptationChapter(codec, adaptations[i])
  {
    seq(|adaptations|, i requires 0 <= i < |adaptations| => AdaptationChapter(codec, adaptations[i]))
  }

  function ChaptersOf(codec: Codec, s: Session): seq<Chapter> {
    CompressedChapters(s.compressed) + EntryChapters(codec, s.working) + [ExperienceChapter(s.observations)]
    + ObservedChapters(s.decisionCounts, SortedKeys(s.decisionCounts.Keys))
    + AdaptationChapters(codec, s.adaptations)
  }

  function Rendered(codec: Codec, name: string, now: int, s: Session): string {
    Join(HeadPieces(codec, name, now) + PiecesOf(ChaptersOf(codec, s)))
  }

  // -- restoring -----------------------------------------------------------------------------------

  /** A bullet's key and value: cut at ": ", or at a bare colon. */
  function FactOf(bullet: string): Option<(string, string)> {
    if Cut(bullet, ": ").Some? then Cut(bullet, ": ") else Cut(bullet, ":")
  }

  function ContextOf(codec: Codec, bullets: seq<string>): map<string, Value> {
    if bullets == [] then map[]
    else
      var context := ContextOf(codec, Front(bullets));
      match FactOf(Last(bullets))
      case Some((key, value)) => context[Trim(key) := Coerce(codec, value)]
      case None => context
  }

  const ENTRY_KEYS := {"timestamp", "evidence basis", "evidence confidence"}

  function EvidenceOf(codec: Codec, body: Body): Option<Evidence> {
    var basis := Field(body, "evidence basis");
    if basis == "" then None
    else Some(Evidence(basis, AtofOr(codec, Field(body, "evidence confidence"), ONE)))
  }

  function BlockNamed(blocks: map<string, string>, name: string): string {
    if name in blocks then blocks[name] else ""
  }

  function EntryOf(codec: Codec, now: int, section: SectionOf): Entry {
    var body := BodyOf(section.lines, ENTRY_KEYS);
    var blocks := BlocksOf(section.lines);
    var timestamp := codec.readTime(Trim(Field(body, "timestamp")));
    Entry(BlockNamed(blocks, "intent"), Str(BlockNamed(blocks, "decision")), ContextOf(codec, body.bullets),
          EvidenceOf(codec, body), match timestamp case Some(t) => t case None => now)
  }

  function AdaptationName(heading: string): string {
    match Cut(heading, "--")
    case Some((_, after)) => if Trim(after) != "" then Trim(after) else heading
    case None => heading
  }

  const ADAPTATION_KEYS := {"confidence", "evidence count"}

  function AdaptationOf(codec: Codec, section: SectionOf): Adaptation {
    var body := BodyOf(section.lines, ADAPTATION_KEYS);
    Adaptation(AdaptationName(section.name), Unquoted(section.lines),
               AtofOr(codec, Field(body, "confidence"), ONE), AtoiOr(Field(body, "evidence count"), 0))
  }

  /** What one section adds. */
  function RestoreStep(codec: Codec, now: int, s: Session, section: SectionOf): Session {
    var key := Normalize(section.name);
    if "compressed" <= key then s.(compressed := s.compressed + [Unquoted(section.lines)])
    else if "entry" <= key then s.(working := s.working + [EntryOf(codec, now, section)])
    else if key == "experience" then
      s.(observations := AtoiOr(Field(BodyOf(section.lines, {"observations"}), "observations"), 0))
    else if "observed" <= key then
      s.(decisionCounts := s.decisionCounts[Unquoted(section.lines) :=
           AtoiOr(Field(BodyOf(section.lines, {"count"}), "count"), 1)])
    else if "adaptation" <= key then s.(adaptations := s.adaptations + [AdaptationOf(codec, section)])
    else s
  }

  function RestoreFrom(codec: Codec, now: int, s: Session, sections: seq<SectionOf>): Session {
    if sections == [] then s
    else RestoreStep(codec, now, RestoreFrom(codec, now, s, Front(sections)), Last(sections))
  }

  const NOTHING := Session([], [], 0, map[], [])

  function Restored(codec: Codec, now: int, text: string): Session {
    RestoreFrom(codec, now, NOTHING, Parsed(text).sections)
  }

  // -- the runtime's memory layers -----------------------------------------------------------------

  class Runtime {
    const name: string
    var compressed: seq<string>
    var working: seq<Entry>
    var observations: int
    var decisionCounts: map<string, int>
    var adaptations: seq<Adaptation>

    constructor (name: string)
      ensures this.name == name && State() == NOTHING
    {
      this.name := name;
      compressed, working, observations, decisionCounts, adaptations := [], [], 0, map[], [];
    }

    function State(): Session
      reads this
    {
      Session(compressed, working, observations, decisionCounts, adaptations)
    }

    method RenderMarkdown(codec: Codec, now: int) returns (text: string)
      ensures text == Rendered(codec, name, now, State())
    {
      hide PiecesOf, HeadPieces, ChapterPieces, EntryChapter, CompressedChapters, EntryChapters, ObservedChapters,
        AdaptationChapters, SortedKeys, Join, ShowInt, Decimal, Quoted;
      var lines := HeadPieces(codec, name, now);
      ghost var head := lines;
      ghost var done: seq<Chapter>, more: seq<Chapter> := [], CompressedChapters(compressed);
      PiecesOfNone(head, more);
      var i := 0;
      while i < |compressed|
        invariant 0 <= i <= |compressed|
        invariant lines == head + PiecesOf(done + more[..i])
      {
        PiecesOneMore(head, done, more, i);
        CompressedPieces(i, compressed[i]);
        lines := lines + ["## Compressed " + Decimal(i + 1), "", Quoted(compressed[i]), ""];
        i := i + 1;
      }
      PiecesDone(head, done, more, EntryChapters(codec, working));
      done, more := done + more, EntryChapters(codec, working);
      i := 0;
      while i < |working|
        invariant 0 <= i <= |working|
        invariant lines == head + PiecesOf(done + more[..i])
      {
        PiecesOneMore(head, done, more, i);
        var entry := RenderEntry(codec, i, working[i]);
        lines := lines + entry;
        i := i + 1;
      }
      PiecesDone(head, done, more, [ExperienceChapter(observations)]);
      done, more := done + more, [ExperienceChapter(observations)];
      PiecesOneMore(head, done, more, 0);
      ExperiencePieces(observations);
      lines := lines + ["## Experience", "", "Observations: " + ShowInt(observations), ""];
      var decisions := SortedKeys(decisionCounts.Keys);
      PiecesDone(head, done, more, ObservedChapters(decisionCounts, decisions));
      done, more := done + more, ObservedChapters(decisionCounts, decisions);
      i := 0;
      while i < |decisions|
        invariant 0 <= i <= |decisions|
        invariant lines == head + PiecesOf(done + more[..i])
      {
        PiecesOneMore(head, done, more, i);
        var count := decisionCounts[decisions[i]];
        ObservedPieces(decisions[i], count);
        lines := lines + ["### Observed decision", "", "Count: " + ShowInt(count), "", Quoted(decisions[i]), ""];
        i := i + 1;
      }
      PiecesDone(head, done, more, AdaptationChapters(codec, adaptations));
      done, more := done + more, AdaptationChapters(codec, adaptations);
      i := 0;
      while i < |adaptations|
        invariant 0 <= i <= |adaptations|
        invariant lines == head + PiecesOf(done + more[..i])
      {
        PiecesOneMore(head, done, more, i);
        var a := adaptations[i];
        AdaptationPieces(codec, a);
        lines := lines + ["## Adaptation -- " + a.name, "", "Confidence: " + codec.showNumber(a.confidence),
                          "Evidence count: " + ShowInt(a.evidenceCount), "", Quoted(a.insight), ""];
        i := i + 1;
      }
      assert more[..i] == more;
      assert [] + CompressedChapters(compressed) == CompressedChapters(compressed);
      text := Join(lines);
    }

    method RestoreMarkdown(codec: Codec, now: int, text: string)
      modifies this
      ensures State() == Restored(codec, now, text)
    {
      hide RestoreStep, Parsed;
      var doc, preamble := ParseDocument(text);
      var s := NOTHING;
      var i := 0;
      while i < |doc.sections|
        invariant 0 <= i <= |doc.sections|
        invariant s == RestoreFrom(codec, now, NOTHING, doc.sections[..i])
      {
        assert Front(doc.sections[..i + 1]) == doc.sections[..i];
        s := RestoreSection(codec, now, s, doc.sections[i]);
        i := i + 1;
      }
      assert doc.sections[..i] == doc.sections;
      compressed, working, observations := s.compressed, s.working, s.observations;
      decisionCounts, adaptations := s.decisionCounts, s.adaptations;
    }
  }

  /** One entry of the working memory, as its lines. */
  method RenderEntry(codec: Codec, i: nat, e: Entry) returns (lines: seq<string>)
    ensures lines == ChapterPieces(EntryChapter(codec, i, e))
  {
    hide ChapterPieces, EntryChapter, Quoted, Decimal, ContextPieces, Show;
    lines := ["## Entry " + Decimal(i + 1), "", "Timestamp: " + codec.showTime(e.timestamp)];
    if e.evidence.Some? {
      lines := lines + ["Evidence basis: " + e.evidence.value.basis,
                        "Evidence confidence: " + codec.showNumber(e.evidence.value.confidence)];
    }
    lines := lines + ["", "Intent:", Quoted(e.intent), "", "Decision:", Quoted(Show(codec, e.decision)), ""];
    EntryPieces(codec, i, e);
    var facts := RenderContext(codec, e.context);
    lines := lines + facts;
  }

  method RenderContext(codec: Codec, context: map<string, Value>) returns (lines: seq<string>)
    ensures lines == ContextPieces(codec, context)
  {
    hide SortedKeys, FactLine;
    lines := [];
    if |context| > 0 {
      lines := ["Context:", ""];
      var keys, j := SortedKeys(context.Keys), 0;
      while j < |keys|
        invariant 0 <= j <= |keys|
        invariant lines == ["Context:", ""] + FactLines(codec, context, keys)[..j]
      {
        lines := lines + [FactLine(codec, keys[j], context[keys[j]])];
        j := j + 1;
      }
      lines := lines + [""];
    }
  }

  /** What one section adds to the layers read so far. */
  method RestoreSection(codec: Codec, now: int, before: Session, section: SectionOf) returns (s: Session)
    ensures s == RestoreStep(codec, now, before, section)
  {
    s := before;
    var key := Normalize(section.name);
    if "compressed" <= key {
      var text := Unquote(section.lines);
      s := s.(compressed := s.compressed + [text]);
    } else if "entry" <= key {
      var entry := EntryFromSection(codec, now, section);
      s := s.(working := s.working + [entry]);
    } else if key == "experience" {
      var body, prose := StructuredBody(section.lines, {"observations"});
      s := s.(observations := AtoiOr(Field(body, "observations"), 0));
    } else if "observed" <= key {
      var body, prose := StructuredBody(section.lines, {"count"});
      var text := Unquote(section.lines);
      s := s.(decisionCounts := s.decisionCounts[text := AtoiOr(Field(body, "count"), 1)]);
    } else if "adaptation" <= key {
      var body, prose := StructuredBody(section.lines, ADAPTATION_KEYS);
      var insight := Unquote(section.lines);
      s := s.(adaptations := s.adaptations + [Adaptation(AdaptationName(section.name), insight,
             AtofOr(codec, Field(body, "confidence"), ONE), AtoiOr(Field(body, "evidence count"), 0))]);
    }
  }

  method EntryFromSection(codec: Codec, now: int, section: SectionOf) returns (entry: Entry)
    ensures entry == EntryOf(codec, now, section)
  {
    hide Field, Coerce, Cut, Trim, BodyOf, BlocksOf, EvidenceOf;
    var body, prose := StructuredBody(section.lines, ENTRY_KEYS);
    var blocks := LabelledBlocks(section.lines);
    var context := map[];
    var i := 0;
    while i < |body.bullets|
      invariant 0 <= i <= |body.bullets|
      invariant context == ContextOf(codec, body.bullets[..i])
    {
      assert Front(body.bullets[..i + 1]) == body.bullets[..i];
      var fact := Cut(body.bullets[i], ": ");
      if fact.None? {
        fact := Cut(body.bullets[i], ":");
      }
      if fact.Some? {
        context := context[Trim(fact.value.0) := Coerce(codec, fact.value.1)];
      }
      i := i + 1;
    }
    assert body.bullets[..i] == body.bullets;
    var timestamp := codec.readTime(Trim(Field(body, "timestamp")));
    entry := Entry(BlockNamed(blocks, "intent"), Str(BlockNamed(blocks, "decision")), context,
                   EvidenceOf(codec, body), if timestamp.Some? then timestamp.value else now);
  }

  // -- the pieces, loop by loop --------------------------------------------------------------------

  lemma PiecesOfNone(head: seq<string>, more: seq<Chapter>)
    ensures head == head + PiecesOf([] + more[..0])
  {
  }

  lemma PiecesOneMore(head: seq<string>, done: seq<Chapter>, more: seq<Chapter>, i: nat)
    requires i < |more|
    ensures head + PiecesOf(done + more[..i + 1]) == head + PiecesOf(done + more[..i]) + ChapterPieces(more[i])
  {
    hide ChapterPieces;
    var all := done + more[..i + 1];
    assert Front(all) == done + more[..i] && Last(all) == more[i];
  }

  lemma PiecesDone(head: seq<string>, done: seq<Chapter>, more: seq<Chapter>, next: seq<Chapter>)
    ensures head + PiecesOf(done + more[..|more|]) == head + PiecesOf(done + more + next[..0])
  {
    assert done + more[..|more|] == done + more + next[..0];
  }

  lemma CompressedPieces(i: nat, summary: string)
    ensures ChapterPieces(CompressedChapter(i, summary))
         == ["## Compressed " + Decimal(i + 1), "", Quoted(summary), ""]
  {
    hide Decimal, Quoted;
    assert "##" + " " + ("Compressed " + Decimal(i + 1)) == "## Compressed " + Decimal(i + 1);
  }

  lemma EntryPieces(codec: Codec, i: nat, e: Entry)
    ensures ChapterPieces(EntryChapter(codec, i, e))
         == ["## Entry " + Decimal(i + 1), "", "Timestamp: " + codec.showTime(e.timestamp)]
          + EvidencePieces(codec, e.evidence)
          + ["", "Intent:", Quoted(e.intent), "", "Decision:", Quoted(Show(codec, e.decision)), ""]
          + ContextPieces(codec, e.context)
  {
    hide Decimal, Quoted, ContextPieces, EvidencePieces;
    assert "##" + " " + ("Entry " + Decimal(i + 1)) == "## Entry " + Decimal(i + 1);
  }

  lemma ExperiencePieces(observations: int)
    ensures ChapterPieces(ExperienceChapter(observations))
         == ["## Experience", "", "Observations: " + ShowInt(observations), ""]
  {
    hide ShowInt;
    assert "##" + " " + "Experience" == "## Experience";
  }

  lemma ObservedPieces(decision: string, count: int)
    ensures ChapterPieces(ObservedChapter(decision, count))
         == ["### Observed decision", "", "Count: " + ShowInt(count), "", Quoted(decision), ""]
  {
    hide ShowInt, Quoted;
    assert "###" + " " + "Observed decision" == "### Observed decision";
  }

  lemma AdaptationPieces(codec: Codec, a: Adaptation)
    ensures ChapterPieces(AdaptationChapter(codec, a))
         == ["## Adaptation -- " + a.name, "", "Confidence: " + codec.showNumber(a.confidence),
             "Evidence count: " + ShowInt(a.evidenceCount), "", Quoted(a.insight), ""]
  {
    hide ShowInt, Quoted;
    assert "##" + " " + ("Adaptation -- " + a.name) == "## Adaptation -- " + a.name;
  }
}
