/** trailfile.go, one record as its markdown block: inputs as bullets or quotes, the rationale and
    a long output quoted. */
module TrailRecord {
  import opened Chain
  import opened Options
  import opened Quoting
  import opened Section
  import opened Text
  import opened TrailMarkdown

  /** A logged step. `inputs` holds the values as the markdown view renders them, `stamp` the time as
      the cycle heading formats it. */
  datatype Record = Record(cycle: nat, stage: string, stamp: string, inputs: map<string, string>,
                           output: string, rationale: string, model: string)

  // -- short renderings ----------------------------------------------------------------------------

  function WordSpan(s: string): (n: nat)
    ensures n <= |s| && (s != "" && !IsSpace(s[0]) ==> n > 0)
    ensures forall i | 0 <= i < n :: !IsSpace(s[i])
  {
    if s != "" && !IsSpace(s[0]) then 1 + WordSpan(s[1..]) else 0
  }

  /** strings.Fields joined by single blanks. */
  function Collapse(s: string): string
    decreases |s|
  {
    if s == "" then ""
    else if IsSpace(s[0]) then Collapse(s[1..])
    else
      var n := WordSpan(s);
      var rest := Collapse(s[n..]);
      if rest == "" then s[..n] else s[..n] + " " + rest
  }

  function Clip(s: string): string {
    var text := Collapse(s);
    if |text| <= 80 then text else text[..77] + "..."
  }

  function Upper(c: char): char {
    if 'a' <= c <= 'z' then c - 'a' + 'A' else c
  }

  function Capitalize(s: string): string { if s == "" then s else [Upper(s[0])] + s[1..] }

  lemma {:induction false} CollapseIsOneLine(s: string)
    ensures OneLine(Collapse(s))
    decreases |s|
  {
    if s != "" {
      if IsSpace(s[0]) {
        CollapseIsOneLine(s[1..]);
      } else {
        var n := WordSpan(s);
        CollapseIsOneLine(s[n..]);
        assert forall c | c in s[..n] :: !IsSpace(c);
      }
    }
  }

  // -- the block -----------------------------------------------------------------------------------

  function Header(r: Record): string {
    "### " + r.stage
    + (if r.output != "" then " -- " + Clip(r.output) else "")
    + (if r.model != "" then "  (" + r.model + ")" else "")
  }

  /** The keys whose values take one line, and those whose values take more, in order. */
  function SimpleKeys(inputs: map<string, string>, keys: seq<string>): seq<string>
    requires forall k | k in keys :: k in inputs
  {
    if keys == [] then []
    else SimpleKeys(inputs, Front(keys)) + (if OneLine(inputs[Last(keys)]) then [Last(keys)] else [])
  }

  function LongKeys(inputs: map<string, string>, keys: seq<string>): seq<string>
    requires forall k | k in keys :: k in inputs
  {
    if keys == [] then []
    else LongKeys(inputs, Front(keys)) + (if OneLine(inputs[Last(keys)]) then [] else [Last(keys)])
  }

  lemma {:induction false} KeysStay(inputs: map<string, string>, keys: seq<string>)
    requires forall k | k in keys :: k in inputs
    ensures forall k | k in SimpleKeys(inputs, keys) :: k in inputs && OneLine(inputs[k])
    ensures forall k | k in LongKeys(inputs, keys) :: k in inputs && !OneLine(inputs[k])
  {
    if keys != [] {
      assert Last(keys) in keys && forall k | k in Front(keys) :: k in keys;
      KeysStay(inputs, Front(keys));
    }
  }

  function InputLine(key: string, value: string): string { "- " + key + ": " + value }

  function InputLines(inputs: map<string, string>, keys: seq<string>): seq<string>
    requires forall k | k in keys :: k in inputs
  {
    if keys == [] then [] else InputLines(inputs, Front(keys)) + [InputLine(Last(keys), inputs[Last(keys)])]
  }

  function LongPieces(key: string, value: string): seq<string> {
    if Trim(value) != "" then [Capitalize(key) + ":", Quoted(value), ""] else []
  }

  function AllLongPieces(inputs: map<string, string>, keys: seq<string>): seq<string>
    requires forall k | k in keys :: k in inputs
  {
    if keys == [] then [] else AllLongPieces(inputs, Front(keys)) + LongPieces(Last(keys), inputs[Last(keys)])
  }

  function SimplePieces(inputs: map<string, string>): seq<string> {
    var keys := SortedKeys(inputs.Keys);
    KeysStay(inputs, keys);
    var simple := SimpleKeys(inputs, keys);
    if simple != [] then InputLines(inputs, simple) + [""] else []
  }

  function MultilinePieces(inputs: map<string, string>): seq<string> {
    var keys := SortedKeys(inputs.Keys);
    KeysStay(inputs, keys);
    AllLongPieces(inputs, LongKeys(inputs, keys))
  }

  function WhyPieces(r: Record): seq<string> {
    if r.rationale != "" then ["Why:", Quoted(r.rationale), ""] else []
  }

  function OutputPieces(r: Record): seq<string> {
    if !OneLine(r.output) || |r.output| > 80 then ["Output:", Quoted(r.output), ""] else []
  }

  function RecordPieces(r: Record): seq<string> {
    [Header(r), ""] + SimplePieces(r.inputs) + MultilinePieces(r.inputs) + WhyPieces(r) + OutputPieces(r)
  }

  /** A record's block, without its chain comment. */
  function Block(r: Record): string { Join(RecordPieces(r)) }

  method RecordMarkdown(r: Record) returns (block: string)
    ensures block == Block(r)
  {
    hide SortedKeys, Join, Clip, Quoted, SimplePieces, MultilinePieces;
    var header := "### " + r.stage;
    if r.output != "" {
      header := header + " -- " + Clip(r.output);
    }
    if r.model != "" {
      header := header + "  (" + r.model + ")";
    }
    assert header == Header(r);
    var lines := [header, ""];
    var inputs := RenderInputs(r.inputs);
    lines := lines + inputs;
    if r.rationale != "" {
      lines := lines + ["Why:", Quoted(r.rationale), ""];
    }
    if !OneLine(r.output) || |r.output| > 80 {
      lines := lines + ["Output:", Quoted(r.output), ""];
    }
    assert lines == RecordPieces(r);
    block := Join(lines);
  }

  method RenderInputs(inputs: map<string, string>) returns (lines: seq<string>)
    ensures lines == SimplePieces(inputs) + MultilinePieces(inputs)
  {
    hide SortedKeys, LongPieces, SimpleKeys, LongKeys, InputLines, AllLongPieces;
    var keys := SortedKeys(inputs.Keys);
    KeysStay(inputs, keys);
    var simple, multiline := SplitKeys(inputs, keys);
    lines := [];
    if simple != [] {
      var bullets := RenderSimple(inputs, simple);
      lines := lines + bullets + [""];
    }
    assert lines == SimplePieces(inputs);
    var blocks := RenderLong(inputs, multiline);
    lines := lines + blocks;
  }

  method SplitKeys(inputs: map<string, string>, keys: seq<string>) returns (simple: seq<string>, multiline: seq<string>)
    requires forall k | k in keys :: k in inputs
    ensures simple == SimpleKeys(inputs, keys) && multiline == LongKeys(inputs, keys)
  {
    simple, multiline := [], [];
    var i := 0;
    while i < |keys|
      invariant 0 <= i <= |keys|
      invariant simple == SimpleKeys(inputs, keys[..i]) && multiline == LongKeys(inputs, keys[..i])
    {
      assert Front(keys[..i + 1]) == keys[..i];
      if OneLine(inputs[keys[i]]) {
        simple := simple + [keys[i]];
      } else {
        multiline := multiline + [keys[i]];
      }
      i := i + 1;
    }
    assert keys[..i] == keys;
  }

  method RenderSimple(inputs: map<string, string>, keys: seq<string>) returns (lines: seq<string>)
    requires forall k | k in keys :: k in inputs
    ensures lines == InputLines(inputs, keys)
  {
    lines := [];
    var i := 0;
    while i < |keys|
      invariant 0 <= i <= |keys|
      invariant lines == InputLines(inputs, keys[..i])
    {
      assert Front(keys[..i + 1]) == keys[..i];
      lines := lines + ["- " + keys[i] + ": " + inputs[keys[i]]];
      i := i + 1;
    }
    assert keys[..i] == keys;
  }

  method RenderLong(inputs: map<string, string>, keys: seq<string>) returns (lines: seq<string>)
    requires forall k | k in keys :: k in inputs
    ensures lines == AllLongPieces(inputs, keys)
  {
    hide Quoted, Capitalize, Trim;
    lines := [];
    var i := 0;
    while i < |keys|
      invariant 0 <= i <= |keys|
      invariant lines == AllLongPieces(inputs, keys[..i])
    {
      assert Front(keys[..i + 1]) == keys[..i];
      var value := inputs[keys[i]];
      if Trim(value) != "" {
        lines := lines + [Capitalize(keys[i]) + ":", Quoted(value), ""];
      }
      i := i + 1;
    }
    assert keys[..i] == keys;
  }

  // -- its framing ---------------------------------------------------------------------------------

  /** Stage, model and input keys on one line each, and no key that reads as a record heading. */
  predicate SingleLine(r: Record) {
    OneLine(r.stage) && OneLine(r.model) && forall k | k in r.inputs :: OneLine(k) && !Heads(k)
  }

  /** No line below the block's heading holds a chain marker. */
  predicate MarkerFree(r: Record) { forall l | l in Lines(Block(r))[1..] :: FirstMarker(l) == None }

  /** No line of this piece reads as a record heading. */
  predicate Headless(piece: string) { forall l | l in Lines(piece) :: !Heads(l) }

  lemma QuotedHeadless(text: string)
    ensures Headless(Quoted(text))
  {
    LinesOfQuoted(text);
    LinesAreOneLine(text);
    QuoteLinesAreOneLine(Lines(text));
  }

  lemma LineHeadless(line: string)
    requires OneLine(line) && !Heads(line)
    ensures Headless(line)
  {
    OneLineIsItsLine(line);
  }

  lemma UpperHash(c: char)
    requires Upper(c) == '#'
    ensures c == '#'
  {
  }

  lemma CapitalizedHeads(key: string)
    requires Heads(Capitalize(key) + ":")
    ensures Heads(key)
  {
    var line := Capitalize(key) + ":";
    assert forall i | 0 <= i < 4 :: line[i] == "### "[i];
    assert line[3] == ' ' && |key| >= 4;
    assert key[1] == line[1] && key[2] == line[2] && key[3] == line[3];
    assert line[0] == "### "[0] == '#' && line[0] == Upper(key[0]);
    UpperHash(key[0]);
    assert line[1] == '#' && line[2] == '#';
    assert key[..4] == [key[0], key[1], key[2], key[3]] == ['#', '#', '#', ' '];
    assert key[..4] == "### ";
  }

  lemma CapitalizedHeadless(key: string)
    requires OneLine(key) && !Heads(key)
    ensures Headless(Capitalize(key) + ":")
  {
    var line := Capitalize(key) + ":";
    assert OneLine(line) by {
      assert key != "" ==> key[0] in key && forall c | c in key[1..] :: c in key;
    }
    if Heads(line) {
      CapitalizedHeads(key);
    }
    LineHeadless(line);
  }

  lemma LongHeadless(key: string, value: string)
    requires OneLine(key) && !Heads(key)
    ensures forall p | p in LongPieces(key, value) :: Headless(p)
  {
    hide Quoted, Capitalize, Headless;
    CapitalizedHeadless(key);
    QuotedHeadless(value);
    LineHeadless("");
  }

  lemma {:induction false} InputsHeadless(inputs: map<string, string>, keys: seq<string>)
    requires forall k | k in keys :: k in inputs && OneLine(k) && !Heads(k)
    ensures forall p | p in AllLongPieces(inputs, keys) :: Headless(p)
    ensures (forall k | k in keys :: OneLine(inputs[k])) ==> forall p | p in InputLines(inputs, keys) :: Headless(p)
  {
    hide Headless, LongPieces, Heads;
    if keys != [] {
      var key := Last(keys);
      assert key in keys && forall k | k in Front(keys) :: k in keys;
      InputsHeadless(inputs, Front(keys));
      LongHeadless(key, inputs[key]);
      if OneLine(inputs[key]) {
        BulletHeadless(key, inputs[key]);
      }
    }
  }

  lemma BulletHeadless(key: string, value: string)
    requires OneLine(key) && OneLine(value)
    ensures Headless(InputLine(key, value))
  {
    assert InputLine(key, value)[0] == '-';
    LineHeadless(InputLine(key, value));
  }

  lemma InputPiecesHeadless(inputs: map<string, string>)
    requires forall k | k in inputs :: OneLine(k) && !Heads(k)
    ensures forall p | p in SimplePieces(inputs) + MultilinePieces(inputs) :: Headless(p)
  {
    hide Headless, SortedKeys, AllLongPieces, InputLines, SimpleKeys, LongKeys, Heads, OneLine;
    var keys := SortedKeys(inputs.Keys);
    KeysStay(inputs, keys);
    InputsHeadless(inputs, SimpleKeys(inputs, keys));
    InputsHeadless(inputs, LongKeys(inputs, keys));
    LabelsHeadless();
  }

  lemma LabelsHeadless()
    ensures Headless("") && Headless("Why:") && Headless("Output:")
  {
    hide Headless;
    assert "Why:"[0] == 'W' && "Output:"[0] == 'O' && "### "[0] == '#';
    LineHeadless("");
    LineHeadless("Why:");
    LineHeadless("Output:");
  }

  lemma PiecesHeadless(r: Record)
    requires SingleLine(r)
    ensures forall p | p in RecordPieces(r)[1..] :: Headless(p)
  {
    hide Headless, Quoted, Header, SimplePieces, MultilinePieces, Heads, OneLine;
    InputPiecesHeadless(r.inputs);
    LabelsHeadless();
    QuotedHeadless(r.rationale);
    QuotedHeadless(r.output);
    assert RecordPieces(r)[1..]
        == [""] + (SimplePieces(r.inputs) + MultilinePieces(r.inputs)) + WhyPieces(r) + OutputPieces(r);
  }

  lemma {:induction false} FlatHeadless(pieces: seq<string>)
    requires forall p | p in pieces :: Headless(p)
    ensures forall l | l in FlatLines(pieces) :: !Heads(l)
  {
    hide Heads;
    if pieces != [] {
      assert pieces[0] in pieces && forall p | p in pieces[1..] :: p in pieces;
      FlatHeadless(pieces[1..]);
    }
  }

  lemma HeaderIsOneLine(r: Record)
    requires OneLine(r.stage) && OneLine(r.model)
    ensures OneLine(Header(r)) && Heads(Header(r))
  {
    CollapseIsOneLine(r.output);
    var text := Collapse(r.output);
    assert OneLine(Clip(r.output)) by {
      assert |text| > 80 ==> forall c | c in text[..77] :: c in text;
    }
  }

  /** With single-line names a record's block has one heading, whatever its content. */
  lemma BlockHasOneHeading(r: Record)
    requires SingleLine(r)
    ensures OneHeading(Block(r))
  {
    hide FirstMarker, Heads, Headless, Header, SimplePieces, MultilinePieces, WhyPieces, OutputPieces, Lines, Join;
    BlockLines(r);
    HeaderIsOneLine(r);
    PiecesHeadless(r);
    FlatHeadless(RecordPieces(r)[1..]);
  }

  lemma BlockLines(r: Record)
    requires OneLine(r.stage) && OneLine(r.model)
    ensures Lines(Block(r)) == [Header(r)] + FlatLines(RecordPieces(r)[1..])
  {
    hide Header, SimplePieces, MultilinePieces, WhyPieces, OutputPieces, Lines, Join;
    var pieces := RecordPieces(r);
    HeaderIsOneLine(r);
    LinesOfJoin(pieces);
    assert pieces == [pieces[0]] + pieces[1..] && pieces[0] == Header(r);
    FlatLinesAppend([pieces[0]], pieces[1..]);
    FlatLinesOfOneLiners([pieces[0]]);
  }

  /** A record's block is framed exactly when no line of its content holds a chain marker. */
  lemma BlockIsFramed(r: Record)
    requires SingleLine(r)
    ensures Framed(Block(r)) <==> MarkerFree(r)
  {
    hide FirstMarker, Heads, Lines, Block;
    BlockHasOneHeading(r);
  }

  /** A marker on any line of the rationale is one in the block. */
  lemma MarkerInRationale(r: Record, line: string)
    requires SingleLine(r) && line in Lines(r.rationale) && r.rationale != "" && FirstMarker(line).Some?
    ensures !MarkerFree(r)
  {
    hide FirstMarker, Header, SimplePieces, MultilinePieces, OutputPieces, Lines, Join, Block, QuoteLine;
    var i :| 0 <= i < |Lines(r.rationale)| && Lines(r.rationale)[i] == line;
    LinesOfQuoted(r.rationale);
    assert Lines(Quoted(r.rationale))[i] == QuoteLine(line);
    var before := [""] + SimplePieces(r.inputs) + MultilinePieces(r.inputs) + ["Why:"];
    var after := [""] + OutputPieces(r);
    assert RecordPieces(r)[1..] == before + ([Quoted(r.rationale)] + after);
    FlatLinesAppend(before, [Quoted(r.rationale)] + after);
    FlatLinesAppend([Quoted(r.rationale)], after);
    assert FlatLines([Quoted(r.rationale)]) == Lines(Quoted(r.rationale));
    BlockLines(r);
    assert QuoteLine(line) in FlatLines(RecordPieces(r)[1..]);
    QuotedMarker(line);
  }

  lemma QuotedMarker(line: string)
    requires FirstMarker(line).Some?
    ensures FirstMarker(QuoteLine(line)).Some?
  {
    assert FirstMarker("").None?;
    assert ("> " + line)[1..] == " " + line && (" " + line)[1..] == line;
  }
}
