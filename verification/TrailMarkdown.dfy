/** trailfile.go, the markdown framing: a record's block, the chain comment after it, and the scanner
    that finds both again in the file's text. */
module TrailMarkdown {
  import opened Chain
  import opened Options
  import opened Section
  import opened Text

  // -- chain markers -------------------------------------------------------------------------------

  const MARK := "<!-- chain: "

  function MarkerLine(tip: string): string { MARK + tip + " -->" }

  function HexSpan(s: string): (n: nat)
    ensures n <= |s|
  {
    if s != "" && IsHexDigit(s[0]) then 1 + HexSpan(s[1..]) else 0
  }

  /** The hash of a marker that starts here. */
  function MarkerAt(s: string): Option<string> {
    if MARK <= s then
      var n := HexSpan(s[|MARK|..]);
      if n > 0 && " -->" <= s[|MARK| + n..] then Some(s[|MARK|..|MARK| + n]) else None
    else None
  }

  /** The first marker anywhere in a line. */
  function FirstMarker(s: string): Option<string> {
    if MarkerAt(s).Some? || s == "" then MarkerAt(s) else FirstMarker(s[1..])
  }

  /** The last marker anywhere in a text; two markers never overlap. */
  function LastMarker(s: string): Option<string> {
    if s == "" then None else if LastMarker(s[1..]).Some? then LastMarker(s[1..]) else MarkerAt(s)
  }

  lemma {:induction false} HexSpanOf(hex: string, rest: string)
    requires forall i | 0 <= i < |hex| :: IsHexDigit(hex[i])
    requires rest == "" || !IsHexDigit(rest[0])
    ensures HexSpan(hex + rest) == |hex|
  {
    if hex == "" {
      assert hex + rest == rest;
    } else {
      assert (hex + rest)[1..] == hex[1..] + rest;
      HexSpanOf(hex[1..], rest);
    }
  }

  lemma MarkerLineAt(tip: string, rest: string)
    requires IsHex(tip)
    ensures MarkerAt(MarkerLine(tip) + rest) == Some(tip)
  {
    var s := MarkerLine(tip) + rest;
    assert s == MARK + (tip + (" -->" + rest));
    assert s[|MARK|..] == tip + (" -->" + rest);
    HexSpanOf(tip, " -->" + rest);
    assert s[|MARK| + |tip|..] == " -->" + rest;
    assert s[|MARK|..|MARK| + |tip|] == tip && MARK <= s;
  }

  lemma MarkerLineFound(tip: string)
    requires IsHex(tip)
    ensures FirstMarker(MarkerLine(tip)) == Some(tip) && OneLine(MarkerLine(tip))
    ensures MarkerLine(tip) != "" && !Heads(MarkerLine(tip))
  {
    MarkerLineAt(tip, "");
    assert MarkerLine(tip) + "" == MarkerLine(tip);
    assert forall i | 0 <= i < |tip| :: tip[i] != '\n';
    assert MarkerLine(tip)[0] == '<';
  }

  lemma {:induction false} NoMarker(s: string)
    requires '<' !in s
    ensures LastMarker(s) == None
  {
    if s != "" {
      assert s[0] in s && forall c | c in s[1..] :: c in s;
      NoMarker(s[1..]);
      assert MARK[0] == '<';
    }
  }

  lemma {:induction false} LastMarkerAfter(a: string, b: string)
    requires LastMarker(b).Some?
    ensures LastMarker(a + b) == LastMarker(b)
  {
    if a == "" {
      assert a + b == b;
    } else {
      assert (a + b)[1..] == a[1..] + b;
      LastMarkerAfter(a[1..], b);
    }
  }

  lemma OnlyMarker(s: string)
    requires s != "" && '<' !in s[1..]
    ensures LastMarker(s) == MarkerAt(s)
  {
    hide MarkerAt;
    NoMarker(s[1..]);
  }

  lemma OneAngle(tip: string)
    requires IsHex(tip)
    ensures var line := MarkerLine(tip) + "\n"; line != "" && '<' !in line[1..]
  {
    var line := MarkerLine(tip) + "\n";
    assert line[1..] == "!-- chain: " + tip + " -->\n";
    assert forall i | 0 <= i < |tip| :: tip[i] != '<';
  }

  /** A marker is a comment of exactly this form: its words, a hash, its closing. */
  lemma MarkerAtIs(s: string, hex: string)
    ensures MarkerAt(s) == Some(hex) <==> IsHex(hex) && "<!-- chain: " + hex + " -->" <= s
  {
    if IsHex(hex) && MarkerLine(hex) <= s {
      assert s == MarkerLine(hex) + s[|MarkerLine(hex)|..];
      MarkerLineAt(hex, s[|MarkerLine(hex)|..]);
    }
    if MarkerAt(s) == Some(hex) {
      var n := HexSpan(s[|MARK|..]);
      HexSpanIsHex(s[|MARK|..]);
      assert s[..|MARK|] == MARK && hex == s[|MARK|..][..n];
      assert s[|MARK| + n..][..4] == " -->";
      assert s == MARK + hex + " -->" + s[|MARK| + n..][4..];
    }
  }

  lemma {:induction false} HexSpanIsHex(s: string)
    ensures forall i | 0 <= i < HexSpan(s) :: IsHexDigit(s[i])
  {
    if s != "" && IsHexDigit(s[0]) {
      HexSpanIsHex(s[1..]);
    }
  }

  /** The first marker of a line is the one that starts first. */
  lemma {:induction false} FirstMarkerIs(s: string)
    ensures match FirstMarker(s)
            case None => forall i | 0 <= i <= |s| :: MarkerAt(s[i..]) == None
            case Some(hex) => exists i | 0 <= i <= |s| ::
                                MarkerAt(s[i..]) == Some(hex) && forall j | 0 <= j < i :: MarkerAt(s[j..]) == None
  {
    hide MarkerAt;
    assert s[0..] == s;
    if MarkerAt(s) == None && s != "" {
      var rest := s[1..];
      FirstMarkerIs(rest);
      forall i | 0 < i <= |s|
        ensures s[i..] == rest[i - 1..]
      {
      }
      if FirstMarker(rest).Some? {
        var k :| 0 <= k <= |rest| && MarkerAt(rest[k..]) == FirstMarker(rest)
                 && forall j | 0 <= j < k :: MarkerAt(rest[j..]) == None;
        assert s[k + 1..] == rest[k..];
        forall j | 0 <= j < k + 1
          ensures MarkerAt(s[j..]) == None
        {
          if j > 0 {
            assert s[j..] == rest[j - 1..];
          }
        }
      }
    } else {
      NothingMarked();
    }
  }

  lemma NothingMarked()
    ensures MarkerAt("") == None
  {
  }

  /** The last marker of a text is the one that starts last. */
  lemma {:induction false} LastMarkerIs(s: string)
    ensures match LastMarker(s)
            case None => forall i | 0 <= i <= |s| :: MarkerAt(s[i..]) == None
            case Some(hex) => exists i | 0 <= i <= |s| ::
                                MarkerAt(s[i..]) == Some(hex) && forall j | i < j <= |s| :: MarkerAt(s[j..]) == None
  {
    hide MarkerAt;
    NothingMarked();
    assert s[0..] == s;
    if s != "" {
      var rest := s[1..];
      LastMarkerIs(rest);
      forall i | 0 < i <= |s|
        ensures s[i..] == rest[i - 1..]
      {
      }
      if LastMarker(rest).Some? {
        var k :| 0 <= k <= |rest| && MarkerAt(rest[k..]) == LastMarker(rest)
                 && forall j | k < j <= |rest| :: MarkerAt(rest[j..]) == None;
        assert s[k + 1..] == rest[k..];
      }
    }
  }

  /** A text that ends in a marker line has that marker last. */
  lemma MarkerLineLast(text: string, tip: string)
    requires IsHex(tip)
    ensures LastMarker(text + MarkerLine(tip) + "\n") == Some(tip)
  {
    hide MarkerLine, MarkerAt, LastMarker, IsHex;
    var line := MarkerLine(tip) + "\n";
    assert text + MarkerLine(tip) + "\n" == text + line;
    MarkerLineAt(tip, "\n");
    OneAngle(tip);
    OnlyMarker(line);
    LastMarkerAfter(text, line);
  }

  // -- scanning ------------------------------------------------------------------------------------

  datatype Scan = Scan(links: seq<Link>, block: seq<string>, inBlock: bool)

  predicate Heads(line: string) { "### " <= line }

  function ScanStep(st: Scan, line: string): Scan {
    if Heads(line) then Scan(st.links, [line], true)
    else if FirstMarker(line).Some? && st.inBlock then
      Scan(st.links + [Link(Join(st.block), FirstMarker(line).value)], [], false)
    else if st.inBlock then st.(block := st.block + [line])
    else st
  }

  function ScanLines(st: Scan, lines: seq<string>): Scan
    decreases |lines|
  {
    if lines == [] then st else ScanLines(ScanStep(st, lines[0]), lines[1..])
  }

  const START := Scan([], [], false)

  function LinksOf(text: string): seq<Link> { ScanLines(START, Lines(text)).links }

  /** What a block is reported under: its heading up to the first dash, trimmed. */
  function LabelOf(payload: string): string {
    var heading := Lines(payload)[0];
    var name := if "### " <= heading then heading[4..] else heading;
    Trim(match Cut(name, " -- ") case Some((front, _)) => front case None => name)
  }

  method ChainLinksMd(text: string) returns (links: seq<Link>, labels: seq<string>)
    ensures links == LinksOf(text)
    ensures |labels| == |links| && forall i | 0 <= i < |links| :: labels[i] == LabelOf(links[i].payload)
  {
    hide FirstMarker, Join, Lines, Cut, Trim;
    links, labels := [], [];
    var block, inBlock := [], false;
    var lines := Lines(text);
    LinesAreOneLine(text);
    var i := 0;
    while i < |lines|
      invariant 0 <= i <= |lines| && Sound(Scan(links, block, inBlock))
      invariant |labels| == |links| && forall k | 0 <= k < |links| :: labels[k] == LabelOf(links[k].payload)
      invariant ScanLines(START, lines) == ScanLines(Scan(links, block, inBlock), lines[i..])
    {
      var line := lines[i];
      assert lines[i..][0] == line && lines[i..][1..] == lines[i + 1..];
      var marker := FirstMarker(line);
      if Heads(line) {
        block, inBlock := [line], true;
      } else if marker.Some? && inBlock {
        var name := if "### " <= block[0] then block[0][4..] else block[0];
        var cut := Cut(name, " -- ");
        BlockLines(block);
        labels := labels + [Trim(if cut.Some? then cut.value.0 else name)];
        links := links + [Link(Join(block), marker.value)];
        block, inBlock := [], false;
      } else if inBlock {
        block := block + [line];
      }
      i := i + 1;
    }
  }

  lemma {:induction false} ScanLinesAppend(st: Scan, a: seq<string>, b: seq<string>)
    ensures ScanLines(st, a + b) == ScanLines(ScanLines(st, a), b)
    decreases |a|
  {
    hide ScanStep;
    if a == [] {
      assert a + b == b;
    } else {
      assert (a + b)[1..] == a[1..] + b;
      ScanLinesAppend(ScanStep(st, a[0]), a[1..], b);
    }
  }

  // -- framing -------------------------------------------------------------------------------------

  /** A line that would end a block or start another. */
  predicate Disturbs(line: string) { Heads(line) || FirstMarker(line).Some? }

  /** A block that starts with its heading and holds no other heading and no marker. */
  predicate Framed(payload: string) {
    Heads(Lines(payload)[0]) && forall l | l in Lines(payload)[1..] :: !Disturbs(l)
  }

  lemma {:induction false} ScanQuiet(st: Scan, lines: seq<string>)
    requires st.inBlock && forall l | l in lines :: !Disturbs(l)
    ensures ScanLines(st, lines) == st.(block := st.block + lines)
    decreases |lines|
  {
    hide FirstMarker;
    if lines == [] {
      assert st.block + lines == st.block;
    } else {
      assert lines[0] in lines && forall l | l in lines[1..] :: l in lines;
      ScanQuiet(ScanStep(st, lines[0]), lines[1..]);
      assert st.block + [lines[0]] + lines[1..] == st.block + lines;
    }
  }

  lemma ScanOne(st: Scan, line: string)
    ensures ScanLines(st, [line]) == ScanStep(st, line)
  {
    hide ScanStep;
    assert [line][1..] == [];
  }

  /** A framed block and its marker are read back as exactly that link. */
  lemma FramedRead(st: Scan, payload: string, tip: string)
    requires Framed(payload) && IsHex(tip)
    ensures ScanLines(st, Lines(payload) + [MarkerLine(tip)]) == Scan(st.links + [Link(payload, tip)], [], false)
  {
    hide FirstMarker, MarkerLine, Join, Lines, ScanLines;
    var lines := Lines(payload);
    assert lines == [lines[0]] + lines[1..];
    ScanLinesAppend(st, lines, [MarkerLine(tip)]);
    ScanLinesAppend(st, [lines[0]], lines[1..]);
    ScanOne(st, lines[0]);
    var begun := Scan(st.links, [lines[0]], true);
    ScanQuiet(begun, lines[1..]);
    ScanOne(begun.(block := lines), MarkerLine(tip));
    MarkerLineFound(tip);
    JoinOfLines(payload);
  }

  // -- a marker inside a block ---------------------------------------------------------------------

  /** The first marked line, or the number of lines. */
  function MarkedAt(lines: seq<string>): (k: nat)
    ensures k <= |lines| && (k < |lines| ==> FirstMarker(lines[k]).Some?)
    ensures forall i | 0 <= i < k :: FirstMarker(lines[i]) == None
  {
    if lines == [] || FirstMarker(lines[0]).Some? then 0 else 1 + MarkedAt(lines[1..])
  }

  /** Heading first, and no other heading below it. */
  predicate OneHeading(payload: string) {
    Heads(Lines(payload)[0]) && forall l | l in Lines(payload)[1..] :: !Heads(l)
  }

  /** What the scanner makes of a block closed by a tip: the block up to its first inner marker, and
      that marker's hash in place of the tip. */
  function FoundIn(payload: string, tip: string): Link {
    var lines := Lines(payload);
    var k := MarkedAt(lines[1..]);
    if k == |lines| - 1 then Link(payload, tip) else Link(Join(lines[..k + 1]), FirstMarker(lines[k + 1]).value)
  }

  /** Outside a block nothing but a heading matters. */
  lemma {:induction false} ScanIdle(st: Scan, lines: seq<string>)
    requires !st.inBlock && forall l | l in lines :: !Heads(l)
    ensures ScanLines(st, lines) == st
    decreases |lines|
  {
    hide FirstMarker, Heads;
    if lines != [] {
      assert lines[0] in lines && forall l | l in lines[1..] :: l in lines;
      ScanIdle(st, lines[1..]);
    }
  }

  /** A block is closed by the first marker in it, whatever follows. */
  lemma ScanToMarker(st: Scan, lines: seq<string>, k: nat)
    requires st.inBlock && (forall l | l in lines :: !Heads(l)) && k == MarkedAt(lines) < |lines|
    ensures ScanLines(st, lines)
         == Scan(st.links + [Link(Join(st.block + lines[..k]), FirstMarker(lines[k]).value)], [], false)
  {
    hide FirstMarker, Heads, Join, MarkedAt, ScanLines;
    assert lines == lines[..k] + ([lines[k]] + lines[k + 1..]);
    assert forall l | l in lines[..k] :: l in lines;
    assert forall l | l in lines[k + 1..] :: l in lines;
    ScanLinesAppend(st, lines[..k], [lines[k]] + lines[k + 1..]);
    ScanQuiet(st, lines[..k]);
    var filled := st.(block := st.block + lines[..k]);
    ScanLinesAppend(filled, [lines[k]], lines[k + 1..]);
    ScanOne(filled, lines[k]);
    assert lines[k] in lines;
    ScanIdle(ScanStep(filled, lines[k]), lines[k + 1..]);
  }

  /** Any block with one heading and its marker give exactly one link. */
  lemma HeadedRead(st: Scan, payload: string, tip: string)
    requires OneHeading(payload) && IsHex(tip)
    ensures ScanLines(st, Lines(payload) + [MarkerLine(tip)]) == Scan(st.links + [FoundIn(payload, tip)], [], false)
  {
    hide FirstMarker, MarkerLine, Join, Lines, ScanLines, Heads, MarkedAt;
    var lines := Lines(payload);
    var rest := lines[1..];
    var k := MarkedAt(rest);
    if k == |rest| {
      forall l | l in rest
        ensures !Disturbs(l)
      {
        var i :| 0 <= i < |rest| && rest[i] == l;
      }
      FramedRead(st, payload, tip);
    } else {
      assert lines == [lines[0]] + rest && lines[k + 1] == rest[k] && [lines[0]] + rest[..k] == lines[..k + 1];
      var begun := Scan(st.links, [lines[0]], true);
      ScanLinesAppend(st, lines, [MarkerLine(tip)]);
      ScanLinesAppend(st, [lines[0]], rest);
      ScanOne(st, lines[0]);
      ScanToMarker(begun, rest, k);
      MarkerLineFound(tip);
      ScanIdle(ScanLines(begun, rest), [MarkerLine(tip)]);
    }
  }

  /** The payload comes back whole exactly when the block is framed. */
  lemma FoundWhole(payload: string, tip: string)
    requires OneHeading(payload)
    ensures FoundIn(payload, tip) == Link(payload, tip) <==> Framed(payload)
    ensures !Framed(payload) ==> |Lines(FoundIn(payload, tip).payload)| < |Lines(payload)|
  {
    hide FirstMarker, Join, Lines, Heads, MarkedAt;
    var lines := Lines(payload);
    var rest := lines[1..];
    var k := MarkedAt(rest);
    assert forall i | 0 <= i < |rest| :: lines[i + 1] == rest[i];
    if k < |rest| {
      assert rest[k] in rest;
      LinesAreOneLine(payload);
      assert forall l | l in lines[..k + 1] :: l in lines;
      BlockLines(lines[..k + 1]);
    }
  }

  /** Lines held by the links found so far and by the open block. */
  function Held(st: Scan): nat { LineCount(st.links) + |st.block| }

  function LineCount(links: seq<Link>): nat {
    if links == [] then 0 else LineCount(Front(links)) + |Lines(Last(links).payload)|
  }

  lemma LineCountMore(links: seq<Link>, link: Link)
    ensures LineCount(links + [link]) == LineCount(links) + |Lines(link.payload)|
  {
    assert Front(links + [link]) == links;
  }

  predicate Sound(st: Scan) {
    (st.inBlock <==> st.block != []) && forall l | l in st.block :: OneLine(l)
  }

  lemma BlockLines(block: seq<string>)
    requires block != [] && forall l | l in block :: OneLine(l)
    ensures Lines(Join(block)) == block
  {
    LinesOfJoin(block);
    FlatLinesOfOneLiners(block);
  }

  /** No step gains more than its own line, and a disturbing line inside a block gains nothing. */
  lemma StepHolds(st: Scan, line: string)
    requires Sound(st) && OneLine(line)
    ensures Sound(ScanStep(st, line)) && Held(ScanStep(st, line)) <= Held(st) + 1
    ensures st.inBlock && Disturbs(line) ==> Held(ScanStep(st, line)) <= Held(st)
  {
    hide FirstMarker, Join, Lines, LineCount;
    if !Heads(line) && FirstMarker(line).Some? && st.inBlock {
      BlockLines(st.block);
      LineCountMore(st.links, Link(Join(st.block), FirstMarker(line).value));
    }
  }

  lemma {:induction false} LinesHold(st: Scan, lines: seq<string>)
    requires Sound(st) && forall l | l in lines :: OneLine(l)
    ensures Held(ScanLines(st, lines)) <= Held(st) + |lines|
    ensures st.inBlock && (exists l | l in lines :: Disturbs(l)) ==> Held(ScanLines(st, lines)) < Held(st) + |lines|
    decreases |lines|
  {
    hide ScanStep, Held, Disturbs;
    if lines != [] {
      var next := ScanStep(st, lines[0]);
      assert lines[0] in lines && forall l | l in lines[1..] :: l in lines;
      StepHolds(st, lines[0]);
      LinesHold(next, lines[1..]);
      if st.inBlock && !Disturbs(lines[0]) {
        QuietStays(st, lines[0]);
        assert forall l | l in lines :: l == lines[0] || l in lines[1..];
      }
    }
  }

  lemma QuietStays(st: Scan, line: string)
    requires st.inBlock && !Disturbs(line)
    ensures ScanStep(st, line).inBlock
  {
    hide FirstMarker;
  }

  /** A block's framing is exactly what lets the scanner find it again. */
  lemma FramingIsExact(payload: string, tip: string)
    requires Heads(Lines(payload)[0]) && IsHex(tip)
    ensures ScanLines(START, Lines(payload) + [MarkerLine(tip)]).links == [Link(payload, tip)] <==> Framed(payload)
  {
    hide FirstMarker, MarkerLine, Lines, ScanLines, LineCount, Disturbs;
    var lines := Lines(payload);
    if Framed(payload) {
      FramedRead(START, payload, tip);
    } else {
      assert lines == [lines[0]] + lines[1..];
      var rest := lines[1..];
      LinesAreOneLine(payload);
      assert forall l | l in rest :: l in lines;
      var begun := Scan([], [lines[0]], true);
      ScanOne(START, lines[0]);
      ScanLinesAppend(START, lines, [MarkerLine(tip)]);
      ScanLinesAppend(START, [lines[0]], rest);
      LinesHold(begun, rest);
      var before := ScanLines(begun, rest);
      ScanOne(before, MarkerLine(tip));
      MarkerEnds(begun, rest, tip);
      NoLines();
      LineCountMore([], Link(payload, tip));
      assert [] + [Link(payload, tip)] == [Link(payload, tip)];
    }
  }

  lemma NoLines()
    ensures LineCount([]) == 0
  {
  }

  /** The closing marker adds no line to what is held. */
  lemma MarkerEnds(st: Scan, lines: seq<string>, tip: string)
    requires Sound(st) && IsHex(tip) && forall l | l in lines :: OneLine(l)
    ensures LineCount(ScanStep(ScanLines(st, lines), MarkerLine(tip)).links) <= Held(ScanLines(st, lines))
  {
    hide FirstMarker, MarkerLine, Lines, ScanLines, LineCount, Join;
    MarkerLineFound(tip);
    SoundStays(st, lines);
    var before := ScanLines(st, lines);
    if before.inBlock {
      BlockLines(before.block);
      LineCountMore(before.links, Link(Join(before.block), tip));
    }
  }

  lemma {:induction false} SoundStays(st: Scan, lines: seq<string>)
    requires Sound(st) && forall l | l in lines :: OneLine(l)
    ensures Sound(ScanLines(st, lines))
    decreases |lines|
  {
    hide ScanStep, Held, Disturbs;
    if lines != [] {
      assert lines[0] in lines && forall l | l in lines[1..] :: l in lines;
      StepHolds(st, lines[0]);
      SoundStays(ScanStep(st, lines[0]), lines[1..]);
    }
  }
}
