/** trailfile.go, the markdown codec over time: a trail file opened, written and closed by any number
    of sessions carries one chain. */
module TrailFiles {
  import opened Chain
  import opened Options
  import opened Section
  import opened SectionFacts
  import opened Text
  import opened TrailMarkdown
  import opened TrailRecord

  /** The file's text, and what the open handle knows of it. */
  datatype Trail = Trail(text: string, tip: string, lastCycle: nat, maxCycle: nat)

  // -- resuming ------------------------------------------------------------------------------------

  const CYCLE := "## Cycle "

  /** The number of a cycle heading. */
  function CycleOf(line: string): Option<nat> {
    if CYCLE <= line && DigitSpan(line[|CYCLE|..]) > 0 then
      var n := DigitSpan(line[|CYCLE|..]);
      Some(Number(line[|CYCLE|..][..n]))
    else None
  }

  function Max(a: nat, b: nat): nat { if a < b then b else a }

  function MaxCycleIn(lines: seq<string>): nat {
    if lines == [] then 0
    else Max(MaxCycleIn(Front(lines)), if CycleOf(Last(lines)).Some? then CycleOf(Last(lines)).value else 0)
  }

  /** What opening the file finds: the last marker and the highest cycle number. */
  function Resumed(text: string): Trail {
    var highest := MaxCycleIn(Lines(text));
    Trail(text, if LastMarker(text).Some? then LastMarker(text).value else GENESIS, highest, highest)
  }

  // -- writing -------------------------------------------------------------------------------------

  function CycleLine(r: Record): string { CYCLE + Decimal(r.cycle) + " -- " + r.stamp + " UTC" }

  function CycleHeading(r: Record): string { "\n" + CycleLine(r) + "\n\n" }

  function Written(hash: Hash, t: Trail, r: Record): Trail {
    var heading := if r.cycle != t.lastCycle then CycleHeading(r) else "";
    var tip := ChainLink(hash, t.tip, Block(r));
    Trail(t.text + heading + Block(r) + "\n" + MarkerLine(tip) + "\n", tip, r.cycle, t.maxCycle)
  }

  /** A write that fails: the handle has moved on, the file has not. */
  function Lost(hash: Hash, t: Trail, r: Record): Trail {
    t.(tip := ChainLink(hash, t.tip, Block(r)), lastCycle := r.cycle)
  }

  class TrailFile {
    var text: string
    var tip: string
    var lastCycle: nat
    var maxCycle: nat
    var open: bool

    function State(): Trail
      reads this
    {
      Trail(text, tip, lastCycle, maxCycle)
    }

    /** OpenTrailFile on a file that holds `found`. */
    constructor (found: string)
      ensures State() == Resumed(found) && open
    {
      text, tip, lastCycle, maxCycle, open := found, GENESIS, 0, 0, true;
      new;
      var lines := Lines(found);
      var i := 0;
      while i < |lines|
        invariant 0 <= i <= |lines|
        invariant maxCycle == MaxCycleIn(lines[..i]) && text == found && tip == GENESIS && open
      {
        assert Front(lines[..i + 1]) == lines[..i];
        var number := CycleOf(lines[i]);
        if number.Some? && number.value > maxCycle {
          maxCycle := number.value;
        }
        i := i + 1;
      }
      assert lines[..i] == lines;
      if LastMarker(found).Some? {
        tip := LastMarker(found).value;
      }
      lastCycle := maxCycle;
    }

    /** A closed file refuses. An open one moves the tip and appends the record, unless the write
        fails and nothing reaches the file; the tip has moved all the same. */
    method WriteRecord(hash: Hash, r: Record, accepted: bool) returns (ok: bool)
      modifies this
      ensures open == old(open) && ok == (open && accepted)
      ensures State() == if ok then Written(hash, old(State()), r)
                         else if open then Lost(hash, old(State()), r) else old(State())
      ensures ok ==> tip == hash(old(tip) + "\n" + Block(r)) && lastCycle == r.cycle
      ensures ok ==> text == old(text) + (if r.cycle == old(lastCycle) then ""
                                          else "\n## Cycle " + Decimal(r.cycle) + " -- " + r.stamp + " UTC\n\n")
                             + Block(r) + "\n<!-- chain: " + tip + " -->\n"
    {
      hide Block, CycleLine, MarkerLine;
      if !open {
        return false;
      }
      var b := "";
      if r.cycle != lastCycle {
        lastCycle := r.cycle;
        b := b + ("\n" + CycleLine(r) + "\n\n");
      }
      var payload := RecordMarkdown(r);
      tip := ChainLink(hash, tip, payload);
      b := b + payload + ("\n" + MarkerLine(tip) + "\n");
      HeadingOut(r);
      MarkerOut(text + (if r.cycle != old(lastCycle) then CycleHeading(r) else "") + payload, tip);
      AppendedAlike(text, if r.cycle != old(lastCycle) then CycleHeading(r) else "", payload, MarkerLine(tip));
      if accepted {
        text := text + b;
      }
      ok := accepted;
    }

    method Close()
      modifies this`open
      ensures !open
    {
      open := false;
    }
  }

  lemma HeadingOut(r: Record)
    ensures CycleHeading(r) == "\n## Cycle " + Decimal(r.cycle) + " -- " + r.stamp + " UTC\n\n"
  {
    hide Decimal;
    var number := Decimal(r.cycle);
    assert "\n" + "## Cycle " == "\n## Cycle " && " UTC" + "\n\n" == " UTC\n\n";
    assert CycleHeading(r) == "\n" + "## Cycle " + number + " -- " + r.stamp + (" UTC" + "\n\n");
  }

  lemma MarkerOut(before: string, tip: string)
    ensures before + "\n" + MarkerLine(tip) + "\n" == before + "\n<!-- chain: " + tip + " -->\n"
  {
    assert "\n" + "<!-- chain: " == "\n<!-- chain: " && " -->" + "\n" == " -->\n";
    assert before + "\n" + MarkerLine(tip) + "\n" == before + ("\n" + "<!-- chain: ") + tip + (" -->" + "\n");
  }

  /** The highest number of a cycle heading, zero when there is none. */
  lemma {:induction false} HighestCycle(lines: seq<string>)
    ensures forall l | l in lines && CycleOf(l).Some? :: CycleOf(l).value <= MaxCycleIn(lines)
    ensures MaxCycleIn(lines) == 0 || exists l :: l in lines && CycleOf(l) == Some(MaxCycleIn(lines))
  {
    hide CycleOf;
    if lines != [] {
      HighestCycle(Front(lines));
      assert lines == Front(lines) + [Last(lines)];
      if MaxCycleIn(lines) == MaxCycleIn(Front(lines)) && MaxCycleIn(lines) != 0 {
        var l :| l in Front(lines) && CycleOf(l) == Some(MaxCycleIn(lines));
        assert l in lines;
      }
      assert Last(lines) in lines;
    }
  }

  /** Where a cycle heading's number is found: the digits right behind its words. */
  lemma CycleNumberIs(n: nat, rest: string)
    requires rest == "" || !IsDigit(rest[0])
    ensures CycleOf("## Cycle " + Decimal(n) + rest) == Some(n)
  {
    var line := "## Cycle " + Decimal(n) + rest;
    assert line == CYCLE + (Decimal(n) + rest) && line[|CYCLE|..] == Decimal(n) + rest;
    NumberOfDecimal(n);
    DigitSpanOf(Decimal(n), rest);
    assert (Decimal(n) + rest)[..|Decimal(n)|] == Decimal(n);
  }

  lemma AppendedAlike(text: string, heading: string, payload: string, marker: string)
    ensures text + ("" + heading + payload + ("\n" + marker + "\n")) == text + heading + payload + "\n" + marker + "\n"
    ensures text + (heading + payload + ("\n" + marker + "\n")) == text + heading + payload + "\n" + marker + "\n"
  {
  }

  /** VerifyTrail over the text of a markdown trail. */
  method VerifyTrail(hash: Hash, text: string) returns (verdict: Verdict, reported: string)
    ensures verdict == NoRecords <==> LinksOf(text) == []
    ensures verdict.Intact? <==> LinksOf(text) != [] && Verified(hash, LinksOf(text))
    ensures verdict.Intact? ==> verdict.records == |LinksOf(text)|
    ensures verdict.Broken? ==> BreaksAt(hash, LinksOf(text), verdict.at)
    ensures verdict.Broken? ==> reported == LabelOf(LinksOf(text)[verdict.at].payload)
  {
    var links, labels := ChainLinksMd(text);
    verdict := VerifyLinks(hash, links);
    reported := if verdict.Broken? then labels[verdict.at] else "";
  }

  // -- one write -----------------------------------------------------------------------------------

  function Blocks(records: seq<Record>): (r: seq<string>)
    ensures |r| == |records| && forall i | 0 <= i < |r| :: r[i] == Block(records[i])
  {
    seq(|records|, i requires 0 <= i < |records| => Block(records[i]))
  }

  /** Names, keys and time on single lines; the content is free. */
  predicate Lined(r: Record) { SingleLine(r) && OneLine(r.stamp) }

  /** The links a scanner finds of some written records. */
  function FoundAll(hash: Hash, records: seq<Record>): (r: seq<Link>)
    ensures |r| == |records|
  {
    if records == [] then []
    else FoundAll(hash, Front(records)) + [FoundIn(Block(Last(records)), TipOver(hash, Blocks(records)))]
  }

  /** The handle and its file after some records: whole lines, one link a record, the tip of their
      chain, no cycle number missed. */
  ghost predicate Keeps(hash: Hash, t: Trail, records: seq<Record>) {
    && Last(Lines(t.text)) == ""
    && ScanLines(START, Front(Lines(t.text))) == Scan(FoundAll(hash, records), [], false)
    && t.tip == TipOver(hash, Blocks(records))
    && LastMarker(t.text) == (if records == [] then None else Some(t.tip))
    && t.lastCycle <= MaxCycleIn(Lines(t.text))
    && forall r | r in records :: r.cycle <= MaxCycleIn(Lines(t.text))
  }

  lemma EmptyKeeps(hash: Hash)
    ensures Keeps(hash, Resumed(""), [])
  {
    assert Lines("") == [""] && Front([""]) == [];
    assert Blocks([]) == [];
  }

  /** Reopening the file finds the tip the last session left. */
  lemma ResumeKeeps(hash: Hash, t: Trail, records: seq<Record>)
    requires Keeps(hash, t, records)
    ensures Keeps(hash, Resumed(t.text), records)
  {
    hide ScanLines, Lines, LastMarker, MaxCycleIn, FoundAll, Blocks;
    if records == [] {
      NoTip(hash);
    }
  }

  lemma NoTip(hash: Hash)
    ensures TipOver(hash, Blocks([])) == GENESIS
  {
  }

  /** The lines one write appends. */
  function HeadingLines(t: Trail, r: Record): seq<string> {
    if r.cycle != t.lastCycle then ["", CycleLine(r), ""] else []
  }

  lemma HeadedLines(line: string, rest: string)
    requires OneLine(line)
    ensures Lines("\n" + line + "\n\n" + rest) == ["", line, ""] + Lines(rest)
  {
    hide Lines;
    var tail := "\n" + rest;
    assert "\n" + line + "\n\n" + rest == "" + "\n" + (line + "\n" + ("" + "\n" + rest));
    LinesOfBoth("", line + "\n" + ("" + "\n" + rest));
    LinesOfBoth(line, "" + "\n" + rest);
    LinesOfBoth("", rest);
    OneLineIsItsLine("");
    OneLineIsItsLine(line);
  }

  lemma DecimalOneLine(n: nat)
    ensures OneLine(Decimal(n))
  {
    NumberOfDecimal(n);
  }

  lemma CycleLineOneLine(r: Record)
    requires OneLine(r.stamp)
    ensures OneLine(CycleLine(r))
  {
    DecimalOneLine(r.cycle);
  }

  /** A block and its marker, each line closed. */
  function Closed(block: string, marker: string): string { block + "\n" + (marker + "\n" + "") }

  lemma ClosedLines(block: string, marker: string)
    requires OneLine(marker)
    ensures Lines(Closed(block, marker)) == Lines(block) + [marker] + [""]
  {
    hide Lines;
    LinesOfBoth(block, marker + "\n" + "");
    LinesOfBoth(marker, "");
    OneLineIsItsLine(marker);
    OneLineIsItsLine("");
  }

  lemma AppendedText(hash: Hash, t: Trail, r: Record)
    ensures Written(hash, t, r).text
         == t.text + ((if r.cycle != t.lastCycle then CycleHeading(r) else "")
                      + Closed(Block(r), MarkerLine(Written(hash, t, r).tip)))
  {
    hide Block, MarkerLine, CycleLine;
  }

  lemma HeadingFirst(t: Trail, r: Record, body: string)
    requires OneLine(r.stamp)
    ensures Lines((if r.cycle != t.lastCycle then CycleHeading(r) else "") + body) == HeadingLines(t, r) + Lines(body)
  {
    hide Lines, CycleLine;
    CycleLineOneLine(r);
    HeadedLines(CycleLine(r), body);
    assert "" + body == body;
  }

  lemma WrittenLines(hash: Hash, t: Trail, r: Record)
    requires Last(Lines(t.text)) == "" && OneLine(r.stamp) && HexOutput(hash)
    ensures Lines(Written(hash, t, r).text)
         == Front(Lines(t.text)) + HeadingLines(t, r) + Lines(Block(r)) + [MarkerLine(Written(hash, t, r).tip)] + [""]
  {
    hide Lines, MarkerLine, CycleLine, Block, Closed, CycleHeading, HeadingLines;
    var marker := MarkerLine(Written(hash, t, r).tip);
    assert IsHex(Written(hash, t, r).tip);
    MarkerLineFound(Written(hash, t, r).tip);
    ClosedLines(Block(r), marker);
    HeadingFirst(t, r, Closed(Block(r), marker));
    AppendedText(hash, t, r);
    LinesAppend(t.text, (if r.cycle != t.lastCycle then CycleHeading(r) else "") + Closed(Block(r), marker));
  }

  lemma HeadingScanned(st: Scan, t: Trail, r: Record)
    requires !st.inBlock
    ensures ScanLines(st, HeadingLines(t, r)) == st
  {
    hide ScanLines, FirstMarker;
    if r.cycle != t.lastCycle {
      var line := CycleLine(r);
      assert !Heads(line) by {
        assert line[2] == ' ' && "### "[2] == '#';
      }
      assert ["", line, ""] == [""] + [line] + [""];
      ScanLinesAppend(st, [""] + [line], [""]);
      ScanLinesAppend(st, [""], [line]);
      ScanOne(st, "");
      ScanOne(st, line);
    } else {
      ScanNothing(st);
    }
  }

  lemma ScanNothing(st: Scan)
    ensures ScanLines(st, []) == st
  {
  }

  lemma {:induction false} MaxCycleAppend(a: seq<string>, b: seq<string>)
    ensures MaxCycleIn(a + b) == Max(MaxCycleIn(a), MaxCycleIn(b))
  {
    if b == [] {
      assert a + b == a;
    } else {
      assert Front(a + b) == a + Front(b);
      MaxCycleAppend(a, Front(b));
    }
  }

  lemma CycleLineNumber(r: Record)
    ensures CycleOf(CycleLine(r)) == Some(r.cycle)
  {
    var digits, rest := Decimal(r.cycle), " -- " + r.stamp + " UTC";
    NumberOfDecimal(r.cycle);
    assert CycleLine(r) == CYCLE + (digits + rest);
    assert CycleLine(r)[|CYCLE|..] == digits + rest;
    DigitSpanOf(digits, rest);
    assert (digits + rest)[..|digits|] == digits;
  }

  lemma HeadingNumber(t: Trail, r: Record)
    requires r.cycle != t.lastCycle
    ensures MaxCycleIn(HeadingLines(t, r)) >= r.cycle
  {
    hide CycleOf, CycleLine;
    CycleLineNumber(r);
    var lines := HeadingLines(t, r);
    assert lines == [""] + [CycleLine(r)] + [""];
    assert Front(lines) == [""] + [CycleLine(r)];
    assert Last(Front(lines)) == CycleLine(r);
  }

  /** No cycle number is lost, and the new record's number is there. */
  lemma WrittenCycles(hash: Hash, t: Trail, r: Record)
    requires Last(Lines(t.text)) == "" && OneLine(r.stamp) && HexOutput(hash)
    requires t.lastCycle <= MaxCycleIn(Lines(t.text))
    ensures MaxCycleIn(Lines(Written(hash, t, r).text)) >= MaxCycleIn(Lines(t.text))
    ensures MaxCycleIn(Lines(Written(hash, t, r).text)) >= r.cycle
  {
    hide MaxCycleIn, Lines, HeadingLines, MarkerLine, Block, CycleLine, Written, HexOutput;
    WrittenLines(hash, t, r);
    var front, heading := Front(Lines(t.text)), HeadingLines(t, r);
    var more := Lines(Block(r)) + [MarkerLine(Written(hash, t, r).tip)] + [""];
    assert Lines(Written(hash, t, r).text) == front + (heading + more);
    assert Lines(t.text) == front + [""];
    MaxCycleAppend(front, heading + more);
    MaxCycleAppend(heading, more);
    MaxCycleAppend(front, [""]);
    BlankHasNoCycle();
    if r.cycle != t.lastCycle {
      HeadingNumber(t, r);
    }
  }

  lemma BlankHasNoCycle()
    ensures MaxCycleIn([""]) == 0
  {
    assert Front([""]) == [];
  }

  lemma WrittenScans(hash: Hash, t: Trail, r: Record)
    requires Last(Lines(t.text)) == "" && Lined(r) && HexOutput(hash)
    requires !ScanLines(START, Front(Lines(t.text))).inBlock
    ensures ScanLines(START, Front(Lines(Written(hash, t, r).text)))
         == Scan(ScanLines(START, Front(Lines(t.text))).links + [FoundIn(Block(r), Written(hash, t, r).tip)], [], false)
  {
    hide Lines, MarkerLine, CycleLine, Block, HeadingLines, ScanLines, SingleLine, OneHeading, FoundIn,
      MarkedAt, TipOver;
    var tip := Written(hash, t, r).tip;
    WrittenLines(hash, t, r);
    var front, heading, block := Front(Lines(t.text)), HeadingLines(t, r), Lines(Block(r)) + [MarkerLine(tip)];
    assert Front(Lines(Written(hash, t, r).text)) == front + heading + block;
    BlockHasOneHeading(r);
    assert IsHex(tip);
    var st := ScanLines(START, front);
    ScanLinesAppend(START, front + heading, block);
    ScanLinesAppend(START, front, heading);
    HeadingScanned(st, t, r);
    HeadedRead(st, Block(r), tip);
  }

  /** One record written keeps the chain, and adds exactly one link. */
  lemma WriteKeeps(hash: Hash, t: Trail, records: seq<Record>, r: Record)
    requires Keeps(hash, t, records) && Lined(r) && HexOutput(hash)
    ensures Keeps(hash, Written(hash, t, r), records + [r])
  {
    hide Lines, MarkerLine, CycleLine, Block, HeadingLines, ScanLines, SingleLine, MaxCycleIn, LastMarker, FoundAll,
      FoundIn, TipOver;
    var t' := Written(hash, t, r);
    WrittenLines(hash, t, r);
    WrittenScans(hash, t, r);
    WrittenCycles(hash, t, r);
    assert Blocks(records + [r]) == Blocks(records) + [Block(r)];
    FoundMore(hash, records, r);
    TipMore(hash, Blocks(records), Block(r));
    assert IsHex(t'.tip);
    var heading := if r.cycle != t.lastCycle then CycleHeading(r) else "";
    MarkerLineLast(t.text + heading + Block(r) + "\n", t'.tip);
  }

  lemma FoundMore(hash: Hash, records: seq<Record>, r: Record)
    ensures FoundAll(hash, records + [r])
         == FoundAll(hash, records) + [FoundIn(Block(r), TipOver(hash, Blocks(records + [r])))]
  {
    hide TipOver, FoundIn, Block;
    assert Front(records + [r]) == records;
  }

  // -- many sessions -------------------------------------------------------------------------------

  function WriteAll(hash: Hash, t: Trail, records: seq<Record>): Trail {
    if records == [] then t else Written(hash, WriteAll(hash, t, Front(records)), Last(records))
  }

  /** The file after some sessions, each of which opened it, wrote its records and closed it. */
  function FileAfter(hash: Hash, sessions: seq<seq<Record>>): string {
    if sessions == [] then "" else WriteAll(hash, Resumed(FileAfter(hash, Front(sessions))), Last(sessions)).text
  }

  function AllRecords(sessions: seq<seq<Record>>): seq<Record> {
    if sessions == [] then [] else AllRecords(Front(sessions)) + Last(sessions)
  }

  lemma {:induction false} SessionKeeps(hash: Hash, t: Trail, before: seq<Record>, records: seq<Record>)
    requires Keeps(hash, t, before) && HexOutput(hash) && forall r | r in records :: Lined(r)
    ensures Keeps(hash, WriteAll(hash, t, records), before + records)
  {
    hide Keeps, Lined, Written;
    if records == [] {
      assert before + records == before;
    } else {
      assert Last(records) in records && forall r | r in Front(records) :: r in records;
      SessionKeeps(hash, t, before, Front(records));
      WriteKeeps(hash, WriteAll(hash, t, Front(records)), before + Front(records), Last(records));
      assert before + records == before + Front(records) + [Last(records)];
    }
  }

  lemma {:induction false} SessionsKeep(hash: Hash, sessions: seq<seq<Record>>)
    requires HexOutput(hash) && forall r | r in AllRecords(sessions) :: Lined(r)
    ensures Keeps(hash, Resumed(FileAfter(hash, sessions)), AllRecords(sessions))
  {
    hide Keeps, Lined, Written, Resumed, WriteAll;
    if sessions == [] {
      EmptyKeeps(hash);
    } else {
      var opened' := Resumed(FileAfter(hash, Front(sessions)));
      SessionsKeep(hash, Front(sessions));
      SessionKeeps(hash, opened', AllRecords(Front(sessions)), Last(sessions));
      ResumeKeeps(hash, WriteAll(hash, opened', Last(sessions)), AllRecords(sessions));
    }
  }

  lemma KeptFile(hash: Hash, text: string, records: seq<Record>)
    requires Keeps(hash, Resumed(text), records)
    ensures LinksOf(text) == FoundAll(hash, records) && Resumed(text).tip == TipOver(hash, Blocks(records))
    ensures forall r | r in records :: r.cycle <= Resumed(text).maxCycle
  {
    hide ScanLines, Lines, LastMarker, MaxCycleIn, FoundAll, TipOver, Blocks;
    assert Lines(text) == Front(Lines(text)) + [""];
    ScanLinesAppend(START, Front(Lines(text)), [""]);
    BlankScanned(FoundAll(hash, records));
  }

  lemma BlankScanned(links: seq<Link>)
    ensures ScanLines(Scan(links, [], false), [""]) == Scan(links, [], false)
  {
    ScanOne(Scan(links, [], false), "");
  }

  /** However the records were split into sessions and whatever their content, the file holds one link
      a record, the next session resumes at exactly the tip of their chain, and every cycle number
      written is at most the one numbering resumes from. */
  lemma ManySessionsOneTip(hash: Hash, sessions: seq<seq<Record>>)
    requires HexOutput(hash) && forall r | r in AllRecords(sessions) :: Lined(r)
    ensures var text, records := FileAfter(hash, sessions), AllRecords(sessions);
            && LinksOf(text) == FoundAll(hash, records) && |LinksOf(text)| == |records|
            && Resumed(text).tip == TipOver(hash, Blocks(records))
            && forall r | r in records :: r.cycle <= Resumed(text).maxCycle
  {
    hide LinksOf, Keeps, FoundAll, TipOver, Lined, Blocks, FileAfter, AllRecords;
    SessionsKeep(hash, sessions);
    KeptFile(hash, FileAfter(hash, sessions), AllRecords(sessions));
  }

  lemma {:induction false} FoundAt(hash: Hash, records: seq<Record>, i: nat)
    requires i < |records|
    ensures FoundAll(hash, records)[i] == FoundIn(Block(records[i]), TipOver(hash, Blocks(records[..i + 1])))
    ensures Stamp(hash, Blocks(records))[i] == Link(Block(records[i]), TipOver(hash, Blocks(records[..i + 1])))
  {
    hide TipOver, FoundIn, Block, FoundAll, Stamp;
    var front, last := Front(records), Last(records);
    assert records == front + [last];
    assert Blocks(records) == Blocks(front) + [Block(last)];
    FoundMore(hash, front, last);
    StampMore(hash, Blocks(front), Block(last));
    if i < |front| {
      FoundAt(hash, front, i);
      assert front[..i + 1] == records[..i + 1];
    } else {
      assert records[..i + 1] == records;
    }
  }

  lemma FoundAsStamped(hash: Hash, records: seq<Record>, i: nat)
    requires i < |records| && Lined(records[i])
    ensures FoundAll(hash, records)[i] == Stamp(hash, Blocks(records))[i] <==> MarkerFree(records[i])
    ensures FoundAll(hash, records)[i].payload == Block(records[i]) <==> MarkerFree(records[i])
  {
    hide TipOver, FoundIn, Block, FoundAll, Stamp, MarkerFree, SingleLine, OneHeading, Framed;
    FoundAt(hash, records, i);
    BlockHasOneHeading(records[i]);
    BlockIsFramed(records[i]);
    FoundWhole(Block(records[i]), TipOver(hash, Blocks(records[..i + 1])));
  }

  /** What the scanner finds is what was written exactly when no record's content holds a chain marker
      of its own: such a record's block comes back cut short, under the inner marker's hash. */
  lemma FoundExactlyMarkerFree(hash: Hash, sessions: seq<seq<Record>>)
    requires HexOutput(hash) && forall r | r in AllRecords(sessions) :: Lined(r)
    ensures LinksOf(FileAfter(hash, sessions)) == Stamp(hash, Blocks(AllRecords(sessions)))
       <==> forall r | r in AllRecords(sessions) :: MarkerFree(r)
  {
    hide LinksOf, Stamp, TipOver, Lined, Blocks, FileAfter, AllRecords, FoundAll, MarkerFree;
    ManySessionsOneTip(hash, sessions);
    var records := AllRecords(sessions);
    forall i | 0 <= i < |records|
      ensures FoundAll(hash, records)[i] == Stamp(hash, Blocks(records))[i] <==> MarkerFree(records[i])
    {
      assert records[i] in records;
      FoundAsStamped(hash, records, i);
    }
  }

  /** Without such markers the file holds one chain, found again exactly and accepted. */
  lemma ManySessionsOneChain(hash: Hash, sessions: seq<seq<Record>>)
    requires HexOutput(hash) && forall r | r in AllRecords(sessions) :: Lined(r) && MarkerFree(r)
    ensures var text, blocks := FileAfter(hash, sessions), Blocks(AllRecords(sessions));
            && LinksOf(text) == Stamp(hash, blocks)
            && Resumed(text).tip == TipOver(hash, blocks)
            && Verified(hash, LinksOf(text)) && Payloads(LinksOf(text)) == blocks
  {
    hide LinksOf, Stamp, TipOver, Lined, Verified, Payloads, Blocks, FileAfter, AllRecords, MarkerFree;
    ManySessionsOneTip(hash, sessions);
    FoundExactlyMarkerFree(hash, sessions);
    StampIsVerified(hash, Blocks(AllRecords(sessions)));
  }

  /** A record whose inner marker carries the very hash the verifier computes over the block cut short. */
  predicate Forged(hash: Hash, records: seq<Record>, i: nat)
    requires i < |records|
  {
    var link := FoundAll(hash, records)[i];
    !MarkerFree(records[i]) && link.stored == ChainLink(hash, TipOver(hash, Blocks(records)[..i]), link.payload)
  }

  lemma CutBreaksHere(hash: Hash, records: seq<Record>, i: nat)
    requires i < |records| && !MarkerFree(records[i]) && !Forged(hash, records, i)
    requires forall r | r in records :: Lined(r)
    requires forall k | 0 <= k < i :: MarkerFree(records[k])
    ensures BreaksAt(hash, FoundAll(hash, records), i)
  {
    hide TipOver, FoundIn, Block, FoundAll, Stamp, MarkerFree, Lined, Blocks, Verified;
    var found, blocks := FoundAll(hash, records), Blocks(records);
    forall k | 0 <= k < i
      ensures found[k] == Stamp(hash, blocks)[k]
    {
      assert records[k] in records;
      FoundAsStamped(hash, records, k);
    }
    assert found[..i] == Stamp(hash, blocks)[..i];
    StampIsVerified(hash, blocks);
    VerifiedPrefix(hash, Stamp(hash, blocks), i);
    assert Payloads(found[..i]) == Payloads(Stamp(hash, blocks))[..i] == blocks[..i];
    TipOverMore(hash, found, i);
  }

  /** Nothing was altered, and the file verifies if and only if no record's content holds a chain marker,
      unless such a marker carries the right hash of its own cut block. */
  lemma VerifiesExactlyMarkerFree(hash: Hash, sessions: seq<seq<Record>>)
    requires HexOutput(hash) && forall r | r in AllRecords(sessions) :: Lined(r)
    requires forall i | 0 <= i < |AllRecords(sessions)| :: !Forged(hash, AllRecords(sessions), i)
    ensures Verified(hash, LinksOf(FileAfter(hash, sessions)))
       <==> forall r | r in AllRecords(sessions) :: MarkerFree(r)
  {
    hide LinksOf, FileAfter, AllRecords, FoundAll, Forged, MarkerFree, Lined, Verified, BreaksAt, Blocks, Stamp;
    var records := AllRecords(sessions);
    ManySessionsOneTip(hash, sessions);
    if forall r | r in records :: MarkerFree(r) {
      ManySessionsOneChain(hash, sessions);
    } else {
      var i := FirstMarkedRecord(records);
      CutBreaksHere(hash, records, i);
      BrokenIsNotVerified(hash, FoundAll(hash, records), i);
    }
  }

  lemma {:induction false} FirstMarkedRecord(records: seq<Record>) returns (i: nat)
    requires exists r | r in records :: !MarkerFree(r)
    ensures i < |records| && !MarkerFree(records[i]) && forall k | 0 <= k < i :: MarkerFree(records[k])
  {
    hide MarkerFree;
    if MarkerFree(records[0]) {
      assert records == [records[0]] + records[1..];
      i := FirstMarkedRecord(records[1..]);
      i := i + 1;
    } else {
      i := 0;
    }
  }

  /** Even when a marker carries the right hash of its cut block, the untouched file fails at or before
      any marker-free record that follows, unless texts collide. */
  lemma InnerMarkerBreaksTheTrail(hash: Hash, sessions: seq<seq<Record>>, i: nat, j: nat)
    requires HexOutput(hash) && forall r | r in AllRecords(sessions) :: Lined(r)
    requires i < j < |AllRecords(sessions)|
    requires !MarkerFree(AllRecords(sessions)[i]) && MarkerFree(AllRecords(sessions)[j])
    requires CollisionFree(hash, Texts(hash, Stamp(hash, Blocks(AllRecords(sessions))))
                                 + Texts(hash, FoundAll(hash, AllRecords(sessions))[..j + 1]))
    ensures exists k | 0 <= k <= j :: BreaksAt(hash, LinksOf(FileAfter(hash, sessions)), k)
  {
    hide LinksOf, Blocks, Texts, Stamp, FileAfter, CollisionFree, BreaksAt, FoundAll, Lined, AllRecords, MarkerFree,
      Verified;
    var records := AllRecords(sessions);
    assert records[i] in records && records[j] in records;
    ManySessionsOneTip(hash, sessions);
    var original, found := Stamp(hash, Blocks(records)), FoundAll(hash, records);
    FoundAsStamped(hash, records, i);
    FoundAsStamped(hash, records, j);
    StampIsVerified(hash, Blocks(records));
    assert original[..j + 1][i] != found[..j + 1][i];
    TamperingIsReported(hash, original, j, found, j);
  }

  /** A record whose rationale quotes a chain marker. */
  const QUOTING := Record(1, "decision", "2026-01-02 15:04:05", map[], "", MarkerLine("a"), "")

  lemma QuotingIsLined()
    ensures Lined(QUOTING) && !MarkerFree(QUOTING)
  {
    hide MarkerFree, FirstMarker, MarkerLine, Lines, Block;
    MarkerLineFound("a");
    OneLineIsItsLine(QUOTING.rationale);
    MarkerInRationale(QUOTING, MarkerLine("a"));
  }

  /** Written by itself, it comes back cut short. */
  lemma QuotedMarkerIsCut(hash: Hash)
    requires HexOutput(hash)
    ensures LinksOf(FileAfter(hash, [[QUOTING]])) != Stamp(hash, Blocks([QUOTING]))
  {
    hide LinksOf, Stamp, FileAfter, Blocks, MarkerFree, Lined;
    QuotingIsLined();
    assert Front([[QUOTING]]) == [] && AllRecords([[QUOTING]]) == [QUOTING];
    assert QUOTING in [QUOTING];
    FoundExactlyMarkerFree(hash, [[QUOTING]]);
  }

  /** Whatever stands in the file later: if it still holds a stored hash at a place where anything
      before or at it differs from what the sessions stamped, verifying it reports a break at or before
      that place. */
  lemma AlteredTrailIsReported(hash: Hash, sessions: seq<seq<Record>>, i: nat, found: string, j: nat)
    requires i < |AllRecords(sessions)| && j < |LinksOf(found)| && HexOutput(hash)
    requires var original := Stamp(hash, Blocks(AllRecords(sessions)));
             && CollisionFree(hash, Texts(hash, original) + Texts(hash, LinksOf(found)[..j + 1]))
             && original[i].stored == LinksOf(found)[j].stored
             && (i != j || original[..i + 1] != LinksOf(found)[..j + 1])
    ensures exists k | 0 <= k <= j :: BreaksAt(hash, LinksOf(found), k)
  {
    hide LinksOf, Blocks, Texts, Stamp, FileAfter, CollisionFree, BreaksAt;
    var blocks := Blocks(AllRecords(sessions));
    StampIsVerified(hash, blocks);
    TamperingIsReported(hash, Stamp(hash, blocks), i, LinksOf(found), j);
  }
}
