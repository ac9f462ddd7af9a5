/** trailfile.go, the JSON-lines codec over time, on top of any canonical JSON library: an object's
    fields as text, written with sorted keys on one line and read back unchanged. */
module TrailJsonl {
  import opened Chain
  import opened Options
  import opened Text

  type Fields = map<string, string>

  /** encoding/json on flat objects; `number` reads a cycle field, zero when it is none. */
  datatype Json = Json(marshal: Fields -> string, unmarshal: string -> Option<Fields>, number: string -> nat)

  ghost predicate Canonical(json: Json) {
    forall m: Fields ::
      var line := json.marshal(m);
      json.unmarshal(line) == Some(m) && OneLine(line) && Trim(line) != ""
  }

  datatype Trail = Trail(text: string, tip: string, maxCycle: nat)

  // -- one line ------------------------------------------------------------------------------------

  /** The object on a line, if there is one. */
  function FieldsOn(json: Json, line: string): Option<Fields> {
    if Trim(line) == "" then None else json.unmarshal(line)
  }

  function ChainIn(fields: Fields): string { if "chain" in fields then fields["chain"] else "" }

  function CycleIn(json: Json, fields: Fields): nat { if "cycle" in fields then json.number(fields["cycle"]) else 0 }

  /** The verification link of a line: its object without the chain field, marshaled again. */
  function LinkOn(json: Json, line: string): seq<Link> {
    match FieldsOn(json, line)
    case None => []
    case Some(fields) =>
      if ChainIn(fields) == "" then [] else [Link(json.marshal(fields - {"chain"}), ChainIn(fields))]
  }

  function LinksIn(json: Json, lines: seq<string>): seq<Link> {
    if lines == [] then [] else LinksIn(json, Front(lines)) + LinkOn(json, Last(lines))
  }

  /** A line that carries a chain is a link: what is hashed is its object without that field, what is stored the field;
      any other line, and one that is no object, is none. */
  lemma LinkOnIs(json: Json, line: string, m: Fields)
    requires Trim(line) != "" && json.unmarshal(line) == Some(m)
    ensures "chain" in m && m["chain"] != "" ==>
              LinkOn(json, line) == [Link(json.marshal(map k | k in m && k != "chain" :: m[k]), m["chain"])]
              && LabelOn(json, line) == [if "stage" in m && m["stage"] != "" then m["stage"] else "?"]
    ensures !("chain" in m && m["chain"] != "") ==> LinkOn(json, line) == [] && LabelOn(json, line) == []
  {
    hide Trim;
    assert m - {"chain"} == map k | k in m && k != "chain" :: m[k];
  }

  /** What a line's record is reported under. */
  function LabelOn(json: Json, line: string): seq<string> {
    match FieldsOn(json, line)
    case None => []
    case Some(fields) =>
      if ChainIn(fields) == "" then []
      else [if "stage" in fields && fields["stage"] != "" then fields["stage"] else "?"]
  }

  function LabelsIn(json: Json, lines: seq<string>): seq<string> {
    if lines == [] then [] else LabelsIn(json, Front(lines)) + LabelOn(json, Last(lines))
  }

  method ChainLinksJsonl(json: Json, text: string) returns (links: seq<Link>, labels: seq<string>)
    ensures links == LinksIn(json, Lines(text)) && labels == LabelsIn(json, Lines(text)) && |labels| == |links|
  {
    hide Trim;
    links, labels := [], [];
    var lines := Lines(text);
    var i := 0;
    while i < |lines|
      invariant 0 <= i <= |lines|
      invariant links == LinksIn(json, lines[..i]) && labels == LabelsIn(json, lines[..i]) && |labels| == |links|
    {
      assert Front(lines[..i + 1]) == lines[..i];
      var line := lines[i];
      i := i + 1;
      if Trim(line) == "" {
        continue;
      }
      var parsed := json.unmarshal(line);
      if parsed.None? || ChainIn(parsed.value) == "" {
        continue;
      }
      links := links + [Link(json.marshal(parsed.value - {"chain"}), ChainIn(parsed.value))];
      labels := labels
          + [if "stage" in parsed.value && parsed.value["stage"] != "" then parsed.value["stage"] else "?"];
    }
    assert lines[..i] == lines;
  }

  // -- the handle ----------------------------------------------------------------------------------

  function ResumeStep(json: Json, t: Trail, line: string): Trail {
    match FieldsOn(json, line)
    case None => t
    case Some(fields) =>
      Trail(t.text, if ChainIn(fields) != "" then ChainIn(fields) else t.tip,
            if CycleIn(json, fields) > t.maxCycle then CycleIn(json, fields) else t.maxCycle)
  }

  function ResumeFrom(json: Json, t: Trail, lines: seq<string>): Trail {
    if lines == [] then t else ResumeStep(json, ResumeFrom(json, t, Front(lines)), Last(lines))
  }

  function Resumed(json: Json, text: string): Trail { ResumeFrom(json, Trail(text, GENESIS, 0), Lines(text)) }

  /** What a line says of its cycle and of its chain. */
  ghost predicate SaysCycle(json: Json, line: string, n: nat) {
    && Trim(line) != "" && json.unmarshal(line).Some?
    && "cycle" in json.unmarshal(line).value && json.number(json.unmarshal(line).value["cycle"]) == n
  }

  ghost predicate SaysChain(json: Json, line: string, chain: string) {
    && Trim(line) != "" && json.unmarshal(line).Some? && chain != ""
    && "chain" in json.unmarshal(line).value && json.unmarshal(line).value["chain"] == chain
  }

  /** Opening a file finds the highest cycle any of its lines says, zero when none does. */
  lemma {:induction false} HighestCycle(json: Json, t: Trail, lines: seq<string>)
    requires t.maxCycle == 0
    ensures var n := ResumeFrom(json, t, lines).maxCycle;
            && (forall l, k: nat | l in lines && SaysCycle(json, l, k) :: k <= n)
            && (n == 0 || exists l :: l in lines && SaysCycle(json, l, n))
  {
    hide Trim;
    if lines != [] {
      var front, last := Front(lines), Last(lines);
      HighestCycle(json, t, front);
      var n, m := ResumeFrom(json, t, front).maxCycle, ResumeFrom(json, t, lines).maxCycle;
      assert last in lines && forall l :: l in lines <==> l in front || l == last by {
        assert lines == front + [last];
      }
      if m == n && n != 0 {
        var l :| l in front && SaysCycle(json, l, n);
        assert l in lines;
      } else if m != n {
        assert SaysCycle(json, last, m);
      }
    }
  }

  /** And the last chain a line says, or the one it started from when none does. */
  lemma {:induction false} LastChain(json: Json, t: Trail, lines: seq<string>, i: nat, chain: string)
    requires i <= |lines| && forall j | i <= j < |lines| :: NoChainSaid(json, lines[j])
    requires i > 0 ==> SaysChain(json, lines[i - 1], chain)
    ensures ResumeFrom(json, t, lines).tip == if i == 0 then t.tip else chain
  {
    hide Trim, NoChainSaid, SaysChain;
    if i == |lines| {
      if lines != [] {
        ChainSaid(json, ResumeFrom(json, t, Front(lines)), Last(lines), chain);
      }
    } else {
      LastChain(json, t, Front(lines), i, chain);
      assert NoChainSaid(json, lines[|lines| - 1]);
      QuietLine(json, ResumeFrom(json, t, Front(lines)), Last(lines));
    }
  }

  ghost predicate NoChainSaid(json: Json, line: string) { forall c :: !SaysChain(json, line, c) }

  lemma ChainSaid(json: Json, t: Trail, line: string, chain: string)
    requires SaysChain(json, line, chain)
    ensures ResumeStep(json, t, line).tip == chain
  {
    hide Trim;
  }

  lemma QuietLine(json: Json, t: Trail, line: string)
    requires NoChainSaid(json, line)
    ensures ResumeStep(json, t, line).tip == t.tip
  {
    hide Trim;
    match FieldsOn(json, line) {
      case None =>
      case Some(fields) => assert !SaysChain(json, line, ChainIn(fields));
    }
  }

  function Written(hash: Hash, json: Json, t: Trail, fields: Fields): Trail {
    var tip := ChainLink(hash, t.tip, json.marshal(fields));
    Trail(t.text + json.marshal(fields["chain" := tip]) + "\n", tip, t.maxCycle)
  }

  /** A write that fails: the tip has moved on, the file has not. */
  function Lost(hash: Hash, json: Json, t: Trail, fields: Fields): Trail {
    t.(tip := ChainLink(hash, t.tip, json.marshal(fields)))
  }

  class JsonlTrail {
    var text: string
    var tip: string
    var maxCycle: nat
    var open: bool

    function State(): Trail
      reads this
    {
      Trail(text, tip, maxCycle)
    }

    constructor (json: Json, found: string)
      ensures State() == Resumed(json, found) && open
    {
      text, tip, maxCycle, open := found, GENESIS, 0, true;
      new;
      var lines := Lines(found);
      var i := 0;
      while i < |lines|
        invariant 0 <= i <= |lines|
        invariant State() == ResumeFrom(json, Trail(found, GENESIS, 0), lines[..i]) && open
      {
        assert Front(lines[..i + 1]) == lines[..i];
        var parsed := FieldsOn(json, lines[i]);
        i := i + 1;
        if parsed.None? {
          continue;
        }
        if CycleIn(json, parsed.value) > maxCycle {
          maxCycle := CycleIn(json, parsed.value);
        }
        if ChainIn(parsed.value) != "" {
          tip := ChainIn(parsed.value);
        }
      }
      assert lines[..i] == lines;
    }

    /** A closed file refuses. An open one moves the tip and appends the line, unless the write fails
        and nothing reaches the file; the tip has moved all the same. */
    method WriteRecord(hash: Hash, json: Json, fields: Fields, accepted: bool) returns (ok: bool)
      modifies this
      ensures open == old(open) && ok == (open && accepted)
      ensures State() == if ok then Written(hash, json, old(State()), fields)
                         else if open then Lost(hash, json, old(State()), fields) else old(State())
      ensures ok ==> tip == hash(old(tip) + "\n" + json.marshal(fields))
      ensures ok ==> text == old(text) + json.marshal(fields["chain" := tip]) + "\n"
    {
      if !open {
        return false;
      }
      var payload := json.marshal(fields);
      tip := ChainLink(hash, tip, payload);
      var line := json.marshal(fields["chain" := tip]);
      if accepted {
        text := text + line + "\n";
      }
      ok := accepted;
    }

    method Close()
      modifies this`open
      ensures !open
    {
      open := false;
    }
  }

  // -- one write -----------------------------------------------------------------------------------

  lemma {:induction false} LinksInAppend(json: Json, a: seq<string>, b: seq<string>)
    ensures LinksIn(json, a + b) == LinksIn(json, a) + LinksIn(json, b)
  {
    hide LinkOn;
    if b == [] {
      assert a + b == a;
    } else {
      assert Front(a + b) == a + Front(b);
      LinksInAppend(json, a, Front(b));
      assert LinksIn(json, a) + (LinksIn(json, Front(b)) + LinkOn(json, Last(b)))
          == LinksIn(json, a) + LinksIn(json, Front(b)) + LinkOn(json, Last(b));
    }
  }

  lemma {:induction false} ResumeFromAppend(json: Json, t: Trail, a: seq<string>, b: seq<string>)
    ensures ResumeFrom(json, t, a + b) == ResumeFrom(json, ResumeFrom(json, t, a), b)
  {
    hide ResumeStep;
    if b == [] {
      assert a + b == a;
    } else {
      assert Front(a + b) == a + Front(b);
      ResumeFromAppend(json, t, a, Front(b));
    }
  }

  /** The text an open handle carries along plays no part in what it finds. */
  lemma {:induction false} ResumeIgnoresText(json: Json, t: Trail, text: string, lines: seq<string>)
    ensures ResumeFrom(json, t.(text := text), lines) == ResumeFrom(json, t, lines).(text := text)
  {
    if lines != [] {
      ResumeIgnoresText(json, t, text, Front(lines));
    }
  }

  function Marshaled(json: Json, records: seq<Fields>): (r: seq<string>)
    ensures |r| == |records| && forall i | 0 <= i < |r| :: r[i] == json.marshal(records[i])
  {
    seq(|records|, i requires 0 <= i < |records| => json.marshal(records[i]))
  }

  /** The file after some records: whole lines that carry one chain, resumed at its tip with no cycle
      number missed. */
  ghost predicate Keeps(hash: Hash, json: Json, t: Trail, records: seq<Fields>) {
    && Last(Lines(t.text)) == ""
    && LinksIn(json, Front(Lines(t.text))) == Stamp(hash, Marshaled(json, records))
    && t.tip == TipOver(hash, Marshaled(json, records))
    && var found := ResumeFrom(json, Trail(t.text, GENESIS, 0), Front(Lines(t.text)));
       found.tip == t.tip && forall f | f in records :: CycleIn(json, f) <= found.maxCycle
  }

  lemma EmptyKeeps(hash: Hash, json: Json)
    ensures Keeps(hash, json, Resumed(json, ""), [])
  {
    assert Lines("") == [""] && Front([""]) == [];
    assert Marshaled(json, []) == [];
    BlankResumes(json, Trail("", GENESIS, 0));
  }

  lemma BlankResumes(json: Json, t: Trail)
    ensures ResumeFrom(json, t, [""]) == t && LinksIn(json, [""]) == []
  {
    assert Front([""]) == [];
  }

  lemma ResumedKeeps(hash: Hash, json: Json, t: Trail, records: seq<Fields>)
    requires Keeps(hash, json, t, records)
    ensures Keeps(hash, json, Resumed(json, t.text), records)
    ensures Resumed(json, t.text).text == t.text
    ensures forall f | f in records :: CycleIn(json, f) <= Resumed(json, t.text).maxCycle
  {
    hide Lines, LinksIn, ResumeFrom, Stamp, TipOver, Marshaled;
    var blank, front := Trail(t.text, GENESIS, 0), Front(Lines(t.text));
    assert Lines(t.text) == front + [""];
    ResumeFromAppend(json, blank, front, [""]);
    BlankResumes(json, ResumeFrom(json, blank, front));
    ResumeIgnoresText(json, blank, t.text, front);
    assert blank.(text := t.text) == blank;
  }

  lemma WrittenLines(hash: Hash, json: Json, t: Trail, fields: Fields)
    requires Canonical(json) && Last(Lines(t.text)) == ""
    ensures var line := json.marshal(fields["chain" := Written(hash, json, t, fields).tip]);
            Lines(Written(hash, json, t, fields).text) == Front(Lines(t.text)) + [line] + [""]
  {
    hide Lines;
    var line := json.marshal(fields["chain" := Written(hash, json, t, fields).tip]);
    assert OneLine(line);
    assert Written(hash, json, t, fields).text == t.text + (line + "\n" + "");
    LinesOfBoth(line, "");
    OneLineIsItsLine(line);
    OneLineIsItsLine("");
    LinesAppend(t.text, line + "\n" + "");
  }

  /** A written line is found again with its link, its tip and its cycle. */
  lemma LineFound(json: Json, fields: Fields, tip: string, t: Trail)
    requires Canonical(json) && "chain" !in fields && tip != ""
    ensures var line := json.marshal(fields["chain" := tip]);
            && LinksIn(json, [line]) == [Link(json.marshal(fields), tip)]
            && ResumeFrom(json, t, [line]).tip == tip
            && ResumeFrom(json, t, [line]).maxCycle >= CycleIn(json, fields)
            && ResumeFrom(json, t, [line]).maxCycle >= t.maxCycle
  {
    hide Trim;
    var line := json.marshal(fields["chain" := tip]);
    assert Front([line]) == [];
    assert json.unmarshal(line) == Some(fields["chain" := tip]) && Trim(line) != "";
    assert fields["chain" := tip] - {"chain"} == fields;
    assert FieldsOn(json, line) == Some(fields["chain" := tip]);
  }

  lemma WriteKeeps(hash: Hash, json: Json, t: Trail, records: seq<Fields>, fields: Fields)
    requires Canonical(json) && HexOutput(hash) && "chain" !in fields
    requires Keeps(hash, json, t, records)
    ensures Keeps(hash, json, Written(hash, json, t, fields), records + [fields])
  {
    hide Lines, LinksIn, ResumeFrom, Stamp, TipOver, Canonical;
    var t' := Written(hash, json, t, fields);
    var line, front := json.marshal(fields["chain" := t'.tip]), Front(Lines(t.text));
    WrittenLines(hash, json, t, fields);
    assert Front(Lines(t'.text)) == front + [line];
    LinksInAppend(json, front, [line]);
    assert IsHex(t'.tip);
    var blank, blank' := Trail(t.text, GENESIS, 0), Trail(t'.text, GENESIS, 0);
    ResumeFromAppend(json, blank', front, [line]);
    ResumeIgnoresText(json, blank, t'.text, front);
    assert blank.(text := t'.text) == blank';
    LineFound(json, fields, t'.tip, ResumeFrom(json, blank', front));
    assert Marshaled(json, records + [fields]) == Marshaled(json, records) + [json.marshal(fields)];
    StampMore(hash, Marshaled(json, records), json.marshal(fields));
    TipMore(hash, Marshaled(json, records), json.marshal(fields));
  }

  // -- many sessions -------------------------------------------------------------------------------

  function WriteAll(hash: Hash, json: Json, t: Trail, records: seq<Fields>): Trail {
    if records == [] then t else Written(hash, json, WriteAll(hash, json, t, Front(records)), Last(records))
  }

  function FileAfter(hash: Hash, json: Json, sessions: seq<seq<Fields>>): string {
    if sessions == [] then ""
    else WriteAll(hash, json, Resumed(json, FileAfter(hash, json, Front(sessions))), Last(sessions)).text
  }

  function AllRecords(sessions: seq<seq<Fields>>): seq<Fields> {
    if sessions == [] then [] else AllRecords(Front(sessions)) + Last(sessions)
  }

  lemma {:induction false} SessionKeeps(hash: Hash, json: Json, t: Trail, before: seq<Fields>, records: seq<Fields>)
    requires Canonical(json) && HexOutput(hash) && forall f | f in records :: "chain" !in f
    requires Keeps(hash, json, t, before)
    ensures Keeps(hash, json, WriteAll(hash, json, t, records), before + records)
  {
    hide Keeps, Written, Canonical;
    if records == [] {
      assert before + records == before;
    } else {
      assert Last(records) in records && forall r | r in Front(records) :: r in records;
      SessionKeeps(hash, json, t, before, Front(records));
      WriteKeeps(hash, json, WriteAll(hash, json, t, Front(records)), before + Front(records), Last(records));
      assert before + records == before + Front(records) + [Last(records)];
    }
  }

  lemma {:induction false} SessionsKeep(hash: Hash, json: Json, sessions: seq<seq<Fields>>)
    requires Canonical(json) && HexOutput(hash) && forall f | f in AllRecords(sessions) :: "chain" !in f
    ensures var text, records := FileAfter(hash, json, sessions), AllRecords(sessions);
            && Keeps(hash, json, Resumed(json, text), records)
            && Resumed(json, text).text == text
            && forall f | f in records :: CycleIn(json, f) <= Resumed(json, text).maxCycle
  {
    hide Keeps, Written, Canonical, Resumed, WriteAll, CycleIn;
    if sessions == [] {
      EmptyKeeps(hash, json);
      ResumedKeeps(hash, json, Resumed(json, ""), []);
      EmptyText(json);
    } else {
      var begun := Resumed(json, FileAfter(hash, json, Front(sessions)));
      SessionsKeep(hash, json, Front(sessions));
      SessionKeeps(hash, json, begun, AllRecords(Front(sessions)), Last(sessions));
      ResumedKeeps(hash, json, WriteAll(hash, json, begun, Last(sessions)), AllRecords(sessions));
    }
  }

  lemma EmptyText(json: Json)
    ensures Resumed(json, "").text == ""
  {
    assert Lines("") == [""];
    BlankResumes(json, Trail("", GENESIS, 0));
  }

  /** The JSON-lines form of the same promise: one chain over any number of sessions, found again
      exactly, resumed at its tip, accepted, with every cycle number covered. */
  lemma ManySessionsOneChain(hash: Hash, json: Json, sessions: seq<seq<Fields>>)
    requires Canonical(json) && HexOutput(hash) && forall f | f in AllRecords(sessions) :: "chain" !in f
    ensures var text, payloads := FileAfter(hash, json, sessions), Marshaled(json, AllRecords(sessions));
            && LinksIn(json, Lines(text)) == Stamp(hash, payloads)
            && Resumed(json, text).tip == TipOver(hash, payloads)
            && Verified(hash, LinksIn(json, Lines(text)))
            && forall f | f in AllRecords(sessions) :: CycleIn(json, f) <= Resumed(json, text).maxCycle
  {
    hide Lines, LinksIn, Resumed, Stamp, TipOver, Canonical, Verified, Marshaled, CycleIn, ResumeFrom;
    SessionsKeep(hash, json, sessions);
    var text := FileAfter(hash, json, sessions);
    assert Lines(text) == Front(Lines(text)) + [""];
    LinksInAppend(json, Front(Lines(text)), [""]);
    BlankResumes(json, Trail("", GENESIS, 0));
    StampIsVerified(hash, Marshaled(json, AllRecords(sessions)));
  }
}
