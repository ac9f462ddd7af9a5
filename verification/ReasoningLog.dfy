/** reasoninglog.go: the in-memory trail, its cycle numbering, its chain and its retention. */
module ReasoningLogs {
  import opened Chain
  import opened Options
  import opened Places
  import opened Text

  datatype Record = Record(cycle: nat, stage: string, time: Option<int>, inputs: map<string, string>,
                           output: string, rationale: string, model: string, chain: string)

  datatype TrailCycle = TrailCycle(intent: string, started: Option<int>, records: seq<Record>)

  const FALLBACK := "deterministic-fallback"

  /** The bytes a record's link covers: its JSON without the link itself. */
  function RecordPayload(json: Record -> string, r: Record): string { json(r.(chain := "")) }

  function LinksOf(json: Record -> string, records: seq<Record>): (r: seq<Link>)
    ensures |r| == |records|
    ensures forall i | 0 <= i < |r| :: r[i] == Link(RecordPayload(json, records[i]), records[i].chain)
  {
    seq(|records|, i requires 0 <= i < |records| => Link(RecordPayload(json, records[i]), records[i].chain))
  }

  function AllRecords(cycles: seq<TrailCycle>): seq<Record> {
    if cycles == [] then [] else AllRecords(Front(cycles)) + Last(cycles).records
  }

  /** Started before the cutoff; a headless cycle has no start and never expires. */
  predicate Expired(c: TrailCycle, cutoff: int) { c.started.Some? && c.started.value < cutoff }

  /** The cycles a retention window keeps. */
  function KeptCycles(cycles: seq<TrailCycle>, cutoff: int): seq<TrailCycle> {
    if cycles == [] then []
    else KeptCycles(Front(cycles), cutoff) + (if Expired(Last(cycles), cutoff) then [] else [Last(cycles)])
  }

  /** An expired cycle with records stands before a kept one with records. */
  ghost predicate DropsBeforeKept(cycles: seq<TrailCycle>, cutoff: int) {
    exists i, j | 0 <= i < j < |cycles| ::
      Expired(cycles[i], cutoff) && cycles[i].records != [] && !Expired(cycles[j], cutoff) && cycles[j].records != []
  }

  lemma {:induction false} KeptCyclesRecords(cycles: seq<TrailCycle>, cutoff: int)
    ensures |KeptCycles(cycles, cutoff)| <= |cycles|
    ensures forall r | r in AllRecords(KeptCycles(cycles, cutoff)) :: r in AllRecords(cycles)
  {
    if cycles != [] {
      var kept, c := KeptCycles(Front(cycles), cutoff), Last(cycles);
      KeptCyclesRecords(Front(cycles), cutoff);
      assert Front(kept + [c]) == kept;
      assert kept + [] == kept;
    }
  }

  class ReasoningLog {
    const hash: Hash
    const json: Record -> string
    var cycles: seq<TrailCycle>
    /** Whether a cycle is open; it is then the last one. */
    var current: bool
    var chainTip: string
    var cycleNo: nat

    /** Every record ever logged, rotated out or not, and every cycle number ever issued. */
    ghost var ever: seq<Record>
    ghost var issued: seq<nat>
    /** Every number the numbering was seeded with. */
    ghost var seeds: set<nat>

    ghost predicate Valid()
      reads this
    {
      && (current ==> cycles != [])
      && (chainTip == "" <==> ever == [])
      && (ever != [] ==> chainTip == TipOver(hash, Payloads(LinksOf(json, ever))))
      && Verified(hash, LinksOf(json, ever))
      && (forall r | r in AllRecords(cycles) :: r in ever)
      && (forall i, j | 0 <= i < j < |issued| :: issued[i] < issued[j])
      && (forall i | 0 <= i < |issued| :: issued[i] <= cycleNo)
      && (forall n | n in seeds :: n <= cycleNo)
    }

    /** Nothing was rotated out so far. */
    ghost predicate Whole()
      reads this
    {
      AllRecords(cycles) == ever
    }

    constructor (hash: Hash, json: Record -> string)
      ensures Valid() && Whole() && cycles == [] && ever == [] && issued == [] && cycleNo == 0
      ensures this.hash == hash && this.json == json
    {
      this.hash, this.json := hash, json;
      cycles, current, chainTip, cycleNo := [], false, "", 0;
      ever, issued, seeds := [], [], {};
    }

    /** Numbering continues above n. */
    method SeedCycleNumbering(n: nat)
      requires Valid()
      modifies this`cycleNo, this`seeds
      ensures Valid() && cycleNo == (if n > old(cycleNo) then n else old(cycleNo)) && seeds == old(seeds) + {n}
      ensures old(Whole()) ==> Whole()
    {
      seeds := seeds + {n};
      if n > cycleNo {
        cycleNo := n;
      }
    }

    /** A new cycle takes the next number, above every seed and every number issued before, and its
        first record is the intent. */
    method BeginCycle(intent: string, context: map<string, string>, now: int)
      requires Valid() && HexOutput(hash)
      modifies this
      ensures Valid() && seeds == old(seeds) && (old(Whole()) ==> Whole())
      ensures cycleNo == old(cycleNo) + 1 && issued == old(issued) + [cycleNo]
      ensures (forall n | n in seeds :: n < cycleNo) && (forall n | n in old(issued) :: n < cycleNo)
      ensures |ever| == |old(ever)| + 1 && old(ever) <= ever
      ensures Last(ever) == IntentRecord(intent, context, cycleNo, now).(chain := chainTip)
      ensures chainTip == ChainLink(hash, if old(ever) == [] then GENESIS else old(chainTip),
                                    RecordPayload(json, Last(ever)))
      ensures cycles == old(cycles) + [TrailCycle(intent, Some(now), [Last(ever)])] && current
    {
      hide TipOver, LinksOf, AllRecords, Verified, Payloads;
      var opening := TrailCycle(intent, Some(now), []);
      Open(opening);
      Log(Record(0, "intent", None, context, intent, "", "", ""), now);
      assert Front(old(cycles) + [opening]) == old(cycles);
      assert opening.records + [Last(ever)] == [Last(ever)];
    }

    /** Opens an empty cycle under the next number. */
    method Open(c: TrailCycle)
      requires Valid() && c.records == []
      modifies this`cycles, this`current, this`cycleNo, this`issued
      ensures Valid() && current && cycles == old(cycles) + [c] && (old(Whole()) ==> Whole())
      ensures cycleNo == old(cycleNo) + 1 && issued == old(issued) + [cycleNo]
    {
      hide TipOver, LinksOf, AllRecords, Verified, Payloads;
      cycleNo := cycleNo + 1;
      issued := issued + [cycleNo];
      NoRecordsYet(cycles, c);
      cycles := cycles + [c];
      current := true;
    }

    /** Fills in what the caller left out, links the record and stores it; with no cycle open, a
        headless one takes the next number. */
    method Log(r: Record, now: int)
      requires Valid() && HexOutput(hash)
      modifies this
      ensures Valid() && current && seeds == old(seeds) && (old(Whole()) ==> Whole())
      ensures cycleNo == old(cycleNo) + (if old(current) then 0 else 1)
      ensures issued == if old(current) then old(issued) else old(issued) + [cycleNo]
      ensures |ever| == |old(ever)| + 1 && old(ever) == Front(ever)
      ensures Last(ever) == Filled(r, cycleNo, now).(chain := chainTip)
      ensures Last(ever) == r.(cycle := if r.cycle == 0 then cycleNo else r.cycle, chain := chainTip,
                               model := if r.model == "" then "deterministic-fallback" else r.model,
                               time := if r.time == None then Some(now) else r.time)
      ensures chainTip == hash((if old(ever) == [] then "ear-genesis" else old(chainTip)) + "\n"
                               + json(Last(ever).(chain := "")))
      ensures chainTip == ChainLink(hash, if old(ever) == [] then GENESIS else old(chainTip),
                                    RecordPayload(json, Last(ever)))
      ensures var had := if old(current) then old(cycles) else old(cycles) + [HEADLESS];
              cycles == Front(had) + [Last(had).(records := Last(had).records + [Last(ever)])]
    {
      hide TipOver, LinksOf, AllRecords, Verified, Payloads;
      if !current {
        Open(HEADLESS);
      }
      Append(Filled(r, cycleNo, now));
    }

    /** Links a record to the tip and stores it in the open cycle. */
    method Append(filled: Record)
      requires Valid() && HexOutput(hash) && current
      modifies this`ever, this`cycles, this`chainTip
      ensures Valid() && ever == old(ever) + [filled.(chain := chainTip)] && (old(Whole()) ==> Whole())
      ensures chainTip == ChainLink(hash, if old(ever) == [] then GENESIS else old(chainTip),
                                    RecordPayload(json, filled))
      ensures cycles == Front(old(cycles)) + [Last(old(cycles)).(records := Last(old(cycles)).records + [Last(ever)])]
    {
      hide TipOver, LinksOf, AllRecords, Verified, Payloads;
      if chainTip == "" {
        chainTip := GENESIS;
        NoTip(hash, json);
      }
      ghost var tip := chainTip;
      chainTip := ChainLink(hash, chainTip, RecordPayload(json, filled));
      assert IsHex(chainTip);
      var stored := filled.(chain := chainTip);
      assert RecordPayload(json, stored) == RecordPayload(json, filled);
      LinkedMore(hash, json, ever, stored, tip);
      StoredMore(cycles, stored);
      ever := ever + [stored];
      cycles := Front(cycles) + [Last(cycles).(records := Last(cycles).records + [stored])];
    }

    /** Drops whole cycles that started before the window; an empty window keeps everything. */
    method Rotate(window: int, now: int) returns (removed: nat)
      requires Valid()
      modifies this`cycles, this`current
      ensures Valid()
      ensures window <= 0 ==> cycles == old(cycles) && current == old(current) && removed == 0
      ensures window > 0 ==> cycles == KeptCycles(old(cycles), now - window) && !current
      ensures removed == |old(cycles)| - |cycles|
      ensures var was, left := LinksOf(json, AllRecords(old(cycles))), LinksOf(json, AllRecords(cycles));
              window > 0 && HexOutput(hash) && CollisionFree(hash, Texts(hash, was) + Texts(hash, left)) ==>
                Verified(hash, was) ==> (Verified(hash, left) <==> !DropsBeforeKept(old(cycles), now - window))
    {
      hide Verified, LinksOf, CollisionFree, Texts, DropsBeforeKept, HexOutput;
      if window <= 0 {
        return 0;
      }
      var cutoff := now - window;
      var kept := [];
      removed := 0;
      var i := 0;
      while i < |cycles|
        invariant 0 <= i <= |cycles|
        invariant kept == KeptCycles(cycles[..i], cutoff) && removed == i - |kept|
      {
        assert Front(cycles[..i + 1]) == cycles[..i];
        var c := cycles[i];
        i := i + 1;
        if Expired(c, cutoff) {
          removed := removed + 1;
          continue;
        }
        kept := kept + [c];
      }
      assert cycles[..i] == cycles;
      KeptCyclesRecords(cycles, cutoff);
      RotationVerifies(hash, json, cycles, cutoff);
      cycles := kept;
      current := false;
    }

    /** Recomputes the chain over the records still held, from the genesis. */
    method Verify() returns (ok: bool, records: nat)
      requires Valid()
      ensures ok <==> Verified(hash, LinksOf(json, AllRecords(cycles)))
      ensures !ok ==> records > 0 && BreaksAt(hash, LinksOf(json, AllRecords(cycles)), records - 1)
      ensures ok ==> records == |AllRecords(cycles)|
    {
      var all := Collect();
      var links := LinksOf(json, all);
      var tip := GENESIS;
      records := 0;
      while records < |all|
        invariant 0 <= records <= |all|
        invariant tip == TipOver(hash, Payloads(links[..records]))
        invariant Verified(hash, links[..records])
      {
        var expected := ChainLink(hash, tip, RecordPayload(json, all[records]));
        TipOverMore(hash, links, records);
        if all[records].chain != expected {
          VerifiedPrefix(hash, links, records + 1);
          assert BreaksAt(hash, links, records);
          return false, records + 1;
        }
        VerifiedMore(hash, links, records);
        tip := expected;
        records := records + 1;
      }
      assert links[..records] == links;
      ok := true;
    }

    /** The records of every cycle, in order. */
    method Collect() returns (all: seq<Record>)
      ensures all == AllRecords(cycles)
    {
      all := [];
      var i := 0;
      while i < |cycles|
        invariant 0 <= i <= |cycles|
        invariant all == AllRecords(cycles[..i])
      {
        assert Front(cycles[..i + 1]) == cycles[..i];
        all := all + cycles[i].records;
        i := i + 1;
      }
      assert cycles[..i] == cycles;
    }
  }

  function Filled(r: Record, cycleNo: nat, now: int): Record {
    r.(cycle := if r.cycle == 0 then cycleNo else r.cycle,
       model := if r.model == "" then FALLBACK else r.model,
       time := if r.time.None? then Some(now) else r.time)
  }

  /** The first record of a cycle. */
  function IntentRecord(intent: string, context: map<string, string>, cycleNo: nat, now: int): (r: Record)
    ensures r.cycle == cycleNo && r.stage == "intent" && r.output == intent
  {
    Filled(Record(0, "intent", None, context, intent, "", "", ""), cycleNo, now)
  }

  /** A retention window keeps, in order, the cycles that started at its cutoff or later and those without a start. */
  lemma KeptInOrder(cycles: seq<TrailCycle>, cutoff: int) returns (places: seq<nat>)
    ensures Picks(KeptCycles(cycles, cutoff), cycles, places)
    ensures forall i: nat | i < |cycles| ::
              i in places <==> cycles[i].started == None || cycles[i].started.value >= cutoff
  {
    hide KeptCycles, Picks;
    places := KeptUpTo(cycles, cutoff, |cycles|, (i: nat) => i < |cycles| && !Expired(cycles[i], cutoff));
    assert cycles[..|cycles|] == cycles;
  }

  lemma {:induction false} KeptUpTo(cycles: seq<TrailCycle>, cutoff: int, n: nat, keep: nat -> bool)
    returns (places: seq<nat>)
    requires n <= |cycles| && forall i: nat | i < n :: keep(i) <==> !Expired(cycles[i], cutoff)
    ensures PicksThose(KeptCycles(cycles[..n], cutoff), cycles[..n], places, keep)
  {
    hide PicksThose, Expired;
    if n == 0 {
      places := [];
      NonePicked<TrailCycle>(keep);
    } else {
      var front, c := cycles[..n - 1], cycles[n - 1];
      assert Front(cycles[..n]) == front && cycles[..n] == front + [c];
      var before := KeptUpTo(cycles, cutoff, n - 1, keep);
      places := PickNext(KeptCycles(front, cutoff), front, before, keep, c);
      assert KeptCycles(front, cutoff) + [] == KeptCycles(front, cutoff);
    }
  }

  /** The records of a log, cycle by cycle. */
  lemma RecordsAre(cycles: seq<TrailCycle>, c: TrailCycle)
    ensures AllRecords([]) == [] && AllRecords(cycles + [c]) == AllRecords(cycles) + c.records
  {
    assert Front(cycles + [c]) == cycles;
  }

  const HEADLESS := TrailCycle("", None, [])

  lemma NoTip(hash: Hash, json: Record -> string)
    ensures TipOver(hash, Payloads(LinksOf(json, []))) == GENESIS
  {
  }

  lemma NoRecordsYet(cycles: seq<TrailCycle>, c: TrailCycle)
    requires c.records == []
    ensures AllRecords(cycles + [c]) == AllRecords(cycles)
  {
    assert Front(cycles + [c]) == cycles;
  }

  lemma StoredMore(cycles: seq<TrailCycle>, stored: Record)
    requires cycles != []
    ensures AllRecords(Front(cycles) + [Last(cycles).(records := Last(cycles).records + [stored])])
         == AllRecords(cycles) + [stored]
  {
    assert Front(Front(cycles) + [Last(cycles).(records := Last(cycles).records + [stored])]) == Front(cycles);
  }

  lemma LinkedMore(hash: Hash, json: Record -> string, ever: seq<Record>, stored: Record, tip: string)
    requires Verified(hash, LinksOf(json, ever)) && tip == TipOver(hash, Payloads(LinksOf(json, ever)))
    requires stored.chain == ChainLink(hash, tip, RecordPayload(json, stored))
    ensures Verified(hash, LinksOf(json, ever + [stored]))
    ensures stored.chain == TipOver(hash, Payloads(LinksOf(json, ever + [stored])))
  {
    hide TipOver;
    var links := LinksOf(json, ever + [stored]);
    assert links[..|ever|] == LinksOf(json, ever) && links[..|ever| + 1] == links;
    TipOverMore(hash, links, |ever|);
    VerifiedMore(hash, links, |ever|);
  }

  // -- what rotation does to verification ----------------------------------------------------------

  /** Records taken from a chain verify exactly when they are a prefix of it. */
  lemma VerifiesExactlyAsPrefix(hash: Hash, json: Record -> string, ever: seq<Record>, kept: seq<Record>)
    requires HexOutput(hash)
    requires CollisionFree(hash, Texts(hash, LinksOf(json, ever)) + Texts(hash, LinksOf(json, kept)))
    requires Verified(hash, LinksOf(json, ever)) && forall r | r in kept :: r in ever
    ensures Verified(hash, LinksOf(json, kept)) <==> kept <= ever
  {
    hide TipOver, Texts, Verified;
    var a, b := LinksOf(json, ever), LinksOf(json, kept);
    if kept <= ever {
      VerifiedPrefix(hash, a, |kept|);
      assert a[..|kept|] == b;
    }
    if Verified(hash, b) {
      VerifyingIsPrefix(hash, json, ever, kept);
    }
  }

  lemma VerifyingIsPrefix(hash: Hash, json: Record -> string, ever: seq<Record>, kept: seq<Record>)
    requires HexOutput(hash)
    requires CollisionFree(hash, Texts(hash, LinksOf(json, ever)) + Texts(hash, LinksOf(json, kept)))
    requires Verified(hash, LinksOf(json, ever)) && Verified(hash, LinksOf(json, kept))
    requires forall r | r in kept :: r in ever
    ensures kept <= ever
  {
    if kept != [] {
      var last := SharedHash(hash, json, ever, kept, |kept| - 1);
    }
    forall i: nat | i < |kept|
      ensures kept[i] == ever[i]
    {
      var j := SharedHash(hash, json, ever, kept, i);
    }
  }

  /** A record of a verifying selection stands where it stood in the whole chain. */
  lemma SharedHash(hash: Hash, json: Record -> string, ever: seq<Record>, kept: seq<Record>, i: nat) returns (j: nat)
    requires HexOutput(hash)
    requires CollisionFree(hash, Texts(hash, LinksOf(json, ever)) + Texts(hash, LinksOf(json, kept)))
    requires Verified(hash, LinksOf(json, ever)) && Verified(hash, LinksOf(json, kept))
    requires i < |kept| && forall r | r in kept :: r in ever
    ensures j == i < |ever| && kept[i] == ever[i]
  {
    hide TipOver, Texts, Verified;
    var a, b := LinksOf(json, ever), LinksOf(json, kept);
    assert kept[i] in kept;
    j :| 0 <= j < |ever| && ever[j] == kept[i];
    assert a[j].stored == b[i].stored;
    HashPinsPrefix(hash, a, j, b, i);
  }

  /** Until something is rotated out, the log verifies. */
  lemma WholeLogVerifies(log: ReasoningLog)
    requires log.Valid() && log.Whole()
    ensures Verified(log.hash, LinksOf(log.json, AllRecords(log.cycles)))
  {
  }

  /** A log that verifies goes on verifying after a rotation if and only if no cycle that goes, and has
      records, stands before a cycle that stays, and has records. */
  lemma RotationVerifies(hash: Hash, json: Record -> string, cycles: seq<TrailCycle>, cutoff: int)
    ensures var was, left := LinksOf(json, AllRecords(cycles)), LinksOf(json, AllRecords(KeptCycles(cycles, cutoff)));
            HexOutput(hash) && CollisionFree(hash, Texts(hash, was) + Texts(hash, left)) ==>
              Verified(hash, was) ==> (Verified(hash, left) <==> !DropsBeforeKept(cycles, cutoff))
  {
    hide Verified, LinksOf, CollisionFree, Texts, DropsBeforeKept, HexOutput, AllRecords, KeptCycles;
    var all, kept := AllRecords(cycles), AllRecords(KeptCycles(cycles, cutoff));
    var was, left := LinksOf(json, all), LinksOf(json, kept);
    if HexOutput(hash) && CollisionFree(hash, Texts(hash, was) + Texts(hash, left)) && Verified(hash, was) {
      KeptCyclesRecords(cycles, cutoff);
      VerifiesExactlyAsPrefix(hash, json, all, kept);
      if DropsBeforeKept(cycles, cutoff) {
        Distinct(hash, json, all, was, left);
        DroppedIsNoPrefix(cycles, cutoff);
      } else {
        NothingDroppedBefore(cycles, cutoff);
      }
    }
  }

  ghost predicate AllDiffer(records: seq<Record>) {
    forall i, j | 0 <= i < j < |records| :: records[i] != records[j]
  }

  lemma Distinct(hash: Hash, json: Record -> string, all: seq<Record>, was: seq<Link>, left: seq<Link>)
    requires was == LinksOf(json, all) && Verified(hash, was) && HexOutput(hash)
    requires CollisionFree(hash, Texts(hash, was) + Texts(hash, left))
    ensures AllDiffer(all)
  {
    hide Verified, Texts, HexOutput;
    forall i, j | 0 <= i < j < |all|
      ensures all[i] != all[j]
    {
      TipsNeverRepeat(hash, was, i, j);
      assert was[i].stored == all[i].chain && was[j].stored == all[j].chain;
    }
  }

  lemma {:induction false} NothingDroppedBefore(cycles: seq<TrailCycle>, cutoff: int)
    requires !DropsBeforeKept(cycles, cutoff)
    ensures AllRecords(KeptCycles(cycles, cutoff)) <= AllRecords(cycles)
  {
    hide AllRecords, KeptCycles, Expired;
    if cycles == [] {
      NothingKept(cutoff);
    } else {
      var front, c := Front(cycles), Last(cycles);
      assert forall i | 0 <= i < |front| :: front[i] == cycles[i];
      NothingDroppedBefore(front, cutoff);
      KeptMore(front, c, cutoff);
      assert cycles == front + [c];
      if !Expired(c, cutoff) && c.records != [] {
        NothingDropped(front, cutoff);
      }
    }
  }

  lemma NothingKept(cutoff: int)
    ensures AllRecords(KeptCycles([], cutoff)) == [] == AllRecords([])
  {
  }

  lemma KeptMore(front: seq<TrailCycle>, c: TrailCycle, cutoff: int)
    ensures AllRecords(front + [c]) == AllRecords(front) + c.records
    ensures AllRecords(KeptCycles(front + [c], cutoff))
         == AllRecords(KeptCycles(front, cutoff)) + (if Expired(c, cutoff) then [] else c.records)
  {
    hide Expired;
    assert Front(front + [c]) == front;
    var kept := KeptCycles(front, cutoff);
    assert Front(kept + [c]) == kept && kept + [] == kept;
  }

  lemma {:induction false} NothingDropped(cycles: seq<TrailCycle>, cutoff: int)
    requires forall i | 0 <= i < |cycles| :: Expired(cycles[i], cutoff) ==> cycles[i].records == []
    ensures AllRecords(KeptCycles(cycles, cutoff)) == AllRecords(cycles)
  {
    hide AllRecords, KeptCycles, Expired;
    if cycles == [] {
      NothingKept(cutoff);
    } else {
      NothingDropped(Front(cycles), cutoff);
      KeptMore(Front(cycles), Last(cycles), cutoff);
      assert cycles == Front(cycles) + [Last(cycles)];
    }
  }

  /** Dropping records makes what is left shorter. */
  lemma {:induction false} KeptShorter(cycles: seq<TrailCycle>, cutoff: int, i: int)
    requires -1 <= i < |cycles|
    ensures |AllRecords(KeptCycles(cycles, cutoff))| <= |AllRecords(cycles)|
    ensures i >= 0 && Expired(cycles[i], cutoff) && cycles[i].records != [] ==>
              |AllRecords(KeptCycles(cycles, cutoff))| < |AllRecords(cycles)|
  {
    hide AllRecords, KeptCycles, Expired;
    if cycles == [] {
      NothingKept(cutoff);
    } else {
      KeptShorter(Front(cycles), cutoff, if i == |cycles| - 1 then -1 else i);
      KeptMore(Front(cycles), Last(cycles), cutoff);
      assert cycles == Front(cycles) + [Last(cycles)];
    }
  }

  /** A cycle's records follow those of the cycles before it. */
  lemma {:induction false} PlaceOf(cycles: seq<TrailCycle>, cutoff: int, j: nat)
    requires j < |cycles| && !Expired(cycles[j], cutoff)
    ensures AllRecords(cycles[..j]) + cycles[j].records <= AllRecords(cycles)
    ensures AllRecords(KeptCycles(cycles[..j], cutoff)) + cycles[j].records <= AllRecords(KeptCycles(cycles, cutoff))
  {
    hide AllRecords, KeptCycles, Expired;
    var front, c := Front(cycles), Last(cycles);
    assert cycles == front + [c];
    KeptMore(front, c, cutoff);
    if j < |front| {
      PlaceOf(front, cutoff, j);
      assert front[..j] == cycles[..j];
    } else {
      assert cycles[..j] == front;
    }
  }

  lemma DroppedIsNoPrefix(cycles: seq<TrailCycle>, cutoff: int)
    requires DropsBeforeKept(cycles, cutoff) && AllDiffer(AllRecords(cycles))
    ensures !(AllRecords(KeptCycles(cycles, cutoff)) <= AllRecords(cycles))
  {
    hide AllRecords, KeptCycles, Expired;
    var i, j :| 0 <= i < j < |cycles|
      && Expired(cycles[i], cutoff) && cycles[i].records != []
      && !Expired(cycles[j], cutoff) && cycles[j].records != [];
    PlaceOf(cycles, cutoff, j);
    KeptShorter(cycles[..j], cutoff, i);
    var r := cycles[j].records[0];
    assert AllRecords(cycles)[|AllRecords(cycles[..j])|] == r;
    assert AllRecords(KeptCycles(cycles, cutoff))[|AllRecords(KeptCycles(cycles[..j], cutoff))|] == r;
  }

  // -- a log of two cycles -------------------------------------------------------------------------

  function FirstRecord(hash: Hash, json: Record -> string): Record {
    var r := IntentRecord("first", map[], 1, 0);
    r.(chain := ChainLink(hash, GENESIS, RecordPayload(json, r)))
  }

  function SecondRecord(hash: Hash, json: Record -> string): Record {
    var r := IntentRecord("second", map[], 2, 10);
    r.(chain := ChainLink(hash, FirstRecord(hash, json).chain, RecordPayload(json, r)))
  }

  function TwoCycleLog(hash: Hash, json: Record -> string): seq<TrailCycle> {
    [TrailCycle("first", Some(0), [FirstRecord(hash, json)]),
     TrailCycle("second", Some(10), [SecondRecord(hash, json)])]
  }

  lemma TwoCyclesRotated(hash: Hash, json: Record -> string)
    ensures AllRecords(TwoCycleLog(hash, json)) == [FirstRecord(hash, json), SecondRecord(hash, json)]
    ensures AllRecords(KeptCycles(TwoCycleLog(hash, json), 7)) == [SecondRecord(hash, json)]
    ensures DropsBeforeKept(TwoCycleLog(hash, json), 7)
  {
    hide FirstRecord, SecondRecord;
    var cycles := TwoCycleLog(hash, json);
    var a, b := cycles[0], cycles[1];
    assert cycles == [a] + [b] && [] + [a] == [a];
    NothingKept(7);
    KeptMore([], a, 7);
    KeptMore([a], b, 7);
    assert Expired(a, 7) && a.records != [] && !Expired(b, 7) && b.records != [];
  }

  method TwoCycles(hash: Hash, json: Record -> string) returns (log: ReasoningLog)
    requires HexOutput(hash)
    ensures fresh(log) && log.Valid() && log.Whole() && log.hash == hash && log.json == json
    ensures log.cycles == TwoCycleLog(hash, json)
  {
    hide Verified, LinksOf, AllRecords, TipOver, Payloads;
    log := new ReasoningLog(hash, json);
    log.BeginCycle("first", map[], 0);
    assert RecordPayload(json, Last(log.ever)) == RecordPayload(json, IntentRecord("first", map[], 1, 0));
    log.BeginCycle("second", map[], 10);
    assert RecordPayload(json, Last(log.ever)) == RecordPayload(json, IntentRecord("second", map[], 2, 10));
  }

  /** Nothing was altered, the first of two cycles left the window, and the log no longer verifies, unless
      the few texts hashed collide. */
  method RotateBreaksVerify(hash: Hash, json: Record -> string) returns (before: bool, after: bool)
    requires HexOutput(hash)
    requires var a, b := FirstRecord(hash, json), SecondRecord(hash, json);
             CollisionFree(hash, Texts(hash, LinksOf(json, [a, b])) + Texts(hash, LinksOf(json, [b])))
    ensures before && !after
  {
    hide *;
    var log := TwoCycles(hash, json);
    WholeLogVerifies(log);
    TwoCyclesRotated(hash, json);
    var count;
    before, count := log.Verify();
    var removed := log.Rotate(5, 12);
    after, count := log.Verify();
  }
}
