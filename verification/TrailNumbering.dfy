/** loader.go, wiring a trail file to the reasoning log: what the file holds when it is opened bounds
    the numbers of the cycles begun after it. */
module TrailNumbering {
  import opened Chain
  import opened Options
  import opened ReasoningLogs
  import Jsonl = TrailJsonl
  import Md = TrailFiles
  import TrailRecord

  /** Open the file that some sessions left, seed the numbering, begin a cycle: its number exceeds every
      cycle number in the file, every other seed and every number issued before. */
  method ResumeMarkdown(hash: Hash, sessions: seq<seq<TrailRecord.Record>>, log: ReasoningLog, intent: string, now: int)
    returns (file: Md.TrailFile)
    requires log.Valid() && HexOutput(log.hash) && HexOutput(hash)
    requires forall r | r in Md.AllRecords(sessions) :: Md.Lined(r)
    modifies log
    ensures log.Valid() && fresh(file) && file.State() == Md.Resumed(Md.FileAfter(hash, sessions))
    ensures forall r | r in Md.AllRecords(sessions) :: r.cycle < log.cycleNo
    ensures forall n | n in old(log.seeds) || n in old(log.issued) :: n < log.cycleNo
  {
    hide Md.FileAfter, Md.Resumed, Md.FoundAll, Md.AllRecords, Md.Lined, Verified, LinksOf, AllRecords;
    file := new Md.TrailFile(Md.FileAfter(hash, sessions));
    Md.ManySessionsOneTip(hash, sessions);
    log.SeedCycleNumbering(file.maxCycle);
    log.BeginCycle(intent, map[], now);
  }

  /** The same of a JSON-lines file. */
  method ResumeJsonl(hash: Hash, json: Jsonl.Json, sessions: seq<seq<Jsonl.Fields>>, log: ReasoningLog,
                     intent: string, now: int) returns (file: Jsonl.JsonlTrail)
    requires log.Valid() && HexOutput(log.hash) && HexOutput(hash) && Jsonl.Canonical(json)
    requires forall f | f in Jsonl.AllRecords(sessions) :: "chain" !in f
    modifies log
    ensures log.Valid() && fresh(file) && file.State() == Jsonl.Resumed(json, Jsonl.FileAfter(hash, json, sessions))
    ensures forall f | f in Jsonl.AllRecords(sessions) :: Jsonl.CycleIn(json, f) < log.cycleNo
    ensures forall n | n in old(log.seeds) || n in old(log.issued) :: n < log.cycleNo
  {
    hide Jsonl.FileAfter, Jsonl.Resumed, Jsonl.AllRecords, Jsonl.LinksIn, Jsonl.Canonical, Jsonl.CycleIn,
      Verified, LinksOf, AllRecords;
    file := new Jsonl.JsonlTrail(json, Jsonl.FileAfter(hash, json, sessions));
    Jsonl.ManySessionsOneChain(hash, json, sessions);
    log.SeedCycleNumbering(file.maxCycle);
    log.BeginCycle(intent, map[], now);
  }
}
