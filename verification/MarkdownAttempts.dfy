/** trailfile.go, the markdown trail over sessions whose writes may fail. */
module MarkdownAttempts {
  import opened Attempts
  import opened Chain
  import opened Options
  import opened Text
  import opened TrailFiles
  import opened TrailMarkdown
  import opened TrailRecord

  function AfterTry(hash: Hash, t: Trail, a: Try<Record>): Trail {
    if a.accepted then Written(hash, t, a.record) else Lost(hash, t, a.record)
  }

  function AfterTries(hash: Hash, t: Trail, tries: seq<Try<Record>>): Trail {
    if tries == [] then t else AfterTry(hash, AfterTries(hash, t, Front(tries)), Last(tries))
  }

  /** The file after some sessions, each of which opened it and tried its writes. */
  function FileOf(hash: Hash, sessions: seq<seq<Try<Record>>>): string {
    if sessions == [] then "" else AfterTries(hash, Resumed(FileOf(hash, Front(sessions))), Last(sessions)).text
  }

  predicate AllGood(tries: seq<Try<Record>>) { forall a | a in tries :: Lined(a.record) && MarkerFree(a.record) }

  // -- the file follows the chain ------------------------------------------------------------------

  function LastStored(links: seq<Link>): Option<string> { if links == [] then None else Some(Last(links).stored) }

  ghost predicate Tracks(t: Trail, h: Handle) {
    && Last(Lines(t.text)) == "" && t.tip == h.tip
    && ScanLines(START, Front(Lines(t.text))) == Scan(h.links, [], false)
    && LastMarker(t.text) == LastStored(h.links)
  }

  lemma NothingTracks()
    ensures Tracks(Resumed(""), Reopened([]))
  {
    assert Lines("") == [""] && Front([""]) == [];
  }

  lemma WrittenTracks(hash: Hash, t: Trail, h: Handle, r: Record)
    requires HexOutput(hash) && Lined(r) && MarkerFree(r) && Tracks(t, h)
    ensures Tracks(Written(hash, t, r), Tried(hash, h, Attempt(Block(r), true)))
  {
    hide Lines, MarkerLine, CycleLine, Block, HeadingLines, ScanLines, SingleLine, MarkerFree, LastMarker, FoundIn,
      OneHeading, Framed;
    var t' := Written(hash, t, r);
    WrittenLines(hash, t, r);
    WrittenScans(hash, t, r);
    BlockHasOneHeading(r);
    BlockIsFramed(r);
    FoundWhole(Block(r), t'.tip);
    assert IsHex(t'.tip);
    var heading := if r.cycle != t.lastCycle then CycleHeading(r) else "";
    MarkerLineLast(t.text + heading + Block(r) + "\n", t'.tip);
  }

  lemma TryTracks(hash: Hash, t: Trail, h: Handle, a: Try<Record>)
    requires HexOutput(hash) && Lined(a.record) && MarkerFree(a.record) && Tracks(t, h)
    ensures Tracks(AfterTry(hash, t, a), Tried(hash, h, Attempt(Block(a.record), a.accepted)))
  {
    hide Lines, Block, ScanLines, LastMarker, MarkerFree, Lined, Written;
    if a.accepted {
      WrittenTracks(hash, t, h, a.record);
    }
  }

  lemma {:induction false} TriesTrack(hash: Hash, t: Trail, h: Handle, tries: seq<Try<Record>>)
    requires HexOutput(hash) && AllGood(tries) && Tracks(t, h)
    ensures Tracks(AfterTries(hash, t, tries), TriedAll(hash, h, AttemptsOf(Block, tries)))
  {
    hide Tracks, Tried, AfterTry, Lined, MarkerFree, Block;
    if tries != [] {
      assert Last(tries) in tries && forall a | a in Front(tries) :: a in tries;
      TriesTrack(hash, t, h, Front(tries));
      assert Front(AttemptsOf(Block, tries)) == AttemptsOf(Block, Front(tries));
      TryTracks(hash, AfterTries(hash, t, Front(tries)), TriedAll(hash, h, AttemptsOf(Block, Front(tries))),
                Last(tries));
    }
  }

  /** Opening the file again finds the last hash that reached it. */
  lemma ReopenedTracks(t: Trail, h: Handle)
    requires Tracks(t, h)
    ensures Tracks(Resumed(t.text), Reopened(h.links)) && LinksOf(t.text) == h.links
  {
    hide Lines, ScanLines, LastMarker, MaxCycleIn;
    assert Lines(t.text) == Front(Lines(t.text)) + [""];
    ScanLinesAppend(START, Front(Lines(t.text)), [""]);
    BlankScanned(h.links);
  }

  lemma {:induction false} FileTracks(hash: Hash, sessions: seq<seq<Try<Record>>>)
    requires HexOutput(hash) && forall s | s in sessions :: AllGood(s)
    ensures var text, links := FileOf(hash, sessions), LinksAfter(hash, AllAttempts(Block, sessions));
            Tracks(Resumed(text), Reopened(links)) && LinksOf(text) == links
  {
    hide LinksAfter, AllAttempts, Tracks, TriedAll, AfterTries, AllGood, LinksOf, Reopened, Block, AttemptsOf;
    if sessions == [] {
      NothingTracks();
      ReopenedTracks(Resumed(""), Reopened([]));
      NothingReopened();
      NoLinks(hash, Block);
    } else {
      assert Last(sessions) in sessions && forall s | s in Front(sessions) :: s in sessions;
      FileTracks(hash, Front(sessions));
      LinksOneMore(hash, Block, sessions);
      var t := Resumed(FileOf(hash, Front(sessions)));
      var h := Reopened(LinksAfter(hash, AllAttempts(Block, Front(sessions))));
      TriesTrack(hash, t, h, Last(sessions));
      ReopenedTracks(AfterTries(hash, t, Last(sessions)), TriedAll(hash, h, AttemptsOf(Block, Last(sessions))));
    }
  }

  // -- when it verifies ----------------------------------------------------------------------------

  /** Nothing was altered, and the file verifies if and only if no session had a write accepted after
      one that failed. Otherwise verifying it reports a break at exactly the first such record. */
  lemma VerifiesExactlyWhenStopped(hash: Hash, sessions: seq<seq<Try<Record>>>)
    requires HexOutput(hash) && forall s | s in sessions :: AllGood(s)
    requires var attempts := AllAttempts(Block, sessions);
             CollisionFree(hash, AllHashed(hash, attempts) + Texts(hash, LinksAfter(hash, attempts)))
    ensures Verified(hash, LinksOf(FileOf(hash, sessions))) <==> AllStopAtFailure(sessions)
    ensures !AllStopAtFailure(sessions) ==>
              var k := FirstStray(AllAttempts(Block, sessions));
              k.Some? && BreaksAt(hash, LinksOf(FileOf(hash, sessions)), k.value)
  {
    hide LinksOf, FileOf, AllStopAtFailure, AllOrderly, Verified, BreaksAt, CollisionFree, Texts, AllHashed, LinksAfter,
      FirstStray, AllGood, Tracks;
    FileTracks(hash, sessions);
    OrderlyAsStopped(Block, sessions);
    VerifiesExactlyWhenOrderly(hash, AllAttempts(Block, sessions));
  }

  /** The first run leaves a file that does not verify, the second the same record in a file that does. */
  lemma ReopeningHeals(hash: Hash, a: Record, b: Record)
    requires HexOutput(hash) && Lined(a) && MarkerFree(a) && Lined(b) && MarkerFree(b)
    requires var attempts := AllAttempts(Block, LostThenWritten(a, b));
             CollisionFree(hash, AllHashed(hash, attempts) + Texts(hash, LinksAfter(hash, attempts)))
    ensures !Verified(hash, LinksOf(FileOf(hash, LostThenWritten(a, b))))
    ensures Verified(hash, LinksOf(FileOf(hash, LostThenReopened(a, b))))
  {
    hide LinksOf, FileOf, AllStopAtFailure, AllOrderly, Verified, CollisionFree, Texts, AllHashed, LinksAfter, Tracks,
      Lined, MarkerFree;
    TwoRuns(a, b);
    VerifiesExactlyWhenStopped(hash, LostThenWritten(a, b));
    FileTracks(hash, LostThenReopened(a, b));
    OrderlyAsStopped(Block, LostThenReopened(a, b));
    OrderlyTrailVerifies(hash, AllAttempts(Block, LostThenReopened(a, b)));
  }
}
