/** trailfile.go, the JSON-lines trail over sessions whose writes may fail. */
module JsonlAttempts {
  import opened Attempts
  import opened Chain
  import opened Options
  import opened Text
  import opened TrailJsonl

  function AfterTry(hash: Hash, json: Json, t: Trail, a: Try<Fields>): Trail {
    if a.accepted then Written(hash, json, t, a.record) else Lost(hash, json, t, a.record)
  }

  function AfterTries(hash: Hash, json: Json, t: Trail, tries: seq<Try<Fields>>): Trail {
    if tries == [] then t else AfterTry(hash, json, AfterTries(hash, json, t, Front(tries)), Last(tries))
  }

  /** The file after some sessions, each of which opened it and tried its writes. */
  function FileOf(hash: Hash, json: Json, sessions: seq<seq<Try<Fields>>>): string {
    if sessions == [] then ""
    else AfterTries(hash, json, Resumed(json, FileOf(hash, json, Front(sessions))), Last(sessions)).text
  }

  /** No record brings a chain field of its own. */
  predicate Unchained(tries: seq<Try<Fields>>) { forall a | a in tries :: "chain" !in a.record }

  // -- the file follows the chain ------------------------------------------------------------------

  ghost predicate Tracks(json: Json, t: Trail, h: Handle) {
    && Last(Lines(t.text)) == "" && t.tip == h.tip
    && LinksIn(json, Front(Lines(t.text))) == h.links
    && ResumeFrom(json, Trail(t.text, GENESIS, 0), Front(Lines(t.text))).tip == Reopened(h.links).tip
  }

  lemma NothingTracks(json: Json)
    ensures Tracks(json, Resumed(json, ""), Reopened([])) && Resumed(json, "").text == ""
  {
    assert Lines("") == [""] && Front([""]) == [];
    BlankResumes(json, Trail("", GENESIS, 0));
  }

  lemma WrittenTracks(hash: Hash, json: Json, t: Trail, h: Handle, fields: Fields)
    requires Canonical(json) && HexOutput(hash) && "chain" !in fields && Tracks(json, t, h)
    ensures Tracks(json, Written(hash, json, t, fields), Tried(hash, h, Attempt(json.marshal(fields), true)))
  {
    hide Lines, LinksIn, ResumeFrom, Canonical;
    var t' := Written(hash, json, t, fields);
    var line, front := json.marshal(fields["chain" := t'.tip]), Front(Lines(t.text));
    WrittenLines(hash, json, t, fields);
    assert Front(Lines(t'.text)) == front + [line];
    LinksInAppend(json, front, [line]);
    assert IsHex(t'.tip);
    var blank := Trail(t'.text, GENESIS, 0);
    ResumeFromAppend(json, blank, front, [line]);
    LineFound(json, fields, t'.tip, ResumeFrom(json, blank, front));
  }

  lemma TryTracks(hash: Hash, json: Json, t: Trail, h: Handle, a: Try<Fields>)
    requires Canonical(json) && HexOutput(hash) && "chain" !in a.record && Tracks(json, t, h)
    ensures Tracks(json, AfterTry(hash, json, t, a), Tried(hash, h, Attempt(json.marshal(a.record), a.accepted)))
  {
    hide Lines, LinksIn, ResumeFrom, Canonical;
    if a.accepted {
      WrittenTracks(hash, json, t, h, a.record);
    }
  }

  lemma {:induction false} TriesTrack(hash: Hash, json: Json, t: Trail, h: Handle, tries: seq<Try<Fields>>)
    requires Canonical(json) && HexOutput(hash) && Unchained(tries) && Tracks(json, t, h)
    ensures Tracks(json, AfterTries(hash, json, t, tries), TriedAll(hash, h, AttemptsOf(json.marshal, tries)))
  {
    hide Tracks, Tried, AfterTry, Canonical;
    if tries != [] {
      assert Last(tries) in tries && forall a | a in Front(tries) :: a in tries;
      TriesTrack(hash, json, t, h, Front(tries));
      assert Front(AttemptsOf(json.marshal, tries)) == AttemptsOf(json.marshal, Front(tries));
      TryTracks(hash, json, AfterTries(hash, json, t, Front(tries)),
                TriedAll(hash, h, AttemptsOf(json.marshal, Front(tries))), Last(tries));
    }
  }

  /** Opening the file again finds the last hash that reached it. */
  lemma ReopenedTracks(json: Json, t: Trail, h: Handle)
    requires Tracks(json, t, h)
    ensures Tracks(json, Resumed(json, t.text), Reopened(h.links)) && Resumed(json, t.text).text == t.text
    ensures LinksIn(json, Lines(t.text)) == h.links
  {
    hide Lines, LinksIn, ResumeFrom;
    var blank, front := Trail(t.text, GENESIS, 0), Front(Lines(t.text));
    assert Lines(t.text) == front + [""];
    ResumeFromAppend(json, blank, front, [""]);
    BlankResumes(json, ResumeFrom(json, blank, front));
    ResumeIgnoresText(json, blank, t.text, front);
    assert blank.(text := t.text) == blank;
    LinksInAppend(json, front, [""]);
    BlankResumes(json, blank);
    assert h.links + [] == h.links;
  }

  lemma {:induction false} FileTracks(hash: Hash, json: Json, sessions: seq<seq<Try<Fields>>>)
    requires Canonical(json) && HexOutput(hash) && forall s | s in sessions :: Unchained(s)
    ensures var text, links := FileOf(hash, json, sessions), LinksAfter(hash, AllAttempts(json.marshal, sessions));
            && Tracks(json, Resumed(json, text), Reopened(links)) && Resumed(json, text).text == text
            && LinksIn(json, Lines(text)) == links
  {
    hide LinksAfter, AllAttempts, Tracks, TriedAll, AfterTries, Canonical, Unchained, LinksIn, Lines, Resumed, Reopened;
    if sessions == [] {
      NothingTracks(json);
      ReopenedTracks(json, Resumed(json, ""), Reopened([]));
      NothingReopened();
      NoLinks(hash, json.marshal);
    } else {
      assert Last(sessions) in sessions && forall s | s in Front(sessions) :: s in sessions;
      FileTracks(hash, json, Front(sessions));
      LinksOneMore(hash, json.marshal, sessions);
      var t := Resumed(json, FileOf(hash, json, Front(sessions)));
      var h := Reopened(LinksAfter(hash, AllAttempts(json.marshal, Front(sessions))));
      TriesTrack(hash, json, t, h, Last(sessions));
      ReopenedTracks(json, AfterTries(hash, json, t, Last(sessions)),
                     TriedAll(hash, h, AttemptsOf(json.marshal, Last(sessions))));
    }
  }

  // -- when it verifies ----------------------------------------------------------------------------

  /** Nothing was altered, and the file verifies if and only if no session had a write accepted after
      one that failed. Otherwise verifying it reports a break at exactly the first such record. */
  lemma VerifiesExactlyWhenStopped(hash: Hash, json: Json, sessions: seq<seq<Try<Fields>>>)
    requires Canonical(json) && HexOutput(hash) && forall s | s in sessions :: Unchained(s)
    requires var attempts := AllAttempts(json.marshal, sessions);
             CollisionFree(hash, AllHashed(hash, attempts) + Texts(hash, LinksAfter(hash, attempts)))
    ensures Verified(hash, LinksIn(json, Lines(FileOf(hash, json, sessions)))) <==> AllStopAtFailure(sessions)
    ensures !AllStopAtFailure(sessions) ==>
              var k := FirstStray(AllAttempts(json.marshal, sessions));
              k.Some? && BreaksAt(hash, LinksIn(json, Lines(FileOf(hash, json, sessions))), k.value)
  {
    hide LinksIn, Lines, FileOf, AllStopAtFailure, AllOrderly, Verified, BreaksAt, CollisionFree, Canonical, Texts,
      AllHashed, LinksAfter, FirstStray, Unchained, Tracks;
    FileTracks(hash, json, sessions);
    OrderlyAsStopped(json.marshal, sessions);
    VerifiesExactlyWhenOrderly(hash, AllAttempts(json.marshal, sessions));
  }

  /** The first run leaves one record, and a file that does not verify; the second leaves the same
      record in a file that does. */
  lemma ReopeningHeals(hash: Hash, json: Json, a: Fields, b: Fields)
    requires Canonical(json) && HexOutput(hash) && "chain" !in a && "chain" !in b
    requires var attempts := AllAttempts(json.marshal, LostThenWritten(a, b));
             CollisionFree(hash, AllHashed(hash, attempts) + Texts(hash, LinksAfter(hash, attempts)))
    ensures !Verified(hash, LinksIn(json, Lines(FileOf(hash, json, LostThenWritten(a, b)))))
    ensures Verified(hash, LinksIn(json, Lines(FileOf(hash, json, LostThenReopened(a, b)))))
  {
    hide LinksIn, Lines, FileOf, AllStopAtFailure, AllOrderly, Verified, CollisionFree, Canonical, Texts,
      AllHashed, LinksAfter, Tracks;
    TwoRuns(a, b);
    VerifiesExactlyWhenStopped(hash, json, LostThenWritten(a, b));
    FileTracks(hash, json, LostThenReopened(a, b));
    OrderlyAsStopped(json.marshal, LostThenReopened(a, b));
    OrderlyTrailVerifies(hash, AllAttempts(json.marshal, LostThenReopened(a, b)));
  }
}
