/** trailfile.go's writer over attempts that may fail: the tip moves before the write is tried, and
    opening the file again finds the last hash that reached it. When is the trail that results one the
    verifier accepts? */
module Attempts {
  import opened Chain
  import opened Options
  import opened Text

  /** One write of a record: the bytes its hash covers, and whether the write succeeded. */
  datatype Attempt = Attempt(payload: string, accepted: bool)

  /** The links in the file, and the tip its open handle has. */
  datatype Handle = Handle(links: seq<Link>, tip: string)

  function Tried(hash: Hash, h: Handle, a: Attempt): Handle {
    var tip := ChainLink(hash, h.tip, a.payload);
    Handle(if a.accepted then h.links + [Link(a.payload, tip)] else h.links, tip)
  }

  function TriedAll(hash: Hash, h: Handle, attempts: seq<Attempt>): Handle {
    if attempts == [] then h else Tried(hash, TriedAll(hash, h, Front(attempts)), Last(attempts))
  }

  function Reopened(links: seq<Link>): Handle { Handle(links, if links == [] then GENESIS else Last(links).stored) }

  /** The links in the file after some sessions, each of which opens it anew. */
  function LinksAfter(hash: Hash, sessions: seq<seq<Attempt>>): seq<Link> {
    if sessions == [] then [] else TriedAll(hash, Reopened(LinksAfter(hash, Front(sessions))), Last(sessions)).links
  }

  /** No write is accepted after one that failed. */
  predicate Orderly(attempts: seq<Attempt>) {
    forall i, j | 0 <= i < j < |attempts| :: !attempts[i].accepted ==> !attempts[j].accepted
  }

  predicate AllOrderly(sessions: seq<seq<Attempt>>) { forall s | s in sessions :: Orderly(s) }

  function AcceptedCount(attempts: seq<Attempt>): nat {
    if attempts == [] then 0 else AcceptedCount(Front(attempts)) + (if Last(attempts).accepted then 1 else 0)
  }

  /** Before which of a session's links the first write was accepted after one that failed. */
  function Stray(attempts: seq<Attempt>): Option<nat> {
    if attempts == [] || Orderly(attempts) then None
    else if Stray(Front(attempts)).Some? then Stray(Front(attempts))
    else Some(AcceptedCount(Front(attempts)))
  }

  /** The same over sessions. */
  function FirstStray(sessions: seq<seq<Attempt>>): Option<nat> {
    if sessions == [] then None
    else if FirstStray(Front(sessions)).Some? then FirstStray(Front(sessions))
    else
      match Stray(Last(sessions))
      case None => None
      case Some(k) => Some(AllAccepted(Front(sessions)) + k)
  }

  function AllAccepted(sessions: seq<seq<Attempt>>): nat {
    if sessions == [] then 0 else AllAccepted(Front(sessions)) + AcceptedCount(Last(sessions))
  }

  /** The texts the writer hashes. */
  function Hashed(hash: Hash, h: Handle, attempts: seq<Attempt>): set<string> {
    if attempts == [] then {}
    else Hashed(hash, h, Front(attempts)) + {TriedAll(hash, h, Front(attempts)).tip + "\n" + Last(attempts).payload}
  }

  function AllHashed(hash: Hash, sessions: seq<seq<Attempt>>): set<string> {
    if sessions == [] then {}
    else AllHashed(hash, Front(sessions)) + Hashed(hash, Reopened(LinksAfter(hash, Front(sessions))), Last(sessions))
  }

  // -- what a session leaves -----------------------------------------------------------------------

  lemma OrderlyFront(attempts: seq<Attempt>)
    requires attempts != []
    ensures Orderly(attempts) <==>
              Orderly(Front(attempts)) && (Last(attempts).accepted ==> Failed(Front(attempts)) == [])
  {
    FailedMember(Front(attempts));
    assert forall i | 0 <= i < |attempts| - 1 :: Front(attempts)[i] == attempts[i];
  }

  /** The payloads of the writes that failed. */
  function Failed(attempts: seq<Attempt>): seq<string> {
    if attempts == [] then []
    else Failed(Front(attempts)) + (if Last(attempts).accepted then [] else [Last(attempts).payload])
  }

  lemma {:induction false} FailedMember(attempts: seq<Attempt>)
    ensures Failed(attempts) == [] <==> forall i | 0 <= i < |attempts| :: attempts[i].accepted
  {
    if attempts != [] {
      FailedMember(Front(attempts));
      assert forall i | 0 <= i < |attempts| - 1 :: Front(attempts)[i] == attempts[i];
    }
  }

  lemma {:induction false} LinksGrow(hash: Hash, h: Handle, attempts: seq<Attempt>)
    ensures h.links <= TriedAll(hash, h, attempts).links
    ensures |TriedAll(hash, h, attempts).links| == |h.links| + AcceptedCount(attempts)
  {
    if attempts != [] {
      LinksGrow(hash, h, Front(attempts));
    }
  }

  lemma TextsOfPrefix(hash: Hash, links: seq<Link>, n: nat)
    requires n <= |links|
    ensures Texts(hash, links[..n]) <= Texts(hash, links)
  {
    hide TipOver;
    forall x | x in Texts(hash, links[..n])
      ensures x in Texts(hash, links)
    {
      var i :| 0 <= i < n && x == TextAt(hash, links[..n], i);
      assert links[..n][..i] == links[..i];
      assert x == TextAt(hash, links, i);
    }
  }

  /** Once broken, a longer trail is broken at the same place. */
  lemma BreakStays(hash: Hash, links: seq<Link>, n: nat, k: nat)
    requires n <= |links| && BreaksAt(hash, links[..n], k)
    ensures BreaksAt(hash, links, k)
  {
    hide TipOver, Verified;
    assert links[..n][..k] == links[..k] && links[..n][..k + 1] == links[..k + 1];
  }

  lemma TextsMore(hash: Hash, payloads: seq<string>, payload: string)
    ensures Texts(hash, Stamp(hash, payloads + [payload]))
         <= Texts(hash, Stamp(hash, payloads)) + {TipOver(hash, payloads) + "\n" + payload}
  {
    hide TipOver, Stamp;
    var front, more := Stamp(hash, payloads), Stamp(hash, payloads + [payload]);
    StampMore(hash, payloads, payload);
    StampIsVerified(hash, payloads);
    forall x | x in Texts(hash, more)
      ensures x in Texts(hash, front) + {TipOver(hash, payloads) + "\n" + payload}
    {
      var i :| 0 <= i < |more| && x == TextAt(hash, more, i);
      if i < |front| {
        assert more[..i] == front[..i];
        assert x == TextAt(hash, front, i);
      } else {
        assert more[..i] == front;
      }
    }
  }

  /** The tip after writes that failed is not the tip of the links in the file. */
  lemma TipMovedOn(hash: Hash, payloads: seq<string>, failed: seq<string>)
    requires HexOutput(hash) && failed != []
    requires CollisionFree(hash, Texts(hash, Stamp(hash, payloads + failed)))
    ensures TipOver(hash, payloads + failed) != TipOver(hash, payloads)
  {
    hide TipOver, Stamp, Texts, Verified, CollisionFree, HexOutput;
    var all := payloads + failed;
    var links := Stamp(hash, all);
    TipIsOneLine(hash, payloads);
    TipIsOneLine(hash, all);
    if payloads != [] {
      StampIsVerified(hash, all);
      TipsNeverRepeat(hash, links, |payloads| - 1, |all| - 1);
      StoredAt(hash, links, |payloads| - 1);
      StoredAt(hash, links, |all| - 1);
      assert all[..|payloads|] == payloads && all[..|all|] == all;
    }
  }

  lemma StoredAt(hash: Hash, links: seq<Link>, i: nat)
    requires Verified(hash, links) && i < |links|
    ensures links[i].stored == TipOver(hash, Payloads(links)[..i + 1])
  {
    hide TipOver;
    assert Payloads(links[..i + 1]) == Payloads(links)[..i + 1];
  }

  /** A handle on a trail that verifies, at its tip. */
  ghost predicate Sound(hash: Hash, h: Handle) {
    Verified(hash, h.links) && h.tip == TipOver(hash, Payloads(h.links))
  }

  /** Where a session of orderly attempts ends: a trail that verifies, and a tip ahead of it by the
      writes that failed. */
  ghost predicate Ends(hash: Hash, h: Handle, attempts: seq<Attempt>, end: Handle, texts: set<string>) {
    && Verified(hash, end.links) && end.tip == TipOver(hash, Payloads(end.links) + Failed(attempts))
    && Texts(hash, Stamp(hash, Payloads(end.links) + Failed(attempts))) <= texts
  }

  lemma {:induction false} OrderlyEnds(hash: Hash, h: Handle, attempts: seq<Attempt>, texts: set<string>)
    requires Sound(hash, h) && Orderly(attempts)
    requires Hashed(hash, h, attempts) <= texts && Texts(hash, TriedAll(hash, h, attempts).links) <= texts
    ensures Ends(hash, h, attempts, TriedAll(hash, h, attempts), texts)
  {
    hide TipOver, Stamp, Texts, Verified, Orderly;
    var end := TriedAll(hash, h, attempts);
    if attempts == [] {
      assert Payloads(h.links) + [] == Payloads(h.links);
      VerifiedIsStamped(hash, h.links);
    } else {
      var before, a := TriedAll(hash, h, Front(attempts)), Last(attempts);
      OrderlyFront(attempts);
      TextsOfPrefix(hash, end.links, |before.links|);
      assert end.links[..|before.links|] == before.links;
      OrderlyEnds(hash, h, Front(attempts), texts);
      if a.accepted {
        assert Payloads(before.links) + [] == Payloads(before.links);
        AcceptedStep(hash, before, a.payload);
        assert Failed(attempts) == [] && Payloads(end.links) + [] == Payloads(end.links);
        VerifiedIsStamped(hash, end.links);
      } else {
        var ahead := Payloads(before.links) + Failed(Front(attempts));
        assert Payloads(before.links) + (Failed(Front(attempts)) + [a.payload]) == ahead + [a.payload];
        TipMore(hash, ahead, a.payload);
        TextsMore(hash, ahead, a.payload);
      }
    }
  }

  lemma AcceptedStep(hash: Hash, h: Handle, payload: string)
    requires Sound(hash, h)
    ensures Sound(hash, Tried(hash, h, Attempt(payload, true)))
  {
    hide TipOver, Verified;
    var links := Tried(hash, h, Attempt(payload, true)).links;
    assert links[..|h.links|] == h.links && links[..|h.links| + 1] == links;
    assert Payloads(links) == Payloads(h.links) + [payload];
    TipMore(hash, Payloads(h.links), payload);
    VerifiedMore(hash, links, |h.links|);
  }

  /** A session whose writes are orderly leaves a trail that verifies; any other breaks it at the first
      write accepted after one that failed. */
  lemma {:induction false} SessionVerdict(hash: Hash, h: Handle, attempts: seq<Attempt>, texts: set<string>)
    requires Sound(hash, h) && HexOutput(hash) && CollisionFree(hash, texts)
    requires Hashed(hash, h, attempts) <= texts && Texts(hash, TriedAll(hash, h, attempts).links) <= texts
    ensures Orderly(attempts) ==> Stray(attempts) == None && Verified(hash, TriedAll(hash, h, attempts).links)
    ensures !Orderly(attempts) ==>
              Stray(attempts).Some?
              && BreaksAt(hash, TriedAll(hash, h, attempts).links, |h.links| + Stray(attempts).value)
  {
    hide TipOver, Stamp, Texts, Verified, Orderly, BreaksAt, CollisionFree, HexOutput;
    if Orderly(attempts) {
      OrderlyEnds(hash, h, attempts, texts);
    } else if attempts != [] {
      var front := Front(attempts);
      var before, end := TriedAll(hash, h, front), TriedAll(hash, h, attempts);
      assert end.links[..|before.links|] == before.links;
      TextsOfPrefix(hash, end.links, |before.links|);
      SessionVerdict(hash, h, front, texts);
      if Orderly(front) {
        LinksGrow(hash, h, front);
        OrderlyEnds(hash, h, front, texts);
        OrderlyFront(attempts);
        StrayBreaks(hash, before, Failed(front), Last(attempts).payload, texts);
      } else {
        BreakStays(hash, end.links, |before.links|, |h.links| + Stray(front).value);
      }
    } else {
      NothingIsOrderly();
    }
  }

  lemma NothingIsOrderly()
    ensures Orderly([])
  {
  }

  lemma StrayBreaks(hash: Hash, before: Handle, failed: seq<string>, payload: string, texts: set<string>)
    requires HexOutput(hash) && CollisionFree(hash, texts) && Verified(hash, before.links) && failed != []
    requires before.tip == TipOver(hash, Payloads(before.links) + failed)
    requires Texts(hash, Stamp(hash, Payloads(before.links) + failed)) <= texts
    requires Texts(hash, Tried(hash, before, Attempt(payload, true)).links) <= texts
    requires before.tip + "\n" + payload in texts
    ensures BreaksAt(hash, Tried(hash, before, Attempt(payload, true)).links, |before.links|)
  {
    hide TipOver, Stamp, Verified, BreaksAt, HexOutput;
    var payloads, links := Payloads(before.links), Tried(hash, before, Attempt(payload, true)).links;
    TipMovedOn(hash, payloads, failed);
    TipIsOneLine(hash, payloads);
    TipIsOneLine(hash, payloads + failed);
    assert links[..|before.links|] == before.links;
    assert TextAt(hash, links, |before.links|) in Texts(hash, links);
    LastBreaks(hash, before.links, payload, before.tip);
  }

  // -- over sessions -------------------------------------------------------------------------------

  lemma ReopenedIsSound(hash: Hash, links: seq<Link>)
    requires Verified(hash, links)
    ensures Sound(hash, Reopened(links))
  {
    hide TipOver, Verified;
    if links != [] {
      LastStored(hash, links);
    } else {
      NoPayloads(hash);
    }
  }

  lemma NoPayloads(hash: Hash)
    ensures TipOver(hash, Payloads([])) == GENESIS
  {
  }

  lemma {:induction false} LinksCount(hash: Hash, sessions: seq<seq<Attempt>>)
    ensures |LinksAfter(hash, sessions)| == AllAccepted(sessions)
  {
    if sessions != [] {
      LinksCount(hash, Front(sessions));
      LinksGrow(hash, Reopened(LinksAfter(hash, Front(sessions))), Last(sessions));
    }
  }

  /** Without a stray write the trail verifies, whatever the hash. */
  lemma {:induction false} OrderlyTrailVerifies(hash: Hash, sessions: seq<seq<Attempt>>)
    requires AllOrderly(sessions)
    ensures Verified(hash, LinksAfter(hash, sessions))
  {
    hide TipOver, Stamp, Texts, Verified, Orderly, AllOrderly, TriedAll, Hashed;
    if sessions == [] {
      NothingTried(hash);
    } else {
      var h := Reopened(LinksAfter(hash, Front(sessions)));
      OrderlyBefore(sessions);
      OrderlyTrailVerifies(hash, Front(sessions));
      ReopenedIsSound(hash, h.links);
      var links := TriedAll(hash, h, Last(sessions)).links;
      OrderlyEnds(hash, h, Last(sessions), Hashed(hash, h, Last(sessions)) + Texts(hash, links));
    }
  }

  lemma OrderlyBefore(sessions: seq<seq<Attempt>>)
    requires sessions != []
    ensures AllOrderly(sessions) <==> AllOrderly(Front(sessions)) && Orderly(Last(sessions))
  {
    hide Orderly;
    assert sessions == Front(sessions) + [Last(sessions)];
  }

  /** One more session on a trail that verifies. */
  lemma LastVerdict(hash: Hash, sessions: seq<seq<Attempt>>, texts: set<string>)
    requires sessions != [] && HexOutput(hash) && CollisionFree(hash, texts)
    requires AllHashed(hash, sessions) <= texts && Texts(hash, LinksAfter(hash, sessions)) <= texts
    requires Verified(hash, LinksAfter(hash, Front(sessions)))
    ensures match Stray(Last(sessions))
            case None => Orderly(Last(sessions)) && Verified(hash, LinksAfter(hash, sessions))
            case Some(k) => !Orderly(Last(sessions))
                            && BreaksAt(hash, LinksAfter(hash, sessions), AllAccepted(Front(sessions)) + k)
  {
    hide TipOver, Texts, Verified, Orderly, BreaksAt, CollisionFree, HexOutput, TriedAll, Hashed, Stray,
      AllHashed, AllAccepted, AcceptedCount;
    var before := LinksAfter(hash, Front(sessions));
    HashedLast(hash, sessions);
    LinksCount(hash, Front(sessions));
    ReopenedIsSound(hash, before);
    SessionVerdict(hash, Reopened(before), Last(sessions), texts);
  }

  lemma {:induction false} TrailVerdict(hash: Hash, sessions: seq<seq<Attempt>>, texts: set<string>)
    requires HexOutput(hash) && CollisionFree(hash, texts)
    requires AllHashed(hash, sessions) <= texts && Texts(hash, LinksAfter(hash, sessions)) <= texts
    ensures FirstStray(sessions) == None <==> AllOrderly(sessions)
    ensures match FirstStray(sessions)
            case None => Verified(hash, LinksAfter(hash, sessions))
            case Some(k) => BreaksAt(hash, LinksAfter(hash, sessions), k)
  {
    hide TipOver, Texts, Verified, Orderly, AllOrderly, BreaksAt, CollisionFree, HexOutput, LinksAfter, Stray,
      AllHashed, AllAccepted;
    if sessions == [] {
      NothingTried(hash);
    } else {
      var links, before := LinksAfter(hash, sessions), LinksAfter(hash, Front(sessions));
      OrderlyBefore(sessions);
      SessionGrows(hash, sessions);
      HashedBefore(hash, sessions);
      TrailVerdict(hash, Front(sessions), texts);
      if FirstStray(Front(sessions)) == None {
        LastVerdict(hash, sessions, texts);
      } else {
        BreakStays(hash, links, |before|, FirstStray(Front(sessions)).value);
      }
    }
  }

  lemma NothingReopened()
    ensures Reopened([]).links == []
  {
  }

  lemma NothingTried(hash: Hash)
    ensures LinksAfter(hash, []) == [] && Verified(hash, []) && AllOrderly([])
  {
  }

  lemma HashedBefore(hash: Hash, sessions: seq<seq<Attempt>>)
    requires sessions != []
    ensures AllHashed(hash, Front(sessions)) <= AllHashed(hash, sessions)
    ensures Texts(hash, LinksAfter(hash, Front(sessions))) <= Texts(hash, LinksAfter(hash, sessions))
  {
    hide Texts, LinksAfter, Hashed;
    SessionGrows(hash, sessions);
    TextsOfPrefix(hash, LinksAfter(hash, sessions), |LinksAfter(hash, Front(sessions))|);
  }

  lemma HashedLast(hash: Hash, sessions: seq<seq<Attempt>>)
    requires sessions != []
    ensures Hashed(hash, Reopened(LinksAfter(hash, Front(sessions))), Last(sessions)) <= AllHashed(hash, sessions)
  {
    hide LinksAfter, Hashed;
  }

  lemma SessionGrows(hash: Hash, sessions: seq<seq<Attempt>>)
    requires sessions != []
    ensures var links, before := LinksAfter(hash, sessions), LinksAfter(hash, Front(sessions));
            |before| <= |links| && links[..|before|] == before
  {
    hide TriedAll;
    LinksGrow(hash, Reopened(LinksAfter(hash, Front(sessions))), Last(sessions));
  }

  /** The trail verifies if and only if no session had a write accepted after one that failed; a write
      that failed last, or before the file was opened again, does no harm. Otherwise verifying reports
      a break, and at exactly the first such write. */
  lemma VerifiesExactlyWhenOrderly(hash: Hash, sessions: seq<seq<Attempt>>)
    requires HexOutput(hash)
    requires CollisionFree(hash, AllHashed(hash, sessions) + Texts(hash, LinksAfter(hash, sessions)))
    ensures Verified(hash, LinksAfter(hash, sessions)) <==> AllOrderly(sessions)
    ensures !Verified(hash, LinksAfter(hash, sessions)) ==>
              FirstStray(sessions).Some? && BreaksAt(hash, LinksAfter(hash, sessions), FirstStray(sessions).value)
  {
    hide TipOver, Texts, Verified, Orderly, CollisionFree, HexOutput, LinksAfter, AllHashed, FirstStray, BreaksAt,
      AllOrderly;
    TrailVerdict(hash, sessions, AllHashed(hash, sessions) + Texts(hash, LinksAfter(hash, sessions)));
    if FirstStray(sessions).Some? {
      BrokenIsNotVerified(hash, LinksAfter(hash, sessions), FirstStray(sessions).value);
    }
  }

  // -- records of any kind -------------------------------------------------------------------------

  /** A record to write, and whether the write succeeds. */
  datatype Try<T> = Try(record: T, accepted: bool)

  function AttemptsOf<T>(payload: T -> string, tries: seq<Try<T>>): (r: seq<Attempt>)
    ensures |r| == |tries|
    ensures forall i | 0 <= i < |r| :: r[i] == Attempt(payload(tries[i].record), tries[i].accepted)
  {
    seq(|tries|, i requires 0 <= i < |tries| => Attempt(payload(tries[i].record), tries[i].accepted))
  }

  function AllAttempts<T>(payload: T -> string, sessions: seq<seq<Try<T>>>): (r: seq<seq<Attempt>>)
    ensures |r| == |sessions| && forall i | 0 <= i < |r| :: r[i] == AttemptsOf(payload, sessions[i])
  {
    seq(|sessions|, i requires 0 <= i < |sessions| => AttemptsOf(payload, sessions[i]))
  }

  lemma LinksOneMore<T>(hash: Hash, payload: T -> string, sessions: seq<seq<Try<T>>>)
    requires sessions != []
    ensures LinksAfter(hash, AllAttempts(payload, sessions))
         == TriedAll(hash, Reopened(LinksAfter(hash, AllAttempts(payload, Front(sessions)))),
                     AttemptsOf(payload, Last(sessions))).links
  {
    hide TriedAll, Reopened, AttemptsOf;
    assert Front(AllAttempts(payload, sessions)) == AllAttempts(payload, Front(sessions));
  }

  lemma NoLinks<T>(hash: Hash, payload: T -> string)
    ensures LinksAfter(hash, AllAttempts(payload, [])) == []
  {
  }

  /** A caller's view: once a write of a session has failed, none of its later writes succeeds. */
  predicate StopsAtFailure<T>(tries: seq<Try<T>>) {
    forall i, j | 0 <= i < j < |tries| :: !tries[i].accepted ==> !tries[j].accepted
  }

  predicate AllStopAtFailure<T(==)>(sessions: seq<seq<Try<T>>>) { forall s | s in sessions :: StopsAtFailure(s) }

  lemma OrderlyAsStopped<T>(payload: T -> string, sessions: seq<seq<Try<T>>>)
    ensures AllOrderly(AllAttempts(payload, sessions)) <==> AllStopAtFailure(sessions)
  {
    var all := AllAttempts(payload, sessions);
    forall i | 0 <= i < |sessions|
      ensures Orderly(all[i]) <==> StopsAtFailure(sessions[i])
    {
      assert forall k | 0 <= k < |sessions[i]| :: all[i][k].accepted == sessions[i][k].accepted;
    }
    assert forall i | 0 <= i < |all| :: all[i] in all && sessions[i] in sessions;
  }

  /** One write fails and the next of the session succeeds. */
  function LostThenWritten<T>(a: T, b: T): seq<seq<Try<T>>> { [[Try(a, false), Try(b, true)]] }

  /** The same with the file closed and opened again in between. */
  function LostThenReopened<T>(a: T, b: T): seq<seq<Try<T>>> { [[Try(a, false)], [Try(b, true)]] }

  lemma TwoRuns<T>(a: T, b: T)
    ensures !AllStopAtFailure(LostThenWritten(a, b)) && AllStopAtFailure(LostThenReopened(a, b))
  {
    var s := LostThenWritten(a, b)[0];
    assert s in LostThenWritten(a, b) && !s[0].accepted && s[1].accepted;
  }
}
