/** What the queue discipline of kernel.go gives one task over any run of queue events: a bound on
    how often it is bypassed, and the spacing of a recurring task's firings. */
module KernelFairness {
  import opened Options
  import opened KernelCore

  /** The events that touch the queue or the reservations. `due` and `now` are clock readings. */
  datatype Event =
    | TakeAt(now: int)
    | SubmitAt(instance: string, every: int, due: int)
    | CancelAt(id: nat)
    | ReleaseAt(instance: string)

  function After(k: KState, e: Event): KState {
    match e
    case TakeAt(now) => Take(k, now, true).0
    case SubmitAt(instance, every, due) => Enqueue(k, instance, every, due)
    case CancelAt(id) => Unqueue(k, id)
    case ReleaseAt(instance) => Release(k, instance)
  }

  predicate Takes(k: KState, e: Event, id: nat) {
    e.TakeAt? && Take(k, e.now, true).1.Some? && Take(k, e.now, true).1.value.id == id
  }

  ghost predicate UniqueIds(k: KState) {
    && (forall i | 0 <= i < |k.queue| :: k.queue[i].id <= k.nextId)
    && (forall i, j | 0 <= i < j < |k.queue| :: k.queue[i].id != k.queue[j].id)
  }

  lemma AfterKeepsUniqueIds(k: KState, e: Event)
    requires UniqueIds(k)
    ensures UniqueIds(After(k, e)) && k.nextId <= After(k, e).nextId
  {
    hide Take, IndexOfId;
    match e
    case TakeAt(now) => TakeKeepsUniqueIds(k, now);
    case CancelAt(id) => RemovalKeepsUniqueIds(k, id);
    case SubmitAt(_, _, _) =>
    case ReleaseAt(_) =>
  }

  lemma RemovalKeepsUniqueIds(k: KState, id: nat)
    requires UniqueIds(k)
    ensures UniqueIds(Unqueue(k, id)) && Unqueue(k, id).nextId == k.nextId
  {
    hide IndexOfId;
    var q, q' := k.queue, Unqueue(k, id).queue;
    match IndexOfId(q, id) {
    case None =>
    case Some(b) => assert forall i | 0 <= i < |q'| :: q'[i] == if i < b then q[i] else q[i + 1];
    }
  }

  lemma TakeKeepsUniqueIds(k: KState, now: int)
    requires UniqueIds(k)
    ensures UniqueIds(Take(k, now, true).0) && Take(k, now, true).0.nextId == k.nextId
  {
    hide Best;
    var q, q' := k.queue, Take(k, now, true).0.queue;
    match Best(q, |q|, now, true, k.inFlight)
    case None =>
    case Some(b) =>
      if Recurring(q[b]) {
        assert forall i | 0 <= i < |q| :: q'[i].id == q[i].id;
      } else {
        assert forall i | 0 <= i < |q'| :: q'[i] == if i < b then q[i] else q[i + 1];
      }
  }

  // -- bounded bypass ------------------------------------------------------------------------------

  /** The tasks that sort before the task at `p`. */
  ghost function AheadIds(q: seq<Task>, p: nat): set<nat>
    requires p < |q|
  {
    set i | 0 <= i < |q| && Ahead(q, i, p) :: q[i].id
  }

  /** An event that leaves the waiting task its chance: takes read a clock no earlier than
      `start` and find its instance free, new work is due no earlier than `start`, and nobody
      cancels the task. */
  ghost predicate Fair(k: KState, e: Event, p: nat, start: int)
    requires p < |k.queue|
  {
    match e
    case TakeAt(now) => start <= now && k.queue[p].instance !in k.inFlight
    case SubmitAt(_, _, due) => start <= due
    case CancelAt(id) => id != k.queue[p].id
    case ReleaseAt(_) => true
  }

  /** Fair events up to the moment the task is taken. */
  ghost predicate FairUntilTaken(k: KState, es: seq<Event>, id: nat, start: int)
    decreases |es|
  {
    es == [] ||
    match IndexOfId(k.queue, id)
    case None => false
    case Some(p) =>
      Fair(k, es[0], p, start) && (Takes(k, es[0], id) || FairUntilTaken(After(k, es[0]), es[1..], id, start))
  }

  function TakeCount(es: seq<Event>): nat {
    if es == [] then 0 else (if es[0].TakeAt? then 1 else 0) + TakeCount(es[1..])
  }

  predicate TakenIn(k: KState, es: seq<Event>, id: nat)
    decreases |es|
  {
    es != [] && (Takes(k, es[0], id) || TakenIn(After(k, es[0]), es[1..], id))
  }

  lemma RemovalKeepsOrder(q: seq<Task>, b: nat, p: nat)
    requires b < |q| && p < |q| && b != p
    requires forall i, j | 0 <= i < j < |q| :: q[i].id != q[j].id
    ensures var p' := if b < p then p - 1 else p;
            p' < |Without(q, b)| && Without(q, b)[p'] == q[p]
            && AheadIds(Without(q, b), p') <= AheadIds(q, p) - {q[b].id}
  {
    var q', p' := Without(q, b), if b < p then p - 1 else p;
    forall x | x in AheadIds(q', p')
      ensures x in AheadIds(q, p) && x != q[b].id
    {
      var i :| 0 <= i < |q'| && Ahead(q', i, p') && q'[i].id == x;
      var i0 := if i < b then i else i + 1;
      assert q'[i] == q[i0] && Ahead(q, i0, p);
    }
  }

  lemma TakeLowersRank(k: KState, now: int, p: nat, start: int) returns (p': nat)
    requires UniqueIds(k) && p < |k.queue| && k.queue[p].due <= start
    requires Fair(k, TakeAt(now), p, start) && !Takes(k, TakeAt(now), k.queue[p].id)
    ensures var k' := After(k, TakeAt(now));
            p' < |k'.queue| && k'.queue[p'] == k.queue[p] && |AheadIds(k'.queue, p')| < |AheadIds(k.queue, p)|
  {
    p' := p;
    BestIsSoonest(k.queue, |k.queue|, now, true, k.inFlight);
    assert Eligible(k.queue[p], now, true, k.inFlight);
    var b := Best(k.queue, |k.queue|, now, true, k.inFlight).value;
    assert b != p && Ahead(k.queue, b, p);
    var k' := After(k, TakeAt(now));
    assert k.queue[b].id in AheadIds(k.queue, p);
    if Recurring(k.queue[b]) {
      forall x | x in AheadIds(k'.queue, p)
        ensures x in AheadIds(k.queue, p) && x != k.queue[b].id
      {
        var i :| 0 <= i < |k'.queue| && Ahead(k'.queue, i, p) && k'.queue[i].id == x;
        assert i != b && k'.queue[i] == k.queue[i] && Ahead(k.queue, i, p);
      }
    } else {
      RemovalKeepsOrder(k.queue, b, p);
      p' := if b < p then p - 1 else p;
    }
    StrictSubsetIsSmaller(AheadIds(k'.queue, p'), AheadIds(k.queue, p), k.queue[b].id);
  }

  lemma OtherEventsKeepRank(k: KState, e: Event, p: nat, start: int) returns (p': nat)
    requires UniqueIds(k) && p < |k.queue| && k.queue[p].due <= start && Fair(k, e, p, start) && !e.TakeAt?
    ensures var k' := After(k, e);
            p' < |k'.queue| && k'.queue[p'] == k.queue[p] && |AheadIds(k'.queue, p')| <= |AheadIds(k.queue, p)|
  {
    p' := p;
    var k' := After(k, e);
    match e {
    case SubmitAt(_, _, _) =>
      forall x | x in AheadIds(k'.queue, p)
        ensures x in AheadIds(k.queue, p)
      {
        var i :| 0 <= i < |k'.queue| && Ahead(k'.queue, i, p) && k'.queue[i].id == x;
        assert i < |k.queue| && Ahead(k.queue, i, p);
      }
    case CancelAt(id) =>
      if IndexOfId(k.queue, id).Some? {
        var b := IndexOfId(k.queue, id).value;
        RemovalKeepsOrder(k.queue, b, p);
        p' := if b < p then p - 1 else p;
      }
    case ReleaseAt(_) =>
    }
    SubsetIsNoLarger(AheadIds(k'.queue, p'), AheadIds(k.queue, p));
  }

  lemma StrictSubsetIsSmaller<T>(a: set<T>, b: set<T>, x: T)
    requires a <= b - {x} && x in b
    ensures |a| < |b|
  {
    SubsetIsNoLarger(a, b - {x});
  }

  lemma {:induction false} SubsetIsNoLarger<T>(a: set<T>, b: set<T>)
    requires a <= b
    ensures |a| <= |b|
  {
    if a != {} {
      var x :| x in a;
      SubsetIsNoLarger(a - {x}, b - {x});
    }
  }

  /** Bounded bypass: a ready task whose instance is free at every take is taken within one more
      take than there are tasks sorting before it. */
  lemma {:induction false} BoundedBypass(k: KState, es: seq<Event>, p: nat, start: int)
    requires UniqueIds(k) && p < |k.queue| && k.queue[p].due <= start
    requires FairUntilTaken(k, es, k.queue[p].id, start)
    requires TakeCount(es) > |AheadIds(k.queue, p)|
    ensures TakenIn(k, es, k.queue[p].id)
    decreases |es|
  {
    hide Take, After, Takes, Fair, AheadIds;
    var id := k.queue[p].id;
    assert IndexOfId(k.queue, id) == Some(p);
    if !Takes(k, es[0], id) {
      var k' := After(k, es[0]);
      AfterKeepsUniqueIds(k, es[0]);
      var p';
      if es[0].TakeAt? {
        p' := TakeLowersRank(k, es[0].now, p, start);
      } else {
        p' := OtherEventsKeepRank(k, es[0], p, start);
      }
      BoundedBypass(k', es[1..], p', start);
    }
  }

  // -- the spacing of a recurring task -------------------------------------------------------------

  /** The clock readings at which a task is taken, in order. */
  function Firings(k: KState, es: seq<Event>, id: nat): seq<int>
    decreases |es|
  {
    if es == [] then []
    else (if Takes(k, es[0], id) then [es[0].now] else []) + Firings(After(k, es[0]), es[1..], id)
  }

  /** Wherever the task is queued, it recurs with this period. */
  ghost predicate Periodic(k: KState, id: nat, period: int) {
    forall i | 0 <= i < |k.queue| && k.queue[i].id == id :: k.queue[i].every == period
  }

  ghost predicate DueFrom(k: KState, id: nat, due: int) {
    forall i | 0 <= i < |k.queue| && k.queue[i].id == id :: k.queue[i].due >= due
  }

  lemma EventKeepsPeriod(k: KState, e: Event, id: nat, period: int)
    requires UniqueIds(k) && id <= k.nextId && period > 0 && Periodic(k, id, period)
    ensures Periodic(After(k, e), id, period)
    ensures Takes(k, e, id) ==> DueFrom(After(k, e), id, e.now + period)
  {
    hide Best;
    BestIsSoonest(k.queue, |k.queue|, if e.TakeAt? then e.now else 0, true, k.inFlight);
  }

  lemma EventKeepsDue(k: KState, e: Event, id: nat, due: int)
    requires UniqueIds(k) && id <= k.nextId && DueFrom(k, id, due)
    ensures Takes(k, e, id) ==> e.now >= due
    ensures !Takes(k, e, id) ==> DueFrom(After(k, e), id, due)
  {
    hide Take, IndexOfId;
    match e {
    case TakeAt(now) => TakeKeepsDue(k, now, id, due);
    case SubmitAt(_, _, _) =>
    case CancelAt(other) => RemovalKeepsDue(k, other, id, due);
    case ReleaseAt(_) =>
    }
  }

  lemma TakeKeepsDue(k: KState, now: int, id: nat, due: int)
    requires UniqueIds(k) && DueFrom(k, id, due)
    ensures Takes(k, TakeAt(now), id) ==> now >= due
    ensures !Takes(k, TakeAt(now), id) ==> DueFrom(Take(k, now, true).0, id, due)
  {
    hide Best, UniqueIds;
    var q, q' := k.queue, Take(k, now, true).0.queue;
    BestIsSoonest(q, |q|, now, true, k.inFlight);
    match Best(q, |q|, now, true, k.inFlight) {
    case None =>
    case Some(b) =>
      forall i | 0 <= i < |q'| && q'[i].id == id && !Takes(k, TakeAt(now), id)
        ensures q'[i].due >= due
      {
        assert q'[i] == if Recurring(q[b]) then (if i == b then Rearmed(q[b], now) else q[i])
                        else if i < b then q[i] else q[i + 1];
      }
    }
  }

  lemma RemovalKeepsDue(k: KState, other: nat, id: nat, due: int)
    requires DueFrom(k, id, due)
    ensures DueFrom(Unqueue(k, other), id, due)
  {
    hide IndexOfId;
    var q, q' := k.queue, Unqueue(k, other).queue;
    match IndexOfId(q, other) {
    case None =>
    case Some(b) => assert forall i | 0 <= i < |q'| :: q'[i] == if i < b then q[i] else q[i + 1];
    }
  }

  lemma {:induction false} FiringsStartLate(k: KState, es: seq<Event>, id: nat, due: int)
    requires UniqueIds(k) && id <= k.nextId && DueFrom(k, id, due)
    ensures Firings(k, es, id) != [] ==> Firings(k, es, id)[0] >= due
    decreases |es|
  {
    if es != [] {
      EventKeepsDue(k, es[0], id, due);
      AfterKeepsUniqueIds(k, es[0]);
      if !Takes(k, es[0], id) {
        FiringsStartLate(After(k, es[0]), es[1..], id, due);
      }
    }
  }

  /** For any clock readings whatever, consecutive firings are at least one period apart. */
  lemma {:induction false} ConsecutiveFirings(k: KState, es: seq<Event>, id: nat, period: int)
    requires UniqueIds(k) && id <= k.nextId && period > 0 && Periodic(k, id, period)
    ensures forall i | 0 < i < |Firings(k, es, id)| :: Firings(k, es, id)[i] - Firings(k, es, id)[i - 1] >= period
    decreases |es|
  {
    if es != [] {
      var k' := After(k, es[0]);
      EventKeepsPeriod(k, es[0], id, period);
      AfterKeepsUniqueIds(k, es[0]);
      ConsecutiveFirings(k', es[1..], id, period);
      if Takes(k, es[0], id) {
        FiringsStartLate(k', es[1..], id, es[0].now + period);
        var rest := Firings(k', es[1..], id);
        assert Firings(k, es, id) == [es[0].now] + rest;
        forall i | 0 < i < |rest| + 1
          ensures ([es[0].now] + rest)[i] - ([es[0].now] + rest)[i - 1] >= period
        {
          if i > 1 {
            assert rest[i - 1] - rest[i - 2] >= period;
          }
        }
      } else {
        assert Firings(k, es, id) == Firings(k', es[1..], id);
      }
    }
  }

  /** So the firings numbered i and j span at least j - i periods. */
  lemma {:induction false} FiringsSpan(k: KState, es: seq<Event>, id: nat, period: int, i: nat, j: nat)
    requires UniqueIds(k) && id <= k.nextId && period > 0 && Periodic(k, id, period)
    requires i <= j < |Firings(k, es, id)|
    ensures Firings(k, es, id)[j] - Firings(k, es, id)[i] >= (j - i) * period
    decreases j
  {
    hide Firings, UniqueIds, Periodic;
    if i < j {
      ConsecutiveFirings(k, es, id, period);
      FiringsSpan(k, es, id, period, i, j - 1);
      var f := Firings(k, es, id);
      assert f[j] - f[j - 1] >= period && f[j - 1] - f[i] >= (j - 1 - i) * period;
      assert (j - i) * period == (j - 1 - i) * period + period;
    }
  }
}
