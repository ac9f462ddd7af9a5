/** What every step of the pending-reply protocol keeps, and what that promises of every run. */
module McpRuns {
  import opened McpClients

  // -- what every step keeps -----------------------------------------------------------------------

  /** Ids and channels belong to one request each, and the table holds requests that have not gone. */
  ghost predicate Owned(c: Client) {
    && (forall id | id in c.requests :: 1 <= id <= c.nextID && c.requests[id].chan in c.buffers)
    && (forall id, id' | id in c.requests && id' in c.requests && c.requests[id].chan == c.requests[id'].chan
          :: id == id')
    && (forall id | id in c.pending :: id in c.requests && c.pending[id] == c.requests[id].chan
                                       && !c.requests[id].phase.Gone?)
  }

  /** The right to send on a channel: held by the table, by one send begun, or used up. */
  ghost predicate OneSender(c: Client) {
    && (forall i, j | 0 <= i < j < |c.sends| :: c.sends[i].chan != c.sends[j].chan)
    && (forall i | 0 <= i < |c.sends| :: c.sends[i].chan in c.buffers && c.sent[c.sends[i].chan] == 0)
    && (forall id, i | id in c.pending && 0 <= i < |c.sends| :: c.pending[id] != c.sends[i].chan)
    && (forall id | id in c.pending :: c.sent[c.pending[id]] == 0)
  }

  /** A message in a channel was sent there, and at most one ever is. */
  ghost predicate Counted(c: Client) {
    && (forall chan | chan in c.buffers :: |c.buffers[chan]| <= c.sent[chan] <= 1)
    && (forall chan | chan !in c.buffers :: c.sent[chan] == 0)
    && c.discarded == 0
  }

  predicate Fits(message: Message, id: nat) { message.Frame? ==> message.id == id }

  predicate FitsPhase(phase: Phase, id: nat) {
    (phase.Leaving? || phase.Gone?) && phase.outcome.Got? ==> Fits(phase.outcome.message, id)
  }

  /** Only frames with its id get near a request. */
  ghost predicate Correlated(c: Client) {
    && (forall id | id in c.requests && c.requests[id].chan in c.buffers ::
          forall m | m in c.buffers[c.requests[id].chan] :: Fits(m, id))
    && (forall id, i | id in c.requests && 0 <= i < |c.sends| && c.sends[i].chan == c.requests[id].chan ::
          Fits(c.sends[i].message, id))
    && (forall id | id in c.requests :: FitsPhase(c.requests[id].phase, id))
  }

  predicate Undecided(c: Client, id: nat) {
    id in c.requests && (c.requests[id].phase.Writing? || c.requests[id].phase.Waiting?)
  }

  predicate SendBegun(c: Client, chan: nat) { exists i | 0 <= i < |c.sends| :: c.sends[i].chan == chan }

  /** A request without an outcome is in the table, or its send has begun, or its reply is there. */
  ghost predicate Answered(c: Client) {
    forall id | Undecided(c, id) && id !in c.pending && c.requests[id].chan in c.buffers ::
      SendBegun(c, c.requests[id].chan) || c.buffers[c.requests[id].chan] != []
  }

  ghost predicate Inv(c: Client) { Owned(c) && OneSender(c) && Counted(c) && Correlated(c) && Answered(c) }

  lemma SendsGrow(c: Client, c': Client, chan: nat)
    requires c.sends <= c'.sends
    ensures SendBegun(c, chan) ==> SendBegun(c', chan)
  {
    if SendBegun(c, chan) {
      var i :| 0 <= i < |c.sends| && c.sends[i].chan == chan;
      assert c'.sends[i].chan == chan;
    }
  }

  lemma RegisterKeepsOwned(c: Client, chan: nat)
    requires Inv(c) && Enabled(c, Register(chan))
    ensures var after := Apply(c, Register(chan)); Owned(after)
  {
    hide OneSender, Counted, Correlated, Answered;
  }

  lemma RegisterKeepsCorrelated(c: Client, chan: nat)
    requires Inv(c) && Enabled(c, Register(chan))
    ensures var after := Apply(c, Register(chan)); Correlated(after)
  {
    hide Counted, Answered;
  }

  lemma RegisterKeepsAnswered(c: Client, chan: nat)
    requires Inv(c) && Enabled(c, Register(chan))
    ensures var after := Apply(c, Register(chan)); Answered(after)
  {
    hide OneSender, Counted, Correlated;
    var c' := Apply(c, Register(chan));
    forall id | Undecided(c', id) && id !in c'.pending && c'.requests[id].chan in c'.buffers
      ensures SendBegun(c', c'.requests[id].chan) || c'.buffers[c'.requests[id].chan] != []
    {
      SendsGrow(c, c', c.requests[id].chan);
    }
  }

  lemma RegisterKeepsOneSender(c: Client, chan: nat)
    requires Inv(c) && Enabled(c, Register(chan))
    ensures var after := Apply(c, Register(chan)); OneSender(after)
  {
    hide Correlated, Answered;
  }

  lemma RegisterKeepsCounted(c: Client, chan: nat)
    requires Inv(c) && Enabled(c, Register(chan))
    ensures var after := Apply(c, Register(chan)); Counted(after)
  {
    hide Owned, Correlated, Answered;
  }

  lemma WriteKeepsOwnedAndCorrelated(c: Client, id: nat, ok: bool)
    requires Inv(c) && Enabled(c, Write(id, ok))
    ensures var after := Apply(c, Write(id, ok)); Owned(after) && Correlated(after)
  {
    hide OneSender, Counted, Answered;
  }

  lemma WriteKeepsAnswered(c: Client, id: nat, ok: bool)
    requires Inv(c) && Enabled(c, Write(id, ok))
    ensures var after := Apply(c, Write(id, ok)); Answered(after)
  {
    hide OneSender, Counted, Correlated;
  }

  lemma WriteKeepsOneSenderAndCounted(c: Client, id: nat, ok: bool)
    requires Inv(c) && Enabled(c, Write(id, ok))
    ensures var after := Apply(c, Write(id, ok)); OneSender(after) && Counted(after)
  {
    hide Correlated, Answered;
  }

  lemma DeliverKeepsOwnedAndCorrelated(c: Client, message: Message)
    requires Inv(c) && Enabled(c, Deliver(message))
    ensures var after := Apply(c, Deliver(message)); Owned(after) && Correlated(after)
  {
    hide OneSender, Counted, Answered;
  }

  lemma DeliverKeepsAnswered(c: Client, message: Message)
    requires Inv(c) && Enabled(c, Deliver(message))
    ensures var after := Apply(c, Deliver(message)); Answered(after)
  {
    hide OneSender, Counted, Correlated;
    var c' := Apply(c, Deliver(message));
    forall id | Undecided(c', id) && id !in c'.pending && c'.requests[id].chan in c'.buffers
      ensures SendBegun(c', c'.requests[id].chan) || c'.buffers[c'.requests[id].chan] != []
    {
      if id in c.pending {
        assert c'.sends[|c.sends|].chan == c.requests[id].chan;
      } else {
        SendsGrow(c, c', c.requests[id].chan);
      }
    }
  }

  lemma DeliverKeepsOneSenderAndCounted(c: Client, message: Message)
    requires Inv(c) && Enabled(c, Deliver(message))
    ensures var after := Apply(c, Deliver(message)); OneSender(after) && Counted(after)
  {
    hide Correlated, Answered;
  }

  lemma DrainKeepsOwnedAndCorrelated(c: Client, order: seq<nat>)
    requires Inv(c) && Enabled(c, Drain(order))
    ensures var after := Apply(c, Drain(order)); Owned(after) && Correlated(after)
  {
    hide OneSender, Counted, Answered;
  }

  lemma DrainKeepsAnswered(c: Client, order: seq<nat>)
    requires Inv(c) && Enabled(c, Drain(order))
    ensures var after := Apply(c, Drain(order)); Answered(after)
  {
    hide OneSender, Counted, Correlated;
    var c' := Apply(c, Drain(order));
    forall id | Undecided(c', id) && id !in c'.pending && c'.requests[id].chan in c'.buffers
      ensures SendBegun(c', c'.requests[id].chan) || c'.buffers[c'.requests[id].chan] != []
    {
      if id in c.pending {
        assert id in order;
        var k :| 0 <= k < |order| && order[k] == id;
        assert c'.sends[|c.sends| + k] == DrainedSends(c, order)[k];
      } else {
        SendsGrow(c, c', c.requests[id].chan);
      }
    }
  }

  lemma DrainKeepsOneSenderAndCounted(c: Client, order: seq<nat>)
    requires Inv(c) && Enabled(c, Drain(order))
    ensures var after := Apply(c, Drain(order)); OneSender(after) && Counted(after)
  {
    hide Correlated, Answered;
  }

  lemma PutKeepsOwned(c: Client, i: nat)
    requires Inv(c) && Enabled(c, Put(i))
    ensures var after := Apply(c, Put(i)); Owned(after)
  {
    hide OneSender, Counted, Correlated, Answered;
  }

  lemma PutKeepsCorrelated(c: Client, i: nat)
    requires Inv(c) && Enabled(c, Put(i))
    ensures var after := Apply(c, Put(i)); Correlated(after)
  {
    hide OneSender, Counted, Answered;
  }

  lemma PutKeepsAnswered(c: Client, i: nat)
    requires Inv(c) && Enabled(c, Put(i))
    ensures var after := Apply(c, Put(i)); Answered(after)
  {
    hide OneSender, Counted, Correlated;
    var c' := Apply(c, Put(i));
    forall id | Undecided(c', id) && id !in c'.pending && c'.requests[id].chan in c'.buffers
      ensures SendBegun(c', c'.requests[id].chan) || c'.buffers[c'.requests[id].chan] != []
    {
      var chan := c.requests[id].chan;
      assert SendBegun(c, chan) || c.buffers[chan] != [];
      if SendBegun(c, chan) {
        var k :| 0 <= k < |c.sends| && c.sends[k].chan == chan;
        if k < i {
          assert c'.sends[k] == c.sends[k];
        } else if k > i {
          assert c'.sends[k - 1] == c.sends[k];
        }
      }
    }
  }

  lemma PutKeepsOneSender(c: Client, i: nat)
    requires Inv(c) && Enabled(c, Put(i))
    ensures var after := Apply(c, Put(i)); OneSender(after)
  {
    hide Correlated, Answered;
  }

  lemma PutKeepsCounted(c: Client, i: nat)
    requires Inv(c) && Enabled(c, Put(i))
    ensures var after := Apply(c, Put(i)); Counted(after)
  {
    hide Owned, Correlated, Answered;
  }

  lemma ReceiveKeepsOwned(c: Client, id: nat)
    requires Inv(c) && Enabled(c, Receive(id))
    ensures var after := Apply(c, Receive(id)); Owned(after)
  {
    hide OneSender, Counted, Correlated, Answered;
  }

  lemma ReceiveKeepsCorrelated(c: Client, id: nat)
    requires Inv(c) && Enabled(c, Receive(id))
    ensures var after := Apply(c, Receive(id)); Correlated(after)
  {
    hide OneSender, Counted, Answered;
  }

  lemma ReceiveKeepsAnswered(c: Client, id: nat)
    requires Inv(c) && Enabled(c, Receive(id))
    ensures var after := Apply(c, Receive(id)); Answered(after)
  {
    hide OneSender, Counted, Correlated;
  }

  lemma ReceiveKeepsOneSenderAndCounted(c: Client, id: nat)
    requires Inv(c) && Enabled(c, Receive(id))
    ensures var after := Apply(c, Receive(id)); OneSender(after) && Counted(after)
  {
    hide Correlated, Answered;
  }

  lemma GiveUpKeepsOwned(c: Client, id: nat)
    requires Inv(c) && Enabled(c, GiveUp(id))
    ensures var after := Apply(c, GiveUp(id)); Owned(after)
  {
    hide OneSender, Counted, Correlated, Answered;
  }

  lemma GiveUpKeepsCorrelated(c: Client, id: nat)
    requires Inv(c) && Enabled(c, GiveUp(id))
    ensures var after := Apply(c, GiveUp(id)); Correlated(after)
  {
    hide OneSender, Counted, Answered;
  }

  lemma GiveUpKeepsAnswered(c: Client, id: nat)
    requires Inv(c) && Enabled(c, GiveUp(id))
    ensures var after := Apply(c, GiveUp(id)); Answered(after)
  {
    hide OneSender, Counted, Correlated;
  }

  lemma GiveUpKeepsOneSenderAndCounted(c: Client, id: nat)
    requires Inv(c) && Enabled(c, GiveUp(id))
    ensures var after := Apply(c, GiveUp(id)); OneSender(after) && Counted(after)
  {
    hide Correlated, Answered;
  }

  lemma CleanupKeepsOwned(c: Client, id: nat)
    requires Inv(c) && Enabled(c, Cleanup(id))
    ensures var after := Apply(c, Cleanup(id)); Owned(after)
  {
    hide OneSender, Counted, Correlated, Answered;
  }

  lemma CleanupKeepsCorrelated(c: Client, id: nat)
    requires Inv(c) && Enabled(c, Cleanup(id))
    ensures var after := Apply(c, Cleanup(id)); Correlated(after)
  {
    hide OneSender, Counted, Answered;
  }

  lemma CleanupKeepsAnswered(c: Client, id: nat)
    requires Inv(c) && Enabled(c, Cleanup(id))
    ensures var after := Apply(c, Cleanup(id)); Answered(after)
  {
    hide OneSender, Counted, Correlated;
  }

  lemma CleanupKeepsOneSenderAndCounted(c: Client, id: nat)
    requires Inv(c) && Enabled(c, Cleanup(id))
    ensures var after := Apply(c, Cleanup(id)); OneSender(after) && Counted(after)
  {
    hide Correlated, Answered;
  }

  lemma StepKeeps(c: Client, step: Step)
    requires Inv(c) && Enabled(c, step)
    ensures Inv(Apply(c, step))
  {
    hide Owned, OneSender, Counted, Correlated, Answered;
    match step
    case Register(chan) =>
      RegisterKeepsOwned(c, chan);
      RegisterKeepsCorrelated(c, chan);
      RegisterKeepsAnswered(c, chan);
      RegisterKeepsOneSender(c, chan);
      RegisterKeepsCounted(c, chan);
    case Write(id, ok) =>
      WriteKeepsOwnedAndCorrelated(c, id, ok);
      WriteKeepsAnswered(c, id, ok);
      WriteKeepsOneSenderAndCounted(c, id, ok);
    case Deliver(message) =>
      DeliverKeepsOwnedAndCorrelated(c, message);
      DeliverKeepsAnswered(c, message);
      DeliverKeepsOneSenderAndCounted(c, message);
    case Drain(order) =>
      DrainKeepsOwnedAndCorrelated(c, order);
      DrainKeepsAnswered(c, order);
      DrainKeepsOneSenderAndCounted(c, order);
    case Put(i) =>
      PutKeepsOwned(c, i);
      PutKeepsCorrelated(c, i);
      PutKeepsAnswered(c, i);
      PutKeepsOneSender(c, i);
      PutKeepsCounted(c, i);
    case Receive(id) =>
      ReceiveKeepsOwned(c, id);
      ReceiveKeepsCorrelated(c, id);
      ReceiveKeepsAnswered(c, id);
      ReceiveKeepsOneSenderAndCounted(c, id);
    case GiveUp(id) =>
      GiveUpKeepsOwned(c, id);
      GiveUpKeepsCorrelated(c, id);
      GiveUpKeepsAnswered(c, id);
      GiveUpKeepsOneSenderAndCounted(c, id);
    case Cleanup(id) =>
      CleanupKeepsOwned(c, id);
      CleanupKeepsCorrelated(c, id);
      CleanupKeepsAnswered(c, id);
      CleanupKeepsOneSenderAndCounted(c, id);
    case Close => SwitchKeeps(c, true);
    case Reconnect => SwitchKeeps(c, false);
  }

  lemma SwitchKeeps(c: Client, closed: bool)
    requires Inv(c)
    ensures Inv(c.(closed := closed))
  {
    hide Counted;
    SwitchKeepsCounted(c, closed);
  }

  lemma SwitchKeepsCounted(c: Client, closed: bool)
    requires Inv(c)
    ensures Counted(c.(closed := closed))
  {
    hide Owned, OneSender, Correlated, Answered;
  }

  lemma {:induction false} RunKeeps(from: Client, steps: seq<Step>, to: Client)
    requires Inv(from) && Run(from, steps, to)
    ensures Inv(to)
    decreases |steps|
  {
    hide Inv, Enabled, Apply;
    if steps != [] {
      StepKeeps(from, steps[0]);
      RunKeeps(Apply(from, steps[0]), steps[1..], to);
    }
  }

  lemma FreshInv()
    ensures Inv(FRESH)
  {
  }

  // -- over every run ------------------------------------------------------------------------------

  /** No send ever finds its channel full: neither `default` branch discards anything, and each reply
      channel is sent to at most once. */
  lemma NothingIsDiscarded(steps: seq<Step>, c: Client)
    requires Run(FRESH, steps, c)
    ensures c.discarded == 0 && forall chan :: c.sent[chan] <= 1
    ensures forall i | 0 <= i < |c.sends| :: c.sends[i].chan in c.buffers && c.buffers[c.sends[i].chan] == []
  {
    FreshInv();
    RunKeeps(FRESH, steps, c);
  }

  /** A frame that ends a request carries the request's id. */
  lemma RepliesMatch(steps: seq<Step>, c: Client, id: nat)
    requires Run(FRESH, steps, c)
    requires id in c.requests && (c.requests[id].phase.Leaving? || c.requests[id].phase.Gone?)
    requires c.requests[id].phase.outcome.Got? && c.requests[id].phase.outcome.message.Frame?
    ensures c.requests[id].phase.outcome.message.id == id
  {
    FreshInv();
    RunKeeps(FRESH, steps, c);
  }

  /** An id once issued and no longer in the table. */
  predicate Taken(c: Client, id: nat) { id <= c.nextID && id !in c.pending }

  lemma {:induction false} TakenStays(from: Client, steps: seq<Step>, to: Client, id: nat)
    requires Run(from, steps, to) && Taken(from, id)
    ensures Taken(to, id)
    decreases |steps|
  {
    if steps != [] {
      TakenStays(Apply(from, steps[0]), steps[1..], to, id);
    }
  }

  lemma {:induction false} IdsGrow(from: Client, steps: seq<Step>, to: Client)
    requires Run(from, steps, to)
    ensures from.nextID <= to.nextID
    decreases |steps|
  {
    if steps != [] {
      IdsGrow(Apply(from, steps[0]), steps[1..], to);
    }
  }

  /** A frame for an id that was answered, drained or given up changes nothing, now or at any later
      time; nor does one for an id not issued yet, at any time before it is issued. */
  lemma LateFramesDoNothing(before: seq<Step>, from: Client, steps: seq<Step>, to: Client, message: Message)
    requires Run(FRESH, before, from) && Run(from, steps, to) && message.Frame?
    requires Taken(from, message.id) || message.id > to.nextID
    ensures Apply(from, Deliver(message)) == from && Apply(to, Deliver(message)) == to
  {
    hide OneSender, Counted, Correlated, Answered;
    FreshInv();
    RunKeeps(FRESH, before, from);
    RunKeeps(from, steps, to);
    IdsGrow(from, steps, to);
    if Taken(from, message.id) {
      TakenStays(from, steps, to, message.id);
    }
  }

  /** Whatever frame arrives, every other request keeps its place, its phase and its channel. */
  lemma OthersAreUntouched(steps: seq<Step>, c: Client, message: Message, id: nat)
    requires Run(FRESH, steps, c) && message.Frame? && id != message.id
    ensures var after := Apply(c, Deliver(message));
            && after.requests == c.requests && after.buffers == c.buffers
            && (id in after.pending <==> id in c.pending) && (id in c.pending ==> after.pending[id] == c.pending[id])
            && forall i | |c.sends| <= i < |after.sends| && id in c.requests
                 :: after.sends[i].chan != c.requests[id].chan
  {
    hide Correlated, Answered, Counted;
    FreshInv();
    RunKeeps(FRESH, steps, c);
  }

  /** After a drain no request registered before it is left waiting on an empty channel, at any later
      time, once the sends begun for it have been tried. */
  lemma DrainLeavesNobody(steps: seq<Step>, c: Client, order: seq<nat>, more: seq<Step>, later: Client, id: nat)
    requires Run(FRESH, steps, c) && Enabled(c, Drain(order)) && Run(Apply(c, Drain(order)), more, later)
    requires id <= c.nextID && InPhase(later, id, Waiting)
    requires !SendBegun(later, later.requests[id].chan)
    ensures later.requests[id].chan in later.buffers && later.buffers[later.requests[id].chan] != []
    ensures Enabled(later, Receive(id))
  {
    hide Correlated, OneSender, Counted;
    FreshInv();
    RunKeeps(FRESH, steps, c);
    StepKeeps(c, Drain(order));
    RunKeeps(Apply(c, Drain(order)), more, later);
    TakenStays(Apply(c, Drain(order)), more, later, id);
    assert Undecided(later, id);
  }

  /** A client starts open with an empty table, and registering is what the method does: the next id, its channel
      in the table and empty. */
  lemma RegisterRunsThrough(c: Client, chan: nat)
    requires Enabled(c, Register(chan))
    ensures FRESH.nextID == 0 && FRESH.pending == map[] && !FRESH.closed
    ensures var next := Apply(c, Register(chan));
            && next.nextID == c.nextID + 1 && next.pending == c.pending[c.nextID + 1 := chan]
            && next.buffers == c.buffers[chan := []] && next.closed == c.closed
            && next.requests == c.requests[c.nextID + 1 := Request(chan, Writing)]
  {
  }

  /** deliver without interruption is its two steps: the frame is where McpClient.Deliver puts it, and
      no send is left over. */
  lemma DeliverRunsThrough(c: Client, message: Message)
    requires Inv(c) && message.Frame? && message.id in c.pending
    ensures var taken := Apply(c, Deliver(message));
            Enabled(taken, Put(|c.sends|))
            && var after := Apply(taken, Put(|c.sends|));
               && after.pending == c.pending - {message.id} && after.sends == c.sends
               && after.buffers == c.buffers[c.pending[message.id] := [message]]
  {
    hide Correlated, Answered;
    var taken := Apply(c, Deliver(message));
    assert taken.sends[|c.sends|] == Send(c.pending[message.id], message);
    assert taken.sends[..|c.sends|] + taken.sends[|c.sends| + 1..] == c.sends;
  }

  // -- a drain without interruption ----------------------------------------------------------------

  /** These sends go to different channels, each of them empty. */
  predicate AwaitPut(c: Client, rest: seq<Send>) {
    && (forall k | 0 <= k < |rest| :: rest[k].chan in c.buffers && c.buffers[rest[k].chan] == [])
    && (forall j, k | 0 <= j < k < |rest| :: rest[j].chan != rest[k].chan)
  }

  /** The last sends begun, tried one after the other, each find their channel empty. */
  lemma {:induction false} PutRest(c: Client, base: seq<Send>, rest: seq<Send>)
    returns (steps: seq<Step>, after: Client)
    requires c.sends == base + rest && AwaitPut(c, rest)
    ensures Run(c, steps, after) && after.pending == c.pending && after.sends == base
    ensures after.buffers.Keys == c.buffers.Keys
    ensures forall k | 0 <= k < |rest| :: after.buffers[rest[k].chan] == [rest[k].message]
    ensures forall chan | chan in c.buffers && (forall k | 0 <= k < |rest| :: rest[k].chan != chan) ::
              after.buffers[chan] == c.buffers[chan]
    decreases |rest|
  {
    if rest == [] {
      steps, after := [], c;
      assert base + rest == base;
    } else {
      var put := Put(|base|);
      assert c.sends[|base|] == rest[0];
      var next := Apply(c, put);
      assert next.sends == base + rest[1..];
      assert next.buffers == c.buffers[rest[0].chan := [rest[0].message]];
      assert forall k | 0 <= k < |rest[1..]| :: rest[1..][k] == rest[k + 1];
      steps, after := PutRest(next, base, rest[1..]);
      RunMore(c, put, steps, after);
      steps := [put] + steps;
      assert forall k | 1 <= k < |rest| :: rest[k] == rest[1..][k - 1];
    }
  }

  lemma RunMore(c: Client, step: Step, steps: seq<Step>, after: Client)
    requires Enabled(c, step) && Run(Apply(c, step), steps, after)
    ensures Run(c, [step] + steps, after)
  {
    hide Apply, Enabled;
    assert ([step] + steps)[1..] == steps;
  }

  /** drainPending without interruption is its steps: nobody is left in the table, every channel that was
      there holds nil, as McpClient.DrainPending leaves them, and no send is left over. */
  lemma DrainRunsThrough(c: Client, order: seq<nat>) returns (steps: seq<Step>, after: Client)
    requires Inv(c) && Enabled(c, Drain(order))
    ensures Run(c, [Drain(order)] + steps, after)
    ensures after.pending == map[] && after.sends == c.sends && after.buffers.Keys == c.buffers.Keys
    ensures forall id | id in c.pending ::
              c.buffers[c.pending[id]] == [] && after.buffers[c.pending[id]] == [Nil]
    ensures forall chan | chan in c.buffers && chan !in c.pending.Values :: after.buffers[chan] == c.buffers[chan]
  {
    hide Correlated, Answered;
    var drained, rest := Apply(c, Drain(order)), DrainedSends(c, order);
    assert AwaitPut(drained, rest) by {
      assert forall k | 0 <= k < |order| :: order[k] in c.pending;
    }
    steps, after := PutRest(drained, c.sends, rest);
    RunMore(c, Drain(order), steps, after);
    forall id | id in c.pending
      ensures c.buffers[c.pending[id]] == [] && after.buffers[c.pending[id]] == [Nil]
    {
      var k :| 0 <= k < |order| && order[k] == id;
      assert rest[k] == Send(c.pending[id], Nil);
    }
  }
}
