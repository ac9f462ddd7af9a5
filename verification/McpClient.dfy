/** mcp_client.go, the pending-reply protocol: requests register a channel under their id, one reader
    hands each frame to whoever waits for its id, and a drain releases everyone when the connection
    ends. Every stretch of code under the client's lock, every channel operation and every return is a
    step of its own. Ids correlate replies with requests as section 5 of the JSON-RPC 2.0
    Specification lays down. */
module McpClients {
  import opened Options
  import opened Text

  /** What travels over a reply channel: a response frame, or nil. */
  datatype Message = Frame(id: nat, body: string) | Nil

  datatype Outcome = Got(message: Message) | GaveUp | NotWritten

  /** Writing: the request is registered, its frame not yet written. Leaving: it has its outcome, and
      the deferred cleanup is still to run. */
  datatype Phase = Writing | Waiting | Leaving(outcome: Outcome) | Gone(outcome: Outcome)

  datatype Request = Request(chan: nat, phase: Phase)

  /** A send begun: the channel was taken out of the table, the message not yet put into it. */
  datatype Send = Send(chan: nat, message: Message)

  /** `buffers` holds the channels made so far and what is in them; `sent` counts the messages put
      into each, and `discarded` those a full channel refused. */
  datatype Client = Client(nextID: nat, pending: map<nat, nat>, closed: bool, requests: map<nat, Request>,
                           buffers: map<nat, seq<Message>>, sends: seq<Send>, sent: multiset<nat>, discarded: nat)

  const FRESH := Client(0, map[], false, map[], map[], [], multiset{}, 0)

  // -- steps ---------------------------------------------------------------------------------------

  datatype Step =
    | Register(chan: nat)
    | Write(id: nat, ok: bool)
    | Deliver(message: Message)
    | Drain(order: seq<nat>)
    | Put(i: nat)
    | Receive(id: nat)
    | GiveUp(id: nat)
    | Cleanup(id: nat)
    | Close
    | Reconnect

  predicate Distinct(s: seq<nat>) { forall i, j | 0 <= i < j < |s| :: s[i] != s[j] }

  predicate InPhase(c: Client, id: nat, phase: Phase) { id in c.requests && c.requests[id].phase == phase }

  ghost predicate Enabled(c: Client, step: Step) {
    match step
    case Register(chan) => !c.closed && chan !in c.buffers
    case Write(id, _) => InPhase(c, id, Writing)
    case Deliver(message) => true
    case Drain(order) => Distinct(order) && forall id :: id in order <==> id in c.pending
    case Put(i) => i < |c.sends| && c.sends[i].chan in c.buffers
    case Receive(id) =>
      InPhase(c, id, Waiting) && c.requests[id].chan in c.buffers && c.buffers[c.requests[id].chan] != []
    case GiveUp(id) => InPhase(c, id, Waiting)
    case Cleanup(id) => id in c.requests && c.requests[id].phase.Leaving?
    case Close => true
    case Reconnect => true
  }

  function WithPhase(c: Client, id: nat, phase: Phase): Client
    requires id in c.requests
  {
    c.(requests := c.requests[id := c.requests[id].(phase := phase)])
  }

  function DrainedSends(c: Client, order: seq<nat>): (r: seq<Send>)
    requires forall id | id in order :: id in c.pending
    ensures |r| == |order| && forall i | 0 <= i < |r| :: r[i] == Send(c.pending[order[i]], Nil)
  {
    seq(|order|, i requires 0 <= i < |order| => Send(c.pending[order[i]], Nil))
  }

  /** A send that is tried: a channel that is full already discards the message. */
  function PutSend(c: Client, i: nat): Client
    requires i < |c.sends| && c.sends[i].chan in c.buffers
  {
    var send := c.sends[i];
    var left := c.(sends := c.sends[..i] + c.sends[i + 1..]);
    if c.buffers[send.chan] == [] then
      left.(buffers := c.buffers[send.chan := [send.message]], sent := c.sent + multiset{send.chan})
    else left.(discarded := c.discarded + 1)
  }

  function Apply(c: Client, step: Step): Client
    requires Enabled(c, step)
  {
    match step
    case Register(chan) =>
      c.(nextID := c.nextID + 1, pending := c.pending[c.nextID + 1 := chan],
         requests := c.requests[c.nextID + 1 := Request(chan, Writing)], buffers := c.buffers[chan := []])
    case Write(id, ok) => WithPhase(c, id, if ok then Waiting else Leaving(NotWritten))
    case Deliver(message) =>
      if message.Frame? && message.id in c.pending then
        c.(pending := c.pending - {message.id}, sends := c.sends + [Send(c.pending[message.id], message)])
      else c
    case Drain(order) => c.(pending := map[], sends := c.sends + DrainedSends(c, order))
    case Put(i) => PutSend(c, i)
    case Receive(id) =>
      var chan := c.requests[id].chan;
      WithPhase(c, id, Leaving(Got(c.buffers[chan][0]))).(buffers := c.buffers[chan := c.buffers[chan][1..]])
    case GiveUp(id) => WithPhase(c, id, Leaving(GaveUp))
    case Cleanup(id) => WithPhase(c, id, Gone(c.requests[id].phase.outcome)).(pending := c.pending - {id})
    case Close => c.(closed := true)
    case Reconnect => c.(closed := false)
  }

  /** The states a run of steps passes through, each enabled where it is taken. */
  ghost predicate Run(from: Client, steps: seq<Step>, to: Client)
    decreases |steps|
  {
    if steps == [] then from == to
    else Enabled(from, steps[0]) && Run(Apply(from, steps[0]), steps[1..], to)
  }

  // -- the client's own code -----------------------------------------------------------------------

  class McpClient {
    var nextID: nat
    var pending: map<nat, nat>
    var closed: bool
    var buffers: map<nat, seq<Message>>

    /** The locked half of request: a fresh id and its channel, unless the client is closed. */
    method Register(chan: nat) returns (id: Option<nat>)
      modifies this`nextID, this`pending, this`buffers
      ensures closed ==> id == None && nextID == old(nextID) && pending == old(pending) && buffers == old(buffers)
      ensures !closed ==> id == Some(nextID) && nextID == old(nextID) + 1 && pending == old(pending)[nextID := chan]
                          && buffers == old(buffers)[chan := []]
    {
      if closed {
        return None;
      }
      nextID := nextID + 1;
      pending := pending[nextID := chan];
      buffers := buffers[chan := []];
      id := Some(nextID);
    }

    method Cleanup(id: nat)
      modifies this`pending
      ensures pending == old(pending) - {id}
    {
      pending := pending - {id};
    }

    /** deliver, run without interruption: the frame reaches the channel waiting for its id, if there
        is one and it has room, and no other. */
    method Deliver(message: Message)
      requires forall id | id in pending :: pending[id] in buffers
      modifies this`pending, this`buffers
      ensures message.Frame? && message.id in old(pending) ==>
                pending == old(pending) - {message.id}
                && var chan := old(pending)[message.id];
                   buffers == old(buffers)[chan := if old(buffers)[chan] == [] then [message] else old(buffers)[chan]]
      ensures !(message.Frame? && message.id in old(pending)) ==> pending == old(pending) && buffers == old(buffers)
    {
      if message.Nil? {
        return;
      }
      var waiting := message.id in pending;
      if !waiting {
        return;
      }
      var reply := pending[message.id];
      pending := pending - {message.id};
      if buffers[reply] == [] {
        buffers := buffers[reply := [message]];
      }
    }

    /** drainPending, run without interruption: nobody is left in the table, and every channel that
        was there and had room holds nil. */
    method DrainPending()
      requires forall id | id in pending :: pending[id] in buffers
      modifies this`pending, this`buffers
      ensures pending == map[] && buffers.Keys == old(buffers).Keys
      ensures forall id | id in old(pending) ::
                buffers[old(pending)[id]]
                == if old(buffers)[old(pending)[id]] == [] then [Nil] else old(buffers)[old(pending)[id]]
      ensures forall chan | chan in buffers && chan !in old(pending).Values :: buffers[chan] == old(buffers)[chan]
    {
      var waiting := pending;
      pending := map[];
      var left := waiting.Keys;
      while left != {}
        invariant left <= waiting.Keys && buffers.Keys == old(buffers).Keys && pending == map[]
        invariant forall id | id in waiting ::
                    var chan := waiting[id];
                    buffers[chan] == old(buffers)[chan] || (old(buffers)[chan] == [] && buffers[chan] == [Nil])
        invariant forall id | id in waiting && id !in left :: buffers[waiting[id]] != []
        invariant forall chan | chan in buffers && chan !in waiting.Values :: buffers[chan] == old(buffers)[chan]
        decreases |left|
      {
        var id :| id in left;
        left := left - {id};
        assert waiting[id] in waiting.Values;
        if buffers[waiting[id]] == [] {
          buffers := buffers[waiting[id] := [Nil]];
        }
      }
    }
  }
}
