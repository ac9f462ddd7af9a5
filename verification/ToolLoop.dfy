/** tool_reasoning.go: the native tool loop, with the model and the tools as arbitrary oracles over
    what has happened so far. */
module ToolLoop {
  import opened Options
  import opened Text

  const MAX_RECOVERIES := 3

  /** A turn of the model, its fields trimmed. */
  datatype Answer = Answer(tool: string, decision: string, arguments: map<string, string>)

  /** What an iteration adds to the gathered facts: a corrected turn, a refused repeat, or a call that
      ran, with the text it returned. */
  datatype Event = Recovered | RefusedRepeat(key: string) | Invoked(key: string, result: string)

  /** The outside world: the model's answer to what is gathered (none is an error), the catalogue, the
      key that identifies a call, what a call returns, and whether the context was cancelled. */
  datatype World = World(answer: seq<Event> -> Option<Answer>, find: string -> Option<string>,
                         key: (string, map<string, string>) -> string,
                         invoke: (seq<Event>, string) -> string, cancelled: seq<Event> -> bool)

  /** toolResultFailed: failures and policy blocks come back as text. */
  predicate ResultFailed(result: string) {
    Find(result, "failed:").Some? || Find(result, "blocked by policy").Some? || "no tool named" <= result
  }

  // -- one iteration -------------------------------------------------------------------------------

  /** The calls that failed since the last success. */
  function FailedCalls(events: seq<Event>): set<string> {
    if events == [] then {}
    else
      var before := FailedCalls(Front(events));
      match Last(events)
      case Invoked(key, result) => if ResultFailed(result) then before + {key} else {}
      case Recovered => before
      case RefusedRepeat(_) => before
  }

  function Recoveries(events: seq<Event>): nat {
    if events == [] then 0 else Recoveries(Front(events)) + (if Last(events) == Recovered then 1 else 0)
  }

  function Invocations(events: seq<Event>): nat {
    if events == [] then 0 else Invocations(Front(events)) + (if Last(events).Invoked? then 1 else 0)
  }

  datatype Decision = Fails | Decides(decision: string) | Ends | Adds(event: Event)

  /** What the loop does with the model's next answer. */
  function Next(world: World, events: seq<Event>): Decision {
    if world.cancelled(events) || world.answer(events) == None then Fails
    else
      var out := world.answer(events).value;
      if out.tool == "" || world.find(out.tool) == None then
        if out.decision != "" then Decides(out.decision)
        else if Recoveries(events) < MAX_RECOVERIES then Adds(Recovered)
        else Ends
      else
        var key := world.key(world.find(out.tool).value, out.arguments);
        if key in FailedCalls(events) then Adds(RefusedRepeat(key))
        else Adds(Invoked(key, world.invoke(events, key)))
  }

  /** Events each of which the loop added. */
  ghost predicate Legal(world: World, events: seq<Event>) {
    forall k | 0 <= k < |events| :: Next(world, events[..k]) == Adds(events[k])
  }

  function Iterations(maxIterations: int): nat { if maxIterations <= 0 then 6 else maxIterations }

  // -- the loop ------------------------------------------------------------------------------------

  /** Errored: the context or the model failed. Decided: the model decided. Spent: it is to conclude
      with the gathered facts, because the iterations or the recoveries ran out. */
  datatype Outcome =
    | Errored(events: seq<Event>)
    | Decided(events: seq<Event>, decision: string)
    | Spent(events: seq<Event>)

  method ReasonWithTools(world: World, maxIterations: int) returns (r: Outcome)
    ensures Legal(world, r.events) && |r.events| <= (if maxIterations > 0 then maxIterations else 6)
    ensures r.Errored? ==> Next(world, r.events) == Fails
    ensures r.Decided? ==> Next(world, r.events) == Decides(r.decision) && r.decision != ""
    ensures r.Spent? ==> |r.events| == (if maxIterations > 0 then maxIterations else 6) || Next(world, r.events) == Ends
    ensures Invocations(r.events) <= |r.events| && Recoveries(r.events) <= 3
  {
    hide ResultFailed, Legal, FailedCalls, Recoveries, Invocations;
    NothingLegal(world);
    var events: seq<Event> := [];
    var failedCalls: set<string> := {};
    var recoveries := 0;
    var i := 0;
    while i < Iterations(maxIterations)
      invariant i == |events| <= Iterations(maxIterations)
      invariant Legal(world, events) && failedCalls == FailedCalls(events)
      invariant recoveries == Recoveries(events) <= MAX_RECOVERIES && Invocations(events) <= i
    {
      i := i + 1;
      if world.cancelled(events) || world.answer(events) == None {
        return Errored(events);
      }
      var out := world.answer(events).value;
      var chosen := world.find(out.tool);
      var event;
      if out.tool == "" || chosen == None {
        if out.decision != "" {
          return Decided(events, out.decision);
        }
        if recoveries >= MAX_RECOVERIES {
          return Spent(events);
        }
        recoveries := recoveries + 1;
        event := Recovered;
      } else {
        var key := world.key(chosen.value, out.arguments);
        if key in failedCalls {
          event := RefusedRepeat(key);
        } else {
          var result := world.invoke(events, key);
          event := Invoked(key, result);
          failedCalls := if ResultFailed(result) then failedCalls + {key} else {};
        }
      }
      LegalMore(world, events, event);
      CountedMore(events, event);
      events := events + [event];
    }
    r := Spent(events);
  }

  lemma NothingLegal(world: World)
    ensures Legal(world, []) && FailedCalls([]) == {} && Recoveries([]) == 0 && Invocations([]) == 0
  {
  }

  lemma LegalMore(world: World, events: seq<Event>, event: Event)
    requires Legal(world, events) && Next(world, events) == Adds(event)
    ensures Legal(world, events + [event])
  {
    hide Next;
    var more := events + [event];
    forall k | 0 <= k < |more|
      ensures Next(world, more[..k]) == Adds(more[k])
    {
      assert more[..k] == events[..k];
    }
  }

  /** What one more event changes of what the loop keeps count of. */
  lemma CountedMore(events: seq<Event>, event: Event)
    ensures var more := events + [event];
            && Recoveries(more) == Recoveries(events) + (if event.Recovered? then 1 else 0)
            && Invocations(more) == Invocations(events) + (if event.Invoked? then 1 else 0)
            && FailedCalls(more) == if !event.Invoked? then FailedCalls(events)
                                    else if ResultFailed(event.result) then FailedCalls(events) + {event.key} else {}
  {
    hide ResultFailed;
    assert Front(events + [event]) == events;
  }

  // -- discipline ----------------------------------------------------------------------------------

  /** Against any model: no more calls than iterations and no more than three corrected turns, in every
      history the loop can produce. */
  lemma {:induction false} RecoveriesAreBounded(world: World, events: seq<Event>)
    requires Legal(world, events)
    ensures Recoveries(events) <= MAX_RECOVERIES && Invocations(events) <= |events|
  {
    if events != [] {
      LegalFront(world, events);
      RecoveriesAreBounded(world, Front(events));
      assert Next(world, events[..|events| - 1]) == Adds(events[|events| - 1]);
    }
  }

  lemma LegalFront(world: World, events: seq<Event>)
    requires Legal(world, events) && events != []
    ensures Legal(world, Front(events))
  {
    hide Next;
    forall k | 0 <= k < |Front(events)|
      ensures Next(world, Front(events)[..k]) == Adds(Front(events)[k])
    {
      assert Front(events)[..k] == events[..k];
    }
  }

  predicate Failure(event: Event) { event.Invoked? && ResultFailed(event.result) }

  predicate Success(event: Event) { event.Invoked? && !ResultFailed(event.result) }

  /** A failed call stays marked until some call succeeds. */
  lemma {:induction false} FailureIsMarked(events: seq<Event>, i: nat)
    requires i < |events| && Failure(events[i])
    requires forall k | i < k < |events| :: !Success(events[k])
    ensures events[i].key in FailedCalls(events)
  {
    hide ResultFailed;
    if i < |events| - 1 {
      FailureIsMarked(Front(events), i);
    }
  }

  /** An unchanged failed call never runs again until some other call has succeeded in between. */
  lemma FailedCallIsNotRepeated(world: World, events: seq<Event>, i: nat, j: nat)
    requires Legal(world, events) && i < j < |events|
    requires Failure(events[i]) && events[j].Invoked? && events[j].key == events[i].key
    ensures exists k :: i < k < j && Success(events[k])
  {
    hide ResultFailed, FailedCalls;
    var before := events[..j];
    assert Next(world, before) == Adds(events[j]);
    if forall k | i < k < j :: !Success(events[k]) {
      assert before[i] == events[i];
      FailureIsMarked(before, i);
    }
  }

  // -- what the loop does, told by the history -------------------------------------------------------

  /** A result counts as failed when it says so anywhere, or says so first of a tool nobody knows. */
  lemma FailedResults(result: string)
    ensures ResultFailed(result)
       <==> (exists i: nat :: StandsAt(result, "failed:", i))
            || (exists i: nat :: StandsAt(result, "blocked by policy", i))
            || "no tool named" <= result
  {
    hide Find, StandsAt;
    FindIsFirst(result, "failed:");
    FindIsFirst(result, "blocked by policy");
    FoundStands(result, "failed:");
    FoundStands(result, "blocked by policy");
  }

  /** The call ran and failed, and no call has succeeded since. */
  ghost predicate FailedSince(events: seq<Event>, key: string) {
    exists i: nat :: i < |events| && FailedLast(events, i, key)
  }

  ghost predicate FailedLast(events: seq<Event>, i: nat, key: string)
    requires i < |events|
  {
    Failure(events[i]) && events[i].key == key && forall k | i < k < |events| :: !Success(events[k])
  }

  /** The calls refused are exactly those that failed since the last success: one success, of whatever call,
      clears them all. */
  lemma {:induction false} RefusedAreFailed(events: seq<Event>, key: string)
    ensures key in FailedCalls(events) <==> FailedSince(events, key)
  {
    hide ResultFailed;
    if events != [] {
      var front, last := Front(events), Last(events);
      RefusedAreFailed(front, key);
      if FailedSince(front, key) && !Success(last) {
        var i: nat :| i < |front| && FailedLast(front, i, key);
        assert FailedLast(events, i, key);
      }
      if i: nat :| i < |events| && FailedLast(events, i, key) {
        if i < |front| {
          assert FailedLast(front, i, key);
        }
      }
      if Failure(last) && last.key == key {
        assert FailedLast(events, |front|, key);
      }
    }
  }

  /** How many corrected turns a history holds. */
  lemma {:induction false} RecoveriesCount(events: seq<Event>)
    ensures Recoveries(events) == |set i: nat | i < |events| && events[i] == Recovered|
  {
    var places := set i: nat | i < |events| && events[i] == Recovered;
    if events == [] {
      assert places == {};
    } else {
      var n := |events| - 1;
      RecoveriesCount(Front(events));
      var before := set i: nat | i < |Front(events)| && Front(events)[i] == Recovered;
      assert places == if events[n] == Recovered then before + {n} else before;
    }
  }

  /** What the loop does with an answer: it fails when it has none or is cancelled; with no tool or one nobody
      knows it takes the decision, else corrects the turn while fewer than three were corrected, else ends; a known
      tool is called unless the same call failed since the last success. */
  lemma NextIs(world: World, events: seq<Event>)
    ensures var corrected := |set i: nat | i < |events| && events[i] == Recovered|;
            if world.cancelled(events) || world.answer(events) == None then Next(world, events) == Fails
            else
              var out := world.answer(events).value;
              if out.tool == "" || world.find(out.tool) == None then
                Next(world, events) == if out.decision != "" then Decides(out.decision)
                                       else if corrected < 3 then Adds(Recovered) else Ends
              else
                var key := world.key(world.find(out.tool).value, out.arguments);
                Next(world, events) == Adds(if FailedSince(events, key) then RefusedRepeat(key)
                                            else Invoked(key, world.invoke(events, key)))
  {
    hide FailedCalls, FailedSince, Recoveries;
    RecoveriesCount(events);
    if world.answer(events).Some? && world.find(world.answer(events).value.tool).Some? {
      var out := world.answer(events).value;
      RefusedAreFailed(events, world.key(world.find(out.tool).value, out.arguments));
    }
  }
}
