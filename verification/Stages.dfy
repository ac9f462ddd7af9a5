/** What each stage of a cycle leaves, told by positions and names, and what a whole run of stages is. */
module Stages {
  import opened Governance
  import opened Options
  import opened Places
  import opened Planning
  import opened PlanOrder
  import opened Reasoning
  import opened Text

  // -- choosing ------------------------------------------------------------------------------------

  lemma {:induction false} MatchingUpTo(processes: seq<Process>, matches: Process -> bool, n: nat, keep: nat -> bool)
    returns (places: seq<nat>)
    requires n <= |processes| && forall i: nat | i < n :: keep(i) <==> matches(processes[i])
    ensures PicksThose(Matching(processes[..n], matches), processes[..n], places, keep)
  {
    hide PicksThose;
    if n == 0 {
      places := [];
      NonePicked<Process>(keep);
    } else {
      var front, p := processes[..n - 1], processes[n - 1];
      assert Front(processes[..n]) == front && processes[..n] == front + [p];
      var before := MatchingUpTo(processes, matches, n - 1, keep);
      places := PickNext(Matching(front, matches), front, before, keep, p);
      assert Matching(front, matches) + [] == Matching(front, matches);
    }
  }

  /** Discovery: without a model the processes the intent's words match, in order; with one those it names, in the
      order it first names them; all of them when there are none; and no candidate when there is no process. */
  lemma DiscoverLeaves(stack: Stack, world: World, i: nat, c: Cycle) returns (found: seq<Process>, places: seq<nat>)
    ensures !stack.live ==>
              && Picks(found, stack.processes, places)
              && (forall k: nat | k < |stack.processes| :: k in places <==> world.matches(stack.processes[k]))
    ensures stack.live && world.names(i).Some? ==>
              InNamedOrder(found, world.names(i).value, stack.processes, ProcessName)
    ensures StageOutcome(stack, world, i, c, Discover) ==
              if stack.live && stack.processes == [] then Returned(c.(candidates := []))
              else if stack.live && world.names(i) == None then Stopped(ModelError)
              else Returned(c.(candidates := if found == [] then stack.processes else found))
  {
    hide Matching, Resolved, Picks, InNamedOrder;
    found, places := [], [];
    if !stack.live {
      found := Matching(stack.processes, world.matches);
      places := MatchingUpTo(stack.processes, world.matches, |stack.processes|,
                             (k: nat) => k < |stack.processes| && world.matches(stack.processes[k]));
      assert stack.processes[..|stack.processes|] == stack.processes;
    } else if world.names(i).Some? {
      found := Resolved(world.names(i).value, stack.processes);
      ResolvedInNamedOrder(world.names(i).value, stack.processes);
    }
  }

  /** Selection: the first candidate of each name, in order; with a model and more than one of them those it names, in
      the order it first names them, or all of them when it names none. */
  lemma SelectLeaves(stack: Stack, world: World, i: nat, c: Cycle)
    returns (first: seq<Process>, places: seq<nat>, named: seq<Process>)
    ensures Picks(first, c.candidates, places)
    ensures forall k: nat | k < |c.candidates| ::
              k in places <==> forall j | 0 <= j < k :: c.candidates[j].name != c.candidates[k].name
    ensures world.names(i).Some? ==> InNamedOrder(named, world.names(i).value, first, ProcessName)
    ensures StageOutcome(stack, world, i, c, Select) ==
              if !stack.live || |first| <= 1 then Returned(c.(selected := first))
              else if world.names(i) == None then Stopped(ModelError)
              else Returned(c.(selected := if named == [] then first else named))
  {
    hide FirstOfEachName, Resolved, Picks, InNamedOrder;
    first := FirstOfEachName(c.candidates);
    places := SelectedAreFirst(c.candidates);
    named := [];
    if world.names(i).Some? {
      named := Resolved(world.names(i).value, first);
      ResolvedInNamedOrder(world.names(i).value, first);
    }
  }

  /** Scheduling: with a model and more than one workflow, those it names in the order it first names them, then the
      others as they were composed; otherwise the plan as it is. */
  lemma ScheduleLeaves(stack: Stack, world: World, i: nat, c: Cycle)
    returns (named: seq<Workflow>, rest: seq<Workflow>, places: seq<nat>)
    ensures world.names(i).Some? ==>
              && InNamedOrder(named, world.names(i).value, c.plan, WorkflowName)
              && Picks(rest, c.plan, places)
              && forall k: nat | k < |c.plan| ::
                   k in places <==> !IsNamed(world.names(i).value, c.plan, WorkflowName, c.plan[k])
    ensures StageOutcome(stack, world, i, c, Schedule) ==
              if !stack.live || |c.plan| <= 1 then Returned(c)
              else if world.names(i) == None then Stopped(ModelError)
              else Returned(c.(plan := named + rest))
  {
    hide Reordered, Picks, InNamedOrder, IsNamed;
    named, rest, places := [], [], [];
    if world.names(i).Some? {
      var r := Reordered(world.names(i).value, c.plan);
      var m, at := ScheduledOrder(world.names(i).value, c.plan);
      named, rest, places := r[..m], r[m..], at;
      assert r == r[..m] + r[m..];
    }
  }

  /** The other stages: composing lines up the workflows of the selected processes; a gate passes the cycle on
      unchanged or stops it for the reason it found; reasoning takes a decision that is not blank; and each of the
      rest only succeeds or fails. */
  lemma OthersLeave(stack: Stack, world: World, i: nat, c: Cycle, stage: Stage)
    requires !stage.Discover? && !stage.Select? && !stage.Schedule?
    ensures stage.Compose? ==> StageOutcome(stack, world, i, c, stage) == Returned(c.(plan := Composed(c.selected)))
    ensures stage.Govern? ==>
              var judge := (at: nat, p: Policy) => world.judge(i, at, p);
              var policies := if stage.workflow then WorkflowPolicies(c.plan) else stack.policies;
              var gate := GateOf(judge, policies, stack.approval);
              match gate
              case Failed => StageOutcome(stack, world, i, c, stage) == Stopped(JudgeFailed)
              case Passed => StageOutcome(stack, world, i, c, stage) == Returned(c)
              case Blocked(ps) => StageOutcome(stack, world, i, c, stage) == Stopped(PolicyViolation(ps))
              case Parked(ps) => StageOutcome(stack, world, i, c, stage) == Stopped(ApprovalRequired(ps))
    ensures !stage.Compose? && !stage.Govern? ==>
              StageOutcome(stack, world, i, c, stage) ==
                if world.act(i) == None then Stopped(ModelError)
                else if !stage.Reason? then Returned(c)
                else if Trim(world.act(i).value) == "" then Stopped(EmptyDecision)
                else Returned(c.(decision := world.act(i).value))
  {
    hide GateOf, Composed, WorkflowPolicies, Trim;
  }

  // -- whole runs ----------------------------------------------------------------------------------

  predicate StepsTo(stack: Stack, world: World, pipeline: seq<Stage>, at: nat, c: Cycle, next: Cycle) {
    at < |pipeline| && !world.cancelled(at) && StageOutcome(stack, world, at, c, pipeline[at]) == Returned(next)
  }

  /** The cycles a run passes through from the i-th stage on: each is what the stage before it left. */
  ghost predicate Passes(stack: Stack, world: World, pipeline: seq<Stage>, i: nat, cycles: seq<Cycle>) {
    && cycles != [] && i + |cycles| - 1 <= |pipeline|
    && forall k | 0 <= k < |cycles| - 1 :: StepsTo(stack, world, pipeline, i + k, cycles[k], cycles[k + 1])
  }

  /** Where such a run ends, and how: after the last stage, at a cancellation, or at a stage that stops it. */
  ghost predicate EndsAt(stack: Stack, world: World, pipeline: seq<Stage>, at: nat, c: Cycle, outcome: Outcome)
    requires at <= |pipeline|
  {
    if at == |pipeline| then outcome == Returned(c)
    else if world.cancelled(at) then outcome == Stopped(Cancelled)
    else StageOutcome(stack, world, at, c, pipeline[at]).Stopped?
         && outcome == StageOutcome(stack, world, at, c, pipeline[at])
  }

  /** What the stages from the i-th on write, one after the other. */
  function WrittenBy(stack: Stack, world: World, pipeline: seq<Stage>, i: nat, cycles: seq<Cycle>): seq<Entry>
    requires i + |cycles| <= |pipeline|
    decreases |cycles|
  {
    if cycles == [] then []
    else
      StageEntries(stack, world, i, cycles[0], pipeline[i]) + WrittenBy(stack, world, pipeline, i + 1, cycles[1..])
  }

  lemma {:induction false} RunIs(stack: Stack, world: World, pipeline: seq<Stage>, i: nat, c: Cycle)
    returns (cycles: seq<Cycle>)
    requires i <= |pipeline|
    ensures Passes(stack, world, pipeline, i, cycles) && cycles[0] == c
    ensures var at := i + |cycles| - 1;
            EndsAt(stack, world, pipeline, at, Last(cycles), RunFrom(stack, world, pipeline, i, c))
    ensures var at := i + |cycles| - 1;
            EntriesFrom(stack, world, pipeline, i, c)
              == WrittenBy(stack, world, pipeline, i,
                           if at == |pipeline| || world.cancelled(at) then Front(cycles) else cycles)
    decreases |pipeline| - i
  {
    hide StageOutcome, StageEntries;
    cycles := [c];
    if i < |pipeline| && !world.cancelled(i) {
      var here := StageEntries(stack, world, i, c, pipeline[i]);
      match StageOutcome(stack, world, i, c, pipeline[i]) {
        case Stopped(_) =>
          assert [c][1..] == [] && here + [] == here;
        case Returned(next) =>
          var rest := RunIs(stack, world, pipeline, i + 1, next);
          cycles := [c] + rest;
          RunMore(stack, world, pipeline, i, c, rest);
      }
    }
  }

  lemma RunMore(stack: Stack, world: World, pipeline: seq<Stage>, i: nat, c: Cycle, rest: seq<Cycle>)
    requires i < |pipeline| && !world.cancelled(i) && Passes(stack, world, pipeline, i + 1, rest)
    requires StageOutcome(stack, world, i, c, pipeline[i]) == Returned(rest[0])
    ensures Passes(stack, world, pipeline, i, [c] + rest) && Last([c] + rest) == Last(rest)
    ensures Front([c] + rest) == [c] + Front(rest) && ([c] + rest)[1..] == rest
    ensures Front([c] + rest)[1..] == Front(rest)
  {
    hide StageOutcome;
    var cycles := [c] + rest;
    assert Front(cycles) == [c] + Front(rest);
    forall k | 0 <= k < |cycles| - 1
      ensures StepsTo(stack, world, pipeline, i + k, cycles[k], cycles[k + 1])
    {
      if k > 0 {
        assert StepsTo(stack, world, pipeline, i + 1 + (k - 1), rest[k - 1], rest[k - 1 + 1]);
      }
    }
  }

  /** The default pipeline. */
  lemma DefaultStages()
    ensures DEFAULT == [Govern(false), Discover, Select, Compose, Schedule, Govern(true)]
                       + [Delegate, Recall, Research, Reason, Formalize, Evidence, Explain, Audit, Memory]
  {
  }
}
