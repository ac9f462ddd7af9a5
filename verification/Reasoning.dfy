/** cycle.go, stages.go and runtime.go's Reason: the stages of one reasoning cycle run in order over
    one mutable cycle. The model, the clock's cancellation and every stage that neither plans nor
    governs answer as an arbitrary oracle does, indexed by the stage's place in the pipeline. */
module Reasoning {
  import opened Governance
  import opened Options
  import opened Planning
  import opened Text

  datatype Stage =
    | Govern(workflow: bool)
    | Discover | Select | Compose | Schedule
    | Delegate | Recall | Research | Reason | Formalize | Evidence | Explain | Audit | Memory

  /** The stack a cycle runs over. */
  datatype Stack = Stack(live: bool, policies: seq<Policy>, processes: seq<Process>, approval: Option<Approval>)

  /** The outside world during one cycle: a refused tenant claim, whether the context is cancelled at
      a stage, what a judge says there of the policy at a place, the names a model answers (none is an
      error), the processes an intent's words match, the text a stage obtains (none is an error) and
      what it writes down. */
  datatype World = World(refusal: Option<string>, cancelled: nat -> bool, judge: (nat, nat, Policy) -> Judgment,
                         names: nat -> Option<seq<string>>, matches: Process -> bool, act: nat -> Option<string>,
                         notes: nat -> seq<Entry>)

  datatype Cycle = Cycle(candidates: seq<Process>, selected: seq<Process>, plan: seq<Workflow>, decision: string)

  const FRESH := Cycle([], [], [], "")

  datatype Stop = Cancelled | TenantRefused | ModelError | JudgeFailed | EmptyDecision
                | PolicyViolation(policies: seq<Policy>) | ApprovalRequired(policies: seq<Policy>)

  datatype Outcome = Returned(cycle: Cycle) | Stopped(why: Stop)

  const DEFAULT := [Govern(false), Discover, Select, Compose, Schedule, Govern(true), Delegate, Recall, Research,
                    Reason, Formalize, Evidence, Explain, Audit, Memory]

  // -- the stages ----------------------------------------------------------------------------------

  function JudgeAt(world: World, i: nat): Judges { (at: nat, p: Policy) => world.judge(i, at, p) }

  function GovernedPolicies(stack: Stack, c: Cycle, workflow: bool): seq<Policy> {
    if workflow then WorkflowPolicies(c.plan) else stack.policies
  }

  function GateAt(stack: Stack, world: World, i: nat, c: Cycle, workflow: bool): Gate {
    GateOf(JudgeAt(world, i), GovernedPolicies(stack, c, workflow), stack.approval)
  }

  /** Discovery by words: the matching processes, or all of them when none match. */
  function Matching(processes: seq<Process>, matches: Process -> bool): seq<Process> {
    if processes == [] then []
    else Matching(Front(processes), matches) + (if matches(Last(processes)) then [Last(processes)] else [])
  }

  function OrAll<T(==)>(found: seq<T>, all: seq<T>): seq<T> { if found == [] then all else found }

  /** One stage: the cycle it leaves, or why the whole cycle stops. */
  function StageOutcome(stack: Stack, world: World, i: nat, c: Cycle, stage: Stage): Outcome {
    match stage
    case Govern(workflow) =>
      (match GateAt(stack, world, i, c, workflow)
       case Failed => Stopped(JudgeFailed)
       case Passed => Returned(c)
       case Blocked(ps) => Stopped(PolicyViolation(ps))
       case Parked(ps) => Stopped(ApprovalRequired(ps)))
    case Discover =>
      if !stack.live then Returned(c.(candidates := OrAll(Matching(stack.processes, world.matches), stack.processes)))
      else if stack.processes == [] then Returned(c.(candidates := []))
      else if world.names(i) == None then Stopped(ModelError)
      else Returned(c.(candidates := OrAll(Resolved(world.names(i).value, stack.processes), stack.processes)))
    case Select =>
      var deduped := FirstOfEachName(c.candidates);
      if !stack.live || |deduped| <= 1 then Returned(c.(selected := deduped))
      else if world.names(i) == None then Stopped(ModelError)
      else Returned(c.(selected := OrAll(Resolved(world.names(i).value, deduped), deduped)))
    case Compose => Returned(c.(plan := Composed(c.selected)))
    case Schedule =>
      if !stack.live || |c.plan| <= 1 then Returned(c)
      else if world.names(i) == None then Stopped(ModelError)
      else Returned(c.(plan := Reordered(world.names(i).value, c.plan)))
    case Reason =>
      if world.act(i) == None then Stopped(ModelError)
      else if Trim(world.act(i).value) == "" then Stopped(EmptyDecision)
      else Returned(c.(decision := world.act(i).value))
    case _ => if world.act(i) == None then Stopped(ModelError) else Returned(c)
  }

  /** What a stage adds to the trail. */
  function StageEntries(stack: Stack, world: World, i: nat, c: Cycle, stage: Stage): seq<Entry> {
    match stage
    case Govern(workflow) => GateEntries(JudgeAt(world, i), GovernedPolicies(stack, c, workflow), stack.approval)
    case _ => world.notes(i)
  }

  /** How many violations a stage's govern finds before any judge error, of those that wait for a verdict
      or of the rest. */
  function StageViolations(stack: Stack, world: World, i: nat, c: Cycle, stage: Stage, wait: bool): nat {
    match stage
    case Govern(workflow) =>
      var judge, policies := JudgeAt(world, i), GovernedPolicies(stack, c, workflow);
      |ViolationsThat(judge, policies[..JudgedCount(judge, policies)], stack.approval, wait)|
    case _ => 0
  }

  // -- the cycle -----------------------------------------------------------------------------------

  /** The stages from the i-th on. */
  function RunFrom(stack: Stack, world: World, pipeline: seq<Stage>, i: nat, c: Cycle): Outcome
    requires i <= |pipeline|
    decreases |pipeline| - i
  {
    if i == |pipeline| then Returned(c)
    else if world.cancelled(i) then Stopped(Cancelled)
    else
      match StageOutcome(stack, world, i, c, pipeline[i])
      case Stopped(why) => Stopped(why)
      case Returned(c') => RunFrom(stack, world, pipeline, i + 1, c')
  }

  function EntriesFrom(stack: Stack, world: World, pipeline: seq<Stage>, i: nat, c: Cycle): seq<Entry>
    requires i <= |pipeline|
    decreases |pipeline| - i
  {
    if i == |pipeline| || world.cancelled(i) then []
    else
      var here := StageEntries(stack, world, i, c, pipeline[i]);
      match StageOutcome(stack, world, i, c, pipeline[i])
      case Stopped(_) => here
      case Returned(c') => here + EntriesFrom(stack, world, pipeline, i + 1, c')
  }

  function ViolationsFrom(stack: Stack, world: World, pipeline: seq<Stage>, i: nat, c: Cycle, wait: bool): nat
    requires i <= |pipeline|
    decreases |pipeline| - i
  {
    if i == |pipeline| || world.cancelled(i) then 0
    else
      var here := StageViolations(stack, world, i, c, pipeline[i], wait);
      match StageOutcome(stack, world, i, c, pipeline[i])
      case Stopped(_) => here
      case Returned(c') => here + ViolationsFrom(stack, world, pipeline, i + 1, c', wait)
  }

  function ReasonOutcome(stack: Stack, world: World, pipeline: seq<Stage>): Outcome {
    if world.refusal.Some? then Stopped(TenantRefused) else RunFrom(stack, world, pipeline, 0, FRESH)
  }

  function ReasonEntries(stack: Stack, world: World, pipeline: seq<Stage>): seq<Entry> {
    if world.refusal.Some? then [Entry("tenant", "REFUSED -- " + world.refusal.value)]
    else EntriesFrom(stack, world, pipeline, 0, FRESH)
  }

  /** The mutable value threaded through the stages. */
  class CycleState {
    var candidates: seq<Process>
    var selected: seq<Process>
    var plan: seq<Workflow>
    var decision: string

    constructor ()
      ensures State() == FRESH
    {
      candidates, selected, plan, decision := [], [], [], "";
    }

    function State(): Cycle
      reads this
    {
      Cycle(candidates, selected, plan, decision)
    }

    method RunStage(governor: Governor, stack: Stack, world: World, i: nat, stage: Stage) returns (stop: Option<Stop>)
      modifies this, governor
      ensures stop == (match StageOutcome(stack, world, i, old(State()), stage)
                       case Stopped(why) => Some(why)
                       case Returned(_) => None)
      ensures stop == None ==> Returned(State()) == StageOutcome(stack, world, i, old(State()), stage)
      ensures governor.log == old(governor.log) + StageEntries(stack, world, i, old(State()), stage)
    {
      hide GateOf, GateEntries, Resolved, FirstOfEachName, Composed, Reordered, Matching, WorkflowPolicies, Trim;
      stop := None;
      if stage.Govern? {
        var policies := if stage.workflow then WorkflowPolicies(plan) else stack.policies;
        var gate := governor.RunGate(JudgeAt(world, i), policies, stack.approval);
        match gate {
          case Failed => stop := Some(JudgeFailed);
          case Passed =>
          case Blocked(ps) => stop := Some(PolicyViolation(ps));
          case Parked(ps) => stop := Some(ApprovalRequired(ps));
        }
        return;
      }
      governor.log := governor.log + world.notes(i);
      match stage {
        case Discover => stop := RunDiscover(stack, world, i);
        case Select => stop := RunSelect(stack, world, i);
        case Compose => plan := Planning.Compose(selected);
        case Schedule =>
          if stack.live && |plan| > 1 {
            if world.names(i) == None {
              return Some(ModelError);
            }
            plan := ReorderWorkflows(world.names(i).value, plan);
          }
        case Reason =>
          if world.act(i) == None {
            return Some(ModelError);
          }
          if Trim(world.act(i).value) == "" {
            return Some(EmptyDecision);
          }
          decision := world.act(i).value;
        case _ =>
          if world.act(i) == None {
            return Some(ModelError);
          }
      }
    }

    method RunDiscover(stack: Stack, world: World, i: nat) returns (stop: Option<Stop>)
      modifies this`candidates
      ensures var outcome := StageOutcome(stack, world, i, old(State()), Discover);
              (stop == None ==> Returned(State()) == outcome) && (stop != None ==> Stopped(stop.value) == outcome)
    {
      stop := None;
      if !stack.live {
        candidates := OrAll(Matching(stack.processes, world.matches), stack.processes);
      } else if |stack.processes| == 0 {
        candidates := [];
      } else if world.names(i) == None {
        stop := Some(ModelError);
      } else {
        var found := ResolveProcesses(world.names(i).value, stack.processes);
        candidates := if |found| == 0 then stack.processes else found;
      }
    }

    method RunSelect(stack: Stack, world: World, i: nat) returns (stop: Option<Stop>)
      modifies this`selected
      ensures var outcome := StageOutcome(stack, world, i, old(State()), Select);
              (stop == None ==> Returned(State()) == outcome) && (stop != None ==> Stopped(stop.value) == outcome)
    {
      stop := None;
      var deduped := SelectProcesses(candidates);
      if !stack.live || |deduped| <= 1 {
        selected := deduped;
      } else if world.names(i) == None {
        stop := Some(ModelError);
      } else {
        var chosen := ResolveProcesses(world.names(i).value, deduped);
        selected := if |chosen| == 0 then deduped else chosen;
      }
    }
  }

  /** Reason: the tenant boundary first, then the stages one by one until one stops the cycle. */
  method RunCycle(governor: Governor, stack: Stack, world: World, pipeline: seq<Stage>) returns (outcome: Outcome)
    modifies governor
    ensures outcome == ReasonOutcome(stack, world, pipeline)
    ensures governor.log == old(governor.log) + ReasonEntries(stack, world, pipeline)
    ensures world.refusal.Some? ==> outcome == Stopped(TenantRefused)
    ensures world.refusal.Some? ==>
              governor.log == old(governor.log) + [Entry("tenant", "REFUSED -- " + world.refusal.value)]
  {
    hide StageOutcome, StageEntries;
    if world.refusal.Some? {
      governor.log := governor.log + [Entry("tenant", "REFUSED -- " + world.refusal.value)];
      return Stopped(TenantRefused);
    }
    var c := new CycleState();
    var i := 0;
    while i < |pipeline|
      invariant 0 <= i <= |pipeline|
      invariant RunFrom(stack, world, pipeline, 0, FRESH) == RunFrom(stack, world, pipeline, i, c.State())
      invariant old(governor.log) + EntriesFrom(stack, world, pipeline, 0, FRESH)
             == governor.log + EntriesFrom(stack, world, pipeline, i, c.State())
      invariant fresh(c)
    {
      if world.cancelled(i) {
        return Stopped(Cancelled);
      }
      ghost var before, log := c.State(), governor.log;
      var stop := c.RunStage(governor, stack, world, i, pipeline[i]);
      if stop.Some? {
        return Stopped(stop.value);
      }
      EntriesUnfold(stack, world, pipeline, i, before, log, c.State());
      i := i + 1;
    }
    outcome := Returned(c.State());
  }

  lemma EntriesUnfold(stack: Stack, world: World, pipeline: seq<Stage>, i: nat, c: Cycle, log: seq<Entry>, c': Cycle)
    requires i < |pipeline| && !world.cancelled(i)
    requires StageOutcome(stack, world, i, c, pipeline[i]) == Returned(c')
    ensures log + EntriesFrom(stack, world, pipeline, i, c)
         == log + StageEntries(stack, world, i, c, pipeline[i]) + EntriesFrom(stack, world, pipeline, i + 1, c')
  {
    hide StageOutcome, StageEntries;
  }

  // -- what a decision proves ----------------------------------------------------------------------

  /** A cycle that returns went through the stage before it. */
  lemma StepReturned(stack: Stack, world: World, pipeline: seq<Stage>, i: nat, c: Cycle) returns (next: Cycle)
    requires i < |pipeline| && RunFrom(stack, world, pipeline, i, c).Returned?
    ensures StageOutcome(stack, world, i, c, pipeline[i]) == Returned(next)
    ensures RunFrom(stack, world, pipeline, i + 1, next) == RunFrom(stack, world, pipeline, i, c)
  {
    hide StageOutcome;
    next := StageOutcome(stack, world, i, c, pipeline[i]).cycle;
  }

  predicate Plans(stage: Stage) { stage.Discover? || stage.Select? || stage.Compose? || stage.Schedule? }

  /** Once planning is over, the selection and the plan stay, and after Reason the decision too. */
  lemma {:induction false} TailKeeps(stack: Stack, world: World, pipeline: seq<Stage>, i: nat, c: Cycle)
    requires i <= |pipeline| && RunFrom(stack, world, pipeline, i, c).Returned?
    requires forall k | i <= k < |pipeline| :: !Plans(pipeline[k])
    ensures var end := RunFrom(stack, world, pipeline, i, c).cycle;
            && end.plan == c.plan && end.selected == c.selected
            && ((forall k | i <= k < |pipeline| :: !pipeline[k].Reason?) ==> end.decision == c.decision)
    decreases |pipeline| - i
  {
    hide GateAt, GovernedPolicies, GateOf;
    if i < |pipeline| {
      var next := StepReturned(stack, world, pipeline, i, c);
      TailKeeps(stack, world, pipeline, i + 1, next);
    }
  }

  /** A gate that lets the cycle on was passed: every policy is satisfied. */
  lemma GatePassed(stack: Stack, world: World, i: nat, c: Cycle, workflow: bool, next: Cycle)
    requires StageOutcome(stack, world, i, c, Govern(workflow)) == Returned(next)
    ensures next == c
    ensures AllSatisfied(JudgeAt(world, i), GovernedPolicies(stack, c, workflow), stack.approval)
  {
    hide GateOf, AllSatisfied, GovernedPolicies;
    GateTrichotomy(JudgeAt(world, i), GovernedPolicies(stack, c, workflow), stack.approval);
    assert GateAt(stack, world, i, c, workflow) == Passed;
  }

  /** Candidates and the selection come from the stack. */
  lemma MatchingFromStack(processes: seq<Process>, matches: Process -> bool)
    ensures forall p | p in Matching(processes, matches) :: p in processes
  {
    if processes != [] {
      MatchingFromStack(Front(processes), matches);
    }
  }

  lemma DiscoveredFromStack(stack: Stack, world: World, i: nat, c: Cycle, next: Cycle)
    requires StageOutcome(stack, world, i, c, Discover) == Returned(next)
    ensures forall p | p in next.candidates :: p in stack.processes
  {
    hide Matching, Resolved;
    MatchingFromStack(stack.processes, world.matches);
    if world.names(i).Some? {
      ResolvedFromPool(world.names(i).value, stack.processes);
    }
  }

  lemma SelectedFromCandidates(stack: Stack, world: World, i: nat, c: Cycle, next: Cycle)
    requires StageOutcome(stack, world, i, c, Select) == Returned(next)
    ensures forall p | p in next.selected :: p in c.candidates
    ensures NoRepeats(next.selected)
  {
    hide FirstOfEachName, Resolved;
    var deduped := FirstOfEachName(c.candidates);
    SelectedAreCandidates(c.candidates);
    if world.names(i).Some? {
      ResolvedFromPool(world.names(i).value, deduped);
    }
    forall a, b | 0 <= a < b < |deduped|
      ensures deduped[a] != deduped[b]
    {
      assert deduped[a].name != deduped[b].name;
    }
  }

  lemma ScheduledKeepsSet(stack: Stack, world: World, i: nat, c: Cycle, next: Cycle, w: Workflow)
    requires StageOutcome(stack, world, i, c, Schedule) == Returned(next)
    ensures w in next.plan <==> w in c.plan
  {
    hide Reordered;
    if world.names(i).Some? {
      ReorderKeepsSet(world.names(i).value, c.plan, w);
    }
  }

  lemma ScheduledSelected(stack: Stack, world: World, i: nat, c: Cycle, next: Cycle)
    requires StageOutcome(stack, world, i, c, Schedule) == Returned(next)
    ensures next.selected == c.selected
  {
  }

  /** The stages up to the second gate, in the default pipeline. */
  lemma DefaultPlanned(stack: Stack, world: World) returns (c: Cycle)
    requires RunFrom(stack, world, DEFAULT, 0, FRESH).Returned?
    ensures RunFrom(stack, world, DEFAULT, 6, c) == RunFrom(stack, world, DEFAULT, 0, FRESH)
    ensures AllSatisfied(JudgeAt(world, 0), stack.policies, stack.approval)
    ensures AllSatisfied(JudgeAt(world, 5), WorkflowPolicies(c.plan), stack.approval)
    ensures forall p | p in c.selected :: p in stack.processes
    ensures forall w :: w in c.plan <==> w in Composed(c.selected)
  {
    hide StageOutcome, RunFrom, AllSatisfied, WorkflowPolicies, Composed;
    var c1 := StepReturned(stack, world, DEFAULT, 0, FRESH);
    GatePassed(stack, world, 0, FRESH, false, c1);
    var c2 := StepReturned(stack, world, DEFAULT, 1, c1);
    DiscoveredFromStack(stack, world, 1, c1, c2);
    var c3 := StepReturned(stack, world, DEFAULT, 2, c2);
    SelectedFromCandidates(stack, world, 2, c2, c3);
    var c4 := StepReturned(stack, world, DEFAULT, 3, c3);
    ComposedPlan(stack, world, 3, c3, c4);
    var c5 := StepReturned(stack, world, DEFAULT, 4, c4);
    forall w
      ensures w in c5.plan <==> w in c4.plan
    {
      ScheduledKeepsSet(stack, world, 4, c4, c5, w);
    }
    ScheduledSelected(stack, world, 4, c4, c5);
    c := StepReturned(stack, world, DEFAULT, 5, c5);
    GatePassed(stack, world, 5, c5, true, c);
  }

  lemma ComposedPlan(stack: Stack, world: World, i: nat, c: Cycle, next: Cycle)
    requires StageOutcome(stack, world, i, c, Compose) == Returned(next)
    ensures next.plan == Composed(c.selected) && next.selected == c.selected
  {
  }

  /** The decision of the default pipeline is the text the Reason stage obtained, not blank. */
  lemma DefaultDecided(stack: Stack, world: World, c: Cycle)
    requires RunFrom(stack, world, DEFAULT, 6, c).Returned?
    ensures var end := RunFrom(stack, world, DEFAULT, 6, c).cycle;
            end.plan == c.plan && end.selected == c.selected && Trim(end.decision) != ""
  {
    hide StageOutcome, RunFrom, Trim;
    TailKeeps(stack, world, DEFAULT, 6, c);
    var c7 := StepReturned(stack, world, DEFAULT, 6, c);
    var c8 := StepReturned(stack, world, DEFAULT, 7, c7);
    var c9 := StepReturned(stack, world, DEFAULT, 8, c8);
    var c10 := StepReturned(stack, world, DEFAULT, 9, c9);
    DecidedNotBlank(stack, world, 9, c9, c10);
    TailKeeps(stack, world, DEFAULT, 10, c10);
  }

  lemma DecidedNotBlank(stack: Stack, world: World, i: nat, c: Cycle, next: Cycle)
    requires StageOutcome(stack, world, i, c, Reason) == Returned(next)
    ensures Trim(next.decision) != ""
  {
    hide Trim;
  }

  /** When the default pipeline returns a decision: no tenant claim was refused, every policy of the
      runtime was satisfied at the first gate, the plan holds exactly the workflows of the selected
      processes, all of them the stack's, and every policy of every one of those workflows was
      satisfied at the second gate. */
  lemma DecisionMeansGoverned(stack: Stack, world: World, process: Process, w: Workflow, p: Policy)
    requires ReasonOutcome(stack, world, DEFAULT).Returned?
    ensures var c := ReasonOutcome(stack, world, DEFAULT).cycle;
            && world.refusal == None && Trim(c.decision) != ""
            && AllSatisfied(JudgeAt(world, 0), stack.policies, stack.approval)
            && (process in c.selected ==> process in stack.processes)
            && (w in c.plan <==> exists q :: q in c.selected && w in q.workflows)
            && AllSatisfied(JudgeAt(world, 5), WorkflowPolicies(c.plan), stack.approval)
            && (process in c.selected && w in process.workflows && p in w.policies ==> p in WorkflowPolicies(c.plan))
  {
    hide RunFrom, AllSatisfied, WorkflowPolicies, Composed, Trim;
    var c := DefaultPlanned(stack, world);
    DefaultDecided(stack, world, c);
    ComposedMembers(c.selected, w);
    WorkflowPoliciesMembers(c.plan, p);
  }
}
