/** No interleaving of the parallel kernel gets stuck: while anything is unfinished, some thread of the
    kernel's own can move. */
module KernelProgress {
  import opened Options
  import opened KernelCore
  import opened KernelInvariants
  import opened KernelRuns
  import opened KernelTheorems

  /** Steps the kernel's own threads take; the others wait for a caller to decide to call. */
  predicate OwnStep(step: Step) {
    !step.SubmitTask? && !step.CancelTask? && !step.StopRun? && !step.StartRun? && !step.DrainStart?
  }

  /** Nothing is left to do: no job, no interrupt owed, no drain under way, and the loop stopped or
      asleep with no interrupt raised, no timer and no cancellation. */
  predicate AtRest(s: Sys) {
    && s.jobs == map[] && s.raising == 0
    && (s.drain.pc.Idle? || s.drain.pc.Drained?)
    && (s.loop.Stopped? || (s.loop.Asleep? && !s.k.wake && s.loop.bound == None && !s.stop))
  }

  // -- a taken job has someone waiting to start it -------------------------------------------------

  predicate Awaited(j: nat, owner: Owner, loop: LoopPc, drain: DrainPc) {
    match owner
    case RunLoop => loop.Acquiring? && loop.job == j
    case Drainer => drain.Admitting? && drain.job == j
  }

  ghost predicate TakenAwaited(jobs: map<nat, Job>, loop: LoopPc, drain: DrainPc) {
    forall j | j in jobs && jobs[j].phase.Taken? :: Awaited(j, jobs[j].owner, loop, drain)
  }

  predicate Takes(step: Step) { step.LoopTake? || step.DrainTake? }

  predicate Launches(step: Step) { step.LoopLaunch? || step.DrainLaunch? }

  lemma TakeKeepsAwaited(c: Config, s: Sys, step: Step)
    requires Takes(step) && Enabled(c, s, step) && TakenAwaited(s.jobs, s.loop, s.drain.pc)
    ensures var s' := Apply(c, s, step); TakenAwaited(s'.jobs, s'.loop, s'.drain.pc)
  {
    hide Take, SlotsOf, OwnedBy;
  }

  lemma LaunchKeepsAwaited(c: Config, s: Sys, step: Step)
    requires Launches(step) && Enabled(c, s, step) && TakenAwaited(s.jobs, s.loop, s.drain.pc)
    ensures var s' := Apply(c, s, step); TakenAwaited(s'.jobs, s'.loop, s'.drain.pc)
  {
    hide Take, SlotsOf, OwnedBy;
  }

  lemma OthersKeepAwaited(c: Config, s: Sys, step: Step)
    requires !Takes(step) && !Launches(step)
    requires Enabled(c, s, step) && TakenAwaited(s.jobs, s.loop, s.drain.pc)
    ensures var s' := Apply(c, s, step); TakenAwaited(s'.jobs, s'.loop, s'.drain.pc)
  {
    hide Take, Enqueue, Unqueue, Release, Record, Raise, SlotsOf, OwnedBy, Gap, IndexOfId;
  }

  lemma StepKeepsAwaited(c: Config, s: Sys, step: Step)
    requires Enabled(c, s, step) && TakenAwaited(s.jobs, s.loop, s.drain.pc)
    ensures var s' := Apply(c, s, step); TakenAwaited(s'.jobs, s'.loop, s'.drain.pc)
  {
    hide Apply, Enabled, TakenAwaited;
    if Takes(step) {
      TakeKeepsAwaited(c, s, step);
    } else if Launches(step) {
      LaunchKeepsAwaited(c, s, step);
    } else {
      OthersKeepAwaited(c, s, step);
    }
  }

  lemma {:induction false} RunKeepsAwaited(c: Config, s: Sys, steps: seq<Step>)
    requires CanRun(c, s, steps) && TakenAwaited(s.jobs, s.loop, s.drain.pc)
    ensures var end := RunSteps(c, s, steps); TakenAwaited(end.jobs, end.loop, end.drain.pc)
    decreases |steps|
  {
    hide Apply, Enabled, TakenAwaited;
    if steps != [] {
      StepKeepsAwaited(c, s, steps[0]);
      RunKeepsAwaited(c, Apply(c, s, steps[0]), steps[1..]);
    }
  }

  // -- who can move --------------------------------------------------------------------------------

  /** A job that holds a slot has a next step of its own. */
  lemma SlotMoves(c: Config, s: Sys, j: nat) returns (step: Step)
    requires j in s.jobs && HoldsSlot(s.jobs[j])
    ensures OwnStep(step) && Enabled(c, s, step)
  {
    match s.jobs[j].phase
    case Running => step := JobRecord(j, Ran, "");
    case Recorded => step := JobRelease(j);
    case Released => step := JobRaise(j);
    case Raised => step := JobFinish(j);
  }

  /** Whoever waits for a slot gets one, or somebody holds one and can move. */
  lemma WaiterMoves(c: Config, s: Sys, owner: Owner) returns (step: Step)
    requires c.workers > 0 && PoolInv(c, s.loop, s.drain.pc, s.jobs)
    requires if owner == RunLoop then s.loop.Acquiring? else s.drain.pc.Admitting?
    ensures OwnStep(step) && Enabled(c, s, step)
  {
    if |SlotsOf(s.jobs, owner)| < c.workers {
      step := if owner == RunLoop then LoopLaunch else DrainLaunch;
    } else {
      assert SlotsOf(s.jobs, owner) != {};
      var j :| j in SlotsOf(s.jobs, owner);
      step := SlotMoves(c, s, j);
    }
  }

  lemma JobMoves(c: Config, s: Sys, j: nat) returns (step: Step)
    requires c.workers > 0 && PoolInv(c, s.loop, s.drain.pc, s.jobs) && TakenAwaited(s.jobs, s.loop, s.drain.pc)
    requires j in s.jobs
    ensures OwnStep(step) && Enabled(c, s, step)
  {
    hide PoolInv;
    if s.jobs[j].phase.Taken? {
      assert Awaited(j, s.jobs[j].owner, s.loop, s.drain.pc);
      step := WaiterMoves(c, s, s.jobs[j].owner);
    } else {
      step := SlotMoves(c, s, j);
    }
  }

  lemma DrainMoves(c: Config, s: Sys) returns (step: Step)
    requires c.workers > 0 && PoolInv(c, s.loop, s.drain.pc, s.jobs) && s.jobs == map[]
    requires !s.drain.pc.Idle? && !s.drain.pc.Drained?
    ensures OwnStep(step) && Enabled(c, s, step)
  {
    match s.drain.pc
    case CheckingRoom => step := DrainCheck;
    case Taking => step := DrainTake(0);
    case Admitting(_) => step := WaiterMoves(c, s, Drainer);
    case BatchWait(_) => step := DrainBatchDone;
  }

  lemma LoopMoves(c: Config, s: Sys) returns (step: Step)
    requires c.workers > 0 && PoolInv(c, s.loop, s.drain.pc, s.jobs) && s.jobs == map[]
    requires !s.loop.Stopped?
    requires s.loop.Asleep? ==> s.k.wake || s.loop.bound.Some? || s.stop
    ensures OwnStep(step) && Enabled(c, s, step)
  {
    match s.loop
    case Top => step := LoopTop;
    case Scanning(_) => step := LoopTake(0);
    case Acquiring(_, _) => step := WaiterMoves(c, s, RunLoop);
    case Drowsy(_) => step := LoopSleep(0);
    case Waiting => step := LoopReturn;
    case Asleep(_, _, bound) =>
      step := if s.k.wake then LoopWake else if bound.Some? then LoopTimer else LoopStopped;
  }

  lemma Moves(c: Config, s: Sys) returns (step: Step)
    requires c.workers > 0 && PoolInv(c, s.loop, s.drain.pc, s.jobs) && TakenAwaited(s.jobs, s.loop, s.drain.pc)
    requires !AtRest(s)
    ensures OwnStep(step) && Enabled(c, s, step)
  {
    hide PoolInv, TakenAwaited, Enabled, OwnStep;
    if s.jobs != map[] {
      var j :| j in s.jobs;
      step := JobMoves(c, s, j);
    } else if s.raising > 0 {
      step := RaiseSubmit;
      RaiseMoves(c, s);
    } else if !s.drain.pc.Idle? && !s.drain.pc.Drained? {
      step := DrainMoves(c, s);
    } else {
      step := LoopMoves(c, s);
    }
  }

  lemma RaiseMoves(c: Config, s: Sys)
    requires s.raising > 0
    ensures OwnStep(RaiseSubmit) && Enabled(c, s, RaiseSubmit)
  {
  }

  lemma RestsStill(c: Config, s: Sys, step: Step)
    requires AtRest(s) && OwnStep(step)
    ensures !Enabled(c, s, step)
  {
  }

  /** With at least one worker, in every state any interleaving reaches: some thread of the kernel's own
      can take a step if and only if the kernel is not at rest. No job, drain or loop is ever stuck. */
  lemma NeverStuck(c: Config, steps: seq<Step>)
    requires CanRun(c, Initial(), steps) && c.workers > 0
    ensures var s := Reach(c, steps);
            (exists step :: OwnStep(step) && Enabled(c, s, step)) <==> !AtRest(s)
  {
    hide RunSteps, CanRun, IdsInv, SingleWriter, Conservation, HistoryIsTail, WakeInv, PoolInv, DrainInv, AtRest,
      Enabled, OwnStep, TakenAwaited;
    ReachInv(c, steps);
    NothingTaken();
    RunKeepsAwaited(c, Initial(), steps);
    var s := Reach(c, steps);
    if AtRest(s) {
      forall step | OwnStep(step)
        ensures !Enabled(c, s, step)
      {
        RestsStill(c, s, step);
      }
    } else {
      var step := Moves(c, s);
    }
  }

  lemma NothingTaken()
    ensures var s := Initial(); TakenAwaited(s.jobs, s.loop, s.drain.pc)
  {
  }

  /** Together with the wake-up result: when the kernel is at rest with its loop asleep, every queued
      task fell due between the loop's two readings. */
  lemma RestingTasksFellInTheWindow(c: Config, steps: seq<Step>, t: Task)
    requires CanRun(c, Initial(), steps)
    requires var s := Reach(c, steps); AtRest(s) && s.loop.Asleep? && t in s.k.queue
    ensures InWindow(Reach(c, steps).loop, t)
  {
    hide RunSteps, CanRun, IdsInv, Conservation, HistoryIsTail, PoolInv, DrainInv;
    ReachInv(c, steps);
  }
}
