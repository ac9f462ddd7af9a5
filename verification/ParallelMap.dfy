/** concurrent.go: a map fanned out over goroutines under a semaphore. The launching loop and every
    goroutine are interleaved step by step: take a semaphore slot, launch, write the result, give the
    slot back, count down the wait group. */
module ParallelMap {
  import opened Options

  function Mapped<T, R>(items: seq<T>, fn: T -> R): (r: seq<R>)
    ensures |r| == |items| && forall i | 0 <= i < |r| :: r[i] == fn(items[i])
  {
    seq(|items|, i requires 0 <= i < |items| => fn(items[i]))
  }

  /** At most one item runs inline. */
  method MapInline<T, R>(items: seq<T>, fn: T -> R) returns (results: seq<R>)
    requires |items| <= 1
    ensures results == Mapped(items, fn)
  {
    results := [];
    var i := 0;
    while i < |items|
      invariant 0 <= i <= |items| && |results| == i
      invariant forall k | 0 <= k < i :: results[k] == fn(items[k])
    {
      results := results + [fn(items[i])];
      i := i + 1;
    }
  }

  // -- the machine ---------------------------------------------------------------------------------

  datatype Phase = Unlaunched | Running | Written | Released | Done

  /** `next` is the index the launching loop has reached, `holding` whether it has taken the slot for
      it; `slots` counts the semaphore's tokens, `waiting` the wait group; `writes` counts the writes
      to each result slot. */
  datatype Pool<R> = Pool(limit: nat, next: nat, holding: bool, phases: seq<Phase>, slots: nat, waiting: nat,
                          results: seq<Option<R>>, writes: seq<nat>, returned: bool)

  datatype Step = Acquire | Launch | Write(i: nat) | Release(i: nat) | Finish(i: nat) | Return

  /** The bound: the processors, and no more than the items. */
  function Limit(processors: nat, n: nat): nat { if processors > n then n else processors }

  function Started<R>(processors: nat, n: nat): Pool<R> {
    Pool(Limit(processors, n), 0, false, seq(n, _ => Unlaunched), 0, n, seq(n, _ => None), seq(n, _ => 0), false)
  }

  predicate InPhase<R>(p: Pool<R>, i: nat, phase: Phase) { i < |p.phases| && p.phases[i] == phase }

  predicate Shaped<T, R>(items: seq<T>, p: Pool<R>) {
    |p.phases| == |p.results| == |p.writes| == |items| && p.next <= |items|
  }

  predicate Enabled<T, R>(items: seq<T>, p: Pool<R>, step: Step)
    requires Shaped(items, p)
  {
    match step
    case Acquire => p.next < |items| && !p.holding && p.slots < p.limit
    case Launch => p.next < |items| && p.holding
    case Write(i) => InPhase(p, i, Running)
    case Release(i) => InPhase(p, i, Written) && p.slots > 0
    case Finish(i) => InPhase(p, i, Released) && p.waiting > 0
    case Return => p.next == |items| && p.waiting == 0 && !p.returned
  }

  function Apply<T, R>(items: seq<T>, fn: T -> R, p: Pool<R>, step: Step): (q: Pool<R>)
    requires Shaped(items, p) && Enabled(items, p, step)
    ensures Shaped(items, q)
  {
    match step
    case Acquire => p.(slots := p.slots + 1, holding := true)
    case Launch => p.(phases := p.phases[p.next := Running], next := p.next + 1, holding := false)
    case Write(i) =>
      p.(phases := p.phases[i := Written], results := p.results[i := Some(fn(items[i]))],
         writes := p.writes[i := p.writes[i] + 1])
    case Release(i) => p.(phases := p.phases[i := Released], slots := p.slots - 1)
    case Finish(i) => p.(phases := p.phases[i := Done], waiting := p.waiting - 1)
    case Return => p.(returned := true)
  }

  ghost predicate Run<T, R>(items: seq<T>, fn: T -> R, from: Pool<R>, steps: seq<Step>, to: Pool<R>)
    requires Shaped(items, from)
    decreases |steps|
  {
    if steps == [] then from == to
    else Enabled(items, from, steps[0]) && Run(items, fn, Apply(items, fn, from, steps[0]), steps[1..], to)
  }

  // -- counting phases -----------------------------------------------------------------------------

  /** The goroutines that hold a slot, and those that have finished. */
  function Holders(phases: seq<Phase>): nat {
    if phases == [] then 0 else Holders(phases[..|phases| - 1]) + Holds(phases[|phases| - 1])
  }

  function Holds(phase: Phase): nat { if phase == Running || phase == Written then 1 else 0 }

  lemma HoldsOf()
    ensures Holds(Running) == 1 && Holds(Written) == 1
    ensures Holds(Unlaunched) == 0 && Holds(Released) == 0 && Holds(Done) == 0
  {
  }

  function Finished(phases: seq<Phase>): nat {
    if phases == [] then 0 else Finished(phases[..|phases| - 1]) + (if phases[|phases| - 1] == Done then 1 else 0)
  }

  lemma {:induction false} Recount(phases: seq<Phase>, i: nat, phase: Phase)
    requires i < |phases|
    ensures Holders(phases[i := phase]) == Holders(phases) - Holds(phases[i]) + Holds(phase)
    ensures Finished(phases[i := phase])
         == Finished(phases) - (if phases[i] == Done then 1 else 0) + (if phase == Done then 1 else 0)
  {
    var n := |phases| - 1;
    var front := phases[..n];
    if i < n {
      Recount(front, i, phase);
      assert phases[i := phase][..n] == front[i := phase];
    } else {
      assert phases[i := phase][..n] == front;
    }
  }

  lemma {:induction false} AllUnlaunched(phases: seq<Phase>)
    requires forall i | 0 <= i < |phases| :: phases[i] == Unlaunched
    ensures Holders(phases) == 0 && Finished(phases) == 0
  {
    if phases != [] {
      AllUnlaunched(phases[..|phases| - 1]);
    }
  }

  lemma {:induction false} FinishedBound(phases: seq<Phase>)
    ensures Finished(phases) + Holders(phases) <= |phases|
    ensures Finished(phases) == |phases| ==> forall i | 0 <= i < |phases| :: phases[i] == Done
  {
    if phases != [] {
      FinishedBound(phases[..|phases| - 1]);
    }
  }

  lemma {:induction false} HolderCounts(phases: seq<Phase>, i: nat)
    requires i < |phases| && Holds(phases[i]) == 1
    ensures Holders(phases) > 0
  {
    if i < |phases| - 1 {
      HolderCounts(phases[..|phases| - 1], i);
    }
  }

  lemma {:induction false} UnfinishedCounts(phases: seq<Phase>, i: nat)
    requires i < |phases| && phases[i] != Done
    ensures Finished(phases) < |phases|
  {
    FinishedBound(phases);
  }

  // -- what every step keeps -----------------------------------------------------------------------

  predicate HasWritten(phase: Phase) { phase == Written || phase == Released || phase == Done }

  ghost predicate Inv<T, R>(items: seq<T>, fn: T -> R, p: Pool<R>) {
    Shaped(items, p) && Counts(items, p) && Cells(items, fn, p)
  }

  /** The semaphore and the wait group count the goroutines that hold a slot and those not finished. */
  ghost predicate Counts<T, R>(items: seq<T>, p: Pool<R>) {
    && p.slots == Holders(p.phases) + (if p.holding then 1 else 0) && p.slots <= p.limit
    && p.waiting == |items| - Finished(p.phases)
    && (p.holding ==> p.next < |items|)
    && (p.returned ==> p.next == |items| && p.waiting == 0)
  }

  /** Exactly the goroutines launched have left the start, and exactly those that have written have
      filled their slot, once. */
  ghost predicate Cells<T, R>(items: seq<T>, fn: T -> R, p: Pool<R>)
    requires Shaped(items, p)
  {
    && (forall i | 0 <= i < |items| :: p.phases[i] == Unlaunched <==> i >= p.next)
    && (forall i | 0 <= i < |items| :: p.results[i] == if HasWritten(p.phases[i]) then Some(fn(items[i])) else None)
    && (forall i | 0 <= i < |items| :: p.writes[i] == if HasWritten(p.phases[i]) then 1 else 0)
  }

  lemma StartedInv<T, R>(items: seq<T>, fn: T -> R, processors: nat)
    ensures Inv(items, fn, Started(processors, |items|))
  {
    AllUnlaunched(Started<R>(processors, |items|).phases);
  }

  lemma StepKeeps<T, R>(items: seq<T>, fn: T -> R, p: Pool<R>, step: Step)
    requires Inv(items, fn, p) && Enabled(items, p, step)
    ensures Inv(items, fn, Apply(items, fn, p, step))
  {
    hide Counts, Cells;
    StepKeepsCounts(items, fn, p, step);
    StepKeepsCells(items, fn, p, step);
  }

  lemma StepKeepsCells<T, R>(items: seq<T>, fn: T -> R, p: Pool<R>, step: Step)
    requires Inv(items, fn, p) && Enabled(items, p, step)
    ensures Cells(items, fn, Apply(items, fn, p, step))
  {
    hide Counts, Enabled;
    EnabledStep(items, p, step);
  }

  lemma EnabledStep<T, R>(items: seq<T>, p: Pool<R>, step: Step)
    requires Shaped(items, p) && Enabled(items, p, step)
    ensures step.Launch? ==> p.next < |items|
    ensures step.Write? ==> step.i < |items| && p.phases[step.i] == Running
    ensures step.Release? ==> step.i < |items| && p.phases[step.i] == Written
    ensures step.Finish? ==> step.i < |items| && p.phases[step.i] == Released
  {
  }

  lemma StepKeepsCounts<T, R>(items: seq<T>, fn: T -> R, p: Pool<R>, step: Step)
    requires Inv(items, fn, p) && Enabled(items, p, step)
    ensures Counts(items, Apply(items, fn, p, step))
  {
    hide Holders, Finished, Holds;
    HoldsOf();
    match step
    case Acquire =>
    case Launch => Recount(p.phases, p.next, Running);
    case Write(i) => Recount(p.phases, i, Written);
    case Release(i) => Recount(p.phases, i, Released);
    case Finish(i) =>
      Recount(p.phases, i, Done);
      UnfinishedCounts(p.phases, i);
    case Return =>
  }

  lemma {:induction false} RunKeeps<T, R>(items: seq<T>, fn: T -> R, from: Pool<R>, steps: seq<Step>, to: Pool<R>)
    requires Inv(items, fn, from) && Run(items, fn, from, steps, to)
    ensures Inv(items, fn, to)
    decreases |steps|
  {
    hide Inv, Apply;
    if steps != [] {
      assert Shaped(items, from) by {
        InvShaped(items, fn, from);
      }
      StepKeeps(items, fn, from, steps[0]);
      RunKeeps(items, fn, Apply(items, fn, from, steps[0]), steps[1..], to);
    }
  }

  lemma InvShaped<T, R>(items: seq<T>, fn: T -> R, p: Pool<R>)
    requires Inv(items, fn, p)
    ensures Shaped(items, p)
  {
  }

  // -- over every interleaving ---------------------------------------------------------------------

  /** The calls of fn in progress. */
  function CallsIn(phases: seq<Phase>): nat {
    if phases == [] then 0 else CallsIn(phases[..|phases| - 1]) + (if phases[|phases| - 1] == Running then 1 else 0)
  }

  lemma {:induction false} CallsAreHolders(phases: seq<Phase>)
    ensures CallsIn(phases) <= Holders(phases)
  {
    if phases != [] {
      CallsAreHolders(phases[..|phases| - 1]);
    }
  }

  /** Whatever the schedule: no more calls than the limit at once, and no slot written twice. */
  lemma BoundedAndWrittenOnce<T, R>(items: seq<T>, fn: T -> R, processors: nat, steps: seq<Step>, p: Pool<R>)
    requires Run(items, fn, Started(processors, |items|), steps, p)
    ensures CallsIn(p.phases) <= Limit(processors, |items|) && p.limit == Limit(processors, |items|)
    ensures p.limit == if processors > |items| then |items| else processors
    ensures |p.writes| == |items| && forall i | 0 <= i < |items| :: p.writes[i] <= 1
  {
    StartedInv(items, fn, processors);
    RunKeeps(items, fn, Started(processors, |items|), steps, p);
    CallsAreHolders(p.phases);
    LimitStays(items, fn, Started(processors, |items|), steps, p);
  }

  lemma {:induction false} LimitStays<T, R>(items: seq<T>, fn: T -> R, from: Pool<R>, steps: seq<Step>, to: Pool<R>)
    requires Shaped(items, from) && Run(items, fn, from, steps, to)
    ensures to.limit == from.limit
    decreases |steps|
  {
    if steps != [] {
      LimitStays(items, fn, Apply(items, fn, from, steps[0]), steps[1..], to);
    }
  }

  /** Whatever the schedule: when the wait returns, the results are those of the sequential map, each
      slot was written exactly once, and every semaphore slot is free again. */
  lemma ReturnsTheSequentialMap<T, R>(items: seq<T>, fn: T -> R, processors: nat, steps: seq<Step>, p: Pool<R>)
    requires Run(items, fn, Started(processors, |items|), steps, p) && p.returned
    ensures |p.results| == |items| && forall i | 0 <= i < |items| :: p.results[i] == Some(Mapped(items, fn)[i])
    ensures |p.writes| == |items| && forall i | 0 <= i < |items| :: p.writes[i] == 1
    ensures p.slots == 0
  {
    StartedInv(items, fn, processors);
    RunKeeps(items, fn, Started(processors, |items|), steps, p);
    FinishedBound(p.phases);
  }

  /** Until it returns, some step can always be taken: the fan-out never blocks itself. */
  lemma NeverStuck<T, R>(items: seq<T>, fn: T -> R, processors: nat, steps: seq<Step>, p: Pool<R>) returns (step: Step)
    requires processors > 0
    requires Run(items, fn, Started(processors, |items|), steps, p) && !p.returned
    ensures Shaped(items, p) && Enabled(items, p, step)
  {
    hide Holders, Finished;
    StartedInv(items, fn, processors);
    RunKeeps(items, fn, Started(processors, |items|), steps, p);
    LimitStays(items, fn, Started(processors, |items|), steps, p);
    if p.holding {
      return Launch;
    }
    if p.next < |items| && p.slots < p.limit {
      return Acquire;
    }
    if p.next == |items| && p.waiting == 0 {
      return Return;
    }
    var i := SomeoneMoves(p.phases, p.next);
    if p.phases[i] == Running {
      return Write(i);
    } else if p.phases[i] == Written {
      HolderCounts(p.phases, i);
      return Release(i);
    }
    UnfinishedCounts(p.phases, i);
    return Finish(i);
  }

  /** If a slot is held or someone has not finished, a launched goroutine has a step left. */
  lemma {:induction false} SomeoneMoves(phases: seq<Phase>, next: nat) returns (i: nat)
    requires next <= |phases| && forall k | 0 <= k < |phases| :: phases[k] == Unlaunched <==> k >= next
    requires Holders(phases) > 0 || (next == |phases| && Finished(phases) < |phases|)
    ensures i < |phases| && (phases[i] == Running || phases[i] == Written || phases[i] == Released)
  {
    var n := |phases| - 1;
    if phases[n] == Running || phases[n] == Written || phases[n] == Released {
      i := n;
    } else {
      i := SomeoneMoves(phases[..n], if next <= n then next else n);
    }
  }

  // -- it ends -------------------------------------------------------------------------------------

  function Left(phase: Phase): nat {
    match phase
    case Unlaunched => 5
    case Running => 3
    case Written => 2
    case Released => 1
    case Done => 0
  }

  function StepsLeft(phases: seq<Phase>): nat {
    if phases == [] then 0 else StepsLeft(phases[..|phases| - 1]) + Left(phases[|phases| - 1])
  }

  lemma {:induction false} LeftRecount(phases: seq<Phase>, i: nat, phase: Phase)
    requires i < |phases|
    ensures StepsLeft(phases[i := phase]) == StepsLeft(phases) - Left(phases[i]) + Left(phase)
  {
    var n := |phases| - 1;
    if i < n {
      LeftRecount(phases[..n], i, phase);
      assert phases[i := phase][..n] == phases[..n][i := phase];
    } else {
      assert phases[i := phase][..n] == phases[..n];
    }
  }

  function Fuel<R>(p: Pool<R>): int {
    StepsLeft(p.phases) - (if p.holding then 1 else 0) + (if p.returned then 0 else 1)
  }

  lemma StepBurns<T, R>(items: seq<T>, fn: T -> R, p: Pool<R>, step: Step)
    requires Inv(items, fn, p) && Enabled(items, p, step)
    ensures Fuel(Apply(items, fn, p, step)) == Fuel(p) - 1
  {
    hide Holders, Finished, StepsLeft;
    match step
    case Acquire =>
    case Launch => LeftRecount(p.phases, p.next, Running);
    case Write(i) => LeftRecount(p.phases, i, Written);
    case Release(i) => LeftRecount(p.phases, i, Released);
    case Finish(i) => LeftRecount(p.phases, i, Done);
    case Return =>
  }

  lemma {:induction false} AllLeft(phases: seq<Phase>)
    requires forall i | 0 <= i < |phases| :: phases[i] == Unlaunched
    ensures StepsLeft(phases) == 5 * |phases|
  {
    if phases != [] {
      AllLeft(phases[..|phases| - 1]);
    }
  }

  lemma {:induction false} RunBurns<T, R>(items: seq<T>, fn: T -> R, from: Pool<R>, steps: seq<Step>, to: Pool<R>)
    requires Inv(items, fn, from) && Run(items, fn, from, steps, to)
    ensures Fuel(to) == Fuel(from) - |steps|
    decreases |steps|
  {
    hide Inv, Apply, Fuel;
    if steps != [] {
      InvShaped(items, fn, from);
      StepKeeps(items, fn, from, steps[0]);
      StepBurns(items, fn, from, steps[0]);
      RunBurns(items, fn, Apply(items, fn, from, steps[0]), steps[1..], to);
    }
  }

  lemma FuelSpent<T, R>(items: seq<T>, fn: T -> R, p: Pool<R>)
    requires Inv(items, fn, p)
    ensures Fuel(p) >= 0 && (p.returned <==> Fuel(p) == 0)
  {
    hide Holders, Finished, StepsLeft;
    LeftNothing(p.phases);
    HoldingHasLeft(p.phases, p.next);
  }

  lemma FuelAtStart<T, R>(items: seq<T>, fn: T -> R, processors: nat)
    ensures Fuel(Started<R>(processors, |items|)) == 5 * |items| + 1
  {
    hide StepsLeft;
    AllLeft(Started<R>(processors, |items|).phases);
  }

  /** Every schedule ends: a run has at most five steps an item and the return, and it has returned
      exactly when it has taken them all. */
  lemma RunsEnd<T, R>(items: seq<T>, fn: T -> R, processors: nat, steps: seq<Step>, p: Pool<R>)
    requires Run(items, fn, Started(processors, |items|), steps, p)
    ensures |steps| <= 5 * |items| + 1 && (p.returned <==> |steps| == 5 * |items| + 1)
  {
    hide Fuel, Inv, Run;
    StartedInv(items, fn, processors);
    InvShaped(items, fn, Started<R>(processors, |items|));
    FuelAtStart(items, fn, processors);
    RunBurns(items, fn, Started(processors, |items|), steps, p);
    RunKeeps(items, fn, Started(processors, |items|), steps, p);
    FuelSpent(items, fn, p);
  }

  lemma {:induction false} LeftNothing(phases: seq<Phase>)
    ensures (Finished(phases) == |phases|) <==> StepsLeft(phases) == 0
  {
    if phases != [] {
      LeftNothing(phases[..|phases| - 1]);
      FinishedBound(phases[..|phases| - 1]);
    }
  }

  lemma {:induction false} HoldingHasLeft(phases: seq<Phase>, i: nat)
    ensures i < |phases| && phases[i] == Unlaunched ==> StepsLeft(phases) >= 5
  {
    if i < |phases| && phases[i] == Unlaunched && i < |phases| - 1 {
      HoldingHasLeft(phases[..|phases| - 1], i);
    }
  }
}
