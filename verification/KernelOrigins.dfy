/** Whatever the interleaving, what runs and what is recorded is what was submitted: the n-th submission gets the
    id n, and every task, job and dispatch of that id carries its instance. */
module KernelOrigins {
  import opened Options
  import opened KernelCore
  import opened KernelInvariants
  import opened KernelRuns
  import opened KernelTheorems

  datatype Origin = Origin(instance: string, every: int)

  function OriginOf(step: Step): seq<Origin> {
    match step case SubmitTask(instance, every, _) => [Origin(instance, every)] case _ => []
  }

  /** What a run submits, in order. */
  function Submitted(steps: seq<Step>): seq<Origin> {
    if steps == [] then [] else OriginOf(steps[0]) + Submitted(steps[1..])
  }

  predicate TaskFrom(t: Task, origins: seq<Origin>) {
    1 <= t.id <= |origins| && origins[t.id - 1] == Origin(t.instance, t.every)
  }

  predicate WorkFrom(id: nat, instance: string, origins: seq<Origin>) {
    1 <= id <= |origins| && origins[id - 1].instance == instance
  }

  ghost predicate AllFrom(queue: seq<Task>, jobs: map<nat, Job>, log: seq<Dispatch>, origins: seq<Origin>) {
    && (forall t | t in queue :: TaskFrom(t, origins))
    && (forall j | j in jobs :: WorkFrom(jobs[j].taskId, jobs[j].instance, origins))
    && (forall d | d in log :: WorkFrom(d.taskId, d.instance, origins))
  }

  ghost predicate Originates(s: Sys, origins: seq<Origin>) {
    s.k.nextId == |origins| && AllFrom(s.k.queue, s.jobs, s.log, origins)
  }

  lemma TakeFrom(k: KState, now: int, origins: seq<Origin>)
    requires forall t | t in k.queue :: TaskFrom(t, origins)
    ensures var (k', taken) := Take(k, now, true);
            && k'.nextId == k.nextId && (forall t | t in k'.queue :: TaskFrom(t, origins))
            && (taken.Some? ==> TaskFrom(taken.value, origins))
  {
    hide Take;
    var i := TakeIs(k, now, true);
    var (k', taken) := Take(k, now, true);
    if taken.Some? {
      assert k.queue[i] in k.queue;
      forall t | t in k'.queue
        ensures TaskFrom(t, origins)
      {
        if k.queue[i].every > 0 {
          var j :| 0 <= j < |k'.queue| && k'.queue[j] == t;
          assert k.queue[j] in k.queue;
        }
      }
    }
  }

  lemma StepOriginates(c: Config, s: Sys, step: Step, origins: seq<Origin>)
    requires Enabled(c, s, step) && Originates(s, origins)
    ensures Originates(Apply(c, s, step), origins + OriginOf(step))
  {
    match step {
      case SubmitTask(_, _, _) => SubmitOriginates(c, s, step, origins);
      case CancelTask(_) => CancelOriginates(c, s, step, origins);
      case LoopTake(_) => TakeOriginates(c, s, step, origins);
      case DrainTake(_) => TakeOriginates(c, s, step, origins);
      case JobRecord(_, _, _) => RecordOriginates(c, s, step, origins);
      case _ => OthersOriginate(c, s, step, origins);
    }
  }

  lemma SubmitOriginates(c: Config, s: Sys, step: Step, origins: seq<Origin>)
    requires step.SubmitTask? && Enabled(c, s, step) && Originates(s, origins)
    ensures Originates(Apply(c, s, step), origins + OriginOf(step))
  {
    var more := origins + OriginOf(step);
    forall t: Task | TaskFrom(t, origins)
      ensures TaskFrom(t, more)
    {
    }
    forall id: nat, instance | WorkFrom(id, instance, origins)
      ensures WorkFrom(id, instance, more)
    {
    }
  }

  lemma CancelOriginates(c: Config, s: Sys, step: Step, origins: seq<Origin>)
    requires step.CancelTask? && Enabled(c, s, step) && Originates(s, origins)
    ensures Originates(Apply(c, s, step), origins + OriginOf(step))
  {
    hide TaskFrom, WorkFrom, IndexOfId;
    assert origins + [] == origins;
  }

  lemma TakeOriginates(c: Config, s: Sys, step: Step, origins: seq<Origin>)
    requires (step.LoopTake? || step.DrainTake?) && Enabled(c, s, step) && Originates(s, origins)
    ensures Originates(Apply(c, s, step), origins + OriginOf(step))
  {
    hide Take;
    TakeFrom(s.k, step.now, origins);
    assert origins + [] == origins;
  }

  lemma RecordOriginates(c: Config, s: Sys, step: Step, origins: seq<Origin>)
    requires step.JobRecord? && Enabled(c, s, step) && Originates(s, origins)
    ensures Originates(Apply(c, s, step), origins + OriginOf(step))
  {
    hide TaskFrom, WorkFrom, Latest;
    assert origins + [] == origins;
  }

  lemma OthersOriginate(c: Config, s: Sys, step: Step, origins: seq<Origin>)
    requires !step.SubmitTask? && !step.CancelTask? && !step.LoopTake? && !step.DrainTake? && !step.JobRecord?
    requires Enabled(c, s, step) && Originates(s, origins)
    ensures Originates(Apply(c, s, step), origins + OriginOf(step))
  {
    hide TaskFrom, WorkFrom, SlotsOf, OwnedBy, Gap;
    assert origins + [] == origins;
  }

  lemma {:induction false} RunOriginates(c: Config, s: Sys, steps: seq<Step>, origins: seq<Origin>)
    requires CanRun(c, s, steps) && Originates(s, origins)
    ensures Originates(RunSteps(c, s, steps), origins + Submitted(steps))
    decreases |steps|
  {
    hide Apply, Enabled, Originates, OriginOf;
    if steps == [] {
      assert origins + [] == origins;
    } else {
      StepOriginates(c, s, steps[0], origins);
      RunOriginates(c, Apply(c, s, steps[0]), steps[1..], origins + OriginOf(steps[0]));
      assert origins + OriginOf(steps[0]) + Submitted(steps[1..]) == origins + Submitted(steps);
    }
  }

  /** In every interleaving: ids count the submissions, and each queued task, each job in hand and each dispatch
      recorded is of the submission its id names, on that submission's instance. */
  lemma DispatchedAsSubmitted(c: Config, steps: seq<Step>)
    requires CanRun(c, Initial(), steps)
    ensures var s, all := Reach(c, steps), Submitted(steps);
            && s.k.nextId == |all|
            && (forall t | t in s.k.queue :: 1 <= t.id <= |all| && all[t.id - 1] == Origin(t.instance, t.every))
            && (forall j | j in s.jobs ::
                  1 <= s.jobs[j].taskId <= |all| && all[s.jobs[j].taskId - 1].instance == s.jobs[j].instance)
            && (forall d | d in s.log :: 1 <= d.taskId <= |all| && all[d.taskId - 1].instance == d.instance)
  {
    hide Submitted, RunSteps, CanRun;
    assert Originates(Initial(), []);
    RunOriginates(c, Initial(), steps, []);
    assert [] + Submitted(steps) == Submitted(steps);
  }
}
