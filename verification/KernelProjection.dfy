/** Every step of the parallel kernel is a queue event or leaves the queue alone, so what holds of all
    event runs holds of every interleaving. */
module KernelProjection {
  import opened Options
  import opened KernelCore
  import opened KernelFairness
  import opened KernelInvariants
  import opened KernelRuns
  import opened KernelTheorems

  /** The part of the kernel's state the queue events read and write. */
  function Core(k: KState): KState { KState(k.queue, k.inFlight, [], k.nextId, 0, false) }

  function EventOf(s: Sys, step: Step): seq<Event> {
    match step
    case SubmitTask(instance, every, due) => [SubmitAt(instance, every, due)]
    case CancelTask(id) => [CancelAt(id)]
    case LoopTake(now) => [TakeAt(now)]
    case DrainTake(now) => [TakeAt(now)]
    case JobRelease(j) => if j in s.jobs then [ReleaseAt(s.jobs[j].instance)] else []
    case _ => []
  }

  /** The queue events of a run, in order. */
  function EventsOf(c: Config, s: Sys, steps: seq<Step>): seq<Event>
    requires CanRun(c, s, steps)
    decreases |steps|
  {
    if steps == [] then [] else EventOf(s, steps[0]) + EventsOf(c, Apply(c, s, steps[0]), steps[1..])
  }

  lemma StepProjects(c: Config, s: Sys, step: Step)
    requires Enabled(c, s, step)
    ensures |EventOf(s, step)| <= 1
    ensures Core(Apply(c, s, step).k)
         == if EventOf(s, step) == [] then Core(s.k) else After(Core(s.k), EventOf(s, step)[0])
  {
    hide Take, Enqueue, Unqueue, Release, Record, Raise, SlotsOf, OwnedBy, Core, Gap, IndexOfId;
    match step {
      case LoopTake(now) => CoreTake(s.k, now);
      case DrainTake(now) => CoreTake(s.k, now);
      case SubmitTask(instance, every, due) => CoreQueueing(s.k, instance, every, due, 0);
      case CancelTask(id) => CoreQueueing(s.k, "", 0, 0, id);
      case JobRecord(j, status, summary) =>
        CoreOthers(s.k, Dispatch(s.jobs[j].taskId, s.jobs[j].instance, status, summary), c.historyLimit, "");
      case JobRelease(j) => CoreOthers(s.k, Dispatch(0, "", Ran, ""), 0, s.jobs[j].instance);
      case _ => CoreOthers(s.k, Dispatch(0, "", Ran, ""), 0, "");
    }
  }

  lemma CoreTake(k: KState, now: int)
    ensures Core(Take(k, now, true).0) == Take(Core(k), now, true).0
    ensures Take(k, now, true).1 == None ==> Take(k, now, true).0 == k
  {
    hide Best;
  }

  lemma CoreQueueing(k: KState, instance: string, every: int, due: int, id: nat)
    ensures Core(Enqueue(k, instance, every, due)) == Enqueue(Core(k), instance, every, due)
    ensures Core(Unqueue(k, id)) == Unqueue(Core(k), id)
    ensures IndexOfId(k.queue, id) == None ==> Unqueue(k, id) == k
  {
    hide IndexOfId;
  }

  /** Raising an interrupt, emptying its slot and recording leave the queue's part alone. */
  lemma CoreOthers(k: KState, d: Dispatch, limit: nat, instance: string)
    ensures Core(Record(k, d, limit)) == Core(k) && Core(Raise(k)) == Core(k) && Core(k.(wake := false)) == Core(k)
    ensures Core(Release(k, instance)) == Release(Core(k), instance)
  {
    hide Latest;
  }

  // -- bounded bypass ------------------------------------------------------------------------------

  predicate TakeStep(step: Step) { step.LoopTake? || step.DrainTake? }

  /** This step takes that task. */
  predicate StepTakes(s: Sys, step: Step, id: nat) {
    TakeStep(step) && var taken := Take(s.k, step.now, true).1; taken.Some? && taken.value.id == id
  }

  function TakeSteps(steps: seq<Step>): nat {
    if steps == [] then 0 else (if TakeStep(steps[0]) then 1 else 0) + TakeSteps(steps[1..])
  }

  predicate TakenDuring(c: Config, s: Sys, steps: seq<Step>, id: nat)
    requires CanRun(c, s, steps)
    decreases |steps|
  {
    steps != [] && (StepTakes(s, steps[0], id) || TakenDuring(c, Apply(c, s, steps[0]), steps[1..], id))
  }

  /** A step that leaves the waiting task its chance. */
  predicate FairStep(s: Sys, step: Step, task: Task, start: int) {
    match step
    case LoopTake(now) => start <= now && Free(s, task)
    case DrainTake(now) => start <= now && Free(s, task)
    case SubmitTask(_, _, due) => start <= due
    case CancelTask(id) => id != task.id
    case _ => true
  }

  /** Until the task is taken it stays queued and every step is fair to it. */
  predicate FairRun(c: Config, s: Sys, steps: seq<Step>, task: Task, start: int)
    requires CanRun(c, s, steps)
    decreases |steps|
  {
    steps == [] ||
    (task in s.k.queue && FairStep(s, steps[0], task, start)
     && (StepTakes(s, steps[0], task.id) || FairRun(c, Apply(c, s, steps[0]), steps[1..], task, start)))
  }

  lemma TakesCore(s: Sys, step: Step, id: nat)
    requires TakeStep(step)
    ensures EventOf(s, step) == [TakeAt(step.now)]
    ensures StepTakes(s, step, id) == Takes(Core(s.k), TakeAt(step.now), id)
  {
    hide Best;
  }

  lemma IndexOfTask(k: KState, task: Task)
    requires UniqueIds(k) && task in k.queue
    ensures IndexOfId(k.queue, task.id).Some? && k.queue[IndexOfId(k.queue, task.id).value] == task
  {
    hide IndexOfId;
    var i :| 0 <= i < |k.queue| && k.queue[i] == task;
    var p := IndexOfId(k.queue, task.id);
    assert p != None;
  }

  lemma FairEvent(s: Sys, step: Step, task: Task, start: int)
    requires UniqueIds(s.k) && task in s.k.queue && FairStep(s, step, task, start)
    ensures var p := IndexOfId(s.k.queue, task.id);
            p.Some? && s.k.queue[p.value] == task
            && forall e | e in EventOf(s, step) :: Fair(Core(s.k), e, p.value, start)
  {
    hide IndexOfId;
    IndexOfTask(s.k, task);
  }

  /** A run fair to a task projects to events that are. */
  lemma {:induction false} FairProjects(c: Config, s: Sys, steps: seq<Step>, task: Task, start: int)
    requires CanRun(c, s, steps) && FairRun(c, s, steps, task, start) && UniqueIds(s.k)
    ensures FairUntilTaken(Core(s.k), EventsOf(c, s, steps), task.id, start)
    ensures TakeCount(EventsOf(c, s, steps)) == TakeSteps(steps)
    ensures TakenIn(Core(s.k), EventsOf(c, s, steps), task.id) ==> TakenDuring(c, s, steps, task.id)
    decreases |steps|
  {
    hide Take, After, Apply, Enabled, IndexOfId, EventOf, Fair, FairStep, Takes, StepTakes, UniqueIds, Core;
    if steps != [] {
      var step, s' := steps[0], Apply(c, s, steps[0]);
      var es, rest := EventOf(s, step), EventsOf(c, s', steps[1..]);
      StepProjects(c, s, step);
      StepKeepsIds(c, s, step);
      FairEvent(s, step, task, start);
      EventCounts(s, step, task.id);
      CoreQueue(s.k);
      TakeCountAfter(c, s', steps[1..]);
      if es != [] {
        assert (es + rest)[0] == es[0] && (es + rest)[1..] == rest;
      } else {
        assert es + rest == rest;
      }
      if !StepTakes(s, step, task.id) {
        FairProjects(c, s', steps[1..], task, start);
      }
    }
  }

  lemma CoreQueue(k: KState)
    ensures Core(k).queue == k.queue
  {
  }

  lemma {:induction false} TakeCountAfter(c: Config, s: Sys, steps: seq<Step>)
    requires CanRun(c, s, steps)
    ensures TakeCount(EventsOf(c, s, steps)) == TakeSteps(steps)
    decreases |steps|
  {
    hide Apply, Enabled, EventOf;
    if steps != [] {
      var es, rest := EventOf(s, steps[0]), EventsOf(c, Apply(c, s, steps[0]), steps[1..]);
      TakeCountAfter(c, Apply(c, s, steps[0]), steps[1..]);
      EventCounts(s, steps[0], 0);
      if es != [] {
        assert (es + rest)[0] == es[0] && (es + rest)[1..] == rest;
      } else {
        assert es + rest == rest;
      }
    }
  }

  lemma EventCounts(s: Sys, step: Step, id: nat)
    ensures |EventOf(s, step)| <= 1
    ensures TakeStep(step) <==> EventOf(s, step) != [] && EventOf(s, step)[0].TakeAt?
    ensures StepTakes(s, step, id) <==> EventOf(s, step) != [] && Takes(Core(s.k), EventOf(s, step)[0], id)
    ensures StepTakes(s, step, id) ==> step.now == EventOf(s, step)[0].now
  {
    hide Take;
    if TakeStep(step) {
      TakesCore(s, step, id);
    }
  }

  lemma StepKeepsIds(c: Config, s: Sys, step: Step)
    requires Enabled(c, s, step) && UniqueIds(s.k)
    ensures UniqueIds(Apply(c, s, step).k) && s.k.nextId <= Apply(c, s, step).k.nextId
  {
    hide Take, After, Apply, Enabled, EventOf;
    StepProjects(c, s, step);
    if EventOf(s, step) != [] {
      AfterKeepsUniqueIds(Core(s.k), EventOf(s, step)[0]);
    }
    CoreIds(s.k);
    CoreIds(Apply(c, s, step).k);
  }

  lemma CoreIds(k: KState)
    ensures UniqueIds(Core(k)) == UniqueIds(k) && Core(k).nextId == k.nextId
  {
  }

  /** In every interleaving: a queued task due by `start`, whose instance is free at every take, is
      taken within one more take than there are tasks sorting before it. */
  lemma BoundedBypassOfRuns(c: Config, before: seq<Step>, steps: seq<Step>, p: nat, start: int)
    requires CanRun(c, Initial(), before) && CanRun(c, Reach(c, before), steps)
    requires var q := Reach(c, before).k.queue;
             p < |q| && q[p].due <= start && TakeSteps(steps) > |AheadIds(q, p)|
             && FairRun(c, Reach(c, before), steps, q[p], start)
    ensures TakenDuring(c, Reach(c, before), steps, Reach(c, before).k.queue[p].id)
  {
    hide Reach, FairRun, FairUntilTaken, TakenIn, TakenDuring, TakeCount, TakeSteps, EventsOf, AheadIds, UniqueIds,
      SingleWriter, Conservation, HistoryIsTail, WakeInv, PoolInv, DrainInv;
    var s := Reach(c, before);
    ReachInv(c, before);
    CoreIds(s.k);
    FairProjects(c, s, steps, s.k.queue[p], start);
    BoundedBypass(Core(s.k), EventsOf(c, s, steps), p, start);
  }

  // -- the spacing of a recurring task -------------------------------------------------------------

  /** The clock readings at which a run takes a task, in order. */
  function TakenAt(c: Config, s: Sys, steps: seq<Step>, id: nat): seq<int>
    requires CanRun(c, s, steps)
    decreases |steps|
  {
    if steps == [] then []
    else (if StepTakes(s, steps[0], id) then [steps[0].now] else [])
         + TakenAt(c, Apply(c, s, steps[0]), steps[1..], id)
  }

  lemma {:induction false} FiringsProject(c: Config, s: Sys, steps: seq<Step>, id: nat)
    requires CanRun(c, s, steps)
    ensures TakenAt(c, s, steps, id) == Firings(Core(s.k), EventsOf(c, s, steps), id)
    decreases |steps|
  {
    hide Take, After, Apply, Enabled, EventOf, Takes, StepTakes, Core;
    if steps != [] {
      var step, s' := steps[0], Apply(c, s, steps[0]);
      var es, rest := EventOf(s, step), EventsOf(c, s', steps[1..]);
      StepProjects(c, s, step);
      EventCounts(s, step, id);
      FiringsProject(c, s', steps[1..], id);
      if es != [] {
        assert (es + rest)[0] == es[0] && (es + rest)[1..] == rest;
      } else {
        assert es + rest == rest;
        assert [] + TakenAt(c, s', steps[1..], id) == TakenAt(c, s', steps[1..], id);
      }
    }
  }

  /** In every interleaving, and for any clock readings: from its submission on, the i-th and j-th
      times a recurring task is taken are at least j - i periods apart. */
  lemma FiringsSpanOfRuns(c: Config, before: seq<Step>, steps: seq<Step>, id: nat, i: nat, j: nat)
    requires CanRun(c, Initial(), before) && CanRun(c, Reach(c, before), steps)
    requires id in Reach(c, before).periods && Reach(c, before).periods[id] > 0
    requires i <= j < |TakenAt(c, Reach(c, before), steps, id)|
    ensures var times := TakenAt(c, Reach(c, before), steps, id);
            times[j] - times[i] >= (j - i) * Reach(c, before).periods[id]
  {
    hide Reach, Firings, TakenAt, EventsOf, UniqueIds,
      SingleWriter, Conservation, HistoryIsTail, WakeInv, PoolInv, DrainInv;
    var s := Reach(c, before);
    ReachInv(c, before);
    CoreIds(s.k);
    FiringsProject(c, s, steps, id);
    FiringsSpan(Core(s.k), EventsOf(c, s, steps), id, s.periods[id], i, j);
  }

  // -- when a recurring task is next due -----------------------------------------------------------

  /** No step takes the task or cancels it. */
  predicate Untouched(c: Config, s: Sys, steps: seq<Step>, id: nat)
    requires CanRun(c, s, steps)
    decreases |steps|
  {
    steps == [] ||
    (!StepTakes(s, steps[0], id) && steps[0] != CancelTask(id)
     && Untouched(c, Apply(c, s, steps[0]), steps[1..], id))
  }

  /** An event that neither takes nor cancels a task leaves it as it is in the queue. */
  lemma OtherEventKeepsTask(k: KState, e: Event, t: Task)
    requires UniqueIds(k) && t in k.queue && !Takes(k, e, t.id) && e != CancelAt(t.id)
    ensures t in After(k, e).queue
  {
    hide IndexOfId, Best;
    var p :| 0 <= p < |k.queue| && k.queue[p] == t;
    match e {
      case TakeAt(now) => OtherTakeKeepsTask(k, now, p);
      case CancelAt(id) =>
        if IndexOfId(k.queue, id).Some? {
          KeptElsewhere(k.queue, IndexOfId(k.queue, id).value, p);
        }
      case SubmitAt(_, _, _) => assert After(k, e).queue[p] == t;
      case ReleaseAt(_) =>
    }
  }

  lemma KeptElsewhere<T>(q: seq<T>, i: nat, p: nat)
    requires i < |q| && p < |q| && i != p
    ensures q[p] in q[..i] + q[i + 1..]
  {
    assert q[p] == (q[..i] + q[i + 1..])[if p < i then p else p - 1];
  }

  lemma OtherTakeKeepsTask(k: KState, now: int, p: nat)
    requires UniqueIds(k) && p < |k.queue| && !Takes(k, TakeAt(now), k.queue[p].id)
    ensures k.queue[p] in Take(k, now, true).0.queue
  {
    hide Take;
    var i := TakeIs(k, now, true);
    var (k', taken) := Take(k, now, true);
    if taken.Some? {
      assert i != p;
      if k.queue[i].every > 0 {
        assert k'.queue[p] == k.queue[p];
      } else {
        KeptElsewhere(k.queue, i, p);
      }
    }
  }

  lemma OtherStepKeepsTask(c: Config, s: Sys, step: Step, t: Task)
    requires Enabled(c, s, step) && UniqueIds(s.k) && t in s.k.queue
    requires !StepTakes(s, step, t.id) && step != CancelTask(t.id)
    ensures t in Apply(c, s, step).k.queue
  {
    hide Take, After, Apply, Enabled, IndexOfId, Takes, StepTakes, UniqueIds;
    StepProjects(c, s, step);
    EventCounts(s, step, t.id);
    CoreIds(s.k);
    CoreQueue(s.k);
    CoreQueue(Apply(c, s, step).k);
    if EventOf(s, step) != [] {
      OtherEventKeepsTask(Core(s.k), EventOf(s, step)[0], t);
    }
  }

  lemma {:induction false} UntouchedKeepsTask(c: Config, s: Sys, steps: seq<Step>, t: Task)
    requires CanRun(c, s, steps) && UniqueIds(s.k) && t in s.k.queue && Untouched(c, s, steps, t.id)
    ensures t in RunSteps(c, s, steps).k.queue
    decreases |steps|
  {
    hide Apply, Enabled, StepTakes, UniqueIds;
    if steps != [] {
      OtherStepKeepsTask(c, s, steps[0], t);
      StepKeepsIds(c, s, steps[0]);
      UntouchedKeepsTask(c, Apply(c, s, steps[0]), steps[1..], t);
    }
  }

  /** The step that takes a recurring task leaves it queued, due one period after the reading. */
  lemma TakingRearms(c: Config, s: Sys, step: Step, id: nat)
    requires Enabled(c, s, step) && TakeStep(step) && StepTakes(s, step, id)
    ensures exists t ::
              && t in s.k.queue && t.id == id && t.due <= step.now && t.instance !in s.k.inFlight
              && (t.every > 0 ==> t.(due := step.now + t.every) in Apply(c, s, step).k.queue)
  {
    hide Take, SlotsOf, OwnedBy;
    var i := TakeIs(s.k, step.now, true);
    var t := s.k.queue[i];
    assert t in s.k.queue && t.id == id;
    if t.every > 0 {
      assert Take(s.k, step.now, true).0.queue[i] == t.(due := step.now + t.every);
    }
  }

  lemma OnlyTask(k: KState, t: Task, u: Task)
    requires UniqueIds(k) && t in k.queue && u in k.queue && t.id == u.id
    ensures t == u
  {
    var i :| 0 <= i < |k.queue| && k.queue[i] == t;
    var j :| 0 <= j < |k.queue| && k.queue[j] == u;
  }

  /** In every interleaving: from the step that takes a recurring task to the next one that takes or
      cancels it, the task is queued, once, and due exactly one submitted period after that step's reading
      of the clock. */
  lemma NextFiringOfRuns(c: Config, before: seq<Step>, step: Step, steps: seq<Step>, id: nat)
    requires CanRun(c, Initial(), before) && Enabled(c, Reach(c, before), step)
    requires TakeStep(step) && StepTakes(Reach(c, before), step, id)
    requires id in Reach(c, before).periods && Reach(c, before).periods[id] > 0
    requires var s := Apply(c, Reach(c, before), step); CanRun(c, s, steps) && Untouched(c, s, steps, id)
    ensures var q := RunSteps(c, Apply(c, Reach(c, before), step), steps).k.queue;
            && (exists t :: t in q && t.id == id)
            && (forall t | t in q && t.id == id :: t.due == step.now + Reach(c, before).periods[id])
  {
    hide Reach, Apply, Enabled, StepTakes, UniqueIds, CanRun, RunSteps, Untouched,
      SingleWriter, Conservation, HistoryIsTail, WakeInv, PoolInv, DrainInv;
    var s := Reach(c, before);
    ReachInv(c, before);
    TakingRearms(c, s, step, id);
    var t :| && t in s.k.queue && t.id == id
             && (t.every > 0 ==> t.(due := step.now + t.every) in Apply(c, s, step).k.queue);
    var s' := Apply(c, s, step);
    var armed := t.(due := step.now + t.every);
    StepKeepsIds(c, s, step);
    UntouchedKeepsTask(c, s', steps, armed);
    RunKeepsIds(c, s', steps);
    var end := RunSteps(c, s', steps);
    forall u | u in end.k.queue && u.id == id
      ensures u == armed
    {
      OnlyTask(end.k, u, armed);
    }
  }

  lemma {:induction false} RunKeepsIds(c: Config, s: Sys, steps: seq<Step>)
    requires CanRun(c, s, steps) && UniqueIds(s.k)
    ensures UniqueIds(RunSteps(c, s, steps).k)
    decreases |steps|
  {
    hide Apply, Enabled, UniqueIds;
    if steps != [] {
      StepKeepsIds(c, s, steps[0]);
      RunKeepsIds(c, Apply(c, s, steps[0]), steps[1..]);
    }
  }
}
