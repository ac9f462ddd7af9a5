/** The parallel kernel as interleaved steps: submitters, cancellers, the Run loop, one
    drainConcurrent call and the dispatch goroutines each take one atomic step at a time. Every
    locked region is one step; raising the interrupt after it is another. */
module KernelRuns {
  import opened Options
  import opened KernelCore
  import Fairness = KernelFairness

  /** One taken task, from its reservation to the end of its goroutine. */
  datatype Phase =
    | Taken      // reserved, waiting for a worker slot
    | Running    // dispatched
    | Recorded   // its outcome is in the history
    | Released   // its reservation is dropped, its interrupt not yet raised
    | Raised     // its slot and wait-group count are still held

  datatype Owner = RunLoop | Drainer

  datatype Job = Job(taskId: nat, instance: string, owner: Owner, phase: Phase)

  /** Where Run stands. `seen` is the clock reading of a take that found nothing, `slept` the
      reading the sleep was bounded from, `bound` the timer. */
  datatype LoopPc =
    | Stopped
    | Top
    | Scanning(launched: nat)
    | Acquiring(job: nat, launched: nat)
    | Drowsy(seen: int)
    | Asleep(seen: int, slept: int, bound: Option<int>)
    | Waiting

  /** Where drainConcurrent stands; `quiet` is the reading of the take that ended its last batch. */
  datatype DrainPc =
    | Idle
    | CheckingRoom
    | Taking
    | Admitting(job: nat)
    | BatchWait(quiet: Option<int>)
    | Drained(quiet: Option<int>)

  datatype Drain = Drain(pc: DrainPc, max: nat, done: nat, launched: nat)

  datatype Config = Config(workers: nat, historyLimit: nat)

  /** The kernel, its threads, and three records no thread reads: every dispatch ever made, every
      id ever cancelled, and the period every id was submitted with. */
  datatype Sys = Sys(
    k: KState,
    jobs: map<nat, Job>,
    nextJob: nat,
    raising: nat,
    stop: bool,
    loop: LoopPc,
    drain: Drain,
    log: seq<Dispatch>,
    removed: set<nat>,
    periods: map<nat, int>)

  function Initial(): Sys {
    Sys(KState([], {}, [], 0, 0, false), map[], 0, 0, false, Stopped, Drain(Idle, 0, 0, 0), [], {}, map[])
  }

  datatype Step =
    | SubmitTask(instance: string, every: int, due: int)
    | RaiseSubmit
    | CancelTask(id: nat)
    | StopRun
    | StartRun
    | LoopTop
    | LoopTake(now: int)
    | LoopLaunch
    | LoopSleep(now: int)
    | LoopWake
    | LoopTimer
    | LoopStopped
    | LoopReturn
    | JobRecord(job: nat, status: Status, summary: string)
    | JobRelease(job: nat)
    | JobRaise(job: nat)
    | JobFinish(job: nat)
    | DrainStart(max: nat)
    | DrainCheck
    | DrainTake(now: int)
    | DrainLaunch
    | DrainBatchDone

  // -- sets of jobs --------------------------------------------------------------------------------

  predicate HoldsInstance(j: Job) { j.phase.Taken? || j.phase.Running? || j.phase.Recorded? }

  predicate HoldsSlot(j: Job) { !j.phase.Taken? }

  predicate Unrecorded(j: Job) { j.phase.Taken? || j.phase.Running? }

  function OwnedBy(jobs: map<nat, Job>, owner: Owner): set<nat> {
    set j | j in jobs && jobs[j].owner == owner
  }

  function SlotsOf(jobs: map<nat, Job>, owner: Owner): set<nat> {
    set j | j in jobs && jobs[j].owner == owner && HoldsSlot(jobs[j])
  }

  predicate InPhase(s: Sys, j: nat, phase: Phase) { j in s.jobs && s.jobs[j].phase == phase }

  // -- steps ---------------------------------------------------------------------------------------

  predicate Enabled(c: Config, s: Sys, step: Step) {
    match step
    case SubmitTask(_, _, _) => true
    case RaiseSubmit => s.raising > 0
    case CancelTask(_) => true
    case StopRun => true
    case StartRun => s.loop.Stopped?
    case LoopTop => s.loop.Top?
    case LoopTake(_) => s.loop.Scanning?
    case LoopLaunch =>
      s.loop.Acquiring? && InPhase(s, s.loop.job, Taken) && |SlotsOf(s.jobs, RunLoop)| < c.workers
    case LoopSleep(_) => s.loop.Drowsy?
    case LoopWake => s.loop.Asleep? && s.k.wake
    case LoopTimer => s.loop.Asleep? && s.loop.bound.Some?
    case LoopStopped => s.loop.Asleep? && s.stop
    case LoopReturn => s.loop.Waiting? && OwnedBy(s.jobs, RunLoop) == {}
    case JobRecord(j, _, _) => InPhase(s, j, Running)
    case JobRelease(j) => InPhase(s, j, Recorded)
    case JobRaise(j) => InPhase(s, j, Released)
    case JobFinish(j) => InPhase(s, j, Raised)
    case DrainStart(_) => s.drain.pc.Idle? || s.drain.pc.Drained?
    case DrainCheck => s.drain.pc.CheckingRoom?
    case DrainTake(_) => s.drain.pc.Taking?
    case DrainLaunch =>
      s.drain.pc.Admitting? && InPhase(s, s.drain.pc.job, Taken) && |SlotsOf(s.jobs, Drainer)| < c.workers
    case DrainBatchDone => s.drain.pc.BatchWait? && OwnedBy(s.jobs, Drainer) == {}
  }

  function Advance(s: Sys, j: nat, phase: Phase): map<nat, Job>
    requires j in s.jobs
  {
    s.jobs[j := s.jobs[j].(phase := phase)]
  }

  function Apply(c: Config, s: Sys, step: Step): Sys
    requires Enabled(c, s, step)
  {
    match step
    case SubmitTask(instance, every, due) =>
      s.(k := Enqueue(s.k, instance, every, due),
         periods := s.periods[s.k.nextId + 1 := every], raising := s.raising + 1)
    case RaiseSubmit => s.(k := Raise(s.k), raising := s.raising - 1)
    case CancelTask(id) =>
      if IndexOfId(s.k.queue, id) == None then s
      else s.(k := Unqueue(s.k, id), removed := s.removed + {id})
    case StopRun => s.(stop := true)
    case StartRun => s.(loop := Top, stop := false)
    case LoopTop => s.(loop := if s.stop then Waiting else Scanning(0))
    case LoopTake(now) =>
      (match Take(s.k, now, true)
       case (_, None) => s.(loop := if s.loop.launched == 0 then Drowsy(now) else Top)
       case (k, Some(t)) =>
         s.(k := k, jobs := s.jobs[s.nextJob := Job(t.id, t.instance, RunLoop, Taken)],
            nextJob := s.nextJob + 1, loop := Acquiring(s.nextJob, s.loop.launched)))
    case LoopLaunch =>
      s.(jobs := Advance(s, s.loop.job, Running), loop := Scanning(s.loop.launched + 1))
    case LoopSleep(now) =>
      s.(loop := Asleep(s.loop.seen, now, Gap(s.k.queue, |s.k.queue|, now)))
    case LoopWake => s.(k := s.k.(wake := false), loop := Top)
    case LoopTimer => s.(loop := Top)
    case LoopStopped => s.(loop := Top)
    case LoopReturn => s.(loop := Stopped)
    case JobRecord(j, status, summary) =>
      var d := Dispatch(s.jobs[j].taskId, s.jobs[j].instance, status, summary);
      s.(k := Record(s.k, d, c.historyLimit), log := s.log + [d], jobs := Advance(s, j, Recorded))
    case JobRelease(j) => s.(k := Release(s.k, s.jobs[j].instance), jobs := Advance(s, j, Released))
    case JobRaise(j) => s.(k := Raise(s.k), jobs := Advance(s, j, Raised))
    case JobFinish(j) =>
      s.(jobs := s.jobs - {j},
         drain := if s.jobs[j].owner == Drainer then s.drain.(done := s.drain.done + 1) else s.drain)
    case DrainStart(max) => s.(drain := Drain(CheckingRoom, max, 0, 0))
    case DrainCheck =>
      s.(drain := s.drain.(pc := if s.drain.done + s.drain.launched < s.drain.max then Taking else BatchWait(None)))
    case DrainTake(now) =>
      (match Take(s.k, now, true)
       case (_, None) => s.(drain := s.drain.(pc := BatchWait(Some(now))))
       case (k, Some(t)) =>
         s.(k := k, jobs := s.jobs[s.nextJob := Job(t.id, t.instance, Drainer, Taken)],
            nextJob := s.nextJob + 1,
            drain := s.drain.(pc := Admitting(s.nextJob), launched := s.drain.launched + 1)))
    case DrainLaunch =>
      s.(jobs := Advance(s, s.drain.pc.job, Running), drain := s.drain.(pc := CheckingRoom))
    case DrainBatchDone =>
      s.(drain := if s.drain.launched == 0 then s.drain.(pc := Drained(s.drain.pc.quiet))
                  else s.drain.(pc := CheckingRoom, launched := 0))
  }

  // -- what every reachable state satisfies --------------------------------------------------------

  function Ids(q: seq<Task>): set<nat> { set t | t in q :: t.id }

  function InHand(jobs: map<nat, Job>): set<nat> {
    set j | j in jobs && Unrecorded(jobs[j]) :: jobs[j].taskId
  }

  function LoggedIds(log: seq<Dispatch>): set<nat> { set d | d in log :: d.taskId }

  /** Ids are unique, in 1..nextId, and keep the period they were submitted with. */
  ghost predicate IdsInv(k: KState, jobs: map<nat, Job>, nextJob: nat, logged: set<nat>, removed: set<nat>,
                         periods: map<nat, int>) {
    && Fairness.UniqueIds(k)
    && (forall x :: x in periods <==> 1 <= x <= k.nextId)
    && (forall t | t in k.queue :: t.id in periods && t.every == periods[t.id])
    && (forall j | j in jobs :: j < nextJob && jobs[j].taskId in periods)
    && logged <= periods.Keys && removed <= periods.Keys
  }

  /** Single writer: an instance is in flight exactly when one job on it is unreleased. */
  ghost predicate SingleWriter(inFlight: set<string>, jobs: map<nat, Job>) {
    && (forall i :: i in inFlight <==> exists j :: j in jobs && HoldsInstance(jobs[j]) && jobs[j].instance == i)
    && (forall j1, j2 | j1 in jobs && j2 in jobs && HoldsInstance(jobs[j1]) && HoldsInstance(jobs[j2])
          && jobs[j1].instance == jobs[j2].instance :: j1 == j2)
  }

  function Bit(b: bool): nat { if b then 1 else 0 }

  /** In how many of the four places a task is: queued, taken, recorded, cancelled. */
  function Places(x: nat, queued: set<nat>, inHand: set<nat>, logged: set<nat>, removed: set<nat>): nat {
    Bit(x in queued) + Bit(x in inHand) + Bit(x in logged) + Bit(x in removed)
  }

  predicate OneShot(periods: map<nat, int>, x: nat) { x in periods && periods[x] <= 0 }

  /** Conservation: a one-shot task is in exactly one place; a recurring task stays queued until
      it is cancelled. */
  ghost predicate Conserved(queued: set<nat>, inHand: set<nat>, logged: set<nat>, removed: set<nat>,
                            periods: map<nat, int>) {
    && (forall x | OneShot(periods, x) :: Places(x, queued, inHand, logged, removed) == 1)
    && (forall x | x in periods && !OneShot(periods, x) :: x in queued <==> x !in removed)
  }

  /** And it is there once: no two jobs, and no two log entries, are of one one-shot task. */
  ghost predicate Once(jobs: map<nat, Job>, log: seq<Dispatch>, periods: map<nat, int>) {
    && (forall j1, j2 | j1 in jobs && j2 in jobs && Unrecorded(jobs[j1]) && Unrecorded(jobs[j2])
          && jobs[j1].taskId == jobs[j2].taskId && OneShot(periods, jobs[j1].taskId) :: j1 == j2)
    && (forall a, b | 0 <= a < |log| && 0 <= b < |log| && log[a].taskId == log[b].taskId
          && OneShot(periods, log[a].taskId) :: a == b)
  }

  /** The history is the tail of the full dispatch log, and `dispatched` its length. */
  ghost predicate HistoryIsTail(c: Config, s: Sys) {
    s.k.history == Latest(s.log, c.historyLimit) && s.k.dispatched == |s.log|
  }

  /** Something will wake a sleeping loop: the slot is full, or a submitter or a releaser has
      changed the state and still owes its interrupt. */
  ghost predicate Rousing(s: Sys) {
    s.k.wake || s.raising > 0 || exists j :: InPhase(s, j, Released)
  }

  predicate Free(s: Sys, t: Task) { t.instance !in s.k.inFlight }

  /** The timer of a sleeping loop fires no later than the task falls due. */
  predicate TimerCovers(loop: LoopPc, t: Task) {
    loop.Asleep? && loop.bound.Some? && loop.slept + loop.bound.value <= t.due
  }

  /** The task fell due after the loop's take looked and before its sleep was bounded. */
  predicate InWindow(loop: LoopPc, t: Task) {
    loop.Asleep? && loop.seen < t.due <= loop.slept
  }

  /** No lost wakeup. */
  ghost predicate WakeInv(s: Sys) {
    match s.loop
    case Drowsy(seen) => forall t | t in s.k.queue && t.due <= seen && Free(s, t) :: Rousing(s)
    case Asleep(_, _, bound) =>
      && (bound.Some? ==> bound.value > 0)
      && forall t | t in s.k.queue && Free(s, t) :: Rousing(s) || TimerCovers(s.loop, t) || InWindow(s.loop, t)
    case _ => true
  }

  predicate AwaitsSlot(jobs: map<nat, Job>, j: nat, owner: Owner) {
    j in jobs && jobs[j].owner == owner && jobs[j].phase.Taken?
  }

  /** Worker slots are never oversubscribed, and a stopped loop has left no job of its own behind. */
  ghost predicate PoolInv(c: Config, loop: LoopPc, drain: DrainPc, jobs: map<nat, Job>) {
    && |SlotsOf(jobs, RunLoop)| <= c.workers
    && |SlotsOf(jobs, Drainer)| <= c.workers
    && (loop.Stopped? ==> OwnedBy(jobs, RunLoop) == {})
    && (loop.Acquiring? ==> AwaitsSlot(jobs, loop.job, RunLoop))
    && (drain.Admitting? ==> AwaitsSlot(jobs, drain.job, Drainer))
  }

  /** A drain never dispatches more than it was asked to: what it has collected and what it has
      in hand stay within `max`, with room for one more where it is about to take. */
  ghost predicate DrainInv(d: Drain, jobs: map<nat, Job>) {
    var live := |OwnedBy(jobs, Drainer)|;
    && live <= d.launched
    && d.done + live <= d.max
    && (d.pc.Taking? ==> d.done + live < d.max)
    && (d.pc.Idle? || d.pc.Drained? ==> live == 0 && d.launched == 0)
    && (d.pc.Drained? && d.pc.quiet == None ==> d.done == d.max)
    && (d.pc.BatchWait? && d.pc.quiet == None ==> d.done + d.launched >= d.max)
  }

  ghost predicate Conservation(s: Sys) {
    && Conserved(Ids(s.k.queue), InHand(s.jobs), LoggedIds(s.log), s.removed, s.periods)
    && Once(s.jobs, s.log, s.periods)
  }

  ghost predicate Inv(c: Config, s: Sys) {
    && IdsInv(s.k, s.jobs, s.nextJob, LoggedIds(s.log), s.removed, s.periods)
    && SingleWriter(s.k.inFlight, s.jobs)
    && Conservation(s)
    && HistoryIsTail(c, s)
    && WakeInv(s)
    && PoolInv(c, s.loop, s.drain.pc, s.jobs)
    && DrainInv(s.drain, s.jobs)
  }
}
