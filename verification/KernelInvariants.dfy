/** Every step of KernelRuns keeps every invariant, hence so does every run. */
module KernelInvariants {
  import opened Options
  import opened KernelCore
  import opened KernelRuns
  import Fairness = KernelFairness

  // -- what one critical section does to the queue -------------------------------------------------

  lemma TakeNothing(k: KState, now: int)
    requires Take(k, now, true).1 == None
    ensures Take(k, now, true).0 == k
    ensures forall t | t in k.queue && t.due <= now :: t.instance in k.inFlight
  {
    NilTakeThenSleep(k, now);
  }

  /** A take removes a one-shot task and re-arms a recurring one; everything else stays. */
  lemma TakeSomething(k: KState, now: int) returns (t0: Task)
    requires Fairness.UniqueIds(k) && Take(k, now, true).1.Some?
    ensures var (k', r) := Take(k, now, true);
            var t := r.value;
            && t0 in k.queue && t.id == t0.id && t.instance == t0.instance && t.every == t0.every
            && t0.instance !in k.inFlight && k' == k.(queue := k'.queue, inFlight := k.inFlight + {t.instance})
            && (forall u | u in k'.queue :: u in k.queue || u == t)
            && Ids(k'.queue) == Ids(k.queue) - (if Recurring(t0) then {} else {t0.id})
            && Fairness.UniqueIds(k')
  {
    hide Best;
    var q := k.queue;
    BestIsSoonest(q, |q|, now, true, k.inFlight);
    Fairness.TakeKeepsUniqueIds(k, now);
    var b := Best(q, |q|, now, true, k.inFlight).value;
    t0 := q[b];
    var (k', r) := Take(k, now, true);
    if Recurring(t0) {
      RearmKeepsIds(q, b, now);
    } else {
      RemovalDropsId(q, b);
    }
  }

  lemma RearmKeepsIds(q: seq<Task>, b: nat, now: int)
    requires b < |q|
    ensures Ids(q[b := Rearmed(q[b], now)]) == Ids(q)
    ensures forall u | u in q[b := Rearmed(q[b], now)] :: u in q || u == Rearmed(q[b], now)
  {
    var q' := q[b := Rearmed(q[b], now)];
    forall x | x in Ids(q)
      ensures x in Ids(q')
    {
      var i :| 0 <= i < |q| && q[i].id == x;
      assert q'[i].id == x;
    }
  }

  lemma RemovalDropsId(q: seq<Task>, b: nat)
    requires b < |q| && forall i, j | 0 <= i < j < |q| :: q[i].id != q[j].id
    ensures Ids(Without(q, b)) == Ids(q) - {q[b].id}
    ensures forall u | u in Without(q, b) :: u in q
  {
    var q' := Without(q, b);
    forall x | x in Ids(q) && x != q[b].id
      ensures x in Ids(q')
    {
      var i :| 0 <= i < |q| && q[i].id == x;
      assert q[i] == q'[if i < b then i else i - 1];
    }
    forall x | x in Ids(q')
      ensures x in Ids(q) - {q[b].id}
    {
      var i :| 0 <= i < |q'| && q'[i].id == x;
      assert q'[i] == q[if i < b then i else i + 1];
    }
  }

  lemma UnqueueDropsId(k: KState, id: nat)
    requires Fairness.UniqueIds(k)
    ensures Ids(Unqueue(k, id).queue) == Ids(k.queue) - {id}
    ensures Unqueue(k, id) == k.(queue := Unqueue(k, id).queue) && Fairness.UniqueIds(Unqueue(k, id))
    ensures forall u | u in Unqueue(k, id).queue :: u in k.queue
    ensures IndexOfId(k.queue, id) == None <==> id !in Ids(k.queue)
  {
    Fairness.AfterKeepsUniqueIds(k, Fairness.CancelAt(id));
    match IndexOfId(k.queue, id)
    case None =>
    case Some(b) =>
      RemovalDropsId(k.queue, b);
      assert k.queue[b] in k.queue;
  }

  lemma EnqueueAddsId(k: KState, instance: string, every: int, due: int)
    requires Fairness.UniqueIds(k)
    ensures Ids(Enqueue(k, instance, every, due).queue) == Ids(k.queue) + {k.nextId + 1}
    ensures Fairness.UniqueIds(Enqueue(k, instance, every, due))
    ensures forall u | u in Enqueue(k, instance, every, due).queue ::
              u in k.queue || u == Task(k.nextId + 1, instance, every, due)
  {
  }

  // -- ids -----------------------------------------------------------------------------------------

  predicate IsJobStep(step: Step) { step.JobRecord? || step.JobRelease? || step.JobRaise? || step.JobFinish? }

  predicate IsQueueStep(step: Step) {
    step.SubmitTask? || step.CancelTask? || step.LoopTake? || step.DrainTake?
  }

  lemma IdsKept(c: Config, s: Sys, step: Step)
    requires Enabled(c, s, step) && IdsInv(s.k, s.jobs, s.nextJob, LoggedIds(s.log), s.removed, s.periods)
    ensures var s' := Apply(c, s, step); IdsInv(s'.k, s'.jobs, s'.nextJob, LoggedIds(s'.log), s'.removed, s'.periods)
  {
    hide Apply, Enabled, IdsInv, LoggedIds;
    if IsQueueStep(step) {
      IdsKeptByQueueSteps(c, s, step);
    } else {
      IdsKeptByOtherSteps(c, s, step);
    }
  }

  lemma IdsKeptByQueueSteps(c: Config, s: Sys, step: Step)
    requires Enabled(c, s, step) && IdsInv(s.k, s.jobs, s.nextJob, LoggedIds(s.log), s.removed, s.periods)
    requires IsQueueStep(step)
    ensures var s' := Apply(c, s, step); IdsInv(s'.k, s'.jobs, s'.nextJob, LoggedIds(s'.log), s'.removed, s'.periods)
  {
    hide Take, Unqueue, Enqueue, Fairness.UniqueIds, IndexOfId;
    match step {
      case SubmitTask(instance, every, due) =>
        EnqueueAddsId(s.k, instance, every, due);
        EnqueueIsFresh(s.k, instance, every, due);
      case CancelTask(id) => UnqueueDropsId(s.k, id); CancelledIsKnown(s, id);
      case LoopTake(now) => TakeIds(s, now);
      case DrainTake(now) => TakeIds(s, now);
    }
  }

  lemma IdsKeptByOtherSteps(c: Config, s: Sys, step: Step)
    requires Enabled(c, s, step) && IdsInv(s.k, s.jobs, s.nextJob, LoggedIds(s.log), s.removed, s.periods)
    requires !IsQueueStep(step)
    ensures var s' := Apply(c, s, step); IdsInv(s'.k, s'.jobs, s'.nextJob, LoggedIds(s'.log), s'.removed, s'.periods)
  {
    hide Fairness.UniqueIds, LoggedIds;
    SameQueue(s.k, Apply(c, s, step).k);
    if step.JobRecord? {
      LoggedGrows(s.log, Apply(c, s, step).log[|s.log|]);
    }
  }

  lemma SameQueue(k: KState, k': KState)
    requires k'.queue == k.queue && k'.nextId == k.nextId && Fairness.UniqueIds(k)
    ensures Fairness.UniqueIds(k')
  {
  }

  lemma EnqueueIsFresh(k: KState, instance: string, every: int, due: int)
    ensures Enqueue(k, instance, every, due).nextId == k.nextId + 1
    ensures Enqueue(k, instance, every, due).inFlight == k.inFlight
  {
  }

  lemma CancelledIsKnown(s: Sys, id: nat)
    requires IdsInv(s.k, s.jobs, s.nextJob, LoggedIds(s.log), s.removed, s.periods)
    ensures IndexOfId(s.k.queue, id).Some? ==> id in s.periods
  {
    if IndexOfId(s.k.queue, id).Some? {
      assert s.k.queue[IndexOfId(s.k.queue, id).value] in s.k.queue;
    }
  }

  lemma TakeIds(s: Sys, now: int)
    requires IdsInv(s.k, s.jobs, s.nextJob, LoggedIds(s.log), s.removed, s.periods)
    ensures var (k, t) := Take(s.k, now, true);
            if t == None then k == s.k
            else
              && Fairness.UniqueIds(k) && k.nextId == s.k.nextId && t.value.id in s.periods
              && forall u | u in k.queue :: u.id in s.periods && u.every == s.periods[u.id]
  {
    if Take(s.k, now, true).1.Some? {
      var t0 := TakeSomething(s.k, now);
    } else {
      TakeNothing(s.k, now);
    }
  }

  // -- single writer -------------------------------------------------------------------------------

  lemma SingleWriterKept(c: Config, s: Sys, step: Step)
    requires Enabled(c, s, step) && IdsInv(s.k, s.jobs, s.nextJob, LoggedIds(s.log), s.removed, s.periods)
    requires SingleWriter(s.k.inFlight, s.jobs)
    ensures SingleWriter(Apply(c, s, step).k.inFlight, Apply(c, s, step).jobs)
  {
    hide Take, Unqueue, Enqueue, Fairness.UniqueIds, IndexOfId, IdsInv, SingleWriter;
    match step {
      case LoopTake(now) => TakeReserves(s, now, RunLoop);
      case DrainTake(now) => TakeReserves(s, now, Drainer);
      case LoopLaunch => PhaseKeepsWriters(s.k.inFlight, s.jobs, s.loop.job, Running);
      case DrainLaunch => PhaseKeepsWriters(s.k.inFlight, s.jobs, s.drain.pc.job, Running);
      case JobRecord(j, _, _) => PhaseKeepsWriters(s.k.inFlight, s.jobs, j, Recorded);
      case JobRaise(j) => RaiseKeepsWriters(s.k.inFlight, s.jobs, j);
      case JobRelease(j) => ReleaseFreesOne(s.k.inFlight, s.jobs, j);
      case JobFinish(j) => FinishKeepsWriters(s.k.inFlight, s.jobs, j);
      case CancelTask(id) => UnqueueKeepsFlight(s.k, id);
      case SubmitTask(instance, every, due) => EnqueueIsFresh(s.k, instance, every, due);
      case _ =>
    }
  }

  lemma UnqueueKeepsFlight(k: KState, id: nat)
    ensures Unqueue(k, id) == k.(queue := Unqueue(k, id).queue)
  {
  }

  lemma TakeReserves(s: Sys, now: int, owner: Owner)
    requires IdsInv(s.k, s.jobs, s.nextJob, LoggedIds(s.log), s.removed, s.periods)
    requires SingleWriter(s.k.inFlight, s.jobs)
    ensures var (k, t) := Take(s.k, now, true);
            if t == None then k == s.k
            else SingleWriter(k.inFlight, s.jobs[s.nextJob := Job(t.value.id, t.value.instance, owner, Taken)])
  {
    var (k, t) := Take(s.k, now, true);
    if t == None {
      TakeNothing(s.k, now);
    } else {
      var t0 := TakeSomething(s.k, now);
      AddWriter(s.k.inFlight, s.jobs, s.nextJob, Job(t.value.id, t.value.instance, owner, Taken));
    }
  }

  lemma AddWriter(inFlight: set<string>, jobs: map<nat, Job>, j: nat, job: Job)
    requires SingleWriter(inFlight, jobs) && j !in jobs && job.phase.Taken? && job.instance !in inFlight
    ensures SingleWriter(inFlight + {job.instance}, jobs[j := job])
  {
    var jobs' := jobs[j := job];
    assert j in jobs' && HoldsInstance(jobs'[j]);
    KeptWriters(inFlight, jobs, jobs');
  }

  /** Jobs that keep their reservation still witness the instances they hold. */
  lemma KeptWriters(inFlight: set<string>, jobs: map<nat, Job>, jobs': map<nat, Job>)
    requires SingleWriter(inFlight, jobs)
    ensures forall i | i in inFlight
              && (forall x | x in jobs && HoldsInstance(jobs[x]) && jobs[x].instance == i ::
                    x in jobs' && HoldsInstance(jobs'[x]) && jobs'[x].instance == i) ::
              exists x :: x in jobs' && HoldsInstance(jobs'[x]) && jobs'[x].instance == i
  {
    forall i | i in inFlight
      && (forall x | x in jobs && HoldsInstance(jobs[x]) && jobs[x].instance == i ::
            x in jobs' && HoldsInstance(jobs'[x]) && jobs'[x].instance == i)
      ensures exists x :: x in jobs' && HoldsInstance(jobs'[x]) && jobs'[x].instance == i
    {
      var x :| x in jobs && HoldsInstance(jobs[x]) && jobs[x].instance == i;
      assert x in jobs' && HoldsInstance(jobs'[x]);
    }
  }

  /** A phase change that keeps the reservation changes no writer. */
  lemma PhaseKeepsWriters(inFlight: set<string>, jobs: map<nat, Job>, j: nat, phase: Phase)
    requires SingleWriter(inFlight, jobs) && j in jobs && HoldsInstance(jobs[j]) && (phase.Running? || phase.Recorded?)
    ensures SingleWriter(inFlight, jobs[j := jobs[j].(phase := phase)])
  {
    KeptWriters(inFlight, jobs, jobs[j := jobs[j].(phase := phase)]);
  }

  lemma RaiseKeepsWriters(inFlight: set<string>, jobs: map<nat, Job>, j: nat)
    requires SingleWriter(inFlight, jobs) && j in jobs && jobs[j].phase == Released
    ensures SingleWriter(inFlight, jobs[j := jobs[j].(phase := Raised)])
  {
    KeptWriters(inFlight, jobs, jobs[j := jobs[j].(phase := Raised)]);
  }

  lemma FinishKeepsWriters(inFlight: set<string>, jobs: map<nat, Job>, j: nat)
    requires SingleWriter(inFlight, jobs) && j in jobs && jobs[j].phase == Raised
    ensures SingleWriter(inFlight, jobs - {j})
  {
    KeptWriters(inFlight, jobs, jobs - {j});
  }

  lemma ReleaseFreesOne(inFlight: set<string>, jobs: map<nat, Job>, j: nat)
    requires SingleWriter(inFlight, jobs) && j in jobs && jobs[j].phase == Recorded
    ensures SingleWriter(inFlight - {jobs[j].instance}, jobs[j := jobs[j].(phase := Released)])
  {
    KeptWriters(inFlight, jobs, jobs[j := jobs[j].(phase := Released)]);
  }

  // -- conservation --------------------------------------------------------------------------------

  lemma ConservationKept(c: Config, s: Sys, step: Step)
    requires Enabled(c, s, step) && Conservation(s)
    requires IdsInv(s.k, s.jobs, s.nextJob, LoggedIds(s.log), s.removed, s.periods)
    ensures Conservation(Apply(c, s, step))
  {
    hide Take, Unqueue, Enqueue, Fairness.UniqueIds, IndexOfId, IdsInv, Conserved, Once, Ids, InHand, LoggedIds;
    match step {
      case SubmitTask(instance, every, due) => SubmitConserves(s, instance, every, due);
      case CancelTask(id) => CancelConserves(s, id);
      case LoopTake(now) => TakeConserves(s, now, RunLoop);
      case DrainTake(now) => TakeConserves(s, now, Drainer);
      case LoopLaunch => PhaseConserves(s, s.loop.job, Running);
      case DrainLaunch => PhaseConserves(s, s.drain.pc.job, Running);
      case JobRecord(j, status, summary) =>
        RecordConserves(s, j, Dispatch(s.jobs[j].taskId, s.jobs[j].instance, status, summary));
      case JobRelease(j) => PhaseConserves(s, j, Released);
      case JobRaise(j) => PhaseConserves(s, j, Raised);
      case JobFinish(j) => FinishConserves(s, j);
      case _ =>
    }
  }

  lemma LoggedGrows(log: seq<Dispatch>, d: Dispatch)
    ensures LoggedIds(log + [d]) == LoggedIds(log) + {d.taskId}
  {
    assert d in log + [d];
    assert forall e | e in log :: e in log + [d];
  }

  lemma SubmitConserves(s: Sys, instance: string, every: int, due: int)
    requires IdsInv(s.k, s.jobs, s.nextJob, LoggedIds(s.log), s.removed, s.periods) && Conservation(s)
    ensures var periods := s.periods[s.k.nextId + 1 := every];
            && Conserved(Ids(Enqueue(s.k, instance, every, due).queue), InHand(s.jobs), LoggedIds(s.log),
                         s.removed, periods)
            && Once(s.jobs, s.log, periods)
  {
    EnqueueAddsId(s.k, instance, every, due);
    var x, periods := s.k.nextId + 1, s.periods[s.k.nextId + 1 := every];
    var queued := Ids(Enqueue(s.k, instance, every, due).queue);
    assert x !in s.periods && x !in Ids(s.k.queue) && x !in LoggedIds(s.log) && x !in s.removed && x !in InHand(s.jobs);
    forall a | 0 <= a < |s.log|
      ensures s.log[a].taskId in s.periods
    {
      assert s.log[a] in s.log && s.log[a].taskId in LoggedIds(s.log);
    }
    NewIdConserves(Ids(s.k.queue), InHand(s.jobs), LoggedIds(s.log), s.removed, s.periods, x, every);
  }

  lemma NewIdConserves(queued: set<nat>, inHand: set<nat>, logged: set<nat>, removed: set<nat>,
                       periods: map<nat, int>, x: nat, every: int)
    requires Conserved(queued, inHand, logged, removed, periods)
    requires x !in periods && x !in queued && x !in inHand && x !in logged && x !in removed
    ensures Conserved(queued + {x}, inHand, logged, removed, periods[x := every])
  {
    var periods' := periods[x := every];
    forall y | OneShot(periods', y)
      ensures Places(y, queued + {x}, inHand, logged, removed) == 1
    {
      assert y != x ==> OneShot(periods, y) && Places(y, queued, inHand, logged, removed) == 1;
    }
    forall y | y in periods' && !OneShot(periods', y)
      ensures y in queued + {x} <==> y !in removed
    {
      assert y != x ==> y in periods && !OneShot(periods, y);
    }
  }

  lemma CancelConserves(s: Sys, id: nat)
    requires IdsInv(s.k, s.jobs, s.nextJob, LoggedIds(s.log), s.removed, s.periods) && Conservation(s)
    ensures IndexOfId(s.k.queue, id).Some? ==>
              Conserved(Ids(Unqueue(s.k, id).queue), InHand(s.jobs), LoggedIds(s.log), s.removed + {id}, s.periods)
  {
    UnqueueDropsId(s.k, id);
  }

  /** A newly taken job puts its task in hand and changes nothing else there. */
  lemma InHandGrows(jobs: map<nat, Job>, j: nat, job: Job)
    requires j !in jobs && Unrecorded(job)
    ensures InHand(jobs[j := job]) == InHand(jobs) + {job.taskId}
  {
    var jobs' := jobs[j := job];
    assert Unrecorded(jobs'[j]);
    forall x | x in InHand(jobs)
      ensures x in InHand(jobs')
    {
      var i :| i in jobs && Unrecorded(jobs[i]) && jobs[i].taskId == x;
      assert i in jobs' && jobs'[i] == jobs[i];
    }
  }

  lemma TakeConserves(s: Sys, now: int, owner: Owner)
    requires IdsInv(s.k, s.jobs, s.nextJob, LoggedIds(s.log), s.removed, s.periods) && Conservation(s)
    ensures var (k, t) := Take(s.k, now, true);
            if t == None then k == s.k
            else
              var jobs := s.jobs[s.nextJob := Job(t.value.id, t.value.instance, owner, Taken)];
              Conserved(Ids(k.queue), InHand(jobs), LoggedIds(s.log), s.removed, s.periods)
              && Once(jobs, s.log, s.periods)
  {
    hide Take, Fairness.UniqueIds, Conserved, Once, InHand, Ids;
    var (k, t) := Take(s.k, now, true);
    if t == None {
      TakeNothing(s.k, now);
    } else {
      var t0 := TakeSomething(s.k, now);
      var job := Job(t.value.id, t.value.instance, owner, Taken);
      TakenKeepsPlaces(s, t0, job, k);
      TakenKeepsOnce(s, t0, job);
    }
  }

  lemma TakenKeepsPlaces(s: Sys, t0: Task, job: Job, k: KState)
    requires IdsInv(s.k, s.jobs, s.nextJob, LoggedIds(s.log), s.removed, s.periods) && Conservation(s)
    requires t0 in s.k.queue && Unrecorded(job) && job.taskId == t0.id
    requires Ids(k.queue) == Ids(s.k.queue) - (if Recurring(t0) then {} else {t0.id})
    ensures Conserved(Ids(k.queue), InHand(s.jobs[s.nextJob := job]), LoggedIds(s.log), s.removed, s.periods)
  {
    hide Fairness.UniqueIds, InHand, LoggedIds, Once;
    InHandGrows(s.jobs, s.nextJob, job);
    assert t0.id in Ids(s.k.queue);
  }

  lemma TakenKeepsOnce(s: Sys, t0: Task, job: Job)
    requires IdsInv(s.k, s.jobs, s.nextJob, LoggedIds(s.log), s.removed, s.periods) && Conservation(s)
    requires t0 in s.k.queue && job.taskId == t0.id
    ensures Once(s.jobs[s.nextJob := job], s.log, s.periods)
  {
    hide Fairness.UniqueIds, InHand, LoggedIds;
    assert t0.id in Ids(s.k.queue);
    if OneShot(s.periods, t0.id) {
      assert t0.id !in InHand(s.jobs);
      NotInHand(s.jobs, t0.id);
    }
  }

  lemma NotInHand(jobs: map<nat, Job>, x: nat)
    requires x !in InHand(jobs)
    ensures forall j | j in jobs && Unrecorded(jobs[j]) :: jobs[j].taskId != x
  {
    forall j | j in jobs && Unrecorded(jobs[j])
      ensures jobs[j].taskId != x
    {
      assert jobs[j].taskId in InHand(jobs);
    }
  }

  /** A phase change on one side of the recording moves no task. */
  lemma PhaseConserves(s: Sys, j: nat, phase: Phase)
    requires Conservation(s) && j in s.jobs && Unrecorded(s.jobs[j]) == Unrecorded(s.jobs[j].(phase := phase))
    ensures InHand(Advance(s, j, phase)) == InHand(s.jobs) && Once(Advance(s, j, phase), s.log, s.periods)
  {
    SameInHand(s.jobs, Advance(s, j, phase));
  }

  lemma SameInHand(jobs: map<nat, Job>, jobs': map<nat, Job>)
    requires forall j :: j in jobs && Unrecorded(jobs[j]) <==> j in jobs' && Unrecorded(jobs'[j])
    requires forall j | j in jobs && j in jobs' :: jobs[j].taskId == jobs'[j].taskId
    ensures InHand(jobs) == InHand(jobs')
  {
    forall x | x in InHand(jobs)
      ensures x in InHand(jobs')
    {
      var j :| j in jobs && Unrecorded(jobs[j]) && jobs[j].taskId == x;
      assert j in jobs' && Unrecorded(jobs'[j]);
    }
    forall x | x in InHand(jobs')
      ensures x in InHand(jobs)
    {
      var j :| j in jobs' && Unrecorded(jobs'[j]) && jobs'[j].taskId == x;
      assert j in jobs && Unrecorded(jobs[j]);
    }
  }

  lemma FinishConserves(s: Sys, j: nat)
    requires Conservation(s) && InPhase(s, j, Raised)
    ensures InHand(s.jobs - {j}) == InHand(s.jobs) && Once(s.jobs - {j}, s.log, s.periods)
  {
    SameInHand(s.jobs, s.jobs - {j});
  }

  /** Recording takes the task out of hand and into the log. */
  lemma RecordConserves(s: Sys, j: nat, d: Dispatch)
    requires Conservation(s) && InPhase(s, j, Running) && d.taskId == s.jobs[j].taskId
    ensures Conserved(Ids(s.k.queue), InHand(Advance(s, j, Recorded)), LoggedIds(s.log + [d]), s.removed, s.periods)
    ensures Once(Advance(s, j, Recorded), s.log + [d], s.periods)
  {
    var x, jobs := d.taskId, Advance(s, j, Recorded);
    LoggedGrows(s.log, d);
    assert x in InHand(s.jobs);
    RecordedLeavesHand(s.jobs, j, s.periods);
    NotLogged(s.log, x);
    var log := s.log + [d];
    assert forall a | 0 <= a < |s.log| :: log[a] == s.log[a];
  }

  lemma NotLogged(log: seq<Dispatch>, x: nat)
    ensures x !in LoggedIds(log) ==> forall a | 0 <= a < |log| :: log[a].taskId != x
  {
    forall a | 0 <= a < |log|
      ensures log[a].taskId in LoggedIds(log)
    {
      assert log[a] in log;
    }
  }

  lemma RecordedLeavesHand(jobs: map<nat, Job>, j: nat, periods: map<nat, int>)
    requires j in jobs && jobs[j].phase == Running && Once(jobs, [], periods)
    ensures var jobs' := jobs[j := jobs[j].(phase := Recorded)];
            && (forall y | y != jobs[j].taskId :: y in InHand(jobs') <==> y in InHand(jobs))
            && (OneShot(periods, jobs[j].taskId) ==> jobs[j].taskId !in InHand(jobs'))
  {
    var jobs' := jobs[j := jobs[j].(phase := Recorded)];
    forall y | y != jobs[j].taskId && y in InHand(jobs)
      ensures y in InHand(jobs')
    {
      var i :| i in jobs && Unrecorded(jobs[i]) && jobs[i].taskId == y;
      assert i in jobs' && jobs'[i] == jobs[i];
    }
    forall y | y in InHand(jobs')
      ensures y in InHand(jobs) && (OneShot(periods, y) ==> y != jobs[j].taskId)
    {
      var i :| i in jobs' && Unrecorded(jobs'[i]) && jobs'[i].taskId == y;
      assert i in jobs && i != j && jobs'[i] == jobs[i];
    }
  }

  // -- history -------------------------------------------------------------------------------------

  lemma HistoryKept(c: Config, s: Sys, step: Step)
    requires Enabled(c, s, step) && HistoryIsTail(c, s)
    ensures HistoryIsTail(c, Apply(c, s, step))
  {
    match step {
      case LoopTake(now) => TakeKeepsHistory(s.k, now);
      case DrainTake(now) => TakeKeepsHistory(s.k, now);
      case JobRecord(j, status, summary) =>
        LatestOfLatest(s.log, Dispatch(s.jobs[j].taskId, s.jobs[j].instance, status, summary), c.historyLimit);
      case _ =>
    }
  }

  lemma TakeKeepsHistory(k: KState, now: int)
    ensures Take(k, now, true).0.history == k.history && Take(k, now, true).0.dispatched == k.dispatched
  {
  }

  /** Trimming the tail and then appending loses nothing the longer trim would keep. */
  lemma LatestOfLatest<T>(s: seq<T>, x: T, n: nat)
    ensures Latest(Latest(s, n) + [x], n) == Latest(s + [x], n)
  {
    if |s| > n {
      var tail := s[|s| - n..];
      assert (s + [x])[|s| + 1 - n..] == (tail + [x])[1..];
    }
  }

  // -- wakeups -------------------------------------------------------------------------------------

  lemma WakeKept(c: Config, s: Sys, step: Step)
    requires Enabled(c, s, step) && WakeInv(s)
    requires IdsInv(s.k, s.jobs, s.nextJob, LoggedIds(s.log), s.removed, s.periods)
    ensures WakeInv(Apply(c, s, step))
  {
    hide Take, Unqueue, Enqueue, Fairness.UniqueIds, IndexOfId, IdsInv, Rousing, Gap, Best;
    var s' := Apply(c, s, step);
    match step {
      case SubmitTask(instance, every, due) => EnqueueIsFresh(s.k, instance, every, due); Owes(s');
      case RaiseSubmit => Owes(s');
      case JobRaise(j) => Owes(s');
      case JobRelease(j) => assert InPhase(s', j, Released); Owes(s');
      case CancelTask(id) => UnqueueKeepsFlight(s.k, id); CancelLeaves(s, id); StillRousing(s, s');
      case LoopTake(now) => LoopTakeWakes(s, now);
      case DrainTake(now) => DrainTakeWakes(c, s, now);
      case LoopSleep(now) => GapIsEarliest(s.k.queue, |s.k.queue|, now); SleepCovers(s, now); StillRousing(s, s');
      case JobRecord(j, _, _) => RecordStillRousing(c, s, step);
      case JobFinish(j) => FinishStillRousing(c, s, step);
      case DrainLaunch => LaunchStillRousing(c, s, step);
      case StopRun => StillRousing(s, s');
      case DrainStart(_) => StillRousing(s, s');
      case DrainCheck => StillRousing(s, s');
      case DrainBatchDone => StillRousing(s, s');
      case _ =>
    }
  }

  lemma Owes(s: Sys)
    requires s.k.wake || s.raising > 0 || exists j :: InPhase(s, j, Released)
    ensures Rousing(s)
  {
  }

  lemma StillRousing(s: Sys, s': Sys)
    requires s'.k.wake == s.k.wake && s'.raising == s.raising
    requires forall j | InPhase(s, j, Released) :: InPhase(s', j, Released)
    ensures Rousing(s) ==> Rousing(s')
  {
  }

  lemma RecordStillRousing(c: Config, s: Sys, step: Step)
    requires Enabled(c, s, step) && step.JobRecord?
    ensures Rousing(s) ==> Rousing(Apply(c, s, step))
  {
    StillRousing(s, Apply(c, s, step));
  }

  lemma FinishStillRousing(c: Config, s: Sys, step: Step)
    requires Enabled(c, s, step) && step.JobFinish?
    ensures Rousing(s) ==> Rousing(Apply(c, s, step))
  {
    StillRousing(s, Apply(c, s, step));
  }

  lemma LaunchStillRousing(c: Config, s: Sys, step: Step)
    requires Enabled(c, s, step) && step.DrainLaunch?
    ensures Rousing(s) ==> Rousing(Apply(c, s, step))
  {
    StillRousing(s, Apply(c, s, step));
  }

  lemma CancelLeaves(s: Sys, id: nat)
    requires IdsInv(s.k, s.jobs, s.nextJob, LoggedIds(s.log), s.removed, s.periods)
    ensures forall u | u in Unqueue(s.k, id).queue :: u in s.k.queue
  {
    UnqueueDropsId(s.k, id);
  }

  lemma LoopTakeWakes(s: Sys, now: int)
    ensures Take(s.k, now, true).1 == None ==>
              Take(s.k, now, true).0 == s.k && forall t | t in s.k.queue && t.due <= now :: !Free(s, t)
  {
    if Take(s.k, now, true).1 == None {
      TakeNothing(s.k, now);
    }
  }

  lemma DrainTakeWakes(c: Config, s: Sys, now: int)
    requires Enabled(c, s, DrainTake(now)) && WakeInv(s)
    requires IdsInv(s.k, s.jobs, s.nextJob, LoggedIds(s.log), s.removed, s.periods)
    ensures WakeInv(Apply(c, s, DrainTake(now)))
  {
    hide Take, Rousing;
    var s' := Apply(c, s, DrainTake(now));
    if Take(s.k, now, true).1 == None {
      TakeNothing(s.k, now);
      StillRousing(s, s');
    } else {
      var t0 := TakeSomething(s.k, now);
      NewJobStillRousing(s, s');
    }
  }

  lemma NewJobStillRousing(s: Sys, s': Sys)
    requires s'.k.wake == s.k.wake && s'.raising == s.raising && s.nextJob !in s.jobs
    requires s'.jobs - {s.nextJob} == s.jobs
    ensures Rousing(s) ==> Rousing(s')
  {
    StillRousing(s, s');
  }

  lemma SleepCovers(s: Sys, now: int)
    requires s.loop.Drowsy? && WakeInv(s)
    ensures var gap := Gap(s.k.queue, |s.k.queue|, now);
            var loop := Asleep(s.loop.seen, now, gap);
            && (gap.Some? ==> gap.value > 0)
            && forall t | t in s.k.queue && Free(s, t) :: Rousing(s) || TimerCovers(loop, t) || InWindow(loop, t)
  {
    GapIsEarliest(s.k.queue, |s.k.queue|, now);
    var gap := Gap(s.k.queue, |s.k.queue|, now);
    var loop := Asleep(s.loop.seen, now, gap);
    forall t | t in s.k.queue && Free(s, t)
      ensures Rousing(s) || TimerCovers(loop, t) || InWindow(loop, t)
    {
      var i :| 0 <= i < |s.k.queue| && s.k.queue[i] == t;
      assert gap == None ==> s.k.queue[i].due <= now;
    }
  }

  // -- worker slots and drains ---------------------------------------------------------------------

  lemma PoolsKept(c: Config, s: Sys, step: Step)
    requires Enabled(c, s, step) && PoolInv(c, s.loop, s.drain.pc, s.jobs)
    requires IdsInv(s.k, s.jobs, s.nextJob, LoggedIds(s.log), s.removed, s.periods)
    ensures PoolInv(c, Apply(c, s, step).loop, Apply(c, s, step).drain.pc, Apply(c, s, step).jobs)
  {
    hide Apply, Enabled, PoolInv, IdsInv;
    if IsJobStep(step) {
      if step.JobRecord? || step.JobRelease? {
        PoolsKeptByJobs(c, s, step);
      } else {
        PoolsKeptByExits(c, s, step);
      }
    } else {
      PoolsKeptByDrivers(c, s, step);
    }
  }

  lemma PoolsKeptByJobs(c: Config, s: Sys, step: Step)
    requires Enabled(c, s, step) && PoolInv(c, s.loop, s.drain.pc, s.jobs)
    requires IdsInv(s.k, s.jobs, s.nextJob, LoggedIds(s.log), s.removed, s.periods)
    requires step.JobRecord? || step.JobRelease?
    ensures PoolInv(c, Apply(c, s, step).loop, Apply(c, s, step).drain.pc, Apply(c, s, step).jobs)
  {
    hide OwnedBy, SlotsOf, Record, Release, Raise, IdsInv;
    match step {
      case JobRecord(j, _, _) => PhaseSets(s.jobs, j, Recorded);
      case JobRelease(j) => PhaseSets(s.jobs, j, Released);
    }
  }

  lemma PoolsKeptByExits(c: Config, s: Sys, step: Step)
    requires Enabled(c, s, step) && PoolInv(c, s.loop, s.drain.pc, s.jobs)
    requires IdsInv(s.k, s.jobs, s.nextJob, LoggedIds(s.log), s.removed, s.periods)
    requires step.JobRaise? || step.JobFinish?
    ensures PoolInv(c, Apply(c, s, step).loop, Apply(c, s, step).drain.pc, Apply(c, s, step).jobs)
  {
    hide PoolInv, IdsInv;
    match step {
      case JobRaise(j) => PoolsKeptByRaise(c, s, j);
      case JobFinish(j) => PoolsKeptByFinish(c, s, j);
    }
  }

  lemma PoolsKeptByRaise(c: Config, s: Sys, j: nat)
    requires Enabled(c, s, JobRaise(j)) && PoolInv(c, s.loop, s.drain.pc, s.jobs)
    ensures var s' := Apply(c, s, JobRaise(j)); PoolInv(c, s'.loop, s'.drain.pc, s'.jobs)
  {
    hide OwnedBy, SlotsOf, Raise;
    PhaseSets(s.jobs, j, Raised);
  }

  lemma PoolsKeptByFinish(c: Config, s: Sys, j: nat)
    requires Enabled(c, s, JobFinish(j)) && PoolInv(c, s.loop, s.drain.pc, s.jobs)
    ensures var s' := Apply(c, s, JobFinish(j)); PoolInv(c, s'.loop, s'.drain.pc, s'.jobs)
  {
    hide OwnedBy, SlotsOf;
    FinishSets(s.jobs, j);
  }

  lemma PoolsKeptByDrivers(c: Config, s: Sys, step: Step)
    requires Enabled(c, s, step) && PoolInv(c, s.loop, s.drain.pc, s.jobs)
    requires IdsInv(s.k, s.jobs, s.nextJob, LoggedIds(s.log), s.removed, s.periods)
    requires !IsJobStep(step)
    ensures PoolInv(c, Apply(c, s, step).loop, Apply(c, s, step).drain.pc, Apply(c, s, step).jobs)
  {
    hide Take, Unqueue, Enqueue, IndexOfId, Gap, OwnedBy, SlotsOf, Raise;
    match step {
      case LoopTake(now) => TakeSets(s, now, RunLoop);
      case DrainTake(now) => TakeSets(s, now, Drainer);
      case LoopLaunch => LaunchSets(s.jobs, s.loop.job);
      case DrainLaunch => LaunchSets(s.jobs, s.drain.pc.job);
      case _ =>
    }
  }

  lemma DrainKept(c: Config, s: Sys, step: Step)
    requires Enabled(c, s, step) && DrainInv(s.drain, s.jobs)
    requires IdsInv(s.k, s.jobs, s.nextJob, LoggedIds(s.log), s.removed, s.periods)
    ensures DrainInv(Apply(c, s, step).drain, Apply(c, s, step).jobs)
  {
    hide Apply, Enabled, DrainInv, IdsInv;
    if IsJobStep(step) {
      DrainKeptByJobs(c, s, step);
    } else {
      DrainKeptByDrivers(c, s, step);
    }
  }

  lemma DrainKeptByJobs(c: Config, s: Sys, step: Step)
    requires Enabled(c, s, step) && DrainInv(s.drain, s.jobs)
    requires IdsInv(s.k, s.jobs, s.nextJob, LoggedIds(s.log), s.removed, s.periods)
    requires IsJobStep(step)
    ensures DrainInv(Apply(c, s, step).drain, Apply(c, s, step).jobs)
  {
    hide OwnedBy, SlotsOf, Record, Release, Raise, IdsInv;
    match step {
      case JobRecord(j, _, _) => PhaseSets(s.jobs, j, Recorded);
      case JobRelease(j) => PhaseSets(s.jobs, j, Released);
      case JobRaise(j) => PhaseSets(s.jobs, j, Raised);
      case JobFinish(j) => FinishSets(s.jobs, j);
    }
  }

  lemma DrainKeptByDrivers(c: Config, s: Sys, step: Step)
    requires Enabled(c, s, step) && DrainInv(s.drain, s.jobs)
    requires IdsInv(s.k, s.jobs, s.nextJob, LoggedIds(s.log), s.removed, s.periods)
    requires !IsJobStep(step)
    ensures DrainInv(Apply(c, s, step).drain, Apply(c, s, step).jobs)
  {
    hide Take, Unqueue, Enqueue, IndexOfId, Gap, OwnedBy, SlotsOf, Raise;
    match step {
      case LoopTake(now) => TakeSets(s, now, RunLoop);
      case DrainTake(now) => TakeSets(s, now, Drainer);
      case LoopLaunch => LaunchSets(s.jobs, s.loop.job);
      case DrainLaunch => LaunchSets(s.jobs, s.drain.pc.job);
      case _ =>
    }
  }

  /** A new job is its owner's, one more, and holds no slot yet. */
  lemma NewJobSets(jobs: map<nat, Job>, j: nat, job: Job)
    requires j !in jobs && job.phase.Taken?
    ensures forall o :: SlotsOf(jobs[j := job], o) == SlotsOf(jobs, o)
    ensures forall o :: OwnedBy(jobs[j := job], o) == OwnedBy(jobs, o) + (if o == job.owner then {j} else {})
    ensures j !in OwnedBy(jobs, job.owner)
  {
  }

  lemma TakeSets(s: Sys, now: int, owner: Owner)
    requires IdsInv(s.k, s.jobs, s.nextJob, LoggedIds(s.log), s.removed, s.periods)
    ensures var (k, t) := Take(s.k, now, true);
            t.Some? ==>
              var jobs := s.jobs[s.nextJob := Job(t.value.id, t.value.instance, owner, Taken)];
              && (forall o :: SlotsOf(jobs, o) == SlotsOf(s.jobs, o))
              && (forall o | o != owner :: OwnedBy(jobs, o) == OwnedBy(s.jobs, o))
              && |OwnedBy(jobs, owner)| == |OwnedBy(s.jobs, owner)| + 1
  {
    var (k, t) := Take(s.k, now, true);
    if t.Some? {
      NewJobSets(s.jobs, s.nextJob, Job(t.value.id, t.value.instance, owner, Taken));
    }
  }

  lemma LaunchSets(jobs: map<nat, Job>, j: nat)
    requires j in jobs && jobs[j].phase.Taken?
    ensures var jobs' := jobs[j := jobs[j].(phase := Running)];
            && (forall o :: OwnedBy(jobs', o) == OwnedBy(jobs, o))
            && (forall o | o != jobs[j].owner :: SlotsOf(jobs', o) == SlotsOf(jobs, o))
            && |SlotsOf(jobs', jobs[j].owner)| == |SlotsOf(jobs, jobs[j].owner)| + 1
  {
    var jobs' := jobs[j := jobs[j].(phase := Running)];
    assert SlotsOf(jobs', jobs[j].owner) == SlotsOf(jobs, jobs[j].owner) + {j};
  }

  lemma PhaseSets(jobs: map<nat, Job>, j: nat, phase: Phase)
    requires j in jobs && !jobs[j].phase.Taken? && !phase.Taken?
    ensures var jobs' := jobs[j := jobs[j].(phase := phase)];
            forall o :: OwnedBy(jobs', o) == OwnedBy(jobs, o) && SlotsOf(jobs', o) == SlotsOf(jobs, o)
  {
  }

  lemma FinishSets(jobs: map<nat, Job>, j: nat)
    requires j in jobs && jobs[j].phase.Raised?
    ensures var jobs' := jobs - {j};
            && (forall o :: SlotsOf(jobs', o) == SlotsOf(jobs, o) - {j} && OwnedBy(jobs', o) == OwnedBy(jobs, o) - {j})
            && |OwnedBy(jobs', jobs[j].owner)| == |OwnedBy(jobs, jobs[j].owner)| - 1
            && (forall o | o != jobs[j].owner :: OwnedBy(jobs', o) == OwnedBy(jobs, o))
            && (forall o :: |SlotsOf(jobs', o)| <= |SlotsOf(jobs, o)|)
  {
    assert j in OwnedBy(jobs, jobs[j].owner);
    forall o
      ensures |SlotsOf(jobs - {j}, o)| <= |SlotsOf(jobs, o)|
    {
      assert SlotsOf(jobs - {j}, o) == SlotsOf(jobs, o) - {j};
      Fairness.SubsetIsNoLarger(SlotsOf(jobs - {j}, o), SlotsOf(jobs, o));
    }
  }

  // -- every run -----------------------------------------------------------------------------------

  lemma InitialInv(c: Config)
    ensures Inv(c, Initial())
  {
  }

  lemma StepKeepsInv(c: Config, s: Sys, step: Step)
    requires Enabled(c, s, step) && Inv(c, s)
    ensures Inv(c, Apply(c, s, step))
  {
    hide *;
    InvParts(c, s);
    IdsKept(c, s, step);
    SingleWriterKept(c, s, step);
    ConservationKept(c, s, step);
    HistoryKept(c, s, step);
    WakeKept(c, s, step);
    PoolsKept(c, s, step);
    DrainKept(c, s, step);
    InvParts(c, Apply(c, s, step));
  }

  lemma InvParts(c: Config, s: Sys)
    ensures Inv(c, s) <==>
              && IdsInv(s.k, s.jobs, s.nextJob, LoggedIds(s.log), s.removed, s.periods)
              && SingleWriter(s.k.inFlight, s.jobs)
              && Conservation(s)
              && HistoryIsTail(c, s)
              && WakeInv(s)
              && PoolInv(c, s.loop, s.drain.pc, s.jobs)
              && DrainInv(s.drain, s.jobs)
  {
  }

  /** The steps are enabled one after the other from `s`. */
  predicate CanRun(c: Config, s: Sys, steps: seq<Step>)
    decreases |steps|
  {
    steps == [] || (Enabled(c, s, steps[0]) && CanRun(c, Apply(c, s, steps[0]), steps[1..]))
  }

  function RunSteps(c: Config, s: Sys, steps: seq<Step>): Sys
    requires CanRun(c, s, steps)
    decreases |steps|
  {
    if steps == [] then s else RunSteps(c, Apply(c, s, steps[0]), steps[1..])
  }

  /** Every state any interleaving reaches satisfies every invariant. */
  lemma {:induction false} ReachableInv(c: Config, s: Sys, steps: seq<Step>)
    requires Inv(c, s) && CanRun(c, s, steps)
    ensures Inv(c, RunSteps(c, s, steps))
    decreases |steps|
  {
    hide Inv, Apply, Enabled;
    if steps != [] {
      StepKeepsInv(c, s, steps[0]);
      ReachableInv(c, Apply(c, s, steps[0]), steps[1..]);
    }
  }
}
