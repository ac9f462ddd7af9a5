/** What the invariants of KernelInvariants promise of every run of the parallel kernel. */
module KernelTheorems {
  import opened Options
  import opened KernelCore
  import opened KernelRuns
  import opened KernelInvariants

  function Reach(c: Config, steps: seq<Step>): Sys
    requires CanRun(c, Initial(), steps)
  {
    RunSteps(c, Initial(), steps)
  }

  lemma ReachInv(c: Config, steps: seq<Step>)
    requires CanRun(c, Initial(), steps)
    ensures Inv(c, Reach(c, steps))
  {
    InitialInv(c);
    ReachableInv(c, Initial(), steps);
  }

  /** Something wakes the loop no later than the task falls due, or is already owed to it. */
  ghost predicate Timely(s: Sys, t: Task) { Rousing(s) || TimerCovers(s.loop, t) }

  /** A loop about to sleep has missed no task that was due when it looked. */
  lemma DrowsyLoopMissesNothing(c: Config, steps: seq<Step>, t: Task)
    requires CanRun(c, Initial(), steps)
    requires var s := Reach(c, steps); s.loop.Drowsy? && t in s.k.queue && t.due <= s.loop.seen && Free(s, t)
    ensures Rousing(Reach(c, steps))
  {
    ReachInv(c, steps);
  }

  /** No lost wakeup, exactly: every queued task with a free instance will be noticed in time if
      and only if an interrupt is raised or owed, or none of them fell due between the reading of
      the take that found nothing and the reading the sleep was bounded from. */
  lemma NoLostWakeup(c: Config, steps: seq<Step>)
    requires CanRun(c, Initial(), steps) && Reach(c, steps).loop.Asleep?
    ensures var s := Reach(c, steps);
            (forall t | t in s.k.queue && Free(s, t) :: Timely(s, t)) <==>
            Rousing(s) || forall t | t in s.k.queue && Free(s, t) :: !InWindow(s.loop, t)
  {
    ReachInv(c, steps);
  }

  /** The two readings do lose a task: it falls due at 5, the take looks at 4, the sleep is bounded
      from 6, and nothing is left to wake the loop. */
  function WindowRun(): seq<Step> {
    [SubmitTask("a", 0, 5), RaiseSubmit, StartRun, LoopTop, LoopTake(4), LoopSleep(4), LoopWake,
     LoopTop, LoopTake(4), LoopSleep(6)]
  }

  lemma WindowLosesATask()
    ensures var c := Config(2, 1024);
            && CanRun(c, Initial(), WindowRun())
            && var s := Reach(c, WindowRun());
               s.loop == Asleep(4, 6, None) && s.k.queue == [Task(1, "a", 0, 5)] && s.k.inFlight == {} && !Rousing(s)
  {
    hide CanRun, RunSteps, Apply, Enabled;
    var c := Config(2, 1024);
    var task := Task(1, "a", 0, 5);
    var queued := KState([task], {}, [], 1, 0, false);
    var woken := queued.(wake := true);
    var idle := Drain(Idle, 0, 0, 0);
    var s1 := Sys(queued, map[], 0, 1, false, Stopped, idle, [], {}, map[1 := 0]);
    var s2 := s1.(k := woken, raising := 0);
    var s3 := s2.(loop := Top);
    var s4 := s3.(loop := Scanning(0));
    var s5 := s4.(loop := Drowsy(4));
    var s6 := s5.(loop := Asleep(4, 4, Some(1)));
    var s7 := s6.(k := queued, loop := Top);
    var s8 := s7.(loop := Scanning(0));
    var s9 := s8.(loop := Drowsy(4));
    var s10 := s9.(loop := Asleep(4, 6, None));
    SubmitStep(c);
    OneTaskScan(task, queued);
    OneTaskScan(task, woken);
    PlainSteps(c, s1, s2, s3, s4, s6, s7, s8);
    ScanSteps(c, s4, s5, s6, s8, s9, s10);
    EmptyRun(c, s10);
    var r9 := Prefixed(c, s9, LoopSleep(6), s10, [], s10);
    var r8 := Prefixed(c, s8, LoopTake(4), s9, r9, s10);
    var r7 := Prefixed(c, s7, LoopTop, s8, r8, s10);
    var r6 := Prefixed(c, s6, LoopWake, s7, r7, s10);
    var r5 := Prefixed(c, s5, LoopSleep(4), s6, r6, s10);
    var r4 := Prefixed(c, s4, LoopTake(4), s5, r5, s10);
    var r3 := Prefixed(c, s3, LoopTop, s4, r4, s10);
    var r2 := Prefixed(c, s2, StartRun, s3, r3, s10);
    var r1 := Prefixed(c, s1, RaiseSubmit, s2, r2, s10);
    var r0 := Prefixed(c, Initial(), SubmitTask("a", 0, 5), s1, r1, s10);
    assert r0 == WindowRun();
  }

  lemma EmptyRun(c: Config, s: Sys)
    ensures CanRun(c, s, []) && RunSteps(c, s, []) == s
  {
  }

  lemma Prefixed(c: Config, s: Sys, step: Step, s': Sys, rest: seq<Step>, end: Sys) returns (steps: seq<Step>)
    requires Enabled(c, s, step) && Apply(c, s, step) == s' && CanRun(c, s', rest) && RunSteps(c, s', rest) == end
    ensures steps == [step] + rest && CanRun(c, s, steps) && RunSteps(c, s, steps) == end
  {
    hide Enabled, Apply;
    steps := [step] + rest;
    assert steps[1..] == rest;
  }

  lemma SubmitStep(c: Config)
    ensures Enabled(c, Initial(), SubmitTask("a", 0, 5))
    ensures Apply(c, Initial(), SubmitTask("a", 0, 5)) ==
              Sys(KState([Task(1, "a", 0, 5)], {}, [], 1, 0, false), map[], 0, 1, false, Stopped,
                  Drain(Idle, 0, 0, 0), [], {}, map[1 := 0])
  {
  }

  lemma OneTaskScan(t: Task, k: KState)
    requires k.queue == [t] && t.due == 5
    ensures Take(k, 4, true) == (k, None) && Gap(k.queue, 1, 4) == Some(1) && Gap(k.queue, 1, 6) == None
  {
    assert Best(k.queue, 0, 4, true, k.inFlight) == None;
    assert Best(k.queue, 1, 4, true, k.inFlight) == None;
  }

  lemma PlainSteps(c: Config, s1: Sys, s2: Sys, s3: Sys, s4: Sys, s6: Sys, s7: Sys, s8: Sys)
    requires s1.raising == 1 && s2 == s1.(k := Raise(s1.k), raising := 0) && s2.loop.Stopped? && !s2.stop
    requires s3 == s2.(loop := Top) && s4 == s3.(loop := Scanning(0))
    requires s6.loop.Asleep? && s6.k.wake && !s6.stop && s7 == s6.(k := s6.k.(wake := false), loop := Top)
    requires s8 == s7.(loop := Scanning(0))
    ensures Enabled(c, s1, RaiseSubmit) && Apply(c, s1, RaiseSubmit) == s2
    ensures Enabled(c, s2, StartRun) && Apply(c, s2, StartRun) == s3
    ensures Enabled(c, s3, LoopTop) && Apply(c, s3, LoopTop) == s4
    ensures Enabled(c, s6, LoopWake) && Apply(c, s6, LoopWake) == s7
    ensures Enabled(c, s7, LoopTop) && Apply(c, s7, LoopTop) == s8
  {
  }

  lemma ScanSteps(c: Config, s4: Sys, s5: Sys, s6: Sys, s8: Sys, s9: Sys, s10: Sys)
    requires s4.loop == Scanning(0) && Take(s4.k, 4, true) == (s4.k, None) && s5 == s4.(loop := Drowsy(4))
    requires s6 == s5.(loop := Asleep(4, 4, Gap(s5.k.queue, |s5.k.queue|, 4)))
    requires s8.loop == Scanning(0) && Take(s8.k, 4, true) == (s8.k, None) && s9 == s8.(loop := Drowsy(4))
    requires s10 == s9.(loop := Asleep(4, 6, Gap(s9.k.queue, |s9.k.queue|, 6)))
    ensures Enabled(c, s4, LoopTake(4)) && Apply(c, s4, LoopTake(4)) == s5
    ensures Enabled(c, s5, LoopSleep(4)) && Apply(c, s5, LoopSleep(4)) == s6
    ensures Enabled(c, s8, LoopTake(4)) && Apply(c, s8, LoopTake(4)) == s9
    ensures Enabled(c, s9, LoopSleep(6)) && Apply(c, s9, LoopSleep(6)) == s10
  {
  }

  /** A one-shot task is in exactly one place and there once; a recurring one is queued until
      cancelled. Nothing is lost and nothing runs twice. */
  lemma TasksAreConserved(c: Config, steps: seq<Step>, x: nat)
    requires CanRun(c, Initial(), steps) && 1 <= x <= Reach(c, steps).k.nextId
    ensures var s := Reach(c, steps);
            && x in s.periods
            && (s.periods[x] <= 0 ==>
                  && Places(x, Ids(s.k.queue), InHand(s.jobs), LoggedIds(s.log), s.removed) == 1
                  && (forall a, b | 0 <= a < |s.log| && 0 <= b < |s.log| && s.log[a].taskId == x == s.log[b].taskId
                        :: a == b))
            && (s.periods[x] > 0 ==> (x in Ids(s.k.queue) <==> x !in s.removed))
  {
    ReachInv(c, steps);
    var s := Reach(c, steps);
    assert OneShot(s.periods, x) <==> s.periods[x] <= 0;
  }

  /** At most one unreleased job per instance, and exactly the instances marked in flight. */
  lemma OneWriterPerInstance(c: Config, steps: seq<Step>, i: string)
    requires CanRun(c, Initial(), steps)
    ensures var s := Reach(c, steps);
            && (i in s.k.inFlight <==> exists j :: j in s.jobs && HoldsInstance(s.jobs[j]) && s.jobs[j].instance == i)
            && (forall j1, j2 | j1 in s.jobs && j2 in s.jobs && HoldsInstance(s.jobs[j1]) && HoldsInstance(s.jobs[j2])
                  && s.jobs[j1].instance == i == s.jobs[j2].instance :: j1 == j2)
  {
    ReachInv(c, steps);
  }

  /** A Run that has returned left none of its launches behind, and never ran more than its
      workers at once. */
  lemma RunReturnsClean(c: Config, steps: seq<Step>)
    requires CanRun(c, Initial(), steps)
    ensures var s := Reach(c, steps);
            && (s.loop.Stopped? ==> forall j | j in s.jobs :: s.jobs[j].owner == Drainer)
            && |SlotsOf(s.jobs, RunLoop)| <= c.workers
  {
    ReachInv(c, steps);
    var s := Reach(c, steps);
    if s.loop.Stopped? {
      forall j | j in s.jobs
        ensures s.jobs[j].owner == Drainer
      {
        assert j !in OwnedBy(s.jobs, RunLoop);
      }
    }
  }

  /** The history is exactly the last min(limit, dispatched) entries of the full log. */
  lemma HistoryIsTheTail(c: Config, steps: seq<Step>)
    requires CanRun(c, Initial(), steps)
    ensures var s := Reach(c, steps);
            && s.k.dispatched == |s.log|
            && |s.k.history| == (if |s.log| < c.historyLimit then |s.log| else c.historyLimit)
            && s.k.history == s.log[|s.log| - |s.k.history|..]
  {
    ReachInv(c, steps);
  }

  /** drainConcurrent returns at most `max` dispatches, and fewer only because a take found
      nothing. */
  lemma DrainIsBounded(c: Config, steps: seq<Step>)
    requires CanRun(c, Initial(), steps)
    ensures var d := Reach(c, steps).drain;
            d.done <= d.max && (d.pc.Drained? && d.done < d.max ==> d.pc.quiet.Some?)
  {
    ReachInv(c, steps);
  }

  /** With no other driver, the take that ends a drain finds nothing because nothing is due. */
  lemma DrainEndsWhenNothingIsDue(c: Config, steps: seq<Step>, now: int)
    requires CanRun(c, Initial(), steps)
    requires var s := Reach(c, steps);
             && s.loop.Stopped? && s.drain.pc.Taking? && s.drain.launched == 0
             && Take(s.k, now, true).1 == None
    ensures forall t | t in Reach(c, steps).k.queue :: t.due > now
  {
    ReachInv(c, steps);
    var s := Reach(c, steps);
    TakeNothing(s.k, now);
    assert OwnedBy(s.jobs, Drainer) == {};
    assert forall j | j in s.jobs :: j in OwnedBy(s.jobs, s.jobs[j].owner);
    assert s.k.inFlight == {};
  }

  // -- why a drain came back short -----------------------------------------------------------------

  /** The drain's last take, at this reading, found nothing, and it has taken nothing since. */
  predicate QuietSince(d: Drain, now: int) {
    (d.pc.BatchWait? || d.pc.Drained?) && d.pc.quiet == Some(now)
  }

  /** A take that found nothing, by a drain. */
  predicate NilDrainTake(s: Sys, step: Step, now: int) {
    step == DrainTake(now) && s.drain.pc.Taking? && Take(s.k, now, true).1 == None
  }

  lemma QuietStep(c: Config, s: Sys, step: Step, now: int)
    requires Enabled(c, s, step) && QuietSince(Apply(c, s, step).drain, now)
    ensures Apply(c, s, step).drain.launched == s.drain.launched
    ensures NilDrainTake(s, step, now) || (QuietSince(s.drain, now) && !step.DrainTake?)
  {
    hide Take, Enqueue, Unqueue, Release, Record, Raise, SlotsOf, OwnedBy, Gap, IndexOfId;
  }

  /** A quiet drain goes back to the nil take that made it so, with no take of its own in between. */
  lemma {:induction false} QuietFrom(c: Config, s: Sys, steps: seq<Step>, now: int) returns (n: int)
    requires CanRun(c, s, steps) && QuietSince(RunSteps(c, s, steps).drain, now)
    ensures -1 <= n < |steps|
    ensures forall m | n < m < |steps| :: !steps[m].DrainTake?
    ensures n == -1 ==> QuietSince(s.drain, now) && s.drain.launched == RunSteps(c, s, steps).drain.launched
    ensures n >= 0 ==>
              && CanRun(c, s, steps[..n])
              && var at := RunSteps(c, s, steps[..n]);
                 NilDrainTake(at, steps[n], now) && at.drain.launched == RunSteps(c, s, steps).drain.launched
    decreases |steps|
  {
    hide Apply, Enabled, NilDrainTake, QuietSince;
    n := -1;
    if steps != [] {
      var s' := Apply(c, s, steps[0]);
      n := QuietFrom(c, s', steps[1..], now);
      assert forall m | 0 < m < |steps| :: steps[m] == steps[1..][m - 1];
      if n >= 0 {
        n := n + 1;
        assert steps[..n][1..] == steps[1..][..n - 1] && steps[..n][0] == steps[0];
      } else {
        QuietStep(c, s, steps[0], now);
        if NilDrainTake(s, steps[0], now) {
          n := 0;
          assert steps[..0] == [];
        }
      }
    }
  }

  /** A drain that came back with less than it was asked for ended at a take that found nothing, its
      last: nothing was in its hands then, and if no other driver was running, no queued task was due. */
  lemma ShortDrainFoundNothing(c: Config, steps: seq<Step>) returns (n: nat, now: int)
    requires CanRun(c, Initial(), steps)
    requires var d := Reach(c, steps).drain; d.pc.Drained? && d.done < d.max
    ensures n < |steps| && steps[n] == DrainTake(now) && Reach(c, steps).drain.pc.quiet == Some(now)
    ensures forall m | n < m < |steps| :: !steps[m].DrainTake?
    ensures CanRun(c, Initial(), steps[..n])
    ensures var at := Reach(c, steps[..n]);
            && at.drain.pc.Taking? && at.drain.launched == 0 && OwnedBy(at.jobs, Drainer) == {}
            && Take(at.k, now, true).1 == None
            && (at.loop.Stopped? ==> forall t | t in at.k.queue :: t.due > now)
  {
    hide Take, RunSteps, CanRun, IdsInv, SingleWriter, Conservation, HistoryIsTail, WakeInv, PoolInv;
    ReachInv(c, steps);
    now := Reach(c, steps).drain.pc.quiet.value;
    var place := QuietFrom(c, Initial(), steps, now);
    assert place >= 0;
    n := place;
    ReachInv(c, steps[..n]);
    if Reach(c, steps[..n]).loop.Stopped? {
      DrainEndsWhenNothingIsDue(c, steps[..n], now);
    }
  }
}
