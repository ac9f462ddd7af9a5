/** monitor.go: a runtime's health read off its trail, the fleet's totals and its order. */
module Monitor {
  import opened Governance
  import opened Options
  import opened Planning
  import opened Reasoning
  import opened Text

  datatype Health = Healthy | Attention | Broken

  function Rank(h: Health): nat {
    match h case Broken => 2 case Attention => 1 case Healthy => 0
  }

  /** What the usage records of a trail add up to. */
  datatype Usage = Usage(cycles: nat, tokens: nat, dollars: real)

  datatype Instance = Instance(name: string, status: Health, usage: Usage, blocked: nat, pending: nat, failed: nat,
                               chainIntact: bool)

  // -- one runtime ---------------------------------------------------------------------------------

  /** What one trail entry adds to the governance stops. */
  function BlockedBy(e: Entry): nat {
    if e.stage == "policy" && "VIOLATED" <= e.output then 1
    else if e.stage == "approval" && ("REJECTED" <= e.output || "REFUSED" <= e.output) then 1
    else if e.stage == "tenant" && "REFUSED" <= e.output then 1
    else 0
  }

  /** What it adds to the cycles waiting for a human. */
  function PendingBy(e: Entry): nat { if e.stage == "policy" && "PENDING" <= e.output then 1 else 0 }

  function BlockedIn(trail: seq<Entry>): nat {
    if trail == [] then 0 else BlockedIn(Front(trail)) + BlockedBy(Last(trail))
  }

  function PendingIn(trail: seq<Entry>): nat {
    if trail == [] then 0 else PendingIn(Front(trail)) + PendingBy(Last(trail))
  }

  /** classifyHealth: only a broken chain is a fault; failures and waiting gates need a person. */
  function Classify(chainIntact: bool, failed: nat, pending: nat): Health {
    if !chainIntact then Broken else if failed > 0 || pending > 0 then Attention else Healthy
  }

  /** InspectRuntime: one pass over the trail, stage by stage. */
  method InspectRuntime(name: string, trail: seq<Entry>, usage: Usage, chainIntact: bool) returns (health: Instance)
    ensures health == Instance(name, Classify(chainIntact, 0, PendingIn(trail)), usage, BlockedIn(trail),
                               PendingIn(trail), 0, chainIntact)
  {
    var blocked, pending := 0, 0;
    var i := 0;
    while i < |trail|
      invariant 0 <= i <= |trail|
      invariant blocked == BlockedIn(trail[..i]) && pending == PendingIn(trail[..i])
    {
      assert Front(trail[..i + 1]) == trail[..i];
      var record := trail[i];
      i := i + 1;
      if record.stage == "policy" {
        if "VIOLATED" <= record.output {
          PendingIsNotViolated(record.output);
          blocked := blocked + 1;
        } else if "PENDING" <= record.output {
          pending := pending + 1;
        }
      } else if record.stage == "approval" {
        if "REJECTED" <= record.output || "REFUSED" <= record.output {
          blocked := blocked + 1;
        }
      } else if record.stage == "tenant" {
        if "REFUSED" <= record.output {
          blocked := blocked + 1;
        }
      }
    }
    assert trail[..i] == trail;
    health := Instance(name, Classify(chainIntact, 0, pending), usage, blocked, pending, 0, chainIntact);
  }

  /** An entry that says governance stopped something. */
  predicate Stops(e: Entry) {
    || (e.stage == "policy" && "VIOLATED" <= e.output)
    || (e.stage == "approval" && ("REJECTED" <= e.output || "REFUSED" <= e.output))
    || (e.stage == "tenant" && "REFUSED" <= e.output)
  }

  /** An entry that says a person is waited for. */
  predicate Awaits(e: Entry) { e.stage == "policy" && "PENDING" <= e.output }

  lemma OneEntry(e: Entry)
    ensures BlockedBy(e) == if Stops(e) then 1 else 0
    ensures PendingBy(e) == if Awaits(e) then 1 else 0
  {
  }

  /** The blocked count of a trail is the number of its entries that stop something. */
  lemma {:induction false} BlockedCount(trail: seq<Entry>)
    ensures BlockedIn(trail) == |set i: nat | i < |trail| && Stops(trail[i])|
  {
    hide Stops, BlockedBy;
    var places := set i: nat | i < |trail| && Stops(trail[i]);
    if trail == [] {
      assert places == {};
    } else {
      var front := Front(trail);
      BlockedCount(front);
      OneEntry(Last(trail));
      var before := set i: nat | i < |front| && Stops(front[i]);
      assert places == if Stops(Last(trail)) then before + {|front|} else before;
    }
  }

  /** And the pending count of those that wait. */
  lemma {:induction false} PendingCount(trail: seq<Entry>)
    ensures PendingIn(trail) == |set i: nat | i < |trail| && Awaits(trail[i])|
  {
    hide Awaits, PendingBy;
    var places := set i: nat | i < |trail| && Awaits(trail[i]);
    if trail == [] {
      assert places == {};
    } else {
      var front := Front(trail);
      PendingCount(front);
      OneEntry(Last(trail));
      var before := set i: nat | i < |front| && Awaits(front[i]);
      assert places == if Awaits(Last(trail)) then before + {|front|} else before;
    }
  }

  /** Only a broken chain makes a runtime broken; failures and waiting gates make it want attention, and
      blocks alone leave it healthy. */
  lemma HealthIs(chainIntact: bool, failed: nat, pending: nat)
    ensures Classify(chainIntact, failed, pending) == Broken <==> !chainIntact
    ensures Classify(chainIntact, failed, pending) == Attention <==> chainIntact && (failed > 0 || pending > 0)
    ensures Classify(chainIntact, failed, pending) == Healthy <==> chainIntact && failed == 0 && pending == 0
  {
  }

  lemma PendingIsNotViolated(output: string)
    requires "VIOLATED" <= output
    ensures !("PENDING" <= output)
  {
    assert output[0] == 'V' && "PENDING"[0] == 'P';
  }

  // -- health agrees with the gates ----------------------------------------------------------------

  lemma {:induction false} CountsAppend(a: seq<Entry>, b: seq<Entry>)
    ensures BlockedIn(a + b) == BlockedIn(a) + BlockedIn(b) && PendingIn(a + b) == PendingIn(a) + PendingIn(b)
  {
    hide BlockedBy, PendingBy;
    if b == [] {
      assert a + b == a;
    } else {
      assert Front(a + b) == a + Front(b);
      CountsAppend(a, Front(b));
    }
  }

  lemma CountsOfOne(e: Entry)
    ensures BlockedIn([e]) == BlockedBy(e) && PendingIn([e]) == PendingBy(e)
  {
    hide BlockedBy, PendingBy;
    assert Front([e]) == [];
  }

  /** One policy's entry counts exactly when the policy is left unresolved: as pending if its gate has
      no verdict yet, else as blocked. */
  lemma EntryCounts(p: Policy, j: Judgment, approval: Option<Approval>)
    requires j != JudgeError
    ensures PendingBy(EntryOf(p, j, approval))
         == if Unresolved(p, j, approval) && Waiting(p, j, approval) then 1 else 0
    ensures BlockedBy(EntryOf(p, j, approval))
         == if Unresolved(p, j, approval) && !Waiting(p, j, approval) then 1 else 0
  {
    hide Allows;
    var output := OutputOf(p, j, approval);
    assert output[0] == (if j == Complies then 'c' else if !Gated(p, j) then 'V'
                         else if Waiting(p, j, approval) then 'P' else if Waived(p, j, approval) then 'a' else 'R');
    assert "VIOLATED"[0] == 'V' && "PENDING"[0] == 'P' && "REJECTED"[0] == 'R' && "REFUSED"[0] == 'R';
    Reasons(p, j, approval);
  }

  lemma Reasons(p: Policy, j: Judgment, approval: Option<Approval>)
    ensures var output := OutputOf(p, j, approval);
            && (j == Violates && !p.approvalRequired ==> "VIOLATED" <= output)
            && (Waiting(p, j, approval) ==> "PENDING" <= output)
            && (Gated(p, j) && VerdictOn(p, j, approval).Some? && !Waived(p, j, approval) ==>
                  "REJECTED" <= output || "REFUSED" <= output)
  {
    hide Allows, ApproverName;
    assert "PENDING APPROVAL" == "PENDING" + " APPROVAL";
    assert "REFUSED -- " == "REFUSED" + " -- " && "REJECTED by " == "REJECTED" + " by ";
  }

  lemma {:induction false} GateCounts(judge: Judges, policies: seq<Policy>, approval: Option<Approval>)
    requires Judged(judge, policies)
    ensures PendingIn(Entries(judge, policies, approval)) == |ViolationsThat(judge, policies, approval, true)|
    ensures BlockedIn(Entries(judge, policies, approval)) == |ViolationsThat(judge, policies, approval, false)|
  {
    hide EntryOf, Unresolved, Waiting, BlockedBy, PendingBy;
    if policies != [] {
      var front, p := policies[..|policies| - 1], policies[|policies| - 1];
      assert forall i | 0 <= i < |front| :: front[i] == policies[i];
      GateCounts(judge, front, approval);
      var j := judge(|front|, p);
      EntryCounts(p, j, approval);
      CountsAppend(Entries(judge, front, approval), [EntryOf(p, j, approval)]);
      CountsOfOne(EntryOf(p, j, approval));
    }
  }

  /** The waiting violations and the others make up what govern returns. */
  lemma {:induction false} ViolationsAdd(judge: Judges, policies: seq<Policy>, approval: Option<Approval>)
    ensures |Violations(judge, policies, approval)|
         == |ViolationsThat(judge, policies, approval, true)| + |ViolationsThat(judge, policies, approval, false)|
  {
    hide Unresolved, Waiting;
    if policies != [] {
      ViolationsAdd(judge, policies[..|policies| - 1], approval);
    }
  }

  /** The summary enforce writes for a parked gate counts nothing: the gate was counted already. */
  lemma SummaryCountsNothing(policies: seq<Policy>)
    ensures BlockedBy(Summary(policies)) == 0 && PendingBy(Summary(policies)) == 0
  {
    assert Summary(policies).output[0] == 'P' && "REJECTED"[0] == 'R' && "REFUSED"[0] == 'R';
    assert "policy"[0] != "approval"[0] && "tenant"[0] != "approval"[0];
  }

  /** Entries of stages that do not govern. */
  predicate Plain(entries: seq<Entry>) { forall e | e in entries :: e.stage !in ["policy", "approval", "tenant"] }

  lemma {:induction false} PlainCountsNothing(entries: seq<Entry>)
    requires Plain(entries)
    ensures BlockedIn(entries) == 0 && PendingIn(entries) == 0
  {
    if entries != [] {
      assert Last(entries) in entries && forall e | e in Front(entries) :: e in entries;
      PlainCountsNothing(Front(entries));
    }
  }

  lemma StageCounts(stack: Stack, world: World, i: nat, c: Cycle, stage: Stage)
    requires Plain(world.notes(i))
    ensures var entries := StageEntries(stack, world, i, c, stage);
            && PendingIn(entries) == StageViolations(stack, world, i, c, stage, true)
            && BlockedIn(entries) == StageViolations(stack, world, i, c, stage, false)
  {
    hide BlockedIn, PendingIn, Entries, ViolationsThat, GovernedPolicies, Enforced, Plain;
    if stage.Govern? {
      var judge, policies := JudgeAt(world, i), GovernedPolicies(stack, c, stage.workflow);
      var judged := policies[..JudgedCount(judge, policies)];
      GateCounts(judge, judged, stack.approval);
      var gate := GateOf(judge, policies, stack.approval);
      if gate.Parked? {
        SummaryCountsNothing(gate.policies);
        CountsOfOne(Summary(gate.policies));
        CountsAppend(Entries(judge, judged, stack.approval), [Summary(gate.policies)]);
      }
      assert Entries(judge, judged, stack.approval) + [] == Entries(judge, judged, stack.approval);
    } else {
      PlainCountsNothing(world.notes(i));
    }
  }

  lemma {:induction false} StagesCount(stack: Stack, world: World, pipeline: seq<Stage>, i: nat, c: Cycle)
    requires i <= |pipeline|
    requires forall k :: Plain(world.notes(k))
    ensures PendingIn(EntriesFrom(stack, world, pipeline, i, c)) == ViolationsFrom(stack, world, pipeline, i, c, true)
    ensures BlockedIn(EntriesFrom(stack, world, pipeline, i, c)) == ViolationsFrom(stack, world, pipeline, i, c, false)
    decreases |pipeline| - i
  {
    hide StageOutcome, StageEntries, StageViolations, Plain, BlockedBy, PendingBy;
    if i < |pipeline| && !world.cancelled(i) {
      StageCounts(stack, world, i, c, pipeline[i]);
      match StageOutcome(stack, world, i, c, pipeline[i]) {
        case Stopped(_) =>
        case Returned(next) =>
          StagesCount(stack, world, pipeline, i + 1, next);
          CountsAppend(StageEntries(stack, world, i, c, pipeline[i]), EntriesFrom(stack, world, pipeline, i + 1, next));
      }
    }
  }

  /** One cycle with what the runtime writes before and after its stages. */
  datatype Run = Run(stack: Stack, world: World, pipeline: seq<Stage>, before: seq<Entry>, after: seq<Entry>)

  function RunTrail(r: Run): seq<Entry> { r.before + ReasonEntries(r.stack, r.world, r.pipeline) + r.after }

  function Trail(runs: seq<Run>): seq<Entry> {
    if runs == [] then [] else Trail(Front(runs)) + RunTrail(Last(runs))
  }

  function RunViolations(r: Run, wait: bool): nat {
    if r.world.refusal.Some? then 0 else ViolationsFrom(r.stack, r.world, r.pipeline, 0, FRESH, wait)
  }

  /** The violations govern found over all runs: those waiting for a verdict, or the rest. */
  function AllViolations(runs: seq<Run>, wait: bool): nat {
    if runs == [] then 0 else AllViolations(Front(runs), wait) + RunViolations(Last(runs), wait)
  }

  function Refusals(runs: seq<Run>): nat {
    if runs == [] then 0 else Refusals(Front(runs)) + (if Last(runs).world.refusal.Some? then 1 else 0)
  }

  ghost predicate Sound(r: Run) {
    && Plain(r.before) && Plain(r.after) && forall k :: Plain(r.world.notes(k))
  }

  lemma RunCounts(r: Run)
    requires Sound(r)
    ensures PendingIn(RunTrail(r)) == RunViolations(r, true)
    ensures BlockedIn(RunTrail(r)) == RunViolations(r, false) + (if r.world.refusal.Some? then 1 else 0)
  {
    hide BlockedIn, PendingIn, RunFrom, EntriesFrom, ViolationsFrom, Plain;
    var entries := ReasonEntries(r.stack, r.world, r.pipeline);
    CountsAppend(r.before + entries, r.after);
    CountsAppend(r.before, entries);
    PlainCountsNothing(r.before);
    PlainCountsNothing(r.after);
    if r.world.refusal.Some? {
      var e := Entry("tenant", "REFUSED -- " + r.world.refusal.value);
      CountsOfOne(e);
      TenantCounts(r.world.refusal.value);
    } else {
      StagesCount(r.stack, r.world, r.pipeline, 0, FRESH);
    }
  }

  lemma TenantCounts(why: string)
    ensures BlockedBy(Entry("tenant", "REFUSED -- " + why)) == 1 && PendingBy(Entry("tenant", "REFUSED -- " + why)) == 0
  {
    assert "REFUSED -- " + why == "REFUSED" + (" -- " + why);
    assert "policy"[0] != "tenant"[0] && "approval"[0] != "tenant"[0];
  }

  /** Over any cycles, the trail's pending count is the number of violations govern found waiting for a
      verdict, and its blocked count the number it found unresolved for any other reason plus the tenant
      refusals: nothing is missed and nothing counted twice. A judge error fails its gate, and what was
      found there before it counts. */
  lemma {:induction false} HealthAgreesWithGovernance(runs: seq<Run>)
    requires forall r | r in runs :: Sound(r)
    ensures PendingIn(Trail(runs)) == AllViolations(runs, true)
    ensures BlockedIn(Trail(runs)) == AllViolations(runs, false) + Refusals(runs)
  {
    hide Sound, RunTrail, RunViolations, BlockedBy, PendingBy;
    if runs != [] {
      assert Last(runs) in runs && forall r | r in Front(runs) :: r in runs;
      HealthAgreesWithGovernance(Front(runs));
      RunCounts(Last(runs));
      CountsAppend(Trail(Front(runs)), RunTrail(Last(runs)));
    }
  }

  // -- the fleet -----------------------------------------------------------------------------------

  /** Before(a, b) is Go's order of names. */
  predicate WorseFirst(a: Instance, b: Instance) {
    Rank(a.status) > Rank(b.status) || (Rank(a.status) == Rank(b.status) && Before(a.name, b.name))
  }

  predicate Ordered(s: seq<Instance>) { forall i, j | 0 <= i < j < |s| :: !WorseFirst(s[j], s[i]) }

  /** The instances of one rank and name, in order. */
  function Alike(s: seq<Instance>, rank: nat, name: string): seq<Instance> {
    if s == [] then []
    else Alike(Front(s), rank, name)
         + (if Rank(Last(s).status) == rank && Last(s).name == name then [Last(s)] else [])
  }

  function Worst(s: seq<Instance>): Health {
    if s == [] then Healthy
    else if Rank(Last(s).status) > Rank(Worst(Front(s))) then Last(s).status else Worst(Front(s))
  }

  function Total(s: seq<Instance>, of: Instance -> nat): nat {
    if s == [] then 0 else Total(Front(s), of) + of(Last(s))
  }

  function DollarsOf(s: seq<Instance>): real {
    if s == [] then 0.0 else DollarsOf(Front(s)) + Last(s).usage.dollars
  }

  function CyclesOf(x: Instance): nat { x.usage.cycles }

  function TokensOf(x: Instance): nat { x.usage.tokens }

  function BlockedOf(x: Instance): nat { x.blocked }

  function PendingOf(x: Instance): nat { x.pending }

  function FailedOf(x: Instance): nat { x.failed }

  function BrokenOf(x: Instance): nat { if x.status == Broken then 1 else 0 }

  /** One more instance put behind all that are not better than it. */
  function Place(s: seq<Instance>, x: Instance): seq<Instance> {
    if s != [] && WorseFirst(x, Last(s)) then Place(Front(s), x) + [Last(s)] else s + [x]
  }

  function Sorted(s: seq<Instance>): seq<Instance> { if s == [] then [] else Place(Sorted(Front(s)), Last(s)) }

  lemma WorseFirstOrders(a: Instance, b: Instance, c: Instance)
    ensures !(WorseFirst(a, b) && WorseFirst(b, a)) && !WorseFirst(a, a)
    ensures WorseFirst(a, b) && WorseFirst(b, c) ==> WorseFirst(a, c)
    ensures !WorseFirst(a, b) && !WorseFirst(b, c) ==> !WorseFirst(a, c)
  {
    hide Before;
    BeforeIsTotal(a.name, b.name);
    BeforeIsTotal(a.name, a.name);
    BeforeIsTotal(b.name, c.name);
    BeforeIsTotal(a.name, c.name);
    if Before(a.name, b.name) && Before(b.name, c.name) {
      BeforeIsTransitive(a.name, b.name, c.name);
    }
    if Before(a.name, c.name) && Before(c.name, b.name) {
      BeforeIsTransitive(a.name, c.name, b.name);
    }
    if Before(b.name, a.name) && Before(a.name, c.name) {
      BeforeIsTransitive(b.name, a.name, c.name);
    }
  }

  lemma {:induction false} PlaceOrders(s: seq<Instance>, x: Instance)
    requires Ordered(s)
    ensures Ordered(Place(s, x)) && forall y :: y in Place(s, x) <==> y in s || y == x
  {
    hide WorseFirst;
    if s != [] && WorseFirst(x, Last(s)) {
      var front, placed := Front(s), Place(Front(s), x);
      PlaceOrders(front, x);
      assert s == front + [Last(s)];
      forall i | 0 <= i < |placed|
        ensures !WorseFirst(Last(s), placed[i])
      {
        assert placed[i] in placed;
        if placed[i] == x {
          WorseFirstOrders(x, Last(s), x);
        } else {
          assert placed[i] in front;
        }
      }
    } else {
      forall i | 0 <= i < |s|
        ensures !WorseFirst(x, s[i])
      {
        if i < |s| - 1 {
          WorseFirstOrders(x, Last(s), s[i]);
        }
      }
    }
  }

  lemma {:induction false} PlaceIsStable(s: seq<Instance>, x: Instance, rank: nat, name: string)
    ensures Alike(Place(s, x), rank, name) == Alike(s + [x], rank, name)
  {
    assert Front(s + [x]) == s;
    if s != [] && WorseFirst(x, Last(s)) {
      PlaceIsStable(Front(s), x, rank, name);
      assert Front(Front(s) + [x]) == Front(s);
      assert Front(Place(Front(s), x) + [Last(s)]) == Place(Front(s), x);
      BeforeIsTotal(x.name, x.name);
    }
  }

  lemma {:induction false} AlikeAppend(a: seq<Instance>, x: Instance, rank: nat, name: string)
    ensures Alike(a + [x], rank, name) == Alike(a, rank, name) + Alike([x], rank, name)
  {
    assert Front(a + [x]) == a && Front([x]) == [];
  }

  /** Sorting orders the instances worst first, and keeps those of the same rank and name in the order
      they came: it is a stable permutation. */
  lemma {:induction false} SortedIsStable(s: seq<Instance>)
    ensures Ordered(Sorted(s)) && (forall y :: y in Sorted(s) <==> y in s)
    ensures forall rank, name :: Alike(Sorted(s), rank, name) == Alike(s, rank, name)
  {
    hide WorseFirst, Place;
    if s != [] {
      var front, x := Front(s), Last(s);
      SortedIsStable(front);
      PlaceOrders(Sorted(front), x);
      assert s == front + [x];
      forall rank, name
        ensures Alike(Sorted(s), rank, name) == Alike(s, rank, name)
      {
        PlaceIsStable(Sorted(front), x, rank, name);
        AlikeAppend(Sorted(front), x, rank, name);
        AlikeAppend(front, x, rank, name);
      }
    }
  }

  lemma {:induction false} WorstIsHighest(s: seq<Instance>)
    ensures forall x | x in s :: Rank(x.status) <= Rank(Worst(s))
    ensures s != [] ==> exists x :: x in s && x.status == Worst(s)
  {
    if s != [] {
      WorstIsHighest(Front(s));
      assert s == Front(s) + [Last(s)];
      if Front(s) == [] {
        assert Last(s) in s;
      } else if Worst(s) == Worst(Front(s)) {
        var x :| x in Front(s) && x.status == Worst(Front(s));
        assert x in s;
      } else {
        assert Last(s) in s;
      }
    }
  }

  class FleetHealth {
    var instances: seq<Instance>
    var cycles: nat
    var tokens: nat
    var dollars: real
    var blocked: nat
    var pending: nat
    var failed: nat
    var broken: nat

    /** The totals are those of the instances folded in. */
    ghost predicate Valid()
      reads this
    {
      && cycles == Total(instances, CyclesOf) && tokens == Total(instances, TokensOf)
      && dollars == DollarsOf(instances)
      && blocked == Total(instances, BlockedOf) && pending == Total(instances, PendingOf)
      && failed == Total(instances, FailedOf) && broken == Total(instances, BrokenOf)
    }

    constructor ()
      ensures Valid() && instances == []
      ensures cycles == tokens == blocked == pending == failed == broken == 0 && dollars == 0.0
    {
      instances, cycles, tokens, dollars, blocked, pending, failed, broken := [], 0, 0, 0.0, 0, 0, 0, 0;
    }

    method Add(instance: Instance)
      requires Valid()
      modifies this
      ensures Valid() && instances == old(instances) + [instance]
      ensures cycles == old(cycles) + instance.usage.cycles && tokens == old(tokens) + instance.usage.tokens
      ensures dollars == old(dollars) + instance.usage.dollars && blocked == old(blocked) + instance.blocked
      ensures pending == old(pending) + instance.pending && failed == old(failed) + instance.failed
      ensures broken == old(broken) + (if instance.status == Broken then 1 else 0)
    {
      hide Total, DollarsOf;
      TotalMore(instances, instance, CyclesOf);
      TotalMore(instances, instance, TokensOf);
      DollarsMore(instances, instance);
      TotalMore(instances, instance, BlockedOf);
      TotalMore(instances, instance, PendingOf);
      TotalMore(instances, instance, FailedOf);
      TotalMore(instances, instance, BrokenOf);
      instances := instances + [instance];
      cycles, tokens := cycles + instance.usage.cycles, tokens + instance.usage.tokens;
      dollars := dollars + instance.usage.dollars;
      blocked, pending, failed := blocked + instance.blocked, pending + instance.pending, failed + instance.failed;
      if instance.status == Broken {
        broken := broken + 1;
      }
    }

    /** The worst status of any instance. */
    method Status() returns (worst: Health)
      ensures worst == Worst(instances)
      ensures worst == Broken <==> exists x :: x in instances && x.status == Broken
      ensures worst == Healthy <==> forall x | x in instances :: x.status == Healthy
    {
      worst := Healthy;
      var i := 0;
      while i < |instances|
        invariant 0 <= i <= |instances| && worst == Worst(instances[..i])
      {
        assert Front(instances[..i + 1]) == instances[..i];
        if Rank(instances[i].status) > Rank(worst) {
          worst := instances[i].status;
        }
        i := i + 1;
      }
      assert instances[..i] == instances;
      WorstIsHighest(instances);
    }

    /** Worst first, names ascending within a rank, a stable order: afterwards the first instance has
        the fleet's status. */
    method SortWorstFirst()
      modifies this`instances
      ensures instances == Sorted(old(instances)) && Ordered(instances)
      ensures instances != [] ==> instances[0].status == Worst(instances)
    {
      hide Place, WorseFirst;
      var sorted: seq<Instance> := [];
      var i := 0;
      while i < |instances|
        invariant 0 <= i <= |instances| && sorted == Sorted(instances[..i]) && instances == old(instances)
      {
        assert Front(instances[..i + 1]) == instances[..i];
        sorted := Place(sorted, instances[i]);
        i := i + 1;
      }
      assert instances[..i] == instances;
      SortedIsStable(instances);
      instances := sorted;
      if instances != [] {
        HeadIsWorst(instances);
      }
    }
  }

  /** In the sorted fleet nobody stands before someone worse: broken ones come first, then those that want
      attention, then the healthy, and those alike by name. */
  lemma WorstComeFirst(s: seq<Instance>, i: nat, j: nat)
    requires i < j < |Sorted(s)|
    ensures var a, b := Sorted(s)[i], Sorted(s)[j];
            && (b.status == Broken ==> a.status == Broken)
            && (b.status == Attention ==> a.status != Healthy)
            && (a.status == b.status ==> a.name == b.name || Before(a.name, b.name))
  {
    hide Sorted, Before;
    SortedIsStable(s);
    var a, b := Sorted(s)[i], Sorted(s)[j];
    assert !WorseFirst(b, a);
    BeforeIsTotal(a.name, b.name);
  }

  lemma DollarsMore(s: seq<Instance>, x: Instance)
    ensures DollarsOf(s + [x]) == DollarsOf(s) + x.usage.dollars
  {
    assert Front(s + [x]) == s;
  }

  lemma TotalMore(s: seq<Instance>, x: Instance, of: Instance -> nat)
    ensures Total(s + [x], of) == Total(s, of) + of(x)
  {
    assert Front(s + [x]) == s;
  }

  /** The head of an ordered fleet is as unwell as the fleet. */
  lemma HeadIsWorst(s: seq<Instance>)
    requires Ordered(s) && s != []
    ensures s[0].status == Worst(s)
  {
    hide Worst;
    WorstIsHighest(s);
    var x :| x in s && x.status == Worst(s);
    var i :| 0 <= i < |s| && s[i] == x;
    assert s[0] in s && !(i > 0 && WorseFirst(s[i], s[0]));
  }
}
