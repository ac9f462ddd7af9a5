/** Policies and the gates they form: policy.go's judgment and approver list, pipeline.go's govern and
    runtime.go's enforce. Judges, whether the fallback expression, a model or a policy's own gate, are
    an arbitrary oracle where a gate is concerned. */
module Governance {
  import opened Options
  import opened Places
  import opened Section
  import Evaluator
  import Operators
  import ParallelMap
  import Text
  import Values

  datatype Policy = Policy(name: string, fallback: string, approvalRequired: bool, approvers: seq<string>)

  datatype Approval = Approval(approver: string, verdict: Option<bool>)

  // -- one policy ----------------------------------------------------------------------------------

  predicate Allows(p: Policy, approver: string) {
    p.approvers == [] || exists a | a in p.approvers :: Normalize(a) == Normalize(approver)
  }

  /** With no list anyone may waive the gate, else only someone listed, however the name is written. */
  method ApproverAllowed(p: Policy, approver: string) returns (allowed: bool)
    ensures allowed <==> Allows(p, approver)
  {
    hide Normalize;
    if |p.approvers| == 0 {
      return true;
    }
    var want := Normalize(approver);
    for i := 0 to |p.approvers|
      invariant forall k | 0 <= k < i :: Normalize(p.approvers[k]) != want
    {
      if Normalize(p.approvers[i]) == want {
        return true;
      }
    }
    allowed := false;
  }

  /** Policy.Judge: a policy is violated exactly when it has a fallback expression that parses and
      evaluates to a falsy value; whatever cannot be evaluated is not applicable. */
  method Judge(p: Policy, env: Values.Env) returns (complies: bool)
    ensures !complies <==> p.fallback != "" && Evaluator.Meaning(p.fallback, env).Some?
                           && Operators.Falsy(Evaluator.Meaning(p.fallback, env).value)
  {
    hide Evaluator.Meaning, Evaluator.TreeOf;
    if p.fallback == "" {
      return true;
    }
    var value := Evaluator.SafeEval(p.fallback, env);
    assert Evaluator.Meaning(p.fallback, env).Some? ==> value == Values.Ok(Evaluator.Meaning(p.fallback, env).value);
    assert value.Ok? ==> value == Values.Ok(value.value);
    if value.Err? {
      return true;
    }
    Operators.TruthIs(value.value);
    complies := Values.Truthy(value.value);
  }

  // -- a gate --------------------------------------------------------------------------------------

  datatype Judgment = Complies | Violates | JudgeError

  /** One line of the trail, as far as governance writes it. */
  datatype Entry = Entry(stage: string, output: string)

  /** What the judge says of the policy at a place; one policy may stand at several. */
  type Judges = (nat, Policy) -> Judgment

  predicate Gated(p: Policy, j: Judgment) { j == Violates && p.approvalRequired }

  function VerdictOn(p: Policy, j: Judgment, approval: Option<Approval>): Option<bool> {
    if Gated(p, j) && approval.Some? then approval.value.verdict else None
  }

  predicate Waived(p: Policy, j: Judgment, approval: Option<Approval>) {
    VerdictOn(p, j, approval) == Some(true) && Allows(p, approval.value.approver)
  }

  function ApproverName(approval: Option<Approval>): string {
    if approval.None? || approval.value.approver == "" then "an unnamed approver" else approval.value.approver
  }

  function OutputOf(p: Policy, j: Judgment, approval: Option<Approval>): string {
    var verdict := VerdictOn(p, j, approval);
    if j == Complies then "complies"
    else if !Gated(p, j) then "VIOLATED"
    else if verdict == None then "PENDING APPROVAL"
    else if verdict == Some(true) && !Allows(p, approval.value.approver) then
      "REFUSED -- " + ApproverName(approval) + " is not an approved approver for " + p.name
      + " (allowed: " + Text.JoinWith(", ", p.approvers) + ")"
    else if Waived(p, j, approval) then "approved by " + ApproverName(approval)
    else "REJECTED by " + ApproverName(approval)
  }

  function EntryOf(p: Policy, j: Judgment, approval: Option<Approval>): Entry {
    Entry(if Gated(p, j) && VerdictOn(p, j, approval).Some? then "approval" else "policy", OutputOf(p, j, approval))
  }

  /** A policy that still stands in the way. */
  predicate Unresolved(p: Policy, j: Judgment, approval: Option<Approval>) { j == Violates && !Waived(p, j, approval) }

  predicate Judged(judge: Judges, policies: seq<Policy>) {
    forall i | 0 <= i < |policies| :: judge(i, policies[i]) != JudgeError
  }

  /** How many policies are folded before the first judge error. */
  function JudgedCount(judge: Judges, policies: seq<Policy>): (n: nat)
    ensures n <= |policies| && Judged(judge, policies[..n])
    ensures n == |policies| <==> Judged(judge, policies)
    ensures n < |policies| ==> judge(n, policies[n]) == JudgeError
  {
    if policies == [] then 0
    else
      var front := policies[..|policies| - 1];
      var n := JudgedCount(judge, front);
      assert forall i | 0 <= i < |front| :: front[i] == policies[i];
      assert front[..n] == policies[..n];
      if n < |front| || judge(n, policies[n]) == JudgeError then n
      else assert policies[..n + 1] == policies; n + 1
  }

  /** The unresolved violations, in policy order. */
  function Violations(judge: Judges, policies: seq<Policy>, approval: Option<Approval>): seq<Policy> {
    if policies == [] then []
    else
      var n, p := |policies| - 1, policies[|policies| - 1];
      Violations(judge, policies[..n], approval) + (if Unresolved(p, judge(n, p), approval) then [p] else [])
  }

  /** A violation whose gate has no verdict yet. */
  predicate Waiting(p: Policy, j: Judgment, approval: Option<Approval>) {
    Gated(p, j) && VerdictOn(p, j, approval) == None
  }

  /** The unresolved violations that wait for a verdict, or those that do not. */
  function ViolationsThat(judge: Judges, policies: seq<Policy>, approval: Option<Approval>, wait: bool): seq<Policy> {
    if policies == [] then []
    else
      var n, p := |policies| - 1, policies[|policies| - 1];
      ViolationsThat(judge, policies[..n], approval, wait)
      + (if Unresolved(p, judge(n, p), approval) && Waiting(p, judge(n, p), approval) == wait then [p] else [])
  }

  /** What govern writes of some judged policies. */
  function Entries(judge: Judges, policies: seq<Policy>, approval: Option<Approval>): seq<Entry> {
    if policies == [] then []
    else
      var n, p := |policies| - 1, policies[|policies| - 1];
      Entries(judge, policies[..n], approval) + [EntryOf(p, judge(n, p), approval)]
  }

  /** Up to the first judge error. */
  function Written(judge: Judges, policies: seq<Policy>, approval: Option<Approval>): seq<Entry> {
    Entries(judge, policies[..JudgedCount(judge, policies)], approval)
  }

  predicate RejectedBy(approval: Option<Approval>) { approval.Some? && approval.value.verdict == Some(false) }

  predicate Blocks(p: Policy, approval: Option<Approval>) { !p.approvalRequired || RejectedBy(approval) }

  /** The violations that block, or those that wait, in order. */
  function Split(violations: seq<Policy>, approval: Option<Approval>, blocking: bool): seq<Policy> {
    if violations == [] then []
    else
      var p := violations[|violations| - 1];
      Split(violations[..|violations| - 1], approval, blocking)
      + (if Blocks(p, approval) == blocking then [p] else [])
  }

  datatype Gate = Failed | Passed | Blocked(policies: seq<Policy>) | Parked(policies: seq<Policy>)

  function PolicyNames(policies: seq<Policy>): (names: seq<string>)
    ensures |names| == |policies| && forall i | 0 <= i < |names| :: names[i] == policies[i].name
  {
    seq(|policies|, i requires 0 <= i < |policies| => policies[i].name)
  }

  /** What enforce writes of the policies a gate is parked for. */
  function Summary(policies: seq<Policy>): Entry {
    Entry("approval", "PENDING -- human approval required for: " + Text.JoinWith(", ", PolicyNames(policies)))
  }

  /** What it adds to the trail. */
  function SummaryOf(gate: Gate): seq<Entry> { if gate.Parked? then [Summary(gate.policies)] else [] }

  function Enforced(violations: seq<Policy>, approval: Option<Approval>): Gate {
    if violations == [] then Passed
    else if Split(violations, approval, true) != [] then Blocked(Split(violations, approval, true))
    else Parked(Split(violations, approval, false))
  }

  /** enforce(govern(policies)). */
  function GateOf(judge: Judges, policies: seq<Policy>, approval: Option<Approval>): Gate {
    if !Judged(judge, policies) then Failed else Enforced(Violations(judge, policies, approval), approval)
  }

  /** What the whole gate adds to the trail: a parked gate writes one summary more. */
  function GateEntries(judge: Judges, policies: seq<Policy>, approval: Option<Approval>): seq<Entry> {
    Written(judge, policies, approval)
    + SummaryOf(GateOf(judge, policies, approval))
  }

  /** Each item of the fan-out knows its place. */
  function Placed(policies: seq<Policy>): (r: seq<(nat, Policy)>)
    ensures |r| == |policies| && forall i | 0 <= i < |r| :: r[i] == (i, policies[i])
  {
    seq(|policies|, i requires 0 <= i < |policies| => (i, policies[i]))
  }

  lemma FirstError(judge: Judges, policies: seq<Policy>, i: nat)
    requires i < |policies| && Judged(judge, policies[..i])
    ensures judge(i, policies[i]) == JudgeError ==> JudgedCount(judge, policies) == i && !Judged(judge, policies)
  {
    hide JudgedCount;
    var n := JudgedCount(judge, policies);
    assert forall k | 0 <= k < i :: policies[..i][k] == policies[k];
    assert forall k | 0 <= k < n :: policies[..n][k] == policies[k];
  }

  lemma NothingFolded(judge: Judges, policies: seq<Policy>, approval: Option<Approval>)
    ensures Violations(judge, policies[..0], approval) == [] && Entries(judge, policies[..0], approval) == []
  {
  }

  /** One more policy folded. */
  lemma FoldMore(judge: Judges, policies: seq<Policy>, approval: Option<Approval>, i: nat)
    requires i < |policies|
    ensures var p, j := policies[i], judge(i, policies[i]);
            && Violations(judge, policies[..i + 1], approval)
               == Violations(judge, policies[..i], approval) + (if Unresolved(p, j, approval) then [p] else [])
            && Entries(judge, policies[..i + 1], approval)
               == Entries(judge, policies[..i], approval) + [EntryOf(p, j, approval)]
            && (Judged(judge, policies[..i]) && j != JudgeError ==> Judged(judge, policies[..i + 1]))
  {
    hide EntryOf, Unresolved;
    assert policies[..i + 1][..i] == policies[..i];
  }

  class Governor {
    var log: seq<Entry>

    constructor ()
      ensures log == []
    {
      log := [];
    }

    /** govern: the judgments are fanned out and folded back in policy order; the first judge error
        fails the gate. */
    method Govern(judge: Judges, policies: seq<Policy>, approval: Option<Approval>)
      returns (violations: Option<seq<Policy>>)
      modifies this
      ensures violations == if Judged(judge, policies) then Some(Violations(judge, policies, approval)) else None
      ensures log == old(log) + Written(judge, policies, approval)
    {
      hide EntryOf, Unresolved, JudgedCount, Violations, Entries;
      NothingFolded(judge, policies, approval);
      if |policies| == 0 {
        return Some([]);
      }
      var results := ParallelMap.Mapped(Placed(policies), (q: (nat, Policy)) => judge(q.0, q.1));
      var found: seq<Policy> := [];
      var i := 0;
      while i < |results|
        invariant 0 <= i <= |results|
        invariant Judged(judge, policies[..i]) && found == Violations(judge, policies[..i], approval)
        invariant log == old(log) + Entries(judge, policies[..i], approval)
      {
        var p, j := policies[i], results[i];
        FoldMore(judge, policies, approval, i);
        FirstError(judge, policies, i);
        if j == JudgeError {
          return None;
        }
        log := log + [EntryOf(p, j, approval)];
        if Unresolved(p, j, approval) {
          found := found + [p];
        }
        i := i + 1;
      }
      assert policies[..i] == policies;
      violations := Some(found);
    }

    /** enforce: a hard block, a parked approval, or nothing. */
    method Enforce(violations: seq<Policy>, approval: Option<Approval>) returns (gate: Gate)
      modifies this
      ensures gate == Enforced(violations, approval)
      ensures log == old(log) + SummaryOf(gate)
      ensures gate.Parked? ==>
                log == old(log) + [Entry("approval", "PENDING -- human approval required for: "
                                                     + Text.JoinWith(", ", PolicyNames(gate.policies)))]
      ensures !gate.Parked? ==> log == old(log)
    {
      if |violations| == 0 {
        return Passed;
      }
      var blocking, pending := [], [];
      var i := 0;
      while i < |violations|
        invariant 0 <= i <= |violations| && log == old(log)
        invariant blocking == Split(violations[..i], approval, true)
        invariant pending == Split(violations[..i], approval, false)
      {
        var p := violations[i];
        assert violations[..i + 1][..i] == violations[..i];
        if Blocks(p, approval) {
          blocking := blocking + [p];
        } else {
          pending := pending + [p];
        }
        i := i + 1;
      }
      assert violations[..i] == violations;
      if |blocking| > 0 {
        return Blocked(blocking);
      }
      log := log + [Summary(pending)];
      gate := Parked(pending);
    }

    /** A governance stage: govern, then enforce what is left. */
    method RunGate(judge: Judges, policies: seq<Policy>, approval: Option<Approval>) returns (gate: Gate)
      modifies this
      ensures gate == GateOf(judge, policies, approval)
      ensures log == old(log) + GateEntries(judge, policies, approval)
    {
      hide Enforced, Violations, Written;
      var violations := Govern(judge, policies, approval);
      if violations.None? {
        return Failed;
      }
      gate := Enforce(violations.value, approval);
    }
  }

  // -- the trichotomy ------------------------------------------------------------------------------

  /** A policy that lets the gate pass: it complies, or it is gated, approved, and the approver may. */
  predicate Satisfied(p: Policy, j: Judgment, approval: Option<Approval>) {
    || j == Complies
    || (j == Violates && p.approvalRequired && approval.Some? && approval.value.verdict == Some(true)
        && Allows(p, approval.value.approver))
  }

  lemma {:induction false} ViolationsMembers(judge: Judges, policies: seq<Policy>, approval: Option<Approval>)
    ensures forall p :: p in Violations(judge, policies, approval) <==> StandsIn(judge, policies, approval, p)
  {
    hide Unresolved;
    if policies != [] {
      var n, last := |policies| - 1, policies[|policies| - 1];
      var front := policies[..n];
      ViolationsMembers(judge, front, approval);
      forall p
        ensures p in Violations(judge, policies, approval) <==> StandsIn(judge, policies, approval, p)
      {
        if i :| 0 <= i < |front| && front[i] == p && Unresolved(p, judge(i, p), approval) {
          assert policies[i] == p;
        }
      }
    }
  }

  /** At some place this policy is left unresolved. */
  ghost predicate StandsIn(judge: Judges, policies: seq<Policy>, approval: Option<Approval>, p: Policy) {
    exists i | 0 <= i < |policies| :: policies[i] == p && Unresolved(p, judge(i, p), approval)
  }

  lemma {:induction false} SplitMembers(violations: seq<Policy>, approval: Option<Approval>, blocking: bool)
    ensures forall p :: p in Split(violations, approval, blocking)
                   <==> p in violations && Blocks(p, approval) == blocking
  {
    hide Blocks;
    if violations != [] {
      var front, p := violations[..|violations| - 1], violations[|violations| - 1];
      SplitMembers(front, approval, blocking);
      assert violations == front + [p];
    }
  }

  /** A policy somewhere in the way without a gate of its own, or any when the verdict is a rejection. */
  ghost predicate HardViolation(judge: Judges, policies: seq<Policy>, approval: Option<Approval>) {
    exists i | 0 <= i < |policies| ::
      judge(i, policies[i]) == Violates && (!policies[i].approvalRequired || RejectedBy(approval))
  }

  /** At every place the policy is satisfied. */
  ghost predicate AllSatisfied(judge: Judges, policies: seq<Policy>, approval: Option<Approval>) {
    forall i | 0 <= i < |policies| :: Satisfied(policies[i], judge(i, policies[i]), approval)
  }

  /** Every gate fails, passes, blocks or parks, and which one is decided by the policies, the
      judgments and the verdict alone. */
  lemma GateTrichotomy(judge: Judges, policies: seq<Policy>, approval: Option<Approval>)
    ensures var gate := GateOf(judge, policies, approval);
            && (gate == Failed <==> exists i | 0 <= i < |policies| :: judge(i, policies[i]) == JudgeError)
            && (Judged(judge, policies) ==>
                  && (gate == Passed <==> AllSatisfied(judge, policies, approval))
                  && (gate.Blocked? <==> HardViolation(judge, policies, approval))
                  && (gate.Parked? <==> !HardViolation(judge, policies, approval)
                                        && !AllSatisfied(judge, policies, approval)))
  {
    hide Allows, Violations, Split, Unresolved, Satisfied;
    var violations := Violations(judge, policies, approval);
    ViolationsMembers(judge, policies, approval);
    SplitMembers(violations, approval, true);
    SomeMember(violations);
    SomeMember(Split(violations, approval, true));
    if Judged(judge, policies) {
      forall i | 0 <= i < |policies|
        ensures policies[i] in violations || Satisfied(policies[i], judge(i, policies[i]), approval)
        ensures HardAt(policies[i], judge(i, policies[i]), approval) ==> policies[i] in violations
      {
        UnresolvedOrSatisfied(policies[i], judge(i, policies[i]), approval);
      }
      forall p | p in violations
        ensures !AllSatisfied(judge, policies, approval)
        ensures Blocks(p, approval) ==> HardViolation(judge, policies, approval)
      {
        var i :| 0 <= i < |policies| && policies[i] == p && Unresolved(p, judge(i, p), approval);
        UnresolvedOrSatisfied(p, judge(i, p), approval);
      }
    }
  }

  predicate HardAt(p: Policy, j: Judgment, approval: Option<Approval>) {
    j == Violates && (!p.approvalRequired || RejectedBy(approval))
  }

  lemma UnresolvedOrSatisfied(p: Policy, j: Judgment, approval: Option<Approval>)
    requires j != JudgeError
    ensures Unresolved(p, j, approval) <==> !Satisfied(p, j, approval)
    ensures HardAt(p, j, approval) ==> Unresolved(p, j, approval) && Blocks(p, approval)
    ensures Unresolved(p, j, approval) ==> j == Violates
  {
    hide Allows;
  }

  lemma SomeMember<T>(s: seq<T>)
    ensures s != [] ==> s[0] in s
    ensures (exists x :: x in s) ==> s != []
  {
  }

  /** What a stopped gate names: exactly the blocking violations, or exactly the waiting ones. */
  lemma StoppedPolicies(judge: Judges, policies: seq<Policy>, approval: Option<Approval>, p: Policy)
    ensures var gate := GateOf(judge, policies, approval);
            && (gate.Blocked? ==> (p in gate.policies <==>
                  StandsIn(judge, policies, approval, p) && Blocks(p, approval)))
            && (gate.Parked? ==> (p in gate.policies <==> StandsIn(judge, policies, approval, p)))
  {
    hide Allows, Violations, Split, Unresolved, Blocks, StandsIn;
    var violations := Violations(judge, policies, approval);
    ViolationsMembers(judge, policies, approval);
    SplitMembers(violations, approval, true);
    SplitMembers(violations, approval, false);
    NothingBlocks(violations, approval, p);
  }

  lemma NothingBlocks(violations: seq<Policy>, approval: Option<Approval>, p: Policy)
    ensures Split(violations, approval, true) == [] && p in violations ==> !Blocks(p, approval)
  {
    SplitMembers(violations, approval, true);
    SomeMember(Split(violations, approval, true));
  }

  // -- what govern finds and writes, place by place --------------------------------------------------

  lemma ApproverIs(approval: Option<Approval>, p: Policy)
    requires approval.Some?
    ensures ApproverName(approval)
         == if approval.value.approver != "" then approval.value.approver else "an unnamed approver"
    ensures Allows(p, approval.value.approver)
       <==> p.approvers == [] || exists a | a in p.approvers :: Normalize(a) == Normalize(approval.value.approver)
  {
  }

  /** What is written of one judged policy: its stage and its text, by what the judge, the gate and the verdict
      say, as ApproverIs tells the approver's name and standing. */
  lemma EntryIs(p: Policy, j: Judgment, approval: Option<Approval>)
    requires j != JudgeError
    ensures var e, who := EntryOf(p, j, approval), ApproverName(approval);
            if j == Complies then e == Entry("policy", "complies")
            else if !p.approvalRequired then e == Entry("policy", "VIOLATED")
            else if approval == None || approval.value.verdict == None then e == Entry("policy", "PENDING APPROVAL")
            else if approval.value.verdict == Some(false) then e == Entry("approval", "REJECTED by " + who)
            else if Allows(p, approval.value.approver) then e == Entry("approval", "approved by " + who)
            else e == Entry("approval", "REFUSED -- " + who + " is not an approved approver for " + p.name
                                        + " (allowed: " + Text.JoinWith(", ", p.approvers) + ")")
  {
    hide Allows, ApproverName, Text.JoinWith;
    if approval.Some? && approval.value.verdict.Some? && approval.value.verdict != Some(false) {
      assert approval.value.verdict.value;
      assert approval.value.verdict == Some(true);
    }
  }

  /** One entry a policy, in policy order. */
  lemma {:induction false} EntriesInOrder(judge: Judges, policies: seq<Policy>, approval: Option<Approval>)
    ensures |Entries(judge, policies, approval)| == |policies|
    ensures forall i | 0 <= i < |policies| ::
              Entries(judge, policies, approval)[i] == EntryOf(policies[i], judge(i, policies[i]), approval)
  {
    hide EntryOf;
    if policies != [] {
      EntriesInOrder(judge, policies[..|policies| - 1], approval);
    }
  }

  /** The violations are the policies at the places where one is violated and not waived, in policy order. */
  lemma ViolationsInOrder(judge: Judges, policies: seq<Policy>, approval: Option<Approval>) returns (places: seq<nat>)
    ensures Picks(Violations(judge, policies, approval), policies, places)
    ensures forall i: nat | i < |policies| :: i in places <==>
              judge(i, policies[i]) == Violates
              && !(policies[i].approvalRequired && approval.Some? && approval.value.verdict == Some(true)
                   && (policies[i].approvers == []
                       || exists a | a in policies[i].approvers :: Normalize(a) == Normalize(approval.value.approver)))
  {
    hide Violations, Picks, Normalize;
    places := ViolationsUpTo(judge, policies, approval, |policies|, (i: nat) => i < |policies|
                               && Unresolved(policies[i], judge(i, policies[i]), approval));
    assert policies[..|policies|] == policies;
  }

  lemma {:induction false} ViolationsUpTo(judge: Judges, policies: seq<Policy>, approval: Option<Approval>, n: nat,
                                          keep: nat -> bool)
    returns (places: seq<nat>)
    requires n <= |policies|
    requires forall i: nat | i < n :: keep(i) <==> Unresolved(policies[i], judge(i, policies[i]), approval)
    ensures PicksThose(Violations(judge, policies[..n], approval), policies[..n], places, keep)
  {
    hide PicksThose, Unresolved;
    if n == 0 {
      places := [];
      NonePicked<Policy>(keep);
    } else {
      var front, p := policies[..n - 1], policies[n - 1];
      assert policies[..n][..n - 1] == front && policies[..n] == front + [p];
      var before := ViolationsUpTo(judge, policies, approval, n - 1, keep);
      places := PickNext(Violations(judge, front, approval), front, before, keep, p);
      assert Violations(judge, front, approval) + [] == Violations(judge, front, approval);
    }
  }

  /** A stopped gate names its policies in the order of the violations: those without a gate of their own when
      there are any or all when the verdict rejects, and otherwise all. */
  lemma SplitInOrder(violations: seq<Policy>, approval: Option<Approval>, blocking: bool) returns (places: seq<nat>)
    ensures Picks(Split(violations, approval, blocking), violations, places)
    ensures forall i: nat | i < |violations| :: i in places <==>
              blocking == (!violations[i].approvalRequired
                           || (approval.Some? && approval.value.verdict == Some(false)))
  {
    hide Split, Picks;
    places := SplitUpTo(violations, approval, blocking, |violations|,
                        (i: nat) => i < |violations| && Blocks(violations[i], approval) == blocking);
    assert violations[..|violations|] == violations;
  }

  lemma {:induction false} SplitUpTo(violations: seq<Policy>, approval: Option<Approval>, blocking: bool, n: nat,
                                     keep: nat -> bool)
    returns (places: seq<nat>)
    requires n <= |violations| && forall i: nat | i < n :: keep(i) <==> Blocks(violations[i], approval) == blocking
    ensures PicksThose(Split(violations[..n], approval, blocking), violations[..n], places, keep)
  {
    hide PicksThose, Blocks;
    if n == 0 {
      places := [];
      NonePicked<Policy>(keep);
    } else {
      var front, p := violations[..n - 1], violations[n - 1];
      assert violations[..n][..n - 1] == front && violations[..n] == front + [p];
      var before := SplitUpTo(violations, approval, blocking, n - 1, keep);
      places := PickNext(Split(front, approval, blocking), front, before, keep, p);
      assert Split(front, approval, blocking) + [] == Split(front, approval, blocking);
    }
  }
}
