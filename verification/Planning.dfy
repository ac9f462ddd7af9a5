/** pipeline.go and stages.go, the choices of a cycle: which processes run and in which order their
    workflows do, whatever names the model answers. */
module Planning {
  import opened Governance
  import opened Options
  import opened Section
  import opened Text

  /** `id` tells apart values the source compares by pointer. */
  datatype Workflow = Workflow(id: nat, name: string, policies: seq<Policy>)

  datatype Process = Process(id: nat, name: string, workflows: seq<Workflow>)

  // -- choosing processes --------------------------------------------------------------------------

  /** The last process of the pool whose name normalizes to the key: later entries of a map replace
      earlier ones. */
  function ProcessAt(pool: seq<Process>, key: string): Option<Process> {
    if pool == [] then None
    else if Normalize(Last(pool).name) == key then Some(Last(pool))
    else ProcessAt(Front(pool), key)
  }

  function Resolved(names: seq<string>, pool: seq<Process>): seq<Process> {
    if names == [] then []
    else
      var before, p := Resolved(Front(names), pool), ProcessAt(pool, Normalize(Last(names)));
      if p.Some? && p.value !in before then before + [p.value] else before
  }

  method ResolveProcesses(names: seq<string>, pool: seq<Process>) returns (found: seq<Process>)
    ensures found == Resolved(names, pool)
  {
    hide Normalize;
    found := [];
    var seen: set<Process> := {};
    var i := 0;
    while i < |names|
      invariant 0 <= i <= |names| && found == Resolved(names[..i], pool) && seen == set p | p in found
    {
      assert Front(names[..i + 1]) == names[..i];
      var p := ProcessAt(pool, Normalize(names[i]));
      if p.Some? && p.value !in seen {
        seen := seen + {p.value};
        found := found + [p.value];
      }
      i := i + 1;
    }
    assert names[..i] == names;
  }

  predicate NoRepeats<T(==)>(s: seq<T>) { forall i, j | 0 <= i < j < |s| :: s[i] != s[j] }

  lemma {:induction false} ProcessAtInPool(pool: seq<Process>, key: string)
    ensures ProcessAt(pool, key).Some? ==> ProcessAt(pool, key).value in pool
  {
    if pool != [] {
      ProcessAtInPool(Front(pool), key);
    }
  }

  /** Whatever the model names, only processes of the pool are found, each once. */
  lemma {:induction false} ResolvedFromPool(names: seq<string>, pool: seq<Process>)
    ensures NoRepeats(Resolved(names, pool)) && forall p | p in Resolved(names, pool) :: p in pool
  {
    hide ProcessAt, Normalize;
    if names != [] {
      ResolvedFromPool(Front(names), pool);
      ProcessAtInPool(pool, Normalize(Last(names)));
    }
  }

  /** The first process of each name, in order. */
  function FirstOfEachName(candidates: seq<Process>): seq<Process> {
    if candidates == [] then []
    else
      var before := FirstOfEachName(Front(candidates));
      if exists p | p in before :: p.name == Last(candidates).name then before else before + [Last(candidates)]
  }

  method SelectProcesses(candidates: seq<Process>) returns (selected: seq<Process>)
    ensures selected == FirstOfEachName(candidates)
  {
    selected := [];
    var seen: set<string> := {};
    var i := 0;
    while i < |candidates|
      invariant 0 <= i <= |candidates| && selected == FirstOfEachName(candidates[..i])
      invariant forall n :: n in seen <==> exists p :: p in selected && p.name == n
    {
      assert Front(candidates[..i + 1]) == candidates[..i];
      if candidates[i].name !in seen {
        ghost var before := selected;
        seen := seen + {candidates[i].name};
        selected := selected + [candidates[i]];
        assert forall p :: p in selected <==> p in before || p == candidates[i];
      }
      i := i + 1;
    }
    assert candidates[..i] == candidates;
  }

  predicate DistinctNames(s: seq<Process>) { forall i, j | 0 <= i < j < |s| :: s[i].name != s[j].name }

  /** Selection invents nothing and takes no name twice. */
  lemma {:induction false} SelectedAreCandidates(candidates: seq<Process>)
    ensures forall p | p in FirstOfEachName(candidates) :: p in candidates
    ensures DistinctNames(FirstOfEachName(candidates))
  {
    if candidates != [] {
      SelectedAreCandidates(Front(candidates));
    }
  }

  /** It keeps a process of every candidate name. */
  lemma {:induction false} EveryNameSelected(candidates: seq<Process>, c: Process) returns (p: Process)
    requires c in candidates
    ensures p in FirstOfEachName(candidates) && p.name == c.name
  {
    var front, last := Front(candidates), Last(candidates);
    assert candidates == front + [last];
    if c in front {
      p := EveryNameSelected(front, c);
    } else if q :| q in FirstOfEachName(front) && q.name == last.name {
      p := q;
    } else {
      p := last;
    }
  }

  // -- the plan ------------------------------------------------------------------------------------

  /** compose: the workflows of the selected processes, one after the other. */
  function Composed(selected: seq<Process>): seq<Workflow> {
    if selected == [] then [] else Composed(Front(selected)) + Last(selected).workflows
  }

  method Compose(selected: seq<Process>) returns (plan: seq<Workflow>)
    ensures plan == Composed(selected)
  {
    plan := [];
    var i := 0;
    while i < |selected|
      invariant 0 <= i <= |selected| && plan == Composed(selected[..i])
    {
      assert Front(selected[..i + 1]) == selected[..i];
      plan := plan + selected[i].workflows;
      i := i + 1;
    }
    assert selected[..i] == selected;
  }

  /** Process by process, each with its workflows in their own order. */
  lemma {:induction false} ComposedIs(a: seq<Process>, p: Process, b: seq<Process>)
    ensures Composed(a + [p] + b) == Composed(a) + p.workflows + Composed(b)
  {
    if b == [] {
      assert a + [p] + b == a + [p] && Front(a + [p]) == a;
    } else {
      assert Front(a + [p] + b) == a + [p] + Front(b);
      ComposedIs(a, p, Front(b));
      assert Composed(a) + p.workflows + (Composed(Front(b)) + Last(b).workflows)
          == Composed(a) + p.workflows + Composed(Front(b)) + Last(b).workflows;
    }
  }

  lemma {:induction false} ComposedMembers(selected: seq<Process>, w: Workflow)
    ensures w in Composed(selected) <==> exists p :: p in selected && w in p.workflows
  {
    if selected != [] {
      ComposedMembers(Front(selected), w);
      assert selected == Front(selected) + [Last(selected)];
      if w in Composed(Front(selected)) {
        var p :| p in Front(selected) && w in p.workflows;
        assert p in selected;
      }
    }
  }

  function WorkflowAt(plan: seq<Workflow>, key: string): Option<Workflow> {
    if plan == [] then None
    else if Normalize(Last(plan).name) == key then Some(Last(plan))
    else WorkflowAt(Front(plan), key)
  }

  /** The workflows the model named, each once, in its order. */
  function Named(names: seq<string>, plan: seq<Workflow>): seq<Workflow> {
    if names == [] then []
    else
      var before, w := Named(Front(names), plan), WorkflowAt(plan, Normalize(Last(names)));
      if w.Some? && w.value !in before then before + [w.value] else before
  }

  /** The others, in their composed order. */
  function Rest(plan: seq<Workflow>, placed: seq<Workflow>): seq<Workflow> {
    if plan == [] then [] else Rest(Front(plan), placed) + (if Last(plan) in placed then [] else [Last(plan)])
  }

  function Reordered(names: seq<string>, plan: seq<Workflow>): seq<Workflow> {
    Named(names, plan) + Rest(plan, Named(names, plan))
  }

  method ReorderWorkflows(names: seq<string>, plan: seq<Workflow>) returns (ordered: seq<Workflow>)
    ensures ordered == Reordered(names, plan)
  {
    hide Normalize;
    ordered := [];
    var placed: set<Workflow> := {};
    var i := 0;
    while i < |names|
      invariant 0 <= i <= |names| && ordered == Named(names[..i], plan) && placed == set w | w in ordered
    {
      assert Front(names[..i + 1]) == names[..i];
      var w := WorkflowAt(plan, Normalize(names[i]));
      if w.Some? && w.value !in placed {
        placed := placed + {w.value};
        ordered := ordered + [w.value];
      }
      i := i + 1;
    }
    assert names[..i] == names;
    ghost var named := ordered;
    i := 0;
    while i < |plan|
      invariant 0 <= i <= |plan| && ordered == named + Rest(plan[..i], named)
    {
      assert Front(plan[..i + 1]) == plan[..i];
      if plan[i] !in placed {
        ordered := ordered + [plan[i]];
      }
      i := i + 1;
    }
    assert plan[..i] == plan;
  }

  lemma {:induction false} NamedFromPlan(names: seq<string>, plan: seq<Workflow>)
    ensures NoRepeats(Named(names, plan)) && forall w | w in Named(names, plan) :: w in plan
  {
    hide WorkflowAt, Normalize;
    if names != [] {
      NamedFromPlan(Front(names), plan);
      WorkflowAtInPlan(plan, Normalize(Last(names)));
    }
  }

  lemma {:induction false} WorkflowAtInPlan(plan: seq<Workflow>, key: string)
    ensures WorkflowAt(plan, key).Some? ==> WorkflowAt(plan, key).value in plan
  {
    if plan != [] {
      WorkflowAtInPlan(Front(plan), key);
    }
  }

  lemma {:induction false} RestCounts(plan: seq<Workflow>, placed: seq<Workflow>, w: Workflow)
    ensures multiset(Rest(plan, placed))[w] == if w in placed then 0 else multiset(plan)[w]
  {
    if plan != [] {
      RestCounts(Front(plan), placed, w);
      assert plan == Front(plan) + [Last(plan)];
      CountMore(Front(plan), Last(plan), w);
      CountMore(Rest(Front(plan), placed), Last(plan), w);
    }
  }

  lemma CountMore<T>(s: seq<T>, x: T, w: T)
    ensures multiset(s + [x])[w] == multiset(s)[w] + (if x == w then 1 else 0)
  {
  }

  lemma {:induction false} CountOnce<T>(s: seq<T>, x: T)
    requires NoRepeats(s)
    ensures multiset(s)[x] == if x in s then 1 else 0
  {
    if s != [] {
      CountOnce(Front(s), x);
      assert s == Front(s) + [Last(s)];
      CountMore(Front(s), Last(s), x);
    }
  }

  lemma ReorderedCounts(names: seq<string>, plan: seq<Workflow>, w: Workflow)
    ensures multiset(Reordered(names, plan))[w] == if w in Named(names, plan) then 1 else multiset(plan)[w]
  {
    hide Named, Rest;
    NamedFromPlan(names, plan);
    CountOnce(Named(names, plan), w);
    RestCounts(plan, Named(names, plan), w);
  }

  /** Whatever the model answers, scheduling keeps exactly the composed workflows. */
  lemma ReorderKeepsSet(names: seq<string>, plan: seq<Workflow>, w: Workflow)
    ensures w in Reordered(names, plan) <==> w in plan
  {
    hide Named, Rest, Reordered;
    ReorderedCounts(names, plan, w);
    NamedFromPlan(names, plan);
    assert w in Reordered(names, plan) <==> multiset(Reordered(names, plan))[w] > 0;
    assert w in plan <==> multiset(plan)[w] > 0;
  }

  /** It is a permutation exactly when no workflow the model named was composed twice. */
  lemma ReorderPermutes(names: seq<string>, plan: seq<Workflow>)
    ensures multiset(Reordered(names, plan)) == multiset(plan)
       <==> forall w | w in Named(names, plan) :: multiset(plan)[w] == 1
  {
    hide Named, Rest, Reordered;
    forall w
      ensures multiset(Reordered(names, plan))[w] == if w in Named(names, plan) then 1 else multiset(plan)[w]
    {
      ReorderedCounts(names, plan, w);
    }
  }

  /** A workflow composed twice and named once: one of the two is gone. */
  lemma TwiceComposedOnceNamed(w: Workflow)
    ensures Reordered([w.name], [w, w]) == [w] && multiset([w]) != multiset([w, w])
  {
    hide Normalize;
    assert Front([w.name]) == [] && Front([w, w]) == [w] && Front([w]) == [];
    assert Named([w.name], [w, w]) == [w];
    assert Rest([], [w]) == [] && Rest([w], [w]) == [] && Rest([w, w], [w]) == [];
    assert multiset([w])[w] == 1 && multiset([w, w])[w] == 2;
  }

  /** workflowPolicies. */
  function WorkflowPolicies(plan: seq<Workflow>): seq<Policy> {
    if plan == [] then [] else WorkflowPolicies(Front(plan)) + Last(plan).policies
  }

  /** Workflow by workflow, each with its policies in their own order. */
  lemma {:induction false} WorkflowPoliciesIs(a: seq<Workflow>, w: Workflow, b: seq<Workflow>)
    ensures WorkflowPolicies(a + [w] + b) == WorkflowPolicies(a) + w.policies + WorkflowPolicies(b)
  {
    if b == [] {
      assert a + [w] + b == a + [w] && Front(a + [w]) == a;
    } else {
      assert Front(a + [w] + b) == a + [w] + Front(b);
      WorkflowPoliciesIs(a, w, Front(b));
      assert WorkflowPolicies(a) + w.policies + (WorkflowPolicies(Front(b)) + Last(b).policies)
          == WorkflowPolicies(a) + w.policies + WorkflowPolicies(Front(b)) + Last(b).policies;
    }
  }

  lemma {:induction false} WorkflowPoliciesMembers(plan: seq<Workflow>, p: Policy)
    ensures p in WorkflowPolicies(plan) <==> exists w :: w in plan && p in w.policies
  {
    if plan != [] {
      WorkflowPoliciesMembers(Front(plan), p);
      assert plan == Front(plan) + [Last(plan)];
      if p in WorkflowPolicies(Front(plan)) {
        var w :| w in Front(plan) && p in w.policies;
        assert w in plan;
      }
    }
  }
}
