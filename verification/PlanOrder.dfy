/** The order a plan runs in, told by positions: what a model's answer of names does to it. */
module PlanOrder {
  import opened Options
  import opened Places
  import opened Planning
  import opened Section
  import opened Text

  // -- what an answer names ------------------------------------------------------------------------

  function ProcessName(p: Process): string { p.name }

  function WorkflowName(w: Workflow): string { w.name }

  /** The i-th name stands for x: they normalize alike, and nothing later in the pool does. */
  ghost predicate Means<T(!new)>(names: seq<string>, pool: seq<T>, nameOf: T -> string, i: nat, x: T) {
    && i < |names| && Normalize(nameOf(x)) == Normalize(names[i])
    && exists j: nat :: j < |pool| && LastLike(pool, nameOf, j, x)
  }

  ghost predicate LastLike<T(!new)>(pool: seq<T>, nameOf: T -> string, j: nat, x: T)
    requires j < |pool|
  {
    pool[j] == x && forall k | j < k < |pool| :: Normalize(nameOf(pool[k])) != Normalize(nameOf(x))
  }

  ghost predicate IsNamed<T(!new)>(names: seq<string>, pool: seq<T>, nameOf: T -> string, x: T) {
    exists i: nat :: Means(names, pool, nameOf, i, x)
  }

  /** The first name that stands for x comes before any that stands for y. */
  ghost predicate NamedBefore<T(!new)>(names: seq<string>, pool: seq<T>, nameOf: T -> string, x: T, y: T) {
    exists i: nat :: Means(names, pool, nameOf, i, x) && forall j: nat | Means(names, pool, nameOf, j, y) :: i < j
  }

  /** Exactly what is named, each once, in the order of first mention. */
  ghost predicate InNamedOrder<T(!new)>(r: seq<T>, names: seq<string>, pool: seq<T>, nameOf: T -> string) {
    && (forall x :: x in r <==> IsNamed(names, pool, nameOf, x))
    && (forall p, q | 0 <= p < q < |r| :: NamedBefore(names, pool, nameOf, r[p], r[q]))
  }

  /** What a name stands for, if anything. */
  ghost predicate Found<T(!new)>(pool: seq<T>, nameOf: T -> string, key: string, found: Option<T>) {
    match found
    case Some(x) => Normalize(nameOf(x)) == key && exists j: nat :: j < |pool| && LastLike(pool, nameOf, j, x)
    case None => forall x | x in pool :: Normalize(nameOf(x)) != key
  }

  lemma {:induction false} ProcessFound(pool: seq<Process>, key: string)
    ensures Found(pool, ProcessName, key, ProcessAt(pool, key))
  {
    hide Normalize;
    if pool != [] {
      if Normalize(Last(pool).name) == key {
        assert LastLike(pool, ProcessName, |pool| - 1, Last(pool));
      } else {
        ProcessFound(Front(pool), key);
        LongerPool(Front(pool), ProcessName, key, ProcessAt(pool, key), Last(pool));
        assert pool == Front(pool) + [Last(pool)];
      }
    }
  }

  lemma {:induction false} WorkflowFound(plan: seq<Workflow>, key: string)
    ensures Found(plan, WorkflowName, key, WorkflowAt(plan, key))
  {
    hide Normalize;
    if plan != [] {
      if Normalize(Last(plan).name) == key {
        assert LastLike(plan, WorkflowName, |plan| - 1, Last(plan));
      } else {
        WorkflowFound(Front(plan), key);
        LongerPool(Front(plan), WorkflowName, key, WorkflowAt(plan, key), Last(plan));
        assert plan == Front(plan) + [Last(plan)];
      }
    }
  }

  lemma LongerPool<T(!new)>(pool: seq<T>, nameOf: T -> string, key: string, found: Option<T>, last: T)
    requires Found(pool, nameOf, key, found) && Normalize(nameOf(last)) != key
    ensures Found(pool + [last], nameOf, key, found)
  {
    hide Normalize;
    if found.Some? {
      var j: nat :| j < |pool| && LastLike(pool, nameOf, j, found.value);
      assert LastLike(pool + [last], nameOf, j, found.value);
    }
  }

  /** Two answers for one name are the same. */
  lemma FoundIsOne<T(!new)>(names: seq<string>, pool: seq<T>, nameOf: T -> string, i: nat, found: Option<T>, x: T)
    requires i < |names| && Found(pool, nameOf, Normalize(names[i]), found)
    ensures Means(names, pool, nameOf, i, x) <==> found == Some(x)
  {
    hide Normalize;
    if Means(names, pool, nameOf, i, x) {
      var j: nat :| j < |pool| && LastLike(pool, nameOf, j, x);
      assert x in pool;
      if found.Some? {
        var k: nat :| k < |pool| && LastLike(pool, nameOf, k, found.value);
      }
    }
  }

  /** One name more: what was named stays named, in the same order. */
  lemma LongerAnswer<T(!new)>(names: seq<string>, name: string, pool: seq<T>, nameOf: T -> string, x: T)
    ensures forall i: nat | i < |names| ::
              Means(names + [name], pool, nameOf, i, x) <==> Means(names, pool, nameOf, i, x)
    ensures IsNamed(names + [name], pool, nameOf, x)
       <==> IsNamed(names, pool, nameOf, x) || Means(names + [name], pool, nameOf, |names|, x)
  {
    hide Normalize;
    forall i: nat | i < |names|
      ensures Means(names + [name], pool, nameOf, i, x) <==> Means(names, pool, nameOf, i, x)
    {
      assert (names + [name])[i] == names[i];
    }
    if i: nat :| Means(names + [name], pool, nameOf, i, x) {
      assert i < |names| + 1;
    }
  }

  /** Picking on: a new name adds what it stands for unless that was picked already. */
  lemma PickOn<T(!new)>(r: seq<T>, names: seq<string>, name: string, pool: seq<T>, nameOf: T -> string,
                        found: Option<T>)
    requires InNamedOrder(r, names, pool, nameOf) && Found(pool, nameOf, Normalize(name), found)
    ensures InNamedOrder(if found.Some? && found.value !in r then r + [found.value] else r, names + [name], pool,
                         nameOf)
  {
    hide Normalize, Means, Found;
    var more, n := names + [name], |names|;
    forall x
      ensures IsNamed(more, pool, nameOf, x) <==> IsNamed(names, pool, nameOf, x) || found == Some(x)
    {
      LongerAnswer(names, name, pool, nameOf, x);
      FoundIsOne(more, pool, nameOf, n, found, x);
    }
    forall p, q | 0 <= p < q < |r|
      ensures NamedBefore(more, pool, nameOf, r[p], r[q])
    {
      StaysBefore(names, name, pool, nameOf, r[p], r[q]);
    }
    if found.Some? && found.value !in r {
      forall p | 0 <= p < |r|
        ensures NamedBefore(more, pool, nameOf, r[p], found.value)
      {
        assert r[p] in r;
        NewIsLast(names, name, pool, nameOf, r[p], found.value);
      }
      var longer := r + [found.value];
      assert forall x :: x in longer <==> x in r || x == found.value;
      assert forall p | 0 <= p < |r| :: longer[p] == r[p];
    }
  }

  lemma StaysBefore<T(!new)>(names: seq<string>, name: string, pool: seq<T>, nameOf: T -> string, x: T, y: T)
    requires NamedBefore(names, pool, nameOf, x, y)
    ensures NamedBefore(names + [name], pool, nameOf, x, y)
  {
    hide Means;
    LongerAnswer(names, name, pool, nameOf, x);
    LongerAnswer(names, name, pool, nameOf, y);
    var i: nat :| Means(names, pool, nameOf, i, x) && forall j: nat | Means(names, pool, nameOf, j, y) :: i < j;
    MeansInside(names, pool, nameOf, i, x);
    assert Means(names + [name], pool, nameOf, i, x);
  }

  lemma MeansInside<T(!new)>(names: seq<string>, pool: seq<T>, nameOf: T -> string, i: nat, x: T)
    requires Means(names, pool, nameOf, i, x)
    ensures i < |names|
  {
  }

  lemma NewIsLast<T(!new)>(names: seq<string>, name: string, pool: seq<T>, nameOf: T -> string, x: T, y: T)
    requires IsNamed(names, pool, nameOf, x) && !IsNamed(names, pool, nameOf, y)
    ensures NamedBefore(names + [name], pool, nameOf, x, y)
  {
    hide Means;
    LongerAnswer(names, name, pool, nameOf, x);
    LongerAnswer(names, name, pool, nameOf, y);
    var i: nat :| Means(names, pool, nameOf, i, x);
    MeansInside(names, pool, nameOf, i, x);
    assert Means(names + [name], pool, nameOf, i, x);
  }

  lemma NothingNamed<T(!new)>(pool: seq<T>, nameOf: T -> string)
    ensures InNamedOrder([], [], pool, nameOf)
  {
  }

  // -- the three choices ---------------------------------------------------------------------------

  /** The processes a model names are found once each, in the order it first names them; of several
      with one name the last in the pool is meant. */
  lemma {:induction false} ResolvedInNamedOrder(names: seq<string>, pool: seq<Process>)
    ensures InNamedOrder(Resolved(names, pool), names, pool, ProcessName)
  {
    hide Normalize, ProcessAt, InNamedOrder, Found;
    if names == [] {
      NothingNamed(pool, ProcessName);
    } else {
      var front, last := Front(names), Last(names);
      assert names == front + [last];
      ResolvedInNamedOrder(front, pool);
      ProcessFound(pool, Normalize(last));
      PickOn(Resolved(front, pool), front, last, pool, ProcessName, ProcessAt(pool, Normalize(last)));
    }
  }

  lemma {:induction false} NamedInNamedOrder(names: seq<string>, plan: seq<Workflow>)
    ensures InNamedOrder(Named(names, plan), names, plan, WorkflowName)
  {
    hide Normalize, WorkflowAt, InNamedOrder, Found;
    if names == [] {
      NothingNamed(plan, WorkflowName);
    } else {
      var front, last := Front(names), Last(names);
      assert names == front + [last];
      NamedInNamedOrder(front, plan);
      WorkflowFound(plan, Normalize(last));
      PickOn(Named(front, plan), front, last, plan, WorkflowName, WorkflowAt(plan, Normalize(last)));
    }
  }

  /** Selection keeps the first candidate of each name, in candidate order. */
  lemma SelectedAreFirst(candidates: seq<Process>) returns (places: seq<nat>)
    ensures Picks(FirstOfEachName(candidates), candidates, places)
    ensures forall i: nat | i < |candidates| ::
              i in places <==> forall j | 0 <= j < i :: candidates[j].name != candidates[i].name
  {
    var keep := (i: nat) => i < |candidates| && forall j | 0 <= j < i :: candidates[j].name != candidates[i].name;
    places := SelectedUpTo(candidates, |candidates|, keep);
    assert candidates[..|candidates|] == candidates;
  }

  lemma {:induction false} SelectedUpTo(candidates: seq<Process>, n: nat, keep: nat -> bool) returns (places: seq<nat>)
    requires n <= |candidates|
    requires forall i: nat | i < n :: keep(i) <==> forall j | 0 <= j < i :: candidates[j].name != candidates[i].name
    ensures PicksThose(FirstOfEachName(candidates[..n]), candidates[..n], places, keep)
  {
    hide PicksThose;
    if n == 0 {
      places := [];
      NonePicked<Process>(keep);
    } else {
      var front, last := candidates[..n - 1], candidates[n - 1];
      assert Front(candidates[..n]) == front && candidates[..n] == front + [last];
      var before := SelectedUpTo(candidates, n - 1, keep);
      NamesTaken(front, last.name);
      assert forall j | 0 <= j < n - 1 :: front[j] == candidates[j];
      places := PickNext(FirstOfEachName(front), front, before, keep, last);
    }
  }

  /** A name is taken by the selection exactly when a candidate has it. */
  lemma NamesTaken(candidates: seq<Process>, name: string)
    ensures (exists p | p in FirstOfEachName(candidates) :: p.name == name)
       <==> exists j | 0 <= j < |candidates| :: candidates[j].name == name
  {
    hide FirstOfEachName;
    SelectedAreCandidates(candidates);
    if j :| 0 <= j < |candidates| && candidates[j].name == name {
      var p := EveryNameSelected(candidates, candidates[j]);
    }
  }

  lemma {:induction false} RestInOrder(plan: seq<Workflow>, placed: seq<Workflow>, n: nat, keep: nat -> bool)
    returns (places: seq<nat>)
    requires n <= |plan| && forall i: nat | i < n :: keep(i) <==> plan[i] !in placed
    ensures PicksThose(Rest(plan[..n], placed), plan[..n], places, keep)
  {
    hide PicksThose;
    if n == 0 {
      places := [];
      NonePicked<Workflow>(keep);
    } else {
      var front, last := plan[..n - 1], plan[n - 1];
      assert Front(plan[..n]) == front && plan[..n] == front + [last];
      var before := RestInOrder(plan, placed, n - 1, keep);
      places := PickNext(Rest(front, placed), front, before, keep, last);
      assert Rest(front, placed) + [] == Rest(front, placed);
    }
  }

  /** Scheduling: first the workflows the model named, once each, in the order it first named them; then all
      the others, every time they were composed, in composed order. */
  lemma ScheduledOrder(names: seq<string>, plan: seq<Workflow>) returns (m: nat, places: seq<nat>)
    ensures m <= |Reordered(names, plan)|
    ensures InNamedOrder(Reordered(names, plan)[..m], names, plan, WorkflowName)
    ensures Picks(Reordered(names, plan)[m..], plan, places)
    ensures forall i: nat | i < |plan| :: i in places <==> !IsNamed(names, plan, WorkflowName, plan[i])
  {
    hide Named, Rest, InNamedOrder, Picks, IsNamed;
    var named := Named(names, plan);
    NamedInNamedOrder(names, plan);
    NamedExactly(named, names, plan);
    assert plan[..|plan|] == plan;
    places := RestInOrder(plan, named, |plan|, (i: nat) => i < |plan| && plan[i] !in named);
    m := |named|;
    assert Reordered(names, plan)[..m] == named && Reordered(names, plan)[m..] == Rest(plan, named);
  }

  lemma NamedExactly(r: seq<Workflow>, names: seq<string>, plan: seq<Workflow>)
    requires InNamedOrder(r, names, plan, WorkflowName)
    ensures forall w :: w in r <==> IsNamed(names, plan, WorkflowName, w)
  {
    hide IsNamed;
  }

  /** So a workflow the model named runs before every one it did not name. */
  lemma NamedRunFirst(names: seq<string>, plan: seq<Workflow>, p: nat, q: nat)
    requires p < |Reordered(names, plan)| && q < |Reordered(names, plan)|
    requires IsNamed(names, plan, WorkflowName, Reordered(names, plan)[p])
    requires !IsNamed(names, plan, WorkflowName, Reordered(names, plan)[q])
    ensures p < q
  {
    hide Reordered, InNamedOrder, IsNamed;
    var r := Reordered(names, plan);
    var m, places := ScheduledOrder(names, plan);
    NamedExactly(r[..m], names, plan);
    assert forall k | 0 <= k < m :: r[k] == r[..m][k] && r[..m][k] in r[..m];
    forall k | m <= k < |r|
      ensures !IsNamed(names, plan, WorkflowName, r[k])
    {
      assert r[k] == r[m..][k - m] == plan[places[k - m]] && places[k - m] in places;
    }
  }
}
