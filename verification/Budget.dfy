/** budget.go: spend accumulated against a cap, with an alert the first time each declared fraction of
    the cap is reached. Amounts are reals. */
module Budget {

  datatype Alert = Alert(threshold: real, spent: real, budget: real, fraction: real)

  /** What a monitor holds; `fired` are the thresholds that have alerted. */
  datatype Monitor = Monitor(budget: real, thresholds: seq<real>, spent: real, fired: set<real>)

  predicate Ascending(s: seq<real>) { forall i, j | 0 <= i < j < |s| :: s[i] < s[j] }

  /** A new threshold put in its place. */
  function Insert(s: seq<real>, t: real): seq<real> {
    if s == [] || t < s[0] then [t] + s else [s[0]] + Insert(s[1..], t)
  }

  lemma {:induction false} InsertKeepsOrder(s: seq<real>, t: real)
    requires Ascending(s) && t !in s
    ensures Ascending(Insert(s, t)) && forall x :: x in Insert(s, t) <==> x in s || x == t
  {
    if s != [] && t >= s[0] {
      assert t > s[0];
      InsertKeepsOrder(s[1..], t);
      var rest := Insert(s[1..], t);
      assert forall x | x in rest :: x in s[1..] || x == t;
      assert s == [s[0]] + s[1..];
      forall j | 0 <= j < |rest|
        ensures s[0] < rest[j]
      {
        assert rest[j] in rest;
      }
    } else {
      assert forall x :: x in [t] + s <==> x == t || x in s;
      if s != [] {
        assert forall j | 0 < j < |s| :: s[0] < s[j];
      }
    }
  }

  /** The declared thresholds above zero, each once, ascending. */
  function Declared(thresholds: seq<real>): seq<real> {
    if thresholds == [] then []
    else
      var before, t := Declared(thresholds[..|thresholds| - 1]), thresholds[|thresholds| - 1];
      if t > 0.0 && t !in before then Insert(before, t) else before
  }

  lemma {:induction false} DeclaredOrder(thresholds: seq<real>)
    ensures Ascending(Declared(thresholds))
    ensures forall x :: x in Declared(thresholds) <==> x in thresholds && x > 0.0
  {
    if thresholds != [] {
      var front, t := thresholds[..|thresholds| - 1], thresholds[|thresholds| - 1];
      DeclaredOrder(front);
      assert thresholds == front + [t];
      if t > 0.0 && t !in Declared(front) {
        InsertKeepsOrder(Declared(front), t);
      }
    }
  }

  /** The alerts one more amount sets off: the thresholds reached that have not fired, in order. */
  function Reached(thresholds: seq<real>, fired: set<real>, fraction: real): seq<real> {
    if thresholds == [] then []
    else
      var before, t := Reached(thresholds[..|thresholds| - 1], fired, fraction), thresholds[|thresholds| - 1];
      if t !in fired && fraction >= t then before + [t] else before
  }

  lemma {:induction false} ReachedAre(thresholds: seq<real>, fired: set<real>, fraction: real)
    ensures forall t :: t in Reached(thresholds, fired, fraction) <==> t in thresholds && t !in fired && t <= fraction
    ensures Ascending(thresholds) ==> Ascending(Reached(thresholds, fired, fraction))
  {
    if thresholds != [] {
      var front, t := thresholds[..|thresholds| - 1], thresholds[|thresholds| - 1];
      ReachedAre(front, fired, fraction);
      assert thresholds == front + [t];
      if Ascending(thresholds) {
        var before := Reached(front, fired, fraction);
        assert forall i | 0 <= i < |front| :: front[i] == thresholds[i];
        forall k | 0 <= k < |before|
          ensures before[k] < t
        {
          assert before[k] in before;
          var i :| 0 <= i < |front| && front[i] == before[k];
          assert thresholds[i] < thresholds[|front|];
        }
      }
    }
  }

  lemma NoneReached(fired: set<real>, fraction: real)
    ensures Reached([], fired, fraction) == []
  {
  }

  lemma EarlierAreOthers(thresholds: seq<real>, i: nat)
    requires Ascending(thresholds) && i < |thresholds|
    ensures thresholds[i] !in thresholds[..i]
  {
  }

  lemma ReachedOne(thresholds: seq<real>, i: nat, fired: set<real>, fraction: real)
    requires i < |thresholds|
    ensures Reached(thresholds[..0], fired, fraction) == []
    ensures Reached(thresholds[..i + 1], fired, fraction)
         == Reached(thresholds[..i], fired, fraction)
            + (if thresholds[i] !in fired && fraction >= thresholds[i] then [thresholds[i]] else [])
  {
    assert thresholds[..i + 1][..i] == thresholds[..i];
    assert Reached(thresholds[..i], fired, fraction) + [] == Reached(thresholds[..i], fired, fraction);
  }

  function Selected(m: Monitor, cost: real): seq<real> {
    if m.budget > 0.0 then Reached(m.thresholds, m.fired, (m.spent + cost) / m.budget) else []
  }

  function Spend(m: Monitor, cost: real): Monitor {
    m.(spent := m.spent + cost, fired := m.fired + set t | t in Selected(m, cost))
  }

  class BudgetMonitor {
    const budget: real
    const thresholds: seq<real>
    var spent: real
    var fired: set<real>

    function State(): Monitor
      reads this
    {
      Monitor(budget, thresholds, spent, fired)
    }

    constructor (budget: real, declared: seq<real>)
      ensures State() == Monitor(budget, Declared(declared), 0.0, {})
      ensures Ascending(thresholds) && forall x :: x in thresholds <==> x in declared && x > 0.0
    {
      var sorted: seq<real> := [];
      var i := 0;
      while i < |declared|
        invariant 0 <= i <= |declared| && sorted == Declared(declared[..i])
      {
        assert declared[..i + 1][..i] == declared[..i];
        var t := declared[i];
        if t > 0.0 && t !in sorted {
          sorted := Insert(sorted, t);
        }
        i := i + 1;
      }
      assert declared[..i] == declared;
      DeclaredOrder(declared);
      this.budget, this.thresholds := budget, sorted;
      spent, fired := 0.0, {};
    }

    /** Adds to the spend and returns the alerts to deliver, ascending. */
    method Add(cost: real) returns (alerts: seq<Alert>)
      requires Ascending(thresholds)
      modifies this
      ensures State() == Spend(old(State()), cost)
      ensures |alerts| == |Selected(old(State()), cost)|
      ensures forall i | 0 <= i < |alerts| ::
                alerts[i] == Alert(Selected(old(State()), cost)[i], spent, budget, spent / budget)
      ensures spent == old(spent) + cost && (budget <= 0.0 ==> alerts == [] && fired == old(fired))
      ensures forall i, j | 0 <= i < j < |alerts| :: alerts[i].threshold < alerts[j].threshold
      ensures budget > 0.0 ==> forall t ::
                t in fired <==> t in old(fired) || (t in thresholds && t <= spent / budget)
      ensures forall t :: t in fired && t !in old(fired) <==> exists i :: 0 <= i < |alerts| && alerts[i].threshold == t
    {
      hide Reached;
      ReachedAre(thresholds, fired, if budget > 0.0 then (spent + cost) / budget else 0.0);
      NoneReached(fired, if budget > 0.0 then (spent + cost) / budget else 0.0);
      spent := spent + cost;
      alerts := [];
      if budget > 0.0 {
        var fraction := spent / budget;
        ghost var had := fired;
        var i := 0;
        while i < |thresholds|
          invariant 0 <= i <= |thresholds|
          invariant spent == old(spent) + cost
          invariant |alerts| == |Reached(thresholds[..i], had, fraction)|
          invariant forall k | 0 <= k < |alerts| ::
                      alerts[k] == Alert(Reached(thresholds[..i], had, fraction)[k], spent, budget, fraction)
          invariant fired == had + set t | t in Reached(thresholds[..i], had, fraction)
          invariant forall t | t in Reached(thresholds[..i], had, fraction) :: t in thresholds[..i]
        {
          ReachedOne(thresholds, i, had, fraction);
          ReachedAre(thresholds[..i], had, fraction);
          EarlierAreOthers(thresholds, i);
          var t := thresholds[i];
          if t !in fired && fraction >= t {
            fired := fired + {t};
            alerts := alerts + [Alert(t, spent, budget, fraction)];
          }
          i := i + 1;
        }
        assert thresholds[..i] == thresholds;
      }
    }

    method Spent() returns (amount: real)
      ensures amount == spent
    {
      amount := spent;
    }
  }

  // -- over any sequence of amounts ----------------------------------------------------------------

  function SpendAll(m: Monitor, costs: seq<real>): Monitor {
    if costs == [] then m else Spend(SpendAll(m, costs[..|costs| - 1]), costs[|costs| - 1])
  }

  /** The thresholds alerted over a run, in the order the lock hands them out. */
  function AllSelected(m: Monitor, costs: seq<real>): seq<real> {
    if costs == [] then []
    else
      var front := costs[..|costs| - 1];
      AllSelected(m, front) + Selected(SpendAll(m, front), costs[|costs| - 1])
  }

  function Total(costs: seq<real>): real {
    if costs == [] then 0.0 else Total(costs[..|costs| - 1]) + costs[|costs| - 1]
  }

  /** The thresholds at or below a fraction. */
  function UpTo(thresholds: seq<real>, fraction: real): seq<real> {
    if thresholds == [] then []
    else UpTo(thresholds[..|thresholds| - 1], fraction)
         + (if thresholds[|thresholds| - 1] <= fraction then [thresholds[|thresholds| - 1]] else [])
  }

  lemma {:induction false} UpToMembers(thresholds: seq<real>, fraction: real)
    ensures forall t :: t in UpTo(thresholds, fraction) <==> t in thresholds && t <= fraction
  {
    if thresholds != [] {
      var n := |thresholds| - 1;
      UpToMembers(thresholds[..n], fraction);
      assert thresholds == thresholds[..n] + [thresholds[n]];
    }
  }

  /** Of ascending thresholds, those reached form a prefix. */
  lemma {:induction false} UpToIsPrefix(thresholds: seq<real>, fraction: real)
    requires Ascending(thresholds)
    ensures UpTo(thresholds, fraction) <= thresholds
  {
    if thresholds != [] {
      var n := |thresholds| - 1;
      var front := thresholds[..n];
      UpToIsPrefix(front, fraction);
      if thresholds[n] <= fraction {
        AllUpTo(front, fraction);
        assert front + [thresholds[n]] == thresholds;
      } else {
        assert UpTo(thresholds, fraction) == UpTo(front, fraction);
      }
    }
  }

  lemma {:induction false} AllUpTo(thresholds: seq<real>, fraction: real)
    requires forall t | t in thresholds :: t <= fraction
    ensures UpTo(thresholds, fraction) == thresholds
  {
    if thresholds != [] {
      var n := |thresholds| - 1;
      assert thresholds[n] in thresholds && forall t | t in thresholds[..n] :: t in thresholds;
      AllUpTo(thresholds[..n], fraction);
      assert thresholds[..n] + [thresholds[n]] == thresholds;
    }
  }

  /** Going from one fraction to a higher one alerts exactly what lies between. */
  lemma {:induction false} ReachedNext(thresholds: seq<real>, fired: set<real>, was: real, now: real)
    requires Ascending(thresholds) && was <= now
    requires forall t | t in thresholds :: t in fired <==> t <= was
    ensures UpTo(thresholds, now) == UpTo(thresholds, was) + Reached(thresholds, fired, now)
  {
    if thresholds != [] {
      var n := |thresholds| - 1;
      var front, t := thresholds[..n], thresholds[n];
      assert t in thresholds && forall x | x in front :: x in thresholds;
      ReachedNext(front, fired, was, now);
      if t <= was {
        NothingLeft(front, fired, now, was);
      } else {
        assert UpTo(thresholds, was) == UpTo(front, was);
      }
    }
  }

  lemma {:induction false} NothingLeft(front: seq<real>, fired: set<real>, now: real, was: real)
    requires forall i | 0 <= i < |front| :: front[i] in fired
    ensures Reached(front, fired, now) == []
  {
    if front != [] {
      NothingLeft(front[..|front| - 1], fired, now, was);
    }
  }

  lemma DivideMonotone(a: real, b: real, budget: real)
    requires budget > 0.0 && a <= b
    ensures a / budget <= b / budget
  {
  }

  lemma {:induction false} RunOfSpends(m: Monitor, costs: seq<real>)
    requires m.budget > 0.0 && Ascending(m.thresholds) && m.spent == 0.0 && m.fired == {}
    requires forall t | t in m.thresholds :: t > 0.0
    requires forall c | c in costs :: c >= 0.0
    ensures var after := SpendAll(m, costs);
            && after.budget == m.budget && after.thresholds == m.thresholds && after.spent == Total(costs)
            && AllSelected(m, costs) == UpTo(m.thresholds, Total(costs) / m.budget)
            && forall t | t in m.thresholds :: t in after.fired <==> t <= Total(costs) / m.budget
  {
    hide Reached, UpTo;
    if costs == [] {
      NoneUpTo(m.thresholds);
    } else {
      var front, cost := costs[..|costs| - 1], costs[|costs| - 1];
      assert cost in costs && forall c | c in front :: c in costs;
      RunOfSpends(m, front);
      var before := SpendAll(m, front);
      var was, now := Total(front) / m.budget, Total(costs) / m.budget;
      DivideMonotone(Total(front), Total(costs), m.budget);
      ReachedNext(m.thresholds, before.fired, was, now);
      ReachedMembers(m.thresholds, before.fired, now);
    }
  }

  lemma {:induction false} ReachedMembers(thresholds: seq<real>, fired: set<real>, fraction: real)
    ensures forall t :: t in Reached(thresholds, fired, fraction) <==> t in thresholds && t !in fired && t <= fraction
  {
    if thresholds != [] {
      var n := |thresholds| - 1;
      ReachedMembers(thresholds[..n], fired, fraction);
      assert thresholds == thresholds[..n] + [thresholds[n]];
    }
  }

  lemma {:induction false} NoneUpTo(thresholds: seq<real>)
    requires forall t | t in thresholds :: t > 0.0
    ensures UpTo(thresholds, 0.0) == []
  {
    if thresholds != [] {
      var n := |thresholds| - 1;
      assert thresholds[n] in thresholds && forall t | t in thresholds[..n] :: t in thresholds;
      NoneUpTo(thresholds[..n]);
    }
  }

  /** Whatever amounts arrive, none negative: the alerts of the whole run, in order, are exactly the
      declared thresholds at or below the fraction spent, ascending, each once. */
  lemma AlertsAreThePrefixReached(budget: real, declared: seq<real>, costs: seq<real>)
    requires budget > 0.0 && forall c | c in costs :: c >= 0.0
    ensures var alerts := AllSelected(Monitor(budget, Declared(declared), 0.0, {}), costs);
            && alerts <= Declared(declared) && Ascending(alerts)
            && forall t :: t in alerts <==> t in declared && t > 0.0 && t <= Total(costs) / budget
  {
    hide Reached, UpTo;
    var m := Monitor(budget, Declared(declared), 0.0, {});
    DeclaredOrder(declared);
    RunOfSpends(m, costs);
    UpToIsPrefix(m.thresholds, Total(costs) / budget);
    UpToMembers(m.thresholds, Total(costs) / budget);
  }
}
