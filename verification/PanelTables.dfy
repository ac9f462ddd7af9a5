/** panel.go: on which tables a panel can conclude although someone never spoke. Who spoke is kept by
    name, so a persona can be left out when another carries its name and the turn can be kept from it. */
module PanelTables {
  import opened Folding
  import opened Options
  import opened Panel
  import opened Section
  import opened Text

  /** The moderator can give this seat the turn by name: it is the first of its normalized name, and
      the name is no word for concluding. */
  predicate Choosable(personas: seq<Persona>, i: nat)
    requires i < |personas|
  {
    var key := Normalize(personas[i].name);
    key !in CONCLUDE_WORDS && NamedFrom(personas, key, 0) == Some(personas[i])
  }

  /** The last seat, or one whose neighbour can be given the turn by name: nobody after it depends on
      it for the turn. */
  predicate BlockEnd(personas: seq<Persona>, e: nat) {
    e < |personas| && (e + 1 == |personas| || Choosable(personas, e + 1))
  }

  predicate NameElsewhere(personas: seq<Persona>, e: nat) {
    exists k | 0 <= k < |personas| :: e < |personas| && k != e && personas[k].name == personas[e].name
  }

  /** The panel concludes early and this persona never spoke. */
  ghost predicate EarlyWithout(world: World, personas: seq<Persona>, turns: seq<Turn>, p: Persona) {
    && personas != [] && p in personas && Legal(world, personas, turns)
    && Next(world, personas, turns) == Concludes && forall t | t in turns :: t.speaker != p
  }

  // -- someone was left out ------------------------------------------------------------------------

  /** A seat that cannot be chosen by name speaks only right after its neighbour. */
  lemma UnchosenFollows(world: World, personas: seq<Persona>, turns: seq<Turn>, k: nat, i: nat)
    requires personas != [] && Seated(personas) && Legal(world, personas, turns) && k < |turns|
    requires i + 1 < |personas| && !Choosable(personas, i + 1) && turns[k].speaker == personas[i + 1]
    ensures k > 0 && turns[k - 1].speaker == personas[i]
  {
    hide Normalize, PersonaIndex, Next, NamedFrom, Legal;
    LegalAt(world, personas, turns, k);
    if turns[k].why == Moderator {
      ChosenIsChoosable(world, personas, turns[..k], i + 1, turns[k]);
    }
    RotationStep(world, personas, turns, k);
    SeatOf(personas, i + 1);
    if k > 0 {
      SpeakerSeat(world, personas, turns, k - 1);
    }
  }

  lemma ChosenIsChoosable(world: World, personas: seq<Persona>, turns: seq<Turn>, i: nat, turn: Turn)
    requires personas != [] && i < |personas| && Next(world, personas, turns) == Speaks(turn)
    requires turn.why == Moderator && turn.speaker == personas[i]
    ensures Choosable(personas, i)
  {
    hide Normalize, PersonaIndex;
    var key := Normalize(world.choose(turns).value);
    NamedKey(personas, key, 0);
  }

  lemma {:induction false} NamedKey(personas: seq<Persona>, key: string, i: nat)
    requires i <= |personas|
    ensures var p := NamedFrom(personas, key, i); p.Some? ==> Normalize(p.value.name) == key
    decreases |personas| - i
  {
    hide Normalize;
    if i < |personas| {
      NamedKey(personas, key, i + 1);
    }
  }

  /** Whoever is left out, the end of its block is left out too. */
  lemma {:induction false} BlockIsUnheard(world: World, personas: seq<Persona>, turns: seq<Turn>, j: nat)
    returns (e: nat)
    requires Seated(personas) && j < |personas| && EarlyWithout(world, personas, turns, personas[j])
    ensures BlockEnd(personas, e) && EarlyWithout(world, personas, turns, personas[e])
    decreases |personas| - j
  {
    hide Next, Legal, Choosable;
    if BlockEnd(personas, j) {
      e := j;
    } else {
      forall t | t in turns
        ensures t.speaker != personas[j + 1]
      {
        var k :| 0 <= k < |turns| && turns[k] == t;
        assert k > 0 ==> turns[k - 1] in turns;
        if t.speaker == personas[j + 1] {
          UnchosenFollows(world, personas, turns, k, j);
        }
      }
      e := BlockIsUnheard(world, personas, turns, j + 1);
    }
  }

  lemma LeftOutIsShared(world: World, personas: seq<Persona>, turns: seq<Turn>, p: Persona) returns (e: nat)
    requires Seated(personas) && EarlyWithout(world, personas, turns, p)
    ensures BlockEnd(personas, e) && NameElsewhere(personas, e)
  {
    hide Next, Legal, Choosable;
    var j :| 0 <= j < |personas| && personas[j] == p;
    e := BlockIsUnheard(world, personas, turns, j);
    EarlyMeansEveryNameSpoke(world, personas, turns, personas[e]);
    var t :| t in turns && t.speaker.name == personas[e].name;
    OnlySeatedSpeak(world, personas, turns);
    var k :| 0 <= k < |personas| && personas[k] == t.speaker;
    assert k != e;
  }

  // -- leaving someone out -------------------------------------------------------------------------

  function SeatAt(e: nat, i: nat): nat { if i < e then i else i + 1 }

  /** Once around the table, passing over seat e by naming its neighbour. */
  function Around(personas: seq<Persona>, e: nat, m: nat): (r: seq<Turn>)
    requires m < |personas|
    ensures |r| == m
    ensures forall i | 0 <= i < m :: r[i] == Turn(personas[SeatAt(e, i)], if i == e then Moderator else Refused, "")
  {
    seq(m, i requires 0 <= i < m => Turn(personas[SeatAt(e, i)], if i == e then Moderator else Refused, ""))
  }

  /** A moderator that names the neighbour of seat e when its turn comes, and concludes otherwise. */
  function Passing(personas: seq<Persona>, e: nat): World {
    World(true,
          (turns: seq<Turn>) => Some(if |turns| == e && e + 1 < |personas| && !EveryoneSpoke(personas, turns)
                                     then personas[e + 1].name else "conclude"),
          (turns: seq<Turn>, p: Persona) => Some(""), (turns: seq<Turn>) => false)
  }

  lemma ConcludeSettled()
    ensures Settled("conclude") && Trimmed("conclude")
  {
  }

  lemma ConcludeWord()
    ensures Normalize("conclude") in CONCLUDE_WORDS
  {
    hide Normalize, Trim;
    assert ToLower("conclude") == "conclude";
    ConcludeSettled();
    NormalizeIs("conclude", "conclude");
  }

  /** While a name is missing, the next turn is the one Around takes. */
  lemma PassingTurn(personas: seq<Persona>, e: nat, m: nat)
    requires Seated(personas) && BlockEnd(personas, e) && m + 1 < |personas|
    requires !EveryoneSpoke(personas, Around(personas, e, m))
    ensures Next(Passing(personas, e), personas, Around(personas, e, m)) == Speaks(Around(personas, e, m + 1)[m])
  {
    hide Normalize, PersonaIndex, EveryoneSpoke, NamedFrom;
    var turns := Around(personas, e, m);
    ConcludeWord();
    LastIndexBound(personas, turns);
    if m != e {
      if m > 0 {
        SeatOf(personas, SeatAt(e, m - 1));
        assert Last(turns).speaker == personas[SeatAt(e, m - 1)];
      }
      Wraps(LastIndex(personas, turns) + 1, |personas|);
      assert NextAround(personas, turns) == personas[SeatAt(e, m)];
    }
  }

  /** Passing around until every name was heard. */
  lemma {:induction false} PassingConcludes(personas: seq<Persona>, e: nat, m: nat) returns (end: nat)
    requires Seated(personas) && BlockEnd(personas, e) && NameElsewhere(personas, e) && m < |personas|
    requires Legal(Passing(personas, e), personas, Around(personas, e, m))
    ensures end < |personas| && EveryoneSpoke(personas, Around(personas, e, end))
    ensures Legal(Passing(personas, e), personas, Around(personas, e, end))
    decreases |personas| - m
  {
    hide Legal, Next, EveryoneSpoke, BlockEnd, Passing;
    var turns := Around(personas, e, m);
    if EveryoneSpoke(personas, turns) {
      end := m;
    } else {
      if m + 1 == |personas| {
        AllButOne(personas, e);
      }
      PassingTurn(personas, e, m);
      LegalMore(Passing(personas, e), personas, turns, Around(personas, e, m + 1)[m]);
      assert turns + [Around(personas, e, m + 1)[m]] == Around(personas, e, m + 1);
      end := PassingConcludes(personas, e, m + 1);
    }
  }

  /** All the way around, every name was heard. */
  lemma AllButOne(personas: seq<Persona>, e: nat)
    requires NameElsewhere(personas, e) && e < |personas|
    ensures EveryoneSpoke(personas, Around(personas, e, |personas| - 1))
  {
    var turns := Around(personas, e, |personas| - 1);
    var k :| 0 <= k < |personas| && k != e && personas[k].name == personas[e].name;
    forall p | p in personas
      ensures p.name in Names(turns)
    {
      var j :| 0 <= j < |personas| && personas[j] == p;
      var seat := if j == e then k else j;
      var i := if seat < e then seat else seat - 1;
      assert SeatAt(e, i) == seat;
      assert turns[i] in turns && turns[i].speaker.name == p.name;
    }
  }

  /** It takes fewer turns than there are personas, so one round is budget enough. */
  lemma SharedIsLeftOut(personas: seq<Persona>, e: nat) returns (world: World, turns: seq<Turn>)
    requires Seated(personas) && BlockEnd(personas, e) && NameElsewhere(personas, e)
    ensures EarlyWithout(world, personas, turns, personas[e]) && |turns| < |personas|
  {
    hide Legal, Next, EveryoneSpoke, BlockEnd;
    world := Passing(personas, e);
    assert BlockEnd(personas, e) ==> e < |personas| by {
      EndSits(personas, e);
    }
    NobodyYet(world, personas, e);
    var end := PassingConcludes(personas, e, 0);
    turns := Around(personas, e, end);
    PassingEnds(personas, e, turns);
    forall t | t in turns
      ensures t.speaker != personas[e]
    {
      var i :| 0 <= i < |turns| && turns[i] == t;
      assert SeatAt(e, i) != e;
    }
  }

  lemma EndSits(personas: seq<Persona>, e: nat)
    ensures BlockEnd(personas, e) ==> e < |personas|
  {
  }

  lemma NobodyYet(world: World, personas: seq<Persona>, e: nat)
    requires personas != []
    ensures Legal(world, personas, Around(personas, e, 0))
  {
  }

  lemma PassingEnds(personas: seq<Persona>, e: nat, turns: seq<Turn>)
    requires personas != [] && EveryoneSpoke(personas, turns)
    ensures Next(Passing(personas, e), personas, turns) == Concludes
  {
    hide Normalize, PersonaIndex, EveryoneSpoke, NamedFrom;
    ConcludeWord();
  }

  // -- the exact condition -------------------------------------------------------------------------

  /** Some moderator can bring the panel to an early conclusion with someone unheard if and only if
      the name at the end of some block is also carried at another seat. */
  lemma SomeoneCanBeLeftOut(personas: seq<Persona>)
    requires Seated(personas)
    ensures (exists world, turns, p :: EarlyWithout(world, personas, turns, p))
       <==> (exists e: nat :: BlockEnd(personas, e) && NameElsewhere(personas, e))
  {
    hide EarlyWithout, BlockEnd, NameElsewhere;
    if world, turns, p :| EarlyWithout(world, personas, turns, p) {
      var e := LeftOutIsShared(world, personas, turns, p);
      assert BlockEnd(personas, e) && NameElsewhere(personas, e);
    }
    if e: nat :| BlockEnd(personas, e) && NameElsewhere(personas, e) {
      var world, turns := SharedIsLeftOut(personas, e);
      EndSits(personas, e);
      assert EarlyWithout(world, personas, turns, personas[e]);
    }
  }
}
