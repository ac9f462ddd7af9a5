/** panel.go: the panel's turn-taking, with the moderator and the speakers as arbitrary oracles over
    the transcript so far. */
module Panel {
  import opened Options
  import opened Places
  import opened Section
  import opened Text

  /** A persona; `id` tells two of the same name apart. */
  datatype Persona = Persona(id: nat, name: string, instructions: string)

  /** Why a speaker has the turn: the table's order, a conclusion refused, a choice naming nobody, or
      the moderator's choice. */
  datatype ChosenBy = Rotation | Refused | Unlisted | Moderator

  datatype Turn = Turn(speaker: Persona, why: ChosenBy, statement: string)

  /** The outside world: whether a model is bound, the moderator's answer to a transcript (none is an
      error), what a persona says to it, and whether the context was cancelled by then. */
  datatype World = World(live: bool, choose: seq<Turn> -> Option<string>,
                         speak: (seq<Turn>, Persona) -> Option<string>, cancelled: seq<Turn> -> bool)

  const CONCLUDE_WORDS := {"conclude", "concluded", "consensus", "done", "end", "finish", "finished"}

  // -- one turn ------------------------------------------------------------------------------------

  function IndexFrom(personas: seq<Persona>, p: Persona, i: nat): int
    requires i <= |personas|
    decreases |personas| - i
  {
    if i == |personas| then -1 else if personas[i] == p then i else IndexFrom(personas, p, i + 1)
  }

  /** personaIndex: the first place a persona sits at, or -1. */
  function PersonaIndex(personas: seq<Persona>, p: Persona): int { IndexFrom(personas, p, 0) }

  lemma {:induction false} IndexIsFirst(personas: seq<Persona>, p: Persona, i: nat)
    requires i <= |personas|
    ensures var k := IndexFrom(personas, p, i);
            if k == -1 then p !in personas[i..]
            else i <= k < |personas| && personas[k] == p && p !in personas[i..k]
    decreases |personas| - i
  {
    if i < |personas| {
      assert personas[i..] == [personas[i]] + personas[i + 1..];
      if personas[i] != p {
        IndexIsFirst(personas, p, i + 1);
        var k := IndexFrom(personas, p, i + 1);
        if k != -1 {
          assert personas[i..k] == [personas[i]] + personas[i + 1..k];
        }
      }
    }
  }

  function NamedFrom(personas: seq<Persona>, key: string, i: nat): Option<Persona>
    requires i <= |personas|
    decreases |personas| - i
  {
    if i == |personas| then None
    else if Normalize(personas[i].name) == key then Some(personas[i])
    else NamedFrom(personas, key, i + 1)
  }

  lemma {:induction false} NamedSits(personas: seq<Persona>, key: string, i: nat)
    requires i <= |personas|
    ensures NamedFrom(personas, key, i).Some? ==> NamedFrom(personas, key, i).value in personas
    decreases |personas| - i
  {
    if i < |personas| {
      NamedSits(personas, key, i + 1);
    }
  }

  function Names(turns: seq<Turn>): set<string> { set t | t in turns :: t.speaker.name }

  /** everyoneSpoke: by name, as the record of who spoke is kept. */
  predicate EveryoneSpoke(personas: seq<Persona>, turns: seq<Turn>) {
    forall p | p in personas :: p.name in Names(turns)
  }

  function LastIndex(personas: seq<Persona>, turns: seq<Turn>): int {
    if turns == [] then -1 else PersonaIndex(personas, Last(turns).speaker)
  }

  /** Who is next around the table. */
  function NextAround(personas: seq<Persona>, turns: seq<Turn>): Persona
    requires personas != [] && LastIndex(personas, turns) >= -1
  {
    personas[(LastIndex(personas, turns) + 1) % |personas|]
  }

  lemma LastIndexBound(personas: seq<Persona>, turns: seq<Turn>)
    ensures -1 <= LastIndex(personas, turns) < |personas|
  {
    if turns != [] {
      IndexIsFirst(personas, Last(turns).speaker, 0);
    }
  }

  datatype Decision = Fails | Concludes | Speaks(turn: Turn)

  /** What stands for a turn when no model is bound. */
  function Placeholder(p: Persona): string {
    "(no model bound) " + p.name + " would deliberate here as: "
    + (if p.instructions == "" then "no standing instructions" else p.instructions)
  }

  /** Hands the turn to a persona. */
  function Spoken(world: World, turns: seq<Turn>, p: Persona, why: ChosenBy): Decision {
    if !world.live then Speaks(Turn(p, why, Placeholder(p)))
    else
      match world.speak(turns, p)
      case None => Fails
      case Some(statement) => Speaks(Turn(p, why, statement))
  }

  /** What the loop does next with this transcript. */
  function Next(world: World, personas: seq<Persona>, turns: seq<Turn>): Decision
    requires personas != []
  {
    LastIndexBound(personas, turns);
    var around := NextAround(personas, turns);
    if world.cancelled(turns) then Fails
    else if !world.live then Spoken(world, turns, around, Rotation)
    else
      match world.choose(turns)
      case None => Fails
      case Some(answer) =>
        var key := Normalize(answer);
        if key in CONCLUDE_WORDS then
          if EveryoneSpoke(personas, turns) then Concludes else Spoken(world, turns, around, Refused)
        else
          match NamedFrom(personas, key, 0)
          case Some(p) => Spoken(world, turns, p, Moderator)
          case None => Spoken(world, turns, around, Unlisted)
  }

  /** A transcript each of whose turns the loop took. */
  ghost predicate Legal(world: World, personas: seq<Persona>, turns: seq<Turn>)
    requires personas != []
  {
    forall k | 0 <= k < |turns| :: Next(world, personas, turns[..k]) == Speaks(turns[k])
  }

  // -- the loop ------------------------------------------------------------------------------------

  function TurnBudget(rounds: int, cap: int, n: nat): nat {
    var r: nat := if rounds <= 0 then 2 else rounds;
    var c: nat := if cap <= 0 then 12 else cap;
    if r * n > c then c else r * n
  }

  datatype Outcome = Failed(turns: seq<Turn>) | Finished(turns: seq<Turn>, early: bool)

  /** The turns of a panel. Only a conclusion or an error ends it before its budget is spent. */
  method Convene(world: World, personas: seq<Persona>, rounds: int, cap: int) returns (r: Outcome)
    ensures |r.turns| <= (if rounds > 0 then rounds else 2) * |personas| && |r.turns| <= (if cap > 0 then cap else 12)
    ensures personas == [] ==> r == Finished([], false)
    ensures personas != [] ==> Legal(world, personas, r.turns)
    ensures personas != [] && r.Failed? ==> Next(world, personas, r.turns) == Fails
    ensures personas != [] && r.Finished? && r.early ==> Next(world, personas, r.turns) == Concludes
    ensures r.Finished? && !r.early ==> |r.turns| == (if rounds > 0 then rounds else 2) * |personas|
                                        || |r.turns| == (if cap > 0 then cap else 12)
  {
    hide Normalize, PersonaIndex, NamedFrom;
    var budget := TurnBudget(rounds, cap, |personas|);
    var transcript, spoken, lastIndex := [], {}, -1;
    while |transcript| < budget
      invariant |transcript| <= budget
      invariant personas != [] ==> Legal(world, personas, transcript)
      invariant spoken == Names(transcript) && lastIndex == LastIndex(personas, transcript)
      invariant personas == [] ==> transcript == []
      decreases budget - |transcript|
    {
      NobodyNoBudget(rounds, cap, |personas|);
      LastIndexBound(personas, transcript);
      if world.cancelled(transcript) {
        return Failed(transcript);
      }
      var persona, why := personas[(lastIndex + 1) % |personas|], Rotation;
      if world.live {
        var choice := world.choose(transcript);
        if choice.None? {
          return Failed(transcript);
        }
        var key := Normalize(choice.value);
        if key in CONCLUDE_WORDS {
          var all := AllSpoke(personas, spoken);
          if all {
            return Finished(transcript, true);
          }
          why := Refused;
        } else {
          var named := NamedFrom(personas, key, 0);
          if named.Some? {
            persona, why := named.value, Moderator;
          } else {
            why := Unlisted;
          }
        }
      }
      var statement := Placeholder(persona);
      if world.live {
        var said := world.speak(transcript, persona);
        if said.None? {
          return Failed(transcript);
        }
        statement := said.value;
      }
      lastIndex := PersonaIndex(personas, persona);
      spoken := spoken + {persona.name};
      var turn := Turn(persona, why, statement);
      LegalMore(world, personas, transcript, turn);
      transcript := transcript + [turn];
    }
    r := Finished(transcript, false);
  }

  method AllSpoke(personas: seq<Persona>, spoken: set<string>) returns (all: bool)
    ensures all <==> forall p | p in personas :: p.name in spoken
  {
    for i := 0 to |personas|
      invariant forall k | 0 <= k < i :: personas[k].name in spoken
    {
      if personas[i].name !in spoken {
        return false;
      }
    }
    all := true;
  }

  lemma NobodyNoBudget(rounds: int, cap: int, n: nat)
    ensures n == 0 ==> TurnBudget(rounds, cap, n) == 0
  {
  }

  lemma LegalMore(world: World, personas: seq<Persona>, turns: seq<Turn>, turn: Turn)
    requires personas != [] && Legal(world, personas, turns) && Next(world, personas, turns) == Speaks(turn)
    ensures Legal(world, personas, turns + [turn]) && Names(turns + [turn]) == Names(turns) + {turn.speaker.name}
  {
    hide Next;
    var more := turns + [turn];
    forall k | 0 <= k < |more|
      ensures Next(world, personas, more[..k]) == Speaks(more[k])
    {
      assert more[..k] == turns[..k];
    }
  }

  // -- one turn, told by the table -----------------------------------------------------------------

  /** The first seat that carries the name, if any. */
  lemma {:induction false} NamedIsFirst(personas: seq<Persona>, key: string, i: nat)
    requires i <= |personas|
    ensures match NamedFrom(personas, key, i)
            case None => forall k | i <= k < |personas| :: Normalize(personas[k].name) != key
            case Some(p) => exists k | i <= k < |personas| ::
                              personas[k] == p && Normalize(p.name) == key
                              && forall j | i <= j < k :: Normalize(personas[j].name) != key
    decreases |personas| - i
  {
    hide Normalize;
    if i < |personas| && Normalize(personas[i].name) != key {
      NamedIsFirst(personas, key, i + 1);
    }
  }

  /** The turn goes around: to the first seat at the start, else to the seat after the last speaker's. */
  lemma AroundIs(personas: seq<Persona>, turns: seq<Turn>, k: nat)
    requires personas != []
    requires turns != [] ==> k < |personas| && personas[k] == Last(turns).speaker && personas[k] !in personas[..k]
    ensures NextAroundTable(personas, turns) == personas[if turns == [] || k + 1 == |personas| then 0 else k + 1]
  {
    hide PersonaIndex;
    if turns == [] {
      Wraps(0, |personas|);
    } else {
      FirstSeat(personas, k);
      Wraps(k + 1, |personas|);
    }
  }

  lemma FirstSeat(personas: seq<Persona>, k: nat)
    requires k < |personas| && personas[k] !in personas[..k]
    ensures PersonaIndex(personas, personas[k]) == k
  {
    IndexIsFirst(personas, personas[k], 0);
    var i := PersonaIndex(personas, personas[k]);
    assert personas[0..] == personas && personas[k] in personas;
    forall j | 0 <= j < k
      ensures personas[j] != personas[k]
    {
      assert personas[..k][j] == personas[j] && personas[..k][j] in personas[..k];
    }
    forall j | 0 <= j < i
      ensures personas[j] != personas[k]
    {
      assert personas[0..i][j] == personas[j] && personas[0..i][j] in personas[0..i];
    }
  }

  /** What the panel does next: it fails when cancelled, or without an answer where a model is bound. Without a
      model the turn goes around. With one, a word for concluding ends the panel once every name has spoken and
      is refused before that; the first seat the answer names has the turn; any other answer names nobody, and
      the turn goes around. */
  lemma NextIs(world: World, personas: seq<Persona>, turns: seq<Turn>)
    requires personas != []
    ensures var next, around := Next(world, personas, turns), NextAroundTable(personas, turns);
            if world.cancelled(turns) then next == Fails
            else if !world.live then
              next == Speaks(Turn(around, Rotation,
                                  "(no model bound) " + around.name + " would deliberate here as: "
                                  + (if around.instructions == "" then "no standing instructions"
                                     else around.instructions)))
            else if world.choose(turns) == None then next == Fails
            else
              var key := Normalize(world.choose(turns).value);
              if key in {"conclude", "concluded", "consensus", "done", "end", "finish", "finished"} then
                if forall p | p in personas :: exists t :: t in turns && t.speaker.name == p.name then next == Concludes
                else next == Said(world, turns, around, Refused)
              else if NamedFrom(personas, key, 0).Some? then
                next == Said(world, turns, NamedFrom(personas, key, 0).value, Moderator)
              else next == Said(world, turns, around, Unlisted)
  {
    hide Normalize, NamedFrom, NextAround;
    EveryoneIs(personas, turns);
  }

  /** A persona's turn is what it says, and the panel fails when it cannot say anything. */
  function Said(world: World, turns: seq<Turn>, p: Persona, why: ChosenBy): Decision {
    match world.speak(turns, p) case Some(statement) => Speaks(Turn(p, why, statement)) case None => Fails
  }

  lemma EveryoneIs(personas: seq<Persona>, turns: seq<Turn>)
    ensures EveryoneSpoke(personas, turns)
       <==> forall p | p in personas :: exists t :: t in turns && t.speaker.name == p.name
  {
    forall p | p in personas
      ensures p.name in Names(turns) <==> exists t :: t in turns && t.speaker.name == p.name
    {
    }
  }

  // -- what a moderator cannot do ------------------------------------------------------------------

  /** Only seated personas speak, whatever the moderator answers. */
  lemma OnlySeatedSpeak(world: World, personas: seq<Persona>, turns: seq<Turn>)
    requires personas != [] && Legal(world, personas, turns)
    ensures forall t | t in turns :: t.speaker in personas
  {
    forall k | 0 <= k < |turns|
      ensures turns[k].speaker in personas
    {
      NextIsSeated(world, personas, turns[..k]);
    }
  }

  lemma NextIsSeated(world: World, personas: seq<Persona>, turns: seq<Turn>)
    requires personas != []
    ensures var next := Next(world, personas, turns);
            next.Speaks? ==> next.turn.speaker in personas
                             && (next.turn.why != Moderator ==> next.turn.speaker == NextAroundTable(personas, turns))
  {
    LastIndexBound(personas, turns);
    if world.live && world.choose(turns).Some? {
      NamedSits(personas, Normalize(world.choose(turns).value), 0);
    }
  }

  function NextAroundTable(personas: seq<Persona>, turns: seq<Turn>): Persona
    requires personas != []
  {
    LastIndexBound(personas, turns);
    NextAround(personas, turns)
  }

  /** A panel concludes early only when every name at the table has spoken. */
  lemma EarlyMeansEveryNameSpoke(world: World, personas: seq<Persona>, turns: seq<Turn>, p: Persona)
    requires personas != [] && Next(world, personas, turns) == Concludes && p in personas
    ensures exists t :: t in turns && t.speaker.name == p.name
  {
    hide Next, Names;
    ConcludesMeans(world, personas, turns);
    NameSpoke(turns, p.name);
  }

  predicate DistinctNames(personas: seq<Persona>) {
    forall p, q | p in personas && q in personas && p.name == q.name :: p == q
  }

  /** With distinct names that is every persona. */
  lemma EarlyMeansEveryoneSpoke(world: World, personas: seq<Persona>, turns: seq<Turn>, p: Persona)
    requires personas != [] && Legal(world, personas, turns) && Next(world, personas, turns) == Concludes
    requires DistinctNames(personas) && p in personas
    ensures exists t :: t in turns && t.speaker == p
  {
    hide Next, Legal;
    OnlySeatedSpeak(world, personas, turns);
    EarlyMeansEveryNameSpoke(world, personas, turns, p);
    var t :| t in turns && t.speaker.name == p.name;
    assert t.speaker == p;
  }

  /** Names stand for personas in that test: one of two who share a name is enough for both. */
  lemma SharedNameIsEnough(world: World, a: Persona, b: Persona, turn: Turn)
    requires a != b && a.name == b.name && turn.speaker == a && Next(world, [a, b], []) == Speaks(turn)
    requires world.live && !world.cancelled([turn])
    requires world.choose([turn]).Some? && Normalize(world.choose([turn]).value) in CONCLUDE_WORDS
    ensures Legal(world, [a, b], [turn]) && Next(world, [a, b], [turn]) == Concludes
    ensures forall t | t in [turn] :: t.speaker != b
  {
    hide Normalize;
    assert [turn][..0] == [];
    assert turn in [turn];
    assert a.name in Names([turn]);
  }

  lemma ConcludesMeans(world: World, personas: seq<Persona>, turns: seq<Turn>)
    requires personas != [] && Next(world, personas, turns) == Concludes
    ensures EveryoneSpoke(personas, turns)
  {
  }

  lemma NameSpoke(turns: seq<Turn>, name: string)
    requires name in Names(turns)
    ensures exists t :: t in turns && t.speaker.name == name
  {
  }

  predicate Seated(personas: seq<Persona>) { forall i, j | 0 <= i < j < |personas| :: personas[i] != personas[j] }

  lemma SeatOf(personas: seq<Persona>, i: nat)
    requires Seated(personas) && i < |personas|
    ensures PersonaIndex(personas, personas[i]) == i
  {
    IndexIsFirst(personas, personas[i], 0);
    var k := PersonaIndex(personas, personas[i]);
    assert personas[0..] == personas;
  }

  /** The seat after one, around a table of n. */
  function After(seat: int, n: nat): int { if seat + 1 >= n then 0 else seat + 1 }

  /** A rotation turn goes to the seat after the last speaker's. */
  lemma RotationStep(world: World, personas: seq<Persona>, turns: seq<Turn>, k: nat)
    requires personas != [] && Seated(personas) && Legal(world, personas, turns)
    requires k < |turns| && turns[k].why != Moderator
    ensures PersonaIndex(personas, turns[k].speaker)
         == (if k == 0 then 0 else After(PersonaIndex(personas, turns[k - 1].speaker), |personas|))
  {
    hide Next;
    var before := turns[..k];
    assert Next(world, personas, before) == Speaks(turns[k]);
    NextIsSeated(world, personas, before);
    LastIndexBound(personas, before);
    var last := LastIndex(personas, before);
    Wraps(last + 1, |personas|);
    SeatOf(personas, After(last, |personas|));
  }

  lemma Wraps(x: nat, n: nat)
    requires x <= n && n > 0
    ensures x % n == if x == n then 0 else x
  {
    Remainder(x, if x == n then 1 else 0, if x == n then 0 else x, n);
  }

  lemma Remainder(x: int, q: int, r: int, n: int)
    requires 0 <= r < n && x == q * n + r
    ensures x % n == r
  {
    var d, m := x / n, x % n;
    assert x == d * n + m;
    assert (d - q) * n == d * n - q * n && (q - d) * n == q * n - d * n;
    if d > q {
      AtLeast(n, d - q);
    } else if d < q {
      AtLeast(n, q - d);
    }
  }

  lemma {:induction false} AtLeast(n: nat, k: nat)
    requires k >= 1
    ensures k * n >= n
    decreases k
  {
    if k > 1 {
      AtLeast(n, k - 1);
      assert k * n == (k - 1) * n + n;
    }
  }

  lemma NextRemainder(i: nat, n: nat)
    requires n > 0
    ensures (i + 1) % n == After(i % n, n)
  {
    var q, r := i / n, i % n;
    assert i == q * n + r;
    if r + 1 == n {
      assert (q + 1) * n == q * n + n;
      Remainder(i + 1, q + 1, 0, n);
    } else {
      Remainder(i + 1, q, r + 1, n);
    }
  }

  /** With no model bound, turn i belongs to persona i mod n. */
  lemma {:induction false} NoModelRotates(world: World, personas: seq<Persona>, turns: seq<Turn>, i: nat)
    requires personas != [] && Seated(personas) && Legal(world, personas, turns) && !world.live && i < |turns|
    ensures turns[i].speaker == personas[i % |personas|] && turns[i].why == Rotation
  {
    hide PersonaIndex;
    assert Next(world, personas, turns[..i]) == Speaks(turns[i]);
    NoModelNext(world, personas, turns[..i]);
    RotationStep(world, personas, turns, i);
    SpeakerSeat(world, personas, turns, i);
    if i == 0 {
      Wraps(0, |personas|);
    } else {
      NoModelRotates(world, personas, turns, i - 1);
      SeatOf(personas, (i - 1) % |personas|);
      NextRemainder(i - 1, |personas|);
    }
  }

  lemma NoModelNext(world: World, personas: seq<Persona>, turns: seq<Turn>)
    requires personas != [] && !world.live
    ensures Next(world, personas, turns).Speaks? ==> Next(world, personas, turns).turn.why == Rotation
  {
  }

  ghost predicate RotatesFrom(turns: seq<Turn>, from: nat, n: nat)
    requires from + n <= |turns|
  {
    forall k | from <= k < from + n :: turns[k].why != Moderator
  }

  lemma {:induction false} SeatsInARow(world: World, personas: seq<Persona>, turns: seq<Turn>,
                                       from: nat, n: nat, k: nat)
    requires personas != [] && Seated(personas) && Legal(world, personas, turns)
    requires from + n <= |turns| && RotatesFrom(turns, from, n) && k < n
    requires n <= |personas|
    ensures PersonaIndex(personas, turns[from + k].speaker)
         == Ahead(PersonaIndex(personas, turns[from].speaker), k, |personas|)
  {
    hide PersonaIndex, Next, Legal;
    SpeakerSeat(world, personas, turns, from);
    if k > 0 {
      SeatsInARow(world, personas, turns, from, n, k - 1);
      RotationStep(world, personas, turns, from + k);
    }
  }

  /** The seat k places on, for k below n. */
  function Ahead(seat: int, k: nat, n: nat): int { if seat + k >= n then seat + k - n else seat + k }

  lemma SpeakerSeat(world: World, personas: seq<Persona>, turns: seq<Turn>, k: nat)
    requires personas != [] && Legal(world, personas, turns) && k < |turns|
    ensures 0 <= PersonaIndex(personas, turns[k].speaker) < |personas|
    ensures personas[PersonaIndex(personas, turns[k].speaker)] == turns[k].speaker
  {
    hide Next, Legal;
    OnlySeatedSpeak(world, personas, turns);
    assert turns[k] in turns;
    IndexIsFirst(personas, turns[k].speaker, 0);
    assert personas[0..] == personas;
  }

  /** As many rotation turns in a row as there are personas go once around the table. */
  lemma RotationReachesEveryone(world: World, personas: seq<Persona>, turns: seq<Turn>, from: nat)
    requires personas != [] && Seated(personas) && Legal(world, personas, turns)
    requires from + |personas| <= |turns| && RotatesFrom(turns, from, |personas|)
    ensures forall p | p in personas :: exists k :: from <= k < from + |personas| && turns[k].speaker == p
    ensures EveryoneSpoke(personas, turns[..from + |personas|])
  {
    hide PersonaIndex, Next, Legal;
    var n := |personas|;
    var start := PersonaIndex(personas, turns[from].speaker);
    SpeakerSeat(world, personas, turns, from);
    forall p | p in personas
      ensures exists k :: from <= k < from + n && turns[k].speaker == p
      ensures p.name in Names(turns[..from + n])
    {
      var seat :| 0 <= seat < n && personas[seat] == p;
      var k: nat := if seat >= start then seat - start else seat - start + n;
      SeatsInARow(world, personas, turns, from, n, k);
      SpeakerSeat(world, personas, turns, from + k);
      assert turns[from + k].speaker == p;
      assert turns[..from + n][from + k] == turns[from + k];
    }
  }

  /** A moderator that answers "conclude" from turn `from` on is obeyed: the panel ends within as many
      refusals as there are personas, unless its turns run out first or it fails. */
  lemma ConcludeIsObeyed(world: World, personas: seq<Persona>, turns: seq<Turn>, from: nat)
    requires personas != [] && Seated(personas) && Legal(world, personas, turns) && world.live
    requires forall k | from <= k <= |turns| ::
               world.choose(turns[..k]).Some? && Normalize(world.choose(turns[..k]).value) in CONCLUDE_WORDS
    requires from + |personas| <= |turns| && !world.cancelled(turns[..from + |personas|])
    ensures |turns| == from + |personas| && Next(world, personas, turns) == Concludes
  {
    hide RotatesFrom, EveryoneSpoke, Legal;
    var n := |personas|;
    RefusedInARow(world, personas, turns, from);
    RotationReachesEveryone(world, personas, turns, from);
    assert Next(world, personas, turns[..from + n]) == Concludes;
    assert turns[..|turns|] == turns;
    if |turns| > from + n {
      LegalAt(world, personas, turns, from + n);
    }
  }

  lemma LegalAt(world: World, personas: seq<Persona>, turns: seq<Turn>, k: nat)
    requires personas != [] && Legal(world, personas, turns) && k < |turns|
    ensures Next(world, personas, turns[..k]) == Speaks(turns[k])
  {
    hide Next;
  }

  lemma RefusedInARow(world: World, personas: seq<Persona>, turns: seq<Turn>, from: nat)
    requires personas != [] && Legal(world, personas, turns) && world.live && from + |personas| <= |turns|
    requires forall k | from <= k <= |turns| ::
               world.choose(turns[..k]).Some? && Normalize(world.choose(turns[..k]).value) in CONCLUDE_WORDS
    ensures RotatesFrom(turns, from, |personas|)
  {
    forall k | from <= k < from + |personas|
      ensures turns[k].why != Moderator
    {
      assert Next(world, personas, turns[..k]) == Speaks(turns[k]);
    }
  }

  // -- who sits ------------------------------------------------------------------------------------

  datatype Workflow = Workflow(pattern: string, delegated: seq<Persona>)

  function AddNew(personas: seq<Persona>, more: seq<Persona>): seq<Persona> {
    if more == [] then personas
    else
      var before := AddNew(personas, more[..|more| - 1]);
      if Last(more) in before then before else before + [Last(more)]
  }

  /** The personas of the plan's patterned workflows, each once, in order of first mention. */
  function Convened(plan: seq<Workflow>): seq<Persona> {
    if plan == [] then []
    else
      var before := Convened(plan[..|plan| - 1]);
      if Last(plan).pattern == "" then before else AddNew(before, Last(plan).delegated)
  }

  /** The patterns the plan's workflows author, in order. */
  function Patterns(plan: seq<Workflow>): seq<string> {
    if plan == [] then []
    else
      var before := Patterns(plan[..|plan| - 1]);
      if Last(plan).pattern == "" then before else before + [Last(plan).pattern]
  }

  lemma {:induction false} AddNewSeats(personas: seq<Persona>, more: seq<Persona>)
    requires Seated(personas)
    ensures Seated(AddNew(personas, more)) && personas <= AddNew(personas, more)
    ensures forall p :: p in AddNew(personas, more) <==> p in personas || p in more
  {
    if more != [] {
      AddNewSeats(personas, more[..|more| - 1]);
      assert more == more[..|more| - 1] + [Last(more)];
    }
  }

  /** Nobody is seated twice, and exactly the patterned workflows' personas are seated. */
  lemma {:induction false} EachSeatedOnce(plan: seq<Workflow>)
    ensures Seated(Convened(plan))
    ensures forall p :: p in Convened(plan) <==> exists w :: w in plan && w.pattern != "" && p in w.delegated
  {
    if plan != [] {
      var front := plan[..|plan| - 1];
      EachSeatedOnce(front);
      assert plan == front + [Last(plan)];
      AddNewSeats(Convened(front), Last(plan).delegated);
      forall p
        ensures p in Convened(plan) <==> exists w :: w in plan && w.pattern != "" && p in w.delegated
      {
        if p in Convened(front) {
          var w :| w in front && w.pattern != "" && p in w.delegated;
          assert w in plan;
        }
      }
    }
  }

  lemma {:induction false} PatternsOf(plan: seq<Workflow>)
    ensures Patterns(plan) == [] <==> forall w | w in plan :: w.pattern == ""
    ensures forall p | p in Patterns(plan) :: p != ""
  {
    if plan != [] {
      assert plan == Front(plan) + [Last(plan)];
      PatternsOf(Front(plan));
    }
  }

  /** The joined style is empty exactly when no workflow authors a pattern, and then nobody convenes. */
  lemma {:induction false} StyleMeansPattern(plan: seq<Workflow>)
    ensures JoinWith("; ", Patterns(plan)) == "" <==> forall w | w in plan :: w.pattern == ""
    ensures JoinWith("; ", Patterns(plan)) == "" ==> Convened(plan) == []
  {
    PatternsOf(plan);
    var styles := Patterns(plan);
    if styles != [] {
      assert styles[0] in styles && styles[0] != "";
    }
    EachSeatedOnce(plan);
    if Convened(plan) != [] {
      assert Convened(plan)[0] in Convened(plan);
    }
  }

  /** All delegated personas of the patterned workflows, one workflow after the other. */
  function Delegated(plan: seq<Workflow>): seq<Persona> {
    if plan == [] then []
    else Delegated(plan[..|plan| - 1]) + (if Last(plan).pattern == "" then [] else Last(plan).delegated)
  }

  /** Workflow by workflow, in plan order. */
  lemma {:induction false} DelegatedIs(a: seq<Workflow>, w: Workflow, b: seq<Workflow>)
    ensures Delegated(a + [w] + b) == Delegated(a) + (if w.pattern == "" then [] else w.delegated) + Delegated(b)
  {
    if b == [] {
      assert a + [w] + b == a + [w];
      assert (a + [w])[..|a|] == a;
    } else {
      var front := b[..|b| - 1];
      assert (a + [w] + b)[..|a + [w] + b| - 1] == a + [w] + front;
      DelegatedIs(a, w, front);
      var more := if Last(b).pattern == "" then [] else Last(b).delegated;
      var here := if w.pattern == "" then [] else w.delegated;
      assert Delegated(a) + here + (Delegated(front) + more) == Delegated(a) + here + Delegated(front) + more;
    }
  }

  lemma {:induction false} AddNewAppends(base: seq<Persona>, a: seq<Persona>, b: seq<Persona>)
    ensures AddNew(base, a + b) == AddNew(AddNew(base, a), b)
  {
    if b == [] {
      assert a + b == a;
    } else {
      assert (a + b)[..|a + b| - 1] == a + b[..|b| - 1];
      AddNewAppends(base, a, b[..|b| - 1]);
    }
  }

  lemma {:induction false} ConvenedAreNew(plan: seq<Workflow>)
    ensures Convened(plan) == AddNew([], Delegated(plan))
  {
    if plan != [] {
      var front := plan[..|plan| - 1];
      ConvenedAreNew(front);
      AddNewAppends([], Delegated(front), Last(plan).delegated);
      assert Delegated(front) + [] == Delegated(front);
    }
  }

  lemma {:induction false} FirstMentions(all: seq<Persona>, n: nat, keep: nat -> bool) returns (places: seq<nat>)
    requires n <= |all| && forall i: nat | i < n :: keep(i) <==> all[i] !in all[..i]
    ensures PicksThose(AddNew([], all[..n]), all[..n], places, keep)
  {
    hide PicksThose;
    if n == 0 {
      places := [];
      NonePicked<Persona>(keep);
    } else {
      var front, p := all[..n - 1], all[n - 1];
      assert all[..n][..n - 1] == front && all[..n] == front + [p];
      var before := FirstMentions(all, n - 1, keep);
      AddNewMembers(front, p);
      places := PickNext(AddNew([], front), front, before, keep, p);
    }
  }

  lemma {:induction false} AddNewMembers(all: seq<Persona>, p: Persona)
    ensures p in AddNew([], all) <==> p in all
  {
    if all != [] {
      AddNewMembers(all[..|all| - 1], p);
      assert all == all[..|all| - 1] + [Last(all)];
    }
  }

  /** The panel's seats are the delegated personas at the places where each is first mentioned. */
  lemma SeatsInOrder(plan: seq<Workflow>) returns (places: seq<nat>)
    ensures Picks(Convened(plan), Delegated(plan), places)
    ensures forall i: nat | i < |Delegated(plan)| :: i in places <==> Delegated(plan)[i] !in Delegated(plan)[..i]
  {
    hide Convened, Delegated, Picks;
    var all := Delegated(plan);
    ConvenedAreNew(plan);
    places := FirstMentions(all, |all|, (i: nat) => i < |all| && all[i] !in all[..i]);
    assert all[..|all|] == all;
  }

  method PanelCall(plan: seq<Workflow>) returns (style: string, personas: seq<Persona>)
    ensures personas == Convened(plan) && style == JoinWith("; ", Patterns(plan))
  {
    var styles := [];
    personas := [];
    var seen: set<Persona> := {};
    var i := 0;
    while i < |plan|
      invariant 0 <= i <= |plan| && styles == Patterns(plan[..i])
      invariant personas == Convened(plan[..i]) && seen == set p | p in personas
    {
      assert plan[..i + 1][..i] == plan[..i];
      var workflow := plan[i];
      i := i + 1;
      if workflow.pattern == "" {
        continue;
      }
      styles := styles + [workflow.pattern];
      ghost var before := personas;
      var j := 0;
      while j < |workflow.delegated|
        invariant 0 <= j <= |workflow.delegated|
        invariant personas == AddNew(before, workflow.delegated[..j]) && seen == set p | p in personas
      {
        assert workflow.delegated[..j + 1][..j] == workflow.delegated[..j];
        var p := workflow.delegated[j];
        if p !in seen {
          seen := seen + {p};
          personas := personas + [p];
        }
        j := j + 1;
      }
      assert workflow.delegated[..j] == workflow.delegated;
    }
    assert plan[..i] == plan;
    style := JoinWith("; ", styles);
  }
}
