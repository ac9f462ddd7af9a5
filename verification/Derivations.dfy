/** The grammar of safeeval.go:9-20 as a relation: a phrase is a derivation, written out token by token.
    The parser accepts exactly the token lists that some phrase yields, with the phrase's tree. */
module Derivations {
  import opened Options
  import opened Values
  import opened Grammar
  import Tokens

  // -- phrases -------------------------------------------------------------------------------------

  datatype Phrase =
    | Word(tok: Token)
    | Group(inner: Phrase)
    | Bracket(items: seq<Phrase>)
    | Sign(uop: UnOp, operand: Phrase)
    | Power(base: Phrase, exponent: Phrase)
    | Chain(bop: BinOp, left: Phrase, right: Phrase)

  function OpLevel(op: BinOp): nat {
    match op
    case Or => LEVEL_OR
    case And => LEVEL_AND
    case Add | Sub => LEVEL_SUM
    case Mul | Div | FloorDiv | Mod => LEVEL_TERM
    case Pow => LEVEL_POWER
    case _ => LEVEL_COMPARISON
  }

  function OpTokens(op: BinOp): (toks: seq<Token>)
    ensures |toks| > 0 && (forall t | t in toks :: Tokens.Spellable(t))
  {
    match op
    case Or => [NameTok("or")]
    case And => [NameTok("and")]
    case Eq => [OpTok("==")]
    case Ne => [OpTok("!=")]
    case Lt => [OpTok("<")]
    case Le => [OpTok("<=")]
    case Gt => [OpTok(">")]
    case Ge => [OpTok(">=")]
    case In => [NameTok("in")]
    case NotIn => [NameTok("not"), NameTok("in")]
    case Add => [OpTok("+")]
    case Sub => [OpTok("-")]
    case Mul => [OpTok("*")]
    case Div => [OpTok("/")]
    case FloorDiv => [OpTok("//")]
    case Mod => [OpTok("%")]
    case Pow => [OpTok("**")]
  }

  function PrefixToken(op: UnOp): (t: Token)
    ensures Tokens.Spellable(t)
  {
    match op
    case Not => NameTok("not")
    case Neg => OpTok("-")
    case Pos => OpTok("+")
  }

  function SignLevel(op: UnOp): nat { if op == Not then LEVEL_NOT else LEVEL_UNARY }

  /** The tightest rule a phrase is made by. */
  function PhraseLevel(p: Phrase): (level: nat)
    ensures level <= LEVEL_ATOM
  {
    match p
    case Sign(op, _) => SignLevel(op)
    case Power(_, _) => LEVEL_POWER
    case Chain(op, _, _) => OpLevel(op)
    case _ => LEVEL_ATOM
  }

  function Yield(p: Phrase): seq<Token>
    decreases p, 1
  {
    match p
    case Word(tok) => [tok]
    case Group(inner) => [OpTok("(")] + Yield(inner) + [OpTok(")")]
    case Bracket(items) => [OpTok("[")] + YieldAll(items) + [OpTok("]")]
    case Sign(op, operand) => [PrefixToken(op)] + Yield(operand)
    case Power(base, exponent) => Yield(base) + OpTokens(Pow) + Yield(exponent)
    case Chain(op, left, right) => Yield(left) + OpTokens(op) + Yield(right)
  }

  function YieldAll(items: seq<Phrase>): seq<Token>
    decreases items, 0
  {
    if items == [] then []
    else if |items| == 1 then Yield(items[0])
    else Yield(items[0]) + [OpTok(",")] + YieldAll(items[1..])
  }

  function TreeOf(p: Phrase): Expr
    decreases p, 1
  {
    match p
    case Word(NumTok(text)) => NumLit(text)
    case Word(StrTok(text)) => StrLit(text)
    case Word(NameTok(text)) => NamedAtom(text)
    case Word(_) => NoneLit
    case Group(inner) => TreeOf(inner)
    case Bracket(items) => ListLit(TreesOf(items))
    case Sign(op, operand) => Unary(op, TreeOf(operand))
    case Power(base, exponent) => Binary(Pow, TreeOf(base), TreeOf(exponent))
    case Chain(op, left, right) => Binary(op, TreeOf(left), TreeOf(right))
  }

  function TreesOf(items: seq<Phrase>): (es: seq<Expr>)
    ensures |es| == |items|
    decreases items, 0
  {
    if items == [] then [] else [TreeOf(items[0])] + TreesOf(items[1..])
  }

  /** A phrase for this level of the grammar. Every word is a name, but one that would stand where a
      negation may is no "not": there the word starts a negation. */
  predicate Fits(p: Phrase, level: nat)
    decreases p, 2
  {
    && level <= PhraseLevel(p) && Made(p)
    && (level <= LEVEL_NOT < PhraseLevel(p) ==> Yield(p) != [] && Yield(p)[0] != NameTok("not"))
  }

  /** Made by the rules: chains to the left, powers to the right under signs. */
  predicate Made(p: Phrase)
    decreases p, 1
  {
    match p
    case Word(tok) => tok.NumTok? || tok.StrTok? || tok.NameTok?
    case Group(inner) => Fits(inner, LEVEL_OR)
    case Bracket(items) => AllFit(items)
    case Sign(op, operand) => Fits(operand, SignLevel(op))
    case Power(base, exponent) => Fits(base, LEVEL_ATOM) && Fits(exponent, LEVEL_UNARY)
    case Chain(op, left, right) => op != Pow && Fits(left, OpLevel(op)) && Fits(right, OpLevel(op) + 1)
  }

  predicate AllFit(items: seq<Phrase>)
    decreases items, 0
  {
    items == [] || (Fits(items[0], LEVEL_OR) && AllFit(items[1..]))
  }

  lemma ChainParts(p: Phrase)
    requires p.Chain? && Made(p)
    ensures p.bop != Pow && Fits(p.left, OpLevel(p.bop)) && Fits(p.right, OpLevel(p.bop) + 1)
    ensures Yield(p) == Yield(p.left) + OpTokens(p.bop) + Yield(p.right)
    ensures TreeOf(p) == Binary(p.bop, TreeOf(p.left), TreeOf(p.right))
  {
  }

  lemma PowerParts(p: Phrase)
    requires p.Power? && Made(p)
    ensures Fits(p.base, LEVEL_ATOM) && Fits(p.exponent, LEVEL_UNARY)
    ensures Yield(p) == Yield(p.base) + [OpTok("**")] + Yield(p.exponent)
    ensures TreeOf(p) == Binary(Pow, TreeOf(p.base), TreeOf(p.exponent))
  {
  }

  lemma SignParts(p: Phrase)
    requires p.Sign? && Made(p)
    ensures Fits(p.operand, SignLevel(p.uop)) && Yield(p) == [PrefixToken(p.uop)] + Yield(p.operand)
    ensures TreeOf(p) == Unary(p.uop, TreeOf(p.operand))
  {
  }

  lemma GroupParts(p: Phrase)
    requires p.Group? && Made(p)
    ensures Fits(p.inner, LEVEL_OR) && TreeOf(p) == TreeOf(p.inner)
    ensures Yield(p) == [OpTok("(")] + Yield(p.inner) + [OpTok(")")]
  {
  }

  lemma BracketParts(p: Phrase)
    requires p.Bracket? && Made(p)
    ensures AllFit(p.items) && TreeOf(p) == ListLit(TreesOf(p.items))
    ensures Yield(p) == [OpTok("[")] + YieldAll(p.items) + [OpTok("]")]
    ensures p.items == [] ==> YieldAll(p.items) == [] && TreesOf(p.items) == []
  {
  }

  lemma ItemsParts(items: seq<Phrase>)
    requires AllFit(items) && items != []
    ensures Fits(items[0], LEVEL_OR) && AllFit(items[1..])
    ensures TreesOf(items) == [TreeOf(items[0])] + TreesOf(items[1..])
    ensures |items| == 1 ==> YieldAll(items) == Yield(items[0]) && TreesOf(items[1..]) == []
    ensures |items| > 1 ==> YieldAll(items) == Yield(items[0]) + [OpTok(",")] + YieldAll(items[1..])
  {
    hide Fits, Yield, TreeOf;
  }

  lemma FitsTighter(p: Phrase, level: nat)
    requires Fits(p, level) && level != PhraseLevel(p)
    ensures Fits(p, level + 1)
  {
    hide Made, Yield;
  }

  lemma FitsLooser(p: Phrase, level: nat)
    requires Fits(p, level + 1) && (level == LEVEL_NOT ==> Yield(p) != [] && Yield(p)[0] != NameTok("not"))
    ensures Fits(p, level)
  {
    hide Made, Yield;
  }

  lemma FitsItself(p: Phrase)
    requires Made(p)
    ensures Fits(p, PhraseLevel(p))
  {
    hide Made, Yield;
  }

  // -- where a part stands in the token list -------------------------------------------------------

  ghost predicate At(toks: seq<Token>, pos: nat, part: seq<Token>) {
    pos + |part| <= |toks| && toks[pos..pos + |part|] == part
  }

  lemma AtSplit(toks: seq<Token>, pos: nat, a: seq<Token>, b: seq<Token>)
    requires At(toks, pos, a + b)
    ensures At(toks, pos, a) && At(toks, pos + |a|, b)
  {
    var whole := toks[pos..pos + |a + b|];
    assert toks[pos..pos + |a|] == whole[..|a|] == a;
    assert toks[pos + |a|..pos + |a| + |b|] == whole[|a|..] == b;
  }

  lemma AtJoin(toks: seq<Token>, pos: nat, a: seq<Token>, b: seq<Token>)
    requires At(toks, pos, a) && At(toks, pos + |a|, b)
    ensures At(toks, pos, a + b)
  {
    assert toks[pos..pos + |a + b|] == toks[pos..pos + |a|] + toks[pos + |a|..pos + |a| + |b|];
  }

  lemma AtFirst(toks: seq<Token>, pos: nat, part: seq<Token>)
    requires At(toks, pos, part) && |part| > 0
    ensures pos < |toks| && toks[pos] == part[0]
  {
    assert toks[pos..pos + |part|][0] == part[0];
  }

  lemma AtOne(toks: seq<Token>, pos: nat)
    requires pos < |toks|
    ensures At(toks, pos, [toks[pos]])
  {
  }

  // -- what stops a phrase -------------------------------------------------------------------------

  /** No operator at this level or a tighter one continues what ends before `pos`. */
  ghost predicate Stops(toks: seq<Token>, pos: nat, level: nat)
    requires Terminated(toks)
  {
    && pos < |toks|
    && (forall l | level <= l <= LEVEL_TERM && LeftAssociative(l) :: OpAt(toks, pos, l) == None)
    && (level <= LEVEL_POWER ==> toks[pos] != OpTok("**"))
  }

  lemma StopsInside(toks: seq<Token>, pos: nat, level: nat)
    requires Terminated(toks) && Stops(toks, pos, level)
    ensures pos < |toks|
  {
  }

  lemma OpLevelIsLeftAssociative(op: BinOp)
    requires op != Pow
    ensures LeftAssociative(OpLevel(op)) && OpLevel(op) <= LEVEL_TERM
  {
  }

  lemma ClosersStop(toks: seq<Token>, pos: nat)
    requires Terminated(toks) && pos < |toks|
    requires toks[pos] in [OpTok(")"), OpTok("]"), OpTok(","), EofTok]
    ensures Stops(toks, pos, LEVEL_OR)
  {
  }

  lemma StopsTighter(toks: seq<Token>, pos: nat, level: nat)
    requires Terminated(toks) && Stops(toks, pos, level)
    ensures level < LEVEL_ATOM ==> Stops(toks, pos, level + 1)
    ensures pos < |toks| && (LeftAssociative(level) ==> OpAt(toks, pos, level) == None)
  {
  }

  /** Nothing continues an atom, and what stops a power stops a sign. */
  lemma StopsAround(toks: seq<Token>, pos: nat)
    requires Terminated(toks)
    ensures pos < |toks| ==> Stops(toks, pos, LEVEL_ATOM)
    ensures Stops(toks, pos, LEVEL_POWER) ==> Stops(toks, pos, LEVEL_UNARY) && toks[pos] != OpTok("**")
  {
  }

  /** An operator is read at its own level and stops every tighter one. */
  lemma OperatorAt(toks: seq<Token>, pos: nat, op: BinOp)
    requires Terminated(toks) && op != Pow && At(toks, pos, OpTokens(op))
    ensures pos + |OpTokens(op)| < |toks| && Stops(toks, pos, OpLevel(op) + 1)
    ensures OpAt(toks, pos, OpLevel(op)) == Some((op, |OpTokens(op)|))
  {
    hide Terminated, Stops, OpAt;
    AtFirst(toks, pos, OpTokens(op));
    OperatorStops(toks, pos, op);
    if op == NotIn {
      assert OpTokens(op) == [NameTok("not")] + [NameTok("in")];
      AtSplit(toks, pos, [NameTok("not")], [NameTok("in")]);
      AtFirst(toks, pos + 1, [NameTok("in")]);
    }
    OperatorReads(toks, pos, op);
  }

  lemma OperatorStops(toks: seq<Token>, pos: nat, op: BinOp)
    requires Terminated(toks) && op != Pow && pos < |toks| && toks[pos] == OpTokens(op)[0]
    ensures Stops(toks, pos, OpLevel(op) + 1)
  {
  }

  lemma OperatorReads(toks: seq<Token>, pos: nat, op: BinOp)
    requires Terminated(toks) && op != Pow && pos < |toks| && toks[pos] == OpTokens(op)[0]
    requires op == NotIn ==> pos + 1 < |toks| && toks[pos + 1] == NameTok("in")
    ensures pos + |OpTokens(op)| < |toks| && OpAt(toks, pos, OpLevel(op)) == Some((op, |OpTokens(op)|))
  {
  }

  /** And where one is read, its tokens stand. */
  lemma OperatorStands(toks: seq<Token>, pos: nat, level: nat)
    requires Terminated(toks) && pos < |toks| && OpAt(toks, pos, level).Some?
    ensures var (op, width) := OpAt(toks, pos, level).value;
            op != Pow && OpLevel(op) == level && |OpTokens(op)| == width && At(toks, pos, OpTokens(op))
  {
    OperatorRead(toks, pos, level);
    var (op, width) := OpAt(toks, pos, level).value;
    if op == NotIn {
      assert toks[pos..pos + 2] == [toks[pos], toks[pos + 1]];
    } else {
      assert toks[pos..pos + 1] == [toks[pos]];
    }
  }

  lemma OperatorRead(toks: seq<Token>, pos: nat, level: nat)
    requires Terminated(toks) && pos < |toks| && OpAt(toks, pos, level).Some?
    ensures var (op, width) := OpAt(toks, pos, level).value;
            && op != Pow && OpLevel(op) == level && |OpTokens(op)| == width && toks[pos] == OpTokens(op)[0]
            && (op == NotIn ==> pos + 1 < |toks| && toks[pos + 1] == OpTokens(op)[1])
            && (op != NotIn ==> width == 1)
  {
  }

  // -- the first token of a phrase -----------------------------------------------------------------

  ghost predicate GoodFirst(t: Token, level: nat) {
    t != OpTok("]") && (level > LEVEL_UNARY ==> t != OpTok("-") && t != OpTok("+"))
  }

  lemma {:induction false} FirstToken(p: Phrase, level: nat)
    requires Fits(p, level)
    ensures |Yield(p)| > 0 && GoodFirst(Yield(p)[0], level)
    decreases p
  {
    match p
    case Power(base, _) => FirstToken(base, LEVEL_ATOM);
    case Chain(op, left, _) => FirstToken(left, OpLevel(op));
    case _ =>
  }

  // -- every phrase is parsed ----------------------------------------------------------------------

  /** At a left-associative level a phrase is read up to the point where the chain may go on, with its
      tree as the chain's left operand. */
  lemma {:induction false} PhraseBeginsChain(toks: seq<Token>, pos: nat, p: Phrase, level: nat)
    requires Terminated(toks) && Fits(p, level) && LeftAssociative(level) && At(toks, pos, Yield(p))
    requires Stops(toks, pos + |Yield(p)|, level + 1)
    ensures pos < |toks| && Parse(toks, pos, level) == ParseRest(toks, pos + |Yield(p)|, level, TreeOf(p))
    decreases |Yield(p)|, LEVEL_ATOM - level, 1
  {
    hide Parse, ParseRest, OpAt, At, Terminated, Fits, Yield, TreeOf, GoodFirst, Stops;
    FirstToken(p, level);
    AtFirst(toks, pos, Yield(p));
    StopsInside(toks, pos + |Yield(p)|, level + 1);
    if PhraseLevel(p) == level {
      ChainIsChain(p, level);
      PhraseChain(toks, pos, p);
    } else {
      FitsTighter(p, level);
      PhraseParses(toks, pos, p, level + 1);
      ChainOpens(toks, pos, level);
    }
  }

  lemma ChainIsChain(p: Phrase, level: nat)
    requires Fits(p, level) && PhraseLevel(p) == level && LeftAssociative(level)
    ensures p.Chain? && OpLevel(p.bop) == level && Made(p)
  {
  }

  /** Where the parts of an operation stand. */
  lemma PartsAt(toks: seq<Token>, pos: nat, l: seq<Token>, o: seq<Token>, r: seq<Token>)
    requires At(toks, pos, l + o + r)
    ensures At(toks, pos, l) && At(toks, pos + |l|, o) && At(toks, pos + |l| + |o|, r)
  {
    hide At;
    AtSplit(toks, pos, l + o, r);
    AtSplit(toks, pos, l, o);
  }

  lemma {:induction false} PhraseChain(toks: seq<Token>, pos: nat, p: Phrase)
    requires Terminated(toks) && p.Chain? && Made(p)
    requires At(toks, pos, Yield(p)) && Stops(toks, pos + |Yield(p)|, OpLevel(p.bop) + 1)
    ensures pos < |toks|
    ensures Parse(toks, pos, OpLevel(p.bop)) == ParseRest(toks, pos + |Yield(p)|, OpLevel(p.bop), TreeOf(p))
    decreases |Yield(p)|, LEVEL_ATOM - OpLevel(p.bop), 0
  {
    hide Parse, ParseRest, OpAt, Yield, Made, Fits, TreeOf, OpTokens, GoodFirst, At, OpLevel, Stops, Terminated,
      LeftAssociative;
    ChainParts(p);
    OpLevelIsLeftAssociative(p.bop);
    StopsInside(toks, pos + |Yield(p)|, OpLevel(p.bop) + 1);
    var level := OpLevel(p.bop);
    var l, o, r := Yield(p.left), OpTokens(p.bop), Yield(p.right);
    FirstToken(p.left, level);
    FirstToken(p.right, level + 1);
    PartsAt(toks, pos, l, o, r);
    OperatorAt(toks, pos + |l|, p.bop);
    PhraseBeginsChain(toks, pos, p.left, level);
    PhraseParses(toks, pos + |l| + |o|, p.right, level + 1);
    ChainExtends(toks, pos + |l|, level, TreeOf(p.left), p.bop, |o|);
  }

  /** A phrase, followed by something that does not continue it, is parsed to its tree. */
  lemma {:induction false} PhraseParses(toks: seq<Token>, pos: nat, p: Phrase, level: nat)
    requires Terminated(toks) && Fits(p, level) && level <= LEVEL_ATOM && At(toks, pos, Yield(p))
    requires pos + |Yield(p)| < |toks| && Stops(toks, pos + |Yield(p)|, level)
    ensures Parse(toks, pos, level) == Tree(TreeOf(p), pos + |Yield(p)|)
    decreases |Yield(p)|, LEVEL_ATOM - level, 2
  {
    hide Parse, ParseRest, OpAt, At, Yield, TreeOf, Made, GoodFirst, Terminated, Stops;
    FirstToken(p, level);
    AtFirst(toks, pos, Yield(p));
    StopsTighter(toks, pos + |Yield(p)|, level);
    if LeftAssociative(level) {
      PhraseBeginsChain(toks, pos, p, level);
      ChainCloses(toks, pos + |Yield(p)|, level, TreeOf(p));
    } else if level == PhraseLevel(p) {
      PhraseHere(toks, pos, p);
    } else {
      FitsTighter(p, level);
      FirstToken(p, level + 1);
      PhraseParses(toks, pos, p, level + 1);
      PassesDown(toks, pos, level, Tree(TreeOf(p), pos + |Yield(p)|));
    }
  }

  /** Levels with a prefix form read a phrase of a tighter level as that level does. */
  lemma PassesDown(toks: seq<Token>, pos: nat, level: nat, spec: Parsed)
    requires Terminated(toks) && pos < |toks| && level in [LEVEL_NOT, LEVEL_UNARY, LEVEL_POWER]
    requires GoodFirst(toks[pos], level + 1) && Parse(toks, pos, level + 1) == spec
    requires level == LEVEL_NOT ==> toks[pos] != NameTok("not")
    requires spec.Tree? ==> Stops(toks, spec.next, level)
    ensures Parse(toks, pos, level) == spec
  {
  }

  /** A phrase at its own level, which is no chain. */
  lemma {:induction false} PhraseHere(toks: seq<Token>, pos: nat, p: Phrase)
    requires Terminated(toks) && Made(p) && !LeftAssociative(PhraseLevel(p)) && At(toks, pos, Yield(p))
    requires pos + |Yield(p)| < |toks| && Stops(toks, pos + |Yield(p)|, PhraseLevel(p))
    ensures Parse(toks, pos, PhraseLevel(p)) == Tree(TreeOf(p), pos + |Yield(p)|)
    decreases |Yield(p)|, LEVEL_ATOM - PhraseLevel(p), 1
  {
    hide Parse, Made, Yield, TreeOf, At, Terminated, Stops;
    match p {
      case Word(_) => WordHere(toks, pos, p);
      case Group(_) => GroupHere(toks, pos, p);
      case Bracket(_) => BracketHere(toks, pos, p);
      case Sign(_, _) => SignHere(toks, pos, p);
      case Power(_, _) => PowerHere(toks, pos, p);
      case Chain(op, _, _) => NoChainHere(p);
    }
  }

  lemma NoChainHere(p: Phrase)
    requires Made(p)
    ensures p.Chain? ==> LeftAssociative(PhraseLevel(p))
  {
  }

  lemma WordHere(toks: seq<Token>, pos: nat, p: Phrase)
    requires Terminated(toks) && Made(p) && p.Word? && At(toks, pos, Yield(p)) && pos + |Yield(p)| < |toks|
    ensures Parse(toks, pos, LEVEL_ATOM) == Tree(TreeOf(p), pos + |Yield(p)|)
  {
    AtFirst(toks, pos, Yield(p));
  }

  lemma ParenthesesOpen(toks: seq<Token>, pos: nat)
    requires Terminated(toks) && pos < |toks| && toks[pos] == OpTok("(")
    ensures var inner := Parse(toks, pos + 1, LEVEL_OR);
            Parse(toks, pos, LEVEL_ATOM) ==
              if inner.Tree? && toks[inner.next] == OpTok(")") then Tree(inner.e, inner.next + 1) else NoParse
  {
  }

  lemma {:induction false} GroupHere(toks: seq<Token>, pos: nat, p: Phrase)
    requires Terminated(toks) && Made(p) && p.Group? && At(toks, pos, Yield(p)) && pos + |Yield(p)| < |toks|
    ensures Parse(toks, pos, LEVEL_ATOM) == Tree(TreeOf(p), pos + |Yield(p)|)
    decreases |Yield(p)|, 0, 0
  {
    hide Parse, Made, Fits, Yield, TreeOf, At, Stops, Terminated;
    GroupParts(p);
    var part := Yield(p.inner);
    PartsAt(toks, pos, [OpTok("(")], part, [OpTok(")")]);
    AtFirst(toks, pos, [OpTok("(")]);
    AtFirst(toks, pos + 1 + |part|, [OpTok(")")]);
    ClosersStop(toks, pos + 1 + |part|);
    PhraseParses(toks, pos + 1, p.inner, LEVEL_OR);
    ParenthesesOpen(toks, pos);
  }

  lemma {:induction false} SignHere(toks: seq<Token>, pos: nat, p: Phrase)
    requires Terminated(toks) && Made(p) && p.Sign? && At(toks, pos, Yield(p)) && pos + |Yield(p)| < |toks|
    requires Stops(toks, pos + |Yield(p)|, SignLevel(p.uop))
    ensures Parse(toks, pos, SignLevel(p.uop)) == Tree(TreeOf(p), pos + |Yield(p)|)
    decreases |Yield(p)|, LEVEL_ATOM - SignLevel(p.uop), 0
  {
    hide Parse, Made, Fits, Yield, TreeOf, At, Stops, Terminated, PrefixToken;
    SignParts(p);
    AtSplit(toks, pos, [PrefixToken(p.uop)], Yield(p.operand));
    AtFirst(toks, pos, [PrefixToken(p.uop)]);
    PhraseParses(toks, pos + 1, p.operand, SignLevel(p.uop));
    SignOpens(toks, pos, p.uop);
  }

  lemma SignOpens(toks: seq<Token>, pos: nat, op: UnOp)
    requires Terminated(toks) && pos < |toks| && toks[pos] == PrefixToken(op)
    ensures var operand := Parse(toks, pos + 1, SignLevel(op));
            Parse(toks, pos, SignLevel(op)) ==
              if operand.NoParse? then NoParse else Tree(Unary(op, operand.e), operand.next)
  {
    hide Parse;
    NotOpens(toks, pos);
    UnaryOpens(toks, pos);
  }

  lemma {:induction false} PowerHere(toks: seq<Token>, pos: nat, p: Phrase)
    requires Terminated(toks) && Made(p) && p.Power? && At(toks, pos, Yield(p)) && pos + |Yield(p)| < |toks|
    requires Stops(toks, pos + |Yield(p)|, LEVEL_POWER)
    ensures Parse(toks, pos, LEVEL_POWER) == Tree(TreeOf(p), pos + |Yield(p)|)
    decreases |Yield(p)|, LEVEL_ATOM - LEVEL_POWER, 0
  {
    hide Parse, Made, Fits, Yield, TreeOf, At, Stops, Terminated, GoodFirst;
    PowerParts(p);
    var l, r := Yield(p.base), Yield(p.exponent);
    FirstToken(p.base, LEVEL_ATOM);
    FirstToken(p.exponent, LEVEL_UNARY);
    PartsAt(toks, pos, l, [OpTok("**")], r);
    AtFirst(toks, pos + |l|, [OpTok("**")]);
    AtFirst(toks, pos + |l| + 1, r);
    StopsAround(toks, pos + |l|);
    StopsAround(toks, pos + |Yield(p)|);
    PhraseParses(toks, pos, p.base, LEVEL_ATOM);
    PhraseParses(toks, pos + |l| + 1, p.exponent, LEVEL_UNARY);
    PowerOpens(toks, pos);
  }

  lemma {:induction false} BracketHere(toks: seq<Token>, pos: nat, p: Phrase)
    requires Terminated(toks) && Made(p) && p.Bracket? && At(toks, pos, Yield(p)) && pos + |Yield(p)| < |toks|
    ensures Parse(toks, pos, LEVEL_ATOM) == Tree(TreeOf(p), pos + |Yield(p)|)
    decreases |Yield(p)|, 0, 0
  {
    hide Parse, ParseItems, Made, AllFit, Yield, YieldAll, TreeOf, TreesOf, At, Terminated;
    BracketParts(p);
    var part := YieldAll(p.items);
    PartsAt(toks, pos, [OpTok("[")], part, [OpTok("]")]);
    AtFirst(toks, pos, [OpTok("[")]);
    AtFirst(toks, pos + 1 + |part|, [OpTok("]")]);
    BracketOpens(toks, pos);
    if p.items != [] {
      ItemsParse(toks, pos + 1, p.items);
    }
  }

  /** Where the first item stands, and what follows it. */
  lemma ItemsAt(toks: seq<Token>, pos: nat, items: seq<Phrase>)
    requires AllFit(items) && items != [] && At(toks, pos, YieldAll(items))
    ensures var first := Yield(items[0]);
            && Fits(items[0], LEVEL_OR) && |first| > 0 && At(toks, pos, first)
            && pos < |toks| && toks[pos] != OpTok("]")
            && TreesOf(items) == [TreeOf(items[0])] + TreesOf(items[1..])
            && (|items| == 1 ==> YieldAll(items) == first && TreesOf(items[1..]) == [])
            && (|items| > 1 ==>
                  && AllFit(items[1..]) && |YieldAll(items)| == |first| + 1 + |YieldAll(items[1..])|
                  && pos + |first| < |toks| && toks[pos + |first|] == OpTok(",")
                  && At(toks, pos + |first| + 1, YieldAll(items[1..])))
  {
    hide Yield, YieldAll, At, Fits, AllFit, TreeOf, TreesOf;
    var first := Yield(items[0]);
    ItemsParts(items);
    FirstToken(items[0], LEVEL_OR);
    if |items| > 1 {
      PartsAt(toks, pos, first, [OpTok(",")], YieldAll(items[1..]));
      AtFirst(toks, pos + |first|, [OpTok(",")]);
    }
    AtFirst(toks, pos, first);
  }

  lemma {:induction false} ItemsParse(toks: seq<Token>, pos: nat, items: seq<Phrase>)
    requires Terminated(toks) && AllFit(items) && items != [] && At(toks, pos, YieldAll(items))
    requires pos + |YieldAll(items)| < |toks| && toks[pos + |YieldAll(items)|] == OpTok("]")
    ensures toks[pos] != OpTok("]")
    ensures ParseItems(toks, pos) == Items(TreesOf(items), pos + |YieldAll(items)| + 1)
    decreases |YieldAll(items)|, LEVEL_ATOM + 1, 0
  {
    hide Yield, YieldAll, Parse, ParseItems, At, Stops, Terminated, Fits, AllFit, TreeOf, TreesOf;
    var first := Yield(items[0]);
    ItemsAt(toks, pos, items);
    ClosersStop(toks, pos + |first|);
    PhraseParses(toks, pos, items[0], LEVEL_OR);
    ItemsOpen(toks, pos);
    if |items| > 1 {
      ItemsParse(toks, pos + |first| + 1, items[1..]);
    }
  }

  // -- every parse is a phrase ---------------------------------------------------------------------

  /** The phrase stands here, up to there, and this is its tree. */
  ghost predicate Stands(toks: seq<Token>, pos: nat, p: Phrase, level: nat, e: Expr, next: nat) {
    Fits(p, level) && At(toks, pos, Yield(p)) && next == pos + |Yield(p)| && TreeOf(p) == e
  }

  lemma {:induction false} Derived(toks: seq<Token>, pos: nat, level: nat) returns (p: Phrase)
    requires Terminated(toks) && pos < |toks| && level <= LEVEL_ATOM && Parse(toks, pos, level).Tree?
    ensures Stands(toks, pos, p, level, Parse(toks, pos, level).e, Parse(toks, pos, level).next)
    decreases |toks| - pos, LEVEL_ATOM - level, 1
  {
    hide Parse, ParseRest, OpAt, Stands, Terminated;
    if LeftAssociative(level) {
      ChainOpens(toks, pos, level);
      var first := Parse(toks, pos, level + 1);
      p := Derived(toks, pos, level + 1);
      StandsLooser(toks, pos, p, level, first.e, first.next);
      p := DerivedRest(toks, pos, first.next, level, first.e, p);
    } else if level == LEVEL_NOT && toks[pos] == NameTok("not") {
      p := DerivedSign(toks, pos, Not);
    } else if level == LEVEL_UNARY && (toks[pos] == OpTok("-") || toks[pos] == OpTok("+")) {
      p := DerivedSign(toks, pos, if toks[pos] == OpTok("-") then Neg else Pos);
    } else if level == LEVEL_POWER {
      p := DerivedPower(toks, pos);
    } else if level == LEVEL_ATOM {
      p := DerivedAtom(toks, pos);
    } else {
      NotOpens(toks, pos);
      UnaryOpens(toks, pos);
      p := Derived(toks, pos, level + 1);
      StandsLooser(toks, pos, p, level, Parse(toks, pos, level).e, Parse(toks, pos, level).next);
    }
  }

  lemma StandsLooser(toks: seq<Token>, pos: nat, p: Phrase, level: nat, e: Expr, next: nat)
    requires Stands(toks, pos, p, level + 1, e, next) && pos < |toks|
    requires level == LEVEL_NOT ==> toks[pos] != NameTok("not")
    ensures Stands(toks, pos, p, level, e, next)
  {
    hide Fits, At, Yield, TreeOf;
    FirstToken(p, level + 1);
    AtFirst(toks, pos, Yield(p));
    FitsLooser(p, level);
  }

  lemma SignStands(toks: seq<Token>, pos: nat, op: UnOp, operand: Phrase, e: Expr, next: nat)
    requires pos < |toks| && toks[pos] == PrefixToken(op) && Stands(toks, pos + 1, operand, SignLevel(op), e, next)
    ensures Stands(toks, pos, Sign(op, operand), SignLevel(op), Unary(op, e), next)
  {
    hide At, Fits;
    var p := Sign(op, operand);
    assert Made(p);
    FitsItself(p);
    SignParts(p);
    AtOne(toks, pos);
    AtJoin(toks, pos, [toks[pos]], Yield(operand));
  }

  lemma {:induction false} DerivedSign(toks: seq<Token>, pos: nat, op: UnOp) returns (p: Phrase)
    requires Terminated(toks) && pos < |toks| && toks[pos] == PrefixToken(op) && Parse(toks, pos, SignLevel(op)).Tree?
    ensures Stands(toks, pos, p, SignLevel(op), Parse(toks, pos, SignLevel(op)).e, Parse(toks, pos, SignLevel(op)).next)
    decreases |toks| - pos, 0, 0
  {
    hide Parse, Stands;
    SignOpens(toks, pos, op);
    var operand := Parse(toks, pos + 1, SignLevel(op));
    p := Derived(toks, pos + 1, SignLevel(op));
    SignStands(toks, pos, op, p, operand.e, operand.next);
    p := Sign(op, p);
  }

  lemma OperationStands(toks: seq<Token>, pos: nat, p: Phrase, l: seq<Token>, o: seq<Token>, r: seq<Token>)
    requires Made(p) && Yield(p) == l + o + r
    requires At(toks, pos, l) && At(toks, pos + |l|, o) && At(toks, pos + |l| + |o|, r)
    ensures Stands(toks, pos, p, PhraseLevel(p), TreeOf(p), pos + |l| + |o| + |r|)
  {
    hide At, Made, Yield, TreeOf;
    FitsItself(p);
    AtJoin(toks, pos, l, o);
    AtJoin(toks, pos, l + o, r);
  }

  /** A chain's left operand stands here; so does the whole chain the parser makes of it. */
  lemma {:induction false} DerivedRest(toks: seq<Token>, pos: nat, at: nat, level: nat, e: Expr, left: Phrase)
    returns (p: Phrase)
    requires Terminated(toks) && at < |toks| && LeftAssociative(level) && ParseRest(toks, at, level, e).Tree?
    requires Stands(toks, pos, left, level, e, at) && pos <= at
    ensures Stands(toks, pos, p, level, ParseRest(toks, at, level, e).e, ParseRest(toks, at, level, e).next)
    decreases |toks| - at, LEVEL_ATOM - level, 0
  {
    hide Parse, ParseRest, OpAt, Stands, Terminated, OpLevel;
    p := left;
    if OpAt(toks, at, level) == None {
      ChainCloses(toks, at, level, e);
    } else {
      var (op, width) := OpAt(toks, at, level).value;
      ChainExtends(toks, at, level, e, op, width);
      OperatorStands(toks, at, level);
      var right := Parse(toks, at + width, level + 1);
      p := Derived(toks, at + width, level + 1);
      ChainStands(toks, pos, at, op, left, e, p, right.e, right.next);
      p := DerivedRest(toks, pos, right.next, level, Binary(op, e, right.e), Chain(op, left, p));
    }
  }

  lemma ChainMade(op: BinOp, left: Phrase, right: Phrase)
    requires op != Pow && Fits(left, OpLevel(op)) && Fits(right, OpLevel(op) + 1)
    ensures Made(Chain(op, left, right)) && PhraseLevel(Chain(op, left, right)) == OpLevel(op)
  {
    hide Fits;
  }

  lemma ChainStands(toks: seq<Token>, pos: nat, at: nat, op: BinOp, left: Phrase, e: Expr, right: Phrase, e': Expr,
                    next: nat)
    requires op != Pow && Stands(toks, pos, left, OpLevel(op), e, at) && At(toks, at, OpTokens(op))
    requires Stands(toks, at + |OpTokens(op)|, right, OpLevel(op) + 1, e', next)
    ensures Stands(toks, pos, Chain(op, left, right), OpLevel(op), Binary(op, e, e'), next)
  {
    hide At, Fits, OpTokens, OpLevel, Made, Yield, TreeOf, PhraseLevel;
    var p := Chain(op, left, right);
    ChainMade(op, left, right);
    ChainParts(p);
    OperationStands(toks, pos, p, Yield(left), OpTokens(op), Yield(right));
  }

  lemma {:induction false} DerivedPower(toks: seq<Token>, pos: nat) returns (p: Phrase)
    requires Terminated(toks) && pos < |toks| && Parse(toks, pos, LEVEL_POWER).Tree?
    ensures Stands(toks, pos, p, LEVEL_POWER, Parse(toks, pos, LEVEL_POWER).e, Parse(toks, pos, LEVEL_POWER).next)
    decreases |toks| - pos, LEVEL_ATOM - LEVEL_POWER, 0
  {
    hide Parse, Stands, Terminated;
    PowerOpens(toks, pos);
    var base := Parse(toks, pos, LEVEL_ATOM);
    p := Derived(toks, pos, LEVEL_ATOM);
    if toks[base.next] == OpTok("**") {
      var exponent := Parse(toks, base.next + 1, LEVEL_UNARY);
      var q := Derived(toks, base.next + 1, LEVEL_UNARY);
      PowerStands(toks, pos, base.next, p, base.e, q, exponent.e, exponent.next);
      p := Power(p, q);
    } else {
      StandsLooser(toks, pos, p, LEVEL_POWER, base.e, base.next);
    }
  }

  lemma PowerStands(toks: seq<Token>, pos: nat, at: nat, base: Phrase, e: Expr, exponent: Phrase, e': Expr, next: nat)
    requires at < |toks| && toks[at] == OpTok("**")
    requires Stands(toks, pos, base, LEVEL_ATOM, e, at) && Stands(toks, at + 1, exponent, LEVEL_UNARY, e', next)
    ensures Stands(toks, pos, Power(base, exponent), LEVEL_POWER, Binary(Pow, e, e'), next)
  {
    hide At, Fits;
    var p := Power(base, exponent);
    assert Made(p);
    PowerParts(p);
    AtOne(toks, at);
    OperationStands(toks, pos, p, Yield(base), [OpTok("**")], Yield(exponent));
  }

  lemma {:induction false} DerivedAtom(toks: seq<Token>, pos: nat) returns (p: Phrase)
    requires Terminated(toks) && pos < |toks| && Parse(toks, pos, LEVEL_ATOM).Tree?
    ensures Stands(toks, pos, p, LEVEL_ATOM, Parse(toks, pos, LEVEL_ATOM).e, Parse(toks, pos, LEVEL_ATOM).next)
    decreases |toks| - pos, 0, 0
  {
    hide Parse, ParseItems, Stands, Terminated;
    if toks[pos] == OpTok("(") {
      ParenthesesOpen(toks, pos);
      var inner := Parse(toks, pos + 1, LEVEL_OR);
      p := Derived(toks, pos + 1, LEVEL_OR);
      GroupStands(toks, pos, p, inner.e, inner.next);
      p := Group(p);
    } else if toks[pos] == OpTok("[") {
      BracketOpens(toks, pos);
      if toks[pos + 1] == OpTok("]") {
        EmptyStands(toks, pos);
        p := Bracket([]);
      } else {
        var r := ParseItems(toks, pos + 1);
        var items := DerivedItems(toks, pos + 1);
        BracketStands(toks, pos, items, r.es, r.next);
        p := Bracket(items);
      }
    } else {
      WordStands(toks, pos);
      p := Word(toks[pos]);
    }
  }

  lemma WordStands(toks: seq<Token>, pos: nat)
    requires Terminated(toks) && pos < |toks| && Parse(toks, pos, LEVEL_ATOM).Tree?
    requires toks[pos] != OpTok("(") && toks[pos] != OpTok("[")
    ensures Stands(toks, pos, Word(toks[pos]), LEVEL_ATOM,
                   Parse(toks, pos, LEVEL_ATOM).e, Parse(toks, pos, LEVEL_ATOM).next)
  {
    AtOne(toks, pos);
  }

  lemma GroupStands(toks: seq<Token>, pos: nat, inner: Phrase, e: Expr, next: nat)
    requires pos < |toks| && toks[pos] == OpTok("(") && next < |toks| && toks[next] == OpTok(")")
    requires Stands(toks, pos + 1, inner, LEVEL_OR, e, next)
    ensures Stands(toks, pos, Group(inner), LEVEL_ATOM, e, next + 1)
  {
    hide At, Fits;
    var p := Group(inner);
    assert Made(p);
    GroupParts(p);
    AtOne(toks, pos);
    AtOne(toks, next);
    OperationStands(toks, pos, p, [OpTok("(")], Yield(inner), [OpTok(")")]);
  }

  lemma EmptyStands(toks: seq<Token>, pos: nat)
    requires pos + 1 < |toks| && toks[pos] == OpTok("[") && toks[pos + 1] == OpTok("]")
    ensures Stands(toks, pos, Bracket([]), LEVEL_ATOM, ListLit([]), pos + 2)
  {
    hide At;
    var p := Bracket([]);
    assert Made(p);
    BracketParts(p);
    AtOne(toks, pos);
    AtOne(toks, pos + 1);
    AtNothing(toks, pos + 1);
    OperationStands(toks, pos, p, [OpTok("[")], [], [OpTok("]")]);
  }

  lemma AtNothing(toks: seq<Token>, pos: nat)
    requires pos <= |toks|
    ensures At(toks, pos, [])
  {
  }

  ghost predicate ItemsStand(toks: seq<Token>, pos: nat, items: seq<Phrase>, es: seq<Expr>, close: nat) {
    && AllFit(items) && items != [] && At(toks, pos, YieldAll(items)) && TreesOf(items) == es
    && close == pos + |YieldAll(items)| && close < |toks| && toks[close] == OpTok("]")
  }

  lemma BracketStands(toks: seq<Token>, pos: nat, items: seq<Phrase>, es: seq<Expr>, next: nat)
    requires pos < |toks| && toks[pos] == OpTok("[") && next > 0 && ItemsStand(toks, pos + 1, items, es, next - 1)
    ensures Stands(toks, pos, Bracket(items), LEVEL_ATOM, ListLit(es), next)
  {
    hide At, AllFit, YieldAll, TreesOf;
    var p := Bracket(items);
    assert Made(p);
    BracketParts(p);
    AtOne(toks, pos);
    AtOne(toks, next - 1);
    OperationStands(toks, pos, p, [OpTok("[")], YieldAll(items), [OpTok("]")]);
  }

  lemma {:induction false} DerivedItems(toks: seq<Token>, pos: nat) returns (items: seq<Phrase>)
    requires Terminated(toks) && pos < |toks| && ParseItems(toks, pos).Items?
    ensures ItemsStand(toks, pos, items, ParseItems(toks, pos).es, ParseItems(toks, pos).next - 1)
    decreases |toks| - pos, LEVEL_ATOM + 1, 0
  {
    hide Parse, ParseItems, Stands, ItemsStand, Terminated;
    ItemsOpen(toks, pos);
    var first := Parse(toks, pos, LEVEL_OR);
    var p := Derived(toks, pos, LEVEL_OR);
    if toks[first.next] == OpTok("]") {
      LastItemStands(toks, pos, p, first.e, first.next);
      items := [p];
    } else {
      var rest := ParseItems(toks, first.next + 1);
      items := DerivedItems(toks, first.next + 1);
      MoreItemsStand(toks, pos, p, first.e, first.next, items, rest.es, rest.next - 1);
      items := [p] + items;
    }
  }

  lemma LastItemStands(toks: seq<Token>, pos: nat, p: Phrase, e: Expr, next: nat)
    requires Stands(toks, pos, p, LEVEL_OR, e, next) && next < |toks| && toks[next] == OpTok("]")
    ensures ItemsStand(toks, pos, [p], [e], next)
  {
    hide At, Fits, Yield, TreeOf;
    assert [p][1..] == [] && AllFit([p]);
    ItemsParts([p]);
  }

  lemma MoreItemsStand(toks: seq<Token>, pos: nat, p: Phrase, e: Expr, next: nat, items: seq<Phrase>, es: seq<Expr>,
                       close: nat)
    requires Stands(toks, pos, p, LEVEL_OR, e, next) && next < |toks| && toks[next] == OpTok(",")
    requires ItemsStand(toks, next + 1, items, es, close)
    ensures ItemsStand(toks, pos, [p] + items, [e] + es, close)
  {
    hide At, Fits, Yield, TreeOf;
    var all := [p] + items;
    assert all[1..] == items;
    assert AllFit(all) && YieldAll(all) == Yield(p) + [OpTok(",")] + YieldAll(items);
    AtOne(toks, next);
    AtJoin(toks, pos, Yield(p), [OpTok(",")]);
    AtJoin(toks, pos, Yield(p) + [OpTok(",")], YieldAll(items));
  }

  // -- the parser is the grammar -------------------------------------------------------------------

  /** The token list is a phrase and an end mark. */
  ghost predicate Spells(p: Phrase, toks: seq<Token>) { Fits(p, LEVEL_OR) && toks == Yield(p) + [EofTok] }

  lemma PhraseIsParsed(p: Phrase, toks: seq<Token>)
    requires Terminated(toks) && Spells(p, toks)
    ensures ParseAll(toks) == Some(TreeOf(p))
  {
    hide Parse, Fits, Yield, TreeOf, Stops;
    assert toks[|Yield(p)|] == EofTok && toks[0..0 + |Yield(p)|] == Yield(p);
    ClosersStop(toks, |Yield(p)|);
    PhraseParses(toks, 0, p, LEVEL_OR);
  }

  lemma ParsedIsPhrase(toks: seq<Token>) returns (p: Phrase)
    requires Terminated(toks) && ParseAll(toks).Some?
    ensures Spells(p, toks) && ParseAll(toks) == Some(TreeOf(p))
  {
    hide Parse, Fits, Yield, TreeOf;
    var r := Parse(toks, 0, LEVEL_OR);
    p := Derived(toks, 0, LEVEL_OR);
    assert r.next == |toks| - 1 && toks[0..|toks| - 1] == Yield(p);
  }

  /** The parser accepts exactly the phrases of the grammar, redundant parentheses and trailing parts
      included, and gives each its own tree. */
  lemma ParserIsTheGrammar(toks: seq<Token>, e: Expr)
    requires Terminated(toks)
    ensures ParseAll(toks) == Some(e) <==> exists p :: Spells(p, toks) && TreeOf(p) == e
  {
    hide ParseAll, Spells, TreeOf;
    if ParseAll(toks) == Some(e) {
      var p := ParsedIsPhrase(toks);
    }
    if p :| Spells(p, toks) && TreeOf(p) == e {
      PhraseIsParsed(p, toks);
    }
  }

  /** The grammar is unambiguous: two phrases that read alike have one tree. */
  lemma OneTree(p: Phrase, q: Phrase)
    requires Fits(p, LEVEL_OR) && Fits(q, LEVEL_OR) && Yield(p) == Yield(q) && EofTok !in Yield(p)
    ensures TreeOf(p) == TreeOf(q)
  {
    hide ParseAll, TreeOf, Fits;
    var toks := Yield(p) + [EofTok];
    assert Terminated(toks) by {
      forall i | 0 <= i < |toks|
        ensures toks[i].EofTok? <==> i == |toks| - 1
      {
        assert i < |Yield(p)| ==> toks[i] in Yield(p);
      }
    }
    PhraseIsParsed(p, toks);
    PhraseIsParsed(q, toks);
  }
}
