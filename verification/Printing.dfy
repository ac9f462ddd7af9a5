/** Printing a tree with only the parentheses the grammar requires, and the proof that
    tokenizing and parsing the printed text gives the same tree back. */
module Printing {
  import opened Options
  import opened Derivations
  import opened Values
  import opened Grammar
  import Tokens

  predicate Keyword(text: string) {
    text in ["or", "and", "not", "in", "true", "True", "false", "False", "none", "None", "null"]
  }

  /** Trees some text denotes: words that are not keywords, strings that leave a quote free. */
  predicate Printable(e: Expr)
    decreases e, 1
  {
    match e
    case NumLit(text) => Tokens.Spellable(NumTok(text))
    case StrLit(s) => Tokens.Spellable(StrTok(s))
    case Name(name) => Tokens.Spellable(NameTok(name)) && !Keyword(name)
    case ListLit(items) => AllPrintable(items)
    case Unary(_, operand) => Printable(operand)
    case Binary(_, left, right) => Printable(left) && Printable(right)
    case _ => true
  }

  predicate AllPrintable(es: seq<Expr>)
    decreases es, 0
  {
    es == [] || (Printable(es[0]) && AllPrintable(es[1..]))
  }

  /** The grammar level a tree belongs to without parentheses. */
  function LevelOf(e: Expr): (level: nat)
    ensures level <= LEVEL_ATOM
  {
    match e
    case Unary(Not, _) => LEVEL_NOT
    case Unary(_, _) => LEVEL_UNARY
    case Binary(op, _, _) => OpLevel(op)
    case _ => LEVEL_ATOM
  }

  function Print(e: Expr, level: nat): seq<Token>
    decreases e, 2
  {
    if level <= LevelOf(e) then Bare(e) else [OpTok("(")] + Bare(e) + [OpTok(")")]
  }

  function Bare(e: Expr): seq<Token>
    decreases e, 1
  {
    match e
    case NumLit(text) => [NumTok(text)]
    case StrLit(s) => [StrTok(s)]
    case BoolLit(b) => [NameTok(if b then "true" else "false")]
    case NoneLit => [NameTok("none")]
    case Name(name) => [NameTok(name)]
    case ListLit(items) => [OpTok("[")] + PrintItems(items) + [OpTok("]")]
    case Unary(op, operand) => [PrefixToken(op)] + Print(operand, LevelOf(e))
    case Binary(op, left, right) =>
      if op == Pow then Print(left, LEVEL_ATOM) + OpTokens(op) + Print(right, LEVEL_UNARY)
      else Print(left, OpLevel(op)) + OpTokens(op) + Print(right, OpLevel(op) + 1)
  }

  function PrintItems(es: seq<Expr>): seq<Token>
    decreases es, 0
  {
    if es == [] then []
    else if |es| == 1 then Print(es[0], LEVEL_OR)
    else Print(es[0], LEVEL_OR) + [OpTok(",")] + PrintItems(es[1..])
  }

  // -- what is printed is a phrase -----------------------------------------------------------------

  function PhraseOf(e: Expr, level: nat): Phrase
    decreases e, 2
  {
    if level <= LevelOf(e) then BarePhrase(e) else Group(BarePhrase(e))
  }

  /** The phrase the printer writes out. */
  function BarePhrase(e: Expr): Phrase
    decreases e, 1
  {
    match e
    case NumLit(text) => Word(NumTok(text))
    case StrLit(s) => Word(StrTok(s))
    case BoolLit(b) => Word(NameTok(if b then "true" else "false"))
    case NoneLit => Word(NameTok("none"))
    case Name(name) => Word(NameTok(name))
    case ListLit(items) => Bracket(PhrasesOf(items))
    case Unary(op, operand) => Sign(op, PhraseOf(operand, LevelOf(e)))
    case Binary(op, left, right) =>
      if op == Pow then Power(PhraseOf(left, LEVEL_ATOM), PhraseOf(right, LEVEL_UNARY))
      else Chain(op, PhraseOf(left, OpLevel(op)), PhraseOf(right, OpLevel(op) + 1))
  }

  function PhrasesOf(es: seq<Expr>): (r: seq<Phrase>)
    ensures |r| == |es|
    decreases es, 0
  {
    if es == [] then [] else [PhraseOf(es[0], LEVEL_OR)] + PhrasesOf(es[1..])
  }

  /** A printed tree is a phrase of its level, written out as the printer does, and its tree. */
  ghost predicate Printed(p: Phrase, e: Expr, level: nat, toks: seq<Token>) {
    Fits(p, level) && Yield(p) == toks && TreeOf(p) == e
  }

  lemma BareLevel(e: Expr)
    ensures PhraseLevel(BarePhrase(e)) == LevelOf(e)
  {
  }

  /** No printed tree starts like a negation but a negation. */
  ghost predicate NoFalseNot(p: Phrase) {
    PhraseLevel(p) > LEVEL_NOT ==> Yield(p) != [] && Yield(p)[0] != NameTok("not")
  }

  lemma {:induction false} PrintedIsPhrase(e: Expr, level: nat)
    requires Printable(e) && level <= LEVEL_ATOM
    ensures Printed(PhraseOf(e, level), e, level, Print(e, level)) && NoFalseNot(PhraseOf(e, level))
    decreases e, 2
  {
    hide Fits, Yield, TreeOf, Made, Bare, BarePhrase;
    BareIsPhrase(e);
    BareLevel(e);
    if level <= LevelOf(e) {
      FitsBelow(BarePhrase(e), level);
    } else {
      FitsBelow(BarePhrase(e), LEVEL_OR);
      GroupIsPhrase(BarePhrase(e), level);
    }
  }

  lemma FitsBelow(p: Phrase, level: nat)
    requires Made(p) && NoFalseNot(p) && level <= PhraseLevel(p)
    ensures Fits(p, level)
  {
    hide Made, Yield;
  }

  lemma GroupIsPhrase(p: Phrase, level: nat)
    requires Fits(p, LEVEL_OR) && level <= LEVEL_ATOM
    ensures Fits(Group(p), level) && Yield(Group(p)) == [OpTok("(")] + Yield(p) + [OpTok(")")]
    ensures TreeOf(Group(p)) == TreeOf(p) && NoFalseNot(Group(p))
  {
  }

  /** What is printed of a tree without parentheses. */
  ghost predicate BarePrinted(e: Expr) {
    && Made(BarePhrase(e)) && NoFalseNot(BarePhrase(e))
    && Yield(BarePhrase(e)) == Bare(e) && TreeOf(BarePhrase(e)) == e
  }

  lemma LeafIsPhrase(e: Expr)
    requires Printable(e) && !e.ListLit? && !e.Unary? && !e.Binary?
    ensures BarePrinted(e)
  {
  }

  lemma SignIsPhrase(e: Expr)
    requires e.Unary?
    requires Printed(PhraseOf(e.operand, LevelOf(e)), e.operand, LevelOf(e), Print(e.operand, LevelOf(e)))
    ensures BarePrinted(e)
  {
    hide Fits, PhraseOf, Print;
  }

  lemma PowerIsPhrase(e: Expr)
    requires e.Binary? && e.bop == Pow
    requires Printed(PhraseOf(e.left, LEVEL_ATOM), e.left, LEVEL_ATOM, Print(e.left, LEVEL_ATOM))
    requires Printed(PhraseOf(e.right, LEVEL_UNARY), e.right, LEVEL_UNARY, Print(e.right, LEVEL_UNARY))
    requires NoFalseNot(PhraseOf(e.left, LEVEL_ATOM))
    ensures BarePrinted(e)
  {
    hide Fits, PhraseOf, Print, OpTokens;
    FitsLevel(PhraseOf(e.left, LEVEL_ATOM), LEVEL_ATOM);
    PowerToken();
  }

  lemma PowerToken()
    ensures OpTokens(Pow) == [OpTok("**")]
  {
  }

  lemma FitsLevel(p: Phrase, level: nat)
    requires Fits(p, level)
    ensures level <= PhraseLevel(p)
  {
    hide Made, Yield;
  }

  lemma ChainIsPhrase(e: Expr)
    requires e.Binary? && e.bop != Pow
    requires var level := OpLevel(e.bop); Printed(PhraseOf(e.left, level), e.left, level, Print(e.left, level))
    requires var level := OpLevel(e.bop) + 1; Printed(PhraseOf(e.right, level), e.right, level, Print(e.right, level))
    requires NoFalseNot(PhraseOf(e.left, OpLevel(e.bop)))
    ensures BarePrinted(e)
  {
    hide Fits, PhraseOf, Print, OpTokens, OpLevel;
    FitsLevel(PhraseOf(e.left, OpLevel(e.bop)), OpLevel(e.bop));
  }

  lemma {:induction false} BareIsPhrase(e: Expr)
    requires Printable(e)
    ensures BarePrinted(e)
    decreases e, 1
  {
    hide BarePrinted, Printed, NoFalseNot, PhraseOf, Print, OpLevel;
    match e {
      case ListLit(items) =>
        ItemsArePhrases(items);
        ListIsPhrase(items);
      case Unary(op, operand) =>
        PrintedIsPhrase(operand, LevelOf(e));
        SignIsPhrase(e);
      case Binary(op, left, right) =>
        if op == Pow {
          PrintedIsPhrase(left, LEVEL_ATOM);
          PrintedIsPhrase(right, LEVEL_UNARY);
          PowerIsPhrase(e);
        } else {
          OpLevelIsLeftAssociative(op);
          PrintedIsPhrase(left, OpLevel(op));
          PrintedIsPhrase(right, OpLevel(op) + 1);
          ChainIsPhrase(e);
        }
      case _ => LeafIsPhrase(e);
    }
  }

  lemma ListIsPhrase(items: seq<Expr>)
    requires AllFit(PhrasesOf(items)) && YieldAll(PhrasesOf(items)) == PrintItems(items)
    requires TreesOf(PhrasesOf(items)) == items
    ensures BarePrinted(ListLit(items))
  {
    hide AllFit, YieldAll, PhrasesOf, PrintItems, TreesOf;
  }

  lemma {:induction false} ItemsArePhrases(es: seq<Expr>)
    requires AllPrintable(es)
    ensures AllFit(PhrasesOf(es)) && YieldAll(PhrasesOf(es)) == PrintItems(es) && TreesOf(PhrasesOf(es)) == es
    decreases es, 0
  {
    if es != [] {
      PrintedIsPhrase(es[0], LEVEL_OR);
      ItemsArePhrases(es[1..]);
      assert PhrasesOf(es)[1..] == PhrasesOf(es[1..]);
      assert [es[0]] + es[1..] == es;
    }
  }

  // -- the round trip ------------------------------------------------------------------------------

  lemma {:induction false} PrintedTokensAreSpellable(e: Expr, level: nat)
    requires Printable(e)
    ensures forall t | t in Print(e, level) :: Tokens.Spellable(t)
    decreases e, 2
  {
    BareTokensAreSpellable(e);
  }

  lemma {:induction false} BareTokensAreSpellable(e: Expr)
    requires Printable(e)
    ensures forall t | t in Bare(e) :: Tokens.Spellable(t)
    decreases e, 1
  {
    match e
    case ListLit(items) => ItemTokensAreSpellable(items);
    case Unary(op, operand) => PrintedTokensAreSpellable(operand, LevelOf(e));
    case Binary(op, left, right) =>
      if op == Pow {
        PrintedTokensAreSpellable(left, LEVEL_ATOM);
        PrintedTokensAreSpellable(right, LEVEL_UNARY);
      } else {
        PrintedTokensAreSpellable(left, OpLevel(op));
        PrintedTokensAreSpellable(right, OpLevel(op) + 1);
      }
    case _ =>
  }

  lemma {:induction false} ItemTokensAreSpellable(es: seq<Expr>)
    requires AllPrintable(es)
    ensures forall t | t in PrintItems(es) :: Tokens.Spellable(t)
    decreases es, 0
  {
    if es != [] {
      PrintedTokensAreSpellable(es[0], LEVEL_OR);
      ItemTokensAreSpellable(es[1..]);
    }
  }

  /** The text of a tree. */
  function Text(e: Expr): string {
    Tokens.Spell(Print(e, LEVEL_OR))
  }

  lemma PrintedTokensParse(e: Expr)
    requires Printable(e)
    ensures Terminated(Print(e, LEVEL_OR) + [EofTok]) ==> ParseAll(Print(e, LEVEL_OR) + [EofTok]) == Some(e)
  {
    hide Print, Printable, Fits, ParseAll;
    PrintedIsPhrase(e, LEVEL_OR);
    var toks := Print(e, LEVEL_OR) + [EofTok];
    if Terminated(toks) {
      PhraseIsParsed(PhraseOf(e, LEVEL_OR), toks);
    }
  }

  /** The grammar is unambiguous and the parser implements it: every printable tree, printed
      with only the parentheses it needs, tokenizes and parses back to itself. */
  lemma RoundTrip(e: Expr)
    requires Printable(e)
    ensures Tokens.Lex(Text(e)).Ok? && Terminated(Tokens.Lex(Text(e)).value)
    ensures ParseAll(Tokens.Lex(Text(e)).value) == Some(e)
  {
    hide Print, Printable, ParseAll, Tokens.Lex, Tokens.Spell, Tokens.Spellable, Terminated;
    PrintedTokensAreSpellable(e, LEVEL_OR);
    Tokens.LexSpell(Print(e, LEVEL_OR));
    Tokens.LexTerminates(Text(e));
    PrintedTokensParse(e);
  }
}
