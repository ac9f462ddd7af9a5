/** The printer wastes nothing: no phrase for a tree is shorter than the printed one. */
module Shortest {
  import opened Options
  import opened Values
  import opened Grammar
  import opened Derivations
  import opened Printing

  // -- lengths of printed trees --------------------------------------------------------------------

  lemma PrintLength(e: Expr, level: nat)
    ensures |Print(e, level)| == |Bare(e)| + (if level <= LevelOf(e) then 0 else 2)
  {
    hide Bare;
  }

  /** A looser level needs no more tokens, and a pair of parentheses is enough anywhere. */
  lemma Looser(e: Expr, level: nat, tighter: nat)
    ensures level <= tighter ==> |Print(e, level)| <= |Print(e, tighter)|
    ensures |Print(e, tighter)| <= |Print(e, LEVEL_OR)| + 2
  {
    hide Print, Bare;
    PrintLength(e, level);
    PrintLength(e, tighter);
    PrintLength(e, LEVEL_OR);
  }

  lemma ItemsLength(e: Expr, es: seq<Expr>)
    ensures |PrintItems([e] + es)| == |Print(e, LEVEL_OR)| + (if es == [] then 0 else 1 + |PrintItems(es)|)
  {
    hide Print;
    assert ([e] + es)[1..] == es;
  }

  // -- no phrase is cheaper ------------------------------------------------------------------------

  /** A phrase for a tree at some level is at least as long as what the printer writes for it there. So
      at a level tighter than its own no tree is read without parentheses. */
  lemma {:induction false} NoPhraseIsShorter(p: Phrase, level: nat)
    requires Fits(p, level)
    ensures |Yield(p)| >= |Print(TreeOf(p), level)|
    decreases p, 2
  {
    hide Made, Yield, TreeOf, Print, Bare;
    MadeIsNoShorter(p);
    Looser(TreeOf(p), level, PhraseLevel(p));
  }

  lemma {:induction false} MadeIsNoShorter(p: Phrase)
    requires Made(p)
    ensures |Yield(p)| >= |Print(TreeOf(p), PhraseLevel(p))|
    decreases p, 1
  {
    hide Fits, Print;
    PrintLength(TreeOf(p), PhraseLevel(p));
    match p
    case Word(_) =>
    case Group(inner) =>
      NoPhraseIsShorter(inner, LEVEL_OR);
      Looser(TreeOf(inner), LEVEL_OR, LEVEL_ATOM);
    case Bracket(items) => NoItemsAreShorter(items);
    case Sign(op, operand) => NoPhraseIsShorter(operand, SignLevel(op));
    case Power(base, exponent) =>
      NoPhraseIsShorter(base, LEVEL_ATOM);
      NoPhraseIsShorter(exponent, LEVEL_UNARY);
    case Chain(op, left, right) =>
      NoPhraseIsShorter(left, OpLevel(op));
      NoPhraseIsShorter(right, OpLevel(op) + 1);
  }

  lemma {:induction false} NoItemsAreShorter(items: seq<Phrase>)
    requires AllFit(items)
    ensures |YieldAll(items)| >= |PrintItems(TreesOf(items))|
    decreases items, 0
  {
    hide Fits, Print, Yield, TreeOf, PrintItems;
    if items == [] {
      NoItems();
    } else {
      NoPhraseIsShorter(items[0], LEVEL_OR);
      NoItemsAreShorter(items[1..]);
      ItemsLength(TreeOf(items[0]), TreesOf(items[1..]));
    }
  }

  lemma NoItems()
    ensures PrintItems([]) == []
  {
  }

  /** Of all token lists that parse to a tree, the printed one is a shortest: it has the fewest
      parentheses. */
  lemma PrintIsShortest(toks: seq<Token>, e: Expr)
    requires Terminated(toks) && ParseAll(toks) == Some(e)
    ensures |toks| >= |Print(e, LEVEL_OR)| + 1
  {
    hide ParseAll, Print, Fits, Yield, TreeOf;
    var p := ParsedIsPhrase(toks);
    NoPhraseIsShorter(p, LEVEL_OR);
  }
}
