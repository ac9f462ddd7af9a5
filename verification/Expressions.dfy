/** Whole expressions as text: what any two of them mean joined by an operator, under a sign, or in
    brackets, and how operators group. */
module Expressions {
  import opened Derivations
  import opened Evaluator
  import opened Grammar
  import opened Operators
  import opened Options
  import opened Tokens
  import opened Values
  import Text

  /** How an operator is written. */
  function Symbol(op: BinOp): string {
    match op
    case Or => "or" case And => "and"
    case Eq => "==" case Ne => "!=" case Lt => "<" case Le => "<=" case Gt => ">" case Ge => ">="
    case In => "in" case NotIn => "not in"
    case Add => "+" case Sub => "-"
    case Mul => "*" case Div => "/" case FloorDiv => "//" case Mod => "%"
    case Pow => "**"
  }

  function SignSymbol(op: UnOp): string { match op case Not => "not" case Neg => "-" case Pos => "+" }

  /** How tightly an operator binds: the rows of the grammar, loosest first. */
  function Binds(op: BinOp): nat {
    match op
    case Or => 0
    case And => 1
    case Eq | Ne | Lt | Le | Gt | Ge | In | NotIn => 3
    case Add | Sub => 4
    case Mul | Div | FloorDiv | Mod => 5
    case Pow => 7
  }

  function SignBinds(op: UnOp): nat { if op == Not then 2 else 6 }

  function Grouped(s: string): string { "(" + s + ")" }

  function Joined(s: string, op: BinOp, rest: string): string { Grouped(s) + " " + Symbol(op) + " " + rest }

  lemma BindsIsLevel(op: BinOp, sign: UnOp)
    ensures Binds(op) == OpLevel(op) && SignBinds(sign) == SignLevel(sign)
    ensures LeftAssociative(OpLevel(op)) <==> op != Pow
  {
  }

  // -- tokens of a text in parentheses ---------------------------------------------------------------

  lemma {:induction false} QuotedSpanKeeps(s: string, q: char, rest: string)
    requires QuotedSpan(s, q) < |s|
    ensures QuotedSpan(s + rest, q) == QuotedSpan(s, q)
  {
    if s[0] != q {
      assert (s + rest)[1..] == s[1..] + rest;
      QuotedSpanKeeps(s[1..], q, rest);
    }
  }

  lemma {:induction false} SpansKeep(s: string, rest: string)
    ensures NumberSpan(s + ")" + rest) == NumberSpan(s) && NameSpan(s + ")" + rest) == NameSpan(s)
  {
    if s == "" {
      assert (s + ")" + rest)[0] == ')';
    } else {
      assert (s + ")" + rest)[1..] == s[1..] + ")" + rest;
      SpansKeep(s[1..], rest);
    }
  }

  /** A closing parenthesis ends whatever token stands before it, and changes none. */
  lemma FrontKeeps(s: string, rest: string)
    requires s != "" && !Next(s).Illegal?
    ensures Next(s + ")" + rest) == Next(s)
  {
    hide QuotedSpan, NumberSpan, NameSpan, Text.IsSpace;
    var whole := s + ")" + rest;
    assert whole[0] == s[0];
    SpansKeep(s, rest);
    if IsQuote(s[0]) {
      QuotedFrontKeeps(s, rest);
    } else {
      WordFrontKeeps(s, rest);
    }
  }

  lemma QuotedFrontKeeps(s: string, rest: string)
    requires s != "" && !Next(s).Illegal? && IsQuote(s[0])
    ensures Next(s + ")" + rest) == Next(s)
  {
    hide QuotedSpan, NumberSpan, NameSpan;
    var whole := s + ")" + rest;
    assert whole[0] == s[0] && whole[1..] == s[1..] + (")" + rest);
    if !Text.IsSpace(s[0]) {
      QuotedSpanKeeps(s[1..], s[0], ")" + rest);
      var n := QuotedSpan(s[1..], s[0]);
      assert whole[1..n + 1] == s[1..n + 1];
    }
  }

  lemma WordFrontKeeps(s: string, rest: string)
    requires s != "" && !Next(s).Illegal? && !IsQuote(s[0])
    requires NumberSpan(s + ")" + rest) == NumberSpan(s) && NameSpan(s + ")" + rest) == NameSpan(s)
    ensures Next(s + ")" + rest) == Next(s)
  {
    hide QuotedSpan, NumberSpan, NameSpan, Text.IsSpace;
    var whole := s + ")" + rest;
    assert whole[0] == s[0] && whole[..1] == s[..1];
    assert whole[..NumberSpan(s)] == s[..NumberSpan(s)] && whole[..NameSpan(s)] == s[..NameSpan(s)];
    if |s| > 1 {
      assert whole[1] == s[1] && whole[..2] == s[..2];
    } else {
      assert whole[1] == ')' && whole[..2] == [s[0], ')'];
    }
  }

  lemma PrependNothing(rest: Result<seq<Token>>)
    ensures Prepend([], rest) == rest
  {
    if rest.Ok? {
      assert [] + rest.value == rest.value;
    }
  }

  lemma PrependTwice(a: seq<Token>, b: seq<Token>, rest: Result<seq<Token>>)
    ensures Prepend(a, Prepend(b, rest)) == Prepend(a + b, rest)
  {
    if rest.Ok? {
      assert a + (b + rest.value) == a + b + rest.value;
    }
  }

  /** A text's tokens without their end mark. */
  function Inner(s: string): seq<Token>
    requires Lex(s).Ok?
  {
    LexTerminates(s);
    Text.Front(Lex(s).value)
  }

  lemma {:induction false} LexUpToParenthesis(s: string, rest: string)
    requires Lex(s).Ok?
    ensures Lex(s + ")" + rest) == Prepend(Inner(s), Lex(")" + rest))
    decreases |s|
  {
    hide Next;
    var whole := s + ")" + rest;
    if s == "" {
      assert whole == ")" + rest && Inner(s) == [];
      PrependNothing(Lex(")" + rest));
    } else {
      FrontKeeps(s, rest);
      match Next(s) {
        case Blank =>
          assert whole[1..] == s[1..] + ")" + rest;
          LexUpToParenthesis(s[1..], rest);
        case Emit(t, n) =>
          assert whole[n..] == s[n..] + ")" + rest;
          LexUpToParenthesis(s[n..], rest);
          LexTerminates(s[n..]);
          assert Inner(s) == [t] + Inner(s[n..]);
          PrependTwice([t], Inner(s[n..]), Lex(")" + rest));
      }
    }
  }

  lemma ParenthesisLexes(c: string, rest: string)
    requires c == "(" || c == ")"
    ensures Lex(c + rest) == Prepend([OpTok(c)], Lex(rest))
  {
    var s := c + rest;
    assert s[0] == c[0] && s[1..] == rest && s[..1] == c;
    assert |s| > 1 ==> s[..2][0] == c[0];
    assert Next(s) == Emit(OpTok(c), 1);
  }

  function GroupedTokens(s: string): seq<Token>
    requires Lex(s).Ok?
  {
    [OpTok("(")] + Inner(s) + [OpTok(")")]
  }

  lemma GroupedLexes(s: string, rest: string)
    requires Lex(s).Ok?
    ensures Lex(Grouped(s) + rest) == Prepend(GroupedTokens(s), Lex(rest))
  {
    hide Lex, Inner;
    assert Grouped(s) + rest == "(" + (s + ")" + rest);
    ParenthesisLexes("(", s + ")" + rest);
    LexUpToParenthesis(s, rest);
    ParenthesisLexes(")", rest);
    PrependTwice(Inner(s), [OpTok(")")], Lex(rest));
    PrependTwice([OpTok("(")], Inner(s) + [OpTok(")")], Lex(rest));
    assert [OpTok("(")] + (Inner(s) + [OpTok(")")]) == GroupedTokens(s);
  }

  lemma PushIsPrepend(t: Token, rest: Result<seq<Token>>)
    ensures Push(t, rest) == Prepend([t], rest)
  {
  }

  lemma SymbolLexes(op: BinOp, rest: string)
    ensures Lex(" " + Symbol(op) + " " + rest) == Prepend(OpTokens(op), Lex(rest))
  {
    hide Lex, Next;
    var spelled := Symbol(op) + " " + rest;
    assert " " + Symbol(op) + " " + rest == " " + spelled;
    BlankIsSkipped(spelled);
    if op == NotIn {
      assert spelled == "not" + " " + ("in" + " " + rest);
      SpelledTokenLexes(NameTok("not"), "in" + " " + rest);
      SpelledTokenLexes(NameTok("in"), rest);
      PushIsPrepend(NameTok("in"), Lex(rest));
      PushIsPrepend(NameTok("not"), Prepend([NameTok("in")], Lex(rest)));
      PrependTwice([NameTok("not")], [NameTok("in")], Lex(rest));
      assert [NameTok("not")] + [NameTok("in")] == OpTokens(op);
    } else {
      OneTokenSymbol(op);
      SpelledTokenLexes(OpTokens(op)[0], rest);
      PushIsPrepend(OpTokens(op)[0], Lex(rest));
    }
  }

  lemma OneTokenSymbol(op: BinOp)
    requires op != NotIn
    ensures |OpTokens(op)| == 1 && SpellToken(OpTokens(op)[0]) == Symbol(op)
  {
  }

  lemma SignLexes(op: UnOp, rest: string)
    ensures Lex(SignSymbol(op) + " " + rest) == Prepend([PrefixToken(op)], Lex(rest))
  {
    hide Lex;
    SpelledTokenLexes(PrefixToken(op), rest);
    PushIsPrepend(PrefixToken(op), Lex(rest));
  }

  lemma NothingLexes()
    ensures Lex("") == Ok([EofTok])
  {
  }

  // -- phrases for whole texts -----------------------------------------------------------------------

  /** The text denotes a tree. */
  ghost predicate Denotes(s: string, e: Expr) { Evaluator.TreeOf(s) == Some(e) }

  lemma PhraseFor(s: string, e: Expr) returns (p: Phrase)
    requires Denotes(s, e)
    ensures Lex(s).Ok? && Fits(p, LEVEL_OR) && Yield(p) == Inner(s) && Derivations.TreeOf(p) == e
  {
    hide ParseAll, Lex, Fits, Yield, Derivations.TreeOf;
    LexTerminates(s);
    p := ParsedIsPhrase(Lex(s).value);
    assert Text.Front(Yield(p) + [EofTok]) == Yield(p);
  }

  lemma DenotedBy(s: string, p: Phrase)
    requires Lex(s) == Ok(Yield(p) + [EofTok]) && Fits(p, LEVEL_OR)
    ensures Denotes(s, Derivations.TreeOf(p))
  {
    hide ParseAll, Lex, Fits, Yield, Derivations.TreeOf;
    LexTerminates(s);
    PhraseIsParsed(p, Lex(s).value);
  }

  /** A phrase in parentheses fits anywhere. */
  lemma GroupFits(p: Phrase, level: nat)
    requires Fits(p, LEVEL_OR) && level <= LEVEL_ATOM
    ensures Fits(Group(p), level) && Derivations.TreeOf(Group(p)) == Derivations.TreeOf(p)
    ensures Yield(Group(p)) == [OpTok("(")] + Yield(p) + [OpTok(")")]
  {
  }

  /** Made by its rule and opened by a parenthesis or a sign that may stand there, a phrase fits every
      level up to its own. */
  lemma OpenedFits(p: Phrase, level: nat)
    requires Made(p) && level <= PhraseLevel(p) && Yield(p) != []
    requires level <= LEVEL_NOT < PhraseLevel(p) ==> Yield(p)[0] != NameTok("not")
    ensures Fits(p, level)
  {
  }

  lemma BinaryMade(op: BinOp, l: Phrase, r: Phrase) returns (p: Phrase)
    requires op == Pow ==> Fits(l, LEVEL_ATOM) && Fits(r, LEVEL_UNARY)
    requires op != Pow ==> Fits(l, Binds(op)) && Fits(r, Binds(op) + 1)
    ensures Made(p) && PhraseLevel(p) == Binds(op)
    ensures Yield(p) == Yield(l) + OpTokens(op) + Yield(r)
    ensures Derivations.TreeOf(p) == Binary(op, Derivations.TreeOf(l), Derivations.TreeOf(r))
  {
    hide Fits;
    BindsIsLevel(op, Not);
    p := if op == Pow then Power(l, r) else Chain(op, l, r);
  }

  lemma SignMade(op: UnOp, p: Phrase) returns (q: Phrase)
    requires Fits(p, SignBinds(op))
    ensures Made(q) && PhraseLevel(q) == SignBinds(op)
    ensures Yield(q) == [PrefixToken(op)] + Yield(p)
    ensures Derivations.TreeOf(q) == Unary(op, Derivations.TreeOf(p))
  {
    hide Fits;
    BindsIsLevel(Or, op);
    q := Sign(op, p);
  }

  /** The grouped operands of an operator, made one phrase. */
  lemma PairMade(op: BinOp, l: Phrase, r: Phrase) returns (p: Phrase)
    requires Fits(l, LEVEL_OR) && Fits(r, LEVEL_OR)
    ensures Made(p) && PhraseLevel(p) == Binds(op)
    ensures Yield(p) == Yield(Group(l)) + OpTokens(op) + Yield(Group(r)) && Yield(p)[0] == OpTok("(")
    ensures Derivations.TreeOf(p) == Binary(op, Derivations.TreeOf(l), Derivations.TreeOf(r))
  {
    hide Fits, Made, Derivations.TreeOf, Yield;
    BindsIsLevel(op, Not);
    GroupFits(l, if op == Pow then LEVEL_ATOM else Binds(op));
    GroupFits(r, if op == Pow then LEVEL_UNARY else Binds(op) + 1);
    p := BinaryMade(op, Group(l), Group(r));
  }

  // -- what joined texts denote ------------------------------------------------------------------------

  /** Parentheses change nothing. */
  lemma GroupedDenotes(s: string, a: Expr)
    requires Denotes(s, a)
    ensures Denotes(Grouped(s), a)
  {
    hide Lex, Fits, Yield, Derivations.TreeOf, Denotes;
    var p := PhraseFor(s, a);
    GroupedLexes(s, "");
    NothingLexes();
    assert Grouped(s) + "" == Grouped(s);
    GroupFits(p, LEVEL_OR);
    DenotedBy(Grouped(s), Group(p));
  }

  /** Two texts joined by an operator denote that operator applied to what they denote. */
  lemma JoinedDenotes(s: string, op: BinOp, t: string, a: Expr, b: Expr)
    requires Denotes(s, a) && Denotes(t, b)
    ensures Denotes(Joined(s, op, Grouped(t)), Binary(op, a, b))
  {
    hide Lex, Fits, Yield, Derivations.TreeOf, Denotes, Made;
    var l := PhraseFor(s, a);
    var r := PhraseFor(t, b);
    var p := PairMade(op, l, r);
    OpenedFits(p, LEVEL_OR);
    GroupFits(l, LEVEL_OR);
    GroupFits(r, LEVEL_OR);
    GroupedLexes(t, "");
    NothingLexes();
    assert Grouped(t) + "" == Grouped(t);
    PairLexes(s, op, Grouped(t));
    PrependTwice(GroupedTokens(s) + OpTokens(op), GroupedTokens(t), Ok([EofTok]));
    DenotedBy(Joined(s, op, Grouped(t)), p);
  }

  lemma PairLexes(s: string, op: BinOp, rest: string)
    requires Lex(s).Ok?
    ensures Lex(Joined(s, op, rest)) == Prepend(GroupedTokens(s) + OpTokens(op), Lex(rest))
  {
    hide Lex;
    assert Joined(s, op, rest) == Grouped(s) + (" " + Symbol(op) + " " + rest);
    GroupedLexes(s, " " + Symbol(op) + " " + rest);
    SymbolLexes(op, rest);
    PrependTwice(GroupedTokens(s), OpTokens(op), Lex(rest));
  }

  /** A sign before a text applies to what the text denotes. */
  lemma SignedDenotes(op: UnOp, s: string, a: Expr)
    requires Denotes(s, a)
    ensures Denotes(SignSymbol(op) + " " + Grouped(s), Unary(op, a))
  {
    hide Lex, Fits, Yield, Derivations.TreeOf, Denotes, Made;
    var p := PhraseFor(s, a);
    BindsIsLevel(Or, op);
    GroupFits(p, SignBinds(op));
    var q := SignMade(op, Group(p));
    SignFits(op, q, LEVEL_OR);
    GroupedLexes(s, "");
    NothingLexes();
    assert Grouped(s) + "" == Grouped(s);
    SignLexes(op, Grouped(s));
    PrependTwice([PrefixToken(op)], GroupedTokens(s), Ok([EofTok]));
    DenotedBy(SignSymbol(op) + " " + Grouped(s), q);
  }

  lemma SignFits(op: UnOp, q: Phrase, level: nat)
    requires Made(q) && PhraseLevel(q) == SignBinds(op) && level <= SignBinds(op)
    requires Yield(q) != [] && Yield(q)[0] == PrefixToken(op)
    ensures Fits(q, level)
  {
    hide Made, Yield;
    OpenedFits(q, level);
  }

  /** Of two operators in a row the tighter one takes the middle; of two that bind alike the left one does,
      but for powers the right. */
  lemma TwoOperatorsGroup(s: string, op: BinOp, t: string, op': BinOp, u: string, a: Expr, b: Expr, c: Expr)
    requires Denotes(s, a) && Denotes(t, b) && Denotes(u, c)
    ensures Denotes(Joined(s, op, Joined(t, op', Grouped(u))),
                    if Binds(op) > Binds(op') || (Binds(op) == Binds(op') && op != Pow)
                    then Binary(op', Binary(op, a, b), c) else Binary(op, a, Binary(op', b, c)))
  {
    hide Lex, Fits, Yield, Derivations.TreeOf, Denotes, Made, Binds;
    var x := PhraseFor(s, a);
    var y := PhraseFor(t, b);
    var z := PhraseFor(u, c);
    var whole := Joined(s, op, Joined(t, op', Grouped(u)));
    ThreeLex(s, op, t, op', u);
    GroupFits(x, LEVEL_OR);
    GroupFits(y, LEVEL_OR);
    GroupFits(z, LEVEL_OR);
    var p;
    if Binds(op) > Binds(op') || (Binds(op) == Binds(op') && op != Pow) {
      p := LeftMade(op, x, y, op', z);
    } else {
      if Binds(op) == Binds(op') {
        OnlyPowers(op, op');
      }
      p := RightMade(op, x, op', y, z);
    }
    OpenedFits(p, LEVEL_OR);
    DenotedBy(whole, p);
  }

  lemma ThreeLex(s: string, op: BinOp, t: string, op': BinOp, u: string)
    requires Lex(s).Ok? && Lex(t).Ok? && Lex(u).Ok?
    ensures Lex(Joined(s, op, Joined(t, op', Grouped(u))))
         == Ok(GroupedTokens(s) + OpTokens(op) + GroupedTokens(t) + OpTokens(op') + GroupedTokens(u) + [EofTok])
  {
    hide Lex, GroupedTokens, OpTokens;
    GroupedLexes(u, "");
    NothingLexes();
    assert Grouped(u) + "" == Grouped(u);
    PairLexes(t, op', Grouped(u));
    PairLexes(s, op, Joined(t, op', Grouped(u)));
    var (x, y, z) := (GroupedTokens(s) + OpTokens(op), GroupedTokens(t) + OpTokens(op'), GroupedTokens(u));
    assert x + (y + (z + [EofTok]))
        == GroupedTokens(s) + OpTokens(op) + GroupedTokens(t) + OpTokens(op') + z + [EofTok];
  }

  lemma LeftMade(op: BinOp, x: Phrase, y: Phrase, op': BinOp, z: Phrase) returns (p: Phrase)
    requires Fits(x, LEVEL_OR) && Fits(y, LEVEL_OR) && Fits(z, LEVEL_OR)
    requires Binds(op) > Binds(op') || (Binds(op) == Binds(op') && op != Pow)
    ensures Made(p) && Yield(p) != [] && Yield(p)[0] == OpTok("(")
    ensures Yield(p) == Yield(Group(x)) + OpTokens(op) + Yield(Group(y)) + OpTokens(op') + Yield(Group(z))
    ensures Derivations.TreeOf(p)
         == Binary(op', Binary(op, Derivations.TreeOf(x), Derivations.TreeOf(y)), Derivations.TreeOf(z))
  {
    hide Fits, Yield, Derivations.TreeOf, Made, OpTokens;
    NoneAbovePow(op, op');
    BindsIsLevel(op', Not);
    var pair := PairMade(op, x, y);
    OpenedFits(pair, Binds(op'));
    GroupFits(z, Binds(op') + 1);
    p := BinaryMade(op', pair, Group(z));
  }

  lemma NoneAbovePow(op: BinOp, op': BinOp)
    requires Binds(op) > Binds(op') || (Binds(op) == Binds(op') && op != Pow)
    ensures op' != Pow
  {
  }

  lemma OnlyPowers(op: BinOp, op': BinOp)
    requires Binds(op) == Binds(op') && op == Pow
    ensures op' == Pow
  {
  }

  lemma RightMade(op: BinOp, x: Phrase, op': BinOp, y: Phrase, z: Phrase) returns (p: Phrase)
    requires Fits(x, LEVEL_OR) && Fits(y, LEVEL_OR) && Fits(z, LEVEL_OR)
    requires Binds(op) < Binds(op') || (op == Pow && op' == Pow)
    ensures Made(p) && Yield(p) != [] && Yield(p)[0] == OpTok("(")
    ensures Yield(p) == Yield(Group(x)) + OpTokens(op) + Yield(Group(y)) + OpTokens(op') + Yield(Group(z))
    ensures Derivations.TreeOf(p)
         == Binary(op, Derivations.TreeOf(x), Binary(op', Derivations.TreeOf(y), Derivations.TreeOf(z)))
  {
    hide Fits, Yield, Derivations.TreeOf, Made, OpTokens;
    BindsIsLevel(op, Not);
    var pair := PairMade(op', y, z);
    GroupFits(x, if op == Pow then LEVEL_ATOM else Binds(op));
    OpenedFits(pair, if op == Pow then LEVEL_UNARY else Binds(op) + 1);
    p := BinaryMade(op, Group(x), pair);
  }

  /** A sign takes what follows it up to the first operator that binds less tightly. */
  lemma SignGroups(sign: UnOp, s: string, op: BinOp, t: string, a: Expr, b: Expr)
    requires Denotes(s, a) && Denotes(t, b)
    ensures Denotes(SignSymbol(sign) + " " + Joined(s, op, Grouped(t)),
                    if Binds(op) > SignBinds(sign) then Unary(sign, Binary(op, a, b))
                    else Binary(op, Unary(sign, a), b))
  {
    hide Lex, Fits, Yield, Derivations.TreeOf, Denotes, Made, Binds, SignBinds;
    var x := PhraseFor(s, a);
    var y := PhraseFor(t, b);
    var whole := SignSymbol(sign) + " " + Joined(s, op, Grouped(t));
    SignedPairLexes(sign, s, op, t);
    GroupFits(x, LEVEL_OR);
    GroupFits(y, LEVEL_OR);
    var p;
    if Binds(op) > SignBinds(sign) {
      p := SignOutside(sign, x, op, y);
    } else {
      p := SignInside(sign, x, op, y);
    }
    DenotedBy(whole, p);
  }

  lemma SignedPairLexes(sign: UnOp, s: string, op: BinOp, t: string)
    requires Lex(s).Ok? && Lex(t).Ok?
    ensures Lex(SignSymbol(sign) + " " + Joined(s, op, Grouped(t)))
         == Ok([PrefixToken(sign)] + GroupedTokens(s) + OpTokens(op) + GroupedTokens(t) + [EofTok])
  {
    hide Lex, GroupedTokens, OpTokens;
    GroupedLexes(t, "");
    NothingLexes();
    assert Grouped(t) + "" == Grouped(t);
    PairLexes(s, op, Grouped(t));
    SignLexes(sign, Joined(s, op, Grouped(t)));
    var x, z := GroupedTokens(s) + OpTokens(op), GroupedTokens(t);
    assert [PrefixToken(sign)] + (x + (z + [EofTok]))
        == [PrefixToken(sign)] + GroupedTokens(s) + OpTokens(op) + z + [EofTok];
  }

  lemma SignOutside(sign: UnOp, x: Phrase, op: BinOp, y: Phrase) returns (p: Phrase)
    requires Fits(x, LEVEL_OR) && Fits(y, LEVEL_OR) && Binds(op) > SignBinds(sign)
    ensures Fits(p, LEVEL_OR)
    ensures Yield(p) == [PrefixToken(sign)] + Yield(Group(x)) + OpTokens(op) + Yield(Group(y))
    ensures Derivations.TreeOf(p) == Unary(sign, Binary(op, Derivations.TreeOf(x), Derivations.TreeOf(y)))
  {
    hide Fits, Yield, Derivations.TreeOf, Made, OpTokens, Binds;
    var pair := PairMade(op, x, y);
    OpenedFits(pair, SignBinds(sign));
    p := SignMade(sign, pair);
    SignFits(sign, p, LEVEL_OR);
  }

  lemma SignInside(sign: UnOp, x: Phrase, op: BinOp, y: Phrase) returns (p: Phrase)
    requires Fits(x, LEVEL_OR) && Fits(y, LEVEL_OR) && Binds(op) <= SignBinds(sign)
    ensures Fits(p, LEVEL_OR)
    ensures Yield(p) == [PrefixToken(sign)] + Yield(Group(x)) + OpTokens(op) + Yield(Group(y))
    ensures Derivations.TreeOf(p) == Binary(op, Unary(sign, Derivations.TreeOf(x)), Derivations.TreeOf(y))
  {
    hide Fits, Yield, Derivations.TreeOf, Made, OpTokens;
    BindsIsLevel(op, sign);
    GroupFits(x, SignBinds(sign));
    var left := SignMade(sign, Group(x));
    SignFits(sign, left, Binds(op));
    GroupFits(y, Binds(op) + 1);
    p := BinaryMade(op, left, Group(y));
    InsideFits(sign, op, p);
  }

  /** Only a comparison or something tighter may not follow a negation, and here none does. */
  lemma InsideFits(sign: UnOp, op: BinOp, p: Phrase)
    requires Made(p) && PhraseLevel(p) == Binds(op) <= SignBinds(sign)
    requires Yield(p) != [] && Yield(p)[0] == PrefixToken(sign)
    ensures Fits(p, LEVEL_OR)
  {
    hide Made, Yield;
    OpenedFits(p, LEVEL_OR);
  }

  // -- what they mean ------------------------------------------------------------------------------------

  /** SafeEval of two texts joined by an operator is the operator applied to their values. */
  lemma JoinedMeans(s: string, op: BinOp, t: string, env: Env)
    requires Meaning(s, env).Some? && Meaning(t, env).Some?
    ensures var whole := Evaluator.TreeOf(Joined(s, op, Grouped(t)));
            && Evaluator.TreeOf(s).Some? && Evaluator.TreeOf(t).Some?
            && whole == Some(Binary(op, Evaluator.TreeOf(s).value, Evaluator.TreeOf(t).value))
            && Eval(Evaluator.TreeOf(s).value, env) == Ok(Meaning(s, env).value)
            && Eval(Evaluator.TreeOf(t).value, env) == Ok(Meaning(t, env).value)
            && Meaning(Joined(s, op, Grouped(t)), env)
               == if Eval(whole.value, env).Ok? then Some(Eval(whole.value, env).value) else None
  {
    hide ParseAll, Lex, Eval;
    JoinedDenotes(s, op, t, Evaluator.TreeOf(s).value, Evaluator.TreeOf(t).value);
  }

  /** Texts that mean numbers, joined by a comparison, mean what the numbers' order says; joined by a sign
      of arithmetic they mean the result. */
  lemma JoinedNumbers(s: string, t: string, env: Env, a: Value, b: Value, x: real, y: real)
    requires Meaning(s, env) == Some(a) && Meaning(t, env) == Some(b) && Counts(a, x) && Counts(b, y)
    ensures Meaning(Joined(s, Lt, Grouped(t)), env) == Some(Bool(x < y))
    ensures Meaning(Joined(s, Le, Grouped(t)), env) == Some(Bool(x <= y))
    ensures Meaning(Joined(s, Gt, Grouped(t)), env) == Some(Bool(x > y))
    ensures Meaning(Joined(s, Ge, Grouped(t)), env) == Some(Bool(x >= y))
    ensures Meaning(Joined(s, Eq, Grouped(t)), env) == Some(Bool(x == y))
    ensures Meaning(Joined(s, Ne, Grouped(t)), env) == Some(Bool(x != y))
    ensures Meaning(Joined(s, Add, Grouped(t)), env) == Some(Num(x + y))
    ensures Meaning(Joined(s, Sub, Grouped(t)), env) == Some(Num(x - y))
    ensures Meaning(Joined(s, Mul, Grouped(t)), env) == Some(Num(x * y))
  {
    hide Meaning, Eval, Evaluator.TreeOf, Joined, Counts;
    JoinedMeans(s, Lt, t, env);
    JoinedMeans(s, Le, t, env);
    JoinedMeans(s, Gt, t, env);
    JoinedMeans(s, Ge, t, env);
    JoinedMeans(s, Eq, t, env);
    JoinedMeans(s, Ne, t, env);
    JoinedMeans(s, Add, t, env);
    JoinedMeans(s, Sub, t, env);
    JoinedMeans(s, Mul, t, env);
    var l, r := Evaluator.TreeOf(s).value, Evaluator.TreeOf(t).value;
    NumbersCompare(l, r, env, a, b, x, y);
    NumbersAdd(l, r, env, a, b, x, y);
  }

  lemma WordDenotes(t: Token)
    requires Spellable(t) && !t.OpTok? && t != NameTok("not")
    ensures Denotes(SpellToken(t) + " ", Derivations.TreeOf(Word(t)))
  {
    hide Lex;
    SpelledTokenLexes(t, "");
    NothingLexes();
    assert SpellToken(t) + " " + "" == SpellToken(t) + " ";
    var p := Word(t);
    assert Yield(p) == [t];
    assert Fits(p, LEVEL_OR);
    DenotedBy(SpellToken(t) + " ", p);
  }

  /** Digits and dots that start with a digit, or with a dot before one, are a number. */
  lemma NumberDenotes(text: string)
    requires text != "" && forall i | 0 <= i < |text| :: '0' <= text[i] <= '9' || text[i] == '.'
    requires text[0] != '.' || (|text| > 1 && text[1] != '.')
    ensures Denotes(text + " ", NumLit(text))
  {
    WordDenotes(NumTok(text));
  }

  /** What stands between two quotes of a kind it does not hold is a string. */
  lemma StringDenotes(text: string)
    ensures '"' !in text ==> Denotes("\"" + text + "\" ", StrLit(text))
    ensures '"' in text && '\'' !in text ==> Denotes("'" + text + "' ", StrLit(text))
  {
    if '"' !in text {
      WordDenotes(StrTok(text));
      assert SpellToken(StrTok(text)) + " " == "\"" + text + "\" ";
    } else if '\'' !in text {
      WordDenotes(StrTok(text));
      assert SpellToken(StrTok(text)) + " " == "'" + text + "' ";
    }
  }

  /** A word of letters, digits and underscores that starts with no digit is a name, but for the seven that are
      constants; only "not" is no operand. */
  lemma NameDenotes(text: string)
    requires text != "" && (Text.IsAlpha(text[0]) || text[0] == '_') && text != "not"
    requires forall i | 0 <= i < |text| :: Text.IsAlpha(text[i]) || Text.IsDigit(text[i]) || text[i] == '_'
    ensures Denotes(text + " ", if text in {"true", "True"} then BoolLit(true)
                                else if text in {"false", "False"} then BoolLit(false)
                                else if text in {"none", "None", "null"} then NoneLit
                                else Name(text))
  {
    WordDenotes(NameTok(text));
  }
}
