/** safeeval.go's parser as written: one position moved over the tokens, evaluating while it
    parses. Every method is proved against "parse to a tree, then evaluate it". */
module Evaluator {
  import opened Options
  import opened Values
  import opened Grammar
  import Tokens
  import Printing

  /** What a fused method may answer when the pure parser answers `spec`: the value or the
      error of evaluating the tree, at the tree's end; some error when there is no tree. */
  ghost predicate Refines(r: Result<Value>, pos: nat, spec: Parsed, env: Env) {
    match spec
    case NoParse => r.Err?
    case Tree(e, next) => r == Eval(e, env) && (r.Ok? ==> pos == next)
  }

  /** Once the left operand fails, every longer chain over it fails with the same error. */
  lemma {:induction false} RestKeepsError(toks: seq<Token>, pos: nat, level: nat, left: Expr, env: Env)
    requires Terminated(toks) && pos < |toks| && level < LEVEL_ATOM
    requires Eval(left, env).Err?
    ensures ParseRest(toks, pos, level, left).Tree?
            ==> Eval(ParseRest(toks, pos, level, left).e, env) == Eval(left, env)
    decreases |toks| - pos
  {
    match OpAt(toks, pos, level)
    case None =>
    case Some((op, width)) =>
      match Parse(toks, pos + width, level + 1)
      case NoParse =>
      case Tree(right, next) => RestKeepsError(toks, next, level, Binary(op, left, right), env);
  }

  /** Whatever tree `chain` is, it fails with the error of its leftmost part `e`. */
  ghost predicate FailsWith(chain: Parsed, e: Expr, env: Env) {
    Eval(e, env).Err? && chain.Tree? ==> Eval(chain.e, env) == Eval(e, env)
  }

  /** A chain begins with one tree of the next level; a failing first operand fails it. */
  lemma ChainStart(toks: seq<Token>, pos: nat, level: nat, env: Env)
    requires Terminated(toks) && pos < |toks| && LeftAssociative(level)
    ensures var first := Parse(toks, pos, level + 1);
            if first.NoParse? then Parse(toks, pos, level) == NoParse
            else Parse(toks, pos, level) == ParseRest(toks, first.next, level, first.e)
                 && FailsWith(Parse(toks, pos, level), first.e, env)
  {
    var first := Parse(toks, pos, level + 1);
    if first.Tree? && Eval(first.e, env).Err? {
      RestKeepsError(toks, first.next, level, first.e, env);
    }
  }

  /** One more operator and operand: the chain goes on over the combined tree, and a failing
      operand or a failing combination fails it. */
  lemma ChainStep(toks: seq<Token>, pos: nat, level: nat, acc: Expr, op: BinOp, width: nat, env: Env)
    requires Terminated(toks) && pos < |toks| && level < LEVEL_ATOM
    requires OpAt(toks, pos, level) == Some((op, width)) && Eval(acc, env).Ok?
    ensures var spec := Parse(toks, pos + width, level + 1);
            var chain := ParseRest(toks, pos, level, acc);
            if spec.NoParse? then chain == NoParse
            else chain == ParseRest(toks, spec.next, level, Binary(op, acc, spec.e))
                 && FailsWith(chain, Binary(op, acc, spec.e), env)
                 && Eval(Binary(op, acc, spec.e), env) ==
                      if Eval(spec.e, env).Err? then Eval(spec.e, env)
                      else ApplyBinary(op, Eval(acc, env).value, Eval(spec.e, env).value, env)
  {
    hide Parse, ParseRest, Eval;
    var spec := Parse(toks, pos + width, level + 1);
    ChainExtends(toks, pos, level, acc, op, width);
    if spec.Tree? {
      EvalOfBinary(op, acc, spec.e, env);
      if Eval(Binary(op, acc, spec.e), env).Err? {
        RestKeepsError(toks, spec.next, level, Binary(op, acc, spec.e), env);
      }
    }
  }

  lemma EvalOfBinary(op: BinOp, left: Expr, right: Expr, env: Env)
    requires Eval(left, env).Ok?
    ensures Eval(Binary(op, left, right), env)
         == if Eval(right, env).Err? then Eval(right, env)
            else ApplyBinary(op, Eval(left, env).value, Eval(right, env).value, env)
  {
  }

  class ExprParser {
    const toks: seq<Token>
    const env: Env
    var pos: nat

    constructor (toks: seq<Token>, env: Env)
      requires Terminated(toks)
      ensures this.toks == toks && this.env == env && pos == 0 && Valid()
    {
      this.toks := toks;
      this.env := env;
      pos := 0;
    }

    ghost predicate Valid()
      reads this
    {
      Terminated(toks) && pos < |toks|
    }

    method AcceptName(word: string) returns (ok: bool)
      requires Valid()
      modifies this`pos
      ensures Valid() && ok == (toks[old(pos)] == NameTok(word))
      ensures pos == if ok then old(pos) + 1 else old(pos)
    {
      ok := toks[pos] == NameTok(word);
      if ok {
        pos := pos + 1;
      }
    }

    method AcceptOp(op: string) returns (ok: bool)
      requires Valid()
      modifies this`pos
      ensures Valid() && ok == (toks[old(pos)] == OpTok(op))
      ensures pos == if ok then old(pos) + 1 else old(pos)
    {
      ok := toks[pos] == OpTok(op);
      if ok {
        pos := pos + 1;
      }
    }

    method ParseOr() returns (r: Result<Value>)
      requires Valid()
      modifies this`pos
      ensures Valid() && pos >= old(pos)
      ensures Refines(r, pos, Parse(toks, old(pos), LEVEL_OR), env)
      decreases |toks| - pos, LEVEL_ATOM + 2 - LEVEL_OR
    {
      hide Parse, ParseRest, Eval;
      r := ParseAnd();
      ChainStart(toks, old(pos), LEVEL_OR, env);
      if r.Err? {
        return;
      }
      ghost var acc := Parse(toks, old(pos), LEVEL_AND).e;
      var more := AcceptName("or");
      while more
        invariant Valid() && pos > old(pos) && r.Ok? && r == Eval(acc, env)
        invariant Parse(toks, old(pos), LEVEL_OR) == ParseRest(toks, if more then pos - 1 else pos, LEVEL_OR, acc)
        invariant if more then toks[pos - 1] == NameTok("or") else toks[pos] != NameTok("or")
        decreases |toks| - pos, more
      {
        ChainStep(toks, pos - 1, LEVEL_OR, acc, Or, 1, env);
        ghost var at := pos;
        var right := ParseAnd();
        ghost var spec := Parse(toks, at, LEVEL_AND);
        if right.Err? {
          return right;
        }
        r := Ok(Bool(Truthy(r.value) || Truthy(right.value)));
        acc := Binary(Or, acc, spec.e);
        more := AcceptName("or");
      }
      ChainCloses(toks, pos, LEVEL_OR, acc);
    }

    method ParseAnd() returns (r: Result<Value>)
      requires Valid()
      modifies this`pos
      ensures Valid() && pos >= old(pos) && (r.Ok? ==> pos > old(pos))
      ensures Refines(r, pos, Parse(toks, old(pos), LEVEL_AND), env)
      decreases |toks| - pos, LEVEL_ATOM + 2 - LEVEL_AND
    {
      hide Parse, ParseRest, Eval;
      r := ParseNot();
      ChainStart(toks, old(pos), LEVEL_AND, env);
      if r.Err? {
        return;
      }
      ghost var acc := Parse(toks, old(pos), LEVEL_NOT).e;
      var more := AcceptName("and");
      while more
        invariant Valid() && pos > old(pos) && r.Ok? && r == Eval(acc, env)
        invariant Parse(toks, old(pos), LEVEL_AND) == ParseRest(toks, if more then pos - 1 else pos, LEVEL_AND, acc)
        invariant if more then toks[pos - 1] == NameTok("and") else toks[pos] != NameTok("and")
        decreases |toks| - pos, more
      {
        ChainStep(toks, pos - 1, LEVEL_AND, acc, And, 1, env);
        ghost var at := pos;
        var right := ParseNot();
        ghost var spec := Parse(toks, at, LEVEL_NOT);
        if right.Err? {
          return right;
        }
        r := Ok(Bool(Truthy(r.value) && Truthy(right.value)));
        acc := Binary(And, acc, spec.e);
        more := AcceptName("and");
      }
      ChainCloses(toks, pos, LEVEL_AND, acc);
    }

    method ParseNot() returns (r: Result<Value>)
      requires Valid()
      modifies this`pos
      ensures Valid() && pos >= old(pos)
      ensures Refines(r, pos, Parse(toks, old(pos), LEVEL_NOT), env)
      decreases |toks| - pos, LEVEL_ATOM + 2 - LEVEL_NOT
    {
      hide Parse, ParseRest;
      NotOpens(toks, pos);
      var negated := AcceptName("not");
      if negated {
        r := ParseNot();
        if r.Ok? {
          r := Ok(Bool(!Truthy(r.value)));
        }
      } else {
        r := ParseComparison();
      }
    }

    /** The comparison operator at the position, if any; `not` without `in` is given back. */
    method AcceptComparison() returns (op: Option<BinOp>)
      requires Valid()
      modifies this`pos
      ensures Valid()
      ensures match OpAt(toks, old(pos), LEVEL_COMPARISON)
              case None => op == None && pos == old(pos)
              case Some((o, width)) => op == Some(o) && pos == old(pos) + width
    {
      op := None;
      var ok := AcceptOp("==");
      if ok { return Some(Eq); }
      ok := AcceptOp("!=");
      if ok { return Some(Ne); }
      ok := AcceptOp("<=");
      if ok { return Some(Le); }
      ok := AcceptOp(">=");
      if ok { return Some(Ge); }
      ok := AcceptOp("<");
      if ok { return Some(Lt); }
      ok := AcceptOp(">");
      if ok { return Some(Gt); }
      ok := AcceptName("in");
      if ok { return Some(In); }
      var save := pos;
      ok := AcceptName("not");
      if ok {
        ok := AcceptName("in");
      }
      if ok {
        op := Some(NotIn);
      } else {
        pos := save;
      }
    }

    method AcceptSumOp() returns (op: Option<BinOp>)
      requires Valid()
      modifies this`pos
      ensures Valid()
      ensures match OpAt(toks, old(pos), LEVEL_SUM)
              case None => op == None && pos == old(pos)
              case Some((o, width)) => op == Some(o) && pos == old(pos) + width
    {
      op := None;
      var ok := AcceptOp("+");
      if ok { return Some(Add); }
      ok := AcceptOp("-");
      if ok { return Some(Sub); }
    }

    method AcceptTermOp() returns (op: Option<BinOp>)
      requires Valid()
      modifies this`pos
      ensures Valid()
      ensures match OpAt(toks, old(pos), LEVEL_TERM)
              case None => op == None && pos == old(pos)
              case Some((o, width)) => op == Some(o) && pos == old(pos) + width
    {
      op := None;
      var ok := AcceptOp("*");
      if ok { return Some(Mul); }
      ok := AcceptOp("//");
      if ok { return Some(FloorDiv); }
      ok := AcceptOp("/");
      if ok { return Some(Div); }
      ok := AcceptOp("%");
      if ok { return Some(Mod); }
    }

    method ParseComparison() returns (r: Result<Value>)
      requires Valid()
      modifies this`pos
      ensures Valid() && pos >= old(pos)
      ensures Refines(r, pos, Parse(toks, old(pos), LEVEL_COMPARISON), env)
      decreases |toks| - pos, LEVEL_ATOM + 2 - LEVEL_COMPARISON
    {
      hide Parse, ParseRest, Eval, Compare;
      r := ParseSum();
      ChainStart(toks, old(pos), LEVEL_COMPARISON, env);
      if r.Err? {
        return;
      }
      ghost var acc := Parse(toks, old(pos), LEVEL_SUM).e;
      while true
        invariant Valid() && pos > old(pos) && r.Ok? && r == Eval(acc, env)
        invariant Parse(toks, old(pos), LEVEL_COMPARISON) == ParseRest(toks, pos, LEVEL_COMPARISON, acc)
        decreases |toks| - pos
      {
        ghost var before := pos;
        var op := AcceptComparison();
        if op == None {
          ChainCloses(toks, pos, LEVEL_COMPARISON, acc);
          return;
        }
        ChainStep(toks, before, LEVEL_COMPARISON, acc, op.value, pos - before, env);
        ghost var at := pos;
        var right := ParseSum();
        ghost var spec := Parse(toks, at, LEVEL_SUM);
        if right.Err? {
          return right;
        }
        var result := Compare(op.value, r.value, right.value, env);
        acc := Binary(op.value, acc, spec.e);
        if result.Err? {
          return result;
        }
        r := result;
      }
    }

    method ParseSum() returns (r: Result<Value>)
      requires Valid()
      modifies this`pos
      ensures Valid() && pos >= old(pos)
      ensures Refines(r, pos, Parse(toks, old(pos), LEVEL_SUM), env)
      decreases |toks| - pos, LEVEL_ATOM + 2 - LEVEL_SUM
    {
      hide Parse, ParseRest, Eval, Arith;
      r := ParseTerm();
      ChainStart(toks, old(pos), LEVEL_SUM, env);
      if r.Err? {
        return;
      }
      ghost var acc := Parse(toks, old(pos), LEVEL_TERM).e;
      while true
        invariant Valid() && pos > old(pos) && r.Ok? && r == Eval(acc, env)
        invariant Parse(toks, old(pos), LEVEL_SUM) == ParseRest(toks, pos, LEVEL_SUM, acc)
        decreases |toks| - pos
      {
        ghost var before := pos;
        var op := AcceptSumOp();
        if op == None {
          ChainCloses(toks, pos, LEVEL_SUM, acc);
          return;
        }
        ChainStep(toks, before, LEVEL_SUM, acc, op.value, pos - before, env);
        ghost var at := pos;
        var right := ParseTerm();
        ghost var spec := Parse(toks, at, LEVEL_TERM);
        if right.Err? {
          return right;
        }
        var result := Arith(op.value, r.value, right.value, env);
        acc := Binary(op.value, acc, spec.e);
        if result.Err? {
          return result;
        }
        r := result;
      }
    }

    method ParseTerm() returns (r: Result<Value>)
      requires Valid()
      modifies this`pos
      ensures Valid() && pos >= old(pos)
      ensures Refines(r, pos, Parse(toks, old(pos), LEVEL_TERM), env)
      decreases |toks| - pos, LEVEL_ATOM + 2 - LEVEL_TERM
    {
      hide Parse, ParseRest, Eval, Arith;
      r := ParseUnary();
      ChainStart(toks, old(pos), LEVEL_TERM, env);
      if r.Err? {
        return;
      }
      ghost var acc := Parse(toks, old(pos), LEVEL_UNARY).e;
      while true
        invariant Valid() && pos > old(pos) && r.Ok? && r == Eval(acc, env)
        invariant Parse(toks, old(pos), LEVEL_TERM) == ParseRest(toks, pos, LEVEL_TERM, acc)
        decreases |toks| - pos
      {
        ghost var before := pos;
        var op := AcceptTermOp();
        if op == None {
          ChainCloses(toks, pos, LEVEL_TERM, acc);
          return;
        }
        ChainStep(toks, before, LEVEL_TERM, acc, op.value, pos - before, env);
        ghost var at := pos;
        var right := ParseUnary();
        ghost var spec := Parse(toks, at, LEVEL_UNARY);
        if right.Err? {
          return right;
        }
        var result := Arith(op.value, r.value, right.value, env);
        acc := Binary(op.value, acc, spec.e);
        if result.Err? {
          return result;
        }
        r := result;
      }
    }

    method ParseUnary() returns (r: Result<Value>)
      requires Valid()
      modifies this`pos
      ensures Valid() && pos >= old(pos)
      ensures Refines(r, pos, Parse(toks, old(pos), LEVEL_UNARY), env)
      decreases |toks| - pos, LEVEL_ATOM + 2 - LEVEL_UNARY
    {
      hide Parse;
      UnaryOpens(toks, pos);
      var ok := AcceptOp("-");
      if ok {
        r := ParseUnary();
        if r.Ok? {
          var f := ToNumber(r.value);
          r := if f.Some? then Ok(Num(-f.value)) else Err(UnsafeExpression("unary minus on non-number"));
        }
        return;
      }
      ok := AcceptOp("+");
      if ok {
        r := ParseUnary();
      } else {
        r := ParsePower();
      }
    }

    method ParsePower() returns (r: Result<Value>)
      requires Valid()
      modifies this`pos
      ensures Valid() && pos >= old(pos)
      ensures Refines(r, pos, Parse(toks, old(pos), LEVEL_POWER), env)
      decreases |toks| - pos, LEVEL_ATOM + 2 - LEVEL_POWER
    {
      hide Parse;
      PowerOpens(toks, pos);
      r := ParseAtom();
      if r.Err? {
        return;
      }
      var ok := AcceptOp("**");
      if ok {
        var exponent := ParseUnary();
        if exponent.Err? {
          return exponent;
        }
        r := Arith(Pow, r.value, exponent.value, env);
      }
    }

    method ParseAtom() returns (r: Result<Value>)
      requires Valid()
      modifies this`pos
      ensures Valid() && pos >= old(pos)
      ensures Refines(r, pos, Parse(toks, old(pos), LEVEL_ATOM), env)
      decreases |toks| - pos, 2
    {
      match toks[pos]
      case NumTok(text) =>
        pos := pos + 1;
        var f := Decimal(text);
        r := if f.Some? then Ok(Num(f.value)) else Err(UnsafeExpression("bad number: " + text));
      case StrTok(text) =>
        pos := pos + 1;
        r := Ok(Str(text));
      case NameTok(text) =>
        pos := pos + 1;
        if text == "true" || text == "True" {
          r := Ok(Bool(true));
        } else if text == "false" || text == "False" {
          r := Ok(Bool(false));
        } else if text == "none" || text == "None" || text == "null" {
          r := Ok(Nil);
        } else if text in env.vars {
          r := Ok(env.vars[text]);
        } else {
          r := Err(MissingVariable(text));
        }
      case EofTok =>
        r := Err(UnsafeExpression("unexpected token: "));
      case OpTok(text) =>
        if text == "(" {
          r := ParseParenthesized();
        } else if text == "[" {
          r := ParseList();
        } else {
          r := Err(UnsafeExpression("unexpected token: " + text));
        }
    }

    method ParseParenthesized() returns (r: Result<Value>)
      requires Valid() && toks[pos] == OpTok("(")
      modifies this`pos
      ensures Valid() && pos >= old(pos)
      ensures Refines(r, pos, Parse(toks, old(pos), LEVEL_ATOM), env)
      decreases |toks| - pos, 1
    {
      pos := pos + 1;
      r := ParseOr();
      if r.Err? {
        return;
      }
      var ok := AcceptOp(")");
      if !ok {
        r := Err(UnsafeExpression("missing )"));
      }
    }

    method ParseList() returns (r: Result<Value>)
      requires Valid() && toks[pos] == OpTok("[")
      modifies this`pos
      ensures Valid() && pos >= old(pos)
      ensures Refines(r, pos, Parse(toks, old(pos), LEVEL_ATOM), env)
      decreases |toks| - pos, 1
    {
      hide Parse, ParseItems, Eval, EvalAll;
      BracketOpens(toks, pos);
      EvalList([], env);
      EvalAllNone(env);
      pos := pos + 1;
      var closed := AcceptOp("]");
      if closed {
        return Ok(List([]));
      }
      var list := [];
      ghost var done: seq<Expr> := [];
      ghost var start := pos;
      while true
        invariant Valid() && pos >= start == old(pos) + 1
        invariant EvalAll(done, env) == Ok(list)
        invariant ParseItems(toks, start) == WithFirst(done, ParseItems(toks, pos))
        decreases |toks| - pos
      {
        ghost var at := pos;
        var value := ParseOr();
        ghost var spec := Parse(toks, at, LEVEL_OR);
        ItemsOpen(toks, at);
        if value.Err? {
          ItemsKeepError(toks, at, done, list, env);
          if ParseItems(toks, at).Items? {
            EvalList(done + ParseItems(toks, at).es, env);
          }
          return value;
        }
        EvalAllAppend(done, spec.e, env);
        EvalList(done + [spec.e], env);
        list := list + [value.value];
        var comma := AcceptOp(",");
        if comma {
          WithFirstShift(done, spec.e, ParseItems(toks, pos));
          done := done + [spec.e];
          continue;
        }
        var close := AcceptOp("]");
        if close {
          return Ok(List(list));
        }
        return Err(UnsafeExpression("malformed list"));
      }
    }
  }

  ghost function WithFirst(done: seq<Expr>, items: ParsedItems): ParsedItems {
    match items
    case NoItems => NoItems
    case Items(es, next) => Items(done + es, next)
  }

  lemma WithFirstShift(done: seq<Expr>, e: Expr, items: ParsedItems)
    ensures WithFirst(done + [e], items) == WithFirst(done, WithFirst([e], items))
  {
    if items.Items? {
      assert done + [e] + items.es == done + ([e] + items.es);
    }
  }

  lemma EvalList(es: seq<Expr>, env: Env)
    ensures Eval(ListLit(es), env) == match EvalAll(es, env) case Err(x) => Err(x) case Ok(vs) => Ok(List(vs))
  {
    hide EvalAll;
  }

  lemma EvalAllNone(env: Env)
    ensures EvalAll([], env) == Ok([])
  {
  }

  lemma EvalAllCons(x: Expr, xs: seq<Expr>, env: Env)
    ensures EvalAll([x] + xs, env) ==
              match Eval(x, env)
              case Err(e) => Err(e)
              case Ok(v) => if EvalAll(xs, env).Err? then EvalAll(xs, env) else Ok([v] + EvalAll(xs, env).value)
  {
    hide Eval;
    assert ([x] + xs)[1..] == xs;
  }

  lemma {:induction false} EvalAllConcat(xs: seq<Expr>, ys: seq<Expr>, env: Env)
    ensures EvalAll(xs, env).Ok? && EvalAll(ys, env).Ok?
            ==> EvalAll(xs + ys, env) == Ok(EvalAll(xs, env).value + EvalAll(ys, env).value)
    ensures EvalAll(xs, env).Ok? && EvalAll(ys, env).Err? ==> EvalAll(xs + ys, env) == EvalAll(ys, env)
    ensures EvalAll(xs, env).Err? ==> EvalAll(xs + ys, env) == EvalAll(xs, env)
  {
    hide Eval, EvalAll;
    if xs == [] {
      EvalAllNone(env);
      assert xs + ys == ys;
      if EvalAll(ys, env).Ok? {
        assert EvalAll(xs, env).value + EvalAll(ys, env).value == EvalAll(ys, env).value;
      }
    } else {
      assert xs + ys == [xs[0]] + (xs[1..] + ys) && xs == [xs[0]] + xs[1..];
      EvalAllConcat(xs[1..], ys, env);
      EvalAllCons(xs[0], xs[1..], env);
      EvalAllCons(xs[0], xs[1..] + ys, env);
      if EvalAll(xs, env).Ok? && EvalAll(ys, env).Ok? {
        var v, vs, ws := Eval(xs[0], env).value, EvalAll(xs[1..], env).value, EvalAll(ys, env).value;
        assert [v] + (vs + ws) == [v] + vs + ws;
      }
    }
  }

  lemma EvalAllAppend(done: seq<Expr>, e: Expr, env: Env)
    requires EvalAll(done, env).Ok? && Eval(e, env).Ok?
    ensures EvalAll(done + [e], env) == Ok(EvalAll(done, env).value + [Eval(e, env).value])
  {
    assert [e][1..] == [];
    assert EvalAll([e][1..], env) == Ok([]);
    assert [Eval(e, env).value] + [] == [Eval(e, env).value];
    EvalAllConcat(done, [e], env);
  }

  /** A failing item fails the whole list with its own error, whatever follows it. */
  lemma ItemsKeepError(toks: seq<Token>, pos: nat, done: seq<Expr>, list: seq<Value>, env: Env)
    requires Terminated(toks) && pos < |toks| && EvalAll(done, env) == Ok(list)
    requires Parse(toks, pos, LEVEL_OR).Tree? ==> Eval(Parse(toks, pos, LEVEL_OR).e, env).Err?
    ensures ParseItems(toks, pos).Items? ==>
              Parse(toks, pos, LEVEL_OR).Tree? &&
              EvalAll(done + ParseItems(toks, pos).es, env) == Err(Eval(Parse(toks, pos, LEVEL_OR).e, env).error)
  {
    if ParseItems(toks, pos).Items? {
      EvalAllConcat(done, ParseItems(toks, pos).es, env);
    }
  }

  // -- the whole expression ------------------------------------------------------------------------

  /** What the source promises of an expression: the value of the tree its text denotes. */
  function Meaning(expression: string, env: Env): Option<Value> {
    match Tokens.Lex(expression)
    case Err(_) => None
    case Ok(toks) =>
      Tokens.LexTerminates(expression);
      match ParseAll(toks)
      case None => None
      case Some(e) =>
        match Eval(e, env)
        case Ok(v) => Some(v)
        case Err(_) => None
  }

  /** The tree an expression denotes, if its text tokenizes and parses as a whole. */
  function TreeOf(expression: string): Option<Expr> {
    match Tokens.Lex(expression)
    case Err(_) => None
    case Ok(toks) =>
      Tokens.LexTerminates(expression);
      ParseAll(toks)
  }

  /** SafeEval answers a value exactly when the whole text denotes a tree that evaluates to it;
      when there is a tree, its evaluation error is SafeEval's error. */
  method SafeEval(expression: string, env: Env) returns (r: Result<Value>)
    ensures TreeOf(expression) == None ==> r.Err?
    ensures TreeOf(expression).Some? ==> r == Eval(TreeOf(expression).value, env)
    ensures forall v :: r == Ok(v) <==> Meaning(expression, env) == Some(v)
  {
    hide Parse, Eval, Tokens.Lex;
    Tokens.LexTerminates(expression);
    var toks := Tokens.Tokenize(expression);
    if toks.Err? {
      return Err(toks.error);
    }
    var p := new ExprParser(toks.value, env);
    var value := p.ParseOr();
    if value.Err? {
      return value;
    }
    if !toks.value[p.pos].EofTok? {
      return Err(UnsafeExpression("trailing tokens"));
    }
    r := value;
  }

  /** Success means every name in the expression was bound, whichever operators join them. */
  lemma SuccessBindsEveryName(expression: string, env: Env)
    requires Meaning(expression, env).Some?
    ensures TreeOf(expression).Some? && Names(TreeOf(expression).value) <= env.vars.Keys
  {
    EvaluatedNamesAreBound(TreeOf(expression).value, env);
  }

  /** A printed tree means what the tree means. */
  lemma PrintedTreesMeanThemselves(e: Expr, env: Env)
    requires Printing.Printable(e)
    ensures TreeOf(Printing.Text(e)) == Some(e)
    ensures Meaning(Printing.Text(e), env) == if Eval(e, env).Ok? then Some(Eval(e, env).value) else None
  {
    Printing.RoundTrip(e);
  }
}
