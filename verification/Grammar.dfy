/** The grammar of safeeval.go:9-20 as "parse to a tree, then evaluate": tokens, trees, a
    recursive-descent parser that only builds trees, and the strict left-to-right meaning of a
    tree. The fused evaluator in Evaluator is proved against these. */
module Grammar {
  import opened Options
  import opened Values

  datatype Token =
    | NumTok(text: string)
    | StrTok(text: string)
    | NameTok(text: string)
    | OpTok(text: string)
    | EofTok

  datatype Expr =
    | NumLit(text: string)
    | StrLit(s: string)
    | BoolLit(b: bool)
    | NoneLit
    | Name(name: string)
    | ListLit(items: seq<Expr>)
    | Unary(uop: UnOp, operand: Expr)
    | Binary(bop: BinOp, left: Expr, right: Expr)

  // -- the meaning of a tree -----------------------------------------------------------------------

  /** Strict left-to-right evaluation: both operands of every operator, `or` and `and`
      included, are evaluated before the operator applies; the first error wins. */
  function Eval(e: Expr, env: Env): Result<Value>
    decreases e, 1
  {
    match e
    case NumLit(text) =>
      (match Decimal(text)
       case Some(r) => Ok(Num(r))
       case None => Err(UnsafeExpression("bad number: " + text)))
    case StrLit(s) => Ok(Str(s))
    case BoolLit(b) => Ok(Bool(b))
    case NoneLit => Ok(Nil)
    case Name(name) => if name in env.vars then Ok(env.vars[name]) else Err(MissingVariable(name))
    case ListLit(items) =>
      (match EvalAll(items, env)
       case Ok(vs) => Ok(List(vs))
       case Err(x) => Err(x))
    case Unary(op, operand) =>
      (match Eval(operand, env)
       case Ok(v) => ApplyUnary(op, v)
       case Err(x) => Err(x))
    case Binary(op, left, right) =>
      match Eval(left, env)
      case Err(x) => Err(x)
      case Ok(a) =>
        match Eval(right, env)
        case Err(x) => Err(x)
        case Ok(b) => ApplyBinary(op, a, b, env)
  }

  function EvalAll(es: seq<Expr>, env: Env): Result<seq<Value>>
    decreases es, 0
  {
    if es == [] then Ok([])
    else
      match Eval(es[0], env)
      case Err(x) => Err(x)
      case Ok(v) =>
        match EvalAll(es[1..], env)
        case Err(x) => Err(x)
        case Ok(vs) => Ok([v] + vs)
  }

  function Names(e: Expr): set<string>
    decreases e, 1
  {
    match e
    case Name(name) => {name}
    case ListLit(items) => NamesOf(items)
    case Unary(_, operand) => Names(operand)
    case Binary(_, left, right) => Names(left) + Names(right)
    case _ => {}
  }

  function NamesOf(es: seq<Expr>): set<string>
    decreases es, 0
  {
    if es == [] then {} else Names(es[0]) + NamesOf(es[1..])
  }

  // -- the parser ----------------------------------------------------------------------------------

  /** A token list as the tokenizer leaves it: one end token, and it is last. */
  ghost predicate Terminated(toks: seq<Token>) {
    && |toks| > 0
    && forall i | 0 <= i < |toks| :: toks[i].EofTok? <==> i == |toks| - 1
  }

  datatype Parsed = Tree(e: Expr, next: nat) | NoParse

  const LEVEL_OR := 0
  const LEVEL_AND := 1
  const LEVEL_NOT := 2
  const LEVEL_COMPARISON := 3
  const LEVEL_SUM := 4
  const LEVEL_TERM := 5
  const LEVEL_UNARY := 6
  const LEVEL_POWER := 7
  const LEVEL_ATOM := 8

  /** The operator, and how many tokens spell it, that continues a left-associative chain
      at this grammar level. Only `not in` takes two. */
  function OpAt(toks: seq<Token>, pos: nat, level: nat): (r: Option<(BinOp, nat)>)
    requires Terminated(toks) && pos < |toks|
    ensures r.Some? ==> pos + r.value.1 < |toks| && r.value.1 > 0
  {
    match toks[pos]
    case NameTok(text) =>
      if level == LEVEL_OR && text == "or" then Some((Or, 1))
      else if level == LEVEL_AND && text == "and" then Some((And, 1))
      else if level == LEVEL_COMPARISON && text == "in" then Some((In, 1))
      else if level == LEVEL_COMPARISON && text == "not" && toks[pos + 1] == NameTok("in") then Some((NotIn, 2))
      else None
    case OpTok(text) =>
      if level == LEVEL_COMPARISON then
        if text == "==" then Some((Eq, 1))
        else if text == "!=" then Some((Ne, 1))
        else if text == "<=" then Some((Le, 1))
        else if text == ">=" then Some((Ge, 1))
        else if text == "<" then Some((Lt, 1))
        else if text == ">" then Some((Gt, 1))
        else None
      else if level == LEVEL_SUM then
        if text == "+" then Some((Add, 1)) else if text == "-" then Some((Sub, 1)) else None
      else if level == LEVEL_TERM then
        if text == "*" then Some((Mul, 1))
        else if text == "//" then Some((FloorDiv, 1))
        else if text == "/" then Some((Div, 1))
        else if text == "%" then Some((Mod, 1))
        else None
      else None
    case _ => None
  }

  predicate LeftAssociative(level: nat) {
    level == LEVEL_OR || level == LEVEL_AND || level == LEVEL_COMPARISON || level == LEVEL_SUM || level == LEVEL_TERM
  }

  function Parse(toks: seq<Token>, pos: nat, level: nat): (r: Parsed)
    requires Terminated(toks) && pos < |toks| && level <= LEVEL_ATOM
    ensures r.Tree? ==> pos < r.next < |toks|
    decreases |toks| - pos, LEVEL_ATOM - level
  {
    if LeftAssociative(level) then
      match Parse(toks, pos, level + 1)
      case NoParse => NoParse
      case Tree(e, next) => ParseRest(toks, next, level, e)
    else if level == LEVEL_NOT then
      if toks[pos] == NameTok("not") then ParsePrefix(toks, pos, level, Not)
      else Parse(toks, pos, LEVEL_COMPARISON)
    else if level == LEVEL_UNARY then
      if toks[pos] == OpTok("-") then ParsePrefix(toks, pos, level, Neg)
      else if toks[pos] == OpTok("+") then ParsePrefix(toks, pos, level, Pos)
      else Parse(toks, pos, LEVEL_POWER)
    else if level == LEVEL_POWER then
      match Parse(toks, pos, LEVEL_ATOM)
      case NoParse => NoParse
      case Tree(base, next) =>
        if toks[next] != OpTok("**") then Tree(base, next)
        else
          match Parse(toks, next + 1, LEVEL_UNARY)
          case NoParse => NoParse
          case Tree(exponent, after) => Tree(Binary(Pow, base, exponent), after)
    else
      match toks[pos]
      case NumTok(text) => Tree(NumLit(text), pos + 1)
      case StrTok(text) => Tree(StrLit(text), pos + 1)
      case NameTok(text) => Tree(NamedAtom(text), pos + 1)
      case EofTok => NoParse
      case OpTok(text) =>
        if text == "(" then
          match Parse(toks, pos + 1, LEVEL_OR)
          case NoParse => NoParse
          case Tree(e, next) => if toks[next] == OpTok(")") then Tree(e, next + 1) else NoParse
        else if text == "[" then
          if toks[pos + 1] == OpTok("]") then Tree(ListLit([]), pos + 2)
          else
            match ParseItems(toks, pos + 1)
            case NoItems => NoParse
            case Items(es, next) => Tree(ListLit(es), next)
        else NoParse
  }

  function ParsePrefix(toks: seq<Token>, pos: nat, level: nat, op: UnOp): (r: Parsed)
    requires Terminated(toks) && pos < |toks| && !toks[pos].EofTok? && level <= LEVEL_ATOM
    ensures r.Tree? ==> pos < r.next < |toks|
    decreases |toks| - pos, 0
  {
    match Parse(toks, pos + 1, level)
    case NoParse => NoParse
    case Tree(e, next) => Tree(Unary(op, e), next)
  }

  /** Extends `left` by as many operators of this level as follow. */
  function ParseRest(toks: seq<Token>, pos: nat, level: nat, left: Expr): (r: Parsed)
    requires Terminated(toks) && pos < |toks| && level < LEVEL_ATOM
    ensures r.Tree? ==> pos <= r.next < |toks|
    decreases |toks| - pos, LEVEL_ATOM - level
  {
    match OpAt(toks, pos, level)
    case None => Tree(left, pos)
    case Some((op, width)) =>
      match Parse(toks, pos + width, level + 1)
      case NoParse => NoParse
      case Tree(right, next) => ParseRest(toks, next, level, Binary(op, left, right))
  }

  datatype ParsedItems = Items(es: seq<Expr>, next: nat) | NoItems

  /** One or more items, each followed by a comma or the closing bracket. */
  function ParseItems(toks: seq<Token>, pos: nat): (r: ParsedItems)
    requires Terminated(toks) && pos < |toks|
    ensures r.Items? ==> pos < r.next < |toks|
    decreases |toks| - pos, LEVEL_ATOM + 1
  {
    match Parse(toks, pos, LEVEL_OR)
    case NoParse => NoItems
    case Tree(e, next) =>
      if toks[next] == OpTok("]") then Items([e], next + 1)
      else if toks[next] == OpTok(",") then
        match ParseItems(toks, next + 1)
        case NoItems => NoItems
        case Items(es, after) => Items([e] + es, after)
      else NoItems
  }

  function NamedAtom(text: string): Expr {
    if text == "true" || text == "True" then BoolLit(true)
    else if text == "false" || text == "False" then BoolLit(false)
    else if text == "none" || text == "None" || text == "null" then NoneLit
    else Name(text)
  }

  /** The whole token list as one expression. */
  function ParseAll(toks: seq<Token>): Option<Expr>
    requires Terminated(toks)
  {
    match Parse(toks, 0, LEVEL_OR)
    case NoParse => None
    case Tree(e, next) => if toks[next].EofTok? then Some(e) else None
  }

  // -- the parser, one step at a time --------------------------------------------------------------

  /** A chain is one tree of the next level, then as many operators as follow. */
  lemma ChainOpens(toks: seq<Token>, pos: nat, level: nat)
    requires Terminated(toks) && pos < |toks| && LeftAssociative(level)
    ensures var first := Parse(toks, pos, level + 1);
            Parse(toks, pos, level) ==
              if first.NoParse? then NoParse else ParseRest(toks, first.next, level, first.e)
  {
  }

  lemma NotOpens(toks: seq<Token>, pos: nat)
    requires Terminated(toks) && pos < |toks|
    ensures Parse(toks, pos, LEVEL_NOT) ==
              if toks[pos] != NameTok("not") then Parse(toks, pos, LEVEL_COMPARISON)
              else
                var operand := Parse(toks, pos + 1, LEVEL_NOT);
                if operand.NoParse? then NoParse else Tree(Unary(Not, operand.e), operand.next)
  {
  }

  lemma UnaryOpens(toks: seq<Token>, pos: nat)
    requires Terminated(toks) && pos < |toks|
    ensures Parse(toks, pos, LEVEL_UNARY) ==
              if toks[pos] != OpTok("-") && toks[pos] != OpTok("+") then Parse(toks, pos, LEVEL_POWER)
              else
                var operand := Parse(toks, pos + 1, LEVEL_UNARY);
                var op := if toks[pos] == OpTok("-") then Neg else Pos;
                if operand.NoParse? then NoParse else Tree(Unary(op, operand.e), operand.next)
  {
  }

  lemma BracketOpens(toks: seq<Token>, pos: nat)
    requires Terminated(toks) && pos < |toks| && toks[pos] == OpTok("[")
    ensures Parse(toks, pos, LEVEL_ATOM) ==
              if toks[pos + 1] == OpTok("]") then Tree(ListLit([]), pos + 2)
              else
                var items := ParseItems(toks, pos + 1);
                if items.NoItems? then NoParse else Tree(ListLit(items.es), items.next)
  {
  }

  lemma PowerOpens(toks: seq<Token>, pos: nat)
    requires Terminated(toks) && pos < |toks|
    ensures var base := Parse(toks, pos, LEVEL_ATOM);
            Parse(toks, pos, LEVEL_POWER) ==
              if base.NoParse? then NoParse
              else if toks[base.next] != OpTok("**") then base
              else
                var exponent := Parse(toks, base.next + 1, LEVEL_UNARY);
                if exponent.NoParse? then NoParse else Tree(Binary(Pow, base.e, exponent.e), exponent.next)
  {
  }

  lemma ItemsOpen(toks: seq<Token>, pos: nat)
    requires Terminated(toks) && pos < |toks|
    ensures var first := Parse(toks, pos, LEVEL_OR);
            ParseItems(toks, pos) ==
              if first.NoParse? then NoItems
              else if toks[first.next] == OpTok("]") then Items([first.e], first.next + 1)
              else if toks[first.next] != OpTok(",") then NoItems
              else
                var rest := ParseItems(toks, first.next + 1);
                if rest.NoItems? then NoItems else Items([first.e] + rest.es, rest.next)
  {
    hide Parse;
  }

  lemma ChainExtends(toks: seq<Token>, pos: nat, level: nat, left: Expr, op: BinOp, width: nat)
    requires Terminated(toks) && pos < |toks| && level < LEVEL_ATOM && OpAt(toks, pos, level) == Some((op, width))
    ensures var right := Parse(toks, pos + width, level + 1);
            ParseRest(toks, pos, level, left) ==
              if right.NoParse? then NoParse else ParseRest(toks, right.next, level, Binary(op, left, right.e))
  {
  }

  lemma ChainCloses(toks: seq<Token>, pos: nat, level: nat, left: Expr)
    requires Terminated(toks) && pos < |toks| && level < LEVEL_ATOM && OpAt(toks, pos, level) == None
    ensures ParseRest(toks, pos, level, left) == Tree(left, pos)
  {
  }

  // -- what evaluation needs of its names ----------------------------------------------------------

  /** A tree that evaluates has every one of its names bound: no operator skips an operand. */
  lemma {:induction false} EvaluatedNamesAreBound(e: Expr, env: Env)
    requires Eval(e, env).Ok?
    ensures Names(e) <= env.vars.Keys
    decreases e, 1
  {
    match e
    case ListLit(items) => EvaluatedItemNamesAreBound(items, env);
    case Unary(_, operand) => EvaluatedNamesAreBound(operand, env);
    case Binary(_, left, right) =>
      EvaluatedNamesAreBound(left, env);
      EvaluatedNamesAreBound(right, env);
    case _ =>
  }

  lemma {:induction false} EvaluatedItemNamesAreBound(es: seq<Expr>, env: Env)
    requires EvalAll(es, env).Ok?
    ensures NamesOf(es) <= env.vars.Keys
    decreases es, 0
  {
    if es != [] {
      EvaluatedNamesAreBound(es[0], env);
      EvaluatedItemNamesAreBound(es[1..], env);
    }
  }

  /** A missing-variable error names a variable the tree mentions and the environment lacks. */
  lemma {:induction false} MissingNamesAreUnbound(e: Expr, env: Env)
    requires Eval(e, env).Err? && Eval(e, env).error.MissingVariable?
    ensures Eval(e, env).error.name in Names(e) - env.vars.Keys
    decreases e, 1
  {
    match e
    case ListLit(items) => MissingItemNamesAreUnbound(items, env);
    case Unary(_, operand) => MissingNamesAreUnbound(operand, env);
    case Binary(_, left, right) =>
      if Eval(left, env).Err? {
        MissingNamesAreUnbound(left, env);
      } else {
        MissingNamesAreUnbound(right, env);
      }
    case _ =>
  }

  lemma {:induction false} MissingItemNamesAreUnbound(es: seq<Expr>, env: Env)
    requires EvalAll(es, env).Err? && EvalAll(es, env).error.MissingVariable?
    ensures EvalAll(es, env).error.name in NamesOf(es) - env.vars.Keys
    decreases es, 0
  {
    if Eval(es[0], env).Err? {
      MissingNamesAreUnbound(es[0], env);
    } else {
      MissingItemNamesAreUnbound(es[1..], env);
    }
  }
}
