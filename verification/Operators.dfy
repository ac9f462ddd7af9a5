/** What each operator of an expression computes, told of the operands' values alone: arithmetic,
    order, equality, membership, truth and number literals. */
module Operators {
  import opened Grammar
  import opened Options
  import opened Values
  import Text

  /** A value the evaluator counts with: a number, an integer, or a flag as one or zero. */
  ghost predicate Counts(v: Value, x: real) {
    || v == Num(x)
    || (v.Int? && v.i as real == x)
    || (v == Bool(true) && x == 1.0)
    || (v == Bool(false) && x == 0.0)
  }

  ghost predicate NoNumber(v: Value) { forall x :: !Counts(v, x) }

  /** Both operands have values. */
  ghost predicate Given(l: Expr, r: Expr, env: Env, a: Value, b: Value) {
    Eval(l, env) == Ok(a) && Eval(r, env) == Ok(b)
  }

  lemma CountsIs(v: Value, x: real)
    ensures Counts(v, x) <==> ToNumber(v) == Some(x)
  {
  }

  lemma NoNumberIs(v: Value)
    ensures NoNumber(v) <==> ToNumber(v) == None
  {
    if ToNumber(v).Some? {
      CountsIs(v, ToNumber(v).value);
    }
    forall x
      ensures Counts(v, x) <==> ToNumber(v) == Some(x)
    {
      CountsIs(v, x);
    }
  }

  lemma BinaryIs(op: BinOp, l: Expr, r: Expr, env: Env, a: Value, b: Value)
    requires Given(l, r, env, a, b)
    ensures Eval(Binary(op, l, r), env) == ApplyBinary(op, a, b, env)
  {
    hide ApplyBinary;
  }

  /** The first operand that fails fails the whole, with its own error, whatever the operator. */
  lemma FirstErrorWins(op: BinOp, l: Expr, r: Expr, env: Env)
    ensures Eval(l, env).Err? ==> Eval(Binary(op, l, r), env) == Eval(l, env)
    ensures Eval(l, env).Ok? && Eval(r, env).Err? ==> Eval(Binary(op, l, r), env) == Eval(r, env)
  {
    hide ApplyBinary;
  }

  // -- comparing -----------------------------------------------------------------------------------

  /** Numbers compare as numbers do. */
  lemma NumbersCompare(l: Expr, r: Expr, env: Env, a: Value, b: Value, x: real, y: real)
    requires Given(l, r, env, a, b) && Counts(a, x) && Counts(b, y)
    ensures Eval(Binary(Lt, l, r), env) == Ok(Bool(x < y))
    ensures Eval(Binary(Le, l, r), env) == Ok(Bool(x <= y))
    ensures Eval(Binary(Gt, l, r), env) == Ok(Bool(x > y))
    ensures Eval(Binary(Ge, l, r), env) == Ok(Bool(x >= y))
    ensures Eval(Binary(Eq, l, r), env) == Ok(Bool(x == y))
    ensures Eval(Binary(Ne, l, r), env) == Ok(Bool(x != y))
  {
    hide Eval, ToNumber;
    CountsIs(a, x);
    CountsIs(b, y);
    BinaryIs(Lt, l, r, env, a, b);
    BinaryIs(Le, l, r, env, a, b);
    BinaryIs(Gt, l, r, env, a, b);
    BinaryIs(Ge, l, r, env, a, b);
    BinaryIs(Eq, l, r, env, a, b);
    BinaryIs(Ne, l, r, env, a, b);
  }

  /** Strings compare as strings do. */
  lemma StringsCompare(l: Expr, r: Expr, env: Env, s: string, t: string)
    requires Given(l, r, env, Str(s), Str(t))
    ensures Eval(Binary(Lt, l, r), env) == Ok(Bool(Text.Before(s, t)))
    ensures Eval(Binary(Le, l, r), env) == Ok(Bool(Text.Before(s, t) || s == t))
    ensures Eval(Binary(Gt, l, r), env) == Ok(Bool(Text.Before(t, s)))
    ensures Eval(Binary(Ge, l, r), env) == Ok(Bool(Text.Before(t, s) || s == t))
  {
    hide Eval, Text.Before;
    Text.BeforeIsTotal(s, t);
    BinaryIs(Lt, l, r, env, Str(s), Str(t));
    BinaryIs(Le, l, r, env, Str(s), Str(t));
    BinaryIs(Gt, l, r, env, Str(s), Str(t));
    BinaryIs(Ge, l, r, env, Str(s), Str(t));
  }

  /** Anything else has no order. */
  lemma OthersDoNotCompare(op: BinOp, l: Expr, r: Expr, env: Env, a: Value, b: Value)
    requires Given(l, r, env, a, b) && op in {Lt, Le, Gt, Ge}
    requires (NoNumber(a) || NoNumber(b)) && !(a.Str? && b.Str?)
    ensures Eval(Binary(op, l, r), env) == Err(UnsafeExpression("cannot order these values"))
  {
    hide Eval, ToNumber;
    NoNumberIs(a);
    NoNumberIs(b);
    BinaryIs(op, l, r, env, a, b);
  }

  /** Two values are equal when they count the same, or, one of them counting nothing, print the same. */
  ghost predicate Same(a: Value, b: Value, env: Env) {
    || (exists x :: Counts(a, x) && Counts(b, x))
    || ((NoNumber(a) || NoNumber(b)) && env.show(a) == env.show(b))
  }

  lemma SameIs(a: Value, b: Value, env: Env)
    ensures Same(a, b, env) <==> Equal(a, b, env)
  {
    hide ToNumber, Counts;
    NoNumberIs(a);
    NoNumberIs(b);
    if ToNumber(a).Some? {
      CountsIs(a, ToNumber(a).value);
      CountsIs(b, ToNumber(a).value);
    }
    forall x
      ensures (Counts(a, x) <==> ToNumber(a) == Some(x)) && (Counts(b, x) <==> ToNumber(b) == Some(x))
    {
      CountsIs(a, x);
      CountsIs(b, x);
    }
  }

  lemma EqualityIs(l: Expr, r: Expr, env: Env, a: Value, b: Value)
    requires Given(l, r, env, a, b)
    ensures Eval(Binary(Eq, l, r), env) == Ok(Bool(Same(a, b, env)))
    ensures Eval(Binary(Ne, l, r), env) == Ok(Bool(!Same(a, b, env)))
  {
    hide Eval, Equal, Same;
    SameIs(a, b, env);
    BinaryIs(Eq, l, r, env, a, b);
    BinaryIs(Ne, l, r, env, a, b);
  }

  // -- membership ----------------------------------------------------------------------------------

  /** The part stands somewhere in the text. */
  ghost predicate Occurs(part: string, text: string) { exists i :: Text.StandsAt(text, part, i) }

  lemma OccursIs(part: string, text: string)
    ensures Occurs(part, text) <==> Substring(text, part)
  {
    forall i: nat
      ensures Text.StandsAt(text, part, i) <==> i <= |text| && part <= text[i..]
    {
      if i + |part| <= |text| {
        assert text[i..][..|part|] == text[i..i + |part|];
      }
    }
  }

  /** What a container holds: a list its items, a text what the item prints as; nothing else holds
      anything. */
  ghost predicate Holds(container: Value, item: Value, env: Env) {
    match container
    case List(items) => exists i | 0 <= i < |items| :: Same(items[i], item, env)
    case Str(text) => Occurs(env.show(item), text)
    case _ => false
  }

  lemma HoldsIs(container: Value, item: Value, env: Env)
    ensures Holds(container, item, env) <==> Contains(container, item, env)
  {
    hide Same, Equal, Occurs, Substring;
    match container {
      case List(items) =>
        forall i | 0 <= i < |items|
          ensures Same(items[i], item, env) <==> Equal(items[i], item, env)
        {
          SameIs(items[i], item, env);
        }
      case Str(text) => OccursIs(env.show(item), text);
      case _ =>
    }
  }

  lemma MembershipIs(l: Expr, r: Expr, env: Env, item: Value, container: Value)
    requires Given(l, r, env, item, container)
    ensures Eval(Binary(In, l, r), env) == Ok(Bool(Holds(container, item, env)))
    ensures Eval(Binary(NotIn, l, r), env) == Ok(Bool(!Holds(container, item, env)))
  {
    hide Eval, Holds, Contains;
    HoldsIs(container, item, env);
    BinaryIs(In, l, r, env, item, container);
    BinaryIs(NotIn, l, r, env, item, container);
  }

  // -- arithmetic ----------------------------------------------------------------------------------

  lemma ArithIs(op: BinOp, l: Expr, r: Expr, env: Env, a: Value, b: Value, x: real, y: real)
    requires Given(l, r, env, a, b) && Counts(a, x) && Counts(b, y) && op in {Add, Sub, Mul, Div, FloorDiv, Mod, Pow}
    ensures Eval(Binary(op, l, r), env) == Calculate(op, x, y, env)
  {
    hide Eval, ToNumber, Calculate;
    CountsIs(a, x);
    CountsIs(b, y);
    BinaryIs(op, l, r, env, a, b);
  }

  /** Sums, differences, products and powers. */
  lemma NumbersAdd(l: Expr, r: Expr, env: Env, a: Value, b: Value, x: real, y: real)
    requires Given(l, r, env, a, b) && Counts(a, x) && Counts(b, y)
    ensures Eval(Binary(Add, l, r), env) == Ok(Num(x + y))
    ensures Eval(Binary(Sub, l, r), env) == Ok(Num(x - y))
    ensures Eval(Binary(Mul, l, r), env) == Ok(Num(x * y))
    ensures Eval(Binary(Pow, l, r), env) == Ok(Num(env.pow(x, y)))
  {
    hide Eval, Counts;
    ArithIs(Add, l, r, env, a, b, x, y);
    ArithIs(Sub, l, r, env, a, b, x, y);
    ArithIs(Mul, l, r, env, a, b, x, y);
    ArithIs(Pow, l, r, env, a, b, x, y);
  }

  /** The greatest integer at most q. */
  ghost predicate FloorIs(k: int, q: real) { k as real <= q < k as real + 1.0 }

  /** Division by a number that is not zero, and its greatest integer below. */
  lemma NumbersDivide(l: Expr, r: Expr, env: Env, a: Value, b: Value, x: real, y: real) returns (k: int)
    requires Given(l, r, env, a, b) && Counts(a, x) && Counts(b, y) && y != 0.0
    ensures Eval(Binary(Div, l, r), env) == Ok(Num(x / y))
    ensures FloorIs(k, x / y) && Eval(Binary(FloorDiv, l, r), env) == Ok(Num(k as real))
  {
    hide Eval, Counts;
    k := (x / y).Floor;
    ArithIs(Div, l, r, env, a, b, x, y);
    ArithIs(FloorDiv, l, r, env, a, b, x, y);
  }

  /** Division by zero is refused. */
  lemma NothingDividesByZero(op: BinOp, l: Expr, r: Expr, env: Env, a: Value, b: Value, x: real)
    requires Given(l, r, env, a, b) && Counts(a, x) && Counts(b, 0.0) && op in {Div, FloorDiv, Mod}
    ensures Eval(Binary(op, l, r), env) == Err(UnsafeExpression("division by zero"))
  {
    hide Eval, Counts;
    ArithIs(op, l, r, env, a, b, x, 0.0);
  }

  /** What is left of x after taking y away k times: smaller than y, and of x's sign. */
  ghost predicate RemainderIs(m: real, x: real, y: real, k: int) {
    && m == x - y * (k as real)
    && (if y > 0.0 then -y < m < y else y < m < -y)
    && (x >= 0.0 ==> m >= 0.0) && (x <= 0.0 ==> m <= 0.0)
  }

  lemma NumbersLeaveRemainders(l: Expr, r: Expr, env: Env, a: Value, b: Value, x: real, y: real)
    returns (m: real, k: int)
    requires Given(l, r, env, a, b) && Counts(a, x) && Counts(b, y) && y != 0.0
    ensures RemainderIs(m, x, y, k) && Eval(Binary(Mod, l, r), env) == Ok(Num(m))
  {
    hide Eval, Counts, Truncate, RemainderIs;
    k := Truncate(x / y);
    m := x - y * (k as real);
    ArithIs(Mod, l, r, env, a, b, x, y);
    TruncatedRemainder(x, y, m);
  }

  lemma TruncatedRemainder(x: real, y: real, m: real)
    requires y != 0.0 && m == x - y * (Truncate(x / y) as real)
    ensures RemainderIs(m, x, y, Truncate(x / y))
  {
    hide Truncate;
    var q, f := x / y, Truncate(x / y) as real;
    var d := q - f;
    TruncateIs(q);
    QuotientTimes(x, y, q);
    Distributes(y, q, f, d);
    ScaledSmall(y, d, m);
    SignOfFactor(y, q, x);
    SignOfProduct(y, d, m);
  }

  lemma QuotientTimes(x: real, y: real, q: real)
    requires y != 0.0 && q == x / y
    ensures y * q == x
  {
  }

  lemma Distributes(y: real, q: real, f: real, d: real)
    requires d == q - f
    ensures y * d == y * q - y * f
  {
  }

  /** The integer part, toward zero. */
  lemma TruncateIs(q: real)
    ensures var d := q - (Truncate(q) as real);
            -1.0 < d < 1.0 && (q >= 0.0 ==> d >= 0.0) && (q <= 0.0 ==> d <= 0.0)
  {
  }

  lemma ScaledSmall(y: real, d: real, m: real)
    requires y != 0.0 && -1.0 < d < 1.0 && m == y * d
    ensures if y > 0.0 then -y < m < y else y < m < -y
  {
    if y > 0.0 {
      Scaled(y, d, 1.0);
      Scaled(y, -1.0, d);
    } else {
      Scaled(-y, d, 1.0);
      Scaled(-y, -1.0, d);
      assert (-y) * d == -m;
    }
  }

  lemma Scaled(y: real, c: real, d: real)
    requires y > 0.0 && c < d
    ensures y * c < y * d
  {
    assert y * d - y * c == y * (d - c);
  }

  /** The sign of one factor, from the sign of the other and of the product. */
  lemma SignOfFactor(y: real, q: real, x: real)
    requires y != 0.0 && y * q == x
    ensures x >= 0.0 && y > 0.0 ==> q >= 0.0
    ensures x >= 0.0 && y < 0.0 ==> q <= 0.0
    ensures x <= 0.0 && y > 0.0 ==> q <= 0.0
    ensures x <= 0.0 && y < 0.0 ==> q >= 0.0
  {
    var p := if y > 0.0 then y else -y;
    assert p * q == if y > 0.0 then x else -x;
    if q > 0.0 {
      Scaled(p, 0.0, q);
    } else if q < 0.0 {
      Scaled(p, q, 0.0);
    }
  }

  lemma SignOfProduct(y: real, d: real, m: real)
    requires m == y * d
    ensures y >= 0.0 && d >= 0.0 ==> m >= 0.0
    ensures y >= 0.0 && d <= 0.0 ==> m <= 0.0
    ensures y <= 0.0 && d >= 0.0 ==> m <= 0.0
    ensures y <= 0.0 && d <= 0.0 ==> m >= 0.0
  {
  }

  /** Two strings are joined by adding; no other operand that is no number is taken. */
  lemma OthersDoNotAdd(op: BinOp, l: Expr, r: Expr, env: Env, a: Value, b: Value)
    requires Given(l, r, env, a, b) && op in {Add, Sub, Mul, Div, FloorDiv, Mod, Pow}
    requires NoNumber(a) || NoNumber(b)
    ensures op == Add && a.Str? && b.Str? ==> Eval(Binary(op, l, r), env) == Ok(Str(a.s + b.s))
    ensures !(op == Add && a.Str? && b.Str?) ==>
              Eval(Binary(op, l, r), env) == Err(UnsafeExpression("arithmetic on non-number"))
  {
    hide Eval, ToNumber;
    NoNumberIs(a);
    NoNumberIs(b);
    BinaryIs(op, l, r, env, a, b);
  }

  /** The two signs. */
  lemma SignsAre(e: Expr, env: Env, v: Value)
    requires Eval(e, env) == Ok(v)
    ensures Eval(Unary(Pos, e), env) == Ok(v)
    ensures forall x | Counts(v, x) :: Eval(Unary(Neg, e), env) == Ok(Num(-x))
    ensures NoNumber(v) ==> Eval(Unary(Neg, e), env) == Err(UnsafeExpression("unary minus on non-number"))
  {
    hide ToNumber;
    NoNumberIs(v);
    forall x | Counts(v, x)
      ensures Eval(Unary(Neg, e), env) == Ok(Num(-x))
    {
      CountsIs(v, x);
    }
  }

  // -- truth ---------------------------------------------------------------------------------------

  /** The five values that are not true; an integer zero is not among them. */
  predicate Falsy(v: Value) {
    v == Bool(false) || v == Num(0.0) || v == Str("") || v == Nil || v == List([])
  }

  lemma TruthIs(v: Value)
    ensures Truthy(v) <==> !Falsy(v)
  {
  }

  lemma ConnectivesAre(l: Expr, r: Expr, env: Env, a: Value, b: Value)
    requires Given(l, r, env, a, b)
    ensures Eval(Binary(Or, l, r), env) == Ok(Bool(!Falsy(a) || !Falsy(b)))
    ensures Eval(Binary(And, l, r), env) == Ok(Bool(!Falsy(a) && !Falsy(b)))
    ensures Eval(Unary(Not, l), env) == Ok(Bool(Falsy(a)))
  {
    TruthIs(a);
    TruthIs(b);
    BinaryIs(Or, l, r, env, a, b);
    BinaryIs(And, l, r, env, a, b);
  }

  // -- literals ------------------------------------------------------------------------------------

  /** Words and lists. */
  lemma LiteralsAre(s: string, b: bool, name: string, env: Env)
    ensures Eval(StrLit(s), env) == Ok(Str(s)) && Eval(BoolLit(b), env) == Ok(Bool(b)) && Eval(NoneLit, env) == Ok(Nil)
    ensures Eval(Name(name), env) == if name in env.vars then Ok(env.vars[name]) else Err(MissingVariable(name))
  {
  }

  /** A list has its items' values, in order. */
  lemma {:induction false} ListIs(items: seq<Expr>, env: Env, vs: seq<Value>)
    requires |vs| == |items| && forall i | 0 <= i < |items| :: Eval(items[i], env) == Ok(vs[i])
    ensures EvalAll(items, env) == Ok(vs) && Eval(ListLit(items), env) == Ok(List(vs))
  {
    if items != [] {
      ListIs(items[1..], env, vs[1..]);
      assert vs == [vs[0]] + vs[1..];
    }
  }

  lemma PowersOfTen(n: nat)
    ensures Power10(0) == 1 && Power10(n + 1) == 10 * Power10(n)
  {
  }

  /** A digit counts for its distance from '0'. */
  lemma DigitCounts(c: char)
    requires '0' <= c <= '9'
    ensures Text.AllDigits([c]) && Text.Number([c]) == c as int - 48
  {
    assert Text.Front([c]) == "";
  }

  /** Digits count by their places. */
  lemma {:induction false} DigitsByPlace(a: string, b: string)
    requires Text.AllDigits(a) && Text.AllDigits(b)
    ensures Text.AllDigits(a + b) && Text.Number(a + b) == Text.Number(a) * Power10(|b|) + Text.Number(b)
  {
    if b == "" {
      assert a + b == a;
    } else {
      var front := Text.Front(b);
      assert Text.Front(a + b) == a + front;
      DigitsByPlace(a, front);
      assert Power10(|b|) == 10 * Power10(|front|);
      ShiftedSum(Text.Number(a), Power10(|front|), Text.Number(front));
    }
  }

  lemma ShiftedSum(x: nat, p: nat, y: nat)
    ensures 10 * (x * p + y) == x * (10 * p) + 10 * y
  {
  }

  /** A whole number in decimal is that number. */
  lemma WholeNumberIs(n: nat, env: Env)
    ensures Eval(NumLit(Text.Decimal(n)), env) == Ok(Num(n as real))
  {
    Text.NumberOfDecimal(n);
    var text := Text.Decimal(n);
    assert Text.IsDigit(text[0]) && text[0] != '.';
  }

  /** Digits around one dot are the digits before it plus the digits after it over a power of ten. */
  lemma FractionIs(a: string, b: string, env: Env)
    requires Text.AllDigits(a) && Text.AllDigits(b) && a + b != ""
    ensures Eval(NumLit(a + "." + b), env)
         == Ok(Num(Text.Number(a) as real + Text.Number(b) as real / Power10(|b|) as real))
  {
    hide Decimal, Text.Number, Power10;
    DigitsByPlace(a, b);
    DecimalFraction(a, b);
    Shared(Text.Number(a), Power10(|b|), Text.Number(b));
  }

  lemma DecimalFraction(a: string, b: string)
    requires Text.AllDigits(a) && Text.AllDigits(b) && Text.AllDigits(a + b) && a + b != ""
    ensures Decimal(a + "." + b) == Some(Text.Number(a + b) as real / Power10(|b|) as real)
  {
    hide Text.Number, Power10;
    var text := a + "." + b;
    DotIsAt(a, b);
    assert text[..|a|] == a && text[|a| + 1..] == b;
    assert text[|a|] == '.' && text[..|a|] + text[|a| + 1..] == a + b;
    assert !Text.IsDigit(text[|a|]) && !Text.AllDigits(text);
    assert |text| == |a + b| + 1 > 1;
  }

  lemma {:induction false} DotIsAt(a: string, b: string)
    requires Text.AllDigits(a)
    ensures '.' in a + "." + b && DotAt(a + "." + b) == |a|
  {
    var text := a + "." + b;
    assert text[|a|] == '.';
    if a != "" {
      assert text[0] == a[0] && Text.IsDigit(a[0]);
      assert text[1..] == a[1..] + "." + b;
      DotIsAt(a[1..], b);
    }
  }

  lemma Shared(x: nat, p: nat, y: nat)
    requires p > 0
    ensures (x * p + y) as real / p as real == x as real + y as real / p as real
  {
    var xr, pr, yr := x as real, p as real, y as real;
    assert (x * p) as real == xr * pr;
    assert (xr * pr + yr) / pr == xr * pr / pr + yr / pr;
  }

  /** Nothing else made of digits and dots is a number: one with a second dot, or with no digit. */
  lemma OtherNumbersFail(text: string, env: Env)
    requires text == "" || text == "." || exists i, j :: 0 <= i < j < |text| && text[i] == '.' == text[j]
    ensures Eval(NumLit(text), env) == Err(UnsafeExpression("bad number: " + text))
  {
    if i, j :| 0 <= i < j < |text| && text[i] == '.' == text[j] {
      assert !Text.IsDigit(text[i]);
      forall k | 0 <= k < |text|
        ensures !Text.AllDigits(text[..k] + text[k + 1..])
      {
        var rest := text[..k] + text[k + 1..];
        var m := if k == i then j - 1 else if i < k then i else i - 1;
        assert rest[m] == '.' && !Text.IsDigit(rest[m]);
      }
    }
  }
}
