/** The values an expression ranges over, and the operations safeeval.go applies to them. */
module Values {
  import Text
  import opened Options

  /** A Go `any` as the evaluator sees it. `Int` stands for int and int64, `Opaque` for every
      dynamic type the evaluator has no case for. */
  datatype Value =
    | Nil
    | Bool(b: bool)
    | Num(n: real)
    | Int(i: int)
    | Str(s: string)
    | List(items: seq<Value>)
    | Opaque(tag: int)

  datatype Error =
    | MissingVariable(name: string)
    | UnsafeExpression(detail: string)

  datatype Result<+T> = Ok(value: T) | Err(error: Error)

  datatype UnOp = Not | Neg | Pos

  datatype BinOp =
    | Or | And
    | Eq | Ne | Lt | Le | Gt | Ge | In | NotIn
    | Add | Sub
    | Mul | Div | FloorDiv | Mod
    | Pow

  /** What an evaluation is given: the variables, and the two library functions whose
      results this model does not compute (math.Pow and fmt.Sprint). */
  datatype Env = Env(vars: map<string, Value>, pow: (real, real) -> real, show: Value -> string)

  function ToNumber(v: Value): Option<real> {
    match v
    case Num(n) => Some(n)
    case Int(i) => Some(i as real)
    case Bool(b) => Some(if b then 1.0 else 0.0)
    case _ => None
  }

  /** An Int is truthy whatever its value: the source has no integer case. */
  predicate Truthy(v: Value) {
    match v
    case Bool(b) => b
    case Num(n) => n != 0.0
    case Str(s) => s != ""
    case Nil => false
    case List(items) => |items| > 0
    case _ => true
  }

  function Truncate(r: real): int {
    if r >= 0.0 then r.Floor else -((-r).Floor)
  }

  function Calculate(op: BinOp, x: real, y: real, env: Env): Result<Value> {
    match op
    case Add => Ok(Num(x + y))
    case Sub => Ok(Num(x - y))
    case Mul => Ok(Num(x * y))
    case Div => if y == 0.0 then Err(UnsafeExpression("division by zero")) else Ok(Num(x / y))
    case FloorDiv =>
      if y == 0.0 then Err(UnsafeExpression("division by zero")) else Ok(Num((x / y).Floor as real))
    case Mod =>
      if y == 0.0 then Err(UnsafeExpression("division by zero"))
      else Ok(Num(x - y * (Truncate(x / y) as real)))
    case Pow => Ok(Num(env.pow(x, y)))
    case _ => Err(UnsafeExpression("unsupported operator"))
  }

  function Arith(op: BinOp, a: Value, b: Value, env: Env): Result<Value> {
    match (ToNumber(a), ToNumber(b))
    case (Some(x), Some(y)) => Calculate(op, x, y, env)
    case _ =>
      if op == Add && a.Str? && b.Str? then Ok(Str(a.s + b.s))
      else Err(UnsafeExpression("arithmetic on non-number"))
  }

  predicate Equal(a: Value, b: Value, env: Env) {
    match (ToNumber(a), ToNumber(b))
    case (Some(x), Some(y)) => x == y
    case _ => env.show(a) == env.show(b)
  }

  predicate Substring(text: string, part: string) {
    exists i | 0 <= i <= |text| :: part <= text[i..]
  }

  predicate Contains(container: Value, item: Value, env: Env) {
    match container
    case Str(s) => Substring(s, env.show(item))
    case List(items) => exists i | 0 <= i < |items| :: Equal(items[i], item, env)
    case _ => false
  }

  function Ordered(op: BinOp, below: bool, above: bool): Result<Value> {
    match op
    case Lt => Ok(Bool(below))
    case Le => Ok(Bool(!above))
    case Gt => Ok(Bool(above))
    case Ge => Ok(Bool(!below))
    case _ => Err(UnsafeExpression("cannot order these values"))
  }

  function Compare(op: BinOp, a: Value, b: Value, env: Env): Result<Value> {
    if op == Eq then Ok(Bool(Equal(a, b, env)))
    else if op == Ne then Ok(Bool(!Equal(a, b, env)))
    else if op == In then Ok(Bool(Contains(b, a, env)))
    else if op == NotIn then Ok(Bool(!Contains(b, a, env)))
    else
      var x, y := ToNumber(a), ToNumber(b);
      if x.Some? && y.Some? then Ordered(op, x.value < y.value, x.value > y.value)
      else if a.Str? && b.Str? then Ordered(op, Text.Before(a.s, b.s), Text.Before(b.s, a.s))
      else Err(UnsafeExpression("cannot order these values"))
  }

  function ApplyUnary(op: UnOp, v: Value): Result<Value> {
    match op
    case Not => Ok(Bool(!Truthy(v)))
    case Pos => Ok(v)
    case Neg =>
      match ToNumber(v)
      case Some(f) => Ok(Num(-f))
      case None => Err(UnsafeExpression("unary minus on non-number"))
  }

  function ApplyBinary(op: BinOp, a: Value, b: Value, env: Env): Result<Value> {
    match op
    case Or => Ok(Bool(Truthy(a) || Truthy(b)))
    case And => Ok(Bool(Truthy(a) && Truthy(b)))
    case Eq | Ne | Lt | Le | Gt | Ge | In | NotIn => Compare(op, a, b, env)
    case _ => Arith(op, a, b, env)
  }

  // -- number literals -----------------------------------------------------------------------------

  function Power10(n: nat): nat
    ensures Power10(n) >= 1
  {
    if n == 0 then 1 else 10 * Power10(n - 1)
  }

  /** strconv.ParseFloat on a run of digits and dots: at most one dot and at least one digit. */
  function Decimal(text: string): Option<real> {
    if text == "" || text == "." then None
    else if Text.AllDigits(text) then Some(Text.Number(text) as real)
    else if exists i | 0 <= i < |text| :: text[i] == '.' && Text.AllDigits(text[..i] + text[i + 1..]) then
      var i := DotAt(text);
      if Text.AllDigits(text[..i] + text[i + 1..]) then
        Some(Text.Number(text[..i] + text[i + 1..]) as real / Power10(|text| - i - 1) as real)
      else None
    else None
  }

  function DotAt(text: string): (i: nat)
    requires '.' in text
    ensures i < |text| && text[i] == '.' && '.' !in text[..i]
  {
    if text[0] == '.' then 0 else 1 + DotAt(text[1..])
  }
}
