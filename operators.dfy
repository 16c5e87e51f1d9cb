/**
  What each operator node does with the values of its operands, once both
  have been evaluated (left first). Every type rule becomes a case of the
  closed `Value` type with an explicit failure arm.
 */
module Operators {
  import opened Ast
  import opened Values
  import PyInt

  /** `Not`: the operand must be an integer; the result is 1 exactly when it is falsy. */
  function NotValue(v: Value): (res: Outcome)
    ensures res.Ok? <==> v.VInt?
    ensures res.Fail? ==> res.error == SemanticError
    ensures res.Ok? ==> IsBool(res.value) && (res.value == VInt(1) <==> !Truthy(v.i))
  {
    if v.VInt? then Ok(Bool(v.i == 0)) else Fail(SemanticError)
  }

  /** `Or`: both operands must be integers; the result is 1 exactly when either is truthy. */
  function OrValue(l: Value, r: Value): (res: Outcome)
    ensures res.Ok? <==> l.VInt? && r.VInt?
    ensures res.Fail? ==> res.error == SemanticError
    ensures res.Ok? ==> IsBool(res.value) && (res.value == VInt(1) <==> Truthy(l.i) || Truthy(r.i))
  {
    if l.VInt? && r.VInt? then Ok(Bool(l.i != 0 || r.i != 0)) else Fail(SemanticError)
  }

  /** `And`: both operands must be integers; the result is 1 exactly when both are truthy. */
  function AndValue(l: Value, r: Value): (res: Outcome)
    ensures res.Ok? <==> l.VInt? && r.VInt?
    ensures res.Fail? ==> res.error == SemanticError
    ensures res.Ok? ==> IsBool(res.value) && (res.value == VInt(1) <==> Truthy(l.i) && Truthy(r.i))
  {
    if l.VInt? && r.VInt? then Ok(Bool(l.i != 0 && r.i != 0)) else Fail(SemanticError)
  }

  /**
    `Comparison`: both operands must be integers. The four orderings and
    `==` compare numerically; `<>` is the exclusive or of the operands'
    truthiness, not numeric inequality.
   */
  function CompareValue(op: CmpOp, l: Value, r: Value): (res: Outcome)
    ensures res.Ok? <==> l.VInt? && r.VInt?
    ensures res.Fail? ==> res.error == SemanticError
    ensures res.Ok? ==> IsBool(res.value)
    ensures res.Ok? && op == Ne ==> (res.value == VInt(1) <==> Truthy(l.i) != Truthy(r.i))
    ensures res.Ok? && op == Gt ==> (res.value == VInt(1) <==> l.i > r.i)
    ensures res.Ok? && op == Ge ==> (res.value == VInt(1) <==> l.i >= r.i)
    ensures res.Ok? && op == Lt ==> (res.value == VInt(1) <==> l.i < r.i)
    ensures res.Ok? && op == Le ==> (res.value == VInt(1) <==> l.i <= r.i)
    ensures res.Ok? && op == Eq ==> (res.value == VInt(1) <==> l.i == r.i)
  {
    if !(l.VInt? && r.VInt?) then Fail(SemanticError)
    else
      var a, b := l.i, r.i;
      match op
      case Gt => Ok(Bool(a > b))
      case Ge => Ok(Bool(a >= b))
      case Lt => Ok(Bool(a < b))
      case Le => Ok(Bool(a <= b))
      case Eq => Ok(Bool(a == b))
      case Ne => Ok(Bool((a != 0 && b == 0) || (a == 0 && b != 0)))
  }

  /** `Subtract`: integers only (a real operand is rejected). */
  function SubValue(l: Value, r: Value): (res: Outcome)
    ensures res.Ok? <==> l.VInt? && r.VInt?
    ensures res.Fail? ==> res.error == SemanticError
    ensures res.Ok? ==> res.value.VInt? && res.value.i + r.i == l.i
  {
    if l.VInt? && r.VInt? then Ok(VInt(l.i - r.i)) else Fail(SemanticError)
  }

  /** `Floordiv`: integers only; Python's floor division, and a zero divisor raises `ZeroDivisionError`. */
  function FloorDivValue(l: Value, r: Value): (res: Outcome)
    ensures !(l.VInt? && r.VInt?) ==> res == Fail(SemanticError)
    ensures l.VInt? && r.VInt? && r.i == 0 ==> res == Fail(ZeroDivisionError)
    ensures l.VInt? && r.VInt? && r.i != 0 ==>
              res.Ok? && res.value.VInt? && res.value.i == (l.i as real / r.i as real).Floor
  {
    if !(l.VInt? && r.VInt?) then Fail(SemanticError)
    else if r.i == 0 then Fail(ZeroDivisionError)
    else Ok(VInt(PyInt.FloorDiv(l.i, r.i)))
  }

  /** `Modulus`: integers only; Python's remainder, which takes the sign of the divisor. */
  function ModValue(l: Value, r: Value): (res: Outcome)
    ensures !(l.VInt? && r.VInt?) ==> res == Fail(SemanticError)
    ensures l.VInt? && r.VInt? && r.i == 0 ==> res == Fail(ZeroDivisionError)
    ensures l.VInt? && r.VInt? && r.i != 0 ==>
              && res.Ok? && res.value.VInt?
              && (r.i > 0 ==> 0 <= res.value.i < r.i)
              && (r.i < 0 ==> r.i < res.value.i <= 0)
              && l.i == r.i * PyInt.FloorDiv(l.i, r.i) + res.value.i
  {
    if !(l.VInt? && r.VInt?) then Fail(SemanticError)
    else if r.i == 0 then Fail(ZeroDivisionError)
    else Ok(VInt(PyInt.Mod(l.i, r.i)))
  }

  /**
    `Exponent`: integers only. A non-negative exponent gives an integer; a
    negative one gives the real reciprocal of the positive power, and zero
    to a negative power raises `ZeroDivisionError`.
   */
  function PowValue(l: Value, r: Value): (res: Outcome)
    ensures !(l.VInt? && r.VInt?) ==> res == Fail(SemanticError)
    ensures l.VInt? && r.VInt? && r.i >= 0 ==> res == Ok(VInt(PyInt.Pow(l.i, r.i)))
    ensures l.VInt? && r.VInt? && r.i < 0 && l.i == 0 ==> res == Fail(ZeroDivisionError)
    ensures l.VInt? && r.VInt? && r.i < 0 && l.i != 0 ==>
              res.Ok? && res.value.VReal? && res.value.x * PyInt.Pow(l.i, -r.i) as real == 1.0
  {
    if !(l.VInt? && r.VInt?) then Fail(SemanticError)
    else if r.i >= 0 then Ok(VInt(PyInt.Pow(l.i, r.i)))
    else if l.i == 0 then Fail(ZeroDivisionError)
    else
      PyInt.PowNonZero(l.i, -r.i);
      Ok(VReal(1.0 / PyInt.Pow(l.i, -r.i) as real))
  }

  /**
    `Add`: fails when exactly one operand is a string or exactly one is an
    array; otherwise concatenates two strings, concatenates the node lists
    of two arrays, or adds two numbers (an integer only when both are).
   */
  function AddValue(l: Value, r: Value): (res: Outcome)
    ensures res.Fail? <==> l.VStr? != r.VStr? || l.VArr? != r.VArr?
    ensures res.Fail? ==> res.error == SemanticError
    ensures l.VStr? && r.VStr? ==> res == Ok(VStr(l.s + r.s))
    ensures l.VArr? && r.VArr? ==>
              res.Ok? && res.value.VArr? && res.value.elems == l.elems + r.elems
              && |res.value.elems| == |l.elems| + |r.elems|
    ensures IsNumber(l) && IsNumber(r) ==>
              res.Ok? && IsNumber(res.value) && AsReal(res.value) == AsReal(l) + AsReal(r)
              && (res.value.VInt? <==> l.VInt? && r.VInt?)
  {
    if l.VStr? != r.VStr? || l.VArr? != r.VArr? then Fail(SemanticError)
    else if l.VStr? then Ok(VStr(l.s + r.s))
    else if l.VArr? then Ok(VArr(l.elems + r.elems))
    else if l.VInt? && r.VInt? then Ok(VInt(l.i + r.i))
    else Ok(VReal(AsReal(l) + AsReal(r)))
  }

  /** `Multiply`: numbers only; the product is an integer only when both operands are. */
  function MulValue(l: Value, r: Value): (res: Outcome)
    ensures res.Ok? <==> IsNumber(l) && IsNumber(r)
    ensures res.Fail? ==> res.error == SemanticError
    ensures res.Ok? ==>
              IsNumber(res.value) && AsReal(res.value) == AsReal(l) * AsReal(r)
              && (res.value.VInt? <==> l.VInt? && r.VInt?)
  {
    if !(IsNumber(l) && IsNumber(r)) then Fail(SemanticError)
    else if l.VInt? && r.VInt? then Ok(VInt(l.i * r.i))
    else Ok(VReal(AsReal(l) * AsReal(r)))
  }

  /** A real with no fractional part (Python's `float.is_integer`). */
  predicate IsWhole(x: real) {
    x.Floor as real == x
  }

  /** The real number an integer denotes. */
  function IntReal(k: int): real {
    k as real
  }

  /** The whole reals are exactly the integers. */
  lemma WholeReals(x: real)
    ensures IsWhole(x) <==> exists k: int :: x == IntReal(k)
  {
    if IsWhole(x) {
      assert x == IntReal(x.Floor);
    }
  }

  /**
    `Divide`: numbers only, and a zero divisor is a semantic error. The
    quotient is exact; it is narrowed to an integer exactly when it has no
    fractional part.
   */
  function DivValue(l: Value, r: Value): (res: Outcome)
    ensures res.Ok? <==> IsNumber(l) && IsNumber(r) && AsReal(r) != 0.0
    ensures res.Fail? ==> res.error == SemanticError
    ensures res.Ok? ==>
              IsNumber(res.value) && AsReal(res.value) * AsReal(r) == AsReal(l)
              && (res.value.VInt? <==> IsWhole(AsReal(l) / AsReal(r)))
  {
    if !(IsNumber(l) && IsNumber(r)) then Fail(SemanticError)
    else if AsReal(r) == 0.0 then Fail(SemanticError)
    else
      var q := AsReal(l) / AsReal(r);
      if IsWhole(q) then Ok(VInt(q.Floor)) else Ok(VReal(q))
  }

  /**
    The operators whose result depends only on the two operand values
    (everything but `In`, which may evaluate the nodes of an array).
    Only `Add` can produce an array, and then it is the concatenation.
   */
  function Apply(op: BinOp, l: Value, r: Value): (res: Outcome)
    requires op != In
    ensures res.Ok? && res.value.VArr? ==>
              op == Add && l.VArr? && r.VArr? && res.value.elems == l.elems + r.elems
  {
    match op
    case Or => OrValue(l, r)
    case And => AndValue(l, r)
    case Cmp(c) => CompareValue(c, l, r)
    case Add => AddValue(l, r)
    case Sub => SubValue(l, r)
    case FloorDiv => FloorDivValue(l, r)
    case Pow => PowValue(l, r)
    case Mod => ModValue(l, r)
    case Mul => MulValue(l, r)
    case Div => DivValue(l, r)
  }
}
