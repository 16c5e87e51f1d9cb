/**
  Runtime values and evaluation outcomes. A Python `int` is `VInt`, a
  `float` is `VReal` (an exact real: no rounding), a `str` is `VStr`, and a
  list is `VArr`, which holds the still-unevaluated element nodes.
 */
module Values {
  import opened Ast

  datatype Value =
    | VInt(i: int)
    | VReal(x: real)
    | VStr(s: string)
    | VArr(elems: seq<Expr>)

  /**
    The two ways evaluation can fail. `SemanticError` is the interpreter's
    own error; `ZeroDivisionError` is the one Python raises for `//` or `%`
    by zero and for zero to a negative power, which the interpreter does
    not catch.
   */
  datatype Error = SemanticError | ZeroDivisionError

  /** The result of evaluating a node: a value, or the error that aborted it. */
  datatype Outcome = Ok(value: Value) | Fail(error: Error) {
    predicate IsFailure() { Fail? }

    function PropagateFailure(): Outcome
      requires Fail?
    {
      this
    }

    function Extract(): Value
      requires Ok?
    {
      value
    }
  }

  /** `isinstance(v, int) or isinstance(v, float)` */
  predicate IsNumber(v: Value) {
    v.VInt? || v.VReal?
  }

  function AsReal(v: Value): real
    requires IsNumber(v)
  {
    if v.VInt? then v.i as real else v.x
  }

  /** Python truthiness of an integer. */
  predicate Truthy(i: int) {
    i != 0
  }

  /** The integer the boolean operators return: `1 if b else 0`. */
  function Bool(b: bool): Value {
    VInt(if b then 1 else 0)
  }

  predicate IsBool(v: Value) {
    v == VInt(0) || v == VInt(1)
  }

  /**
    Python's `==` between two values as `In` applies it. Numbers compare by
    value across `int` and `float`; strings by content; values of different
    kinds are unequal. Two lists compare element by element with node
    identity (nodes define no equality of their own); since the left
    operand of `In` and the array on its right come from disjoint subtrees,
    two lists that reach this test share no node, so they are equal exactly
    when both are empty.
   */
  predicate PyEquals(a: Value, b: Value) {
    if IsNumber(a) && IsNumber(b) then AsReal(a) == AsReal(b)
    else if a.VStr? && b.VStr? then a.s == b.s
    else if a.VArr? && b.VArr? then a.elems == [] && b.elems == []
    else false
  }

  /** Python's `p in s` for two strings: `p` occurs in `s` as a contiguous block. */
  predicate IsSubstring(p: string, s: string) {
    exists i :: 0 <= i <= |s| && p <= s[i..]
  }

  /**
    `==` as `In` uses it is symmetric, compares an integer and a real by
    value, and holds between a number or string and itself.
   */
  lemma EqualsLaws(a: Value, b: Value)
    ensures PyEquals(a, b) == PyEquals(b, a)
    ensures a.VInt? ==> PyEquals(a, VReal(a.i as real))
    ensures !a.VArr? ==> PyEquals(a, a)
    ensures a.VStr? != b.VStr? ==> !PyEquals(a, b)
  {
  }

  /**
    A string occurs in another only if it is no longer, and it occurs in
    every string that has it between some prefix and suffix.
   */
  lemma SubstringLaws(p: string, u: string, v: string, s: string)
    ensures IsSubstring(p, s) ==> |p| <= |s|
    ensures IsSubstring(p, u + p + v)
  {
    var w := u + p + v;
    assert p <= w[|u|..] by {
      assert w[|u|..] == p + v;
    }
  }
}
