/**
  Evaluation of an AST: each node evaluates its children, left before
  right, and then applies its own type rules. The first failure aborts the
  whole evaluation. Array literals evaluate to their own unevaluated
  element nodes; only `In` and `Index` force elements, one at a time.
 */
module Evaluator {
  import opened Ast
  import opened Values
  import opened Operators

  /** Python's indexing bounds: `-n <= k < n` for a sequence of length `n`. */
  predicate InBounds(k: int, n: nat) {
    -(n as int) <= k < n
  }

  /** The position Python's `s[k]` reads: counted from the end when `k` is negative. */
  function Slot(k: int, n: nat): (j: nat)
    requires InBounds(k, n)
    ensures j < n
    ensures j == k || j == k + n
  {
    if k < 0 then k + n else k
  }

  /** The length an indexable value is indexed against. */
  function Length(v: Value): nat
    requires v.VArr? || v.VStr?
  {
    if v.VArr? then |v.elems| else |v.s|
  }

  /**
    The value of a node. The postcondition (the nodes of an array value are
    together smaller than `e`) is what lets the forcing of array elements
    terminate.
   */
  function Eval(e: Expr): (r: Outcome)
    decreases Size(e), 0
    ensures r.Ok? && r.value.VArr? ==> SumSize(r.value.elems) < Size(e)
  {
    match e
    case IntLit(n) => Ok(VInt(n))
    case RealLit(x) => Ok(VReal(x))
    case StrLit(s) => Ok(VStr(s))
    case ArrayLit(es) => Ok(VArr(es))
    case Not(c) =>
      var v :- Eval(c);
      NotValue(v)
    case Binary(op, a, b) =>
      var l :- Eval(a);
      var r :- Eval(b);
      if op != In then
        var res := Apply(op, l, r);
        if res.Ok? && res.value.VArr? then
          SumSizeConcat(l.elems, r.elems);
          res
        else res
      else if !(r.VArr? || r.VStr?) then Fail(SemanticError)
      else if r.VStr? && !l.VStr? then Fail(SemanticError)
      else if r.VArr? then Member(l, r.elems)
      else Ok(Bool(IsSubstring(l.s, r.s)))
    case Index(a, b) =>
      var l :- Eval(a);
      var r :- Eval(b);
      if !(l.VArr? || l.VStr?) then Fail(SemanticError)
      else if !r.VInt? then Fail(SemanticError)
      else if !InBounds(r.i, Length(l)) then Fail(SemanticError)
      else
        var j := Slot(r.i, Length(l));
        if l.VArr? then
          SizeWithin(l.elems, j);
          Eval(l.elems[j])
        else Ok(VStr([l.s[j]]))
  }

  /**
    The array case of `In`: evaluate the nodes left to right and stop with
    1 at the first whose value equals `v`; 0 when none does. A node that
    fails to evaluate before a match is found aborts the search.
   */
  function Member(v: Value, es: seq<Expr>): (r: Outcome)
    decreases SumSize(es), 1
    ensures r.Ok? ==> IsBool(r.value)
  {
    if es == [] then Ok(VInt(0))
    else
      var x :- Eval(es[0]);
      if PyEquals(x, v) then Ok(VInt(1)) else Member(v, es[1..])
  }
}
