/**
  Properties of evaluation that relate several nodes or several calls:
  operand order, the search `In` performs over an array, Python indexing,
  and the narrowing rule of `Divide`.
 */
module EvalLaws {
  import opened Ast
  import opened Values
  import opened Operators
  import opened Evaluator

  /**
    Binary nodes evaluate the left operand, then the right one, and only
    then check types: a failing operand decides the outcome before the
    node's own rules are consulted.
   */
  lemma OperandsFirst(op: BinOp, a: Expr, b: Expr)
    ensures Eval(a).Fail? ==> Eval(Binary(op, a, b)) == Eval(a) && Eval(Index(a, b)) == Eval(a)
    ensures Eval(a).Ok? && Eval(b).Fail? ==>
              Eval(Binary(op, a, b)) == Eval(b) && Eval(Index(a, b)) == Eval(b)
    ensures Eval(a).Fail? ==> Eval(Not(a)) == Eval(a)
  {
  }

  /**
    `Or`, `And`, `Not` and every comparison yield 0 or 1, and reject any
    operand that is not an integer (a real or a string included).
   */
  lemma LogicalResults(e: Expr)
    requires e.Not? || (e.Binary? && (e.op.Or? || e.op.And? || e.op.Cmp?))
    ensures Eval(e).Ok? ==> IsBool(Eval(e).value)
    ensures e.Not? && Eval(e.operand).Ok? && !Eval(e.operand).value.VInt? ==>
              Eval(e) == Fail(SemanticError)
    ensures e.Binary? && Eval(e.left).Ok? && Eval(e.right).Ok?
            && !(Eval(e.left).value.VInt? && Eval(e.right).value.VInt?) ==>
              Eval(e) == Fail(SemanticError)
  {
  }

  /** `<>` is not numeric inequality: `3 <> 3` and `3 <> 5` are both 0, while `0 <> 5` is 1. */
  lemma NotEqualIsXor()
    ensures CompareValue(Ne, VInt(3), VInt(3)) == Ok(VInt(0))
    ensures CompareValue(Ne, VInt(3), VInt(5)) == Ok(VInt(0))
    ensures CompareValue(Ne, VInt(0), VInt(5)) == Ok(VInt(1))
    ensures forall a: int, b: int :: a != 0 && b != 0 ==> CompareValue(Ne, VInt(a), VInt(b)) == Ok(VInt(0))
  {
  }

  /**
    Dividing two integers: a zero divisor is a semantic error; otherwise
    the result is the integer quotient when the divisor divides the
    dividend, and the exact real quotient when it does not.
   */
  lemma DivideIntegers(a: int, b: int)
    ensures b == 0 ==> DivValue(VInt(a), VInt(b)) == Fail(SemanticError)
    ensures b != 0 && a % b == 0 ==> DivValue(VInt(a), VInt(b)) == Ok(VInt(a / b))
    ensures b != 0 && a % b != 0 ==> DivValue(VInt(a), VInt(b)) == Ok(VReal(a as real / b as real))
  {
    if b != 0 {
      var q := a as real / b as real;
      if a % b == 0 {
        assert a == b * (a / b);
        assert a as real == b as real * (a / b) as real;
        assert q == (a / b) as real;
      } else if IsWhole(q) {
        var k := q.Floor;
        assert k as real * b as real == a as real;
        assert (k * b) as real == k as real * b as real;
        assert k * b == a;
        WholeQuotient(a, b, k);
        assert false;
      }
    }
  }

  /** A multiple of `b` leaves no Euclidean remainder. */
  lemma WholeQuotient(a: int, b: int, k: int)
    requires b != 0 && a == k * b
    ensures a % b == 0
  {
    var q, r := a / b, a % b;
    var d := k - q;
    assert b * d == r by {
      assert a == b * q + r;
      assert k * b - b * q == b * (k - q);
    }
    if d > 0 {
      MultipleBound(b, d);
    } else if d < 0 {
      MultipleBound(b, -d);
    }
  }

  /** `d` copies of `b` reach at least as far from zero as `b` itself. */
  lemma {:induction false} MultipleBound(b: int, d: nat)
    requires d >= 1
    ensures b >= 0 ==> b * d >= b
    ensures b < 0 ==> b * d <= b
  {
    if d > 1 {
      MultipleBound(b, d - 1);
      assert b * d == b * (d - 1) + b;
    }
  }

  /** The first `i` nodes of `es` all evaluate, and none of them equals `v`. */
  ghost predicate NoMatchBefore(v: Value, es: seq<Expr>, i: nat)
    requires i <= |es|
  {
    forall j :: 0 <= j < i ==> Eval(es[j]).Ok? && !PyEquals(Eval(es[j]).value, v)
  }

  /**
    `In` over an array searches left to right and stops at the first node
    that either equals `v` (result 1) or fails to evaluate (that failure):
    the nodes after it are never evaluated, so they cannot change the
    outcome.
   */
  lemma {:induction false} MemberStopsAt(v: Value, es: seq<Expr>, i: nat, rest: seq<Expr>)
    requires i < |es| && NoMatchBefore(v, es, i)
    requires Eval(es[i]).Fail? || PyEquals(Eval(es[i]).value, v)
    ensures Member(v, es[..i + 1] + rest) == if Eval(es[i]).Fail? then Eval(es[i]) else Ok(VInt(1))
  {
    var s := es[..i + 1] + rest;
    assert s[0] == es[0];
    if i > 0 {
      assert s[1..] == es[1..][..i] + rest;
      assert NoMatchBefore(v, es[1..], i - 1) by {
        forall j | 0 <= j < i - 1 ensures Eval(es[1..][j]).Ok? && !PyEquals(Eval(es[1..][j]).value, v) {
          assert es[1..][j] == es[j + 1];
        }
      }
      MemberStopsAt(v, es[1..], i - 1, rest);
      assert Eval(es[0]).Ok? && !PyEquals(Eval(es[0]).value, v);
    }
  }

  /** `In` over an array gives 0 exactly when every node evaluates and none equals `v`. */
  lemma {:induction false} MemberZero(v: Value, es: seq<Expr>)
    ensures Member(v, es) == Ok(VInt(0)) <==> NoMatchBefore(v, es, |es|)
  {
    if es != [] {
      MemberZero(v, es[1..]);
      if NoMatchBefore(v, es[1..], |es| - 1) && Eval(es[0]).Ok? && !PyEquals(Eval(es[0]).value, v) {
        forall j | 0 <= j < |es| ensures Eval(es[j]).Ok? && !PyEquals(Eval(es[j]).value, v) {
          if j > 0 { assert es[j] == es[1..][j - 1]; }
        }
      }
      if NoMatchBefore(v, es, |es|) {
        forall j | 0 <= j < |es| - 1 ensures Eval(es[1..][j]).Ok? && !PyEquals(Eval(es[1..][j]).value, v) {
          assert es[1..][j] == es[j + 1];
        }
      }
    }
  }

  /**
    The type rules of `In`: the right operand must be an array or a
    string, and a string on the right needs a string on the left, which
    is then tested as a substring.
   */
  lemma MembershipRules(a: Expr, b: Expr)
    requires Eval(a).Ok? && Eval(b).Ok?
    ensures var l, r := Eval(a).value, Eval(b).value;
            && (!(r.VArr? || r.VStr?) ==> Eval(Binary(In, a, b)) == Fail(SemanticError))
            && (r.VStr? && !l.VStr? ==> Eval(Binary(In, a, b)) == Fail(SemanticError))
            && (r.VStr? && l.VStr? ==> Eval(Binary(In, a, b)) == Ok(Bool(IsSubstring(l.s, r.s))))
            && (r.VArr? ==> Eval(Binary(In, a, b)) == Member(l, r.elems))
  {
  }

  /**
    `Index` needs an array or string on the left and an integer on the
    right; any index outside `-n .. n-1` is a semantic error, never a
    value. Inside the bounds it yields the evaluated node (or the
    one-character string) at the position Python reads.
   */
  lemma IndexRules(a: Expr, b: Expr)
    requires Eval(a).Ok? && Eval(b).Ok?
    ensures var l, r := Eval(a).value, Eval(b).value;
            && (!(l.VArr? || l.VStr?) || !r.VInt? ==> Eval(Index(a, b)) == Fail(SemanticError))
            && ((l.VArr? || l.VStr?) && r.VInt? && !InBounds(r.i, Length(l)) ==>
                  Eval(Index(a, b)) == Fail(SemanticError))
            && (l.VArr? && r.VInt? && InBounds(r.i, |l.elems|) ==>
                  Eval(Index(a, b)) == Eval(l.elems[if r.i < 0 then r.i + |l.elems| else r.i]))
            && (l.VStr? && r.VInt? && InBounds(r.i, |l.s|) ==>
                  Eval(Index(a, b)) == Ok(VStr([l.s[if r.i < 0 then r.i + |l.s| else r.i]])))
  {
  }

  /**
    Array elements are forced lazily: indexing an array literal evaluates
    the chosen node only, so a failing node elsewhere in the literal does
    not matter.
   */
  lemma IndexIsLazy(es: seq<Expr>, k: int)
    requires InBounds(k, |es|)
    ensures Eval(ArrayLit(es)) == Ok(VArr(es))
    ensures Eval(Index(ArrayLit(es), IntLit(k))) == Eval(es[Slot(k, |es|)])
  {
  }
}
