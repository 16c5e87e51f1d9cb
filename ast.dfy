/**
  The abstract syntax of the expression language: one constructor per node
  class of the interpreter. The eleven binary node classes share one
  constructor, `Binary`, told apart by their operator.
 */
module Ast {

  /** The six comparison operators the grammar accepts: `<`, `<=`, `>`, `>=`, `==`, `<>`. */
  datatype CmpOp = Lt | Le | Gt | Ge | Eq | Ne

  /** The binary operators, one per binary node class except `Index`. */
  datatype BinOp =
    | Or | And | Cmp(cmp: CmpOp) | In
    | Add | Sub | FloorDiv | Pow | Mod | Mul | Div

  /**
    An AST node. `ArrayLit` keeps its elements as unevaluated nodes: they
    are evaluated only by the operation that consumes them.
   */
  datatype Expr =
    | IntLit(n: int)
    | RealLit(r: real)
    | StrLit(s: string)
    | ArrayLit(elems: seq<Expr>)
    | Not(operand: Expr)
    | Binary(op: BinOp, left: Expr, right: Expr)
    | Index(target: Expr, index: Expr)

  /** Number of nodes in a tree; the measure that makes evaluation terminate. */
  function Size(e: Expr): (n: nat)
    ensures n >= 1
  {
    match e
    case ArrayLit(es) => 1 + SumSize(es)
    case Not(c) => 1 + Size(c)
    case Binary(_, a, b) => 1 + Size(a) + Size(b)
    case Index(a, b) => 1 + Size(a) + Size(b)
    case _ => 1
  }

  function SumSize(es: seq<Expr>): nat
  {
    if es == [] then 0 else Size(es[0]) + SumSize(es[1..])
  }

  /** Every element of a node list is no bigger than the whole list. */
  lemma {:induction false} SizeWithin(es: seq<Expr>, k: nat)
    requires k < |es|
    ensures Size(es[k]) <= SumSize(es)
  {
    if k > 0 {
      SizeWithin(es[1..], k - 1);
      assert es[1..][k - 1] == es[k];
    }
  }

  /** Concatenating two node lists adds their sizes. */
  lemma {:induction false} SumSizeConcat(a: seq<Expr>, b: seq<Expr>)
    ensures SumSize(a + b) == SumSize(a) + SumSize(b)
  {
    if a == [] {
      assert a + b == b;
    } else {
      SumSizeConcat(a[1..], b);
      assert (a + b)[1..] == a[1..] + b;
    }
  }
}
