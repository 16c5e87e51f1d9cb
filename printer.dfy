/**
  The canonical text of a tree: the token sequence that writes it with
  the fewest parentheses the grammar allows. A subtree is bracketed when
  its operator binds more loosely than its position requires, or when it
  is a `not` that is followed by more input (a `not` takes everything to
  its right). Because every binary level folds to the left, the right
  operand of an operator is written one level tighter than the operator
  itself.
 */
module Printer {
  import opened Ast
  import opened Grammar

  /** The grammar level at which a node's top operator is parsed. */
  function Prec(e: Expr): nat
  {
    match e
    case Not(_) => 3
    case Binary(op, _, _) => OpLevel(op)
    case Index(_, _) => 11
    case _ => 12
  }

  /** Trees a line can denote: literals are what the lexer produces. */
  predicate Printable(e: Expr)
    decreases Size(e), 0
  {
    match e
    case IntLit(n) => n >= 0
    case RealLit(r) => r >= 0.0
    case StrLit(s) => |s| > 0 && '"' !in s && ';' !in s
    case ArrayLit(es) => AllPrintable(es)
    case Not(c) => Printable(c)
    case Binary(_, a, b) => Printable(a) && Printable(b)
    case Index(a, b) => Printable(a) && Printable(b)
  }

  /** Every tree of a list of array elements is printable. */
  predicate AllPrintable(xs: seq<Expr>)
    decreases SumSize(xs), 1
  {
    xs == [] || (Printable(xs[0]) && AllPrintable(xs[1..]))
  }

  /** Whether `e`, written at level `L` and followed by more input unless `tail`, needs brackets. */
  predicate NeedsParens(e: Expr, L: nat, tail: bool) {
    Prec(e) < L || (e.Not? && !tail)
  }

  /** `e` written at grammar level `L`; `tail` says nothing but a closing token or the end follows it. */
  function Print(e: Expr, L: nat, tail: bool): (w: seq<Token>)
    requires Printable(e)
    decreases Size(e), 1
  {
    if NeedsParens(e, L, tail) then [TLParen] + Bare(e, true) + [TRParen] else Bare(e, tail)
  }

  /** `e` written without brackets around its top operator. */
  function Bare(e: Expr, tail: bool): (w: seq<Token>)
    requires Printable(e)
    decreases Size(e), 0
  {
    match e
    case IntLit(n) => [TInt(n)]
    case RealLit(r) => [TReal(r)]
    case StrLit(s) => [TStr(s)]
    case ArrayLit(es) =>
      if es == [] then [TLBrack, TRBrack]
      else
        assert SumSize(es) == Size(es[0]) + SumSize(es[1..]);
        assert AllPrintable(es);
        [TLBrack] + Print(es[0], 1, true) + CommaList(es[1..]) + [TRBrack]
    case Not(c) => [TNot] + Print(c, 1, true)
    case Binary(op, a, b) => Print(a, OpLevel(op), false) + [TOp(op)] + Print(b, OpLevel(op) + 1, tail)
    case Index(a, i) => Print(a, 11, false) + [TLBrack] + Print(i, 1, true) + [TRBrack]
  }

  /** `, x1 , x2 ...`: the elements of an array literal after the first. */
  function CommaList(xs: seq<Expr>): (w: seq<Token>)
    requires AllPrintable(xs)
    decreases SumSize(xs), 2
    ensures xs != [] ==> |w| > 0 && w[0] == TComma
  {
    if xs == [] then [] else [TComma] + Print(xs[0], 1, true) + CommaList(xs[1..])
  }

  /** Every canonical text is non-empty, starts with a token that opens an operand and ends with one that closes it. */
  lemma {:induction false} PrintEdges(e: Expr, L: nat, tail: bool)
    requires Printable(e)
    ensures var w := Print(e, L, tail); |w| > 0 && StartsOperand(w[0]) && EndsOperand(w[|w| - 1])
    decreases Size(e), 1
  {
    if !NeedsParens(e, L, tail) {
      BareEdges(e, tail);
    }
  }

  /** The same for the text without outer brackets. */
  lemma {:induction false} BareEdges(e: Expr, tail: bool)
    requires Printable(e)
    ensures var w := Bare(e, tail); |w| > 0 && StartsOperand(w[0]) && EndsOperand(w[|w| - 1])
    decreases Size(e), 0
  {
    match e
    case Binary(op, a, b) =>
      PrintEdges(a, OpLevel(op), false);
      PrintEdges(b, OpLevel(op) + 1, tail);
      Ends(Print(a, OpLevel(op), false), [TOp(op)], Print(b, OpLevel(op) + 1, tail));
    case Index(a, i) =>
      PrintEdges(a, 11, false);
      Ends(Print(a, 11, false), [TLBrack] + Print(i, 1, true), [TRBrack]);
    case Not(c) =>
      PrintEdges(c, 1, true);
      Ends([TNot], [], Print(c, 1, true));
    case _ =>
  }

  /** The first and last tokens of `u + m + v` are those of `u` and `v`. */
  lemma Ends(u: seq<Token>, m: seq<Token>, v: seq<Token>)
    requires |u| > 0 && |v| > 0
    ensures var w := u + m + v; w[0] == u[0] && w[|w| - 1] == v[|v| - 1]
  {
  }
}
