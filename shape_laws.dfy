/**
  The shapes of tree the grammar builds for short lines, read off the
  round trip: two operators of one level group to the left, an operator
  of a tighter level takes its operands first, `not` takes everything to
  its right, and an array literal keeps its elements in source order.
 */
module ShapeLaws {
  import opened Ast
  import opened Grammar
  import opened Printer
  import opened ParseLaws
  import GrammarSteps

  /**
    `x op1 y op2 z` over three integers: operators of one level fold to the
    left, and otherwise the operator of the tighter level is applied first,
    whichever side it is on.
   */
  lemma Grouping(x: nat, op1: BinOp, y: nat, op2: BinOp, z: nat)
    ensures var line := [TInt(x), TOp(op1), TInt(y), TOp(op2), TInt(z)];
            ParseLine(line) ==
              if OpLevel(op1) < OpLevel(op2) then Some(Binary(op1, IntLit(x), Binary(op2, IntLit(y), IntLit(z))))
              else Some(Binary(op2, Binary(op1, IntLit(x), IntLit(y)), IntLit(z)))
  {
    var k1, k2 := OpLevel(op1), OpLevel(op2);
    var line := [TInt(x), TOp(op1), TInt(y), TOp(op2), TInt(z)];
    AtomText(x, k1, false);
    AtomText(z, k2 + 1, true);
    if k1 < k2 {
      var r := Binary(op2, IntLit(y), IntLit(z));
      AtomText(y, k2, false);
      BinaryText(op2, IntLit(y), IntLit(z), k1 + 1, true);
      BinaryText(op1, IntLit(x), r, 1, true);
      assert Print(Binary(op1, IntLit(x), r), 1, true) == line;
      ParsePrinted(Binary(op1, IntLit(x), r));
    } else {
      var l := Binary(op1, IntLit(x), IntLit(y));
      AtomText(y, k1 + 1, false);
      BinaryText(op1, IntLit(x), IntLit(y), k2, false);
      BinaryText(op2, l, IntLit(z), 1, true);
      assert Print(Binary(op2, l, IntLit(z)), 1, true) == line;
      ParsePrinted(Binary(op2, l, IntLit(z)));
    }
  }

  /** An integer literal is written as its one token at every level. */
  lemma AtomText(n: nat, L: nat, tail: bool)
    requires L <= 12
    ensures Print(IntLit(n), L, tail) == [TInt(n)]
  {
  }

  /** A binary node written at a level no tighter than its own needs no brackets. */
  lemma BinaryText(op: BinOp, a: Expr, b: Expr, L: nat, tail: bool)
    requires Printable(a) && Printable(b) && L <= OpLevel(op)
    ensures Print(Binary(op, a, b), L, tail) == Print(a, OpLevel(op), false) + [TOp(op)] + Print(b, OpLevel(op) + 1, tail)
  {
  }

  /** `2 ** 3 ** 2` is `(2 ** 3) ** 2`: exponentiation groups to the left like every other level. */
  lemma PowerGroupsLeft()
    ensures ParseLine([TInt(2), TOp(Pow), TInt(3), TOp(Pow), TInt(2)])
            == Some(Binary(Pow, Binary(Pow, IntLit(2), IntLit(3)), IntLit(2)))
  {
    Grouping(2, Pow, 3, Pow, 2);
  }

  /** `not` followed by the text of any expression is the negation of that whole expression. */
  lemma NotReach(e: Expr)
    requires Printable(e)
    ensures ParseLine([TNot] + Print(e, 1, true)) == Some(Not(e))
  {
    assert Print(Not(e), 1, true) == [TNot] + Print(e, 1, true);
    ParsePrinted(Not(e));
  }

  /**
    A line that begins with `not` is the negation of whatever expression
    covers the rest of the line.
   */
  lemma NotTakesRest(toks: seq<Token>, p: Parsed)
    requires 0 < |toks| && toks[0] == TNot
    requires ParseLevel(1, toks, 1) == Some(p) && p.next == |toks|
    ensures ParseLine(toks) == Some(Not(p.tree))
  {
    GrammarSteps.NotStep(toks, 0);
    GrammarSteps.Climb(1, 3, toks, 0, Parsed(Not(p.tree), p.next));
  }

  /** `not 1 and 0` is `not (1 and 0)`, not `(not 1) and 0`. */
  lemma NotTakesConjunction()
    ensures ParseLine([TNot, TInt(1), TOp(And), TInt(0)])
            == Some(Not(Binary(And, IntLit(1), IntLit(0))))
  {
    var c := Binary(And, IntLit(1), IntLit(0));
    assert Print(c, 1, true) == [TInt(1), TOp(And), TInt(0)];
    assert [TNot] + Print(c, 1, true) == [TNot, TInt(1), TOp(And), TInt(0)];
    NotReach(c);
  }

  /** A bracketed, comma-separated list of expressions is an array literal of those nodes, in order. */
  lemma ArrayReach(es: seq<Expr>)
    requires es != [] && AllPrintable(es)
    ensures ParseLine([TLBrack] + Print(es[0], 1, true) + CommaList(es[1..]) + [TRBrack]) == Some(ArrayLit(es))
  {
    assert Printable(ArrayLit(es));
    ParsePrinted(ArrayLit(es));
  }

  /**
    An array literal read off token positions, whatever text each element
    is written in: after `[`, element `i` parses as an expression ending at
    `ends[i]`, where a `,` follows every element but the last and a `]`
    follows the last. The result holds the element nodes in source order.
   */
  lemma ArrayAt(toks: seq<Token>, pos: nat, es: seq<Expr>, ends: seq<nat>)
    requires |es| == |ends| > 0 && pos < |toks| && toks[pos] == TLBrack
    requires ParseLevel(1, toks, pos + 1) == Some(Parsed(es[0], ends[0]))
    requires forall j :: 0 <= j < |es| - 1 ==>
               ends[j] < |toks| && toks[ends[j]] == TComma
               && ParseLevel(1, toks, ends[j] + 1) == Some(Parsed(es[j + 1], ends[j + 1]))
    requires ends[|es| - 1] < |toks| && toks[ends[|es| - 1]] == TRBrack
    ensures ParseLevel(12, toks, pos) == Some(Parsed(ArrayLit(es), ends[|es| - 1] + 1))
  {
    assert es[..1] == [es[0]];
    ElemsAt(toks, es, ends, 1);
    GrammarSteps.ArrayStep(toks, pos, Parsed(es[0], ends[0]), Items(es, ends[|es| - 1]));
  }

  /** The `( "," expression )*` loop, begun after the first `k` elements, collects the rest in order. */
  lemma {:induction false} ElemsAt(toks: seq<Token>, es: seq<Expr>, ends: seq<nat>, k: nat)
    requires |es| == |ends| && 0 < k <= |es|
    requires forall j :: 0 <= j < |es| ==> ends[j] <= |toks|
    requires forall j :: 0 <= j < |es| - 1 ==>
               ends[j] < |toks| && toks[ends[j]] == TComma
               && ParseLevel(1, toks, ends[j] + 1) == Some(Parsed(es[j + 1], ends[j + 1]))
    requires ends[|es| - 1] < |toks| && toks[ends[|es| - 1]] == TRBrack
    ensures ParseElems(es[..k], toks, ends[k - 1]) == Items(es, ends[|es| - 1])
    decreases |es| - k
  {
    if k == |es| {
      assert es[..k] == es;
      GrammarSteps.ElemsStop(es, toks, ends[k - 1]);
    } else {
      GrammarSteps.ElemsStep(es[..k], toks, ends[k - 1], Parsed(es[k], ends[k]));
      assert es[..k] + [es[k]] == es[..k + 1];
      ElemsAt(toks, es, ends, k + 1);
    }
  }

  /** `[ ]` is the empty array literal. */
  lemma EmptyArrayReach()
    ensures ParseLine([TLBrack, TRBrack]) == Some(ArrayLit([]))
  {
    ParsePrinted(ArrayLit([]));
  }
}
