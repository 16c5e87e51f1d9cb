/**
  One step of each grammar rule, stated on its own so that proofs about
  the parser unfold one rule at a time.
 */
module GrammarSteps {
  import opened Ast
  import opened Grammar

  /** The level of the rule a token continues: an operator its own level, `[` the index rule. */
  function TokenLevel(t: Token): nat {
    if t.TOp? then OpLevel(t.op) else if t == TLBrack then 11 else 0
  }

  lemma IntStep(toks: seq<Token>, pos: nat)
    requires pos < |toks| && toks[pos].TInt?
    ensures ParseLevel(12, toks, pos) == Some(Parsed(IntLit(toks[pos].n), pos + 1))
  {
    assert ParseLiteral(toks, pos) == Some(Parsed(IntLit(toks[pos].n), pos + 1));
    assert ParseParens(toks, pos) == Some(Parsed(IntLit(toks[pos].n), pos + 1));
  }

  lemma RealStep(toks: seq<Token>, pos: nat)
    requires pos < |toks| && toks[pos].TReal?
    ensures ParseLevel(12, toks, pos) == Some(Parsed(RealLit(toks[pos].r), pos + 1))
  {
    assert ParseLiteral(toks, pos) == Some(Parsed(RealLit(toks[pos].r), pos + 1));
    assert ParseParens(toks, pos) == Some(Parsed(RealLit(toks[pos].r), pos + 1));
  }

  lemma StrStep(toks: seq<Token>, pos: nat)
    requires pos < |toks| && toks[pos].TStr?
    ensures ParseLevel(12, toks, pos) == Some(Parsed(StrLit(toks[pos].text), pos + 1))
  {
    assert ParseLiteral(toks, pos) == Some(Parsed(StrLit(toks[pos].text), pos + 1));
    assert ParseParens(toks, pos) == Some(Parsed(StrLit(toks[pos].text), pos + 1));
  }

  lemma ParensStep(toks: seq<Token>, pos: nat, p: Parsed)
    requires pos < |toks| && toks[pos] == TLParen
    requires ParseLevel(1, toks, pos + 1) == Some(p)
    requires p.next < |toks| && toks[p.next] == TRParen
    ensures ParseLevel(12, toks, pos) == Some(Parsed(p.tree, p.next + 1))
  {
    assert ParseParens(toks, pos) == Some(Parsed(p.tree, p.next + 1));
  }

  lemma EmptyArrayStep(toks: seq<Token>, pos: nat)
    requires pos + 1 < |toks| && toks[pos] == TLBrack && toks[pos + 1] == TRBrack
    ensures ParseLevel(12, toks, pos) == Some(Parsed(ArrayLit([]), pos + 2))
  {
    assert ParseLevel(1, toks, pos + 1) == None;
    assert ParseLiteral(toks, pos) == Some(Parsed(ArrayLit([]), pos + 2));
    assert ParseParens(toks, pos) == Some(Parsed(ArrayLit([]), pos + 2));
  }

  lemma ArrayStep(toks: seq<Token>, pos: nat, p: Parsed, items: Items)
    requires pos < |toks| && toks[pos] == TLBrack
    requires ParseLevel(1, toks, pos + 1) == Some(p)
    requires ParseElems([p.tree], toks, p.next) == items
    requires items.next < |toks| && toks[items.next] == TRBrack
    ensures ParseLevel(12, toks, pos) == Some(Parsed(ArrayLit(items.elems), items.next + 1))
  {
    assert ParseLiteral(toks, pos) == Some(Parsed(ArrayLit(items.elems), items.next + 1));
    assert ParseParens(toks, pos) == Some(Parsed(ArrayLit(items.elems), items.next + 1));
  }

  lemma ElemsStep(acc: seq<Expr>, toks: seq<Token>, q: nat, p: Parsed)
    requires q < |toks| && toks[q] == TComma
    requires ParseLevel(1, toks, q + 1) == Some(p)
    ensures ParseElems(acc, toks, q) == ParseElems(acc + [p.tree], toks, p.next)
  {
  }

  lemma ElemsStop(acc: seq<Expr>, toks: seq<Token>, q: nat)
    requires q <= |toks| && (q == |toks| || toks[q] != TComma)
    ensures ParseElems(acc, toks, q) == Items(acc, q)
  {
  }

  lemma ElemsFail(acc: seq<Expr>, toks: seq<Token>, q: nat)
    requires q < |toks| && toks[q] == TComma && ParseLevel(1, toks, q + 1) == None
    ensures ParseElems(acc, toks, q) == Items(acc, q)
  {
  }

  lemma IndexStep(toks: seq<Token>, pos: nat, p: Parsed)
    requires pos <= |toks| && ParseLevel(12, toks, pos) == Some(p)
    ensures ParseLevel(11, toks, pos) == Some(FoldIndex(p.tree, toks, p.next))
  {
  }

  lemma NotStep(toks: seq<Token>, pos: nat)
    requires pos < |toks| && toks[pos] == TNot
    ensures ParseLevel(3, toks, pos) ==
              match ParseLevel(1, toks, pos + 1)
              case Some(p) => Some(Parsed(Not(p.tree), p.next))
              case None => None
  {
    assert ParseLevel(4, toks, pos) == None;
  }

  lemma BinaryStep(L: nat, toks: seq<Token>, pos: nat, p: Parsed)
    requires IsBinaryLevel(L) && pos <= |toks|
    requires ParseLevel(L + 1, toks, pos) == Some(p)
    ensures ParseLevel(L, toks, pos) == Some(FoldLevel(L, p.tree, toks, p.next))
  {
  }

  lemma FoldStep(L: nat, acc: Expr, toks: seq<Token>, q: nat, p: Parsed)
    requires IsBinaryLevel(L) && 0 < q < |toks| && EndsOperand(toks[q - 1])
    requires toks[q].TOp? && OpLevel(toks[q].op) == L
    requires ParseLevel(L + 1, toks, q + 1) == Some(p)
    ensures FoldLevel(L, acc, toks, q) == FoldLevel(L, Binary(toks[q].op, acc, p.tree), toks, p.next)
  {
  }

  lemma FoldStop(L: nat, acc: Expr, toks: seq<Token>, q: nat)
    requires IsBinaryLevel(L) && 0 < q <= |toks| && EndsOperand(toks[q - 1])
    requires q == |toks| || TokenLevel(toks[q]) != L
    ensures FoldLevel(L, acc, toks, q) == Parsed(acc, q)
  {
  }

  lemma FoldFail(L: nat, acc: Expr, toks: seq<Token>, q: nat)
    requires IsBinaryLevel(L) && 0 < q < |toks| && EndsOperand(toks[q - 1])
    requires toks[q].TOp? && OpLevel(toks[q].op) == L && ParseLevel(L + 1, toks, q + 1) == None
    ensures FoldLevel(L, acc, toks, q) == Parsed(acc, q)
  {
  }

  lemma FoldIndexStep(acc: Expr, toks: seq<Token>, q: nat, p: Parsed)
    requires 0 < q < |toks| && EndsOperand(toks[q - 1]) && toks[q] == TLBrack
    requires ParseLevel(1, toks, q + 1) == Some(p)
    requires p.next < |toks| && toks[p.next] == TRBrack
    ensures FoldIndex(acc, toks, q) == FoldIndex(Index(acc, p.tree), toks, p.next + 1)
  {
  }

  lemma FoldIndexFail(acc: Expr, toks: seq<Token>, q: nat)
    requires 0 < q < |toks| && EndsOperand(toks[q - 1]) && toks[q] == TLBrack
    requires match ParseLevel(1, toks, q + 1)
             case Some(p) => p.next == |toks| || toks[p.next] != TRBrack
             case None => true
    ensures FoldIndex(acc, toks, q) == Parsed(acc, q)
  {
  }

  lemma FoldIndexStop(acc: Expr, toks: seq<Token>, q: nat)
    requires 0 < q <= |toks| && EndsOperand(toks[q - 1])
    requires q == |toks| || toks[q] != TLBrack
    ensures FoldIndex(acc, toks, q) == Parsed(acc, q)
  {
  }

  /**
    A tree parsed at level `M` is also the result at any looser level `L`
    when the next token continues no rule between them.
   */
  lemma {:induction false} Climb(L: nat, M: nat, toks: seq<Token>, pos: nat, p: Parsed)
    requires 1 <= L <= M <= 12 && pos <= |toks|
    requires ParseLevel(M, toks, pos) == Some(p)
    requires p.next == |toks| || TokenLevel(toks[p.next]) < L
    ensures ParseLevel(L, toks, pos) == Some(p)
    decreases M - L
  {
    if L < M {
      Climb(L + 1, M, toks, pos, p);
      if L == 11 {
        IndexStep(toks, pos, p);
        FoldIndexStop(p.tree, toks, p.next);
      } else if L == 3 {
      } else {
        BinaryStep(L, toks, pos, p);
        FoldStop(L, p.tree, toks, p.next);
      }
    }
  }
}
