/**
  What the grammar decides about a line: the canonical text of every tree
  parses back to that tree. Since the printer brackets a subtree only
  where the grammar's levels force it, this one theorem settles both the
  precedence table and the left-to-right grouping of every binary level.
 */
module ParseLaws {
  import opened Ast
  import opened Grammar
  import opened Printer
  import opened GrammarSteps

  /** `w` occurs in `toks` starting at `pos`. */
  predicate At(toks: seq<Token>, pos: nat, w: seq<Token>) {
    pos + |w| <= |toks| && MatchesFrom(toks, pos, w, 0)
  }

  /** The tokens of `w` from index `i` on agree with `toks` shifted by `pos`. */
  predicate MatchesFrom(toks: seq<Token>, pos: nat, w: seq<Token>, i: nat)
    requires pos + |w| <= |toks|
    decreases |w| - i
  {
    i >= |w| || (toks[pos + i] == w[i] && MatchesFrom(toks, pos, w, i + 1))
  }

  /** Tokens that close an enclosing construct. */
  predicate IsCloser(t: Token) {
    t == TRParen || t == TRBrack || t == TComma
  }

  /**
    What may follow an expression written at level `L`: the end of the line,
    a closing token when it is written as a tail, and otherwise any token
    that does not continue a rule of level `L` or tighter.
   */
  predicate StopsAfter(toks: seq<Token>, q: nat, L: nat, tail: bool)
    requires q <= |toks|
  {
    q == |toks| || (if tail then IsCloser(toks[q]) else TokenLevel(toks[q]) < L)
  }

  /** The leftmost operand of a chain of level-`k` operators. */
  function Head(e: Expr, k: nat): Expr
  {
    if e.Binary? && OpLevel(e.op) == k then Head(e.left, k) else e
  }

  /** The innermost target of a chain of indexings. */
  function IndexHead(e: Expr): Expr
  {
    if e.Index? then IndexHead(e.target) else e
  }

  lemma {:induction false} MatchesAll(toks: seq<Token>, pos: nat, w: seq<Token>, i: nat)
    requires pos + |w| <= |toks|
    ensures MatchesFrom(toks, pos, w, i) <==> forall j :: i <= j < |w| ==> toks[pos + j] == w[j]
    decreases |w| - i
  {
    if i < |w| {
      MatchesAll(toks, pos, w, i + 1);
    }
  }

  lemma AtSplit(toks: seq<Token>, pos: nat, u: seq<Token>, v: seq<Token>)
    requires At(toks, pos, u + v)
    ensures At(toks, pos, u) && At(toks, pos + |u|, v)
  {
    MatchesAll(toks, pos, u + v, 0);
    MatchesAll(toks, pos, u, 0);
    MatchesAll(toks, pos + |u|, v, 0);
    forall j | 0 <= j < |u| ensures toks[pos + j] == u[j] {
      assert (u + v)[j] == u[j];
    }
    forall j | 0 <= j < |v| ensures toks[pos + |u| + j] == v[j] {
      assert (u + v)[|u| + j] == v[j];
    }
  }

  lemma AtIndex(toks: seq<Token>, pos: nat, w: seq<Token>, i: nat)
    requires At(toks, pos, w) && i < |w|
    ensures toks[pos + i] == w[i]
  {
    MatchesAll(toks, pos, w, 0);
  }

  /** A text made of `u`, the token `t` and `v`, taken apart. */
  lemma Around(toks: seq<Token>, pos: nat, u: seq<Token>, t: Token, v: seq<Token>)
    requires At(toks, pos, u + [t] + v)
    ensures At(toks, pos, u) && At(toks, pos + |u| + 1, v)
    ensures pos + |u| + 1 + |v| <= |toks| && toks[pos + |u|] == t
  {
    AtSplit(toks, pos, u + [t], v);
    AtSplit(toks, pos, u, [t]);
    AtIndex(toks, pos + |u|, [t], 0);
  }

  /** A text made of `u`, `t`, `v` and a closing `c`, taken apart. */
  lemma Closed(toks: seq<Token>, pos: nat, u: seq<Token>, t: Token, v: seq<Token>, c: Token)
    requires At(toks, pos, u + [t] + v + [c])
    ensures At(toks, pos, u) && At(toks, pos + |u| + 1, v)
    ensures pos + |u| + 1 + |v| < |toks| && toks[pos + |u|] == t && toks[pos + |u| + 1 + |v|] == c
  {
    AtSplit(toks, pos, u + [t] + v, [c]);
    Around(toks, pos, u, t, v);
    AtIndex(toks, pos + |u + [t] + v|, [c], 0);
  }

  /** A sequence occurs in itself at position 0. */
  lemma AtSelf(w: seq<Token>)
    ensures At(w, 0, w)
  {
    MatchesAll(w, 0, w, 0);
  }

  /** Parsing the canonical text of `e` at level `L` gives back `e` and consumes exactly that text. */
  lemma {:induction false} RoundTrip(e: Expr, L: nat, tail: bool, toks: seq<Token>, pos: nat)
    requires Printable(e) && 1 <= L <= 12
    requires At(toks, pos, Print(e, L, tail))
    requires StopsAfter(toks, pos + |Print(e, L, tail)|, L, tail)
    ensures ParseLevel(L, toks, pos) == Some(Parsed(e, pos + |Print(e, L, tail)|))
    decreases Size(e), 6
  {
    if NeedsParens(e, L, tail) {
      PrintParens(e, L, tail);
      RoundTripParens(e, L, tail, toks, pos);
    } else {
      PrintBare(e, L, tail);
      RoundTripBare(e, tail, toks, pos);
      Climb(L, Prec(e), toks, pos, Parsed(e, pos + |Bare(e, tail)|));
    }
  }

  lemma PrintParens(e: Expr, L: nat, tail: bool)
    requires Printable(e) && NeedsParens(e, L, tail)
    ensures Print(e, L, tail) == [TLParen] + Bare(e, true) + [TRParen]
  {
  }

  lemma PrintBare(e: Expr, L: nat, tail: bool)
    requires Printable(e) && !NeedsParens(e, L, tail)
    ensures Print(e, L, tail) == Bare(e, tail) && L <= Prec(e) && (e.Not? ==> tail)
  {
  }

  lemma PrintLevels(e: Expr, L: nat, M: nat, tail: bool)
    requires Printable(e) && NeedsParens(e, L, tail) == NeedsParens(e, M, tail)
    ensures Print(e, L, tail) == Print(e, M, tail)
  {
  }

  /** A bracketed text: the inner text parses at the loosest level, then the brackets at level 12. */
  lemma {:induction false} RoundTripParens(e: Expr, L: nat, tail: bool, toks: seq<Token>, pos: nat)
    requires Printable(e) && 1 <= L <= 12
    requires At(toks, pos, [TLParen] + Bare(e, true) + [TRParen])
    requires StopsAfter(toks, pos + |Bare(e, true)| + 2, L, tail)
    ensures ParseLevel(L, toks, pos) == Some(Parsed(e, pos + |Bare(e, true)| + 2))
    decreases Size(e), 5
  {
    var b := Bare(e, true);
    var end := pos + |b| + 2;
    Wrapped(toks, pos, TLParen, b, TRParen);
    RoundTripBare(e, true, toks, pos + 1);
    Climb(1, Prec(e), toks, pos + 1, Parsed(e, end - 1));
    ParensStep(toks, pos, Parsed(e, end - 1));
    Climb(L, 12, toks, pos, Parsed(e, end));
  }

  /** A text made of an opening token, `v` and a closing token, taken apart. */
  lemma Wrapped(toks: seq<Token>, pos: nat, t: Token, v: seq<Token>, c: Token)
    requires At(toks, pos, [t] + v + [c])
    ensures At(toks, pos + 1, v)
    ensures pos + 1 + |v| < |toks| && toks[pos] == t && toks[pos + 1 + |v|] == c
  {
    assert [t] + v + [c] == [] + [t] + v + [c];
    Closed(toks, pos, [], t, v, c);
  }

  /** The same for the text without outer brackets, parsed at the level of `e`'s own operator. */
  lemma {:induction false} RoundTripBare(e: Expr, tail: bool, toks: seq<Token>, pos: nat)
    requires Printable(e) && (e.Not? ==> tail)
    requires At(toks, pos, Bare(e, tail))
    requires StopsAfter(toks, pos + |Bare(e, tail)|, Prec(e), tail)
    ensures 1 <= Prec(e) <= 12
    ensures ParseLevel(Prec(e), toks, pos) == Some(Parsed(e, pos + |Bare(e, tail)|))
    decreases Size(e), 4
  {
    match e
    case IntLit(n) =>
      AtIndex(toks, pos, Bare(e, tail), 0);
      IntStep(toks, pos);
    case RealLit(r) =>
      AtIndex(toks, pos, Bare(e, tail), 0);
      RealStep(toks, pos);
    case StrLit(s) =>
      AtIndex(toks, pos, Bare(e, tail), 0);
      StrStep(toks, pos);
    case ArrayLit(es) => RoundTripArray(e, tail, toks, pos);
    case Not(c) => RoundTripNot(e, toks, pos);
    case Binary(op, a, b) => RoundTripBinary(e, tail, toks, pos);
    case Index(a, i) => RoundTripIndex(e, tail, toks, pos);
  }

  lemma {:induction false} RoundTripNot(e: Expr, toks: seq<Token>, pos: nat)
    requires Printable(e) && e.Not?
    requires At(toks, pos, Bare(e, true))
    requires StopsAfter(toks, pos + |Bare(e, true)|, 3, true)
    ensures ParseLevel(3, toks, pos) == Some(Parsed(e, pos + |Bare(e, true)|))
    decreases Size(e), 3
  {
    var pc := Print(e.operand, 1, true);
    assert Bare(e, true) == [TNot] + pc;
    AtSplit(toks, pos, [TNot], pc);
    AtIndex(toks, pos, [TNot], 0);
    RoundTrip(e.operand, 1, true, toks, pos + 1);
    NotStep(toks, pos);
  }

  lemma {:induction false} RoundTripBinary(e: Expr, tail: bool, toks: seq<Token>, pos: nat)
    requires Printable(e) && e.Binary?
    requires At(toks, pos, Bare(e, tail))
    requires StopsAfter(toks, pos + |Bare(e, tail)|, OpLevel(e.op), tail)
    ensures ParseLevel(OpLevel(e.op), toks, pos) == Some(Parsed(e, pos + |Bare(e, tail)|))
    decreases Size(e), 3
  {
    var k := OpLevel(e.op);
    var end := pos + |Bare(e, tail)|;
    var q := Chain(e, k, tail, toks, pos, end);
    BinaryStep(k, toks, pos, Parsed(Head(e, k), q));
    FoldStop(k, e, toks, end);
  }

  lemma {:induction false} RoundTripIndex(e: Expr, tail: bool, toks: seq<Token>, pos: nat)
    requires Printable(e) && e.Index?
    requires At(toks, pos, Bare(e, tail))
    requires StopsAfter(toks, pos + |Bare(e, tail)|, 11, tail)
    ensures ParseLevel(11, toks, pos) == Some(Parsed(e, pos + |Bare(e, tail)|))
    decreases Size(e), 3
  {
    var end := pos + |Bare(e, tail)|;
    var q := IndexChain(e, tail, toks, pos, end);
    IndexStep(toks, pos, Parsed(IndexHead(e), q));
    FoldIndexStop(e, toks, end);
  }

  lemma {:induction false} RoundTripArray(e: Expr, tail: bool, toks: seq<Token>, pos: nat)
    requires Printable(e) && e.ArrayLit?
    requires At(toks, pos, Bare(e, tail))
    ensures ParseLevel(12, toks, pos) == Some(Parsed(e, pos + |Bare(e, tail)|))
    decreases Size(e), 3
  {
    var es := e.elems;
    if es == [] {
      AtIndex(toks, pos, Bare(e, tail), 0);
      AtIndex(toks, pos, Bare(e, tail), 1);
      EmptyArrayStep(toks, pos);
    } else {
      assert AllPrintable(es);
      var endFirst := ArrayParts(e, tail, toks, pos);
      ArrayItems(es, toks, pos, endFirst);
    }
  }

  /** A non-empty array literal whose brackets, first element and remaining elements are in place. */
  lemma {:induction false} ArrayItems(es: seq<Expr>, toks: seq<Token>, pos: nat, endFirst: nat)
    requires es != [] && AllPrintable(es)
    requires pos < |toks| && toks[pos] == TLBrack
    requires At(toks, pos + 1, Print(es[0], 1, true)) && endFirst == pos + 1 + |Print(es[0], 1, true)|
    requires StopsAfter(toks, endFirst, 1, true)
    requires At(toks, endFirst, CommaList(es[1..]))
    requires endFirst + |CommaList(es[1..])| < |toks| && toks[endFirst + |CommaList(es[1..])|] == TRBrack
    ensures ParseLevel(12, toks, pos) == Some(Parsed(ArrayLit(es), endFirst + |CommaList(es[1..])| + 1))
    decreases SumSize(es), 8
  {
    var head, rest := es[0], es[1..];
    var close := endFirst + |CommaList(rest)|;
    assert SumSize(es) == Size(head) + SumSize(rest);
    RoundTrip(head, 1, true, toks, pos + 1);
    ElemsRoundTrip(rest, [head], toks, endFirst);
    assert [head] + rest == es;
    ArrayStep(toks, pos, Parsed(head, endFirst), Items(es, close));
  }

  /** Where the brackets and the first element of a non-empty array literal sit. */
  lemma ArrayParts(e: Expr, tail: bool, toks: seq<Token>, pos: nat) returns (endFirst: nat)
    requires Printable(e) && e.ArrayLit? && e.elems != [] && AllPrintable(e.elems)
    requires Printable(e.elems[0]) && AllPrintable(e.elems[1..])
    requires At(toks, pos, Bare(e, tail))
    ensures At(toks, pos + 1, Print(e.elems[0], 1, true))
    ensures endFirst == pos + 1 + |Print(e.elems[0], 1, true)|
    ensures At(toks, endFirst, CommaList(e.elems[1..]))
    ensures endFirst + |CommaList(e.elems[1..])| + 1 == pos + |Bare(e, tail)| <= |toks|
    ensures toks[pos] == TLBrack && toks[pos + |Bare(e, tail)| - 1] == TRBrack
    ensures StopsAfter(toks, endFirst, 1, true)
  {
    var es := e.elems;
    var w := Bare(e, tail);
    var p0 := Print(es[0], 1, true);
    var rest := CommaList(es[1..]);
    assert w == [] + [TLBrack] + (p0 + rest) + [TRBrack];
    Closed(toks, pos, [], TLBrack, p0 + rest, TRBrack);
    AtSplit(toks, pos + 1, p0, rest);
    endFirst := pos + 1 + |p0|;
    if rest != [] {
      AtIndex(toks, endFirst, rest, 0);
    }
  }

  /**
    A chain `x0 op1 x1 ... opn xn` of one level: its head is what the next
    level parses first, and folding the rest of the chain onto the head
    rebuilds the whole left-grouped tree.
   */
  lemma {:induction false} Chain(e: Expr, k: nat, tail: bool, toks: seq<Token>, pos: nat, end: nat) returns (q: nat)
    requires Printable(e) && e.Binary? && OpLevel(e.op) == k && IsBinaryLevel(k)
    requires At(toks, pos, Bare(e, tail)) && end == pos + |Bare(e, tail)|
    requires StopsAfter(toks, end, k + 1, tail)
    ensures 0 < end <= |toks| && EndsOperand(toks[end - 1])
    ensures ParseLevel(k + 1, toks, pos) == Some(Parsed(Head(e, k), q))
    ensures FoldLevel(k, Head(e, k), toks, q) == FoldLevel(k, e, toks, end)
    decreases Size(e), 2
  {
    var endA := ChainLink(e, k, tail, toks, pos, end);
    q := ChainHead(e.left, k, toks, pos, endA);
  }

  /** The left operand of a level-`k` operator, followed by that operator, parses as a chain head. */
  lemma {:induction false} ChainHead(a: Expr, k: nat, toks: seq<Token>, pos: nat, endA: nat) returns (q: nat)
    requires Printable(a) && IsBinaryLevel(k)
    requires At(toks, pos, Print(a, k, false)) && endA == pos + |Print(a, k, false)|
    requires 0 < endA < |toks| && TokenLevel(toks[endA]) == k && EndsOperand(toks[endA - 1])
    ensures ParseLevel(k + 1, toks, pos) == Some(Parsed(Head(a, k), q))
    ensures FoldLevel(k, Head(a, k), toks, q) == FoldLevel(k, a, toks, endA)
    decreases Size(a), 7
  {
    if a.Binary? && OpLevel(a.op) == k {
      PrintBare(a, k, false);
      q := Chain(a, k, false, toks, pos, endA);
    } else {
      PrintLevels(a, k, k + 1, false);
      RoundTrip(a, k + 1, false, toks, pos);
      q := endA;
    }
  }

  /** The last operator of a chain: folding it and its right operand onto the left operand completes the node. */
  lemma {:induction false} ChainLink(e: Expr, k: nat, tail: bool, toks: seq<Token>, pos: nat, end: nat)
    returns (endA: nat)
    requires Printable(e) && e.Binary? && OpLevel(e.op) == k && IsBinaryLevel(k)
    requires At(toks, pos, Bare(e, tail)) && end == pos + |Bare(e, tail)|
    requires StopsAfter(toks, end, k + 1, tail)
    ensures endA == pos + |Print(e.left, k, false)| && At(toks, pos, Print(e.left, k, false))
    ensures 0 < endA < end <= |toks| && toks[endA] == TOp(e.op)
    ensures EndsOperand(toks[endA - 1]) && EndsOperand(toks[end - 1])
    ensures FoldLevel(k, e.left, toks, endA) == FoldLevel(k, e, toks, end)
    decreases Size(e), 1
  {
    endA := ChainParts(e, tail, toks, pos);
    RoundTrip(e.right, k + 1, tail, toks, endA + 1);
    FoldStep(k, e.left, toks, endA, Parsed(e.right, end));
    assert Binary(toks[endA].op, e.left, e.right) == e;
  }

  /** Where the operator of a binary node's text sits, and what lies on either side of it. */
  lemma ChainParts(e: Expr, tail: bool, toks: seq<Token>, pos: nat) returns (endA: nat)
    requires Printable(e) && e.Binary?
    requires At(toks, pos, Bare(e, tail))
    ensures endA == pos + |Print(e.left, OpLevel(e.op), false)|
    ensures At(toks, pos, Print(e.left, OpLevel(e.op), false))
    ensures 0 < endA < |toks| && toks[endA] == TOp(e.op) && EndsOperand(toks[endA - 1])
    ensures At(toks, endA + 1, Print(e.right, OpLevel(e.op) + 1, tail))
    ensures endA + 1 + |Print(e.right, OpLevel(e.op) + 1, tail)| == pos + |Bare(e, tail)|
  {
    var pa := Print(e.left, OpLevel(e.op), false);
    var pb := Print(e.right, OpLevel(e.op) + 1, tail);
    PrintEdges(e.left, OpLevel(e.op), false);
    assert Bare(e, tail) == pa + [TOp(e.op)] + pb;
    Around(toks, pos, pa, TOp(e.op), pb);
    endA := pos + |pa|;
    AtIndex(toks, pos, pa, |pa| - 1);
  }

  /** The same for a chain of indexings `x [i1] ... [in]`. */
  lemma {:induction false} IndexChain(e: Expr, tail: bool, toks: seq<Token>, pos: nat, end: nat) returns (q: nat)
    requires Printable(e) && e.Index?
    requires At(toks, pos, Bare(e, tail)) && end == pos + |Bare(e, tail)|
    ensures 0 < end <= |toks| && EndsOperand(toks[end - 1])
    ensures ParseLevel(12, toks, pos) == Some(Parsed(IndexHead(e), q))
    ensures FoldIndex(IndexHead(e), toks, q) == FoldIndex(e, toks, end)
    decreases Size(e), 2
  {
    var endA := IndexLink(e, tail, toks, pos, end);
    q := IndexTarget(e.target, toks, pos, endA);
  }

  /** The target of an indexing, followed by its `[`, parses as the head of an indexing chain. */
  lemma {:induction false} IndexTarget(a: Expr, toks: seq<Token>, pos: nat, endA: nat) returns (q: nat)
    requires Printable(a)
    requires At(toks, pos, Print(a, 11, false)) && endA == pos + |Print(a, 11, false)|
    requires 0 < endA < |toks| && toks[endA] == TLBrack && EndsOperand(toks[endA - 1])
    ensures ParseLevel(12, toks, pos) == Some(Parsed(IndexHead(a), q))
    ensures FoldIndex(IndexHead(a), toks, q) == FoldIndex(a, toks, endA)
    decreases Size(a), 7
  {
    if a.Index? {
      PrintBare(a, 11, false);
      q := IndexChain(a, false, toks, pos, endA);
    } else {
      PrintLevels(a, 11, 12, false);
      RoundTrip(a, 12, false, toks, pos);
      q := endA;
    }
  }

  /** The last indexing of a chain: folding it onto the target completes the node. */
  lemma {:induction false} IndexLink(e: Expr, tail: bool, toks: seq<Token>, pos: nat, end: nat) returns (endA: nat)
    requires Printable(e) && e.Index?
    requires At(toks, pos, Bare(e, tail)) && end == pos + |Bare(e, tail)|
    ensures endA == pos + |Print(e.target, 11, false)| && At(toks, pos, Print(e.target, 11, false))
    ensures 0 < endA < end <= |toks| && toks[endA] == TLBrack
    ensures EndsOperand(toks[endA - 1]) && EndsOperand(toks[end - 1])
    ensures FoldIndex(e.target, toks, endA) == FoldIndex(e, toks, end)
    decreases Size(e), 1
  {
    endA := IndexParts(e, tail, toks, pos);
    RoundTrip(e.index, 1, true, toks, endA + 1);
    FoldIndexStep(e.target, toks, endA, Parsed(e.index, end - 1));
  }

  /** Where the brackets of an indexing sit, and what lies around them. */
  lemma IndexParts(e: Expr, tail: bool, toks: seq<Token>, pos: nat) returns (endA: nat)
    requires Printable(e) && e.Index?
    requires At(toks, pos, Bare(e, tail))
    ensures endA == pos + |Print(e.target, 11, false)| && At(toks, pos, Print(e.target, 11, false))
    ensures At(toks, endA + 1, Print(e.index, 1, true))
    ensures endA + 1 + |Print(e.index, 1, true)| + 1 == pos + |Bare(e, tail)| <= |toks|
    ensures 0 < endA && toks[endA] == TLBrack && EndsOperand(toks[endA - 1])
    ensures toks[pos + |Bare(e, tail)| - 1] == TRBrack
  {
    var pa := Print(e.target, 11, false);
    var pi := Print(e.index, 1, true);
    PrintEdges(e.target, 11, false);
    assert Bare(e, tail) == pa + [TLBrack] + pi + [TRBrack];
    Closed(toks, pos, pa, TLBrack, pi, TRBrack);
    endA := pos + |pa|;
    AtIndex(toks, pos, pa, |pa| - 1);
  }

  /** The elements after the first of an array literal, up to its closing `]`. */
  lemma {:induction false} ElemsRoundTrip(xs: seq<Expr>, acc: seq<Expr>, toks: seq<Token>, q: nat)
    requires AllPrintable(xs)
    requires At(toks, q, CommaList(xs))
    requires q + |CommaList(xs)| < |toks| && toks[q + |CommaList(xs)|] == TRBrack
    ensures ParseElems(acc, toks, q) == Items(acc + xs, q + |CommaList(xs)|)
    decreases SumSize(xs), 7
  {
    if xs == [] {
      assert acc + xs == acc;
      ElemsStop(acc, toks, q);
    } else {
      var endX := ElemParts(xs, toks, q);
      assert SumSize(xs) == Size(xs[0]) + SumSize(xs[1..]);
      RoundTrip(xs[0], 1, true, toks, q + 1);
      ElemsStep(acc, toks, q, Parsed(xs[0], endX));
      ElemsRoundTrip(xs[1..], acc + [xs[0]], toks, endX);
      AppendFirst(acc, xs);
    }
  }

  lemma AppendFirst(acc: seq<Expr>, xs: seq<Expr>)
    requires xs != []
    ensures acc + [xs[0]] + xs[1..] == acc + xs
  {
    assert [xs[0]] + xs[1..] == xs;
  }

  /** Where the comma and the element of one step of `( "," expression )*` sit. */
  lemma ElemParts(xs: seq<Expr>, toks: seq<Token>, q: nat) returns (endX: nat)
    requires xs != [] && AllPrintable(xs)
    requires At(toks, q, CommaList(xs))
    requires q + |CommaList(xs)| < |toks| && toks[q + |CommaList(xs)|] == TRBrack
    ensures q < |toks| && toks[q] == TComma
    ensures At(toks, q + 1, Print(xs[0], 1, true)) && endX == q + 1 + |Print(xs[0], 1, true)|
    ensures At(toks, endX, CommaList(xs[1..])) && endX + |CommaList(xs[1..])| == q + |CommaList(xs)|
    ensures StopsAfter(toks, endX, 1, true)
  {
    var p := Print(xs[0], 1, true);
    var rest := CommaList(xs[1..]);
    assert CommaList(xs) == [] + [TComma] + (p + rest);
    Around(toks, q, [], TComma, p + rest);
    AtSplit(toks, q + 1, p, rest);
    endX := q + 1 + |p|;
    if rest != [] {
      AtIndex(toks, endX, rest, 0);
    }
  }

  /**
    Every tree a line can denote is the parse of its canonical text: the
    parser reads each operator at its level, groups each level from the
    left, and honours brackets.
   */
  lemma ParsePrinted(e: Expr)
    requires Printable(e)
    ensures ParseLine(Print(e, 1, true)) == Some(e)
  {
    var w := Print(e, 1, true);
    AtSelf(w);
    RoundTrip(e, 1, true, w, 0);
  }
}
