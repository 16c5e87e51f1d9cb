/**
  The grammar of the language as a recursive-descent parser over a token
  sequence and a cursor. The binary rules are numbered from the loosest to
  the tightest binding; each parses its operand at the next level and then
  folds `( op operand )*` to the left:

     1 or   2 and   3 not (a choice, not a binary rule)   4 comparison
     5 in   6 + -   7 //   8 **   9 %   10 * /   11 indexing   12 parens, literals

  The parser backtracks as the parser generator the program uses does: when
  the body of a `( ... )*` repetition fails, the cursor goes back to where
  that iteration began and the repetition ends; when the first alternative
  of a choice fails, the next one is tried from the same place. A line is
  accepted only when the expression covers every token.
 */
module Grammar {
  import opened Ast

  /**
    Lexical classes. `TStr` carries the text between the quotes, `TOp` the
    operator keywords and symbols `or and < <= > >= == <> in + - // ** % * /`.
   */
  datatype Token =
    | TInt(n: nat)
    | TReal(r: real)
    | TStr(text: string)
    | TOp(op: BinOp)
    | TNot
    | TLParen | TRParen
    | TLBrack | TRBrack
    | TComma

  datatype Option<T> = None | Some(value: T)

  /** A parsed tree and the position of the first token after it. */
  datatype Parsed = Parsed(tree: Expr, next: nat)

  /** Elements of an array literal and the position of the first token after them. */
  datatype Items = Items(elems: seq<Expr>, next: nat)

  /** The level of the grammar at which an operator is folded. */
  function OpLevel(op: BinOp): nat
  {
    match op
    case Or => 1
    case And => 2
    case Cmp(_) => 4
    case In => 5
    case Add => 6
    case Sub => 6
    case FloorDiv => 7
    case Pow => 8
    case Mod => 9
    case Mul => 10
    case Div => 10
  }

  /** The grammar levels that are `operand ( op operand )*` folds. */
  predicate IsBinaryLevel(L: nat) {
    1 <= L <= 10 && L != 3
  }

  /** Tokens that can begin an expression. */
  predicate StartsOperand(t: Token) {
    t.TInt? || t.TReal? || t.TStr? || t == TLParen || t == TLBrack || t == TNot
  }

  /** Tokens that can end an expression. */
  predicate EndsOperand(t: Token) {
    t.TInt? || t.TReal? || t.TStr? || t == TRParen || t == TRBrack
  }

  /**
    Parses one expression of grammar level `L` starting at `pos`. A result
    always consumes at least one token, begins with a token that can start
    an operand (not `not` at level 4 and above) and ends with one that can
    end an operand.
   */
  function ParseLevel(L: nat, toks: seq<Token>, pos: nat): (r: Option<Parsed>)
    requires 1 <= L <= 12 && pos <= |toks|
    decreases |toks| - pos, 13 - L, 1
    ensures r.Some? ==> pos < r.value.next <= |toks|
    ensures r.Some? ==> StartsOperand(toks[pos]) && (L >= 4 ==> toks[pos] != TNot)
    ensures r.Some? ==> EndsOperand(toks[r.value.next - 1])
  {
    if L == 12 then ParseParens(toks, pos)
    else if L == 11 then ParseIndex(toks, pos)
    else if L == 3 then ParseBoolNot(toks, pos)
    else ParseBinary(L, toks, pos)
  }

  /** parens -> "(" expression ")" | literal */
  function ParseParens(toks: seq<Token>, pos: nat): (r: Option<Parsed>)
    requires pos <= |toks|
    decreases |toks| - pos, 1, 0
    ensures r.Some? ==> pos < r.value.next <= |toks|
    ensures r.Some? ==> StartsOperand(toks[pos]) && toks[pos] != TNot
    ensures r.Some? ==> EndsOperand(toks[r.value.next - 1])
  {
    var inner :=
      if pos < |toks| && toks[pos] == TLParen then
        match ParseLevel(1, toks, pos + 1)
        case Some(p) =>
          if p.next < |toks| && toks[p.next] == TRParen then Some(Parsed(p.tree, p.next + 1)) else None
        case None => None
      else None;
    if inner.Some? then inner else ParseLiteral(toks, pos)
  }

  /** index -> parens ( "[" expression "]" )* */
  function ParseIndex(toks: seq<Token>, pos: nat): (r: Option<Parsed>)
    requires pos <= |toks|
    decreases |toks| - pos, 2, 0
    ensures r.Some? ==> pos < r.value.next <= |toks|
    ensures r.Some? ==> StartsOperand(toks[pos]) && toks[pos] != TNot
    ensures r.Some? ==> EndsOperand(toks[r.value.next - 1])
  {
    match ParseLevel(12, toks, pos)
    case None => None
    case Some(p) => Some(FoldIndex(p.tree, toks, p.next))
  }

  /** boolnot -> comparison | "not" expression */
  function ParseBoolNot(toks: seq<Token>, pos: nat): (r: Option<Parsed>)
    requires pos <= |toks|
    decreases |toks| - pos, 10, 0
    ensures r.Some? ==> pos < r.value.next <= |toks|
    ensures r.Some? ==> StartsOperand(toks[pos])
    ensures r.Some? ==> EndsOperand(toks[r.value.next - 1])
  {
    match ParseLevel(4, toks, pos)
    case Some(p) => Some(p)
    case None =>
      if pos < |toks| && toks[pos] == TNot then
        match ParseLevel(1, toks, pos + 1)
        case Some(p) => Some(Parsed(Not(p.tree), p.next))
        case None => None
      else None
  }

  /** A binary level: next-level ( op next-level )*, for `or`, `and`, comparison, `in`, `+ -`, `//`, `**`, `%`, `* /`. */
  function ParseBinary(L: nat, toks: seq<Token>, pos: nat): (r: Option<Parsed>)
    requires IsBinaryLevel(L) && pos <= |toks|
    decreases |toks| - pos, 13 - L, 0
    ensures r.Some? ==> pos < r.value.next <= |toks|
    ensures r.Some? ==> StartsOperand(toks[pos]) && (L >= 4 ==> toks[pos] != TNot)
    ensures r.Some? ==> EndsOperand(toks[r.value.next - 1])
  {
    match ParseLevel(L + 1, toks, pos)
    case None => None
    case Some(p) => Some(FoldLevel(L, p.tree, toks, p.next))
  }

  /** literal -> array | int | real | string */
  function ParseLiteral(toks: seq<Token>, pos: nat): (r: Option<Parsed>)
    requires pos <= |toks|
    decreases |toks| - pos, 0, 1
    ensures r.Some? ==> pos < r.value.next <= |toks|
    ensures r.Some? ==> StartsOperand(toks[pos]) && toks[pos] != TNot
    ensures r.Some? ==> EndsOperand(toks[r.value.next - 1])
  {
    if pos == |toks| then None
    else match toks[pos]
      case TInt(n) => Some(Parsed(IntLit(n), pos + 1))
      case TReal(x) => Some(Parsed(RealLit(x), pos + 1))
      case TStr(s) => Some(Parsed(StrLit(s), pos + 1))
      case TLBrack => ParseArray(toks, pos)
      case _ => None
  }

  /** array -> "[" expression ( "," expression )* "]" | "[" "]" */
  function ParseArray(toks: seq<Token>, pos: nat): (r: Option<Parsed>)
    requires pos < |toks| && toks[pos] == TLBrack
    decreases |toks| - pos, 0, 0
    ensures r.Some? ==> pos < r.value.next <= |toks| && toks[r.value.next - 1] == TRBrack
  {
    var full :=
      match ParseLevel(1, toks, pos + 1)
      case Some(p) =>
        var items := ParseElems([p.tree], toks, p.next);
        if items.next < |toks| && toks[items.next] == TRBrack
        then Some(Parsed(ArrayLit(items.elems), items.next + 1))
        else None
      case None => None;
    if full.Some? then full
    else if pos + 1 < |toks| && toks[pos + 1] == TRBrack then Some(Parsed(ArrayLit([]), pos + 2))
    else None
  }

  /** The loop `( "," expression )*` of an array literal, appending to `acc`. */
  function ParseElems(acc: seq<Expr>, toks: seq<Token>, q: nat): (r: Items)
    requires q <= |toks|
    decreases |toks| - q, 0, 0
    ensures q <= r.next <= |toks|
    ensures |acc| <= |r.elems| && r.elems[..|acc|] == acc
  {
    if q < |toks| && toks[q] == TComma then
      match ParseLevel(1, toks, q + 1)
      case Some(p) => ParseElems(acc + [p.tree], toks, p.next)
      case None => Items(acc, q)
    else Items(acc, q)
  }

  /** The loop `( op operand )*` of binary level `L`, folding onto `acc` from the left. */
  function FoldLevel(L: nat, acc: Expr, toks: seq<Token>, q: nat): (r: Parsed)
    requires IsBinaryLevel(L) && 0 < q <= |toks| && EndsOperand(toks[q - 1])
    decreases |toks| - q, 0, 0
    ensures q <= r.next <= |toks| && EndsOperand(toks[r.next - 1])
  {
    if q < |toks| && toks[q].TOp? && OpLevel(toks[q].op) == L then
      match ParseLevel(L + 1, toks, q + 1)
      case Some(p) => FoldLevel(L, Binary(toks[q].op, acc, p.tree), toks, p.next)
      case None => Parsed(acc, q)
    else Parsed(acc, q)
  }

  /** The loop `( "[" expression "]" )*` of the index rule, folding onto `acc` from the left. */
  function FoldIndex(acc: Expr, toks: seq<Token>, q: nat): (r: Parsed)
    requires 0 < q <= |toks| && EndsOperand(toks[q - 1])
    decreases |toks| - q, 0, 0
    ensures q <= r.next <= |toks| && EndsOperand(toks[r.next - 1])
  {
    if q < |toks| && toks[q] == TLBrack then
      match ParseLevel(1, toks, q + 1)
      case Some(p) =>
        if p.next < |toks| && toks[p.next] == TRBrack then FoldIndex(Index(acc, p.tree), toks, p.next + 1)
        else Parsed(acc, q)
      case None => Parsed(acc, q)
    else Parsed(acc, q)
  }

  /** START -> expression, which must cover the whole line; `None` is a syntax error. */
  function ParseLine(toks: seq<Token>): (r: Option<Expr>)
    ensures r.Some? ==> |toks| > 0 && StartsOperand(toks[0]) && EndsOperand(toks[|toks| - 1])
  {
    match ParseLevel(1, toks, 0)
    case Some(p) => if p.next == |toks| then Some(p.tree) else None
    case None => None
  }
}
