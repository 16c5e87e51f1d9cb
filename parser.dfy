/**
  The parser as the parser generator runs it: an object holding the line's
  tokens and a cursor, one method per grammar rule, and a `while` loop for
  every `( ... )*` repetition that reassigns the accumulated tree. Each
  method is proved to do exactly what the rule function of the same name
  in `Grammar` says: on success it returns that tree and leaves the cursor
  after it, on failure it returns nothing and leaves the cursor where the
  rule began.
 */
module RecursiveDescent {
  import opened Ast
  import opened Grammar
  import opened GrammarSteps

  /** A method's outcome `r` and cursor `now` agree with the rule's outcome `spec` begun at `start`. */
  predicate Agrees(r: Option<Expr>, now: nat, spec: Option<Parsed>, start: nat)
  {
    (r.Some? ==> spec == Some(Parsed(r.value, now))) && (r.None? ==> spec.None? && now == start)
  }

  class Parser {
    const toks: seq<Token>
    var pos: nat

    constructor (line: seq<Token>)
      ensures toks == line && pos == 0
    {
      toks := line;
      pos := 0;
    }

    /** Any rule of level `L`. */
    method Level(L: nat) returns (r: Option<Expr>)
      requires 1 <= L <= 12 && pos <= |toks|
      modifies this
      decreases |toks| - pos, 13 - L, 1
      ensures pos <= |toks| && Agrees(r, pos, ParseLevel(L, toks, old(pos)), old(pos))
    {
      if L == 12 {
        r := Parens();
      } else if L == 11 {
        r := IndexRule();
      } else if L == 3 {
        r := BoolNot();
      } else {
        r := BinaryRule(L);
      }
    }

    /** parens -> "(" expression ")" | literal */
    method Parens() returns (r: Option<Expr>)
      requires pos <= |toks|
      modifies this
      decreases |toks| - pos, 1, 0
      ensures pos <= |toks| && Agrees(r, pos, ParseParens(toks, old(pos)), old(pos))
    {
      var start := pos;
      if pos < |toks| && toks[pos] == TLParen {
        pos := pos + 1;
        var inner := Level(1);
        if inner.Some? && pos < |toks| && toks[pos] == TRParen {
          pos := pos + 1;
          return inner;
        }
        pos := start;
      }
      r := Literal();
    }

    /** index -> parens ( "[" expression "]" )* */
    method IndexRule() returns (r: Option<Expr>)
      requires pos <= |toks|
      modifies this
      decreases |toks| - pos, 2, 0
      ensures pos <= |toks| && Agrees(r, pos, ParseIndex(toks, old(pos)), old(pos))
    {
      var head := Parens();
      if head.None? {
        return None;
      }
      var t := IndexLoop(head.value);
      r := Some(t);
    }

    /** The loop `( "[" expression "]" )*`, folding each index onto `acc`; a failed iteration restores the cursor. */
    method IndexLoop(acc0: Expr) returns (acc: Expr)
      requires 0 < pos <= |toks| && EndsOperand(toks[pos - 1])
      modifies this
      decreases |toks| - pos, 0, 0
      ensures FoldIndex(acc0, toks, old(pos)) == Parsed(acc, pos)
    {
      ghost var first := pos;
      acc := acc0;
      while pos < |toks| && toks[pos] == TLBrack
        invariant first <= pos <= |toks| && EndsOperand(toks[pos - 1])
        invariant FoldIndex(acc, toks, pos) == FoldIndex(acc0, toks, first)
        decreases |toks| - pos
      {
        var save := pos;
        pos := pos + 1;
        var b := Level(1);
        if b.Some? && pos < |toks| && toks[pos] == TRBrack {
          FoldIndexStep(acc, toks, save, Parsed(b.value, pos));
          pos := pos + 1;
          acc := Index(acc, b.value);
        } else {
          FoldIndexFail(acc, toks, save);
          pos := save;
          break;
        }
      }
      if pos == |toks| || toks[pos] != TLBrack {
        FoldIndexStop(acc, toks, pos);
      }
    }

    /** boolnot -> comparison | "not" expression */
    method BoolNot() returns (r: Option<Expr>)
      requires pos <= |toks|
      modifies this
      decreases |toks| - pos, 10, 0
      ensures pos <= |toks| && Agrees(r, pos, ParseBoolNot(toks, old(pos)), old(pos))
    {
      var start := pos;
      r := Level(4);
      if r.Some? {
        return;
      }
      if pos < |toks| && toks[pos] == TNot {
        pos := pos + 1;
        var b := Level(1);
        if b.Some? {
          return Some(Not(b.value));
        }
        pos := start;
      }
    }

    /** A binary level: next-level ( op next-level )*, folding each operator onto the tree so far. */
    method BinaryRule(L: nat) returns (r: Option<Expr>)
      requires IsBinaryLevel(L) && pos <= |toks|
      modifies this
      decreases |toks| - pos, 13 - L, 0
      ensures pos <= |toks| && Agrees(r, pos, ParseBinary(L, toks, old(pos)), old(pos))
    {
      var head := Level(L + 1);
      if head.None? {
        return None;
      }
      var t := FoldLoop(L, head.value);
      r := Some(t);
    }

    /** The loop `( op next-level )*` of binary level `L`, folding onto `acc`; a failed iteration restores the cursor. */
    method FoldLoop(L: nat, acc0: Expr) returns (acc: Expr)
      requires IsBinaryLevel(L) && 0 < pos <= |toks| && EndsOperand(toks[pos - 1])
      modifies this
      decreases |toks| - pos, 0, 0
      ensures FoldLevel(L, acc0, toks, old(pos)) == Parsed(acc, pos)
    {
      ghost var first := pos;
      acc := acc0;
      while pos < |toks| && toks[pos].TOp? && OpLevel(toks[pos].op) == L
        invariant first <= pos <= |toks| && EndsOperand(toks[pos - 1])
        invariant FoldLevel(L, acc, toks, pos) == FoldLevel(L, acc0, toks, first)
        decreases |toks| - pos
      {
        var save := pos;
        var op := toks[pos].op;
        pos := pos + 1;
        var b := Level(L + 1);
        if b.Some? {
          FoldStep(L, acc, toks, save, Parsed(b.value, pos));
          acc := Binary(op, acc, b.value);
        } else {
          FoldFail(L, acc, toks, save);
          pos := save;
          break;
        }
      }
      if pos == |toks| || TokenLevel(toks[pos]) != L {
        FoldStop(L, acc, toks, pos);
      }
    }

    /** literal -> array | int | real | string */
    method Literal() returns (r: Option<Expr>)
      requires pos <= |toks|
      modifies this
      decreases |toks| - pos, 0, 1
      ensures pos <= |toks| && Agrees(r, pos, ParseLiteral(toks, old(pos)), old(pos))
    {
      if pos == |toks| {
        return None;
      }
      match toks[pos]
      case TInt(n) =>
        pos := pos + 1;
        r := Some(IntLit(n));
      case TReal(x) =>
        pos := pos + 1;
        r := Some(RealLit(x));
      case TStr(s) =>
        pos := pos + 1;
        r := Some(StrLit(s));
      case TLBrack =>
        r := ArrayRule();
      case _ =>
        r := None;
    }

    /**
      array -> "[" expression ( "," expression )* "]" | "[" "]". The
      elements are collected in source order by appending to a list; when
      the first alternative does not match, the second is tried from the
      same `[`.
     */
    method ArrayRule() returns (r: Option<Expr>)
      requires pos < |toks| && toks[pos] == TLBrack
      modifies this
      decreases |toks| - pos, 0, 0
      ensures pos <= |toks| && Agrees(r, pos, ParseArray(toks, old(pos)), old(pos))
    {
      var start := pos;
      pos := pos + 1;
      var head := Level(1);
      if head.Some? {
        var elems := ElemsLoop([head.value]);
        if pos < |toks| && toks[pos] == TRBrack {
          pos := pos + 1;
          return Some(ArrayLit(elems));
        }
      }
      pos := start;
      if pos + 1 < |toks| && toks[pos + 1] == TRBrack {
        pos := pos + 2;
        r := Some(ArrayLit([]));
      } else {
        r := None;
      }
    }

    /** The loop `( "," expression )*` of an array literal, appending to `elems`; a failed iteration restores the cursor. */
    method ElemsLoop(acc0: seq<Expr>) returns (elems: seq<Expr>)
      requires pos <= |toks|
      modifies this
      decreases |toks| - pos, 0, 0
      ensures ParseElems(acc0, toks, old(pos)) == Items(elems, pos)
    {
      ghost var first := pos;
      elems := acc0;
      while pos < |toks| && toks[pos] == TComma
        invariant first <= pos <= |toks|
        invariant ParseElems(elems, toks, pos) == ParseElems(acc0, toks, first)
        decreases |toks| - pos
      {
        var save := pos;
        pos := pos + 1;
        var b := Level(1);
        if b.Some? {
          ElemsStep(elems, toks, save, Parsed(b.value, pos));
          elems := elems + [b.value];
        } else {
          ElemsFail(elems, toks, save);
          pos := save;
          break;
        }
      }
      if pos == |toks| || toks[pos] != TComma {
        ElemsStop(elems, toks, pos);
      }
    }
  }

  /** START -> expression, over the whole line. */
  method Parse(line: seq<Token>) returns (r: Option<Expr>)
    ensures r == ParseLine(line)
  {
    var p := new Parser(line);
    r := p.Level(1);
    if r.Some? && p.pos != |line| {
      r := None;
    }
  }
}
