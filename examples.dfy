/**
  Whole lines, from tokens to verdict: left grouping of `**`, the reach of
  `not`, precedence of `*` over `+`, narrowing on `/`, the truth-value
  meaning of `<>`, a category mismatch on `+`, division by zero with `//`,
  incomplete and trailing input, indexing, and substring membership.
 */
module Examples {
  import opened Ast
  import opened Values
  import opened Evaluator
  import opened Grammar
  import opened ShapeLaws
  import opened Operators
  import PyInt
  import Printer
  import ParseLaws
  import GrammarSteps
  import EvalLaws

  /** What the interpreter reports for one line: a syntax error, a raised error, or a value. */
  datatype Verdict = SyntaxError | Raised(error: Error) | Shown(value: Value)

  /** A line is parsed as a whole and, when it parses, evaluated. */
  function Interpret(line: seq<Token>): (r: Verdict)
    ensures r.SyntaxError? <==> ParseLine(line).None?
    ensures r.Raised? ==> ParseLine(line).Some? && Eval(ParseLine(line).value) == Fail(r.error)
    ensures r.Shown? ==> ParseLine(line).Some? && Eval(ParseLine(line).value) == Ok(r.value)
  {
    match ParseLine(line)
    case None => SyntaxError
    case Some(e) =>
      match Eval(e)
      case Ok(v) => Shown(v)
      case Fail(err) => Raised(err)
  }

  /** The line written for any tree shows that tree's value, or reports its error. */
  lemma CanonicalVerdict(e: Expr)
    requires Printer.Printable(e)
    ensures Interpret(Printer.Print(e, 1, true))
            == if Eval(e).Ok? then Shown(Eval(e).value) else Raised(Eval(e).error)
  {
    ParseLaws.ParsePrinted(e);
  }

  /** `2 ** 3 ** 2` is `(2 ** 3) ** 2`, which is 64 (not 512). */
  lemma PowerLine()
    ensures Interpret([TInt(2), TOp(Pow), TInt(3), TOp(Pow), TInt(2)]) == Shown(VInt(64))
  {
    PowerGroupsLeft();
    var inner := Binary(Pow, IntLit(2), IntLit(3));
    EvalBinary(Pow, IntLit(2), IntLit(3), VInt(2), VInt(3));
    assert PyInt.Pow(2, 3) == 8;
    EvalBinary(Pow, inner, IntLit(2), VInt(8), VInt(2));
    assert PyInt.Pow(8, 2) == 64;
  }

  /** `not 1 and 0` is `not (1 and 0)`, which is 1. */
  lemma NotLine()
    ensures Interpret([TNot, TInt(1), TOp(And), TInt(0)]) == Shown(VInt(1))
  {
    NotTakesConjunction();
    EvalBinary(And, IntLit(1), IntLit(0), VInt(1), VInt(0));
  }

  /** `1 + 2 * 3` multiplies first. */
  lemma ArithmeticLine()
    ensures Interpret([TInt(1), TOp(Add), TInt(2), TOp(Mul), TInt(3)]) == Shown(VInt(7))
  {
    var e := Binary(Add, IntLit(1), Binary(Mul, IntLit(2), IntLit(3)));
    Grouping(1, Add, 2, Mul, 3);
    ArithmeticValue();
    ShownBy([TInt(1), TOp(Add), TInt(2), TOp(Mul), TInt(3)], e, VInt(7));
  }

  lemma ArithmeticValue()
    ensures Eval(Binary(Add, IntLit(1), Binary(Mul, IntLit(2), IntLit(3)))) == Ok(VInt(7))
  {
    EvalBinary(Mul, IntLit(2), IntLit(3), VInt(2), VInt(3));
    EvalBinary(Add, IntLit(1), Binary(Mul, IntLit(2), IntLit(3)), VInt(1), VInt(6));
  }

  /** `1 / 2` is the real 0.5. */
  lemma HalfLine()
    ensures Interpret([TInt(1), TOp(Div), TInt(2)]) == Shown(VReal(0.5))
  {
    OneOp(1, Div, 2);
    HalfValue();
    ShownBy([TInt(1), TOp(Div), TInt(2)], Binary(Div, IntLit(1), IntLit(2)), VReal(0.5));
  }

  lemma HalfValue()
    ensures Eval(Binary(Div, IntLit(1), IntLit(2))) == Ok(VReal(0.5))
  {
    EvalBinary(Div, IntLit(1), IntLit(2), VInt(1), VInt(2));
    EvalLaws.DivideIntegers(1, 2);
  }

  /** `4 / 2` is the integer 2. */
  lemma WholeLine()
    ensures Interpret([TInt(4), TOp(Div), TInt(2)]) == Shown(VInt(2))
  {
    OneOp(4, Div, 2);
    WholeValue();
    ShownBy([TInt(4), TOp(Div), TInt(2)], Binary(Div, IntLit(4), IntLit(2)), VInt(2));
  }

  lemma WholeValue()
    ensures Eval(Binary(Div, IntLit(4), IntLit(2))) == Ok(VInt(2))
  {
    EvalBinary(Div, IntLit(4), IntLit(2), VInt(4), VInt(2));
    EvalLaws.DivideIntegers(4, 2);
  }

  /** A line that parses to `e` shows the value of `e`. */
  lemma ShownBy(line: seq<Token>, e: Expr, v: Value)
    requires ParseLine(line) == Some(e) && Eval(e) == Ok(v)
    ensures Interpret(line) == Shown(v)
  {
  }

  /** `3 <> 3` and `3 <> 5` are both 0 and `0 <> 5` is 1: `<>` compares truth values. */
  lemma XorLines()
    ensures Interpret([TInt(3), TOp(Cmp(Ne)), TInt(3)]) == Shown(VInt(0))
    ensures Interpret([TInt(3), TOp(Cmp(Ne)), TInt(5)]) == Shown(VInt(0))
    ensures Interpret([TInt(0), TOp(Cmp(Ne)), TInt(5)]) == Shown(VInt(1))
  {
    OneOp(3, Cmp(Ne), 3);
    EvalBinary(Cmp(Ne), IntLit(3), IntLit(3), VInt(3), VInt(3));
    OneOp(3, Cmp(Ne), 5);
    EvalBinary(Cmp(Ne), IntLit(3), IntLit(5), VInt(3), VInt(5));
    OneOp(0, Cmp(Ne), 5);
    EvalBinary(Cmp(Ne), IntLit(0), IntLit(5), VInt(0), VInt(5));
  }

  /** `"ab" + 1` is a semantic error: a string and a number do not add. */
  lemma MixedAddLine()
    ensures Interpret([TStr("ab"), TOp(Add), TInt(1)]) == Raised(SemanticError)
  {
    var e := Binary(Add, StrLit("ab"), IntLit(1));
    assert Printer.Print(e, 1, true) == [TStr("ab"), TOp(Add), TInt(1)];
    ParseLaws.ParsePrinted(e);
    EvalBinary(Add, StrLit("ab"), IntLit(1), VStr("ab"), VInt(1));
  }

  /** `7 // 0` raises Python's own division error, which is not a semantic error. */
  lemma FloorDivByZeroLine()
    ensures Interpret([TInt(7), TOp(FloorDiv), TInt(0)]) == Raised(ZeroDivisionError)
  {
    OneOp(7, FloorDiv, 0);
    EvalBinary(FloorDiv, IntLit(7), IntLit(0), VInt(7), VInt(0));
  }

  /** `1 +` does not parse. */
  lemma IncompleteLine()
    ensures Interpret([TInt(1), TOp(Add)]) == SyntaxError
  {
  }

  /** `1 2` does not parse: the expression must cover the whole line. */
  lemma TrailingLine()
    ensures Interpret([TInt(1), TInt(2)]) == SyntaxError
  {
    var line := [TInt(1), TInt(2)];
    GrammarSteps.IntStep(line, 0);
    GrammarSteps.Climb(1, 12, line, 0, Parsed(IntLit(1), 1));
  }

  /** `[1, 2, 3][1]` is 2: indexing evaluates the chosen element node. */
  lemma IndexLine()
    ensures Interpret([TLBrack, TInt(1), TComma, TInt(2), TComma, TInt(3), TRBrack, TLBrack, TInt(1), TRBrack])
            == Shown(VInt(2))
  {
    var es := [IntLit(1), IntLit(2), IntLit(3)];
    var e := Index(ArrayLit(es), IntLit(1));
    assert Printer.Print(e, 1, true)
           == [TLBrack, TInt(1), TComma, TInt(2), TComma, TInt(3), TRBrack, TLBrack, TInt(1), TRBrack];
    ParseLaws.ParsePrinted(e);
    IndexValue();
    ShownBy([TLBrack, TInt(1), TComma, TInt(2), TComma, TInt(3), TRBrack, TLBrack, TInt(1), TRBrack], e, VInt(2));
  }

  lemma IndexValue()
    ensures Eval(Index(ArrayLit([IntLit(1), IntLit(2), IntLit(3)]), IntLit(1))) == Ok(VInt(2))
  {
    EvalLaws.IndexIsLazy([IntLit(1), IntLit(2), IntLit(3)], 1);
  }

  /** `"b" in "abc"` is 1. */
  lemma SubstringLine()
    ensures Interpret([TStr("b"), TOp(In), TStr("abc")]) == Shown(VInt(1))
  {
    var e := Binary(In, StrLit("b"), StrLit("abc"));
    assert Printer.Print(e, 1, true) == [TStr("b"), TOp(In), TStr("abc")];
    ParseLaws.ParsePrinted(e);
    SubstringValue();
    ShownBy([TStr("b"), TOp(In), TStr("abc")], e, VInt(1));
  }

  lemma SubstringValue()
    ensures Eval(Binary(In, StrLit("b"), StrLit("abc"))) == Ok(VInt(1))
  {
    assert "b" <= "abc"[1..];
    assert IsSubstring("b", "abc");
  }

  /** `x op y` over two integers parses as the one node. */
  lemma OneOp(x: nat, op: BinOp, y: nat)
    ensures ParseLine([TInt(x), TOp(op), TInt(y)]) == Some(Binary(op, IntLit(x), IntLit(y)))
  {
    var e := Binary(op, IntLit(x), IntLit(y));
    AtomText(x, OpLevel(op), false);
    AtomText(y, OpLevel(op) + 1, true);
    BinaryText(op, IntLit(x), IntLit(y), 1, true);
    assert Printer.Print(e, 1, true) == [TInt(x), TOp(op), TInt(y)];
    ParseLaws.ParsePrinted(e);
  }

  /** A binary node other than `in` applies its operator to the values of its operands. */
  lemma EvalBinary(op: BinOp, a: Expr, b: Expr, va: Value, vb: Value)
    requires op != In && Eval(a) == Ok(va) && Eval(b) == Ok(vb)
    ensures Eval(Binary(op, a, b)) == Apply(op, va, vb)
  {
  }
}
