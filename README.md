# seawolf-lang expression interpreter, modelled in Dafny

`main.py` reads expressions one line at a time and reports for each line a
value, `SYNTAX ERROR` or `SEMANTIC ERROR`. The language has integers, reals,
strings and arrays, and the operators `or`, `and`, `not`, six comparisons,
`in`, `+ -`, `//`, `**`, `%`, `* /` and indexing. This project models the
interpreter's two parts and proves properties of each:

- **The evaluator** (`ast.dfy`, `values.dfy`, `pyint.dfy`, `operators.dfy`,
  `evaluator.dfy`, `eval_laws.dfy`).
  - The AST node classes become the closed datatype `Ast.Expr`.
  - Python's dynamically typed results become `Values.Value`
    (`VInt | VReal | VStr | VArr`), with a failure arm in `Values.Outcome`.
  - Each `evaluate` becomes a case of `Evaluator.Eval`. Its type rules are
    the functions in `Operators`.
  - Arrays keep their elements as unevaluated nodes. Only `in` and indexing
    force an element, one node at a time.
  - Python's `//`, `%` and `**` on integers are written out in `PyInt`.
    Python floors the quotient; Dafny's own operators are Euclidean.
- **The parser** (`grammar.dfy`, `grammar_steps.dfy`, `parser.dfy`).
  - The grammar becomes recursive descent over a token sequence.
    `Grammar.ParseLevel` handles the twelve grammar levels, from `or` (1)
    to brackets and literals (12).
  - It backtracks the way the parser generator does. When the body of a
    `( ... )*` loop fails, the cursor goes back to where that iteration
    began and the loop ends. When an alternative fails, the next one is
    tried from the same token.
  - `RecursiveDescent.Parser` is the parser as an object: the line's tokens,
    a cursor field, and one method per rule. Every `( ... )*` repetition is
    a `while` loop that reassigns the tree built so far.
  - Each method is proved to return what the rule function returns. On
    success it leaves the cursor where that function says; on failure it
    leaves the cursor where the rule began.
- **What the grammar decides** (`printer.dfy`, `parse_laws.dfy`,
  `shape_laws.dfy`).
  - `Printer.Print` writes a tree with the fewest brackets the grammar
    needs. `ParseLaws.ParsePrinted` proves that this text parses back to the
    same tree.
  - This one theorem fixes the precedence order and the left grouping of
    every level, including `**`. It also fixes the reach of `not` and the
    order of array elements.
  - `ShapeLaws` reads the concrete shapes off it.
- **Whole lines** (`examples.dfy`). `Examples.Interpret` gives the verdict
  for one line: a syntax error when the line does not parse; otherwise the
  value or the error of its tree. The lemmas there settle whole lines for
  left grouping of `**`, the reach of `not`, precedence, narrowing on `/`,
  the truth-value `<>`, a category mismatch on `+`, `//` by zero,
  incomplete and trailing input, indexing and substring membership.

Only `/` checks its divisor. `//` or `%` by zero, and zero raised to a
negative power, raise Python's own `ZeroDivisionError`. The driver does not
catch it, so it is not a semantic error. The model keeps it as a separate
error, `Values.ZeroDivisionError`.

Python's `==` inside `in` compares numbers by value (`1 == 1.0`) and strings
by content. Two lists are compared by node identity, because nodes define
no equality. The left operand and the array on the right come from
disjoint subtrees, so two lists that meet there are equal exactly when both
are empty; `Values.PyEquals` says so.

## Model

| member | source | states |
|---|---|---|
| Operators.NotValue | main.py:96-100 | fails with a semantic error exactly when the operand is not an integer; otherwise the result is 0 or 1, and 1 exactly when the operand is falsy |
| Operators.OrValue | main.py:79-86 | fails with a semantic error unless both operands are integers; the result is 0 or 1, and 1 exactly when either operand is truthy |
| Operators.AndValue | main.py:111-118 | fails with a semantic error unless both operands are integers; the result is 0 or 1, and 1 exactly when both operands are truthy |
| Operators.CompareValue | main.py:130-151 | fails with a semantic error unless both operands are integers; the result is 0 or 1; `<`, `<=`, `>`, `>=`, `==` compare numerically, while `<>` is 1 exactly when one operand is truthy and the other is not |
| Operators.SubValue | main.py:291-298 | integers only (a real operand is a semantic error); the result is the difference |
| Operators.FloorDivValue | main.py:186-193 | a non-integer operand is a semantic error; a zero divisor raises ZeroDivisionError; otherwise the result is the floor of the exact quotient |
| Operators.ModValue | main.py:204-211 | a non-integer operand is a semantic error; a zero divisor raises ZeroDivisionError; otherwise the remainder takes the sign of the divisor, is smaller than it in magnitude, and completes `divisor * (a // b) + remainder == dividend` |
| Operators.PowValue | main.py:222-229 | a non-integer operand is a semantic error; a non-negative exponent gives the integer power; zero to a negative power raises ZeroDivisionError; a non-zero base to a negative power gives the real reciprocal of the positive power |
| Operators.AddValue | main.py:267-280 | fails exactly when one operand is a string and the other is not, or one is an array and the other is not; two strings concatenate; two arrays concatenate their node lists, so the lengths add; two numbers add, giving an integer only when both are integers |
| Operators.MulValue | main.py:311-318 | fails exactly when an operand is not a number; otherwise the product, an integer only when both operands are integers |
| Operators.IsWhole | main.py:341 | defines `float.is_integer` on an exact real: the real equals its floor |
| Operators.WholeReals | main.py:341 | a real passes `is_integer` if and only if it equals some integer |
| Operators.DivValue | main.py:331-344 | succeeds exactly when both operands are numbers and the divisor is not zero; the result times the divisor is the dividend; the result is an integer exactly when the quotient has no fractional part |
| PyInt.Pow | main.py:229 | defines `a ** n` for a non-negative exponent as repeated multiplication |
| PyInt.PowAdd | main.py:229 | powers of one base multiply by adding exponents: `a ** (m + n) == a ** m * a ** n` |
| PyInt.FloorDiv | main.py:193 | Python's `//` is the floor of the exact quotient, for divisors of either sign |
| PyInt.Mod | main.py:211 | Python's `%` lies between zero and the divisor, on the divisor's side, and completes `b * (a // b) + a % b == a` |
| Evaluator.Eval | main.py:34-344 | the value or error of every node; its contract bounds an array value's nodes: their total size is below the size of the evaluated tree, which is what lets forcing them terminate (evaluation order is stated by `EvalLaws.OperandsFirst`) |
| Values.PyEquals | main.py:171 | defines the `==` of the array search: numbers by value across int and real, strings by content, values of different kinds unequal, two lists equal only when both are empty |
| Values.EqualsLaws | main.py:171 | that `==` is symmetric, equates an integer with the real of the same value, holds of any number or string with itself, and never holds between a string and a non-string |
| Values.IsSubstring | main.py:175 | defines `left in right` on two strings: the left occurs in the right at some position |
| Values.SubstringLaws | main.py:175 | a string occurs in another only if it is no longer, and occurs in any string that contains it between a prefix and a suffix |
| Evaluator.Member | main.py:169-173 | the array search of `in` yields only 0 or 1 when it succeeds |
| Evaluator.Slot | main.py:249 | a Python index `k` inside `-n .. n-1` reads a position below `n` that is either `k` itself or `k + n`, counted from the end |
| EvalLaws.OperandsFirst | main.py:80-85 | a binary, index or `not` node whose left operand fails yields that failure; one whose left operand succeeds and whose right operand fails yields the right one; no type check runs first |
| EvalLaws.LogicalResults | main.py:79-151 | `or`, `and`, `not` and every comparison yield 0 or 1 and reject any operand that is not an integer, reals and strings included |
| EvalLaws.NotEqualIsXor | main.py:148-149 | `3 <> 3` and `3 <> 5` are 0 and `0 <> 5` is 1; any two non-zero integers give 0 |
| EvalLaws.DivideIntegers | main.py:331-344 | for integers `a`, `b`: `b == 0` is a semantic error; if `b` divides `a` the result is the integer quotient; otherwise it is the exact real quotient |
| EvalLaws.MemberStopsAt | main.py:169-173 | the array search stops at the first node that equals the left value (giving 1) or fails (giving that failure); the nodes after it cannot change the outcome, whatever they are |
| EvalLaws.MemberZero | main.py:169-173 | the array search gives 0 exactly when every node evaluates and none equals the left value |
| EvalLaws.MembershipRules | main.py:162-175 | `in` needs an array or string on the right, and a string on the right needs a string on the left (otherwise a semantic error); two strings give the substring test; an array gives the search |
| EvalLaws.IndexRules | main.py:240-256 | indexing needs an array or string on the left and an integer on the right; an index outside `-n .. n-1` is a semantic error; inside, the result is the evaluated node, or the one-character string, at Python's position |
| EvalLaws.IndexIsLazy | main.py:64-68 | an array literal evaluates to its own nodes, and indexing it evaluates only the chosen node |
| Grammar.ParseLevel | main.py:366-400 | a successful parse at any level consumes at least one token, starts with a token that can open an operand (not `not` from the comparison level inwards) and ends with one that can close it |
| Grammar.ParseParens | main.py:398 | `( expression )` or else a literal; a success consumes tokens and is bounded by operand tokens |
| Grammar.ParseIndex | main.py:396 | a bracket-or-literal followed by any number of `[ expression ]`; a success consumes tokens and is bounded by operand tokens |
| Grammar.ParseBoolNot | main.py:372 | a comparison, or else `not` followed by a whole expression; a success consumes tokens |
| Grammar.ParseBinary | main.py:368-394 | a binary level: an operand of the next level, then the fold; a success consumes tokens and is bounded by operand tokens |
| Grammar.ParseLiteral | main.py:400 | an integer, real or string token, or an array; a success consumes tokens and is bounded by operand tokens |
| Grammar.ParseArray | main.py:402-406 | `[ expression ( , expression )* ]`, else `[ ]`; a success ends just after a `]` |
| Grammar.ParseElems | main.py:403-404 | the element loop only appends: the elements collected before it stay first, in order, and the cursor only advances |
| Grammar.FoldLevel | main.py:368-394 | the `( op operand )*` loop only advances the cursor and stops after a token that closes an operand |
| Grammar.FoldIndex | main.py:396 | the `( [ expression ] )*` loop only advances the cursor and stops after a token that closes an operand |
| Grammar.ParseLine | main.py:364 | an accepted line is non-empty, starts with a token that opens an operand and ends with one that closes it |
| GrammarSteps.Climb | main.py:366-396 | a tree parsed at a tight level is also the parse at any looser level when the next token continues no rule in between |
| RecursiveDescent.Parser.Level | main.py:366-400 | the rule method of any level returns exactly the tree `Grammar.ParseLevel` gives and leaves the cursor after it; on failure it returns nothing and restores the cursor |
| RecursiveDescent.Parser.Parens | main.py:398 | agrees with `Grammar.ParseParens`, including the backtrack from a failed `( expression )` to the literal |
| RecursiveDescent.Parser.IndexRule | main.py:396 | agrees with `Grammar.ParseIndex` |
| RecursiveDescent.Parser.IndexLoop | main.py:396 | the `while` loop of the index rule ends with the tree and cursor of `Grammar.FoldIndex`, undoing a failed iteration |
| RecursiveDescent.Parser.BoolNot | main.py:372 | agrees with `Grammar.ParseBoolNot`, trying the comparison first and `not expression` second |
| RecursiveDescent.Parser.BinaryRule | main.py:368-394 | agrees with `Grammar.ParseBinary` at every binary level |
| RecursiveDescent.Parser.FoldLoop | main.py:368-394 | the `while` loop of a binary level ends with the left-folded tree and cursor of `Grammar.FoldLevel`, undoing a failed iteration |
| RecursiveDescent.Parser.Literal | main.py:400 | agrees with `Grammar.ParseLiteral` |
| RecursiveDescent.Parser.ArrayRule | main.py:402-406 | agrees with `Grammar.ParseArray`, including the retry of `[ ]` from the same `[` |
| RecursiveDescent.Parser.ElemsLoop | main.py:403-404 | the loop that appends each element ends with the elements and cursor of `Grammar.ParseElems` |
| RecursiveDescent.Parse | main.py:364 | parsing a line with a fresh parser gives exactly `Grammar.ParseLine`: the expression, or a syntax error when it does not cover every token |
| ParseLaws.RoundTrip | main.py:366-406 | the canonical text of any tree, followed by anything that does not continue it, parses at its level back to the tree and consumes exactly that text |
| ParseLaws.ParsePrinted | main.py:364-406 | every tree a line can denote is the parse of its canonical text: operators at their precedence levels, each level grouped from the left, brackets honoured |
| ShapeLaws.Grouping | main.py:368-394 | in `x op1 y op2 z`, the operator of the tighter level is applied first on either side, and two operators of one level group to the left |
| ShapeLaws.PowerGroupsLeft | main.py:387 | `2 ** 3 ** 2` parses as `(2 ** 3) ** 2` |
| ShapeLaws.NotReach | main.py:372 | `not` followed by the canonical text of any tree is the negation of that whole tree |
| ShapeLaws.NotTakesRest | main.py:364-372 | a line that begins with `not`, followed by tokens that parse as one expression covering the rest of the line, is the negation of that expression |
| ShapeLaws.NotTakesConjunction | main.py:370-372 | `not 1 and 0` parses as `not (1 and 0)` |
| ShapeLaws.ArrayReach | main.py:402-405 | a bracketed, comma-separated list of the canonical texts of trees is the array literal of those trees, in source order |
| ShapeLaws.ArrayAt | main.py:402-405 | after `[`, elements written in any text that each parse as an expression, separated by `,` and closed by `]`, form the array literal of those nodes in source order |
| ShapeLaws.ElemsAt | main.py:404 | the `( , expression )*` loop appends each remaining element in order and stops at the closing `]` |
| ShapeLaws.EmptyArrayReach | main.py:406 | `[ ]` is the empty array literal |
| Examples.Interpret | main.py:426-446 | defines the per-line verdict of the driver: parse the line, then evaluate its tree |
| Examples.CanonicalVerdict | main.py:426-446 | the line written for any tree shows that tree's value, or reports the error its evaluation raises |
| Examples.PowerLine | main.py:222-229 | the line `2 ** 3 ** 2` shows 64 |
| Examples.NotLine | main.py:96-118 | the line `not 1 and 0` shows 1 |
| Examples.ArithmeticLine | main.py:380-394 | the line `1 + 2 * 3` shows 7 |
| Examples.HalfLine | main.py:340-344 | the line `1 / 2` shows the real 0.5 |
| Examples.WholeLine | main.py:340-342 | the line `4 / 2` shows the integer 2 |
| Examples.XorLines | main.py:148-149 | the lines `3 <> 3` and `3 <> 5` show 0 and `0 <> 5` shows 1 |
| Examples.MixedAddLine | main.py:271-272 | the line `"ab" + 1` is a semantic error |
| Examples.FloorDivByZeroLine | main.py:193 | the line `7 // 0` raises ZeroDivisionError, not a semantic error |
| Examples.IncompleteLine | main.py:364 | the line `1 +` is a syntax error |
| Examples.TrailingLine | main.py:364 | the line `1 2` is a syntax error: the expression must cover the line |
| Examples.IndexLine | main.py:247-249 | the line `[1, 2, 3][1]` shows 2 |
| Examples.SubstringLine | main.py:174-175 | the line `"b" in "abc"` shows 1 |

## Left out

- The driver (main.py:419-451) is not modelled: opening the input file, the line loop, `ljust`/`repr` formatting and printing. Only its per-line verdict is kept, in `Examples.Interpret`. A `ZeroDivisionError` is not caught there and would end the program; the model reports it as a verdict of its own.
- The lexer (main.py:358-362) is given as the token classes of `Grammar.Token`, not as regular expressions. Splitting text into tokens, the whitespace separator and the keyword tokens are not modelled.
- The parser generator library (main.py:6, 356, 411) is not modelled. Its backtracking behaviour is written out in the rule functions.
- IEEE floating point is not modelled: reals are exact, so `VReal` arithmetic has no rounding and `is_integer` tests an exact quotient.
- Python's `OverflowError` is not modelled. Python raises it when an integer too large for a float meets float arithmetic: in `/` (main.py:340), in `+` or `*` with a real (main.py:280, 318), or in `**` with a negative exponent (main.py:229). The driver does not catch it, so the program stops; the model gives the exact value instead (for example for `10 ** 400 / 3` and `10 ** 400 + 0.5`).
- Operators.PowValue: a negative exponent gives the exact reciprocal, where Python gives a rounded float.
- Operators.DivValue: the quotient is exact, where Python divides in floating point; narrowing happens exactly when the exact quotient is whole.
- Values.PyEquals: two lists compare equal only when both are empty. This replaces Python's node-identity comparison, and is exact only because the two operands of `in` never share a node.
- `make_op` (main.py:346-352) is dead code and is not modelled.
- The abstract `Node.evaluate` (main.py:20-24) cannot be reached and is not modelled.
- The final `else: return 0` of `Comparison` (main.py:150-151) cannot be reached, because the comparison operators form a closed type.
- Recursion depth limits of the host language are not modelled: evaluation and parsing of any depth succeed.
- ParseLaws.ParsePrinted: the round trip covers the trees a line can denote, which the predicate `Printer.Printable` describes. Their numbers are non-negative, and their strings are non-empty and contain no `"` or `;`, as the lexer requires.
