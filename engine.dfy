/**
 * The engine's entry point: `evaluate` runs the tokenizer, the shunting-yard and the
 * postfix evaluator in turn. `Evaluation` is what it returns, as an expression tree
 * (or the EmptyStackException of popping an empty stack), and `Value` the number it
 * returns in a given arithmetic.
 *
 * The lemmas below read the pipeline end to end on families of inputs: operator
 * precedence and associativity, parentheses, the square-root prefix, unary minus,
 * the percent operator, and the lenient handling of malformed input.
 */
module Engine {
  import opened Lexicon
  import Tokenizer
  import Shunting
  import opened PostfixEval
  import opened Displays

  /** What `evaluate` returns for `expression`. */
  function Evaluation(expression: string): Outcome<Expr> {
    PostfixValue(Shunting.Postfix(Tokenizer.Tokens(expression)))
  }

  method Evaluate(expression: string) returns (r: Outcome<Expr>)
    ensures r == Evaluation(expression)
  {
    var tokens := Tokenizer.Tokenize(expression);
    var postfix := Shunting.ShuntingYard(tokens);
    r := EvaluatePostfix(postfix);
  }

  /** The number `evaluate` returns when the stack machine runs on values of `ar`. */
  function Value<V>(ar: Arithmetic<V>, expression: string): Outcome<V> {
    match NumRun(ar, [], Shunting.Postfix(Tokenizer.Tokens(expression)))
    case EmptyStack => EmptyStack
    case Ok(stack) => Ok(if stack != [] then Last(stack) else ar.zero)
  }

  /** The engine's number is the value of the tree, and both fail on the same inputs. */
  lemma ValueDenotes<V>(ar: Arithmetic<V>, expression: string)
    ensures Value(ar, expression) ==
      match Evaluation(expression)
      case EmptyStack => EmptyStack
      case Ok(e) => Ok(Denote(ar, e))
  {
    var postfix := Shunting.Postfix(Tokenizer.Tokens(expression));
    RunDenotes(ar, [], postfix);
    match Run([], postfix)
    case EmptyStack =>
    case Ok(stack) =>
      if stack != [] {
        DenoteAllInit(ar, stack);
      }
  }

  // ---------------------------------------------------------------------------
  // Tokens of simple inputs

  /** A character the engine applies as a binary operator. */
  predicate IsBinaryGlyph(o: char) {
    o == '+' || o == '-' || o == '*' || o == '/' || o == '^' || o == '%'
  }

  /** A non-empty run of ASCII digits: an unsigned integer literal. */
  predicate IsLiteral(d: string) {
    d != [] && IsDigits(d)
  }

  /** The operator applied for the binary glyph `o`. */
  function OpOf(o: char): (op: BinOp)
    requires IsBinaryGlyph(o)
    ensures BinOpOf([o]) == Some(op)
  {
    BinOpOf([o]).value
  }

  lemma GlyphFacts(o: char)
    requires IsBinaryGlyph(o)
    ensures IsOperator([o]) && !IsNumber([o]) && [o] != "sqrt" && [o] != "(" && [o] != ")"
    ensures !IsDigit(o) && o != '.' && o != SqrtGlyph && !IsWhitespace(o)
  {
    NumberIsNotSymbol([o]);
  }

  /** An emitted character after a pending number: the number, then the character. */
  lemma StepAfterNumber(ts: seq<Token>, d: string, g: char)
    requires IsNumber(d) && Tokenizer.IsPassedThrough(g)
    ensures Tokenizer.Step(Tokenizer.Lexer(ts, d), g) == Tokenizer.Lexer(ts + [d] + [[g]], [])
  {
    NumberIsNotSymbol(d);
    assert d != [] by { assert DigitCount(Unsigned(d)) >= 1; }
    assert Tokenizer.Flush(Tokenizer.Lexer(ts, d)) == ts + [d];
    assert Last(ts + [d]) == d;
  }

  /** An emitted character other than '-' with no number pending. */
  lemma StepWithoutNumber(ts: seq<Token>, g: char)
    requires Tokenizer.IsPassedThrough(g) && g != '-'
    ensures Tokenizer.Step(Tokenizer.Lexer(ts, []), g) == Tokenizer.Lexer(ts + [[g]], [])
  {
  }

  /** A binary glyph after a pending literal emits the literal, then the glyph. */
  lemma StepGlyph(ts: seq<Token>, d: string, o: char)
    requires IsNumber(d) && IsBinaryGlyph(o)
    ensures Tokenizer.Step(Tokenizer.Lexer(ts, d), o) == Tokenizer.Lexer(ts + [d] + [[o]], [])
  {
    GlyphFacts(o);
    StepAfterNumber(ts, d, o);
  }

  /** With no number pending, a literal followed by a binary glyph emits both. */
  lemma ScanLiteralGlyph(p: string, d: string, o: char)
    requires Tokenizer.Scan(p).buffer == [] && IsLiteral(d) && IsBinaryGlyph(o)
    ensures Tokenizer.Scan(p + d + [o]) == Tokenizer.Lexer(Tokenizer.Scan(p).tokens + [d] + [[o]], [])
  {
    DigitsAreNumbers(d);
    Tokenizer.ScanDigits(p, d);
    assert [] + d == d;
    Tokenizer.ScanSnoc(p + d, o);
    StepGlyph(Tokenizer.Scan(p).tokens, d, o);
  }

  /** With no number pending, a trailing literal is emitted as the last token. */
  lemma TokensLiteral(p: string, d: string)
    requires Tokenizer.Scan(p).buffer == [] && IsLiteral(d)
    ensures Tokenizer.Tokens(p + d) == Tokenizer.Scan(p).tokens + [d]
  {
    Tokenizer.ScanDigits(p, d);
    assert [] + d == d;
  }

  /** "a o1" scans to two tokens and an empty buffer. */
  lemma ScanFirstPair(a: string, o1: char)
    requires IsLiteral(a) && IsBinaryGlyph(o1)
    ensures Tokenizer.Scan(a + [o1]) == Tokenizer.Lexer([a, [o1]], [])
  {
    assert Tokenizer.Scan([]) == Tokenizer.Lexer([], []);
    ScanLiteralGlyph([], a, o1);
    assert [] + a + [o1] == a + [o1];
    assert [] + [a] + [[o1]] == [a, [o1]];
  }

  lemma TokensOfChain(a: string, o1: char, b: string, o2: char, c: string)
    requires IsLiteral(a) && IsLiteral(b) && IsLiteral(c) && IsBinaryGlyph(o1) && IsBinaryGlyph(o2)
    ensures Tokenizer.Tokens(a + [o1] + b + [o2] + c) == [a, [o1], b, [o2], c]
  {
    ScanFirstPair(a, o1);
    ScanLiteralGlyph(a + [o1], b, o2);
    assert [a, [o1]] + [b] + [[o2]] == [a, [o1], b, [o2]];
    TokensLiteral(a + [o1] + b + [o2], c);
    assert [a, [o1], b, [o2]] + [c] == [a, [o1], b, [o2], c];
  }

  // ---------------------------------------------------------------------------
  // Postfix of simple token lists

  /** A binary operator token: one the engine's `when` applies to two operands. */
  predicate IsBinaryToken(t: Token) {
    BinOpOf(t).Some?
  }

  lemma BinaryTokenFacts(t: Token)
    requires IsBinaryToken(t)
    ensures !IsNumber(t) && t != "(" && t != ")" && 1 <= Precedence(t)
  {
    NumberIsNotSymbol(t);
  }

  /** A number goes straight to the output. */
  lemma NumberToOutput(y: Shunting.Yard, t: Token, r: Shunting.Yard)
    requires IsNumber(t) && r == Shunting.Yard(y.output + [t], y.stack)
    ensures Shunting.Step(y, t) == r
  {
  }

  /** A binary operator above nothing of higher or equal precedence is pushed at once. */
  lemma OperatorPushed(y: Shunting.Yard, o: Token, r: Shunting.Yard)
    requires IsBinaryToken(o) && r == Shunting.Yard(y.output, y.stack + [o])
    requires y.stack == [] || Precedence(Last(y.stack)) < Precedence(o)
    ensures Shunting.Step(y, o) == r
  {
    BinaryTokenFacts(o);
    assert Shunting.PopHigher(y, Precedence(o)) == y;
  }

  /** A binary operator pops a lone stacked operator of higher or equal precedence first. */
  lemma OperatorPopsOne(y: Shunting.Yard, o: Token, r: Shunting.Yard)
    requires IsBinaryToken(o) && |y.stack| == 1 && IsOperator(y.stack[0])
    requires Precedence(y.stack[0]) >= Precedence(o)
    requires r == Shunting.Yard(y.output + [y.stack[0]], [o])
    ensures Shunting.Step(y, o) == r
  {
    BinaryTokenFacts(o);
    var m := Shunting.Move(y);
    assert m == Shunting.Yard(y.output + [y.stack[0]], []);
    assert Shunting.PopHigher(m, Precedence(o)) == m;
    assert [] + [o] == [o];
  }

  /** After "a o1": the number is out and the operator is stacked. */
  lemma ShuntFirstOperator(a: Token, o1: Token)
    requires IsNumber(a) && IsBinaryToken(o1)
    ensures Shunting.Shunt([a, o1]) == Shunting.Yard([a], [o1])
  {
    Shunting.ShuntSnoc([], a);
    assert [] + [a] == [a];
    NumberToOutput(Shunting.Yard([], []), a, Shunting.Yard([a], []));
    Shunting.ShuntSnoc([a], o1);
    assert [a] + [o1] == [a, o1];
    OperatorPushed(Shunting.Yard([a], []), o1, Shunting.Yard([a], [o1]));
  }

  /** After "a o1 b": both numbers are out and the operator is stacked. */
  lemma ShuntPrefix(a: Token, o1: Token, b: Token)
    requires IsNumber(a) && IsNumber(b) && IsBinaryToken(o1)
    ensures Shunting.Shunt([a, o1, b]) == Shunting.Yard([a, b], [o1])
  {
    ShuntFirstOperator(a, o1);
    Shunting.ShuntSnoc([a, o1], b);
    assert [a, o1] + [b] == [a, o1, b];
    NumberToOutput(Shunting.Yard([a], [o1]), b, Shunting.Yard([a, b], [o1]));
  }

  /** The fourth token: `o2` pops `o1` when it does not bind tighter, else stacks above it. */
  lemma ShuntSecondOperator(a: Token, o1: Token, b: Token, o2: Token)
    requires IsNumber(a) && IsNumber(b) && IsBinaryToken(o1) && IsBinaryToken(o2)
    ensures Shunting.Shunt([a, o1, b, o2]) ==
      if Precedence(o1) >= Precedence(o2) then Shunting.Yard([a, b, o1], [o2])
      else Shunting.Yard([a, b], [o1, o2])
  {
    ShuntPrefix(a, o1, b);
    Shunting.ShuntSnoc([a, o1, b], o2);
    assert [a, o1, b] + [o2] == [a, o1, b, o2];
    var y := Shunting.Yard([a, b], [o1]);
    if Precedence(o1) >= Precedence(o2) {
      assert [a, b] + [o1] == [a, b, o1];
      OperatorPopsOne(y, o2, Shunting.Yard([a, b, o1], [o2]));
    } else {
      assert [o1] + [o2] == [o1, o2];
      OperatorPushed(y, o2, Shunting.Yard([a, b], [o1, o2]));
    }
  }

  lemma ShuntChain(a: Token, o1: Token, b: Token, o2: Token, c: Token)
    requires IsNumber(a) && IsNumber(b) && IsNumber(c) && IsBinaryToken(o1) && IsBinaryToken(o2)
    ensures Shunting.Shunt([a, o1, b, o2, c]) ==
      if Precedence(o1) >= Precedence(o2) then Shunting.Yard([a, b, o1, c], [o2])
      else Shunting.Yard([a, b, c], [o1, o2])
  {
    ShuntSecondOperator(a, o1, b, o2);
    Shunting.ShuntSnoc([a, o1, b, o2], c);
    assert [a, o1, b, o2] + [c] == [a, o1, b, o2, c];
    assert [a, b, o1] + [c] == [a, b, o1, c];
    assert [a, b] + [c] == [a, b, c];
  }

  lemma PostfixChainLeft(a: Token, o1: Token, b: Token, o2: Token, c: Token)
    requires IsNumber(a) && IsNumber(b) && IsNumber(c) && IsBinaryToken(o1) && IsBinaryToken(o2)
    requires Precedence(o1) >= Precedence(o2)
    ensures Shunting.Postfix([a, o1, b, o2, c]) == [a, b, o1, c, o2]
  {
    ShuntChain(a, o1, b, o2, c);
    assert Shunting.Reversed([o2]) == [o2];
    assert [a, b, o1, c] + [o2] == [a, b, o1, c, o2];
  }

  lemma PostfixChainRight(a: Token, o1: Token, b: Token, o2: Token, c: Token)
    requires IsNumber(a) && IsNumber(b) && IsNumber(c) && IsBinaryToken(o1) && IsBinaryToken(o2)
    requires Precedence(o1) < Precedence(o2)
    ensures Shunting.Postfix([a, o1, b, o2, c]) == [a, b, c, o2, o1]
  {
    ShuntChain(a, o1, b, o2, c);
    assert Shunting.Reversed([o1, o2]) == [o2, o1] by {
      assert Init([o1, o2]) == [o1];
    }
    assert [a, b, c] + [o2, o1] == [a, b, c, o2, o1];
  }

  // ---------------------------------------------------------------------------
  // Evaluating simple postfix

  /** The loop consumes its first token, then runs on. */
  lemma RunCons(stack: seq<Expr>, t: Token, rest: seq<Token>)
    requires Step(stack, t).Ok?
    ensures Run(stack, [t] + rest) == Run(Step(stack, t).value, rest)
  {
    assert ([t] + rest)[0] == t && ([t] + rest)[1..] == rest;
  }

  /** A binary operator replaces the two values on top of the stack by one tree. */
  lemma ApplyOnTop(below: seq<Expr>, x: Expr, y: Expr, o: Token)
    requires IsBinaryToken(o)
    ensures Step(below + [x, y], o) == Ok(below + [Binary(BinOpOf(o).value, x, y)])
  {
    BinaryTokenFacts(o);
    var stack := below + [x, y];
    assert Init(stack) == below + [x] && Last(stack) == y;
    assert Init(below + [x]) == below && Last(below + [x]) == x;
  }

  /** A run through two successful steps. */
  lemma RunTwo(s0: seq<Expr>, t1: Token, s1: seq<Expr>, t2: Token, s2: seq<Expr>)
    requires Step(s0, t1) == Ok(s1) && Step(s1, t2) == Ok(s2)
    ensures Run(s0, [t1, t2]) == Ok(s2)
  {
    assert [t2] == [t2] + [];
    RunCons(s1, t2, []);
    assert [t1, t2] == [t1] + [t2];
    RunCons(s0, t1, [t2]);
  }

  /** A run through three successful steps. */
  lemma RunThree(s0: seq<Expr>, t1: Token, s1: seq<Expr>, t2: Token, s2: seq<Expr>, t3: Token, s3: seq<Expr>)
    requires Step(s0, t1) == Ok(s1) && Step(s1, t2) == Ok(s2) && Step(s2, t3) == Ok(s3)
    ensures Run(s0, [t1, t2, t3]) == Ok(s3)
  {
    RunTwo(s1, t2, s2, t3, s3);
    assert [t1, t2, t3] == [t1] + [t2, t3];
    RunCons(s0, t1, [t2, t3]);
  }

  /** Pushing a literal on a stack given element by element. */
  lemma PushOnto(xs: seq<Expr>, a: Token, r: seq<Expr>)
    requires IsNumber(a) && r == xs + [Literal(a)]
    ensures Step(xs, a) == Ok(r)
  {
  }

  /** Applying a binary operator to a stack given element by element. */
  lemma ApplyOnto(below: seq<Expr>, x: Expr, y: Expr, o: Token, stack: seq<Expr>, r: seq<Expr>)
    requires IsBinaryToken(o) && stack == below + [x, y] && r == below + [Binary(BinOpOf(o).value, x, y)]
    ensures Step(stack, o) == Ok(r)
  {
    ApplyOnTop(below, x, y, o);
  }

  /** "a b o" on top of any stack leaves `a o b` there. */
  lemma RunPairOn(below: seq<Expr>, a: Token, o: Token, b: Token)
    requires IsNumber(a) && IsNumber(b) && IsBinaryToken(o)
    ensures Run(below, [a, b, o]) == Ok(below + [Binary(BinOpOf(o).value, Literal(a), Literal(b))])
  {
    var la, lb := Literal(a), Literal(b);
    var x := Binary(BinOpOf(o).value, la, lb);
    PushOnto(below, a, below + [la]);
    assert below + [la] + [lb] == below + [la, lb];
    PushOnto(below + [la], b, below + [la, lb]);
    ApplyOnto(below, la, lb, o, below + [la, lb], below + [x]);
    RunThree(below, a, below + [la], b, below + [la, lb], o, below + [x]);
  }

  /** "c o" on a lone value `x` leaves `x o c`. */
  lemma RunPushApply(x: Expr, c: Token, o: Token)
    requires IsNumber(c) && IsBinaryToken(o)
    ensures Run([x], [c, o]) == Ok([Binary(BinOpOf(o).value, x, Literal(c))])
  {
    var lc := Literal(c);
    PushOnto([x], c, [x, lc]);
    assert [] + [x, lc] == [x, lc];
    ApplyOnto([], x, lc, o, [x, lc], [Binary(BinOpOf(o).value, x, lc)]);
    RunTwo([x], c, [x, lc], o, [Binary(BinOpOf(o).value, x, lc)]);
  }

  /** "a b o" on an empty stack leaves `a o b` alone. */
  lemma RunPair(a: Token, o: Token, b: Token)
    requires IsNumber(a) && IsNumber(b) && IsBinaryToken(o)
    ensures Run([], [a, b, o]) == Ok([Binary(BinOpOf(o).value, Literal(a), Literal(b))])
  {
    RunPairOn([], a, o, b);
    assert [] + [Binary(BinOpOf(o).value, Literal(a), Literal(b))] == [Binary(BinOpOf(o).value, Literal(a), Literal(b))];
  }

  /** A run followed by one more successful step. */
  lemma RunThenStep(s0: seq<Expr>, p: seq<Token>, s1: seq<Expr>, t: Token, s2: seq<Expr>)
    requires Run(s0, p) == Ok(s1) && Step(s1, t) == Ok(s2)
    ensures Run(s0, p + [t]) == Ok(s2)
  {
    RunAppend(s0, p, [t]);
    assert [t] == [t] + [];
    RunCons(s1, t, []);
  }

  lemma RunChainLeft(a: Token, o1: Token, b: Token, o2: Token, c: Token)
    requires IsNumber(a) && IsNumber(b) && IsNumber(c) && IsBinaryToken(o1) && IsBinaryToken(o2)
    ensures PostfixValue([a, b, o1, c, o2]) ==
      Ok(Binary(BinOpOf(o2).value, Binary(BinOpOf(o1).value, Literal(a), Literal(b)), Literal(c)))
  {
    var x := Binary(BinOpOf(o1).value, Literal(a), Literal(b));
    RunPairOn([], a, o1, b);
    assert [] + [x] == [x];
    RunPushApply(x, c, o2);
    RunAppend([], [a, b, o1], [c, o2]);
    assert [a, b, o1] + [c, o2] == [a, b, o1, c, o2];
  }

  /** "b c o2 o1" on a lone value `la` leaves `la o1 (b o2 c)`. */
  lemma RunRightTail(la: Expr, b: Token, o2: Token, c: Token, o1: Token)
    requires IsNumber(b) && IsNumber(c) && IsBinaryToken(o1) && IsBinaryToken(o2)
    ensures Run([la], [b, c, o2, o1]) ==
      Ok([Binary(BinOpOf(o1).value, la, Binary(BinOpOf(o2).value, Literal(b), Literal(c)))])
  {
    var x := Binary(BinOpOf(o2).value, Literal(b), Literal(c));
    var y := Binary(BinOpOf(o1).value, la, x);
    RunPairOn([la], b, o2, c);
    Snoc1(la, x);
    assert [] + [la, x] == [la, x] && [] + [y] == [y];
    ApplyOnto([], la, x, o1, [la, x], [y]);
    RunThenStep([la], [b, c, o2], [la, x], o1, [y]);
    Snoc3(b, c, o2, o1);
  }

  lemma RunChainRight(a: Token, o1: Token, b: Token, o2: Token, c: Token)
    requires IsNumber(a) && IsNumber(b) && IsNumber(c) && IsBinaryToken(o1) && IsBinaryToken(o2)
    ensures PostfixValue([a, b, c, o2, o1]) ==
      Ok(Binary(BinOpOf(o1).value, Literal(a), Binary(BinOpOf(o2).value, Literal(b), Literal(c))))
  {
    var la := Literal(a);
    RunRightTail(la, b, o2, c, o1);
    assert [] + [la] == [la];
    PushOnto([], a, [la]);
    RunCons([], a, [b, c, o2, o1]);
    Cons4(a, b, c, o2, o1);
  }

  /**
   * Precedence and left associativity: in "a o1 b o2 c" the first operator is applied
   * first when its precedence is at least the second's ("8-3-2" is (8-3)-2, "2^3^2" is
   * (2^3)^2), and the second first otherwise ("2+3*4" is 2+(3*4)).
   */
  lemma Grouping(a: string, o1: char, b: string, o2: char, c: string)
    requires IsLiteral(a) && IsLiteral(b) && IsLiteral(c) && IsBinaryGlyph(o1) && IsBinaryGlyph(o2)
    ensures Evaluation(a + [o1] + b + [o2] + c) ==
      if Precedence([o1]) >= Precedence([o2]) then
        Ok(Binary(OpOf(o2), Binary(OpOf(o1), Literal(a), Literal(b)), Literal(c)))
      else
        Ok(Binary(OpOf(o1), Literal(a), Binary(OpOf(o2), Literal(b), Literal(c))))
  {
    DigitsAreNumbers(a);
    DigitsAreNumbers(b);
    DigitsAreNumbers(c);
    GlyphFacts(o1);
    GlyphFacts(o2);
    TokensOfChain(a, o1, b, o2, c);
    if Precedence([o1]) >= Precedence([o2]) {
      PostfixChainLeft(a, [o1], b, [o2], c);
      RunChainLeft(a, [o1], b, [o2], c);
    } else {
      PostfixChainRight(a, [o1], b, [o2], c);
      RunChainRight(a, [o1], b, [o2], c);
    }
  }

  /** A binary operator over a single value takes 0.0 as its left operand. */
  lemma ApplyToLone(x: Expr, o: Token)
    requires IsBinaryToken(o)
    ensures Step([x], o) == Ok([Binary(BinOpOf(o).value, Zero, x)])
  {
    BinaryTokenFacts(o);
    assert Init([x]) == [] && Last([x]) == x;
    var r := Binary(BinOpOf(o).value, Zero, x);
    assert [] + [r] == [r];
  }

  /** Three tokens "a o b" with number operands evaluate to one application. */
  lemma EvaluateTriple(a: Token, o: Token, b: Token)
    requires IsNumber(a) && IsNumber(b) && IsBinaryToken(o)
    ensures PostfixValue(Shunting.Postfix([a, o, b])) == Ok(Binary(BinOpOf(o).value, Literal(a), Literal(b)))
  {
    ShuntPrefix(a, o, b);
    assert Shunting.Reversed([o]) == [o];
    assert [a, b] + [o] == [a, b, o];
    RunPair(a, o, b);
  }

  // ---------------------------------------------------------------------------
  // Families of inputs, end to end

  /** `evaluate("")` is 0.0: no tokens, no postfix, an empty stack. */
  lemma EmptyExpression()
    ensures Evaluation([]) == Ok(Zero)
  {
    assert Tokenizer.Tokens([]) == [];
    assert Shunting.Postfix([]) == [];
  }

  /** One binary operation between two literals, e.g. "2+3". */
  lemma SingleOperation(a: string, o: char, b: string)
    requires IsLiteral(a) && IsLiteral(b) && IsBinaryGlyph(o)
    ensures Evaluation(a + [o] + b) == Ok(Binary(OpOf(o), Literal(a), Literal(b)))
  {
    DigitsAreNumbers(a);
    DigitsAreNumbers(b);
    GlyphFacts(o);
    ScanFirstPair(a, o);
    TokensLiteral(a + [o], b);
    assert [a, [o]] + [b] == [a, [o], b];
    EvaluateTriple(a, [o], b);
  }

  /**
   * A character that is neither part of a number, an operator, a parenthesis nor the
   * square-root glyph: whitespace, or a glyph such as the "×" and "÷" of the keypad.
   */
  predicate IsStray(g: char) {
    !IsDigit(g) && g != '.' && g != SqrtGlyph && !IsBinaryGlyph(g) && g != '(' && g != ')'
  }

  lemma StrayFacts(g: char)
    requires IsStray(g)
    ensures !IsNumber([g]) && !IsOperator([g]) && [g] != "sqrt" && [g] != "(" && [g] != ")"
  {
    assert DigitCount(Unsigned([g])) == 0;
  }

  /** A literal scans into the number buffer. */
  lemma ScanLiteral(a: string)
    requires IsLiteral(a)
    ensures Tokenizer.Scan(a) == Tokenizer.Lexer([], a)
  {
    var empty: string := [];
    assert Tokenizer.Scan(empty) == Tokenizer.Lexer([], []);
    Tokenizer.ScanDigits(empty, a);
    assert empty + a == a;
  }

  /** After a literal, whitespace flushes the number and is dropped. */
  lemma ScanLiteralSpace(a: string, w: char)
    requires IsLiteral(a) && IsWhitespace(w)
    ensures Tokenizer.Scan(a + [w]) == Tokenizer.Lexer([a], [])
  {
    ScanLiteral(a);
    Tokenizer.ScanSnoc(a, w);
  }

  /** After a literal, an emitted character flushes the number and follows it. */
  lemma ScanLiteralEmitted(a: string, g: char)
    requires IsLiteral(a) && Tokenizer.IsPassedThrough(g)
    ensures Tokenizer.Scan(a + [g]) == Tokenizer.Lexer([a, [g]], [])
  {
    var st := Tokenizer.Lexer([], a);
    assert Tokenizer.Scan(a + [g]) == Tokenizer.Step(st, g) by {
      ScanLiteral(a);
      Tokenizer.ScanSnoc(a, g);
    }
    assert Tokenizer.Step(st, g) == Tokenizer.Lexer([a, [g]], []) by {
      DigitsAreNumbers(a);
      StepAfterNumber([], a, g);
      assert [] + [a] + [[g]] == [a, [g]];
    }
  }

  /** The tokens of "a g b": the stray character is kept unless it is whitespace. */
  lemma TokensAroundStray(a: string, g: char, b: string)
    requires IsLiteral(a) && IsLiteral(b) && IsStray(g)
    ensures Tokenizer.Tokens(a + [g] + b) == if IsWhitespace(g) then [a, b] else [a, [g], b]
  {
    if IsWhitespace(g) {
      ScanLiteralSpace(a, g);
      TokensLiteral(a + [g], b);
    } else {
      ScanLiteralEmitted(a, g);
      TokensLiteral(a + [g], b);
    }
  }

  /** The shunting-yard passes two numbers through and drops a stray token between them. */
  lemma PostfixAroundStray(a: Token, g: char, b: Token)
    requires IsNumber(a) && IsNumber(b) && IsStray(g)
    ensures Shunting.Postfix([a, b]) == [a, b] && Shunting.Postfix([a, [g], b]) == [a, b]
  {
    StrayFacts(g);
    var y1 := Shunting.Yard([a], []);
    Shunting.ShuntSnoc([], a);
    assert [] + [a] == [a];
    NumberToOutput(Shunting.Yard([], []), a, y1);
    Shunting.ShuntSnoc([a], b);
    NumberToOutput(y1, b, Shunting.Yard([a, b], []));
    Shunting.ShuntSnoc([a], [g]);
    assert Shunting.Step(y1, [g]) == y1;
    Shunting.ShuntSnoc([a, [g]], b);
    assert [a, [g]] + [b] == [a, [g], b];
  }

  /**
   * A stray character between two literals is dropped, and the evaluator returns the top
   * of the stack: "2 3" evaluates to 3, and so does "2×3", since the keypad's "×" is not
   * turned into "*" before the engine sees it.
   */
  lemma StrayCharacter(a: string, g: char, b: string)
    requires IsLiteral(a) && IsLiteral(b) && IsStray(g)
    ensures Evaluation(a + [g] + b) == Ok(Literal(b))
  {
    DigitsAreNumbers(a);
    DigitsAreNumbers(b);
    TokensAroundStray(a, g, b);
    PostfixAroundStray(a, g, b);
    var la, lb := Literal(a), Literal(b);
    PushOnto([], a, [la]);
    PushOnto([la], b, [la, lb]);
    RunTwo([], a, [la], b, [la, lb]);
  }

  /** "(" with nothing pending is emitted as a token. */
  lemma ScanOpen(p: string)
    requires Tokenizer.Scan(p).buffer == []
    ensures Tokenizer.Scan(p + "(") == Tokenizer.Lexer(Tokenizer.Scan(p).tokens + ["("], [])
  {
    Tokenizer.ScanSnoc(p, '(');
    StepWithoutNumber(Tokenizer.Scan(p).tokens, '(');
  }

  lemma TokensUnclosed(a: string, o: char, b: string)
    requires IsLiteral(a) && IsLiteral(b) && IsBinaryGlyph(o)
    ensures Tokenizer.Tokens("(" + a + [o] + b) == ["(", a, [o], b]
  {
    assert Tokenizer.Scan([]) == Tokenizer.Lexer([], []);
    ScanOpen([]);
    assert [] + "(" == "(";
    ScanLiteralGlyph("(", a, o);
    TokensLiteral("(" + a + [o], b);
    assert [] + ["("] + [a] + [[o]] + [b] == ["(", a, [o], b];
  }

  /** After "( a": the number is out and the "(" is stacked. */
  lemma ShuntOpenLiteral(a: Token)
    requires IsNumber(a)
    ensures Shunting.Shunt(["(", a]) == Shunting.Yard([a], ["("])
  {
    NumberIsNotSymbol("(");
    Shunting.ShuntSnoc([], "(");
    assert [] + ["("] == ["("];
    assert Shunting.Shunt(["("]) == Shunting.Yard([], ["("]);
    Shunting.ShuntSnoc(["("], a);
    NumberToOutput(Shunting.Yard([], ["("]), a, Shunting.Yard([a], ["("]));
  }

  /** After "( a o": the operator is stacked above the "(" without popping it. */
  lemma ShuntOpenOperator(a: Token, o: Token)
    requires IsNumber(a) && IsBinaryToken(o)
    ensures Shunting.Shunt(["(", a, o]) == Shunting.Yard([a], ["(", o])
  {
    ShuntOpenLiteral(a);
    Shunting.ShuntSnoc(["(", a], o);
    Snoc2("(", a, o);
    Snoc1("(", o);
    ParenPrecedence();
    BinaryTokenFacts(o);
    assert Last(["("]) == "(";
    OperatorPushed(Shunting.Yard([a], ["("]), o, Shunting.Yard([a], ["(", o]));
  }

  lemma PostfixUnclosed(a: Token, o: Token, b: Token)
    requires IsNumber(a) && IsNumber(b) && IsBinaryToken(o)
    ensures Shunting.Postfix(["(", a, o, b]) == [a, b, o, "("]
  {
    var y4 := Shunting.Yard([a, b], ["(", o]);
    assert Shunting.Shunt(["(", a, o, b]) == y4 by {
      ShuntOpenOperator(a, o);
      Shunting.ShuntSnoc(["(", a, o], b);
      NumberToOutput(Shunting.Yard([a], ["(", o]), b, y4);
      assert ["(", a, o] + [b] == ["(", a, o, b];
    }
    assert Shunting.Reversed(["(", o]) == [o, "("] by {
      assert Init(["(", o]) == ["("];
    }
  }

  /** A "(" that reaches the evaluator pops its operand and pushes nothing. */
  lemma OpenParenPopsOne(x: Expr)
    ensures Step([x], "(") == Ok([])
  {
    NumberIsNotSymbol("(");
    assert Init([x]) == [];
  }

  /** The evaluator on "a b o (": the "(" pops the result and pushes nothing. */
  lemma RunUnclosed(a: Token, o: Token, b: Token)
    requires IsNumber(a) && IsNumber(b) && IsBinaryToken(o)
    ensures PostfixValue([a, b, o, "("]) == Ok(Zero)
  {
    var x := Binary(BinOpOf(o).value, Literal(a), Literal(b));
    RunPair(a, o, b);
    OpenParenPopsOne(x);
    RunThenStep([], [a, b, o], [x], "(", []);
    Snoc3(a, b, o, "(");
  }

  /**
   * An unmatched "(" reaches the evaluator, where it pops the value computed so far and
   * pushes nothing, so "(2+3" evaluates to 0.0.
   */
  lemma UnclosedParenthesis(a: string, o: char, b: string)
    requires IsLiteral(a) && IsLiteral(b) && IsBinaryGlyph(o)
    ensures Evaluation("(" + a + [o] + b) == Ok(Zero)
  {
    DigitsAreNumbers(a);
    DigitsAreNumbers(b);
    GlyphFacts(o);
    TokensUnclosed(a, o, b);
    PostfixUnclosed(a, [o], b);
    RunUnclosed(a, [o], b);
  }

  /** ")" pops the operator above the matching "(" and discards the "(". */
  lemma CloseParen(y: Shunting.Yard, below: seq<Token>, o: Token, r: Shunting.Yard)
    requires y.stack == below + ["(", o] && o != "(" && r == Shunting.Yard(y.output + [o], below)
    ensures Shunting.Step(y, ")") == r
  {
    NumberIsNotSymbol(")");
    var m := Shunting.Move(y);
    assert Init(y.stack) == below + ["("] && Last(y.stack) == o;
    assert m == Shunting.Yard(y.output + [o], below + ["("]);
    assert Shunting.PopToParen(y) == m;
    assert Init(below + ["("]) == below;
  }

  /** Reading one more token whose step is known. */
  lemma ShuntNext(ts: seq<Token>, t: Token, y: Shunting.Yard, r: Shunting.Yard)
    requires Shunting.Shunt(ts) == y && Shunting.Step(y, t) == r
    ensures Shunting.Shunt(ts + [t]) == r
  {
    Shunting.ShuntSnoc(ts, t);
  }

  lemma ScanParenthesisedOpen(a: string, o1: char, b: string, o2: char)
    requires IsLiteral(a) && IsLiteral(b) && IsBinaryGlyph(o1) && IsBinaryGlyph(o2)
    ensures Tokenizer.Scan(a + [o1] + "(" + b + [o2]) == Tokenizer.Lexer([a, [o1], "(", b, [o2]], [])
  {
    var p1 := a + [o1] + "(";
    assert Tokenizer.Scan(p1) == Tokenizer.Lexer([a, [o1], "("], []) by {
      ScanFirstPair(a, o1);
      ScanOpen(a + [o1]);
      assert [a, [o1]] + ["("] == [a, [o1], "("];
    }
    ScanLiteralGlyph(p1, b, o2);
    assert [a, [o1], "("] + [b] + [[o2]] == [a, [o1], "(", b, [o2]];
  }

  /** A literal then ")" with nothing pending: both are emitted. */
  lemma TokensLiteralClose(p: string, c: string)
    requires Tokenizer.Scan(p).buffer == [] && IsLiteral(c)
    ensures Tokenizer.Tokens(p + c + ")") == Tokenizer.Scan(p).tokens + [c] + [")"]
  {
    DigitsAreNumbers(c);
    Tokenizer.ScanDigits(p, c);
    assert [] + c == c;
    Tokenizer.ScanSnoc(p + c, ')');
    StepAfterNumber(Tokenizer.Scan(p).tokens, c, ')');
  }

  lemma TokensParenthesised(a: string, o1: char, b: string, o2: char, c: string)
    requires IsLiteral(a) && IsLiteral(b) && IsLiteral(c) && IsBinaryGlyph(o1) && IsBinaryGlyph(o2)
    ensures Tokenizer.Tokens(a + [o1] + "(" + b + [o2] + c + ")") == [a, [o1], "(", b, [o2], c, ")"]
  {
    ScanParenthesisedOpen(a, o1, b, o2);
    TokensLiteralClose(a + [o1] + "(" + b + [o2], c);
    assert [a, [o1], "(", b, [o2]] + [c] + [")"] == [a, [o1], "(", b, [o2], c, ")"];
  }

  lemma ShuntParenthesisedOpen(a: Token, o1: Token, b: Token, o2: Token)
    requires IsNumber(a) && IsNumber(b) && IsBinaryToken(o1) && IsBinaryToken(o2)
    ensures Shunting.Shunt([a, o1, "(", b, o2]) == Shunting.Yard([a, b], [o1, "(", o2])
  {
    NumberIsNotSymbol("(");
    var y3 := Shunting.Yard([a], [o1, "("]);
    var y4 := Shunting.Yard([a, b], [o1, "("]);
    assert Shunting.Shunt([a, o1, "("]) == y3 by {
      ShuntFirstOperator(a, o1);
      Snoc1(o1, "(");
      ShuntNext([a, o1], "(", Shunting.Yard([a], [o1]), y3);
      Snoc2(a, o1, "(");
    }
    assert Shunting.Shunt([a, o1, "(", b]) == y4 by {
      Snoc1(a, b);
      NumberToOutput(y3, b, y4);
      ShuntNext([a, o1, "("], b, y3, y4);
      Snoc3(a, o1, "(", b);
    }
    Snoc2(o1, "(", o2);
    assert Last([o1, "("]) == "(";
    ParenPrecedence();
    BinaryTokenFacts(o2);
    OperatorPushed(y4, o2, Shunting.Yard([a, b], [o1, "(", o2]));
    ShuntNext([a, o1, "(", b], o2, y4, Shunting.Yard([a, b], [o1, "(", o2]));
    Snoc4(a, o1, "(", b, o2);
  }

  lemma ShuntParenthesisedInner(a: Token, o1: Token, b: Token, o2: Token, c: Token)
    requires IsNumber(a) && IsNumber(b) && IsNumber(c) && IsBinaryToken(o1) && IsBinaryToken(o2)
    ensures Shunting.Shunt([a, o1, "(", b, o2, c]) == Shunting.Yard([a, b, c], [o1, "(", o2])
  {
    var y5 := Shunting.Yard([a, b], [o1, "(", o2]);
    var y6 := Shunting.Yard([a, b, c], [o1, "(", o2]);
    ShuntParenthesisedOpen(a, o1, b, o2);
    NumberToOutput(y5, c, y6);
    ShuntNext([a, o1, "(", b, o2], c, y5, y6);
    assert [a, o1, "(", b, o2] + [c] == [a, o1, "(", b, o2, c];
  }

  lemma PostfixParenthesised(a: Token, o1: Token, b: Token, o2: Token, c: Token)
    requires IsNumber(a) && IsNumber(b) && IsNumber(c) && IsBinaryToken(o1) && IsBinaryToken(o2)
    ensures Shunting.Postfix([a, o1, "(", b, o2, c, ")"]) == [a, b, c, o2, o1]
  {
    var y6 := Shunting.Yard([a, b, c], [o1, "(", o2]);
    var y7 := Shunting.Yard([a, b, c, o2], [o1]);
    assert Shunting.Shunt([a, o1, "(", b, o2, c, ")"]) == y7 by {
      ShuntParenthesisedInner(a, o1, b, o2, c);
      BinaryTokenFacts(o2);
      Cons2(o1, "(", o2);
      Snoc3(a, b, c, o2);
      CloseParen(y6, [o1], o2, y7);
      ShuntNext([a, o1, "(", b, o2, c], ")", y6, y7);
      Snoc6(a, o1, "(", b, o2, c, ")");
    }
    assert Shunting.Reversed([o1]) == [o1];
    Snoc4(a, b, c, o2, o1);
  }

  /**
   * Parentheses override precedence: in "a o1 (b o2 c)" the parenthesised operation is
   * applied first, whatever the two operators are.
   */
  lemma Parenthesised(a: string, o1: char, b: string, o2: char, c: string)
    requires IsLiteral(a) && IsLiteral(b) && IsLiteral(c) && IsBinaryGlyph(o1) && IsBinaryGlyph(o2)
    ensures Evaluation(a + [o1] + "(" + b + [o2] + c + ")") ==
      Ok(Binary(OpOf(o1), Literal(a), Binary(OpOf(o2), Literal(b), Literal(c))))
  {
    DigitsAreNumbers(a);
    DigitsAreNumbers(b);
    DigitsAreNumbers(c);
    GlyphFacts(o1);
    GlyphFacts(o2);
    TokensParenthesised(a, o1, b, o2, c);
    PostfixParenthesised(a, [o1], b, [o2], c);
    RunChainRight(a, [o1], b, [o2], c);
  }

  lemma TokensSqrtPrefix(a: string, o: char, b: string)
    requires IsLiteral(a) && IsLiteral(b) && IsBinaryGlyph(o)
    ensures Tokenizer.Tokens([SqrtGlyph] + a + [o] + b) == ["sqrt", a, [o], b]
  {
    assert Tokenizer.Scan([SqrtGlyph]) == Tokenizer.Lexer(["sqrt"], []) by {
      Tokenizer.ScanSnoc([], SqrtGlyph);
      assert [] + [SqrtGlyph] == [SqrtGlyph];
      assert Tokenizer.Scan([]) == Tokenizer.Lexer([], []);
    }
    ScanLiteralGlyph([SqrtGlyph], a, o);
    TokensLiteral([SqrtGlyph] + a + [o], b);
    assert ["sqrt"] + [a] + [[o]] + [b] == ["sqrt", a, [o], b];
  }

  lemma ShuntSqrtLiteral(a: Token)
    requires IsNumber(a)
    ensures Shunting.Shunt(["sqrt", a]) == Shunting.Yard([a], ["sqrt"])
  {
    NumberIsNotSymbol("sqrt");
    var y1 := Shunting.Yard([], ["sqrt"]);
    assert [] + ["sqrt"] == ["sqrt"];
    ShuntNext([], "sqrt", Shunting.Yard([], []), y1);
    assert [] + [a] == [a];
    NumberToOutput(y1, a, Shunting.Yard([a], ["sqrt"]));
    Snoc1("sqrt", a);
    ShuntNext(["sqrt"], a, y1, Shunting.Yard([a], ["sqrt"]));
  }

  /** After "sqrt a o": the operator has popped "sqrt" into the output. */
  lemma ShuntSqrtOperator(a: Token, o: Token)
    requires IsNumber(a) && IsBinaryToken(o)
    ensures Shunting.Shunt(["sqrt", a, o]) == Shunting.Yard([a, "sqrt"], [o])
  {
    var y2 := Shunting.Yard([a], ["sqrt"]);
    var y3 := Shunting.Yard([a, "sqrt"], [o]);
    ShuntSqrtLiteral(a);
    Snoc1(a, "sqrt");
    OperatorPopsOne(y2, o, y3);
    ShuntNext(["sqrt", a], o, y2, y3);
    Snoc2("sqrt", a, o);
  }

  lemma PostfixSqrtPrefix(a: Token, o: Token, b: Token)
    requires IsNumber(a) && IsNumber(b) && IsBinaryToken(o)
    ensures Shunting.Postfix(["sqrt", a, o, b]) == [a, "sqrt", b, o]
  {
    var y3 := Shunting.Yard([a, "sqrt"], [o]);
    var y4 := Shunting.Yard([a, "sqrt", b], [o]);
    assert Shunting.Shunt(["sqrt", a, o, b]) == y4 by {
      ShuntSqrtOperator(a, o);
      NumberToOutput(y3, b, y4);
      ShuntNext(["sqrt", a, o], b, y3, y4);
      assert ["sqrt", a, o] + [b] == ["sqrt", a, o, b];
    }
    assert Shunting.Reversed([o]) == [o];
  }

  /** "sqrt" replaces a lone value by its square root. */
  lemma SqrtOfLone(x: Expr)
    ensures Step([x], "sqrt") == Ok([Sqrt(x)])
  {
    NumberIsNotSymbol("sqrt");
    assert Init([x]) == [];
    assert [] + [Sqrt(x)] == [Sqrt(x)];
  }

  lemma RunSqrtPrefix(a: Token, o: Token, b: Token)
    requires IsNumber(a) && IsNumber(b) && IsBinaryToken(o)
    ensures PostfixValue([a, "sqrt", b, o]) == Ok(Binary(BinOpOf(o).value, Sqrt(Literal(a)), Literal(b)))
  {
    var la := Literal(a);
    var x := Sqrt(la);
    assert Run([], [a, "sqrt"]) == Ok([x]) by {
      assert [] + [la] == [la];
      PushOnto([], a, [la]);
      SqrtOfLone(la);
      RunTwo([], a, [la], "sqrt", [x]);
    }
    RunPushApply(x, b, o);
    RunAppend([], [a, "sqrt"], [b, o]);
    assert [a, "sqrt"] + [b, o] == [a, "sqrt", b, o];
  }

  /** The square root binds tighter than any binary operator: "√9+1" is (√9)+1. */
  lemma SqrtPrefix(a: string, o: char, b: string)
    requires IsLiteral(a) && IsLiteral(b) && IsBinaryGlyph(o)
    ensures Evaluation([SqrtGlyph] + a + [o] + b) == Ok(Binary(OpOf(o), Sqrt(Literal(a)), Literal(b)))
  {
    DigitsAreNumbers(a);
    DigitsAreNumbers(b);
    GlyphFacts(o);
    TokensSqrtPrefix(a, o, b);
    PostfixSqrtPrefix(a, [o], b);
    RunSqrtPrefix(a, [o], b);
  }

  lemma TokensNegativeOperand(a: string, o: char, b: string)
    requires IsLiteral(a) && IsLiteral(b) && IsBinaryGlyph(o)
    ensures Tokenizer.Tokens(a + [o] + "-" + b) == [a, [o], "-" + b]
  {
    var p := a + [o] + "-";
    assert Tokenizer.Scan(p) == Tokenizer.Lexer([a, [o]], "-") by {
      ScanFirstPair(a, o);
      Tokenizer.ScanSnoc(a + [o], '-');
      GlyphFacts(o);
      assert Last([a, [o]]) == [o];
    }
    Tokenizer.ScanDigits(p, b);
    assert [a, [o]] + ["-" + b] == [a, [o], "-" + b];
  }

  /** A '-' right after an operator starts a negative literal: "3*-2" is 3 * (-2). */
  lemma NegativeOperand(a: string, o: char, b: string)
    requires IsLiteral(a) && IsLiteral(b) && IsBinaryGlyph(o)
    ensures Evaluation(a + [o] + "-" + b) == Ok(Binary(OpOf(o), Literal(a), Literal("-" + b)))
  {
    DigitsAreNumbers(a);
    DigitsAreNumbers(b);
    GlyphFacts(o);
    TokensNegativeOperand(a, o, b);
    EvaluateTriple(a, [o], "-" + b);
  }

  lemma ScanLeadingMinus(a: string)
    requires IsLiteral(a)
    ensures Tokenizer.Scan("-" + a) == Tokenizer.Lexer([], "-" + a)
  {
    assert Tokenizer.Scan("-") == Tokenizer.Lexer([], "-") by {
      Tokenizer.ScanSnoc([], '-');
      assert [] + "-" == "-";
    }
    Tokenizer.ScanDigits("-", a);
  }

  lemma TokensLeadingMinus(a: string, o: char, b: string)
    requires IsLiteral(a) && IsLiteral(b) && IsBinaryGlyph(o)
    ensures Tokenizer.Tokens("-" + a + [o] + b) == ["-" + a, [o], b]
  {
    var m := "-" + a;
    var p := m + [o];
    var empty: seq<Token> := [];
    assert Tokenizer.Scan(p) == Tokenizer.Lexer([m, [o]], []) by {
      ScanLeadingMinus(a);
      DigitsAreNumbers(a);
      Tokenizer.ScanSnoc(m, o);
      StepGlyph(empty, m, o);
      assert empty + [m] == [m];
      Snoc1(m, [o]);
    }
    TokensLiteral(p, b);
    Snoc2(m, [o], b);
  }

  /** A '-' at the start of the expression starts a negative literal: "-5+3" is (-5) + 3. */
  lemma LeadingMinus(a: string, o: char, b: string)
    requires IsLiteral(a) && IsLiteral(b) && IsBinaryGlyph(o)
    ensures Evaluation("-" + a + [o] + b) == Ok(Binary(OpOf(o), Literal("-" + a), Literal(b)))
  {
    DigitsAreNumbers(a);
    DigitsAreNumbers(b);
    GlyphFacts(o);
    TokensLeadingMinus(a, o, b);
    EvaluateTriple("-" + a, [o], b);
  }

  lemma TokensTrailingPercent(a: string, o: char, b: string)
    requires IsLiteral(a) && IsLiteral(b) && IsBinaryGlyph(o)
    ensures Tokenizer.Tokens(a + [o] + b + "%") == [a, [o], b, "%"]
  {
    ScanFirstPair(a, o);
    ScanLiteralGlyph(a + [o], b, '%');
    assert [a, [o]] + [b] + ["%"] == [a, [o], b, "%"];
  }

  lemma PostfixPercentAfter(a: Token, o: Token, b: Token)
    requires IsNumber(a) && IsNumber(b) && IsBinaryToken(o) && Precedence(o) >= 2
    ensures Shunting.Postfix([a, o, b, "%"]) == [a, b, o, "%"]
  {
    BinaryTokenFacts(o);
    ShuntSecondOperator(a, o, b, "%");
    assert Shunting.Reversed(["%"]) == ["%"];
    Snoc3(a, b, o, "%");
  }

  lemma PostfixPercentBefore(a: Token, o: Token, b: Token)
    requires IsNumber(a) && IsNumber(b) && IsBinaryToken(o) && Precedence(o) < 2
    ensures Shunting.Postfix([a, o, b, "%"]) == [a, b, "%", o]
  {
    BinaryTokenFacts(o);
    ShuntSecondOperator(a, o, b, "%");
    Shunting.ReversedPair(o, "%");
    Join2(a, b, "%", o);
  }

  lemma RunPercentAfter(a: Token, o: Token, b: Token)
    requires IsNumber(a) && IsNumber(b) && IsBinaryToken(o)
    ensures PostfixValue([a, b, o, "%"]) ==
      Ok(Binary(Percent, Zero, Binary(BinOpOf(o).value, Literal(a), Literal(b))))
  {
    var x := Binary(BinOpOf(o).value, Literal(a), Literal(b));
    RunPair(a, o, b);
    ApplyToLone(x, "%");
    RunThenStep([], [a, b, o], [x], "%", [Binary(Percent, Zero, x)]);
    Snoc3(a, b, o, "%");
  }

  lemma RunPercentBefore(a: Token, o: Token, b: Token)
    requires IsNumber(a) && IsNumber(b) && IsBinaryToken(o)
    ensures PostfixValue([a, b, "%", o]) ==
      Ok(Binary(BinOpOf(o).value, Zero, Binary(Percent, Literal(a), Literal(b))))
  {
    var x := Binary(Percent, Literal(a), Literal(b));
    RunPair(a, "%", b);
    ApplyToLone(x, o);
    RunThenStep([], [a, b, "%"], [x], o, [Binary(BinOpOf(o).value, Zero, x)]);
    Snoc3(a, b, "%", o);
  }

  /**
   * A trailing "%" is a binary operator with no right-hand neighbour. After "*", "/",
   * "%" or "^" it applies to the product so far with 0.0 on its left ("50*10%" is
   * 0.0 * (500 / 100.0), that is 0.0); after "+" or "-" it applies first, and the sum
   * then takes 0.0 on its left ("50+10%" is 0.0 + 50 * (10 / 100.0), that is 5.0).
   */
  lemma TrailingPercent(a: string, o: char, b: string)
    requires IsLiteral(a) && IsLiteral(b) && IsBinaryGlyph(o)
    ensures Evaluation(a + [o] + b + "%") ==
      if Precedence([o]) >= 2 then Ok(Binary(Percent, Zero, Binary(OpOf(o), Literal(a), Literal(b))))
      else Ok(Binary(OpOf(o), Zero, Binary(Percent, Literal(a), Literal(b))))
  {
    DigitsAreNumbers(a);
    DigitsAreNumbers(b);
    GlyphFacts(o);
    TokensTrailingPercent(a, o, b);
    if Precedence([o]) >= 2 {
      PostfixPercentAfter(a, [o], b);
      RunPercentAfter(a, [o], b);
    } else {
      PostfixPercentBefore(a, [o], b);
      RunPercentBefore(a, [o], b);
    }
  }

  lemma TokensLoneOperator(o: char)
    requires IsBinaryGlyph(o) || o == SqrtGlyph
    ensures Tokenizer.Tokens([o]) == [if o == SqrtGlyph then "sqrt" else [o]]
  {
    Tokenizer.ScanSnoc([], o);
    assert [] + [o] == [o];
    assert Tokenizer.Scan([]) == Tokenizer.Lexer([], []);
    if o != SqrtGlyph {
      GlyphFacts(o);
    }
  }

  /** An operator with nothing to apply to pops an empty stack: "*" or "√" alone fails. */
  lemma LoneOperator(o: char)
    requires IsBinaryGlyph(o) || o == SqrtGlyph
    ensures Evaluation([o]) == EmptyStack
  {
    var t: Token := if o == SqrtGlyph then "sqrt" else [o];
    NumberIsNotSymbol(t);
    TokensLoneOperator(o);
    assert Shunting.Postfix([t]) == [t] by {
      assert Shunting.Step(Shunting.Yard([], []), t) == Shunting.Yard([], [t]);
      ShuntNext([], t, Shunting.Yard([], []), Shunting.Yard([], [t]));
      assert [] + [t] == [t];
      assert Shunting.Reversed([t]) == [t];
    }
    assert Run([], [t]) == EmptyStack;
  }

  /**
   * On token lists: when the first token is a number and no token is "(", the postfix the
   * shunting-yard builds is evaluated without popping an empty stack, because it starts
   * with that number and holds only numbers and operators.
   */
  lemma PostfixNeverFails(ts: seq<Token>)
    requires ts != [] && IsNumber(ts[0]) && "(" !in ts
    ensures PostfixValue(Shunting.Postfix(ts)).Ok?
  {
    var postfix := Shunting.Postfix(ts);
    Shunting.LeadingNumberFirst(ts);
    Shunting.PostfixTokens(ts);
    var first, rest := postfix[0], postfix[1..];
    assert forall t <- rest :: IsNumber(t) || IsOperator(t) by {
      forall t <- rest ensures IsNumber(t) || IsOperator(t) {
        assert t in postfix;
      }
    }
    assert [] + [Literal(first)] == [Literal(first)];
    PushOnto([], first, [Literal(first)]);
    RunCons([], first, rest);
    assert postfix == [first] + rest;
    RunNeverFails([Literal(first)], rest);
  }

  /**
   * An expression whose first token is a number and which has no "(" never pops an empty
   * stack: every later operator finds at least the first number's value below it.
   */
  lemma LeadingNumberNeverFails(expression: string)
    requires Tokenizer.Tokens(expression) != [] && IsNumber(Tokenizer.Tokens(expression)[0])
    requires "(" !in Tokenizer.Tokens(expression)
    ensures Evaluation(expression).Ok?
  {
    PostfixNeverFails(Tokenizer.Tokens(expression));
  }
}
