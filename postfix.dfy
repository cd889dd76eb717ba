/**
 * The third stage of the engine: `evaluatePostfix` runs a value stack over the
 * postfix tokens. A number pushes its value; "sqrt" pops one value and pushes its
 * square root; any other token pops `b`, pops `a` if the stack is not empty (else
 * uses 0.0), and pushes the result of the operator, or nothing for a token that is
 * not one of "+ - * / ^ %". Popping an empty stack throws EmptyStackException.
 *
 * Values are kept symbolic: the stack holds expression trees, so that what the
 * engine computes can be read structurally. `Denote` gives a tree its number in
 * any arithmetic, and `RunDenotes` shows that the tree machine, read through
 * `Denote`, is the value-stack machine `NumRun` that the engine runs on doubles.
 */
module PostfixEval {
  import opened Lexicon

  datatype BinOp = Add | Sub | Mul | Div | Pow | Percent

  /** A stack value: a parsed literal, the 0.0 stand-in, a square root or a binary operation. */
  datatype Expr =
    | Literal(text: string)
    | Zero
    | Sqrt(arg: Expr)
    | Binary(op: BinOp, left: Expr, right: Expr)

  /** A completed evaluation, or the EmptyStackException of popping an empty stack. */
  datatype Outcome<T> = Ok(value: T) | EmptyStack

  datatype Option<T> = None | Some(value: T)

  /** The operator the engine's `when` applies for a token, if any. */
  function BinOpOf(t: Token): (r: Option<BinOp>)
    ensures r.Some? <==> IsOperator(t) && t != "sqrt"
  {
    if t == "+" then Some(Add)
    else if t == "-" then Some(Sub)
    else if t == "*" then Some(Mul)
    else if t == "/" then Some(Div)
    else if t == "^" then Some(Pow)
    else if t == "%" then Some(Percent)
    else None
  }

  /** One iteration of the evaluator's loop on token `t`; the top of the stack is last. */
  function Step(stack: seq<Expr>, t: Token): Outcome<seq<Expr>> {
    if IsNumber(t) then Ok(stack + [Literal(t)])
    else if stack == [] then EmptyStack
    else if t == "sqrt" then Ok(Init(stack) + [Sqrt(Last(stack))])
    else
      var b, rest := Last(stack), Init(stack);
      var a := if rest != [] then Last(rest) else Zero;
      var below := if rest != [] then Init(rest) else [];
      match BinOpOf(t)
      case Some(op) => Ok(below + [Binary(op, a, b)])
      case None => Ok(below)
  }

  /** The loop from stack `stack` over the remaining tokens; a failed step ends it. */
  function Run(stack: seq<Expr>, postfix: seq<Token>): Outcome<seq<Expr>>
    decreases |postfix|
  {
    if postfix == [] then Ok(stack)
    else match Step(stack, postfix[0])
      case EmptyStack => EmptyStack
      case Ok(next) => Run(next, postfix[1..])
  }

  /** The value returned after the loop: the top of the stack, or 0.0 if it is empty. */
  function Result(final: Outcome<seq<Expr>>): Outcome<Expr> {
    match final
    case EmptyStack => EmptyStack
    case Ok(stack) => Ok(if stack != [] then Last(stack) else Zero)
  }

  /** What `evaluatePostfix` returns. */
  function PostfixValue(postfix: seq<Token>): Outcome<Expr> {
    Result(Run([], postfix))
  }

  method EvaluatePostfix(postfix: seq<Token>) returns (r: Outcome<Expr>)
    ensures r == PostfixValue(postfix)
  {
    var stack: seq<Expr> := [];
    for i := 0 to |postfix|
      invariant Run(stack, postfix[i..]) == Run([], postfix)
    {
      var token := postfix[i];
      assert postfix[i..][0] == token && postfix[i..][1..] == postfix[i + 1..];
      if IsNumber(token) {
        stack := stack + [Literal(token)];
      } else if token == "sqrt" {
        if stack == [] {
          return EmptyStack;
        }
        var a := stack[|stack| - 1];
        stack := stack[..|stack| - 1];
        stack := stack + [Sqrt(a)];
      } else {
        if stack == [] {
          return EmptyStack;
        }
        var b := stack[|stack| - 1];
        stack := stack[..|stack| - 1];
        var a := Zero;
        if stack != [] {
          a := stack[|stack| - 1];
          stack := stack[..|stack| - 1];
        }
        match BinOpOf(token)
        case Some(op) => stack := stack + [Binary(op, a, b)];
        case None =>
      }
    }
    assert postfix[|postfix|..] == [];
    r := Ok(if stack != [] then stack[|stack| - 1] else Zero);
  }

  // ---------------------------------------------------------------------------
  // Operand handling

  /**
   * What one token does to the stack: it fails exactly when the stack is empty and the
   * token is not a number; otherwise it pops nothing (number), one value ("sqrt") or up
   * to two values (any other token), leaves the values below untouched, and pushes one
   * value unless the token is none of the operators the engine applies.
   */
  lemma StepArity(stack: seq<Expr>, t: Token)
    ensures Step(stack, t).EmptyStack? <==> stack == [] && !IsNumber(t)
    ensures Step(stack, t).Ok? ==>
      var next := Step(stack, t).value;
      var popped := if IsNumber(t) then 0 else if t == "sqrt" then 1 else if |stack| >= 2 then 2 else 1;
      var pushed := if IsNumber(t) || t == "sqrt" || BinOpOf(t).Some? then 1 else 0;
      && popped <= |stack|
      && |next| == |stack| - popped + pushed
      && next[..|stack| - popped] == stack[..|stack| - popped]
  {
    if !IsNumber(t) && stack != [] && t != "sqrt" && |stack| >= 2 {
      assert Init(Init(stack)) == stack[..|stack| - 2];
    }
  }

  /**
   * A run that starts with a value on the stack and sees only numbers and operators
   * never pops an empty stack, and ends with a value on the stack.
   */
  lemma {:induction false} RunNeverFails(stack: seq<Expr>, postfix: seq<Token>)
    requires stack != []
    requires forall t <- postfix :: IsNumber(t) || IsOperator(t)
    ensures Run(stack, postfix).Ok? && Run(stack, postfix).value != []
    decreases |postfix|
  {
    if postfix != [] {
      var t := postfix[0];
      assert t in postfix;
      StepArity(stack, t);
      assert forall u <- postfix[1..] :: u in postfix;
      RunNeverFails(Step(stack, t).value, postfix[1..]);
    }
  }

  /** Running over two pieces of postfix is running over the first, then the second. */
  lemma {:induction false} RunAppend(stack: seq<Expr>, p: seq<Token>, q: seq<Token>)
    ensures Run(stack, p + q) == match Run(stack, p) case EmptyStack => EmptyStack case Ok(s) => Run(s, q)
    decreases |p|
  {
    if p != [] {
      assert (p + q)[0] == p[0] && (p + q)[1..] == p[1..] + q;
      match Step(stack, p[0])
      case EmptyStack =>
      case Ok(next) => RunAppend(next, p[1..], q);
    } else {
      assert p + q == q;
    }
  }

  // ---------------------------------------------------------------------------
  // Numeric meaning

  /**
   * The floating-point operations the engine uses, left abstract: parsing a literal,
   * the constants 0.0 and 100.0, the four arithmetic operators, pow and sqrt.
   */
  datatype Arithmetic<!V> = Arithmetic(
    parse: string -> V,
    zero: V,
    hundred: V,
    add: (V, V) -> V,
    sub: (V, V) -> V,
    mul: (V, V) -> V,
    div: (V, V) -> V,
    pow: (V, V) -> V,
    sqrt: V -> V)

  /** The engine's operators; "%" is a percentage of `a`: a * (b / 100.0). */
  function Apply<V>(ar: Arithmetic<V>, op: BinOp, a: V, b: V): V {
    match op
    case Add => ar.add(a, b)
    case Sub => ar.sub(a, b)
    case Mul => ar.mul(a, b)
    case Div => ar.div(a, b)
    case Pow => ar.pow(a, b)
    case Percent => ar.mul(a, ar.div(b, ar.hundred))
  }

  function Denote<V>(ar: Arithmetic<V>, e: Expr): V {
    match e
    case Literal(text) => ar.parse(text)
    case Zero => ar.zero
    case Sqrt(arg) => ar.sqrt(Denote(ar, arg))
    case Binary(op, left, right) => Apply(ar, op, Denote(ar, left), Denote(ar, right))
  }

  function DenoteAll<V>(ar: Arithmetic<V>, stack: seq<Expr>): (r: seq<V>)
    ensures |r| == |stack|
  {
    if stack == [] then [] else DenoteAll(ar, Init(stack)) + [Denote(ar, Last(stack))]
  }

  function DenoteOutcome<V>(ar: Arithmetic<V>, o: Outcome<seq<Expr>>): Outcome<seq<V>> {
    match o
    case EmptyStack => EmptyStack
    case Ok(stack) => Ok(DenoteAll(ar, stack))
  }

  /** The engine's loop body on a stack of numbers. */
  function NumStep<V>(ar: Arithmetic<V>, stack: seq<V>, t: Token): Outcome<seq<V>> {
    if IsNumber(t) then Ok(stack + [ar.parse(t)])
    else if stack == [] then EmptyStack
    else if t == "sqrt" then Ok(Init(stack) + [ar.sqrt(Last(stack))])
    else
      var b, rest := Last(stack), Init(stack);
      var a := if rest != [] then Last(rest) else ar.zero;
      var below := if rest != [] then Init(rest) else [];
      match BinOpOf(t)
      case Some(op) => Ok(below + [Apply(ar, op, a, b)])
      case None => Ok(below)
  }

  function NumRun<V>(ar: Arithmetic<V>, stack: seq<V>, postfix: seq<Token>): Outcome<seq<V>>
    decreases |postfix|
  {
    if postfix == [] then Ok(stack)
    else match NumStep(ar, stack, postfix[0])
      case EmptyStack => EmptyStack
      case Ok(next) => NumRun(ar, next, postfix[1..])
  }

  lemma DenoteAllAppend<V>(ar: Arithmetic<V>, stack: seq<Expr>, e: Expr)
    ensures DenoteAll(ar, stack + [e]) == DenoteAll(ar, stack) + [Denote(ar, e)]
  {
    InitLastOfAppend(stack, e);
  }

  lemma DenoteAllInit<V>(ar: Arithmetic<V>, stack: seq<Expr>)
    requires stack != []
    ensures Init(DenoteAll(ar, stack)) == DenoteAll(ar, Init(stack))
    ensures Last(DenoteAll(ar, stack)) == Denote(ar, Last(stack))
  {
    InitLastOfAppend(DenoteAll(ar, Init(stack)), Denote(ar, Last(stack)));
  }

  /** The binary branch on a single value: `a` is the 0.0 stand-in. */
  lemma LoneOperandDenotes<V>(ar: Arithmetic<V>, b: Expr, t: Token)
    requires !IsNumber(t) && t != "sqrt"
    ensures NumStep(ar, DenoteAll(ar, [b]), t) == DenoteOutcome(ar, Step([b], t))
  {
    DenoteAllAppend(ar, [], b);
    assert DenoteAll(ar, [b]) == [Denote(ar, b)];
    match BinOpOf(t)
    case Some(op) => DenoteAllAppend(ar, [], Binary(op, Zero, b));
    case None =>
  }

  /** The binary branch on two or more values: pop `b`, then `a`. */
  lemma TwoOperandsDenote<V>(ar: Arithmetic<V>, below: seq<Expr>, a: Expr, b: Expr, t: Token)
    requires !IsNumber(t) && t != "sqrt"
    ensures NumStep(ar, DenoteAll(ar, below + [a, b]), t) == DenoteOutcome(ar, Step(below + [a, b], t))
  {
    var stack := below + [a, b];
    assert Init(stack) == below + [a] && Last(stack) == b;
    assert Init(below + [a]) == below && Last(below + [a]) == a;
    DenoteAllAppend(ar, below, a);
    DenoteAllAppend(ar, below + [a], b);
    var d := DenoteAll(ar, below);
    assert DenoteAll(ar, stack) == d + [Denote(ar, a), Denote(ar, b)];
    assert Init(d + [Denote(ar, a), Denote(ar, b)]) == d + [Denote(ar, a)];
    assert Init(d + [Denote(ar, a)]) == d;
    match BinOpOf(t)
    case Some(op) => DenoteAllAppend(ar, below, Binary(op, a, b));
    case None =>
  }

  /** A literal pushes its parsed value. */
  lemma LiteralDenotes<V>(ar: Arithmetic<V>, stack: seq<Expr>, t: Token)
    requires IsNumber(t)
    ensures NumStep(ar, DenoteAll(ar, stack), t) == DenoteOutcome(ar, Step(stack, t))
  {
    DenoteAllAppend(ar, stack, Literal(t));
  }

  /** "sqrt" replaces the top value by its square root. */
  lemma SqrtDenotes<V>(ar: Arithmetic<V>, stack: seq<Expr>)
    requires stack != []
    ensures NumStep(ar, DenoteAll(ar, stack), "sqrt") == DenoteOutcome(ar, Step(stack, "sqrt"))
  {
    NumberIsNotSymbol("sqrt");
    DenoteAllInit(ar, stack);
    DenoteAllAppend(ar, Init(stack), Sqrt(Last(stack)));
  }

  lemma StepDenotes<V>(ar: Arithmetic<V>, stack: seq<Expr>, t: Token)
    ensures NumStep(ar, DenoteAll(ar, stack), t) == DenoteOutcome(ar, Step(stack, t))
  {
    if IsNumber(t) {
      LiteralDenotes(ar, stack, t);
    } else if stack == [] {
    } else if t == "sqrt" {
      SqrtDenotes(ar, stack);
    } else if |stack| == 1 {
      assert stack == [stack[0]];
      LoneOperandDenotes(ar, stack[0], t);
    } else {
      var n := |stack|;
      assert stack == stack[..n - 2] + [stack[n - 2], stack[n - 1]];
      TwoOperandsDenote(ar, stack[..n - 2], stack[n - 2], stack[n - 1], t);
    }
  }

  /**
   * The symbolic machine agrees with the engine's numeric one: evaluating the postfix
   * on numbers gives, step for step, the numbers that the trees denote, and both fail
   * on the same inputs.
   */
  lemma {:induction false} RunDenotes<V>(ar: Arithmetic<V>, stack: seq<Expr>, postfix: seq<Token>)
    ensures NumRun(ar, DenoteAll(ar, stack), postfix) == DenoteOutcome(ar, Run(stack, postfix))
    decreases |postfix|
  {
    if postfix != [] {
      StepDenotes(ar, stack, postfix[0]);
      match Step(stack, postfix[0])
      case EmptyStack =>
      case Ok(next) => RunDenotes(ar, next, postfix[1..]);
    }
  }
}
