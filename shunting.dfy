/**
 * The second stage of the engine: `shuntingYard` reorders the tokens from infix to
 * postfix with an operator stack, using the precedence table and popping operators
 * of greater or equal precedence before pushing a new one (left associativity).
 *
 * The operator stack is a sequence whose last element is the top. `Shunt` is the
 * state after the main loop, `Postfix` the whole function, `ShuntingYard` the loops.
 */
module Shunting {
  import opened Lexicon

  /** The algorithm's state: the output queue and the operator stack. */
  datatype Yard = Yard(output: seq<Token>, stack: seq<Token>)

  function Reversed(s: seq<Token>): (r: seq<Token>)
    ensures |r| == |s|
  {
    if s == [] then [] else [Last(s)] + Reversed(Init(s))
  }

  /** Two stacked tokens come off in the opposite order. */
  lemma ReversedPair(x: Token, y: Token)
    ensures Reversed([x, y]) == [y, x]
  {
    assert Init([x, y]) == [x];
  }

  /** Pops the top of the operator stack into the output queue. */
  function Move(y: Yard): Yard
    requires y.stack != []
  {
    Yard(y.output + [Last(y.stack)], Init(y.stack))
  }

  /** Popping only takes from the top of the stack and appends, in pop order, to the output. */
  predicate PoppedFrom(y: Yard, r: Yard) {
    && |r.stack| <= |y.stack|
    && r.stack == y.stack[..|r.stack|]
    && r.output == y.output + Reversed(y.stack[|r.stack|..])
  }

  lemma MovePopped(y: Yard, r: Yard)
    requires y.stack != [] && PoppedFrom(Move(y), r)
    ensures PoppedFrom(y, r)
    ensures forall t <- y.stack[|r.stack|..] :: t in Move(y).stack[|r.stack|..] || t == Last(y.stack)
  {
    var m := Move(y);
    var rest := y.stack[|r.stack|..];
    assert rest == m.stack[|r.stack|..] + [Last(y.stack)];
    InitLastOfAppend(m.stack[|r.stack|..], Last(y.stack));
  }

  /** The loop of the ")" branch: pop until the top is "(" or the stack is empty; no "(" is popped. */
  function PopToParen(y: Yard): (r: Yard)
    ensures r.stack == [] || Last(r.stack) == "("
    ensures PoppedFrom(y, r)
    ensures forall t <- y.stack[|r.stack|..] :: t != "("
    decreases |y.stack|
  {
    if y.stack != [] && Last(y.stack) != "(" then
      var r := PopToParen(Move(y));
      MovePopped(y, r);
      r
    else
      assert y.stack[|y.stack|..] == [];
      y
  }

  /** The loop of the operator branch: pop operators of precedence at least `p`, and nothing else. */
  function PopHigher(y: Yard, p: int): (r: Yard)
    ensures r.stack == [] || !IsOperator(Last(r.stack)) || Precedence(Last(r.stack)) < p
    ensures PoppedFrom(y, r)
    ensures forall t <- y.stack[|r.stack|..] :: IsOperator(t) && Precedence(t) >= p
    decreases |y.stack|
  {
    if y.stack != [] && IsOperator(Last(y.stack)) && Precedence(Last(y.stack)) >= p then
      var r := PopHigher(Move(y), p);
      MovePopped(y, r);
      r
    else
      assert y.stack[|y.stack|..] == [];
      y
  }

  /** The final loop: pop everything that is left. */
  function PopAll(y: Yard): (r: Yard)
    ensures r.stack == []
    ensures r.output == y.output + Reversed(y.stack)
    decreases |y.stack|
  {
    if y.stack != [] then
      var r := PopAll(Move(y));
      MovePopped(y, r);
      r
    else
      y
  }

  /** One iteration of the main loop on token `t`; other tokens fall through every branch. */
  function Step(y: Yard, t: Token): Yard {
    if IsNumber(t) then Yard(y.output + [t], y.stack)
    else if t == "sqrt" || t == "(" then Yard(y.output, y.stack + [t])
    else if t == ")" then
      var z := PopToParen(y);
      if z.stack != [] then Yard(z.output, Init(z.stack)) else z
    else if IsOperator(t) then
      var z := PopHigher(y, Precedence(t));
      Yard(z.output, z.stack + [t])
    else y
  }

  /** The state after the main loop has read all of `tokens`. */
  function Shunt(tokens: seq<Token>): Yard {
    if tokens == [] then Yard([], []) else Step(Shunt(Init(tokens)), Last(tokens))
  }

  /** What `shuntingYard` returns. */
  function Postfix(tokens: seq<Token>): seq<Token> {
    PopAll(Shunt(tokens)).output
  }

  /** Reading one more token is one more step of the main loop. */
  lemma ShuntSnoc(tokens: seq<Token>, t: Token)
    ensures Shunt(tokens + [t]) == Step(Shunt(tokens), t)
  {
    InitLastOfAppend(tokens, t);
  }

  method ShuntingYard(tokens: seq<Token>) returns (output: seq<Token>)
    ensures output == Postfix(tokens)
  {
    output := [];
    var stack: seq<Token> := [];
    for i := 0 to |tokens|
      invariant Yard(output, stack) == Shunt(tokens[..i])
    {
      output, stack := ShuntToken(output, stack, tokens[i]);
      InitLastOfAppend(tokens[..i], tokens[i]);
      assert tokens[..i + 1] == tokens[..i] + [tokens[i]];
    }
    assert tokens[..|tokens|] == tokens;
    while stack != []
      invariant PopAll(Yard(output, stack)) == PopAll(Shunt(tokens))
      decreases |stack|
    {
      output := output + [stack[|stack| - 1]];
      stack := stack[..|stack| - 1];
    }
  }

  /** The body of the main loop of `shuntingYard`, for one token. */
  method ShuntToken(output0: seq<Token>, stack0: seq<Token>, token: Token) returns (output: seq<Token>, stack: seq<Token>)
    ensures Yard(output, stack) == Step(Yard(output0, stack0), token)
  {
    output, stack := output0, stack0;
    if IsNumber(token) {
      output := output + [token];
    } else if token == "sqrt" {
      stack := stack + [token];
    } else if token == "(" {
      stack := stack + [token];
    } else if token == ")" {
      while stack != [] && stack[|stack| - 1] != "("
        invariant PopToParen(Yard(output, stack)) == PopToParen(Yard(output0, stack0))
        decreases |stack|
      {
        output := output + [stack[|stack| - 1]];
        stack := stack[..|stack| - 1];
      }
      if stack != [] {
        stack := stack[..|stack| - 1];
      }
    } else if IsOperator(token) {
      while stack != [] && IsOperator(stack[|stack| - 1]) && Precedence(stack[|stack| - 1]) >= Precedence(token)
        invariant PopHigher(Yard(output, stack), Precedence(token)) == PopHigher(Yard(output0, stack0), Precedence(token))
        decreases |stack|
      {
        output := output + [stack[|stack| - 1]];
        stack := stack[..|stack| - 1];
      }
      stack := stack + [token];
    }
  }

  // ---------------------------------------------------------------------------
  // What the reordering keeps

  /** The number tokens of a sequence, in order. */
  function Numbers(ts: seq<Token>): seq<Token> {
    if ts == [] then [] else Numbers(Init(ts)) + (if IsNumber(Last(ts)) then [Last(ts)] else [])
  }

  /** The operator tokens of a sequence, in order. */
  function Operators(ts: seq<Token>): seq<Token> {
    if ts == [] then [] else Operators(Init(ts)) + (if IsOperator(Last(ts)) then [Last(ts)] else [])
  }

  lemma FiltersAppend(ts: seq<Token>, t: Token)
    ensures Numbers(ts + [t]) == Numbers(ts) + (if IsNumber(t) then [t] else [])
    ensures Operators(ts + [t]) == Operators(ts) + (if IsOperator(t) then [t] else [])
  {
    InitLastOfAppend(ts, t);
  }

  /** The stack holds only operators and "(". */
  predicate StackTokens(stack: seq<Token>) {
    forall t <- stack :: IsOperator(t) || t == "("
  }

  /** The output holds only numbers, operators and "(". */
  predicate OutputTokens(output: seq<Token>) {
    forall t <- output :: IsNumber(t) || IsOperator(t) || t == "("
  }

  /**
   * The state after reading `ts` accounts for it: the output holds its numbers in order,
   * output and stack together hold its operators, and a "(" is held only if `ts` has one.
   */
  predicate Conserves(y: Yard, ts: seq<Token>) {
    && Numbers(y.output) == Numbers(ts)
    && multiset(Operators(y.output)) + multiset(Operators(y.stack)) == multiset(Operators(ts))
    && StackTokens(y.stack)
    && OutputTokens(y.output)
    && ("(" in y.output || "(" in y.stack ==> "(" in ts)
  }

  /** Moving a non-number from the stack to the output keeps numbers and operators. */
  lemma MoveKeeps(y: Yard)
    requires y.stack != [] && !IsNumber(Last(y.stack))
    ensures var m := Move(y);
      && Numbers(m.output) == Numbers(y.output)
      && multiset(Operators(m.output)) + multiset(Operators(m.stack))
         == multiset(Operators(y.output)) + multiset(Operators(y.stack))
  {
    FiltersAppend(y.output, Last(y.stack));
  }

  lemma MoveConserves(y: Yard, ts: seq<Token>)
    requires y.stack != [] && Conserves(y, ts)
    ensures Conserves(Move(y), ts)
  {
    var top, m := Last(y.stack), Move(y);
    assert top in y.stack;
    NumberIsNotSymbol(top);
    MoveKeeps(y);
    assert forall t <- m.stack :: t in y.stack;
    assert forall t <- m.output :: t in y.output || t == top;
  }

  lemma {:induction false} PopToParenConserves(y: Yard, ts: seq<Token>)
    requires Conserves(y, ts)
    ensures Conserves(PopToParen(y), ts)
    decreases |y.stack|
  {
    if y.stack != [] && Last(y.stack) != "(" {
      MoveConserves(y, ts);
      PopToParenConserves(Move(y), ts);
    }
  }

  lemma {:induction false} PopHigherConserves(y: Yard, p: int, ts: seq<Token>)
    requires Conserves(y, ts)
    ensures Conserves(PopHigher(y, p), ts)
    decreases |y.stack|
  {
    if y.stack != [] && IsOperator(Last(y.stack)) && Precedence(Last(y.stack)) >= p {
      MoveConserves(y, ts);
      PopHigherConserves(Move(y), p, ts);
    }
  }

  lemma {:induction false} PopAllConserves(y: Yard, ts: seq<Token>)
    requires Conserves(y, ts)
    ensures Conserves(PopAll(y), ts)
    decreases |y.stack|
  {
    if y.stack != [] {
      MoveConserves(y, ts);
      PopAllConserves(Move(y), ts);
    }
  }

  /** Reading a token that is neither a number nor an operator changes no count. */
  lemma ReadConserves(y: Yard, ts: seq<Token>, t: Token)
    requires Conserves(y, ts) && !IsNumber(t) && !IsOperator(t)
    ensures Conserves(y, ts + [t])
  {
    FiltersAppend(ts, t);
    assert Numbers(ts + [t]) == Numbers(ts);
    assert Operators(ts + [t]) == Operators(ts);
    assert "(" in ts ==> "(" in ts + [t];
  }

  /** Pushing an operator onto the stack, as it is read, keeps the operator count. */
  lemma PushCounts(y: Yard, ts: seq<Token>, t: Token)
    requires multiset(Operators(y.output)) + multiset(Operators(y.stack)) == multiset(Operators(ts))
    ensures multiset(Operators(y.output)) + multiset(Operators(y.stack + [t])) == multiset(Operators(ts + [t]))
  {
    FiltersAppend(ts, t);
    FiltersAppend(y.stack, t);
    var pushed := if IsOperator(t) then [t] else [];
    var out, stack, read := Operators(y.output), Operators(y.stack), Operators(ts);
    assert multiset(stack + pushed) == multiset(stack) + multiset(pushed);
    assert multiset(read + pushed) == multiset(read) + multiset(pushed);
    assert multiset(out) + (multiset(stack) + multiset(pushed)) == multiset(read) + multiset(pushed);
  }

  /** A token pushed onto the stack is an operator or "(", and counts as read. */
  lemma PushConserves(y: Yard, ts: seq<Token>, t: Token)
    requires Conserves(y, ts) && (IsOperator(t) || t == "(")
    ensures Conserves(Yard(y.output, y.stack + [t]), ts + [t])
  {
    NumberIsNotSymbol(t);
    FiltersAppend(ts, t);
    PushCounts(y, ts, t);
    var stack := y.stack + [t];
    assert StackTokens(stack) by {
      forall u <- stack ensures IsOperator(u) || u == "(" {
        if u != t {
          assert u in y.stack;
        }
      }
    }
    assert "(" in stack ==> "(" in y.stack || t == "(";
    assert "(" in ts ==> "(" in ts + [t];
  }

  /** Discarding the "(" on top of the stack keeps the accounting. */
  lemma DiscardConserves(z: Yard, ts: seq<Token>)
    requires Conserves(z, ts) && z.stack != [] && Last(z.stack) == "("
    ensures Conserves(Yard(z.output, Init(z.stack)), ts)
  {
    assert z.stack == Init(z.stack) + [Last(z.stack)];
    assert !IsOperator("(");
    assert Operators(z.stack) == Operators(Init(z.stack));
    assert forall t <- Init(z.stack) :: t in z.stack;
  }

  lemma CloseConserves(y: Yard, ts: seq<Token>)
    requires Conserves(y, ts)
    ensures var z := PopToParen(y);
      Conserves(if z.stack != [] then Yard(z.output, Init(z.stack)) else z, ts + [")"])
  {
    NumberIsNotSymbol(")");
    assert !IsOperator(")");
    PopToParenConserves(y, ts);
    var z := PopToParen(y);
    if z.stack != [] {
      DiscardConserves(z, ts);
      ReadConserves(Yard(z.output, Init(z.stack)), ts, ")");
    } else {
      ReadConserves(z, ts, ")");
    }
  }

  lemma StepConserves(y: Yard, ts: seq<Token>, t: Token)
    requires Conserves(y, ts)
    ensures Conserves(Step(y, t), ts + [t])
  {
    NumberIsNotSymbol(t);
    if IsNumber(t) {
      FiltersAppend(ts, t);
      FiltersAppend(y.output, t);
    } else if t == "sqrt" || t == "(" {
      PushConserves(y, ts, t);
    } else if t == ")" {
      CloseConserves(y, ts);
    } else if IsOperator(t) {
      PopHigherConserves(y, Precedence(t), ts);
      PushConserves(PopHigher(y, Precedence(t)), ts, t);
    } else {
      ReadConserves(y, ts, t);
    }
  }

  lemma {:induction false} ShuntConserves(ts: seq<Token>)
    ensures Conserves(Shunt(ts), ts)
  {
    if ts != [] {
      ShuntConserves(Init(ts));
      StepConserves(Shunt(Init(ts)), Init(ts), Last(ts));
      assert Init(ts) + [Last(ts)] == ts;
    }
  }

  /** The number tokens of the output, in order, are those of the input. */
  lemma NumbersInOrder(ts: seq<Token>)
    ensures Numbers(Postfix(ts)) == Numbers(ts)
  {
    ShuntConserves(ts);
    PopAllConserves(Shunt(ts), ts);
  }

  /** Every operator token of the input (including "sqrt") appears in the output exactly once. */
  lemma OperatorsExactlyOnce(ts: seq<Token>)
    ensures multiset(Operators(Postfix(ts))) == multiset(Operators(ts))
  {
    ShuntConserves(ts);
    PopAllConserves(Shunt(ts), ts);
  }

  /**
   * The output holds only numbers, operators and unmatched "(": never ")", and never a
   * token that is none of these (such as a stray character), which is dropped.
   */
  lemma PostfixTokens(ts: seq<Token>)
    ensures forall t <- Postfix(ts) :: IsNumber(t) || IsOperator(t) || t == "("
    ensures "(" in Postfix(ts) ==> "(" in ts
    ensures ")" !in Postfix(ts)
  {
    ShuntConserves(ts);
    PopAllConserves(Shunt(ts), ts);
    NumberIsNotSymbol(")");
  }

  // ---------------------------------------------------------------------------
  // Precedence on the stack

  /**
   * Between two adjacent operators on the stack, the upper one binds strictly tighter,
   * unless it is "sqrt", which is pushed unconditionally.
   */
  predicate Ordered(stack: seq<Token>) {
    forall k :: 0 <= k < |stack| - 1 && IsOperator(stack[k]) && IsOperator(stack[k + 1]) ==>
      Precedence(stack[k]) < Precedence(stack[k + 1]) || stack[k + 1] == "sqrt"
  }

  lemma PrefixOrdered(stack: seq<Token>, n: nat)
    requires Ordered(stack) && n <= |stack|
    ensures Ordered(stack[..n])
  {
    var p := stack[..n];
    forall k | 0 <= k < |p| - 1 && IsOperator(p[k]) && IsOperator(p[k + 1])
      ensures Precedence(p[k]) < Precedence(p[k + 1]) || p[k + 1] == "sqrt"
    {
      assert p[k] == stack[k] && p[k + 1] == stack[k + 1];
    }
  }

  lemma PushOrdered(stack: seq<Token>, t: Token)
    requires Ordered(stack)
    requires stack == [] || !IsOperator(Last(stack)) || !IsOperator(t)
      || Precedence(Last(stack)) < Precedence(t) || t == "sqrt"
    ensures Ordered(stack + [t])
  {
    var s := stack + [t];
    forall k | 0 <= k < |s| - 1 && IsOperator(s[k]) && IsOperator(s[k + 1])
      ensures Precedence(s[k]) < Precedence(s[k + 1]) || s[k + 1] == "sqrt"
    {
      if k + 1 < |stack| {
        assert s[k] == stack[k] && s[k + 1] == stack[k + 1];
      } else {
        assert s[k] == Last(stack) && s[k + 1] == t;
      }
    }
  }

  lemma StepOrdered(y: Yard, t: Token)
    requires Ordered(y.stack)
    ensures Ordered(Step(y, t).stack)
  {
    if IsNumber(t) {
    } else if t == "sqrt" || t == "(" {
      PushOrdered(y.stack, t);
    } else if t == ")" {
      var z := PopToParen(y);
      PrefixOrdered(y.stack, |z.stack|);
      if z.stack != [] {
        PrefixOrdered(z.stack, |z.stack| - 1);
      }
    } else if IsOperator(t) {
      var z := PopHigher(y, Precedence(t));
      PrefixOrdered(y.stack, |z.stack|);
      PushOrdered(z.stack, t);
    }
  }

  /** A step only appends to the output queue. */
  lemma StepExtends(y: Yard, t: Token)
    ensures |y.output| <= |Step(y, t).output| && Step(y, t).output[..|y.output|] == y.output
  {
    if !IsNumber(t) && t != "sqrt" && t != "(" {
      if t == ")" {
        var z := PopToParen(y);
        assert z.output[..|y.output|] == y.output;
      } else if IsOperator(t) {
        var z := PopHigher(y, Precedence(t));
        assert z.output[..|y.output|] == y.output;
      }
    }
  }

  lemma {:induction false} ShuntKeepsFirst(ts: seq<Token>)
    requires ts != [] && IsNumber(ts[0])
    ensures Shunt(ts).output != [] && Shunt(ts).output[0] == ts[0]
  {
    if |ts| == 1 {
      ShuntSnoc([], ts[0]);
      assert ts == [] + [ts[0]];
    } else {
      ShuntKeepsFirst(Init(ts));
      StepExtends(Shunt(Init(ts)), Last(ts));
    }
  }

  /** An expression that starts with a number starts its postfix with that number. */
  lemma LeadingNumberFirst(ts: seq<Token>)
    requires ts != [] && IsNumber(ts[0])
    ensures Postfix(ts) != [] && Postfix(ts)[0] == ts[0]
  {
    ShuntKeepsFirst(ts);
  }

  /**
   * The stack invariant behind precedence and left associativity: an operator is never
   * stacked on one of greater or equal precedence, except that "sqrt" may be.
   */
  lemma {:induction false} StackOrdered(ts: seq<Token>)
    ensures Ordered(Shunt(ts).stack)
  {
    if ts != [] {
      StackOrdered(Init(ts));
      StepOrdered(Shunt(Init(ts)), Last(ts));
    }
  }
}
