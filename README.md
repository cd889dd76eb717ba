# Calculator engine and view model, in Dafny

This project models the core of an Android calculator. It has two parts.

- **The expression engine** (`CalculatorEngine.evaluate`). It turns a typed infix string into a number in three stages:
  - `tokenize` merges runs of digits and dots into number tokens, folds a unary minus into the number that follows, maps the `√` glyph to `"sqrt"` and drops whitespace.
  - `shuntingYard` reorders the tokens into postfix by precedence.
  - `evaluatePostfix` runs a value stack over the postfix. Popping an empty stack throws `EmptyStackException`; a missing left operand is taken as 0.0; an empty final stack gives 0.0.
- **The view model** (`CalculatorViewModel.onAction`). It holds the screen state (expression, result, whether the history panel is visible) and a history list. It appends keys, deletes the last character, and runs a calculation: two `replace` calls on the expression, then the engine, then a `DecimalFormat`. A success is recorded at the head of the history; an exception shows `"Error"`.

## How it is modelled

Modules follow the source's stages:

- `Lexicon`: tokens, `isOperator`, `precedence`, and which tokens `toDoubleOrNull` accepts.
- `Tokenizer`, `Shunting` and `PostfixEval`: the three engine stages.
- `Engine`: `evaluate`, plus end-to-end lemmas.
- `Displays`: generic identities between concatenated short sequence displays, used by the `Engine` proofs.
- `ViewModel`: the view model.

Each stage is a loop in the source, so each is a `method` with a `while`/`for` loop. It is proved to return the value of a specification function:

| Method | Specification function | How the function is defined |
|---|---|---|
| `Tokenize` | `Tokens` | a fold of one loop step per character |
| `ShuntingYard` | `Postfix` | a fold of `Step`, then `PopAll` |
| `EvaluatePostfix` | `PostfixValue` | `Run`, which stops at the first failing step |

The engine's doubles are kept symbolic. A stack value is an expression tree (`Literal`, `Zero` for the 0.0 stand-in, `Sqrt`, `Binary`). The numeric meaning comes from an `Arithmetic` record of operations, left abstract. `RunDenotes` proves that the source's stack machine, run on numbers of any such arithmetic, computes exactly the values of the trees, and fails on the same inputs.

The view model is a class with fields `uiState` and `history`, which its methods reassign. `Transition` says what one action does. Every method is proved to end in the state `Transition` gives, and the lemmas about `Transition` state what each action means.

Several results differ from what a calculator user, or the source's own comments, would lead one to expect. The model follows the code as written:

- One might expect `"50*10%"` to give 5, as on a pocket calculator. It gives 0.0. The `%` applies to the product 500 with nothing on its left, so it computes 0.0 * (500 / 100.0). `"50+10%"` gives 5.0. The comment at `CalculatorEngine.kt:119` itself calls the percent rule "not standard". See `Engine.TrailingPercent`.
- The comment at `CalculatorViewModel.kt:70` says the two `replace` calls turn the keypad's visual symbols into engine operators. In the code, their targets are the two-character strings U+0E23 U+0097 and U+0E23 U+0E17, so `×` (U+00D7) and `÷` (U+00F7) reach the engine unchanged. The engine emits such a character as a token, and the shunting-yard then drops it, so `"2×3"` evaluates to 3. See `ViewModel.KeypadGlyphIgnored`.
- An unclosed parenthesis does not give a best-effort value. The stray `"("` ends up in the postfix, where it pops the value computed so far and pushes nothing, so `"(2+3"` evaluates to 0.0. See `Engine.UnclosedParenthesis`.
- The engine fails only by popping an empty stack: a lone operator such as `"*"` or `"√"`. A token that `toDoubleOrNull` rejects never reaches evaluation as a number. An empty expression evaluates to 0.0. The view model never passes a blank one to the engine.

## Model

Paths are relative to the repository root. `CalculatorEngine.kt` and `CalculatorViewModel.kt` are both in `app/src/main/java/com/professional/calculator/`.

| member | source | states |
|---|---|---|
| Lexicon.IsOperator | app/src/main/java/com/professional/calculator/CalculatorEngine.kt:53-55 | definition: membership in the fixed list `+ - * / ^ % sqrt`, exactly as `isOperator`; `(` and `)` are not operators |
| Lexicon.IsNumber | app/src/main/java/com/professional/calculator/CalculatorEngine.kt:71 | definition: `toDoubleOrNull() != null` on the token shapes the tokenizer can produce. That means an optional leading `-`, then ASCII digits and dots only, with at least one digit and at most one dot. Kotlin spellings the tokenizer never produces (exponents, `NaN`, `Infinity`, a leading `+`) are outside it, and so are non-ASCII digits |
| Lexicon.IsWhitespace | app/src/main/java/com/professional/calculator/CalculatorEngine.kt:41 | definition: Kotlin's `Char.isWhitespace`, as the explicit list of characters the JVM counts as whitespace or space separators |
| Lexicon.Precedence | app/src/main/java/com/professional/calculator/CalculatorEngine.kt:57-64 | precedence is between 0 and 3, positive exactly for the tokens `isOperator` lists, and 3 for `"sqrt"` |
| Lexicon.ParenPrecedence | app/src/main/java/com/professional/calculator/CalculatorEngine.kt:57-64 | `"("` and `")"` have precedence 0, so no operator pops a `"("` |
| Lexicon.NumberIsNotSymbol | app/src/main/java/com/professional/calculator/CalculatorEngine.kt:71 | no operator, `"("` or `")"` is accepted by `toDoubleOrNull` |
| Lexicon.DigitsAreNumbers | app/src/main/java/com/professional/calculator/CalculatorEngine.kt:71 | a non-empty run of digits, with or without a leading `-`, is accepted by `toDoubleOrNull` |
| Tokenizer.Tokenize | app/src/main/java/com/professional/calculator/CalculatorEngine.kt:20-51 | the loop returns `Tokens(expression)`: one `Step` per character, then the pending buffer flushed |
| Tokenizer.ScanDigits | app/src/main/java/com/professional/calculator/CalculatorEngine.kt:28-29 | reading a run of digits only grows the number buffer; no token is emitted |
| Tokenizer.UnaryMinusRule | app/src/main/java/com/professional/calculator/CalculatorEngine.kt:38-40 | a `-` starts a number buffer exactly when the tokens so far are empty or end in an operator or `"("`; otherwise it is emitted as the token `"-"` |
| Tokenizer.TokenShapes | app/src/main/java/com/professional/calculator/CalculatorEngine.kt:20-51 | every token is `"sqrt"`, a non-empty buffer of digits and dots with `-` only first, or one non-whitespace character; a negative literal occurs only where `-` is unary |
| Tokenizer.TokensRoundTrip | app/src/main/java/com/professional/calculator/CalculatorEngine.kt:20-51 | writing the tokens back (with `"sqrt"` as `√`) gives the input with its whitespace removed: tokenizing loses nothing else |
| Shunting.PopToParen | app/src/main/java/com/professional/calculator/CalculatorEngine.kt:78-80 | the `")"` loop stops at the nearest `"("` (or empties the stack): it moves tokens from the top of the stack to the output in pop order, none of them a `"("`, and leaves `"("` on top or an empty stack |
| Shunting.PopHigher | app/src/main/java/com/professional/calculator/CalculatorEngine.kt:83-87 | the operator loop pops exactly the operators of precedence at least `p` on top of the stack, in pop order, and stops at the first token that is not one: an empty stack, a non-operator or a lower precedence is then on top |
| Shunting.PopAll | app/src/main/java/com/professional/calculator/CalculatorEngine.kt:92-94 | the final loop empties the stack; the output gains the stack in reverse |
| Shunting.ShuntToken | app/src/main/java/com/professional/calculator/CalculatorEngine.kt:71-89 | one iteration of the main loop takes the output and stack to `Step` of them |
| Shunting.ShuntingYard | app/src/main/java/com/professional/calculator/CalculatorEngine.kt:66-97 | the method returns `Postfix(tokens)` |
| Shunting.StepExtends | app/src/main/java/com/professional/calculator/CalculatorEngine.kt:70-90 | each token only appends to the output queue |
| Shunting.ShuntConserves | app/src/main/java/com/professional/calculator/CalculatorEngine.kt:70-90 | loop invariant: the output holds the numbers read so far, in order; output and stack together hold the operators read so far; a `"("` is held only if one was read |
| Shunting.NumbersInOrder | app/src/main/java/com/professional/calculator/CalculatorEngine.kt:66-97 | the number tokens of the postfix are those of the input, in the same order |
| Shunting.OperatorsExactlyOnce | app/src/main/java/com/professional/calculator/CalculatorEngine.kt:66-97 | the postfix holds each operator token of the input (including `"sqrt"`) exactly once, as a multiset |
| Shunting.PostfixTokens | app/src/main/java/com/professional/calculator/CalculatorEngine.kt:66-97 | the postfix holds only numbers, operators and `"("` (and `"("` only if the input has one), never `")"`: other tokens are dropped |
| Shunting.StackOrdered | app/src/main/java/com/professional/calculator/CalculatorEngine.kt:82-88 | stack invariant behind precedence and left associativity: an operator directly above another has strictly higher precedence, unless it is `"sqrt"` |
| Shunting.LeadingNumberFirst | app/src/main/java/com/professional/calculator/CalculatorEngine.kt:71-72 | if the input starts with a number, the postfix starts with that number |
| PostfixEval.BinOpOf | app/src/main/java/com/professional/calculator/CalculatorEngine.kt:113-120 | a binary operation is applied exactly for the `isOperator` tokens other than `"sqrt"` |
| PostfixEval.EvaluatePostfix | app/src/main/java/com/professional/calculator/CalculatorEngine.kt:99-125 | the method returns `PostfixValue(postfix)`: the top of the final stack, 0.0 for an empty stack, or the empty-stack exception |
| PostfixEval.StepArity | app/src/main/java/com/professional/calculator/CalculatorEngine.kt:102-122 | a token fails exactly on an empty stack when it is not a number. Otherwise it pops 0, 1 or up to 2 values, leaves the rest untouched, and pushes one value unless no `when` branch matches |
| PostfixEval.RunNeverFails | app/src/main/java/com/professional/calculator/CalculatorEngine.kt:102-122 | from a non-empty stack, numbers and operators never pop an empty stack, and a value remains |
| PostfixEval.RunAppend | app/src/main/java/com/professional/calculator/CalculatorEngine.kt:102-122 | evaluating two pieces of postfix is evaluating the first, then the second from its stack |
| PostfixEval.LiteralDenotes | app/src/main/java/com/professional/calculator/CalculatorEngine.kt:103-104 | on a number token, the numeric stack machine pushes the parsed value of the literal the tree machine pushes |
| PostfixEval.SqrtDenotes | app/src/main/java/com/professional/calculator/CalculatorEngine.kt:106-108 | on `"sqrt"` over a non-empty stack, the numeric machine replaces the top by the square root of the value the tree machine's top denotes |
| PostfixEval.LoneOperandDenotes | app/src/main/java/com/professional/calculator/CalculatorEngine.kt:110-111 | a binary operator on a one-value stack computes, on numbers, the value of the tree the tree machine builds with 0.0 as the left operand |
| PostfixEval.TwoOperandsDenote | app/src/main/java/com/professional/calculator/CalculatorEngine.kt:110-120 | a binary operator on two or more values computes, on numbers, the value of the tree `a op b` the tree machine builds (`%` as `a * (b / 100.0)`) |
| PostfixEval.StepDenotes | app/src/main/java/com/professional/calculator/CalculatorEngine.kt:102-122 | one step on numbers gives the values of one step on trees, and fails exactly when it does |
| PostfixEval.NumStep | app/src/main/java/com/professional/calculator/CalculatorEngine.kt:102-122 | definition: one iteration of the evaluator loop on a stack of numbers. A number pushes its parsed value. Otherwise an empty stack fails (the `pop` that throws). `"sqrt"` replaces the top by its square root. Any other token pops `b`, then `a` (or takes 0.0 when only one value is left), and pushes `a op b` for the six `when` operators and nothing for any other token |
| PostfixEval.NumRun | app/src/main/java/com/professional/calculator/CalculatorEngine.kt:102-123 | definition: the evaluator loop on numbers, one `NumStep` per postfix token from first to last, stopping at the first empty-stack failure |
| PostfixEval.RunDenotes | app/src/main/java/com/professional/calculator/CalculatorEngine.kt:99-125 | the numeric stack machine computes exactly the values of the tree machine, and fails on the same inputs |
| Engine.Evaluate | app/src/main/java/com/professional/calculator/CalculatorEngine.kt:14-18 | the method (tokenize, then shuntingYard, then evaluatePostfix) returns `Evaluation(expression)` |
| Engine.Value | app/src/main/java/com/professional/calculator/CalculatorEngine.kt:14-18 | definition: `evaluate` on numbers. The tokenizer, then the shunting-yard, then `NumRun` from an empty stack; the top of the final stack, or 0.0 when it is empty |
| Engine.ValueDenotes | app/src/main/java/com/professional/calculator/CalculatorEngine.kt:14-18 | the number `evaluate` returns is the value of the tree `Evaluation` gives, and both fail on the same inputs |
| Engine.EmptyExpression | app/src/main/java/com/professional/calculator/CalculatorEngine.kt:124 | the empty expression evaluates to 0.0 |
| Engine.SingleOperation | app/src/main/java/com/professional/calculator/CalculatorEngine.kt:14-18 | `a o b`, for digit literals and a binary operator, evaluates to `a o b` |
| Engine.Grouping | app/src/main/java/com/professional/calculator/CalculatorEngine.kt:82-88 | `a o1 b o2 c` groups as `(a o1 b) o2 c` when o1's precedence is at least o2's (left associativity), and as `a o1 (b o2 c)` otherwise |
| Engine.Parenthesised | app/src/main/java/com/professional/calculator/CalculatorEngine.kt:75-81 | `a o1 (b o2 c)` evaluates the parenthesis first, whatever the precedences |
| Engine.SqrtPrefix | app/src/main/java/com/professional/calculator/CalculatorEngine.kt:73-74 | `√a o b` is `(√a) o b`: the square root binds tighter than any binary operator |
| Engine.NegativeOperand | app/src/main/java/com/professional/calculator/CalculatorEngine.kt:38-40 | `a o -b` reads `-b` as one negative literal |
| Engine.LeadingMinus | app/src/main/java/com/professional/calculator/CalculatorEngine.kt:38-40 | `-a o b` reads `-a` as one negative literal |
| Engine.TrailingPercent | app/src/main/java/com/professional/calculator/CalculatorEngine.kt:119 | a trailing `%` takes 0.0 as its left operand. After `* / % ^` it applies to the whole product (`"50*10%"` is 0.0); after `+ -` it applies to the last two literals and the sum takes 0.0 on its left (`"50+10%"` is 5.0) |
| Engine.StrayCharacter | app/src/main/java/com/professional/calculator/CalculatorEngine.kt:70-90 | a character that is neither digit, dot, `√`, binary operator nor parenthesis is lost: whitespace is dropped by the tokenizer, any other such character by the shunting-yard, so `a g b` evaluates to `b` |
| Engine.UnclosedParenthesis | app/src/main/java/com/professional/calculator/CalculatorEngine.kt:92-94 | `(a o b` evaluates to 0.0: the unmatched `"("` reaches the evaluator and pops the value |
| Engine.LoneOperator | app/src/main/java/com/professional/calculator/CalculatorEngine.kt:106-110 | a binary operator or `√` alone pops an empty stack, so `evaluate` throws |
| Engine.LeadingNumberNeverFails | app/src/main/java/com/professional/calculator/CalculatorEngine.kt:99-125 | an expression whose first token is a number and which has no `"("` never throws |
| ViewModel.NatToStringRoundTrip | app/src/main/java/com/professional/calculator/CalculatorViewModel.kt:31 | the decimal digits of a natural number are non-empty, have no leading zero and read back as that number |
| ViewModel.IntToString | app/src/main/java/com/professional/calculator/CalculatorViewModel.kt:31 | definition: `Int.toString()`, which is `-` for a negative number, then the decimal digits of the magnitude with no leading zero |
| ViewModel.IntToStringRoundTrip | app/src/main/java/com/professional/calculator/CalculatorViewModel.kt:31 | `Int.toString()` starts with `-` exactly for a negative number, reads back as the number, and is a literal the engine accepts |
| ViewModel.IsBlank | app/src/main/java/com/professional/calculator/CalculatorViewModel.kt:67 | definition: `isBlank`, i.e. every character satisfies `IsWhitespace` (so the empty string is blank) |
| ViewModel.ReplaceAll | app/src/main/java/com/professional/calculator/CalculatorViewModel.kt:72-73 | definition: `String.replace` with a non-empty literal target, scanning left to right and resuming after each replaced occurrence (no overlapping matches); its behaviour is stated by the three lemmas below |
| ViewModel.ReplaceAfterPrefix | app/src/main/java/com/professional/calculator/CalculatorViewModel.kt:71-73 | `replace` leaves a prefix without the target's first character as it is, and goes on after it |
| ViewModel.ReplaceAtFront | app/src/main/java/com/professional/calculator/CalculatorViewModel.kt:71-73 | `replace` turns an occurrence at the front into the replacement and goes on after it |
| ViewModel.ReplaceUnchanged | app/src/main/java/com/professional/calculator/CalculatorViewModel.kt:71-73 | `replace` leaves a string without the target's first character unchanged |
| ViewModel.EngineInput | app/src/main/java/com/professional/calculator/CalculatorViewModel.kt:71-73 | definition: the two chained `replace` calls. First U+0E23 U+0097 becomes `*`, then U+0E23 U+0E17 becomes `/`, in that order |
| ViewModel.EngineInputUnchanged | app/src/main/java/com/professional/calculator/CalculatorViewModel.kt:71-73 | an expression without U+0E23 reaches the engine as typed |
| ViewModel.EngineInputTimes | app/src/main/java/com/professional/calculator/CalculatorViewModel.kt:72 | U+0E23 U+0097 after a clean prefix becomes `*` |
| ViewModel.EngineInputDivide | app/src/main/java/com/professional/calculator/CalculatorViewModel.kt:73 | U+0E23 U+0E17 after a clean prefix is passed over by the first `replace` and becomes `/` |
| ViewModel.KeypadGlyphIgnored | app/src/main/java/com/professional/calculator/CalculatorViewModel.kt:71-75 | `a×b` and `a÷b` reach the engine unchanged and evaluate to `b` |
| ViewModel.Transition | app/src/main/java/com/professional/calculator/CalculatorViewModel.kt:29-48 | definition: one `onAction` call on the screen state and history, one case per branch of the `when`; what each case means is stated by the lemmas below and the class methods are proved to follow it |
| ViewModel.NumberAppendsDigits | app/src/main/java/com/professional/calculator/CalculatorViewModel.kt:31 | a `Number(n)` action extends the expression by the digits of `n`, which read back as `n`; the rest of the state is unchanged |
| ViewModel.DeleteRemovesLast | app/src/main/java/com/professional/calculator/CalculatorViewModel.kt:56-63 | Delete removes exactly the last character of the expression, and does nothing when it is empty |
| ViewModel.DeleteUndoesSymbol | app/src/main/java/com/professional/calculator/CalculatorViewModel.kt:56-63 | Delete after a one-character `Symbol` restores the whole state |
| ViewModel.ClearKeepsHistory | app/src/main/java/com/professional/calculator/CalculatorViewModel.kt:33-35 | Clear empties the expression and the result, and keeps the panel and the history |
| ViewModel.ToggleTwice | app/src/main/java/com/professional/calculator/CalculatorViewModel.kt:38-40 | toggling the history panel twice restores the state |
| ViewModel.ClearHistoryKeepsScreen | app/src/main/java/com/professional/calculator/CalculatorViewModel.kt:41-43 | ClearHistory empties the history and leaves the screen |
| ViewModel.HistoryChangesOnlyByCalculation | app/src/main/java/com/professional/calculator/CalculatorViewModel.kt:29-48 | no action other than Calculate and ClearHistory changes the history |
| ViewModel.ScanBlank | app/src/main/java/com/professional/calculator/CalculatorEngine.kt:41 | whitespace alone tokenizes to nothing |
| ViewModel.BlankIgnored | app/src/main/java/com/professional/calculator/CalculatorViewModel.kt:67 | Calculate on a blank expression changes nothing, although the engine would give 0.0 for it |
| ViewModel.CalculateOutcome | app/src/main/java/com/professional/calculator/CalculatorViewModel.kt:65-89 | Calculate keeps the expression and the panel. The history grows by exactly one item, the typed expression with its formatted value, exactly when the expression is not blank and the engine succeeds. Otherwise the engine's exception shows `"Error"` with the history unchanged |
| ViewModel.ReloadReproduces | app/src/main/java/com/professional/calculator/CalculatorViewModel.kt:44-46 | loading the newest history item shows its expression with an empty result and the panel hidden; calculating it again shows the recorded result |
| ViewModel.CalculatorViewModel.constructor | app/src/main/java/com/professional/calculator/CalculatorViewModel.kt:21-27 | a new view model has an empty expression and result, the panel hidden and an empty history |
| ViewModel.CalculatorViewModel.OnAction | app/src/main/java/com/professional/calculator/CalculatorViewModel.kt:29-48 | the fields end in the state `Transition` gives for the action |
| ViewModel.CalculatorViewModel.Append | app/src/main/java/com/professional/calculator/CalculatorViewModel.kt:50-54 | the text is appended to the expression; nothing else changes |
| ViewModel.CalculatorViewModel.DeleteLast | app/src/main/java/com/professional/calculator/CalculatorViewModel.kt:56-63 | the fields end in `DeletedLast` of the old state |
| ViewModel.CalculatorViewModel.Calculate | app/src/main/java/com/professional/calculator/CalculatorViewModel.kt:65-89 | the fields end in `Calculated` of the old state, calling the engine method on the replaced expression |

## Left out

- Floating point: the engine's doubles are symbolic trees, and their arithmetic is the abstract `Arithmetic` record. Nothing is proved about IEEE-754 rounding, infinities or NaN, such as `"5/0"` giving Infinity.
- `DecimalFormat("#.########")` is the parameter `format` of the view model. The rounding to eight fractional digits, and re-parsing a formatted result, are not modelled.
- Lexicon.IsDigit: accepts ASCII digits only. Kotlin's `Char.isDigit()` also accepts other Unicode decimal digits; `toDoubleOrNull` then rejects the buffer they form, and the shunting-yard drops it. That path is not modelled.
- Strings are sequences of Unicode scalar values; Kotlin strings are UTF-16. `dropLast(1)` on a character outside the Basic Multilingual Plane removes half of a surrogate pair in the source, and is not modelled.
- `StateFlow`, `mutableStateListOf` and the recomposition they trigger are not modelled. Each `update` is a plain assignment to a field, on one thread.
- The engine can throw only `EmptyStackException`, and the model's only error outcome is that one. `toDouble()` is called only after `toDoubleOrNull` succeeded.
- `MainActivity.kt` (the Compose screen and keypad layout) is not part of this model.
- Engine.StrayCharacter: its `IsStray` excludes ASCII digits only, so the lemma also covers a non-ASCII decimal digit such as U+0663. For that character the source behaves differently: Kotlin's `isDigit` buffers `a g b` as one run, `toDoubleOrNull` rejects the run, the shunting-yard drops it, and `evaluate` gives 0.0. The lemma's `b` holds only because the model's `IsDigit` is ASCII-only (see `Lexicon.IsDigit` above).
- The end-to-end lemmas in `Engine` cover families of inputs built from digit literals and one or two operators. Other shapes follow from the stage lemmas, but are not stated end to end.
