/**
 * The calculator screen's view model: the state the screen shows (`UiState`), the
 * history of finished calculations, and the handling of each keypad action.
 *
 * `Transition` says what one action does to the screen and the history;
 * the class `CalculatorViewModel` holds that state in fields and its methods
 * change it in place, each proved to end in the state `Transition` gives.
 * The engine is the verified pipeline of the module `Engine`; the number formatter
 * is a parameter `format` of the view model.
 */
module ViewModel {
  import opened Lexicon
  import Tokenizer
  import opened PostfixEval
  import Engine

  /** What the screen shows. */
  datatype UiState = UiState(expression: string, result: string, historyVisible: bool)

  /** The state a new view model starts in: empty expression and result, history hidden. */
  const InitialUiState := UiState("", "", false)

  /** One finished calculation: the expression as typed and its formatted result. */
  datatype HistoryItem = HistoryItem(expression: string, result: string)

  /** A Kotlin `Int`. */
  newtype Int32 = x: int | -0x8000_0000 <= x < 0x8000_0000

  /** The actions the keypad and the history panel send. */
  datatype Action =
    | Number(number: Int32)
    | Symbol(symbol: string)
    | Clear
    | Delete
    | Calculate
    | ToggleHistory
    | ClearHistory
    | LoadHistoryItem(item: HistoryItem)

  /** The view model's whole state: the screen and the history, newest item first. */
  datatype Screen = Screen(ui: UiState, history: seq<HistoryItem>)

  // ---------------------------------------------------------------------------
  // Int.toString

  function DigitChar(d: nat): char
    requires d < 10
  {
    ('0' as int + d) as char
  }

  /** The decimal digits of `n`, without leading zeros. */
  function NatToString(n: nat): string {
    if n < 10 then [DigitChar(n)] else NatToString(n / 10) + [DigitChar(n % 10)]
  }

  /** Kotlin's `Int.toString()`: a '-' for a negative number, then the digits of its magnitude. */
  function IntToString(n: Int32): string {
    if n < 0 then "-" + NatToString(-(n as int)) else NatToString(n as int)
  }

  /** The number a string of decimal digits stands for. */
  function DigitsValue(s: string): nat
    requires IsDigits(s)
  {
    if s == [] then 0 else DigitsValue(Init(s)) * 10 + (Last(s) as int - '0' as int)
  }

  /** The number a decimal numeral with an optional leading '-' stands for. */
  function NumeralValue(s: string): int
    requires s != [] && (IsDigits(s) || (s[0] == '-' && IsDigits(s[1..])))
  {
    if s[0] == '-' then -(DigitsValue(s[1..]) as int) else DigitsValue(s)
  }

  lemma {:induction false} NatToStringRoundTrip(n: nat)
    ensures IsDigits(NatToString(n)) && NatToString(n) != []
    ensures |NatToString(n)| > 1 ==> NatToString(n)[0] != '0'
    ensures DigitsValue(NatToString(n)) == n
  {
    var s := NatToString(n);
    if n >= 10 {
      NatToStringRoundTrip(n / 10);
      var p := NatToString(n / 10);
      assert s == p + [DigitChar(n % 10)];
      assert Init(s) == p && Last(s) == DigitChar(n % 10);
      assert s[0] == p[0];
    }
  }

  /**
   * The digits `Number(n)` appends read back as `n`, and they form a number literal
   * of the engine.
   */
  lemma IntToStringRoundTrip(n: Int32)
    ensures var s := IntToString(n);
      && s != [] && (s[0] == '-' <==> n < 0)
      && (IsDigits(s) || (s[0] == '-' && IsDigits(s[1..])))
      && NumeralValue(s) == n as int
      && IsNumber(s)
  {
    var s := IntToString(n);
    if n < 0 {
      NatToStringRoundTrip(-(n as int));
      assert s[1..] == NatToString(-(n as int));
      DigitsAreNumbers(s[1..]);
      assert s == "-" + s[1..];
    } else {
      NatToStringRoundTrip(n as int);
      DigitsAreNumbers(s);
    }
  }

  // ---------------------------------------------------------------------------
  // isBlank and replace

  /** Kotlin's `isBlank()`: every character is whitespace (the empty string included). */
  predicate IsBlank(s: string) {
    forall k :: 0 <= k < |s| ==> IsWhitespace(s[k])
  }

  /**
   * Kotlin's `replace(oldValue, newValue)`: scanning from the left, each occurrence of
   * `target` is replaced by `replacement` and the scan resumes after it.
   */
  function ReplaceAll(s: string, target: string, replacement: string): string
    requires target != []
    decreases |s|
  {
    if |s| < |target| then s
    else if s[..|target|] == target then replacement + ReplaceAll(s[|target|..], target, replacement)
    else [s[0]] + ReplaceAll(s[1..], target, replacement)
  }

  /** Replacing skips over a prefix that holds no first character of the target. */
  lemma {:induction false} ReplaceAfterPrefix(x: string, y: string, target: string, replacement: string)
    requires target != [] && target[0] !in x
    ensures ReplaceAll(x + y, target, replacement) == x + ReplaceAll(y, target, replacement)
    decreases |x|
  {
    if x != [] {
      var s := x + y;
      if |s| < |target| {
        assert |y| < |target|;
      } else {
        assert s[..|target|] != target by {
          assert s[0] == x[0] && x[0] in x;
        }
        ReplaceAfterPrefix(x[1..], y, target, replacement);
        assert s[1..] == x[1..] + y;
        assert x == [x[0]] + x[1..];
      }
    } else {
      assert x + y == y;
    }
  }

  /** A string without the target's first character is left as it is. */
  lemma ReplaceUnchanged(s: string, target: string, replacement: string)
    requires target != [] && target[0] !in s
    ensures ReplaceAll(s, target, replacement) == s
  {
    ReplaceAfterPrefix(s, [], target, replacement);
    assert s + [] == s;
  }

  /** An occurrence at the front is replaced and the scan goes on after it. */
  lemma ReplaceAtFront(y: string, target: string, replacement: string)
    requires target != []
    ensures ReplaceAll(target + y, target, replacement) == replacement + ReplaceAll(y, target, replacement)
  {
    var s := target + y;
    assert s[..|target|] == target && s[|target|..] == y;
  }

  /** The first of the two mis-encoded targets of the source: U+0E23 U+0097. */
  const TimesTarget: string := ['\U{0E23}', '\U{0097}']

  /** The second target: U+0E23 U+0E17. */
  const DivideTarget: string := ['\U{0E23}', '\U{0E17}']

  /** The expression handed to the engine: the two `replace` calls, in order. */
  function EngineInput(expression: string): string {
    ReplaceAll(ReplaceAll(expression, TimesTarget, "*"), DivideTarget, "/")
  }

  /**
   * Both targets start with U+0E23, so an expression without that character reaches
   * the engine as typed; in particular the keypad's '×' (U+00D7) and '÷' (U+00F7)
   * are not turned into "*" and "/".
   */
  lemma EngineInputUnchanged(expression: string)
    requires '\U{0E23}' !in expression
    ensures EngineInput(expression) == expression
  {
    ReplaceUnchanged(expression, TimesTarget, "*");
    ReplaceUnchanged(expression, DivideTarget, "/");
  }

  /** Typed with the keypad's '×' or '÷', "a×b" reaches the engine as typed and evaluates to b. */
  lemma KeypadGlyphIgnored(a: string, g: char, b: string)
    requires Engine.IsLiteral(a) && Engine.IsLiteral(b) && (g == '\U{00D7}' || g == '\U{00F7}')
    ensures Engine.Evaluation(EngineInput(a + [g] + b)) == Ok(Literal(b))
  {
    var e := a + [g] + b;
    assert '\U{0E23}' !in e by {
      assert forall k :: 0 <= k < |e| ==> e[k] == g || IsDigit(e[k]) by {
        forall k | 0 <= k < |e| ensures e[k] == g || IsDigit(e[k]) {
          if k < |a| {
            assert e[k] == a[k];
          } else if k > |a| {
            assert e[k] == b[k - |a| - 1];
          }
        }
      }
    }
    EngineInputUnchanged(e);
    Engine.StrayCharacter(a, g, b);
  }

  /** One replacement after a prefix that holds no U+0E23. */
  lemma ReplaceAfterClean(a: string, target: string, replacement: string, y: string)
    requires '\U{0E23}' !in a && target != [] && target[0] == '\U{0E23}'
    ensures ReplaceAll(a + (target + y), target, replacement) == a + (replacement + ReplaceAll(y, target, replacement))
  {
    ReplaceAfterPrefix(a, target + y, target, replacement);
    ReplaceAtFront(y, target, replacement);
  }

  /** The second replacement passes over "*" and a prefix that holds no U+0E23. */
  lemma DivideSkipsTimes(a: string, r1: string)
    requires '\U{0E23}' !in a
    ensures ReplaceAll(a + ("*" + r1), DivideTarget, "/") == a + ("*" + ReplaceAll(r1, DivideTarget, "/"))
  {
    assert '\U{0E23}' !in a + "*";
    assert a + ("*" + r1) == (a + "*") + r1;
    ReplaceAfterPrefix(a + "*", r1, DivideTarget, "/");
  }

  /** The first replacement passes over the second target. */
  lemma TimesSkipsDivide(a: string, b: string)
    requires '\U{0E23}' !in a
    ensures ReplaceAll(a + (DivideTarget + b), TimesTarget, "*") == a + (DivideTarget + ReplaceAll(b, TimesTarget, "*"))
  {
    var s := DivideTarget + b;
    assert s[..2] != TimesTarget by {
      assert s[1] == '\U{0E17}';
    }
    assert s[1..] == ['\U{0E17}'] + b;
    ReplaceAfterPrefix(['\U{0E17}'], b, TimesTarget, "*");
    assert DivideTarget + ReplaceAll(b, TimesTarget, "*") == ['\U{0E23}'] + (['\U{0E17}'] + ReplaceAll(b, TimesTarget, "*"));
    ReplaceAfterPrefix(a, s, TimesTarget, "*");
  }

  /** U+0E23 U+0097 becomes "*", after a prefix without U+0E23. */
  lemma EngineInputTimes(a: string, b: string)
    requires '\U{0E23}' !in a
    ensures EngineInput(a + (TimesTarget + b)) == a + ("*" + EngineInput(b))
  {
    var r1 := ReplaceAll(b, TimesTarget, "*");
    var r2 := ReplaceAll(r1, DivideTarget, "/");
    ReplaceAfterClean(a, TimesTarget, "*", b);
    DivideSkipsTimes(a, r1);
  }

  /** U+0E23 U+0E17 becomes "/", after a prefix without U+0E23. */
  lemma EngineInputDivide(a: string, b: string)
    requires '\U{0E23}' !in a
    ensures EngineInput(a + (DivideTarget + b)) == a + ("/" + EngineInput(b))
  {
    var r1 := ReplaceAll(b, TimesTarget, "*");
    var r2 := ReplaceAll(r1, DivideTarget, "/");
    TimesSkipsDivide(a, b);
    ReplaceAfterClean(a, DivideTarget, "/", r1);
  }

  // ---------------------------------------------------------------------------
  // Actions on values

  function Appended(s: Screen, text: string): Screen {
    s.(ui := s.ui.(expression := s.ui.expression + text))
  }

  function DeletedLast(s: Screen): Screen {
    var e := s.ui.expression;
    if e != [] then s.(ui := s.ui.(expression := e[..|e| - 1])) else s
  }

  /**
   * `calculate`: a blank expression is ignored; otherwise the engine runs on the
   * expression with its glyphs replaced, and either the formatted value becomes the
   * result and is recorded at the head of the history under the expression as typed,
   * or the engine's exception shows "Error".
   */
  function Calculated(format: Expr -> string, s: Screen): Screen {
    var expression := s.ui.expression;
    if IsBlank(expression) then s
    else
      match Engine.Evaluation(EngineInput(expression))
      case EmptyStack => s.(ui := s.ui.(result := "Error"))
      case Ok(value) =>
        var formatted := format(value);
        Screen(s.ui.(result := formatted), [HistoryItem(expression, formatted)] + s.history)
  }

  /** What `onAction` does. */
  function Transition(format: Expr -> string, s: Screen, action: Action): Screen {
    match action
    case Number(n) => Appended(s, IntToString(n))
    case Symbol(symbol) => Appended(s, symbol)
    case Clear => s.(ui := s.ui.(expression := "", result := ""))
    case Delete => DeletedLast(s)
    case Calculate => Calculated(format, s)
    case ToggleHistory => s.(ui := s.ui.(historyVisible := !s.ui.historyVisible))
    case ClearHistory => s.(history := [])
    case LoadHistoryItem(item) => s.(ui := UiState(item.expression, "", false))
  }

  // ---------------------------------------------------------------------------
  // Properties of the actions

  /** Toggling the history panel twice leaves everything as it was. */
  lemma ToggleTwice(format: Expr -> string, s: Screen)
    ensures Transition(format, Transition(format, s, ToggleHistory), ToggleHistory) == s
  {
  }

  /** Delete removes exactly the last character, and does nothing to an empty expression. */
  lemma DeleteRemovesLast(format: Expr -> string, s: Screen)
    ensures var next := Transition(format, s, Delete);
      && next.history == s.history
      && next.ui.result == s.ui.result && next.ui.historyVisible == s.ui.historyVisible
      && (s.ui.expression == [] ==> next == s)
      && (s.ui.expression != [] ==> next.ui.expression + [Last(s.ui.expression)] == s.ui.expression)
  {
    var e := s.ui.expression;
    if e != [] {
      assert e[..|e| - 1] + [Last(e)] == e;
    }
  }

  /** Delete undoes a one-character symbol. */
  lemma DeleteUndoesSymbol(format: Expr -> string, s: Screen, c: char)
    ensures Transition(format, Transition(format, s, Symbol([c])), Delete) == s
  {
    var e := s.ui.expression + [c];
    assert e[..|e| - 1] == s.ui.expression;
  }

  /** A digit key appends the number's decimal digits, which read back as that number. */
  lemma NumberAppendsDigits(format: Expr -> string, s: Screen, n: Int32)
    ensures var next := Transition(format, s, Number(n));
      && next.history == s.history
      && next.ui.result == s.ui.result && next.ui.historyVisible == s.ui.historyVisible
      && |next.ui.expression| > |s.ui.expression|
      && next.ui.expression[..|s.ui.expression|] == s.ui.expression
      && var appended := next.ui.expression[|s.ui.expression|..];
        (IsDigits(appended) || (appended[0] == '-' && IsDigits(appended[1..])))
        && NumeralValue(appended) == n as int
  {
    IntToStringRoundTrip(n);
    var e := s.ui.expression + IntToString(n);
    assert e[..|s.ui.expression|] == s.ui.expression;
    assert e[|s.ui.expression|..] == IntToString(n);
  }

  /** Clear empties the expression and the result; the panel and the history stay. */
  lemma ClearKeepsHistory(format: Expr -> string, s: Screen)
    ensures var next := Transition(format, s, Clear);
      && next.ui.expression == [] && next.ui.result == []
      && next.ui.historyVisible == s.ui.historyVisible && next.history == s.history
  {
  }

  /** Clearing the history leaves the screen as it is. */
  lemma ClearHistoryKeepsScreen(format: Expr -> string, s: Screen)
    ensures var next := Transition(format, s, ClearHistory);
      next.history == [] && next.ui == s.ui
  {
  }

  /** Only calculating and clearing the history change the history. */
  lemma HistoryChangesOnlyByCalculation(format: Expr -> string, s: Screen, action: Action)
    requires !action.Calculate? && !action.ClearHistory?
    ensures Transition(format, s, action).history == s.history
  {
  }

  /** Whitespace alone scans to nothing. */
  lemma {:induction false} ScanBlank(s: string)
    requires IsBlank(s)
    ensures Tokenizer.Scan(s) == Tokenizer.Lexer([], [])
  {
    if s != [] {
      assert IsBlank(Init(s)) by {
        forall k | 0 <= k < |Init(s)| ensures IsWhitespace(Init(s)[k]) {
          assert Init(s)[k] == s[k];
        }
      }
      ScanBlank(Init(s));
      assert IsWhitespace(Last(s));
    }
  }

  /**
   * A blank expression is left alone: nothing changes, although the engine would
   * evaluate it to 0.0.
   */
  lemma BlankIgnored(format: Expr -> string, s: Screen)
    requires IsBlank(s.ui.expression)
    ensures Transition(format, s, Calculate) == s
    ensures Engine.Evaluation(s.ui.expression) == Ok(Zero)
  {
    ScanBlank(s.ui.expression);
    Engine.EmptyExpression();
    assert Tokenizer.Tokens(s.ui.expression) == Tokenizer.Tokens([]);
  }

  /**
   * Calculating keeps the expression and the panel. It adds one history item, the
   * expression with the formatted value, exactly when the expression is not blank and
   * the engine returns a value; "Error" is shown, with the history unchanged, exactly
   * when the engine pops an empty stack.
   */
  lemma CalculateOutcome(format: Expr -> string, s: Screen)
    ensures var next := Transition(format, s, Calculate);
      var outcome := Engine.Evaluation(EngineInput(s.ui.expression));
      && next.ui.expression == s.ui.expression
      && next.ui.historyVisible == s.ui.historyVisible
      && (|next.history| == |s.history| + 1 <==> !IsBlank(s.ui.expression) && outcome.Ok?)
      && (|next.history| == |s.history| + 1 ==>
            next.history == [HistoryItem(s.ui.expression, format(outcome.value))] + s.history
            && next.ui.result == format(outcome.value))
      && (IsBlank(s.ui.expression) ==> next == s)
      && (!IsBlank(s.ui.expression) && outcome.EmptyStack? ==>
            next.history == s.history && next.ui.result == "Error")
  {
  }

  /**
   * Loading an item of the history shows its expression with an empty result and hides
   * the panel; calculating it again shows the result it was recorded with.
   */
  lemma ReloadReproduces(format: Expr -> string, s: Screen)
    requires |Transition(format, s, Calculate).history| == |s.history| + 1
    ensures var done := Transition(format, s, Calculate);
      var item := done.history[0];
      var loaded := Transition(format, done, LoadHistoryItem(item));
      && loaded.ui == UiState(item.expression, "", false)
      && loaded.history == done.history
      && Transition(format, loaded, Calculate).ui.result == item.result
  {
    CalculateOutcome(format, s);
  }

  // ---------------------------------------------------------------------------
  // The view model object

  class CalculatorViewModel {
    var uiState: UiState
    var history: seq<HistoryItem>
    /** The `DecimalFormat("#.########")` the results are written with. */
    const format: Expr -> string

    function State(): Screen
      reads this
    {
      Screen(uiState, history)
    }

    constructor(format: Expr -> string)
      ensures uiState == InitialUiState && history == [] && this.format == format
    {
      uiState := InitialUiState;
      history := [];
      this.format := format;
    }

    method OnAction(action: Action)
      modifies this
      ensures State() == Transition(format, old(State()), action)
    {
      match action
      case Number(n) =>
        Append(IntToString(n));
      case Symbol(symbol) =>
        Append(symbol);
      case Clear =>
        uiState := uiState.(expression := "", result := "");
      case Delete =>
        DeleteLast();
      case Calculate =>
        Calculate();
      case ToggleHistory =>
        uiState := uiState.(historyVisible := !uiState.historyVisible);
      case ClearHistory =>
        history := [];
      case LoadHistoryItem(item) =>
        uiState := uiState.(expression := item.expression, result := "", historyVisible := false);
    }

    method Append(text: string)
      modifies this
      ensures uiState == old(uiState).(expression := old(uiState).expression + text)
      ensures history == old(history)
    {
      uiState := uiState.(expression := uiState.expression + text);
    }

    method DeleteLast()
      modifies this
      ensures State() == DeletedLast(old(State()))
    {
      var current := uiState.expression;
      if current != [] {
        uiState := uiState.(expression := current[..|current| - 1]);
      }
    }

    method Calculate()
      modifies this
      ensures State() == Calculated(format, old(State()))
    {
      var expression := uiState.expression;
      if IsBlank(expression) {
        return;
      }
      var outcome := Engine.Evaluate(EngineInput(expression));
      match outcome
      case Ok(value) =>
        var formatted := format(value);
        history := [HistoryItem(expression, formatted)] + history;
        uiState := uiState.(result := formatted);
      case EmptyStack =>
        uiState := uiState.(result := "Error");
    }
  }
}
