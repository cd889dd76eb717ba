/**
 * Character classes and token predicates shared by the three stages of the
 * calculator engine (tokenizer, shunting-yard, postfix evaluator).
 *
 * Tokens are strings, exactly as in the engine: a number literal such as "-3.5",
 * an operator ("+", "-", "*", "/", "^", "%", "sqrt"), a parenthesis, or any other
 * single character that the tokenizer passed through.
 */
module Lexicon {

  type Token = string

  /** The square-root glyph U+221A that the tokenizer turns into the token "sqrt". */
  const SqrtGlyph: char := '\U{221A}'

  function Last<T>(s: seq<T>): T
    requires s != []
  {
    s[|s| - 1]
  }

  function Init<T>(s: seq<T>): seq<T>
    requires s != []
  {
    s[..|s| - 1]
  }

  lemma InitLastOfAppend<T>(s: seq<T>, x: T)
    ensures Init(s + [x]) == s && Last(s + [x]) == x
  {
    assert (s + [x])[..|s|] == s;
  }

  /** ASCII decimal digits; the engine's Char.isDigit also accepts other Unicode digits. */
  predicate IsDigit(c: char) {
    '0' <= c <= '9'
  }

  /**
   * Char.isWhitespace on the JVM: Character.isWhitespace (tab, line feed, vertical tab,
   * form feed, carriage return, the four information separators and the Unicode space,
   * line and paragraph separators other than no-break spaces) or Character.isSpaceChar
   * (every Unicode space, line and paragraph separator, no-break spaces included).
   */
  predicate IsWhitespace(c: char) {
    || ('\t' <= c <= '\r')
    || ('\U{1C}' <= c <= '\U{1F}')
    || c == ' ' || c == '\U{A0}' || c == '\U{1680}'
    || ('\U{2000}' <= c <= '\U{200A}')
    || c == '\U{2028}' || c == '\U{2029}' || c == '\U{202F}' || c == '\U{205F}' || c == '\U{3000}'
  }

  /** The engine's isOperator: membership in its fixed list of operator tokens. */
  predicate IsOperator(t: Token) {
    t in ["+", "-", "*", "/", "^", "%", "sqrt"]
  }

  /** The engine's precedence table; 0 for anything that is not an operator. */
  function Precedence(op: Token): (p: int)
    ensures 0 <= p <= 3
    ensures p > 0 <==> IsOperator(op)
    ensures op == "sqrt" ==> p == 3
  {
    if op == "+" || op == "-" then 1
    else if op == "*" || op == "/" || op == "%" then 2
    else if op == "^" || op == "sqrt" then 3
    else 0
  }

  function DigitCount(s: string): nat {
    if s == [] then 0 else (if IsDigit(s[0]) then 1 else 0) + DigitCount(s[1..])
  }

  function DotCount(s: string): nat {
    if s == [] then 0 else (if s[0] == '.' then 1 else 0) + DotCount(s[1..])
  }

  /** The text of a literal after an optional leading minus sign. */
  function Unsigned(t: Token): Token {
    if t != [] && t[0] == '-' then t[1..] else t
  }

  /**
   * The engine's `toDoubleOrNull() != null`, restricted to the shapes the tokenizer can
   * produce: an optional leading '-', then only digits and dots, at least one digit and
   * at most one dot. Under it ".", "-" and "1.2.3" are not numbers.
   */
  predicate IsNumber(t: Token) {
    var body := Unsigned(t);
    DigitCount(body) >= 1 && DotCount(body) <= 1 && DigitCount(body) + DotCount(body) == |body|
  }

  /** A run of ASCII digits. */
  predicate IsDigits(s: string) {
    forall k :: 0 <= k < |s| ==> IsDigit(s[k])
  }

  lemma {:induction false} DigitsCount(s: string)
    requires IsDigits(s)
    ensures DigitCount(s) == |s| && DotCount(s) == 0
  {
    if s != [] {
      assert IsDigits(s[1..]) by {
        forall k | 0 <= k < |s[1..]| ensures IsDigit(s[1..][k]) {
          assert s[1..][k] == s[k + 1];
        }
      }
      DigitsCount(s[1..]);
    }
  }

  lemma DigitsInit(d: string)
    requires d != [] && IsDigits(d)
    ensures IsDigits(Init(d)) && IsDigit(Last(d))
  {
    assert forall k :: 0 <= k < |Init(d)| ==> Init(d)[k] == d[k];
  }

  lemma AppendInitLast<T>(p: seq<T>, d: seq<T>)
    requires d != []
    ensures p + d == (p + Init(d)) + [Last(d)]
  {
    assert d == Init(d) + [Last(d)];
  }

  /** A non-empty run of digits is a number, and so is its negation. */
  lemma DigitsAreNumbers(s: string)
    requires s != [] && IsDigits(s)
    ensures IsNumber(s) && IsNumber("-" + s)
  {
    DigitsCount(s);
    assert s[0] != '-' by { assert IsDigit(s[0]); }
    assert ("-" + s)[1..] == s;
  }

  /** Parentheses are not operators: a "(" on the stack is never popped by precedence. */
  lemma ParenPrecedence()
    ensures Precedence("(") == 0 && Precedence(")") == 0
  {
    assert "(" != "+" && "(" != "-" && "(" != "*" && "(" != "/" && "(" != "^" && "(" != "%" && "(" != "sqrt" by {
      assert "("[0] == '(';
    }
    assert ")" != "+" && ")" != "-" && ")" != "*" && ")" != "/" && ")" != "^" && ")" != "%" && ")" != "sqrt" by {
      assert ")"[0] == ')';
    }
  }

  /** A number is never an operator or a parenthesis. */
  lemma NumberIsNotSymbol(t: Token)
    ensures IsOperator(t) || t == "(" || t == ")" ==> !IsNumber(t)
  {
    if t == "(" || t == ")" {
      assert DigitCount(Unsigned(t)) == 0;
    }
  }
}
