/**
 * The first stage of the engine: `tokenize` scans the expression left to right,
 * merging runs of digits and dots into a number buffer, folding a unary minus into
 * that buffer, mapping the square-root glyph to "sqrt" and dropping whitespace.
 *
 * The loop's state after each character is given by `Scan`, a left fold of `Step`;
 * `Tokens` is the specification of the whole function and `Tokenize` the loop.
 */
module Tokenizer {
  import opened Lexicon

  /** The loop state: the tokens emitted so far and the pending number buffer. */
  datatype Lexer = Lexer(tokens: seq<Token>, buffer: string)

  /** The token list with a non-empty buffer emitted as one more token. */
  function Flush(st: Lexer): seq<Token> {
    if st.buffer != [] then st.tokens + [st.buffer] else st.tokens
  }

  /** A '-' read in this context is unary: no token yet, or after an operator or "(". */
  predicate UnaryContext(tokens: seq<Token>) {
    tokens == [] || IsOperator(Last(tokens)) || Last(tokens) == "("
  }

  /** One iteration of the tokenizer's loop on character `c`. */
  function Step(st: Lexer, c: char): Lexer {
    if IsDigit(c) || c == '.' then
      Lexer(st.tokens, st.buffer + [c])
    else
      var tokens := Flush(st);
      if c == SqrtGlyph then Lexer(tokens + ["sqrt"], [])
      else if c == '-' && UnaryContext(tokens) then Lexer(tokens, "-")
      else if !IsWhitespace(c) then Lexer(tokens + [[c]], [])
      else Lexer(tokens, [])
  }

  /** The loop state after reading all of `s`. */
  function Scan(s: string): Lexer {
    if s == [] then Lexer([], []) else Step(Scan(Init(s)), Last(s))
  }

  /** What `tokenize` returns: the final state with the buffer flushed. */
  function Tokens(s: string): seq<Token> {
    Flush(Scan(s))
  }

  method Tokenize(expression: string) returns (tokens: seq<Token>)
    ensures tokens == Tokens(expression)
  {
    tokens := [];
    var buffer: string := [];
    var i := 0;
    while i < |expression|
      invariant 0 <= i <= |expression|
      invariant Lexer(tokens, buffer) == Scan(expression[..i])
    {
      var c := expression[i];
      ghost var before := Lexer(tokens, buffer);
      InitLastOfAppend(expression[..i], c);
      assert expression[..i + 1] == expression[..i] + [c];
      if IsDigit(c) || c == '.' {
        buffer := buffer + [c];
      } else {
        if buffer != [] {
          tokens := tokens + [buffer];
          buffer := [];
        }
        if c == SqrtGlyph {
          tokens := tokens + ["sqrt"];
        } else if c == '-' && (tokens == [] || IsOperator(tokens[|tokens| - 1]) || tokens[|tokens| - 1] == "(") {
          buffer := buffer + ['-'];
        } else if !IsWhitespace(c) {
          tokens := tokens + [[c]];
        }
      }
      assert Lexer(tokens, buffer) == Step(before, c);
      i := i + 1;
    }
    assert expression[..i] == expression;
    if buffer != [] {
      tokens := tokens + [buffer];
    }
  }

  /** Reading one more character is one more step of the loop. */
  lemma ScanSnoc(p: string, c: char)
    ensures Scan(p + [c]) == Step(Scan(p), c)
  {
    InitLastOfAppend(p, c);
  }

  /** A run of digits only grows the number buffer. */
  lemma {:induction false} ScanDigits(p: string, d: string)
    requires IsDigits(d)
    ensures Scan(p + d) == Lexer(Scan(p).tokens, Scan(p).buffer + d)
  {
    if d == [] {
      assert p + d == p;
      assert Scan(p).buffer + d == Scan(p).buffer;
    } else {
      var d0, c := Init(d), Last(d);
      DigitsInit(d);
      ScanDigits(p, d0);
      AppendInitLast(p, d);
      ScanSnoc(p + d0, c);
      AppendInitLast(Scan(p).buffer, d);
    }
  }

  // ---------------------------------------------------------------------------
  // Token shapes

  /** A number buffer: digits and dots, with a '-' allowed only as first character. */
  predicate IsBuffer(b: string) {
    forall k :: 0 <= k < |b| ==> IsDigit(b[k]) || b[k] == '.' || (k == 0 && b[k] == '-')
  }

  /** A character the tokenizer emits as a one-character token. */
  predicate IsPassedThrough(c: char) {
    !IsDigit(c) && c != '.' && c != SqrtGlyph && !IsWhitespace(c)
  }

  /** Every token is "sqrt", a flushed number buffer, or one passed-through character. */
  predicate WellShaped(t: Token) {
    t == "sqrt" || (t != [] && IsBuffer(t)) || (|t| == 1 && IsPassedThrough(t[0]))
  }

  /** A token longer than "-" that starts with '-' was emitted where a '-' is unary. */
  predicate NegativesInContext(tokens: seq<Token>) {
    forall k :: 0 <= k < |tokens| && |tokens[k]| > 1 && tokens[k][0] == '-' ==> UnaryContext(tokens[..k])
  }

  predicate ShapeInvariant(st: Lexer) {
    && IsBuffer(st.buffer)
    && (forall t <- st.tokens :: WellShaped(t))
    && NegativesInContext(st.tokens)
    && (st.buffer != [] && st.buffer[0] == '-' ==> UnaryContext(st.tokens))
  }

  lemma FlushShape(st: Lexer)
    requires ShapeInvariant(st)
    ensures (forall t <- Flush(st) :: WellShaped(t)) && NegativesInContext(Flush(st))
  {
    if st.buffer != [] {
      var ts := Flush(st);
      assert ts[..|st.tokens|] == st.tokens;
      forall k | 0 <= k < |ts| && |ts[k]| > 1 && ts[k][0] == '-'
        ensures UnaryContext(ts[..k])
      {
        if k < |st.tokens| {
          assert ts[..k] == st.tokens[..k];
        }
      }
    }
  }

  lemma AppendShape(tokens: seq<Token>, t: Token)
    requires (forall u <- tokens :: WellShaped(u)) && NegativesInContext(tokens)
    requires WellShaped(t) && (|t| <= 1 || t[0] != '-')
    ensures (forall u <- tokens + [t] :: WellShaped(u)) && NegativesInContext(tokens + [t])
  {
    var ts := tokens + [t];
    forall k | 0 <= k < |ts| && |ts[k]| > 1 && ts[k][0] == '-'
      ensures UnaryContext(ts[..k])
    {
      assert ts[..k] == tokens[..k];
    }
  }

  lemma {:induction false} ScanShape(s: string)
    ensures ShapeInvariant(Scan(s))
  {
    if s != [] {
      ScanShape(Init(s));
      var st, c := Scan(Init(s)), Last(s);
      if !(IsDigit(c) || c == '.') {
        FlushShape(st);
        var tokens := Flush(st);
        if c == SqrtGlyph {
          AppendShape(tokens, "sqrt");
        } else if c == '-' && UnaryContext(tokens) {
        } else if !IsWhitespace(c) {
          AppendShape(tokens, [c]);
        }
      }
    }
  }

  /**
   * The shape of every token: nothing empty, a '-' only as the first character of a
   * literal, and a negative literal only where a '-' counts as unary.
   */
  lemma TokenShapes(s: string)
    ensures forall t <- Tokens(s) :: t != [] && WellShaped(t)
    ensures NegativesInContext(Tokens(s))
  {
    ScanShape(s);
    FlushShape(Scan(s));
  }

  /**
   * The unary-minus rule: a '-' following the prefix `p` goes into the number buffer
   * exactly when the tokens so far (buffer flushed) are empty or end in an operator
   * or "("; otherwise it is emitted as the token "-".
   */
  lemma UnaryMinusRule(p: string)
    ensures var before := Flush(Scan(p));
      Scan(p + "-") == if UnaryContext(before) then Lexer(before, "-") else Lexer(before + ["-"], [])
  {
    InitLastOfAppend(p, '-');
  }

  // ---------------------------------------------------------------------------
  // Round trip

  /** How a token is written in the expression: "sqrt" as the glyph, others as themselves. */
  function Spelling(t: Token): string {
    if t == "sqrt" then [SqrtGlyph] else t
  }

  function Spelled(tokens: seq<Token>): string {
    if tokens == [] then [] else Spelled(Init(tokens)) + Spelling(Last(tokens))
  }

  function WithoutWhitespace(s: string): string {
    if s == [] then [] else WithoutWhitespace(Init(s)) + (if IsWhitespace(Last(s)) then [] else [Last(s)])
  }

  lemma SpelledAppend(tokens: seq<Token>, t: Token)
    ensures Spelled(tokens + [t]) == Spelled(tokens) + Spelling(t)
  {
    InitLastOfAppend(tokens, t);
  }

  lemma BufferIsNotSqrt(b: string)
    ensures IsBuffer(b) ==> Spelling(b) == b
  {
    if b == "sqrt" {
      assert b[1] == 'q';
    }
  }

  /** One step writes back as the character read, unless that character is whitespace. */
  lemma StepSpelling(st: Lexer, c: char)
    requires IsBuffer(st.buffer)
    ensures var next := Step(st, c);
      Spelled(next.tokens) + next.buffer == Spelled(st.tokens) + st.buffer + (if IsWhitespace(c) then [] else [c])
  {
    if !(IsDigit(c) || c == '.') {
      var tokens := Flush(st);
      assert Spelled(tokens) == Spelled(st.tokens) + st.buffer by {
        if st.buffer != [] {
          SpelledAppend(st.tokens, st.buffer);
          BufferIsNotSqrt(st.buffer);
        }
      }
      if c == SqrtGlyph {
        SpelledAppend(tokens, "sqrt");
      } else if c == '-' && UnaryContext(tokens) {
      } else if !IsWhitespace(c) {
        SpelledAppend(tokens, [c]);
      }
    }
  }

  lemma {:induction false} ScanSpelling(s: string)
    ensures Spelled(Scan(s).tokens) + Scan(s).buffer == WithoutWhitespace(s)
  {
    if s != [] {
      ScanSpelling(Init(s));
      ScanShape(Init(s));
      StepSpelling(Scan(Init(s)), Last(s));
    }
  }

  /**
   * Tokenizing loses only whitespace: writing the tokens back, with "sqrt" as the glyph,
   * gives the input with its whitespace removed.
   */
  lemma TokensRoundTrip(s: string)
    ensures Spelled(Tokens(s)) == WithoutWhitespace(s)
  {
    ScanSpelling(s);
    ScanShape(s);
    if Scan(s).buffer != [] {
      SpelledAppend(Scan(s).tokens, Scan(s).buffer);
      BufferIsNotSqrt(Scan(s).buffer);
    }
  }
}
