/**
 The tokenizer as a pure function. Each character of the input is classified
 on its own: whitespace is skipped, a digit becomes a one-character `Number`
 token, `+ - * /` become `Operator` tokens, parentheses become `OpenParen` and
 `CloseParen`, and every other character is dropped without an error.

 Two reference definitions sit beside `Tokenize`: `Strip` keeps exactly the
 characters that yield a token, and `Render` concatenates the text of a token
 sequence. The lemmas tie the three together.
 */
module Lexer {
  import opened Tokens

  /** `isspace` in the "C" locale: space, tab, newline, vertical tab, form
      feed and carriage return. */
  predicate IsSpace(c: char)
  {
    c == ' ' || c == '\t' || c == '\n' || c == '\U{B}' || c == '\U{C}' || c == '\r'
  }

  /** `isdigit`: the ASCII decimal digits. */
  predicate IsDigit(c: char)
  {
    '0' <= c <= '9'
  }

  predicate IsOperatorChar(c: char)
  {
    c == '+' || c == '-' || c == '*' || c == '/'
  }

  /** The characters the tokenizer turns into a token. */
  predicate IsTokenChar(c: char)
  {
    IsDigit(c) || IsOperatorChar(c) || c == '(' || c == ')'
  }

  /** What one input character does: nothing, or write one token. */
  datatype Scan = Skip | Emit(token: Token)

  /** One iteration of the tokenizer's loop, in the order of its tests. */
  function Classify(c: char): (r: Scan)
    ensures r.Emit? <==> IsTokenChar(c)
    ensures IsSpace(c) ==> r.Skip?
    ensures r.Emit? ==> r.token.value == [c]
    ensures r.Emit? ==> (r.token.kind == Number <==> IsDigit(c))
    ensures r.Emit? ==> (r.token.kind == Operator <==> IsOperatorChar(c))
    ensures r.Emit? ==> (r.token.kind == OpenParen <==> c == '(')
    ensures r.Emit? ==> (r.token.kind == CloseParen <==> c == ')')
  {
    if IsSpace(c) then Skip
    else if IsDigit(c) then Emit(Token(Number, [c]))
    else if c == '+' then Emit(Token(Operator, "+"))
    else if c == '-' then Emit(Token(Operator, "-"))
    else if c == '*' then Emit(Token(Operator, "*"))
    else if c == '/' then Emit(Token(Operator, "/"))
    else if c == '(' then Emit(Token(OpenParen, "("))
    else if c == ')' then Emit(Token(CloseParen, ")"))
    else Skip
  }

  /** The tokens one character contributes: none or one. */
  function TokensOf(c: char): (r: seq<Token>)
    ensures |r| <= 1
    ensures |r| == 1 <==> IsTokenChar(c)
  {
    match Classify(c)
    case Skip => []
    case Emit(t) => [t]
  }

  /** The token sequence of a whole input, scanning left to right. */
  function Tokenize(s: string): (r: seq<Token>)
    ensures |r| <= |s|
    decreases |s|
  {
    if |s| == 0 then [] else Tokenize(s[..|s| - 1]) + TokensOf(s[|s| - 1])
  }

  /** The input with every character that yields no token removed. */
  function Strip(s: string): (r: string)
    ensures |r| <= |s|
    ensures forall i :: 0 <= i < |r| ==> IsTokenChar(r[i])
    decreases |s|
  {
    if |s| == 0 then []
    else
      var c := s[|s| - 1];
      Strip(s[..|s| - 1]) + (if IsTokenChar(c) then [c] else [])
  }

  /** The concatenated text of a token sequence. */
  function Render(ts: seq<Token>): (r: string)
    decreases |ts|
  {
    if |ts| == 0 then [] else Render(ts[..|ts| - 1]) + ts[|ts| - 1].value
  }

  /** A token the tokenizer can produce: one character, which classifies
      back to this very token. */
  predicate WellFormed(t: Token)
  {
    |t.value| == 1 && Classify(t.value[0]) == Emit(t)
  }

  /** Tokenizing a concatenation tokenizes each part: classification looks
      at one character at a time and keeps input order. */
  lemma {:induction false} TokenizeAppend(a: string, b: string)
    ensures Tokenize(a + b) == Tokenize(a) + Tokenize(b)
    decreases |b|
  {
    if |b| == 0 {
      assert a + b == a;
    } else {
      var b' := b[..|b| - 1];
      var c := b[|b| - 1];
      assert (a + b)[..|a + b| - 1] == a + b';
      assert (a + b)[|a + b| - 1] == c;
      TokenizeAppend(a, b');
      calc {
        Tokenize(a + b);
        Tokenize(a + b') + TokensOf(c);
        Tokenize(a) + Tokenize(b') + TokensOf(c);
        Tokenize(a) + Tokenize(b);
      }
    }
  }

  /** Tokenizing one leading character and then the rest. */
  lemma {:induction false} TokenizeCons(c: char, s: string)
    ensures Tokenize([c] + s) == TokensOf(c) + Tokenize(s)
  {
    TokenizeAppend([c], s);
    assert [c][..0] == [];
  }

  /** Every token produced has one character of text and classifies back to
      itself; in particular a `Number` token's text is one decimal digit. */
  lemma {:induction false} TokenizeWellFormed(s: string)
    ensures forall i :: 0 <= i < |Tokenize(s)| ==> WellFormed(Tokenize(s)[i])
    ensures forall i :: 0 <= i < |Tokenize(s)| && Tokenize(s)[i].kind == Number ==>
      |Tokenize(s)[i].value| == 1 && IsDigit(Tokenize(s)[i].value[0])
    decreases |s|
  {
    if |s| > 0 {
      TokenizeWellFormed(s[..|s| - 1]);
    }
  }

  /** Rendering the tokens gives back the input with the dropped characters
      removed, so the tokens are the surviving characters in input order. */
  lemma {:induction false} RenderTokenize(s: string)
    ensures Render(Tokenize(s)) == Strip(s)
    decreases |s|
  {
    if |s| > 0 {
      var p := s[..|s| - 1];
      var c := s[|s| - 1];
      RenderTokenize(p);
      var ts := Tokenize(p) + TokensOf(c);
      if IsTokenChar(c) {
        assert ts[..|ts| - 1] == Tokenize(p);
      } else {
        assert ts == Tokenize(p);
      }
    }
  }

  /** Tokenizing the text of well-formed tokens gives the tokens back. */
  lemma {:induction false} TokenizeRender(ts: seq<Token>)
    requires forall i :: 0 <= i < |ts| ==> WellFormed(ts[i])
    ensures Tokenize(Render(ts)) == ts
    decreases |ts|
  {
    if |ts| > 0 {
      var ts' := ts[..|ts| - 1];
      var t := ts[|ts| - 1];
      TokenizeRender(ts');
      var s := Render(ts');
      assert Render(ts) == s + [t.value[0]];
      assert (s + [t.value[0]])[..|s|] == s;
      assert TokensOf(t.value[0]) == [t];
    }
  }

  /** Dropping the ignored characters beforehand changes nothing:
      `"[4+1]"` tokenizes as `"4+1"`. */
  lemma {:induction false} TokenizeStrip(s: string)
    ensures Tokenize(Strip(s)) == Tokenize(s)
  {
    TokenizeWellFormed(s);
    RenderTokenize(s);
    TokenizeRender(Tokenize(s));
  }

  /** An input made only of token characters yields exactly one token per
      character, each the classification of that character; so `"24"` is
      two `Number` tokens, not one. */
  lemma {:induction false} TokenizeTokenChars(s: string)
    requires forall i :: 0 <= i < |s| ==> IsTokenChar(s[i])
    ensures |Tokenize(s)| == |s|
    ensures forall i :: 0 <= i < |s| ==> Classify(s[i]) == Emit(Tokenize(s)[i])
    decreases |s|
  {
    if |s| > 0 {
      TokenizeTokenChars(s[..|s| - 1]);
    }
  }

  /** The full correspondence: the k-th token is the classification of the
      k-th character that survives `Strip`. */
  lemma {:induction false} TokenizeCorrespondence(s: string)
    ensures |Tokenize(s)| == |Strip(s)|
    ensures forall k :: 0 <= k < |Strip(s)| ==> Classify(Strip(s)[k]) == Emit(Tokenize(s)[k])
  {
    TokenizeStrip(s);
    TokenizeTokenChars(Strip(s));
  }

  /** No token at all exactly when no character is a token character. */
  lemma {:induction false} TokenizeEmptyIff(s: string)
    ensures Tokenize(s) == [] <==> forall i :: 0 <= i < |s| ==> !IsTokenChar(s[i])
    decreases |s|
  {
    if |s| > 0 {
      var p := s[..|s| - 1];
      TokenizeEmptyIff(p);
      assert forall i :: 0 <= i < |p| ==> p[i] == s[i];
    }
  }

  /** Empty or all-whitespace input yields no tokens. */
  lemma {:induction false} TokenizeWhitespace(s: string)
    requires forall i :: 0 <= i < |s| ==> IsSpace(s[i])
    ensures Tokenize(s) == []
  {
    TokenizeEmptyIff(s);
  }
}
