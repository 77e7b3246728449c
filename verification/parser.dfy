/**
 The `ExpressionParser`: it allocates a token buffer as long as the input,
 fills it with one scan of the input and counts the tokens written. The
 loop in `FillBuffer` mirrors the C++ loop on a fixed-length sequence of
 slots; its invariant ties the filled prefix of the buffer to the pure
 `Tokenize` of the characters scanned so far, which also shows that every
 write `tokens[numTokens++]` stays inside the buffer. `TokenizeBuffer` puts
 the result in a newly allocated array, as `new Token[expression.size()]`
 does.
 */
module Parser {
  import opened Tokens
  import opened Lexer

  /** The scanning loop. The buffer is a sequence of `|expression|` slots,
      every slot starting as the default token (as `new Token[n]` leaves
      them); the loop writes slot `numTokens` and advances the count for each
      token, exactly as `tokens[numTokens++] = ...` does. */
  method FillBuffer(expression: string) returns (buffer: seq<Token>, numTokens: int)
    ensures |buffer| == |expression|
    ensures 0 <= numTokens <= |buffer|
    ensures buffer[..numTokens] == Tokenize(expression)
    ensures forall k :: numTokens <= k < |buffer| ==> buffer[k] == DefaultToken()
  {
    buffer := seq(|expression|, _ => DefaultToken());
    numTokens := 0;
    var i := 0;
    while i < |expression|
      invariant |buffer| == |expression|
      invariant 0 <= numTokens <= i <= |expression|
      invariant buffer[..numTokens] == Tokenize(expression[..i])
      invariant forall k :: numTokens <= k < |buffer| ==> buffer[k] == DefaultToken()
    {
      var c := expression[i];
      assert expression[..i + 1][..i] == expression[..i];
      if IsSpace(c) {
        i := i + 1;
        continue;
      }
      var t: Token;
      if IsDigit(c) {
        t := Token(Number, [c]);
      } else if c == '+' {
        t := Token(Operator, "+");
      } else if c == '-' {
        t := Token(Operator, "-");
      } else if c == '*' {
        t := Token(Operator, "*");
      } else if c == '/' {
        t := Token(Operator, "/");
      } else if c == '(' {
        t := Token(OpenParen, "(");
      } else if c == ')' {
        t := Token(CloseParen, ")");
      } else {
        i := i + 1;
        continue;
      }
      buffer := buffer[numTokens := t];
      numTokens := numTokens + 1;
      i := i + 1;
    }
    assert expression[..i] == expression;
  }

  /** Allocates a new array of `|expression|` tokens holding the filled
      buffer, and returns it with the number of slots written. */
  method TokenizeBuffer(expression: string) returns (tokens: array<Token>, numTokens: int)
    ensures fresh(tokens)
    ensures tokens.Length == |expression|
    ensures 0 <= numTokens <= tokens.Length
    ensures tokens[..numTokens] == Tokenize(expression)
    ensures forall k :: numTokens <= k < tokens.Length ==> tokens[k] == DefaultToken()
  {
    var buffer;
    buffer, numTokens := FillBuffer(expression);
    tokens := new Token[|buffer|](k requires 0 <= k < |buffer| => buffer[k]);
    assert tokens[..] == buffer;
  }

  /** The parser object: the token buffer and the count of tokens in it. */
  class ExpressionParser {
    var tokens: array<Token>
    var numTokens: int

    /** Starts at zero tokens and tokenizes the expression. */
    constructor (expression: string)
      ensures fresh(tokens)
      ensures tokens.Length == |expression|
      ensures 0 <= numTokens <= tokens.Length
      ensures tokens[..numTokens] == Tokenize(expression)
      ensures forall k :: numTokens <= k < tokens.Length ==> tokens[k] == DefaultToken()
    {
      var buffer, count := TokenizeBuffer(expression);
      tokens, numTokens := buffer, count;
    }

    function GetTokens(): array<Token>
      reads this
    {
      tokens
    }

    function GetNumTokens(): int
      reads this
    {
      numTokens
    }
  }

  /** Constructs a parser and reads back its token count: the number of
      input characters that are digits, operators or parentheses. */
  method CountTokens(expression: string) returns (n: int)
    ensures 0 <= n <= |expression|
    ensures n == |Strip(expression)|
    ensures n == 0 <==> forall i :: 0 <= i < |expression| ==> !IsTokenChar(expression[i])
  {
    var parser := new ExpressionParser(expression);
    n := parser.GetNumTokens();
    TokenizeCorrespondence(expression);
    TokenizeEmptyIff(expression);
  }
}
