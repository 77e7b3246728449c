# Calculator tokenizer, modelled in Dafny

This project models the lexical front end of a small C++ arithmetic calculator.

- A `Token` record holds a kind (`NUMBER`, `OPERATOR`, `OPEN_PAREN`, `CLOSE_PAREN`) and a text value. It has three constructors and a getter and a setter for each field.
- An `ExpressionParser` allocates a token buffer as long as the input string. Its constructor then scans the string once, one character at a time:
  - whitespace is skipped;
  - each digit becomes a `NUMBER` token holding that one character;
  - `+ - * /` become `OPERATOR` tokens;
  - `(` and `)` become `OPEN_PAREN` and `CLOSE_PAREN`;
  - any other character is dropped without an error.
- `numTokens` counts the tokens written.

Files:

- `tokens.dfy`, module `Tokens`: the `Token` datatype, its constructors, and its getters and setters. The setters are pure functions that return the updated token.
- `lexer.dfy`, module `Lexer`: the "C"-locale `isspace` and `isdigit` tests, and `Classify`, which does one iteration of the scanning loop. It also holds the pure specification `Tokenize`, with two reference definitions: `Strip` keeps the characters that yield a token, and `Render` concatenates token texts. The lemmas relate these three definitions.
- `parser.dfy`, module `Parser`: `FillBuffer` mirrors the C++ loop over a buffer of fixed length. The buffer is a sequence of `|expression|` slots that all start as the default token, as `new Token[n]` leaves them. `TokenizeBuffer` places the filled buffer in a newly allocated array, and the `ExpressionParser` class wraps it. The loop invariant states four things:
  - the buffer stays `|expression|` slots long;
  - `0 <= numTokens <= i <= |expression|`;
  - the prefix `buffer[..numTokens]` equals `Tokenize` of the characters scanned so far;
  - every slot from `numTokens` on still holds the default token.

  Inside the loop `i < |expression|`. Together with the first two clauses this gives `numTokens < |buffer|`, so every write `tokens[numTokens++]` stays inside the buffer.

A C++ `std::string` is a sequence of bytes. Here each Dafny `char` stands for one C++ `char`, so `|expression|` is `expression.size()`. Non-ASCII input is not decoded into fewer characters.

## Model

| member | source | states |
|---|---|---|
| Tokens.DefaultToken | main.cpp:18 | the default-constructed token is a `NUMBER` with empty text |
| Tokens.NumberToken | main.cpp:20 | the one-argument constructor gives a `NUMBER` token holding the given text |
| Tokens.SetType | main.cpp:26-28 | after `setType` the kind is the new one and the text is unchanged |
| Tokens.SetValue | main.cpp:34-36 | after `setValue` the text is the new one and the kind is unchanged |
| Tokens.AccessorLaws | main.cpp:22-36 | the getters and setters act as two independent fields: writing back what was read is the identity, a second set overrides the first, and the two setters commute |
| Lexer.Classify | main.cpp:73-93 | a character yields a token exactly when it is a digit, an operator or a parenthesis, so whitespace and every other character yield none; the token's text is that character; the kind is `Number` exactly for digits, `Operator` exactly for `+ - * /`, and `OpenParen`/`CloseParen` exactly for `(`/`)` |
| Lexer.TokensOf | main.cpp:79-93 | each character contributes at most one token, and exactly one when it is a token character |
| Lexer.Tokenize | main.cpp:72-94 | the token sequence is never longer than the input |
| Lexer.TokenizeAppend | main.cpp:72-93 | tokenizing `a + b` gives the tokens of `a` followed by the tokens of `b` |
| Lexer.TokenizeCons | main.cpp:72-93 | tokenizing one leading character and then the rest: its tokens come first |
| Lexer.TokenizeWellFormed | main.cpp:79-92 | every produced token has one-character text that classifies back to the same token; every `Number` token's text is a single decimal digit |
| Lexer.RenderTokenize | main.cpp:72-93 | concatenating the texts of the produced tokens gives the input with exactly the dropped characters removed, in input order |
| Lexer.TokenizeRender | main.cpp:79-92 | tokenizing the concatenated text of well-formed tokens gives back those tokens |
| Lexer.TokenizeStrip | main.cpp:79-93 | removing the ignored characters before tokenizing does not change the result (`"[4+1]"` tokenizes like `"4+1"`) |
| Lexer.TokenizeTokenChars | main.cpp:79-92 | an input of token characters only yields exactly one token per character, each the classification of that character (`"24"` is two `Number` tokens) |
| Lexer.TokenizeCorrespondence | main.cpp:72-93 | the number of tokens equals the number of surviving characters, and the k-th token is the classification of the k-th surviving character |
| Lexer.TokenizeEmptyIff | main.cpp:75-93 | no tokens are produced if and only if the input has no digit, operator or parenthesis |
| Lexer.TokenizeWhitespace | main.cpp:75-77 | empty or all-whitespace input yields no tokens |
| Parser.FillBuffer | main.cpp:72-94 | the buffer is as long as the input and `0 <= numTokens <= buffer length`; the first `numTokens` slots hold exactly the tokenization of the input and every later slot still holds the default token |
| Parser.TokenizeBuffer | main.cpp:69-95 | the buffer is a newly allocated array as long as the input; `0 <= numTokens <=` its length; its first `numTokens` slots hold exactly the tokenization of the input and every later slot still holds the default token |
| Parser.CountTokens | main.cpp:53-67 | a freshly constructed parser's `getNumTokens()` is at most the input length and equals the number of token characters in the input; it is zero exactly when there are none |

The constructor of the `ExpressionParser` class (main.cpp:53-55) starts the count at zero and calls the tokenizer. Its contract repeats the `TokenizeBuffer` postconditions, freshness of the buffer included. `GetTokens` and `GetNumTokens` (main.cpp:61-67) return the two fields.

## Left out

- main.cpp contains no expression evaluator; only `Token` and the tokenizer are modelled.
- `main` (main.cpp:97-99) is empty and is not modelled.
- Manual memory management is not modelled: the `delete[]` in the destructor (main.cpp:57-59) and the double free an implicit copy of the parser would cause. The buffer is a Dafny array that is never freed.
- `getTokens` returns the raw buffer pointer, so callers may overwrite slots. The model returns the array reference and states nothing about later writes through it.
- `isspace` and `isdigit` are modelled as the fixed "C"-locale ASCII predicates. Other locales, and the undefined behaviour of passing a negative `char` to them, are not modelled.
- Parser.FillBuffer and Parser.TokenizeBuffer: `numTokens` is a C++ `int`, and its overflow is not modelled. The model bounds it by the input length. So it could overflow only for an input of more than 2^31 - 1 token characters, and the model treats it as unbounded.
