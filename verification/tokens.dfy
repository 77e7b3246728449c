/**
 The `Token` record of the calculator: a lexical unit made of a kind and the
 text it was read from. The C++ class has public mutable fields with a getter
 and a setter for each; here a token is an immutable value and each setter
 returns the updated token.
 */
module Tokens {

  /** The four kinds of token; a closed set. */
  datatype TokenType = Number | Operator | OpenParen | CloseParen

  /** One lexical unit: its kind and its text. */
  datatype Token = Token(kind: TokenType, value: string)

  /** The default constructor: a `Number` token with empty text. It is also
      what every slot of a freshly allocated token buffer holds. */
  function DefaultToken(): (t: Token)
    ensures GetType(t) == Number && GetValue(t) == ""
  {
    Token(Number, "")
  }

  /** The one-argument constructor: a `Number` token holding `v`. */
  function NumberToken(v: string): (t: Token)
    ensures GetType(t) == Number && GetValue(t) == v
  {
    Token(Number, v)
  }

  function GetType(t: Token): (k: TokenType)
  {
    t.kind
  }

  function GetValue(t: Token): (v: string)
  {
    t.value
  }

  /** Replaces the kind; the text is left as it was. */
  function SetType(t: Token, k: TokenType): (r: Token)
    ensures GetType(r) == k
    ensures GetValue(r) == GetValue(t)
  {
    t.(kind := k)
  }

  /** Replaces the text; the kind is left as it was. */
  function SetValue(t: Token, v: string): (r: Token)
    ensures GetValue(r) == v
    ensures GetType(r) == GetType(t)
  {
    t.(value := v)
  }

  /** The getters and setters behave as a pair of independent fields:
      setting what was read changes nothing, a second set overrides the
      first, and the two setters commute. */
  lemma AccessorLaws(t: Token, k: TokenType, k': TokenType, v: string, v': string)
    ensures SetType(t, GetType(t)) == t
    ensures SetValue(t, GetValue(t)) == t
    ensures SetType(SetType(t, k), k') == SetType(t, k')
    ensures SetValue(SetValue(t, v), v') == SetValue(t, v')
    ensures SetValue(SetType(t, k), v) == SetType(SetValue(t, v), k) == Token(k, v)
  {
  }
}
