/**
 * The token vocabulary of the datacube filter grammar. The lexer that produces
 * tokens is not part of this model: the parser receives an already classified
 * token sequence.
 */
module Tokens {
  import opened Wrappers

  /** The ten token kinds the lexer can produce. */
  datatype Kind =
    | OPERATOR
    | GROUP_OPERATOR_AND
    | GROUP_OPERATOR_OR
    | GROUP_OPEN
    | GROUP_CLOSE
    | NUMBER
    | STRING
    | COLUMN
    | IDENTIFIER
    | WHITESPACE

  /** A token: its kind and its raw lexeme. */
  datatype Token = Token(kind: Kind, text: string)

  /** What one token of lookahead sees: a token kind, or the end of input. */
  datatype Lookahead = Next(kind: Kind) | EOF

  /** The integer token type the generated parser assigns to each kind. */
  function Code(k: Kind): (n: int)
    ensures 1 <= n <= 10
    ensures FromCode(n) == Some(k)
  {
    match k
    case OPERATOR => 1
    case GROUP_OPERATOR_AND => 2
    case GROUP_OPERATOR_OR => 3
    case GROUP_OPEN => 4
    case GROUP_CLOSE => 5
    case NUMBER => 6
    case STRING => 7
    case COLUMN => 8
    case IDENTIFIER => 9
    case WHITESPACE => 10
  }

  /** The kind an integer token type stands for, if any. */
  function FromCode(n: int): (r: Option<Kind>)
    ensures r.Some? <==> 1 <= n <= 10
  {
    if n == 1 then Some(OPERATOR)
    else if n == 2 then Some(GROUP_OPERATOR_AND)
    else if n == 3 then Some(GROUP_OPERATOR_OR)
    else if n == 4 then Some(GROUP_OPEN)
    else if n == 5 then Some(GROUP_CLOSE)
    else if n == 6 then Some(NUMBER)
    else if n == 7 then Some(STRING)
    else if n == 8 then Some(COLUMN)
    else if n == 9 then Some(IDENTIFIER)
    else if n == 10 then Some(WHITESPACE)
    else None
  }

  /** Distinct kinds have distinct codes, and every code in range names a kind. */
  lemma CodesAreABijection(k: Kind, n: int)
    ensures FromCode(n) == Some(k) <==> Code(k) == n
  {
  }

  /** A token that joins two operands of a group condition. */
  predicate IsConnective(k: Kind) {
    k == GROUP_OPERATOR_AND || k == GROUP_OPERATOR_OR
  }
}
