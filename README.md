# Datacube filter parser — a verified Dafny model

This project models the recursive-descent parser that ANTLR generated for the
datacube filter language of the Legend REPL
(`packages/legend-application-repl/grammar/.antlr/datacube_filter__parser.java`).
A filter is a flat left-to-right chain of conditions (`$col == 1`,
`$name contains`) and parenthesised groups, joined by `&&` and `||`, with no
precedence between the two connectives. The parser reads a token sequence
that a lexer has already classified into ten kinds and builds a parse tree
with one token of lookahead.

The grammar, as the generated rule methods implement it:

```
filter         : (groupCondition | group)? EOF
condition      : column (OPERATOR | IDENTIFIER) value?
column         : COLUMN
value          : NUMBER | STRING
group          : GROUP_OPEN groupCondition GROUP_CLOSE
groupOperator  : GROUP_OPERATOR_AND | GROUP_OPERATOR_OR
groupCondition : (condition | group) (groupOperator (condition | group))*
```

Files and modules:

- `wrappers.dfy` (`Wrappers`): `Option` and `Result`.
- `tokens.dfy` (`Tokens`): the ten token kinds, their integer codes, tokens
  (kind and lexeme) and one-token lookahead (`Next(kind)` or `EOF`).
- `syntax.dfy` (`Syntax`): the parse tree (`Condition`, `Group`,
  `GroupCondition` with its `(connective, operand)` links, `Filter` with an
  optional child), well-formedness (every token in a slot of an allowed
  kind), and flattening of a tree back into its tokens.
- `grammar.dfy` (`Grammar`): each grammar rule as a pure function from a token
  sequence and a position to `Ok(tree, next position)` or
  `Fail(SyntaxError(rule, position, lookahead found, lookahead expected))`.
- `parser.dfy` (`DatacubeFilterParser`): the parser as the generated code
  has it, a class `Parser` with the token sequence and a mutable position
  `pos`, one method per rule that consumes tokens by advancing `pos`. The
  `groupCondition` loop is a `while` loop. Every method is proved to return
  exactly what the matching `Grammar` function returns from the position the
  method started at, to leave `pos` at that function's next position on
  success and at the recorded mismatch on failure;
  `Filter`, whose function returns no position, ends at the end of the input
  when it succeeds.
- `properties.dfy` (`GrammarProperties`): soundness (a successful rule
  consumed exactly the tokens of the tree it built, and that tree is well
  formed), completeness (every well-formed tree is parsed back from its own
  tokens), and so the accepted language and unambiguity, plus the behaviour
  of the individual rules at their edges.
- `parse_examples.dfy` (`ParseExamples`): concrete inputs and their outcomes.

Modelling decisions:

- **Top-level choice.** The generated `filter` method picks between
  `groupCondition` and `group` with the ANTLR runtime's adaptive prediction.
  A lone group is already a `groupCondition` of one operand, so the model
  parses a `groupCondition` when the lookahead is COLUMN or GROUP_OPEN and
  nothing otherwise, then requires the end of input.
  `GroupAlternativeSubsumed` proves that the `group` alternative accepts
  nothing more. The tree's root therefore holds an optional `GroupCondition`.
- **Errors.** The generated code hands every mismatch to the runtime's error
  strategy, which reports it and recovers. The model stops at the first
  mismatch and returns it as a `SyntaxError` with the active rule, the
  position, the lookahead found there and the kinds that the failing match
  or operand switch accepts at that position. This set is not everything
  that could have followed: a failed match of EOF or of GROUP_CLOSE records
  only that kind, although a connective (or, at the very start, an operand)
  would also have continued the parse there. At an operand position, a lookahead that starts no
  operand fails there, expecting COLUMN or GROUP_OPEN.
- **No precedence.** Connectives are kept as a flat chain in input order.
  `ParseExamples.FlatChain` applies `ParseRoundTrip` to `$a == 1 && $b == 2
  || $c == 3` and shows that it parses back as one chain of three operands
  with the connectives `[And, Or]`.
- The operand dispatch that the generated code writes out twice (once for
  the first operand and once inside the loop) is one method, `Operand`, in
  the model.
- The tree keeps the tokens it was built from: a condition's column,
  operator and optional value, a group's brackets and each link's connective.
  The kind of a value token tells a numeric literal from a string literal.

The root's child is optional: the block at
packages/legend-application-repl/grammar/.antlr/datacube_filter__parser.java:117-130
is skipped when the lookahead starts no operand, and the empty input parses
to a root without a child.

## Model

| member | source | states |
|---|---|---|
| Tokens.Code | packages/legend-application-repl/grammar/.antlr/datacube_filter__parser.java:18-20 | each token kind has its integer type in 1..10, and that type decodes back to the kind |
| Tokens.FromCode | packages/legend-application-repl/grammar/.antlr/datacube_filter__parser.java:18-20 | an integer names a token kind exactly when it is in 1..10 |
| Tokens.CodesAreABijection | packages/legend-application-repl/grammar/.antlr/datacube_filter__parser.java:18-20 | the kind constants and their integer types are in one-to-one correspondence |
| Syntax.Operands | packages/legend-application-repl/grammar/.antlr/datacube_filter__parser.java:353-371 | a group condition has one more operand than connectives; operand i + 1 is the operand of link i |
| Syntax.Connectives | packages/legend-application-repl/grammar/.antlr/datacube_filter__parser.java:366-371 | connective i is And exactly when the i-th group operator token is GROUP_OPERATOR_AND, in input order |
| Grammar.Peek | packages/legend-application-repl/grammar/.antlr/datacube_filter__parser.java:172 | the lookahead is EOF exactly past the last token, and otherwise the current token's kind |
| Grammar.Expect | packages/legend-application-repl/grammar/.antlr/datacube_filter__parser.java:173-180 | one token is consumed exactly when its kind is allowed; otherwise the error records the position, the lookahead and the allowed kinds |
| Grammar.ParseColumn | packages/legend-application-repl/grammar/.antlr/datacube_filter__parser.java:213-232 | column succeeds exactly on a COLUMN lookahead and then consumes exactly that token |
| Grammar.ParseValue | packages/legend-application-repl/grammar/.antlr/datacube_filter__parser.java:244-272 | value succeeds exactly on a NUMBER or STRING lookahead and then consumes exactly that token |
| Grammar.ParseGroupOperator | packages/legend-application-repl/grammar/.antlr/datacube_filter__parser.java:322-350 | groupOperator succeeds exactly on a GROUP_OPERATOR_AND or GROUP_OPERATOR_OR lookahead and consumes exactly that token |
| Grammar.ParseCondition | packages/legend-application-repl/grammar/.antlr/datacube_filter__parser.java:162-202 | after a column, condition succeeds exactly when the next token is OPERATOR or IDENTIFIER and takes exactly that token as operator; the value is present exactly when the following token is NUMBER or STRING, and only then is a third token consumed |
| Grammar.ParseOperand | packages/legend-application-repl/grammar/.antlr/datacube_filter__parser.java:385-402 | an operand position consumes at least one token on success, and any lookahead other than COLUMN or GROUP_OPEN fails there, expecting COLUMN or GROUP_OPEN |
| Grammar.ParseGroup | packages/legend-application-repl/grammar/.antlr/datacube_filter__parser.java:287-310 | group consumes at least one token on success and builds a group node |
| Grammar.ParseGroupCondition | packages/legend-application-repl/grammar/.antlr/datacube_filter__parser.java:378-446 | groupCondition consumes at least one token on success and never stops in front of a connective |
| Grammar.ParseLinks | packages/legend-application-repl/grammar/.antlr/datacube_filter__parser.java:403-434 | the loop only moves forward, stops exactly on a lookahead that is not a connective, and consumes nothing when it adds no link |
| Grammar.LinksStep | packages/legend-application-repl/grammar/.antlr/datacube_filter__parser.java:406-428 | one turn of the loop consumes the connective as a group operator, then fails with the operand's error or adds one link before the rest |
| Grammar.ParseFilter | packages/legend-application-repl/grammar/.antlr/datacube_filter__parser.java:109-144 | filter succeeds without a child only on an exhausted input, and with a child only when the group condition consumed every remaining token |
| Grammar.MatchEof | packages/legend-application-repl/grammar/.antlr/datacube_filter__parser.java:131-132 | the final match succeeds exactly at the end of input |
| GrammarProperties.ConditionSound | packages/legend-application-repl/grammar/.antlr/datacube_filter__parser.java:162-189 | a successful condition is well formed and its tokens are exactly the consumed slice |
| GrammarProperties.OperandSound | packages/legend-application-repl/grammar/.antlr/datacube_filter__parser.java:387-402 | a successful operand is well formed and its tokens are exactly the consumed slice |
| GrammarProperties.GroupSound | packages/legend-application-repl/grammar/.antlr/datacube_filter__parser.java:293-298 | a successful group is GROUP_OPEN, a well-formed group condition and GROUP_CLOSE, and its tokens are exactly the consumed slice |
| GrammarProperties.GroupConditionSound | packages/legend-application-repl/grammar/.antlr/datacube_filter__parser.java:385-434 | a successful group condition is well formed and its tokens are exactly the consumed slice |
| GrammarProperties.LinksSound | packages/legend-application-repl/grammar/.antlr/datacube_filter__parser.java:403-434 | the links the loop collects are well formed and their tokens are exactly the consumed slice, in input order |
| GrammarProperties.ParseSound | packages/legend-application-repl/grammar/.antlr/datacube_filter__parser.java:109-144 | a successful parse is well formed and its tokens are the whole input |
| GrammarProperties.OperandComplete | packages/legend-application-repl/grammar/.antlr/datacube_filter__parser.java:387-402 | a well-formed operand not followed by a literal is parsed back from its tokens |
| GrammarProperties.ConditionComplete | packages/legend-application-repl/grammar/.antlr/datacube_filter__parser.java:162-189 | a well-formed condition not followed by a literal is parsed back from its tokens |
| GrammarProperties.GroupComplete | packages/legend-application-repl/grammar/.antlr/datacube_filter__parser.java:287-298 | a well-formed group is parsed back from its tokens |
| GrammarProperties.ChainComplete | packages/legend-application-repl/grammar/.antlr/datacube_filter__parser.java:378-434 | a well-formed group condition followed by neither a literal nor a connective is parsed back from its tokens as the same flat chain |
| GrammarProperties.LinksComplete | packages/legend-application-repl/grammar/.antlr/datacube_filter__parser.java:403-434 | well-formed links followed by neither a literal nor a connective are collected back by the loop, in order |
| GrammarProperties.LinkComplete | packages/legend-application-repl/grammar/.antlr/datacube_filter__parser.java:409-428 | one well-formed link is read back as its group operator and its operand |
| GrammarProperties.ParseRoundTrip | packages/legend-application-repl/grammar/.antlr/datacube_filter__parser.java:109-144 | every well-formed filter is parsed back from its own tokens |
| GrammarProperties.AcceptedLanguage | packages/legend-application-repl/grammar/.antlr/datacube_filter__parser.java:109-446 | the parser accepts exactly the token sequences of well-formed filters |
| GrammarProperties.Unambiguous | packages/legend-application-repl/grammar/.antlr/datacube_filter__parser.java:109-446 | two well-formed filters with the same tokens are the same tree |
| GrammarProperties.EmptyInput | packages/legend-application-repl/grammar/.antlr/datacube_filter__parser.java:115-132 | the parse yields a root without a child exactly on the empty input |
| GrammarProperties.TrailingTokensRejected | packages/legend-application-repl/grammar/.antlr/datacube_filter__parser.java:115-132 | tokens left after a complete group condition make the parse fail at the first of them, expecting EOF |
| GrammarProperties.OperandEndsWell | packages/legend-application-repl/grammar/.antlr/datacube_filter__parser.java:162-189 | the last token of a well-formed operand is never a connective |
| GrammarProperties.LinksEndWell | packages/legend-application-repl/grammar/.antlr/datacube_filter__parser.java:406-428 | the last token of non-empty well-formed links is never a connective |
| GrammarProperties.ChainEndsWell | packages/legend-application-repl/grammar/.antlr/datacube_filter__parser.java:385-434 | the last token of a well-formed group condition is never a connective |
| GrammarProperties.TrailingConnectiveRejected | packages/legend-application-repl/grammar/.antlr/datacube_filter__parser.java:406-428 | an input that ends with a connective is never accepted |
| GrammarProperties.MissingCloseRejected | packages/legend-application-repl/grammar/.antlr/datacube_filter__parser.java:293-298 | a group whose body is not followed by GROUP_CLOSE fails there, expecting GROUP_CLOSE |
| GrammarProperties.GroupAlternativeSubsumed | packages/legend-application-repl/grammar/.antlr/datacube_filter__parser.java:117-129 | whatever the lone-group alternative of filter accepts is accepted as a group condition of one operand |
| DatacubeFilterParser.Parser.constructor | packages/legend-application-repl/grammar/.antlr/datacube_filter__parser.java:89-92 | a new parser holds the input and stands at its first token |
| DatacubeFilterParser.Parser.LA | packages/legend-application-repl/grammar/.antlr/datacube_filter__parser.java:172 | the lookahead is the current token's kind, or EOF past the end |
| DatacubeFilterParser.Parser.Match | packages/legend-application-repl/grammar/.antlr/datacube_filter__parser.java:173-180 | consumes one token of an allowed kind or fails without consuming, as Expect |
| Grammar.Parse | packages/legend-application-repl/grammar/.antlr/datacube_filter__parser.java:109-144 | the whole-input entry point: the empty input gives a root without a child, and any other accepted input gives a root with one |
| DatacubeFilterParser.Parser.Column | packages/legend-application-repl/grammar/.antlr/datacube_filter__parser.java:213-232 | returns and advances exactly as ParseColumn, and after a failure stands at the recorded mismatch |
| DatacubeFilterParser.Parser.Value | packages/legend-application-repl/grammar/.antlr/datacube_filter__parser.java:244-272 | returns and advances exactly as ParseValue, and after a failure stands at the recorded mismatch |
| DatacubeFilterParser.Parser.GroupOperator | packages/legend-application-repl/grammar/.antlr/datacube_filter__parser.java:322-350 | returns and advances exactly as ParseGroupOperator, and after a failure stands at the recorded mismatch |
| DatacubeFilterParser.Parser.Condition | packages/legend-application-repl/grammar/.antlr/datacube_filter__parser.java:162-202 | returns and advances exactly as ParseCondition, and after a failure stands at the recorded mismatch |
| DatacubeFilterParser.Parser.Operand | packages/legend-application-repl/grammar/.antlr/datacube_filter__parser.java:385-402 | returns and advances exactly as ParseOperand, and after a failure stands at the recorded mismatch |
| DatacubeFilterParser.Parser.Group | packages/legend-application-repl/grammar/.antlr/datacube_filter__parser.java:287-310 | returns and advances exactly as ParseGroup, and after a failure stands at the recorded mismatch |
| DatacubeFilterParser.Parser.GroupCondition | packages/legend-application-repl/grammar/.antlr/datacube_filter__parser.java:378-446 | the while loop over connectives returns and advances exactly as ParseGroupCondition and after a failure stands at the recorded mismatch; its invariant is that the links collected so far followed by what the loop still parses are what ParseLinks parses from after the first operand |
| DatacubeFilterParser.Parser.Filter | packages/legend-application-repl/grammar/.antlr/datacube_filter__parser.java:109-144 | returns exactly ParseFilter from its starting position, never moving the position back, and stands at the end of the input after a success and at the recorded mismatch after a failure |
| DatacubeFilterParser.ParseTokens | packages/legend-application-repl/grammar/.antlr/datacube_filter__parser.java:89-144 | a fresh parser's filter rule returns exactly Parse of the input |
| ParseExamples.SingleCondition | packages/legend-application-repl/grammar/.antlr/datacube_filter__parser.java:162-189 | `$col == 1` parses to one condition with a numeric value |
| ParseExamples.ConditionWithoutValue | packages/legend-application-repl/grammar/.antlr/datacube_filter__parser.java:170-189 | `$col contains` parses to a condition with an IDENTIFIER operator and no value |
| ParseExamples.NestedGroup | packages/legend-application-repl/grammar/.antlr/datacube_filter__parser.java:378-434 | `($a == 1 \|\| $b == 2) && $c == 3` parses to a group and a condition joined by And, the group holding two conditions joined by Or |
| ParseExamples.FlatChain | packages/legend-application-repl/grammar/.antlr/datacube_filter__parser.java:378-434 | `$a == 1 && $b == 2 \|\| $c == 3` parses to one flat chain of three operands joined by `[And, Or]`, with no precedence between the connectives |
| ParseExamples.UnbalancedGroup | packages/legend-application-repl/grammar/.antlr/datacube_filter__parser.java:293-298 | `($a == 1` fails at the end of input, expecting GROUP_CLOSE |
| ParseExamples.DanglingConnective | packages/legend-application-repl/grammar/.antlr/datacube_filter__parser.java:413-428 | `$a == 1 &&` fails at the end of input in groupCondition, expecting COLUMN or GROUP_OPEN |

## Left out

- Error recovery: the runtime's error strategy (`sync`, `recoverInline`, `recover`, `reportError`, `reportMatch`) is not part of this model. The model stops at the first mismatch and returns it as an error; it does not model the partial tree and the continued parse that recovery produces.
- Adaptive prediction: the serialized ATN, its deserialisation, the DFA caches and the state numbers are generated tables driven by the runtime; the model replaces the one prediction at the start of `filter` by the explicit lookahead test described above. Where prediction would report no viable alternative at the start of `filter`, the model reports the failed match of EOF instead. For an input that starts with GROUP_OPEN, both alternatives at :117 (`groupCondition`, whose first operand may be a group, and the lone `group`) stay viable until after the leading group's closing bracket, so the program's prediction reads through that whole group and reports any syntax error inside it as a failed prediction in `filter` (:135-137); the model instead records such an error as the mismatch of the inner rule that meets it (for `($a == 1`, `ParseExamples.UnbalancedGroup` gives the `group` rule's failed match of GROUP_CLOSE at EOF, where the program reports no viable alternative in `filter`). Likewise, the error strategy's `sync` before the operand switch (:386, :412) may report or delete a token before the switch's own no-viable-alternative branch is reached; the model records only the failed operand position and its expected kinds.
- The vocabulary, literal-name, symbolic-name and rule-name tables and their getters: presentation strings with no effect on parsing.
- The lexer: the parser takes an already classified token sequence. No rule accepts WHITESPACE, so a WHITESPACE token in the input makes the parse fail.
- The parse-tree bookkeeping of the generated contexts (parent links, invoking states, the `exception` field, the `matchedEOF` flag, listeners): the model returns immutable tree values instead of contexts built up by mutation.
- Error-message text, and any evaluation or translation of the resulting filter.
