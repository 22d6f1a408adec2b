/**
 * The parse tree of a filter expression. Every node keeps the tokens it was
 * built from, so that a tree can be flattened back into the token sequence
 * it covers.
 */
module Syntax {
  import opened Wrappers
  import opened Tokens

  /** One operand of a group condition: a condition or a parenthesised group. */
  datatype Operand =
    | Condition(column: Token, operator: Token, value: Option<Token>)
    | Group(open: Token, body: GroupCondition, close: Token)

  /** A flat left-to-right chain: a first operand, then (connective, operand) pairs. */
  datatype GroupCondition = GroupCondition(first: Operand, rest: seq<Link>)

  datatype Link = Link(connective: Token, operand: Operand)

  /** The root of a parse: an optional group condition. */
  datatype Filter = Filter(child: Option<GroupCondition>)

  /** The boolean connective a link stands for. */
  datatype Connective = And | Or

  /** The operands of a chain, in input order. */
  function Operands(c: GroupCondition): (r: seq<Operand>)
    ensures |r| == |Connectives(c)| + 1
    ensures r[0] == c.first
    ensures forall i :: 0 <= i < |c.rest| ==> r[i + 1] == c.rest[i].operand
  {
    [c.first] + seq(|c.rest|, i requires 0 <= i < |c.rest| => c.rest[i].operand)
  }

  /** The connectives of a chain, in input order; `r[i]` joins operands i and i + 1. */
  function Connectives(c: GroupCondition): (r: seq<Connective>)
    ensures |r| == |c.rest|
    ensures forall i :: 0 <= i < |r| ==>
      (r[i] == And <==> c.rest[i].connective.kind == GROUP_OPERATOR_AND)
  {
    seq(|c.rest|, i requires 0 <= i < |c.rest| =>
      if c.rest[i].connective.kind == GROUP_OPERATOR_AND then And else Or)
  }

  // Well-formedness: every token sits in a slot of the kind the grammar allows there.

  predicate WellFormedOperand(o: Operand)
    decreases o, 1
  {
    match o
    case Condition(column, operator, value) =>
      column.kind == COLUMN
      && (operator.kind == OPERATOR || operator.kind == IDENTIFIER)
      && (value.Some? ==> value.value.kind == NUMBER || value.value.kind == STRING)
    case Group(open, body, close) =>
      open.kind == GROUP_OPEN && WellFormedChain(body) && close.kind == GROUP_CLOSE
  }

  predicate WellFormedChain(c: GroupCondition)
    decreases c, 0
  {
    WellFormedOperand(c.first) && WellFormedLinks(c.rest)
  }

  predicate WellFormedLinks(links: seq<Link>)
    decreases links
  {
    links == [] || (WellFormedLink(links[0]) && WellFormedLinks(links[1..]))
  }

  predicate WellFormedLink(l: Link)
    decreases l
  {
    IsConnective(l.connective.kind) && WellFormedOperand(l.operand)
  }

  predicate WellFormedFilter(f: Filter) {
    f.child.Some? ==> WellFormedChain(f.child.value)
  }

  // Flattening: the tokens of a tree, left to right.

  function OperandTokens(o: Operand): seq<Token>
    decreases o, 1
  {
    match o
    case Condition(column, operator, value) =>
      [column, operator] + (if value.Some? then [value.value] else [])
    case Group(open, body, close) =>
      [open] + ChainTokens(body) + [close]
  }

  function ChainTokens(c: GroupCondition): seq<Token>
    decreases c, 0
  {
    OperandTokens(c.first) + LinksTokens(c.rest)
  }

  function LinksTokens(links: seq<Link>): seq<Token>
    decreases links
  {
    if links == [] then [] else LinkTokens(links[0]) + LinksTokens(links[1..])
  }

  function LinkTokens(l: Link): seq<Token>
    decreases l
  {
    [l.connective] + OperandTokens(l.operand)
  }

  function FilterTokens(f: Filter): seq<Token> {
    if f.child.Some? then ChainTokens(f.child.value) else []
  }
}
