/**
 * The grammar rules of the datacube filter parser as pure functions over a
 * token sequence and a position. Each rule either succeeds with a tree and
 * the position after the tokens it consumed, or fails at the first mismatch.
 * The class in DatacubeFilterParser is proved to compute exactly these.
 */
module Grammar {
  import opened Wrappers
  import opened Tokens
  import opened Syntax

  /** The rule that was active when a syntax error arose. */
  datatype Rule =
    | FilterRule
    | ConditionRule
    | ColumnRule
    | ValueRule
    | GroupRule
    | GroupOperatorRule
    | GroupConditionRule

  /**
   * The first mismatch: the rule, where, what was seen there, and the kinds
   * that the failing match or operand switch accepts at that position.
   */
  datatype SyntaxError = SyntaxError(rule: Rule, at: nat, found: Lookahead, expected: set<Lookahead>)

  /** The outcome of one rule: a tree and the position after it, or a syntax error. */
  datatype Parsed<+T> = Ok(tree: T, next: nat) | Fail(error: SyntaxError)

  /** A method's result together with its final position, read as a rule outcome. */
  function Outcome<T>(r: Result<T, SyntaxError>, pos: nat): Parsed<T> {
    match r
    case Success(t) => Ok(t, pos)
    case Failure(e) => Fail(e)
  }

  /** One token of lookahead at position p. */
  function Peek(ts: seq<Token>, p: nat): (la: Lookahead)
    ensures la == EOF <==> p >= |ts|
    ensures la != EOF ==> la.kind == ts[p].kind
  {
    if p < |ts| then Next(ts[p].kind) else EOF
  }

  /**
   * Consume exactly one token if the lookahead is one of `expected`; otherwise
   * fail at p, recording what was expected.
   */
  function Expect(ts: seq<Token>, p: nat, rule: Rule, expected: set<Lookahead>): (r: Parsed<Token>)
    requires p <= |ts|
    ensures r.Ok? <==> p < |ts| && Next(ts[p].kind) in expected
    ensures r.Ok? ==> r.tree == ts[p] && r.next == p + 1
    ensures r.Fail? ==> r.error == SyntaxError(rule, p, Peek(ts, p), expected)
  {
    if p < |ts| && Next(ts[p].kind) in expected then Ok(ts[p], p + 1)
    else Fail(SyntaxError(rule, p, Peek(ts, p), expected))
  }

  /** column : COLUMN */
  function ParseColumn(ts: seq<Token>, p: nat): (r: Parsed<Token>)
    requires p <= |ts|
    ensures r.Ok? <==> Peek(ts, p) == Next(COLUMN)
    ensures r.Ok? ==> r.tree == ts[p] && r.next == p + 1
  {
    Expect(ts, p, ColumnRule, {Next(COLUMN)})
  }

  /** value : NUMBER | STRING */
  function ParseValue(ts: seq<Token>, p: nat): (r: Parsed<Token>)
    requires p <= |ts|
    ensures r.Ok? <==> Peek(ts, p) in {Next(NUMBER), Next(STRING)}
    ensures r.Ok? ==> r.tree == ts[p] && r.next == p + 1
  {
    Expect(ts, p, ValueRule, {Next(NUMBER), Next(STRING)})
  }

  /** groupOperator : GROUP_OPERATOR_AND | GROUP_OPERATOR_OR */
  function ParseGroupOperator(ts: seq<Token>, p: nat): (r: Parsed<Token>)
    requires p <= |ts|
    ensures r.Ok? <==> Peek(ts, p) in {Next(GROUP_OPERATOR_AND), Next(GROUP_OPERATOR_OR)}
    ensures r.Ok? ==> r.tree == ts[p] && r.next == p + 1
  {
    Expect(ts, p, GroupOperatorRule, {Next(GROUP_OPERATOR_AND), Next(GROUP_OPERATOR_OR)})
  }

  /** condition : column (OPERATOR | IDENTIFIER) value? */
  function ParseCondition(ts: seq<Token>, p: nat): (r: Parsed<Operand>)
    requires p <= |ts|
    // After the column, the operator slot takes exactly an OPERATOR or IDENTIFIER token.
    ensures Peek(ts, p) == Next(COLUMN) ==>
      (r.Ok? <==> Peek(ts, p + 1) in {Next(OPERATOR), Next(IDENTIFIER)})
    ensures r.Ok? ==>
      r.tree.Condition? && p + 1 < |ts| && r.tree.column == ts[p] && r.tree.operator == ts[p + 1]
    // The value is present exactly when the token after the operator is a literal.
    ensures r.Ok? ==>
      (r.tree.value.Some? <==> Peek(ts, p + 2) in {Next(NUMBER), Next(STRING)})
      && r.next == (if r.tree.value.Some? then p + 3 else p + 2)
      && (r.tree.value.Some? ==> r.tree.value.value == ts[p + 2])
  {
    match ParseColumn(ts, p)
    case Fail(e) => Fail(e)
    case Ok(column, p1) =>
      match Expect(ts, p1, ConditionRule, {Next(OPERATOR), Next(IDENTIFIER)})
      case Fail(e) => Fail(e)
      case Ok(operator, p2) =>
        if Peek(ts, p2) == Next(NUMBER) || Peek(ts, p2) == Next(STRING) then
          match ParseValue(ts, p2)
          case Fail(e) => Fail(e)
          case Ok(value, p3) => Ok(Condition(column, operator, Some(value)), p3)
        else
          Ok(Condition(column, operator, None), p2)
  }

  /** The expected set of an operand position that sees neither COLUMN nor GROUP_OPEN. */
  const OperandStarts: set<Lookahead> := {Next(COLUMN), Next(GROUP_OPEN)}

  /**
   * The operand slot of groupCondition: COLUMN starts a condition, GROUP_OPEN
   * a group, and any other lookahead fails there, expecting one of the two.
   */
  function ParseOperand(ts: seq<Token>, p: nat): (r: Parsed<Operand>)
    requires p <= |ts|
    ensures r.Ok? ==> p < r.next <= |ts|
    ensures Peek(ts, p) !in OperandStarts ==>
      r == Fail(SyntaxError(GroupConditionRule, p, Peek(ts, p), OperandStarts))
    decreases |ts| - p, 1
  {
    if Peek(ts, p) == Next(COLUMN) then ParseCondition(ts, p)
    else if Peek(ts, p) == Next(GROUP_OPEN) then ParseGroup(ts, p)
    else Fail(SyntaxError(GroupConditionRule, p, Peek(ts, p), OperandStarts))
  }

  /** group : GROUP_OPEN groupCondition GROUP_CLOSE */
  function ParseGroup(ts: seq<Token>, p: nat): (r: Parsed<Operand>)
    requires p <= |ts|
    ensures r.Ok? ==> p < r.next <= |ts| && r.tree.Group?
    decreases |ts| - p, 0
  {
    match Expect(ts, p, GroupRule, {Next(GROUP_OPEN)})
    case Fail(e) => Fail(e)
    case Ok(open, p1) =>
      match ParseGroupCondition(ts, p1)
      case Fail(e) => Fail(e)
      case Ok(body, p2) =>
        match Expect(ts, p2, GroupRule, {Next(GROUP_CLOSE)})
        case Fail(e) => Fail(e)
        case Ok(close, p3) => Ok(Group(open, body, close), p3)
  }

  /** groupCondition : (condition | group) (groupOperator (condition | group))* */
  function ParseGroupCondition(ts: seq<Token>, p: nat): (r: Parsed<GroupCondition>)
    requires p <= |ts|
    ensures r.Ok? ==> p < r.next <= |ts|
    // The chain is maximal: it never stops in front of a connective.
    ensures r.Ok? ==> !(Peek(ts, r.next) in {Next(GROUP_OPERATOR_AND), Next(GROUP_OPERATOR_OR)})
    decreases |ts| - p, 2
  {
    match ParseOperand(ts, p)
    case Fail(e) => Fail(e)
    case Ok(first, p1) =>
      match ParseLinks(ts, p1)
      case Fail(e) => Fail(e)
      case Ok(rest, p2) => Ok(GroupCondition(first, rest), p2)
  }

  /**
   * The loop of groupCondition: while the lookahead is a connective, consume it
   * and one more operand; stop on any other lookahead.
   */
  function ParseLinks(ts: seq<Token>, p: nat): (r: Parsed<seq<Link>>)
    requires p <= |ts|
    ensures r.Ok? ==> p <= r.next <= |ts|
    ensures r.Ok? ==> !(Peek(ts, r.next) in {Next(GROUP_OPERATOR_AND), Next(GROUP_OPERATOR_OR)})
    ensures r.Ok? && r.tree == [] ==> r.next == p
    decreases |ts| - p, 3
  {
    if Peek(ts, p) == Next(GROUP_OPERATOR_AND) || Peek(ts, p) == Next(GROUP_OPERATOR_OR) then
      match ParseGroupOperator(ts, p)
      case Fail(e) => Fail(e)
      case Ok(connective, p1) =>
        match ParseOperand(ts, p1)
        case Fail(e) => Fail(e)
        case Ok(operand, p2) => Prepend([Link(connective, operand)], ParseLinks(ts, p2))
    else
      Ok([], p)
  }

  /** Put `links` in front of the links of a successful outcome; keep a failure. */
  function Prepend(links: seq<Link>, r: Parsed<seq<Link>>): Parsed<seq<Link>> {
    match r
    case Ok(more, n) => Ok(links + more, n)
    case Fail(e) => Fail(e)
  }

  /** One turn of the groupCondition loop, read off ParseLinks. */
  lemma LinksStep(ts: seq<Token>, p: nat)
    requires p < |ts| && IsConnective(ts[p].kind)
    ensures ParseGroupOperator(ts, p) == Ok(ts[p], p + 1)
    ensures ParseOperand(ts, p + 1).Fail? ==> ParseLinks(ts, p) == Fail(ParseOperand(ts, p + 1).error)
    ensures ParseOperand(ts, p + 1).Ok? ==>
      var o := ParseOperand(ts, p + 1);
      ParseLinks(ts, p) == Prepend([Link(ts[p], o.tree)], ParseLinks(ts, o.next))
  {
  }

  lemma PrependNothing(r: Parsed<seq<Link>>)
    ensures Prepend([], r) == r
  {
    if r.Ok? {
      assert [] + r.tree == r.tree;
    }
  }

  lemma PrependTwice(a: seq<Link>, b: seq<Link>, r: Parsed<seq<Link>>)
    ensures Prepend(a, Prepend(b, r)) == Prepend(a + b, r)
  {
    if r.Ok? {
      assert a + (b + r.tree) == (a + b) + r.tree;
    }
  }

  /**
   * filter : (groupCondition | group)? EOF
   * The choice between the two alternatives is made on the lookahead: a
   * groupCondition when it is COLUMN or GROUP_OPEN (a lone group is a
   * groupCondition of one operand), nothing otherwise. Then the end of input
   * must follow.
   */
  function ParseFilter(ts: seq<Token>, p: nat): (r: Result<Filter, SyntaxError>)
    requires p <= |ts|
    // Success means every remaining token was consumed.
    ensures r.Success? && r.value.child.None? ==> p == |ts|
    ensures r.Success? && r.value.child.Some? ==> ParseGroupCondition(ts, p) == Ok(r.value.child.value, |ts|)
  {
    if Peek(ts, p) in OperandStarts then
      match ParseGroupCondition(ts, p)
      case Fail(e) => Failure(e)
      case Ok(c, p1) => MatchEof(ts, p1, Filter(Some(c)))
    else
      MatchEof(ts, p, Filter(None))
  }

  /** The final `match(EOF)` of filter. */
  function MatchEof(ts: seq<Token>, p: nat, f: Filter): (r: Result<Filter, SyntaxError>)
    requires p <= |ts|
    ensures r.Success? <==> p == |ts|
    ensures r.Success? ==> r.value == f
  {
    if p == |ts| then Success(f) else Failure(SyntaxError(FilterRule, p, Peek(ts, p), {EOF}))
  }

  /** The parser's entry point: parse a whole token sequence. */
  function Parse(ts: seq<Token>): (r: Result<Filter, SyntaxError>)
    ensures ts == [] ==> r == Success(Filter(None))
    ensures r.Success? && ts != [] ==> r.value.child.Some?
  {
    ParseFilter(ts, 0)
  }
}
