/**
 * The generated recursive-descent parser: an object holding the token
 * sequence and a mutable input position. Each rule method reads one token of
 * lookahead, consumes tokens by advancing the position, and builds its part of
 * the tree. Each is proved to compute exactly the corresponding function of
 * the Grammar module, from the position it started at.
 */
module DatacubeFilterParser {
  import opened Wrappers
  import opened Tokens
  import Syntax
  import opened Grammar

  class Parser {
    const tokens: seq<Token>
    var pos: nat

    ghost predicate Valid()
      reads this
    {
      pos <= |tokens|
    }

    constructor (input: seq<Token>)
      ensures Valid() && tokens == input && pos == 0
    {
      tokens := input;
      pos := 0;
    }

    /** The kind of the current token, or EOF past the last one. */
    function LA(): (la: Lookahead)
      reads this
      ensures la == EOF <==> pos >= |tokens|
      ensures la != EOF ==> la.kind == tokens[pos].kind
    {
      Peek(tokens, pos)
    }

    /** Match one token whose kind is in `expected`, or fail without consuming. */
    method Match(rule: Rule, expected: set<Lookahead>) returns (r: Result<Token, SyntaxError>)
      requires Valid()
      modifies this
      ensures Valid() && old(pos) <= pos
      ensures Outcome(r, pos) == Expect(tokens, old(pos), rule, expected)
      ensures r.Failure? ==> pos == old(pos)
    {
      var la := LA();
      if la != EOF && la in expected {
        r := Success(tokens[pos]);
        pos := pos + 1;
      } else {
        r := Failure(SyntaxError(rule, pos, la, expected));
      }
    }

    method Column() returns (r: Result<Token, SyntaxError>)
      requires Valid()
      modifies this
      ensures Valid() && old(pos) <= pos
      ensures Outcome(r, pos) == ParseColumn(tokens, old(pos))
      ensures r.Failure? ==> pos == r.error.at
    {
      r := Match(ColumnRule, {Next(COLUMN)});
    }

    method Value() returns (r: Result<Token, SyntaxError>)
      requires Valid()
      modifies this
      ensures Valid() && old(pos) <= pos
      ensures Outcome(r, pos) == ParseValue(tokens, old(pos))
      ensures r.Failure? ==> pos == r.error.at
    {
      r := Match(ValueRule, {Next(NUMBER), Next(STRING)});
    }

    method GroupOperator() returns (r: Result<Token, SyntaxError>)
      requires Valid()
      modifies this
      ensures Valid() && old(pos) <= pos
      ensures Outcome(r, pos) == ParseGroupOperator(tokens, old(pos))
      ensures r.Failure? ==> pos == r.error.at
    {
      r := Match(GroupOperatorRule, {Next(GROUP_OPERATOR_AND), Next(GROUP_OPERATOR_OR)});
    }

    method Condition() returns (r: Result<Syntax.Operand, SyntaxError>)
      requires Valid()
      modifies this
      ensures Valid() && old(pos) <= pos
      ensures Outcome(r, pos) == ParseCondition(tokens, old(pos))
      ensures r.Failure? ==> pos == r.error.at
    {
      var column := Column();
      if column.Failure? {
        return Failure(column.error);
      }
      var operator := Match(ConditionRule, {Next(OPERATOR), Next(IDENTIFIER)});
      if operator.Failure? {
        return Failure(operator.error);
      }
      var la := LA();
      if la == Next(NUMBER) || la == Next(STRING) {
        var value := Value();
        if value.Failure? {
          return Failure(value.error);
        }
        r := Success(Syntax.Condition(column.value, operator.value, Some(value.value)));
      } else {
        r := Success(Syntax.Condition(column.value, operator.value, None));
      }
    }

    /** The operand slot of groupCondition, dispatched on the lookahead. */
    method Operand() returns (r: Result<Syntax.Operand, SyntaxError>)
      requires Valid()
      modifies this
      ensures Valid() && old(pos) <= pos
      ensures Outcome(r, pos) == ParseOperand(tokens, old(pos))
      ensures r.Failure? ==> pos == r.error.at
      decreases |tokens| - pos, 1
    {
      var la := LA();
      if la == Next(COLUMN) {
        r := Condition();
      } else if la == Next(GROUP_OPEN) {
        r := Group();
      } else {
        r := Failure(SyntaxError(GroupConditionRule, pos, la, OperandStarts));
      }
    }

    method Group() returns (r: Result<Syntax.Operand, SyntaxError>)
      requires Valid()
      modifies this
      ensures Valid() && old(pos) <= pos
      ensures Outcome(r, pos) == ParseGroup(tokens, old(pos))
      ensures r.Failure? ==> pos == r.error.at
      decreases |tokens| - pos, 0
    {
      var open := Match(GroupRule, {Next(GROUP_OPEN)});
      if open.Failure? {
        return Failure(open.error);
      }
      var body := GroupCondition();
      if body.Failure? {
        return Failure(body.error);
      }
      var close := Match(GroupRule, {Next(GROUP_CLOSE)});
      if close.Failure? {
        return Failure(close.error);
      }
      r := Success(Syntax.Group(open.value, body.value, close.value));
    }

    method GroupCondition() returns (r: Result<Syntax.GroupCondition, SyntaxError>)
      requires Valid()
      modifies this
      ensures Valid() && old(pos) <= pos
      ensures Outcome(r, pos) == ParseGroupCondition(tokens, old(pos))
      ensures r.Failure? ==> pos == r.error.at
      decreases |tokens| - pos, 2
    {
      var first := Operand();
      if first.Failure? {
        return Failure(first.error);
      }
      ghost var start := pos;
      var rest: seq<Syntax.Link> := [];
      PrependNothing(ParseLinks(tokens, pos));
      while LA() == Next(GROUP_OPERATOR_AND) || LA() == Next(GROUP_OPERATOR_OR)
        invariant Valid() && old(pos) < start <= pos
        invariant ParseLinks(tokens, start) == Prepend(rest, ParseLinks(tokens, pos))
        decreases |tokens| - pos
      {
        LinksStep(tokens, pos);
        var connective := GroupOperator();
        var operand := Operand();
        if operand.Failure? {
          return Failure(operand.error);
        }
        var link := Syntax.Link(connective.value, operand.value);
        PrependTwice(rest, [link], ParseLinks(tokens, pos));
        rest := rest + [link];
      }
      assert rest + [] == rest;
      r := Success(Syntax.GroupCondition(first.value, rest));
    }

    /** The entry rule: an optional groupCondition, then the end of input. */
    method Filter() returns (r: Result<Syntax.Filter, SyntaxError>)
      requires Valid()
      modifies this
      ensures Valid() && old(pos) <= pos
      ensures r == ParseFilter(tokens, old(pos))
      ensures r.Failure? ==> pos == r.error.at
      ensures r.Success? ==> pos == |tokens|
    {
      var child: Option<Syntax.GroupCondition> := None;
      var la := LA();
      if la == Next(COLUMN) || la == Next(GROUP_OPEN) {
        var c := GroupCondition();
        if c.Failure? {
          return Failure(c.error);
        }
        child := Some(c.value);
      }
      if LA() != EOF {
        return Failure(SyntaxError(FilterRule, pos, LA(), {EOF}));
      }
      r := Success(Syntax.Filter(child));
    }
  }

  /** Parse a whole token sequence with a fresh parser. */
  method ParseTokens(input: seq<Token>) returns (r: Result<Syntax.Filter, SyntaxError>)
    ensures r == Parse(input)
  {
    var parser := new Parser(input);
    r := parser.Filter();
  }
}
