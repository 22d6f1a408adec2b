/** Concrete inputs and what the parser makes of them. */
module ParseExamples {
  import opened Wrappers
  import opened Tokens
  import opened Syntax
  import opened Grammar
  import GrammarProperties

  /** `$col == 1` is one condition with a numeric value. */
  lemma SingleCondition()
    ensures Parse([Token(COLUMN, "$col"), Token(OPERATOR, "=="), Token(NUMBER, "1")])
         == Success(Filter(Some(GroupCondition(
              Condition(Token(COLUMN, "$col"), Token(OPERATOR, "=="), Some(Token(NUMBER, "1"))), []))))
  {
  }

  /** `$col contains` has an identifier for its operator and no value. */
  lemma ConditionWithoutValue()
    ensures Parse([Token(COLUMN, "$col"), Token(IDENTIFIER, "contains")])
         == Success(Filter(Some(GroupCondition(
              Condition(Token(COLUMN, "$col"), Token(IDENTIFIER, "contains"), None), []))))
  {
  }

  /**
   * `($a == 1 || $b == 2) && $c == 3`: a group and a condition joined by AND,
   * the group holding two conditions joined by OR.
   */
  lemma NestedGroup()
    ensures
      var a := Condition(Token(COLUMN, "$a"), Token(OPERATOR, "=="), Some(Token(NUMBER, "1")));
      var b := Condition(Token(COLUMN, "$b"), Token(OPERATOR, "=="), Some(Token(NUMBER, "2")));
      var c := Condition(Token(COLUMN, "$c"), Token(OPERATOR, "=="), Some(Token(NUMBER, "3")));
      var inner := GroupCondition(a, [Link(Token(GROUP_OPERATOR_OR, "||"), b)]);
      var g := Group(Token(GROUP_OPEN, "("), inner, Token(GROUP_CLOSE, ")"));
      var f := Filter(Some(GroupCondition(g, [Link(Token(GROUP_OPERATOR_AND, "&&"), c)])));
      Parse(FilterTokens(f)) == Success(f)
      && Connectives(f.child.value) == [And] && Connectives(inner) == [Or]
  {
    var a := Condition(Token(COLUMN, "$a"), Token(OPERATOR, "=="), Some(Token(NUMBER, "1")));
    var b := Condition(Token(COLUMN, "$b"), Token(OPERATOR, "=="), Some(Token(NUMBER, "2")));
    var c := Condition(Token(COLUMN, "$c"), Token(OPERATOR, "=="), Some(Token(NUMBER, "3")));
    var inner := GroupCondition(a, [Link(Token(GROUP_OPERATOR_OR, "||"), b)]);
    var g := Group(Token(GROUP_OPEN, "("), inner, Token(GROUP_CLOSE, ")"));
    var f := Filter(Some(GroupCondition(g, [Link(Token(GROUP_OPERATOR_AND, "&&"), c)])));
    GrammarProperties.ParseRoundTrip(f);
  }

  /**
   * `$a == 1 && $b == 2 || $c == 3`: one flat chain of three operands, with
   * no precedence between AND and OR.
   */
  lemma FlatChain()
    ensures
      var a := Condition(Token(COLUMN, "$a"), Token(OPERATOR, "=="), Some(Token(NUMBER, "1")));
      var b := Condition(Token(COLUMN, "$b"), Token(OPERATOR, "=="), Some(Token(NUMBER, "2")));
      var c := Condition(Token(COLUMN, "$c"), Token(OPERATOR, "=="), Some(Token(NUMBER, "3")));
      var g := GroupCondition(a, [Link(Token(GROUP_OPERATOR_AND, "&&"), b), Link(Token(GROUP_OPERATOR_OR, "||"), c)]);
      Parse(ChainTokens(g)) == Success(Filter(Some(g)))
      && Connectives(g) == [And, Or] && Operands(g) == [a, b, c]
  {
    var a := Condition(Token(COLUMN, "$a"), Token(OPERATOR, "=="), Some(Token(NUMBER, "1")));
    var b := Condition(Token(COLUMN, "$b"), Token(OPERATOR, "=="), Some(Token(NUMBER, "2")));
    var c := Condition(Token(COLUMN, "$c"), Token(OPERATOR, "=="), Some(Token(NUMBER, "3")));
    var g := GroupCondition(a, [Link(Token(GROUP_OPERATOR_AND, "&&"), b), Link(Token(GROUP_OPERATOR_OR, "||"), c)]);
    GrammarProperties.ParseRoundTrip(Filter(Some(g)));
  }

  /** `($a == 1` fails at the end of input, expecting GROUP_CLOSE. */
  lemma UnbalancedGroup()
    ensures Parse([Token(GROUP_OPEN, "("), Token(COLUMN, "$a"), Token(OPERATOR, "=="), Token(NUMBER, "1")])
         == Failure(SyntaxError(GroupRule, 4, EOF, {Next(GROUP_CLOSE)}))
  {
    var ts := [Token(GROUP_OPEN, "("), Token(COLUMN, "$a"), Token(OPERATOR, "=="), Token(NUMBER, "1")];
    var a := Condition(Token(COLUMN, "$a"), Token(OPERATOR, "=="), Some(Token(NUMBER, "1")));
    assert ParseGroupCondition(ts, 1) == Ok(GroupCondition(a, []), 4);
    GrammarProperties.MissingCloseRejected(ts, 0, GroupCondition(a, []), 4);
  }

  /** `$a == 1 &&` fails at the end of input: no operand follows the connective. */
  lemma DanglingConnective()
    ensures Parse([Token(COLUMN, "$a"), Token(OPERATOR, "=="), Token(NUMBER, "1"), Token(GROUP_OPERATOR_AND, "&&")])
         == Failure(SyntaxError(GroupConditionRule, 4, EOF, OperandStarts))
  {
  }
}
