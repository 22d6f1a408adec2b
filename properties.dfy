/**
 * What the grammar rules promise: a successful rule consumed exactly the
 * tokens of the tree it returns and that tree is well formed (soundness);
 * every well-formed tree is parsed back from its own tokens (completeness);
 * hence the parser accepts exactly the token sequences of well-formed trees,
 * and each of them in exactly one way.
 */
module GrammarProperties {
  import opened Wrappers
  import opened Tokens
  import opened Syntax
  import opened Grammar

  /** The tokens `xs` occur in `ts` starting at position p. */
  predicate TokensAt(ts: seq<Token>, p: nat, xs: seq<Token>) {
    p + |xs| <= |ts| && ts[p..p + |xs|] == xs
  }

  lemma SplitAt(ts: seq<Token>, p: nat, a: seq<Token>, b: seq<Token>)
    requires TokensAt(ts, p, a + b)
    ensures TokensAt(ts, p, a) && TokensAt(ts, p + |a|, b)
  {
    assert ts[p..p + |a|] == ts[p..p + |a + b|][..|a|];
    assert ts[p + |a|..p + |a| + |b|] == ts[p..p + |a + b|][|a|..];
  }

  // ---------------------------------------------------------------------
  // Soundness: the tree of a successful rule flattens to the consumed slice.

  lemma ConditionSound(ts: seq<Token>, p: nat)
    requires p <= |ts|
    ensures var r := ParseCondition(ts, p);
      r.Ok? ==> WellFormedOperand(r.tree) && OperandTokens(r.tree) == ts[p..r.next]
  {
    var r := ParseCondition(ts, p);
    if r.Ok? {
      if r.tree.value.Some? {
        assert ts[p..r.next] == [ts[p], ts[p + 1], ts[p + 2]];
      } else {
        assert ts[p..r.next] == [ts[p], ts[p + 1]];
      }
    }
  }

  lemma {:induction false} OperandSound(ts: seq<Token>, p: nat)
    requires p <= |ts|
    ensures var r := ParseOperand(ts, p);
      r.Ok? ==> WellFormedOperand(r.tree) && OperandTokens(r.tree) == ts[p..r.next]
    decreases |ts| - p, 1
  {
    if Peek(ts, p) == Next(COLUMN) {
      ConditionSound(ts, p);
    } else if Peek(ts, p) == Next(GROUP_OPEN) {
      GroupSound(ts, p);
    }
  }

  lemma {:induction false} GroupSound(ts: seq<Token>, p: nat)
    requires p <= |ts|
    ensures var r := ParseGroup(ts, p);
      r.Ok? ==> WellFormedOperand(r.tree) && OperandTokens(r.tree) == ts[p..r.next]
    decreases |ts| - p, 0
  {
    if ParseGroup(ts, p).Ok? {
      GroupParts(ts, p);
      GroupConditionSound(ts, p + 1);
      GroupSoundStep(ts, p, ParseGroupCondition(ts, p + 1).tree, ParseGroupCondition(ts, p + 1).next);
    }
  }

  /** A successful group is its opening bracket, its body and its closing bracket. */
  lemma GroupParts(ts: seq<Token>, p: nat)
    requires p <= |ts| && ParseGroup(ts, p).Ok?
    ensures p < |ts| && ts[p].kind == GROUP_OPEN
    ensures var body := ParseGroupCondition(ts, p + 1);
      body.Ok? && body.next < |ts| && ts[body.next].kind == GROUP_CLOSE
      && ParseGroup(ts, p) == Ok(Group(ts[p], body.tree, ts[body.next]), body.next + 1)
  {
  }

  lemma GroupSoundStep(ts: seq<Token>, p: nat, body: GroupCondition, m: nat)
    requires p < m < |ts| && ts[p].kind == GROUP_OPEN && ts[m].kind == GROUP_CLOSE
    requires WellFormedChain(body) && ChainTokens(body) == ts[p + 1..m]
    ensures WellFormedOperand(Group(ts[p], body, ts[m]))
    ensures OperandTokens(Group(ts[p], body, ts[m])) == ts[p..m + 1]
  {
    assert ts[p..m + 1] == [ts[p]] + ts[p + 1..m] + [ts[m]];
  }

  lemma {:induction false} GroupConditionSound(ts: seq<Token>, p: nat)
    requires p <= |ts|
    ensures var r := ParseGroupCondition(ts, p);
      r.Ok? ==> WellFormedChain(r.tree) && ChainTokens(r.tree) == ts[p..r.next]
    decreases |ts| - p, 2
  {
    var r := ParseGroupCondition(ts, p);
    if r.Ok? {
      var first := ParseOperand(ts, p);
      OperandSound(ts, p);
      LinksSound(ts, first.next);
      JoinSlices(ts, p, first.next, r.next);
    }
  }

  lemma {:induction false} LinksSound(ts: seq<Token>, p: nat)
    requires p <= |ts|
    ensures var r := ParseLinks(ts, p);
      r.Ok? ==> WellFormedLinks(r.tree) && LinksTokens(r.tree) == ts[p..r.next]
    decreases |ts| - p, 3
  {
    var r := ParseLinks(ts, p);
    if r.Ok? && r.tree != [] {
      LinksHead(ts, p);
      var operand := ParseOperand(ts, p + 1);
      var more := ParseLinks(ts, operand.next);
      OperandSound(ts, p + 1);
      LinksSound(ts, operand.next);
      LinksSoundStep(ts, p, r.tree, operand.next, r.next);
    }
  }

  /** A connective, a sound operand and sound further links make sound links. */
  lemma LinksSoundStep(ts: seq<Token>, p: nat, links: seq<Link>, q: nat, n: nat)
    requires p < q <= n <= |ts| && links != []
    requires links[0].connective == ts[p] && IsConnective(ts[p].kind)
    requires WellFormedOperand(links[0].operand) && OperandTokens(links[0].operand) == ts[p + 1..q]
    requires WellFormedLinks(links[1..]) && LinksTokens(links[1..]) == ts[q..n]
    ensures WellFormedLinks(links) && LinksTokens(links) == ts[p..n]
  {
    calc {
      LinksTokens(links);
      [ts[p]] + ts[p + 1..q] + ts[q..n];
      { JoinSlices(ts, p, p + 1, q); }
      ts[p..q] + ts[q..n];
      { JoinSlices(ts, p, q, n); }
      ts[p..n];
    }
  }

  /** A non-empty result of the loop starts with a connective, then one operand, then the rest. */
  lemma LinksHead(ts: seq<Token>, p: nat)
    requires p <= |ts|
    requires ParseLinks(ts, p).Ok? && ParseLinks(ts, p).tree != []
    ensures p < |ts| && IsConnective(ts[p].kind)
    ensures var o := ParseOperand(ts, p + 1);
      o.Ok? && ParseLinks(ts, o.next).Ok?
      && ParseLinks(ts, p).tree == [Link(ts[p], o.tree)] + ParseLinks(ts, o.next).tree
      && ParseLinks(ts, p).next == ParseLinks(ts, o.next).next
  {
    LinksStep(ts, p);
  }

  lemma JoinSlices(ts: seq<Token>, i: nat, j: nat, k: nat)
    requires i <= j <= k <= |ts|
    ensures ts[i..j] + ts[j..k] == ts[i..k]
  {
  }

  /** A successful parse is well formed and covers the whole input. */
  lemma ParseSound(ts: seq<Token>)
    ensures Parse(ts).Success? ==>
      WellFormedFilter(Parse(ts).value) && FilterTokens(Parse(ts).value) == ts
  {
    if Parse(ts).Success? && Parse(ts).value.child.Some? {
      GroupConditionSound(ts, 0);
      assert ts[0..|ts|] == ts;
    }
  }

  // ---------------------------------------------------------------------
  // Completeness: a well-formed tree is parsed back from its own tokens,
  // provided the token after it cannot extend it (a literal could become the
  // value of a trailing condition, a connective the next link of a chain).

  /** The lookahead after an operand that lets it end there. */
  predicate EndsOperandAt(ts: seq<Token>, q: nat) {
    q < |ts| ==> ts[q].kind != NUMBER && ts[q].kind != STRING
  }

  /** The lookahead after a chain that lets it end there. */
  predicate EndsChainAt(ts: seq<Token>, q: nat) {
    EndsOperandAt(ts, q) && (q < |ts| ==> !IsConnective(ts[q].kind))
  }

  lemma {:induction false} OperandComplete(o: Operand, ts: seq<Token>, p: nat)
    requires WellFormedOperand(o)
    requires TokensAt(ts, p, OperandTokens(o))
    requires EndsOperandAt(ts, p + |OperandTokens(o)|)
    ensures ParseOperand(ts, p) == Ok(o, p + |OperandTokens(o)|)
    decreases o, 1
  {
    assert ts[p] == OperandTokens(o)[0];
    if o.Condition? {
      ConditionComplete(o, ts, p);
    } else {
      GroupComplete(o, ts, p);
    }
  }

  lemma ConditionComplete(o: Operand, ts: seq<Token>, p: nat)
    requires o.Condition? && WellFormedOperand(o)
    requires TokensAt(ts, p, OperandTokens(o))
    requires EndsOperandAt(ts, p + |OperandTokens(o)|)
    ensures ParseCondition(ts, p) == Ok(o, p + |OperandTokens(o)|)
  {
    assert ts[p] == OperandTokens(o)[0];
    assert ts[p + 1] == OperandTokens(o)[1];
    if o.value.Some? {
      assert ts[p + 2] == OperandTokens(o)[2];
    }
  }

  lemma {:induction false} GroupComplete(o: Operand, ts: seq<Token>, p: nat)
    requires o.Group? && WellFormedOperand(o)
    requires TokensAt(ts, p, OperandTokens(o))
    ensures ParseGroup(ts, p) == Ok(o, p + |OperandTokens(o)|)
    decreases o, 0
  {
    GroupSplit(o, ts, p);
    ChainComplete(o.body, ts, p + 1);
    GroupCons(ts, p, o, p + 1 + |ChainTokens(o.body)|);
  }

  /** The tokens of a group are its brackets around the tokens of its body. */
  lemma GroupSplit(o: Operand, ts: seq<Token>, p: nat)
    requires o.Group? && WellFormedOperand(o)
    requires TokensAt(ts, p, OperandTokens(o))
    ensures WellFormedChain(o.body)
    ensures |OperandTokens(o)| == |ChainTokens(o.body)| + 2
    ensures ts[p] == o.open && ts[p + 1 + |ChainTokens(o.body)|] == o.close
    ensures TokensAt(ts, p + 1, ChainTokens(o.body))
    ensures EndsChainAt(ts, p + 1 + |ChainTokens(o.body)|)
  {
    var inner := ChainTokens(o.body);
    SplitAt(ts, p, [o.open] + inner, [o.close]);
    SplitAt(ts, p, [o.open], inner);
    assert ts[p] == o.open;
    assert ts[p + 1 + |inner|] == o.close;
  }

  /** An opening bracket, a body parsed back up to a closing bracket, make the group. */
  lemma GroupCons(ts: seq<Token>, p: nat, o: Operand, m: nat)
    requires o.Group? && m < |ts|
    requires p < |ts| && ts[p] == o.open && o.open.kind == GROUP_OPEN
    requires ParseGroupCondition(ts, p + 1) == Ok(o.body, m)
    requires ts[m] == o.close && o.close.kind == GROUP_CLOSE
    ensures ParseGroup(ts, p) == Ok(o, m + 1)
  {
  }

  lemma {:induction false} ChainComplete(c: GroupCondition, ts: seq<Token>, p: nat)
    requires WellFormedChain(c)
    requires TokensAt(ts, p, ChainTokens(c))
    requires EndsChainAt(ts, p + |ChainTokens(c)|)
    ensures ParseGroupCondition(ts, p) == Ok(c, p + |ChainTokens(c)|)
    decreases c
  {
    var q := ChainSplit(c, ts, p);
    OperandComplete(c.first, ts, p);
    LinksComplete(c.rest, ts, q);
    ChainCons(ts, p, c, q, q + |LinksTokens(c.rest)|);
  }

  /**
   * A chain is its first operand, ending where an operand may end, and its
   * links starting at q, ending where the chain ends.
   */
  lemma ChainSplit(c: GroupCondition, ts: seq<Token>, p: nat) returns (q: nat)
    requires WellFormedChain(c)
    requires TokensAt(ts, p, ChainTokens(c))
    requires EndsChainAt(ts, p + |ChainTokens(c)|)
    ensures WellFormedOperand(c.first) && WellFormedLinks(c.rest)
    ensures q == p + |OperandTokens(c.first)|
    ensures p + |ChainTokens(c)| == q + |LinksTokens(c.rest)|
    ensures TokensAt(ts, p, OperandTokens(c.first)) && EndsOperandAt(ts, q)
    ensures TokensAt(ts, q, LinksTokens(c.rest))
    ensures EndsChainAt(ts, q + |LinksTokens(c.rest)|)
  {
    SplitAt(ts, p, OperandTokens(c.first), LinksTokens(c.rest));
    q := p + |OperandTokens(c.first)|;
    LinksFollowOperand(c.rest, ts, q);
  }

  /** A first operand and the links after it make the chain. */
  lemma ChainCons(ts: seq<Token>, p: nat, c: GroupCondition, q: nat, n: nat)
    requires p <= |ts|
    requires ParseOperand(ts, p) == Ok(c.first, q)
    requires ParseLinks(ts, q) == Ok(c.rest, n)
    ensures ParseGroupCondition(ts, p) == Ok(c, n)
  {
  }

  lemma {:induction false} LinksComplete(links: seq<Link>, ts: seq<Token>, p: nat)
    requires WellFormedLinks(links)
    requires TokensAt(ts, p, LinksTokens(links))
    requires EndsChainAt(ts, p + |LinksTokens(links)|)
    ensures ParseLinks(ts, p) == Ok(links, p + |LinksTokens(links)|)
    decreases links, 1
  {
    if links != [] {
      var l, more := links[0], links[1..];
      var q := LinksSplit(links, ts, p);
      LinksComplete(more, ts, q);
      FirstLinkComplete(l, more, ts, p, q, q + |LinksTokens(more)|);
    }
  }

  /**
   * Non-empty links are a first link, ending where an operand may end, and
   * further links starting at q, ending where a chain may end.
   */
  lemma LinksSplit(links: seq<Link>, ts: seq<Token>, p: nat) returns (q: nat)
    requires WellFormedLinks(links) && links != []
    requires TokensAt(ts, p, LinksTokens(links))
    requires EndsChainAt(ts, p + |LinksTokens(links)|)
    ensures links == [links[0]] + links[1..]
    ensures WellFormedLink(links[0]) && WellFormedLinks(links[1..])
    ensures q == p + |LinkTokens(links[0])|
    ensures |LinksTokens(links)| == |LinkTokens(links[0])| + |LinksTokens(links[1..])|
    ensures TokensAt(ts, p, LinkTokens(links[0]))
    ensures TokensAt(ts, q, LinksTokens(links[1..]))
    ensures EndsChainAt(ts, q + |LinksTokens(links[1..])|)
    ensures EndsOperandAt(ts, q)
  {
    var head, tail := LinkTokens(links[0]), LinksTokens(links[1..]);
    assert LinksTokens(links) == head + tail;
    SplitAt(ts, p, head, tail);
    q := p + |head|;
    LinksFollowOperand(links[1..], ts, q);
  }

  /**
   * Where tokens that are empty or start with a connective are followed by
   * the end of a chain, an operand may end in front of them.
   */
  lemma FollowThrough(ts: seq<Token>, q: nat, tail: seq<Token>)
    requires TokensAt(ts, q, tail) && EndsChainAt(ts, q + |tail|)
    requires tail != [] ==> IsConnective(tail[0].kind)
    ensures EndsOperandAt(ts, q)
  {
    if tail != [] {
      assert ts[q] == tail[0];
    }
  }

  /** Given the rest of the links parsed back, the first link is parsed back in front of them. */
  lemma {:induction false} FirstLinkComplete(l: Link, more: seq<Link>, ts: seq<Token>, p: nat, q: nat, end: nat)
    requires WellFormedLink(l) && TokensAt(ts, p, LinkTokens(l))
    requires q == p + |LinkTokens(l)| && EndsOperandAt(ts, q)
    requires ParseLinks(ts, q) == Ok(more, end)
    ensures ParseLinks(ts, p) == Ok([l] + more, end)
    decreases l, 1
  {
    LinkComplete(l, ts, p);
    LinksCons(ts, p, l, more, q, end);
  }

  lemma LinksFollowOperand(links: seq<Link>, ts: seq<Token>, p: nat)
    requires WellFormedLinks(links)
    requires TokensAt(ts, p, LinksTokens(links))
    requires EndsChainAt(ts, p + |LinksTokens(links)|)
    ensures EndsOperandAt(ts, p)
  {
    if links != [] {
      LinksStartWithConnective(links);
    }
    FollowThrough(ts, p, LinksTokens(links));
  }

  /** A connective, an operand and further links make one more link. */
  lemma LinksCons(ts: seq<Token>, p: nat, l: Link, more: seq<Link>, q: nat, end: nat)
    requires p < |ts| && ts[p] == l.connective && IsConnective(l.connective.kind)
    requires ParseOperand(ts, p + 1) == Ok(l.operand, q)
    requires ParseLinks(ts, q) == Ok(more, end)
    ensures ParseLinks(ts, p) == Ok([l] + more, end)
  {
    LinksStep(ts, p);
  }

  lemma {:induction false} LinkComplete(l: Link, ts: seq<Token>, p: nat)
    requires WellFormedLink(l)
    requires TokensAt(ts, p, LinkTokens(l))
    requires EndsOperandAt(ts, p + |LinkTokens(l)|)
    ensures ParseGroupOperator(ts, p) == Ok(l.connective, p + 1)
    ensures ParseOperand(ts, p + 1) == Ok(l.operand, p + |LinkTokens(l)|)
    ensures ts[p] == l.connective
    decreases l, 0
  {
    SplitAt(ts, p, [l.connective], OperandTokens(l.operand));
    assert ts[p] == l.connective;
    OperandComplete(l.operand, ts, p + 1);
  }

  lemma LinksStartWithConnective(links: seq<Link>)
    requires WellFormedLinks(links) && links != []
    ensures |LinksTokens(links)| > 0 && IsConnective(LinksTokens(links)[0].kind)
  {
  }

  /** Every well-formed filter is parsed back from its own tokens. */
  lemma ParseRoundTrip(f: Filter)
    requires WellFormedFilter(f)
    ensures Parse(FilterTokens(f)) == Success(f)
  {
    var ts := FilterTokens(f);
    if f.child.Some? {
      assert ts[0..|ts|] == ts;
      ChainComplete(f.child.value, ts, 0);
    }
  }

  /** The parser accepts exactly the token sequences of well-formed filters. */
  lemma AcceptedLanguage(ts: seq<Token>)
    ensures Parse(ts).Success? <==> exists f :: WellFormedFilter(f) && FilterTokens(f) == ts
  {
    ParseSound(ts);
    if f :| WellFormedFilter(f) && FilterTokens(f) == ts {
      ParseRoundTrip(f);
    }
  }

  /** The grammar is unambiguous: a token sequence is the flattening of at most one tree. */
  lemma Unambiguous(f: Filter, g: Filter)
    requires WellFormedFilter(f) && WellFormedFilter(g)
    requires FilterTokens(f) == FilterTokens(g)
    ensures f == g
  {
    ParseRoundTrip(f);
    ParseRoundTrip(g);
  }

  // ---------------------------------------------------------------------
  // Properties of single rules and of the entry rule.

  /** The empty input parses to a filter without a child, and no other input does. */
  lemma EmptyInput(ts: seq<Token>)
    ensures Parse(ts) == Success(Filter(None)) <==> ts == []
  {
  }

  /**
   * Whatever tokens follow a complete groupCondition make the parse fail at
   * the first of them, expecting the end of input.
   */
  lemma TrailingTokensRejected(ts: seq<Token>, c: GroupCondition, n: nat)
    requires ParseGroupCondition(ts, 0) == Ok(c, n) && n < |ts|
    ensures Parse(ts) == Failure(SyntaxError(FilterRule, n, Next(ts[n].kind), {EOF}))
  {
    assert ParseOperand(ts, 0).Ok?;
  }

  /** The last token of a well-formed operand or chain is never a connective. */
  lemma OperandEndsWell(o: Operand)
    requires WellFormedOperand(o)
    ensures |OperandTokens(o)| > 0 && !IsConnective(OperandTokens(o)[|OperandTokens(o)| - 1].kind)
  {
  }

  lemma {:induction false} LinksEndWell(links: seq<Link>)
    requires WellFormedLinks(links) && links != []
    ensures |LinksTokens(links)| > 0 && !IsConnective(LinksTokens(links)[|LinksTokens(links)| - 1].kind)
  {
    OperandEndsWell(links[0].operand);
    if links[1..] != [] {
      LinksEndWell(links[1..]);
    }
  }

  lemma ChainEndsWell(c: GroupCondition)
    requires WellFormedChain(c)
    ensures |ChainTokens(c)| > 0 && !IsConnective(ChainTokens(c)[|ChainTokens(c)| - 1].kind)
  {
    OperandEndsWell(c.first);
    if c.rest != [] {
      LinksEndWell(c.rest);
    }
  }

  /** A connective with no operand after it is never accepted. */
  lemma TrailingConnectiveRejected(ts: seq<Token>, connective: Token)
    requires IsConnective(connective.kind)
    ensures Parse(ts + [connective]).Failure?
  {
    var input := ts + [connective];
    ParseSound(input);
    if Parse(input).Success? {
      var f := Parse(input).value;
      ChainEndsWell(f.child.value);
    }
  }

  /**
   * A group whose body is not followed by GROUP_CLOSE fails there, expecting
   * GROUP_CLOSE.
   */
  lemma MissingCloseRejected(ts: seq<Token>, p: nat, body: GroupCondition, m: nat)
    requires p < |ts| && ts[p].kind == GROUP_OPEN
    requires ParseGroupCondition(ts, p + 1) == Ok(body, m)
    requires Peek(ts, m) != Next(GROUP_CLOSE)
    ensures ParseGroup(ts, p) == Fail(SyntaxError(GroupRule, m, Peek(ts, m), {Next(GROUP_CLOSE)}))
  {
  }

  /**
   * The filter rule's second alternative, a lone group up to the end of input,
   * accepts nothing that the first does not: the group is a groupCondition of
   * one operand.
   */
  lemma GroupAlternativeSubsumed(ts: seq<Token>, g: Operand)
    requires ParseGroup(ts, 0) == Ok(g, |ts|)
    ensures Parse(ts) == Success(Filter(Some(GroupCondition(g, []))))
  {
    assert ts[0].kind == GROUP_OPEN;
    assert ParseOperand(ts, 0) == Ok(g, |ts|);
    assert ParseLinks(ts, |ts|) == Ok([], |ts|);
  }
}
