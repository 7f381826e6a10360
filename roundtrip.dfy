/**
  Parsing inverts printing. Whatever whitespace and locations a token stream
  has, if it spells a well-grouped phrase the expression parser returns the
  phrase's tree; if it spells well-formed sentences the statement parser
  returns their statements, in order. The expression lemmas follow the
  precedence-climbing parser's own structure: `ParseToLoop` reaches the loop
  with the whole phrase as left operand, `ExtendLoop` is one loop iteration.
*/
module RoundTrip {
  import opened Tokens
  import opened Ast
  import opened Grammar
  import opened Printer
  import opened Spelling

  // ---------------------------------------------------------------------------
  // Expressions
  // ---------------------------------------------------------------------------

  /** The expression loop skips whitespace before looking, so it starts alike from a settled cursor. */
  lemma LoopSettled(toks: Stream, p: nat, left: Expression, c: Cursor)
    requires c.pos <= |toks|
    ensures ExprLoop(toks, p, left, Settle(toks, c)) == ExprLoop(toks, p, left, c)
  {
    SettledStart(toks, c);
    SkipIdempotent(toks, c.pos);
  }

  /**
    A well-grouped phrase that binds more tightly than `p`, followed by a token
    that does not, is read back as its tree; the cursor ends after it and the
    whitespace that follows.
  */
  lemma {:induction false} ParsePhrase(toks: Stream, ph: Phrase, p: nat, st: Cursor)
    requires st.pos <= |toks| && WellGrouped(ph) && Binds(ph, p) && Spells(toks, st, Render(ph))
    requires NextPrecedence(toks, Consume(toks, st, Render(ph)).pos) <= p
    ensures ParseExpr(toks, p, st) == Outcome(Ok(Abstract(ph)), Settle(toks, Consume(toks, st, Render(ph))))
    decreases ph, 1
  {
    ParseToLoop(toks, ph, p, st);
  }

  /**
    Reading a well-grouped phrase reaches the expression loop with the whole
    phrase as its left operand, provided the token after it does not bind
    more tightly than the phrase's own operator.
  */
  lemma {:induction false} ParseToLoop(toks: Stream, ph: Phrase, p: nat, st: Cursor)
    requires st.pos <= |toks| && WellGrouped(ph) && Binds(ph, p) && Spells(toks, st, Render(ph))
    requires ph.Infix? ==> NextPrecedence(toks, Consume(toks, st, Render(ph)).pos) <= Precedence(ph.op)
    ensures ParseExpr(toks, p, st) == ExprLoop(toks, p, Abstract(ph), Consume(toks, st, Render(ph)))
    decreases ph, 0
  {
    var rendered := Render(ph);
    match ph
    case Group(x) =>
      ParseGroup(toks, x, st);
    case Infix(l, op, r) =>
      var left := Render(l);
      var rest := [OperatorToken(op)] + Render(r);
      assert rendered == left + rest;
      SpellsConcat(toks, st, left, rest);
      var afterLeft := Consume(toks, st, left);
      NextSpelled(toks, afterLeft, rest);
      OperatorTokenAgrees(op);
      ParseToLoop(toks, l, p, st);
      ExtendLoop(toks, p, Abstract(l), op, r, afterLeft);
    case _ =>
      ParseAtom(toks, ph, st);
  }

  /** A name, `*` or a literal is one prefix token. */
  lemma ParseAtom(toks: Stream, ph: Phrase, st: Cursor)
    requires st.pos <= |toks| && (ph.Name? || ph.Star? || ph.Literal?) && Spells(toks, st, Render(ph))
    ensures ParsePrefix(toks, st) == Outcome(Ok(Abstract(ph)), Consume(toks, st, Render(ph)))
  {
    NextSpelled(toks, st, Render(ph));
  }

  /** A parenthesised phrase is one prefix term; no node is left for the parentheses. */
  lemma {:induction false} ParseGroup(toks: Stream, x: Phrase, st: Cursor)
    requires st.pos <= |toks| && WellGrouped(x) && Spells(toks, st, Render(Group(x)))
    ensures ParsePrefix(toks, st) == Outcome(Ok(Abstract(x)), Consume(toks, st, Render(Group(x))))
    decreases x, 3
  {
    assert Render(Group(x)) == [LeftParen] + Render(x) + [RightParen];
    var a, b := Enclosed(toks, st, LeftParen, Render(x), RightParen);
    ParsePhrase(toks, x, 0, a);
    SettledStart(toks, b);
    PrefixGroup(toks, st, Abstract(x), Settle(toks, b), Consume(toks, st, Render(Group(x))));
  }

  /** A spelled `first inner last` reads `first` up to `a`, spells `inner` up to `b`, and reads `last` there. */
  lemma Enclosed(toks: Stream, st: Cursor, first: Token, inner: seq<Token>, last: Token) returns (a: Cursor, b: Cursor)
    requires st.pos <= |toks| && Spells(toks, st, [first] + inner + [last])
    ensures a.pos <= |toks| && NextToken(toks, st) == Outcome(Ok(first), a)
    ensures Spells(toks, a, inner) && b == Consume(toks, a, inner)
    ensures Sees(toks, b, last)
    ensures NextToken(toks, b) == Outcome(Ok(last), Consume(toks, st, [first] + inner + [last]))
    ensures NextPrecedence(toks, b.pos) == TokenPrecedence(last)
  {
    var head := [first] + inner;
    SpellsConcat(toks, st, head, [last]);
    NextSpelled(toks, st, head);
    assert head[1..] == inner;
    a := Advance(toks, st);
    b := Consume(toks, a, inner);
    NextSpelled(toks, b, [last]);
  }

  /** The parenthesised branch of `ParsePrefix`, once its inner expression and `)` are read. */
  lemma PrefixGroup(toks: Stream, st: Cursor, e: Expression, c: Cursor, d: Cursor)
    requires st.pos <= |toks| && NextToken(toks, st).result == Ok(LeftParen)
    requires ParseExpr(toks, 0, NextToken(toks, st).cursor) == Outcome(Ok(e), c)
    requires c.pos <= |toks| && NextToken(toks, c) == Outcome(Ok(RightParen), d)
    ensures ParsePrefix(toks, st) == Outcome(Ok(e), d)
  {
  }

  /**
    One iteration of the expression loop: an operator binding more tightly
    than `p`, then its right operand, extend the left operand.
  */
  lemma {:induction false} ExtendLoop(toks: Stream, p: nat, left: Expression, op: BinaryOperator, r: Phrase, c: Cursor)
    requires c.pos <= |toks| && WellGrouped(r) && Binds(r, Precedence(op)) && p < Precedence(op)
    requires Spells(toks, c, [OperatorToken(op)] + Render(r))
    requires NextPrecedence(toks, Consume(toks, c, [OperatorToken(op)] + Render(r)).pos) <= Precedence(op)
    ensures ExprLoop(toks, p, left, c) ==
      ExprLoop(toks, p, BinaryOperation(left, op, Abstract(r)), Consume(toks, c, [OperatorToken(op)] + Render(r)))
    decreases r, 2
  {
    var rest := [OperatorToken(op)] + Render(r);
    NextSpelled(toks, c, rest);
    OperatorTokenAgrees(op);
    SettledStart(toks, c);
    var a := Advance(toks, c);
    assert rest[1..] == Render(r);
    ParsePhrase(toks, r, Precedence(op), a);
    LoopSettled(toks, p, BinaryOperation(left, op, Abstract(r)), Consume(toks, a, Render(r)));
  }

  /** Every expression tree is read back from its minimal spelling. */
  lemma ExpressionRoundTrip(toks: Stream, e: Expression, st: Cursor)
    requires st.pos <= |toks| && Spells(toks, st, Render(Minimal(e)))
    requires NextPrecedence(toks, Consume(toks, st, Render(Minimal(e))).pos) == 0
    ensures ParseExpression(toks, st) == Outcome(Ok(e), Settle(toks, Consume(toks, st, Render(Minimal(e)))))
  {
    ParsePhrase(toks, Minimal(e), 0, st);
  }
}
