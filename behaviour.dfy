/**
  Two consequences of the parser's design that its users see: operators of
  equal precedence group to the left, and a column list that opens with `(`
  is taken to be parenthesised as a whole.
*/
module Behaviour {
  import opened Tokens
  import opened Ast
  import opened Grammar
  import opened Printer
  import opened Spelling
  import opened RoundTrip
  import opened ListRoundTrip

  /** An operand written without a top-level operator: a name, `*`, a literal or a parenthesised phrase. */
  predicate Operand(ph: Phrase) {
    !ph.Infix? && WellGrouped(ph)
  }

  /**
    `x op1 y op2 z` with operators of equal precedence is read as
    `(x op1 y) op2 z`, never as `x op1 (y op2 z)`.
  */
  lemma LeftAssociative(toks: Stream, x: Phrase, op1: BinaryOperator, y: Phrase, op2: BinaryOperator, z: Phrase,
                        st: Cursor)
    requires st.pos <= |toks| && Operand(x) && Operand(y) && Operand(z) && Precedence(op1) == Precedence(op2)
    requires Spells(toks, st, Render(x) + [OperatorToken(op1)] + Render(y) + [OperatorToken(op2)] + Render(z))
    requires NextPrecedence(toks, Consume(toks, st, Render(x) + [OperatorToken(op1)] + Render(y) +
                                                   [OperatorToken(op2)] + Render(z)).pos) == 0
    ensures ParseExpression(toks, st).result ==
      Ok(BinaryOperation(BinaryOperation(Abstract(x), op1, Abstract(y)), op2, Abstract(z)))
    ensures ParseExpression(toks, st).result !=
      Ok(BinaryOperation(Abstract(x), op1, BinaryOperation(Abstract(y), op2, Abstract(z))))
  {
    var ph := LeftGrouped(x, op1, y, op2, z);
    ParsePhrase(toks, ph, 0, st);
    NotRightGrouped(Abstract(x), op1, Abstract(y), op2, Abstract(z));
  }

  /** The phrase `x op1 y op2 z`, grouped to the left, is well grouped and written as its parts. */
  lemma LeftGrouped(x: Phrase, op1: BinaryOperator, y: Phrase, op2: BinaryOperator, z: Phrase) returns (ph: Phrase)
    requires Operand(x) && Operand(y) && Operand(z) && Precedence(op1) == Precedence(op2)
    ensures WellGrouped(ph) && Binds(ph, 0)
    ensures Render(ph) == Render(x) + [OperatorToken(op1)] + Render(y) + [OperatorToken(op2)] + Render(z)
    ensures Abstract(ph) == BinaryOperation(BinaryOperation(Abstract(x), op1, Abstract(y)), op2, Abstract(z))
  {
    ph := Infix(Infix(x, op1, y), op2, z);
  }

  /**
    Only a fact about trees, not about the parser: the left-grouped and the
    right-grouped tree differ, because a tree is never equal to one of its own
    proper parts.
  */
  lemma NotRightGrouped(a: Expression, op1: BinaryOperator, b: Expression, op2: BinaryOperator, c: Expression)
    ensures BinaryOperation(BinaryOperation(a, op1, b), op2, c) != BinaryOperation(a, op1, BinaryOperation(b, op2, c))
  {
    assert a < BinaryOperation(a, op1, b);
  }

  /**
    After `SELECT`, an opening parenthesis is taken as the start of a
    parenthesised column list. A first column written as a parenthesised
    phrase followed by anything but `FROM` — as in `SELECT (a + b) * c FROM t;`
    — is therefore rejected: `FROM` is expected where the token after `)` is.
  */
  lemma ParenthesisedFirstColumn(toks: Stream, x: Phrase, after: Token, st: Cursor)
    requires st.pos <= |toks| && WellGrouped(x) && after != Keyword(From)
    requires Spells(toks, st, [Keyword(Keyword.Select)] + ([LeftParen] + Render(x) + [RightParen] + [after]))
    ensures ParseStatement(toks, st).result ==
      Err(ParserError(ExpectedToken(Keyword(From), after),
                      Consume(toks, st, [Keyword(Keyword.Select)] + ([LeftParen] + Render(x) + [RightParen] + [after])).location))
  {
    var es := [ExprEntry(x)];
    var list := RenderList(es, true);
    assert Joined(es) == Render(x) by { assert es[1..] == []; }
    assert list == [LeftParen] + Render(x) + [RightParen];
    Lead(toks, st, Keyword(Keyword.Select), list + [after]);
    var a := Advance(toks, st);
    SpellsConcat(toks, a, list, [after]);
    ParseGroupedList(toks, Expressions, es, false, a);
    var columns := ParseCommaSeparated(toks, Expressions, false, a);
    Chain(toks, a, list, [after], columns.cursor);
    NextSpelled(toks, columns.cursor, [after]);
    SelectStops(toks, st, a, columns.cursor, after);
  }

  /** The `SELECT` statement stops where `FROM` is expected but another token is read. */
  lemma SelectStops(toks: Stream, st: Cursor, a: Cursor, c: Cursor, after: Token)
    requires st.pos <= |toks| && a.pos <= |toks| && c.pos <= |toks| && after != Keyword(From)
    requires NextToken(toks, st) == Outcome(Ok(Keyword(Keyword.Select)), a)
    requires ParseCommaSeparated(toks, Expressions, false, a).result.Ok?
    requires ParseCommaSeparated(toks, Expressions, false, a).cursor == c
    requires NextToken(toks, c).result == Ok(after)
    ensures ParseStatement(toks, st).result ==
      Err(ParserError(ExpectedToken(Keyword(From), after), NextToken(toks, c).cursor.location))
  {
  }

  /** `SELECT (a + b) * c FROM t;`, as a head that ends at `*` and the rest. */
  const SumTimesSql :=
    [Keyword(Keyword.Select)] + ([LeftParen] + [Token.Identifier("a"), Token.Plus, Token.Identifier("b")] + [RightParen] + [Token.Mul])
    + [Token.Identifier("c"), Keyword(From), Token.Identifier("t"), SemiColon]

  /** The example is rejected where `*` follows the `)`. */
  lemma SumTimesColumn(toks: Stream, st: Cursor)
    requires st.pos <= |toks| && Spells(toks, st, SumTimesSql)
    ensures ParseStatement(toks, st).result.Err?
    ensures ParseStatement(toks, st).result.error.kind == ExpectedToken(Keyword(From), Token.Mul)
  {
    var x := Infix(Name("a"), BinaryOperator.Plus, Name("b"));
    assert Render(x) == [Token.Identifier("a"), Token.Plus, Token.Identifier("b")];
    var head := [Keyword(Keyword.Select)] + ([LeftParen] + Render(x) + [RightParen] + [Token.Mul]);
    SpellsConcat(toks, st, head, [Token.Identifier("c"), Keyword(From), Token.Identifier("t"), SemiColon]);
    ParenthesisedFirstColumn(toks, x, Token.Mul, st);
  }
}
