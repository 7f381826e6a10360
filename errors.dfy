/**
  The parser's error paths beyond the token-level ones stated in `Grammar`:
  which error a bad statement start, a missing `;`, a bad expression, data
  type or VARCHAR length, and `PRIMARY` without `KEY` produce, and where.
  Every error carries the location of the last token consumed when it was
  raised (a lexical error keeps its own location).
*/
module Diagnostics {
  import opened Tokens
  import opened Ast
  import opened Grammar
  import opened Printer

  // ---------------------------------------------------------------------------
  // Statements
  // ---------------------------------------------------------------------------

  /**
    How a statement can fail at its first token: a lexical error or the end of
    input is passed on; a token other than a keyword is an unexpected initial
    token; a keyword that starts no statement is reported by name, `Keyword.None`
    as a missing statement. Each error is located at the token just read.
  */
  lemma StatementStart(toks: Stream, st: Cursor)
    requires st.pos <= |toks|
    ensures var n := NextToken(toks, st); var o := ParseStatement(toks, st);
      && (n.result.Err? ==> o == Outcome(Err(n.result.error), n.cursor))
      && (n.result.Ok? && !n.result.value.Keyword? ==>
            o == Outcome(Err(ParserError(UnexpectedInitialToken(n.result.value), n.cursor.location)), n.cursor))
      && (n.result.Ok? && n.result.value == Keyword(Keyword.None) ==>
            o == Outcome(Err(ParserError(ExpectedStatement, n.cursor.location)), n.cursor))
      && (n.result.Ok? && n.result.value.Keyword? && n.result.value != Keyword(Keyword.None) &&
          !StartsStatement(n.result.value.keyword) ==>
            o == Outcome(Err(ParserError(UnexpectedStatementKeyword(n.result.value.keyword), n.cursor.location)),
                         n.cursor))
  {
  }

  /**
    A statement whose body is read but is not followed by `;` fails with a
    missing terminator, located at whatever was read in its place.
  */
  lemma MissingSemicolon(toks: Stream, st: Cursor, k: Keyword)
    requires st.pos <= |toks| && NextToken(toks, st).result == Ok(Keyword(k))
    requires ParseStatementBody(toks, k, NextToken(toks, st).cursor).result.Ok?
    requires var body := ParseStatementBody(toks, k, NextToken(toks, st).cursor);
      NextToken(toks, body.cursor).result != Ok(SemiColon)
    ensures var body := ParseStatementBody(toks, k, NextToken(toks, st).cursor);
      ParseStatement(toks, st) ==
        Outcome(Err(ParserError(MissingTerminator, NextToken(toks, body.cursor).cursor.location)),
                NextToken(toks, body.cursor).cursor)
  {
  }

  /** A statement ends exactly at the `;` that terminates it. */
  lemma StatementEndsAtSemicolon(toks: Stream, st: Cursor, k: Keyword)
    requires st.pos <= |toks| && NextToken(toks, st).result == Ok(Keyword(k))
    requires ParseStatementBody(toks, k, NextToken(toks, st).cursor).result.Ok?
    requires var body := ParseStatementBody(toks, k, NextToken(toks, st).cursor);
      NextToken(toks, body.cursor).result == Ok(SemiColon)
    ensures var body := ParseStatementBody(toks, k, NextToken(toks, st).cursor);
      ParseStatement(toks, st) == Outcome(body.result, NextToken(toks, body.cursor).cursor)
  {
  }

  // ---------------------------------------------------------------------------
  // Expressions
  // ---------------------------------------------------------------------------

  /** The tokens with a binding strength are exactly the infix operators. */
  lemma PrecedenceMeansOperator(t: Token)
    ensures TokenPrecedence(t) > 0 <==> InfixOperator(t).Some?
  {
  }

  /** At the end of the stream or at a lexical error there is no operator to absorb. */
  lemma NoPrecedenceAtEnd(toks: Stream, pos: nat)
    requires pos <= |toks| && (Peek(toks, pos).None? || Peek(toks, pos).value.LexError?)
    ensures NextPrecedence(toks, pos) == 0
  {
  }

  /** A token that cannot start an expression is reported where it was read. */
  lemma BadPrefix(toks: Stream, p: nat, st: Cursor)
    requires st.pos <= |toks| && NextToken(toks, st).result.Ok?
    requires var t := NextToken(toks, st).result.value;
      !(t.Identifier? || t == Token.Mul || t.Number? || t.String? || t == LeftParen)
    ensures var n := NextToken(toks, st);
      ParseExpr(toks, p, st) ==
        Outcome(Err(ParserError(ExpectedPrefix(n.result.value), n.cursor.location)), n.cursor)
  {
  }

  /**
    The errors an expression can fail with: the end of input, a lexical
    error, a token that cannot start an operand, or a missing `)`. In
    particular the operator error of `ParseInfix` never surfaces, because the
    loop only calls it when the next token has a binding strength, and so is
    an operator.
  */
  predicate ExpressionError(k: ErrorKind) {
    k.UnexpectedEof? || k.Syntax? || k.ExpectedPrefix? || (k.ExpectedToken? && k.expected == RightParen)
  }

  lemma {:induction false} ExprErrors(toks: Stream, p: nat, st: Cursor)
    requires st.pos <= |toks|
    ensures var o := ParseExpr(toks, p, st);
      o.result.Err? ==> ExpressionError(o.result.error.kind)
    decreases |toks| - st.pos, 2
  {
    var prefix := ParsePrefix(toks, st);
    PrefixErrors(toks, st);
    if prefix.result.Ok? {
      LoopErrors(toks, p, prefix.result.value, prefix.cursor);
    }
  }

  lemma {:induction false} LoopErrors(toks: Stream, p: nat, left: Expression, st: Cursor)
    requires st.pos <= |toks|
    ensures var o := ExprLoop(toks, p, left, st);
      o.result.Err? ==> ExpressionError(o.result.error.kind)
    decreases |toks| - st.pos, 1
  {
    var next := NextPrecedence(toks, st.pos);
    var here := Cursor(SkipWhiteSpaces(toks, st.pos), st.location);
    if p < next {
      SkipIdempotent(toks, st.pos);
      var infix := ParseInfix(toks, left, next, here);
      InfixErrors(toks, left, next, here);
      if infix.result.Ok? {
        LoopErrors(toks, p, infix.result.value, infix.cursor);
      }
    }
  }

  lemma {:induction false} PrefixErrors(toks: Stream, st: Cursor)
    requires st.pos <= |toks|
    ensures var o := ParsePrefix(toks, st);
      o.result.Err? ==> ExpressionError(o.result.error.kind)
    decreases |toks| - st.pos, 1
  {
    var n := NextToken(toks, st);
    if n.result.Ok? && n.result.value == LeftParen {
      ExprErrors(toks, 0, n.cursor);
    }
  }

  /** At a token with a binding strength, `ParseInfix` fails only as its right operand does. */
  lemma {:induction false} InfixErrors(toks: Stream, left: Expression, precedence: nat, st: Cursor)
    requires st.pos <= |toks| && NextPrecedence(toks, st.pos) > 0
    ensures var o := ParseInfix(toks, left, precedence, st);
      o.result.Err? ==> ExpressionError(o.result.error.kind)
    decreases |toks| - st.pos, 0
  {
    var t := PeekedToken(toks, st.pos).value;
    PrecedenceMeansOperator(t);
    var n := NextToken(toks, st);
    assert n.result == Ok(t);
    ExprErrors(toks, precedence, n.cursor);
  }

  // ---------------------------------------------------------------------------
  // Column definitions
  // ---------------------------------------------------------------------------

  /**
    After `VARCHAR (` the length must be a number token, or the error names
    what was found; a number that does not parse as an unsigned 64-bit value
    is an incorrect length. Both are located at the token read.
  */
  lemma VarcharLengthErrors(toks: Stream, st: Cursor)
    requires st.pos <= |toks| && NextToken(toks, st).result == Ok(LeftParen)
    ensures var len := NextToken(toks, NextToken(toks, st).cursor); var o := ParseVarcharLength(toks, st);
      && (len.result.Ok? && !len.result.value.Number? ==>
            o == Outcome(Err(ParserError(ExpectedVarcharLength(len.result.value), len.cursor.location)), len.cursor))
      && (len.result.Ok? && len.result.value.Number? && ParseLength(len.result.value.digits).None? ==>
            o == Outcome(Err(ParserError(IncorrectVarcharLength(len.result.value.digits), len.cursor.location)),
                         len.cursor))
  {
  }

  /** A data type must be a keyword, and one of `INT` and `VARCHAR`. */
  lemma DataTypeErrors(toks: Stream, st: Cursor)
    requires st.pos <= |toks| && NextToken(toks, st).result.Ok?
    ensures var n := NextToken(toks, st); var t := n.result.value; var o := ParseDataType(toks, st);
      && (!t.Keyword? ==> o == Outcome(Err(ParserError(ExpectedDataType(t), n.cursor.location)), n.cursor))
      && (t.Keyword? && t.keyword != Keyword.Int && t.keyword != Keyword.Varchar ==>
            o == Outcome(Err(ParserError(UnexpectedKeyword(t.keyword), n.cursor.location)), n.cursor))
      && (t == Keyword(Keyword.Int) ==> o == Outcome(Ok(DataType.Int), n.cursor))
  {
  }

  /**
    `PRIMARY` must be followed by `KEY`: otherwise the error names the token
    found instead, located where it was read.
  */
  lemma PrimaryNeedsKey(toks: Stream, st: Cursor)
    requires st.pos <= |toks| && NextToken(toks, st).result == Ok(Keyword(Keyword.Primary))
    ensures var key := NextToken(toks, NextToken(toks, st).cursor); var o := ParseConstraint(toks, st);
      && (key.result.Ok? && key.result.value != Keyword(Keyword.Key) ==>
            o == Outcome(Err(ParserError(ExpectedToken(Keyword(Keyword.Key), key.result.value), key.cursor.location)),
                         key.cursor))
      && (key.result == Ok(Keyword(Keyword.Key)) ==> o == Outcome(Ok(Some(PrimaryKey)), key.cursor))
  {
    var n := NextToken(toks, st);
    assert PeekedKeyword(toks, st.pos) == Some(Keyword.Primary);
    assert ConsumeOneOf(toks, [Keyword.Primary, Keyword.Unique], st).cursor == n.cursor;
  }

  /**
    A VARCHAR length is read as an unsigned 64-bit integer is: an optional
    `+`, then decimal digits and nothing else.
  */
  lemma LengthSyntax()
    ensures ParseLength("").None? && ParseLength("+").None?
    ensures ParseLength("-1").None? && ParseLength("1.5").None? && ParseLength("++1").None?
    ensures ParseLength("+7") == Some(7) && ParseLength("7") == Some(7)
  {
    assert !AllDigits("-1") by { assert !IsDigit("-1"[0]); }
    assert !AllDigits("1.5") by { assert !IsDigit("1.5"[1]); }
    assert !AllDigits("+1") by { assert !IsDigit("+1"[0]); }
    assert "+7"[1..] == "7" && "++1"[1..] == "+1";
    assert DigitsValue("7") == 7 by { assert "7"[..0] == ""; }
  }

  /** A leading `+` is accepted and changes nothing. */
  lemma PlusSign(s: string)
    requires s != [] && s[0] != '+'
    ensures ParseLength(['+'] + s) == ParseLength(s)
  {
    assert (['+'] + s)[1..] == s;
  }

  lemma {:induction false} LeadingZeroValue(s: string)
    requires AllDigits(s)
    ensures AllDigits(['0'] + s) && DigitsValue(['0'] + s) == DigitsValue(s)
    decreases |s|
  {
    var z := ['0'] + s;
    assert forall i | 0 <= i < |z| :: IsDigit(z[i]) by {
      forall i | 0 <= i < |z| ensures IsDigit(z[i]) {
        if i > 0 { assert z[i] == s[i - 1]; }
      }
    }
    if s != [] {
      var front := s[..|s| - 1];
      assert AllDigits(front) by {
        forall i | 0 <= i < |front| ensures IsDigit(front[i]) { assert front[i] == s[i]; }
      }
      LeadingZeroValue(front);
      assert z[..|z| - 1] == ['0'] + front;
    } else {
      assert z[..0] == [];
    }
  }

  /** Leading zeros are accepted and do not change the length. */
  lemma LeadingZero(s: string)
    requires s != [] && AllDigits(s)
    ensures ParseLength(['0'] + s) == ParseLength(s)
  {
    LeadingZeroValue(s);
    assert s[0] != '+';
  }

  /**
    A length beyond 18446744073709551615 is rejected: the numerals the
    parser reads back are exactly those of lengths that fit.
  */
  lemma LengthOverflow(n: nat)
    ensures ParseLength(Decimal(n)).Some? <==> n <= MaxVarcharLength
    ensures ParseLength(Decimal(n)).Some? ==> ParseLength(Decimal(n)).value == n
  {
  }

  // ---------------------------------------------------------------------------
  // Whole inputs
  // ---------------------------------------------------------------------------

  /** The parse of a whole input is empty exactly when the input holds nothing before `Eof`. */
  lemma EmptyScript(toks: Stream)
    ensures TryParse(toks) == Ok([]) <==> AtEnd(toks, 0)
  {
    var st := Cursor(0, DefaultLocation);
    if !AtEnd(toks, 0) {
      var s := ParseStatement(toks, Cursor(SkipWhiteSpaces(toks, 0), DefaultLocation));
      if s.result.Ok? {
        var rest := ParseStatements(toks, s.cursor);
        assert rest.result.Ok? ==> |ParseStatements(toks, st).result.value| == 1 + |rest.result.value|;
      }
    }
  }

  /**
    Parsing stops at the first statement that fails: its error is the result,
    and the statements before it are dropped.
  */
  lemma {:induction false} FirstErrorWins(toks: Stream, st: Cursor)
    requires st.pos <= |toks|
    ensures var o := ParseStatements(toks, st); var here := Cursor(SkipWhiteSpaces(toks, st.pos), st.location);
      && (!AtEnd(toks, st.pos) && ParseStatement(toks, here).result.Err? ==>
            o.result == Err(ParseStatement(toks, here).result.error))
      && (!AtEnd(toks, st.pos) && ParseStatement(toks, here).result.Ok? ==>
            var rest := ParseStatements(toks, ParseStatement(toks, here).cursor);
            && (rest.result.Err? ==> o.result == rest.result)
            && (rest.result.Ok? ==> o.result == Ok([ParseStatement(toks, here).result.value] + rest.result.value)))
  {
  }
}
