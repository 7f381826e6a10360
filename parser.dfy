/**
  The parser object: a cursor over the token stream with one entry of
  lookahead, and the location of the last consumed token. Each method does
  what the routine of the same name in the Rust parser does, step by step, and
  its postcondition says that its result and the new state are exactly what
  the corresponding definition in module Grammar gives for the old state.
*/
module Parser {
  import opened Tokens
  import opened Ast
  import opened Grammar

  /** Statements already collected, in front of the outcome of parsing the rest. */
  function Prepend(done: seq<Statement>, o: Outcome<seq<Statement>>): Outcome<seq<Statement>> {
    if o.result.Ok? then Outcome(Ok(done + o.result.value), o.cursor) else o
  }

  lemma PrependNothing(o: Outcome<seq<Statement>>)
    ensures Prepend([], o) == o
  {
    if o.result.Ok? {
      assert [] + o.result.value == o.result.value;
    }
  }

  lemma PrependConcat(a: seq<Statement>, b: seq<Statement>, o: Outcome<seq<Statement>>)
    ensures Prepend(a + b, o) == Prepend(a, Prepend(b, o))
  {
    if o.result.Ok? {
      assert (a + b) + o.result.value == a + (b + o.result.value);
    }
  }

  class Parser {
    /** The tokenizer's output, consumed front to back. */
    const tokens: Stream
    /** Index of the next unconsumed entry of `tokens`. */
    var pos: nat
    /** Location of the last token consumed. */
    var location: Location

    ghost predicate Valid()
      reads this
    {
      pos <= |tokens|
    }

    function At(): Cursor
      reads this
    {
      Cursor(pos, location)
    }

    constructor (tokens: Stream)
      ensures Valid() && this.tokens == tokens && At() == Cursor(0, DefaultLocation)
    {
      this.tokens := tokens;
      pos := 0;
      location := DefaultLocation;
    }

    /** An error at the location of the last consumed token. */
    function Error(kind: ErrorKind): ParserError
      reads this
    {
      ParserError(kind, location)
    }

    // -------------------------------------------------------------------------
    // Token stream
    // -------------------------------------------------------------------------

    method SkipWhiteSpaces()
      requires Valid()
      modifies this`pos
      ensures Valid() && pos == Grammar.SkipWhiteSpaces(tokens, old(pos))
    {
      while pos < |tokens| && IsWhitespace(tokens[pos])
        invariant pos <= |tokens|
        invariant Grammar.SkipWhiteSpaces(tokens, pos) == Grammar.SkipWhiteSpaces(tokens, old(pos))
        decreases |tokens| - pos
      {
        pos := pos + 1;
      }
    }

    method PeekToken() returns (r: Option<Scanned>)
      requires Valid()
      modifies this`pos
      ensures Valid() && pos == Grammar.SkipWhiteSpaces(tokens, old(pos)) && r == Peek(tokens, old(pos))
    {
      SkipWhiteSpaces();
      r := if pos < |tokens| then Some(tokens[pos]) else Option.None;
    }

    method NextToken() returns (r: Result<Token>)
      requires Valid()
      modifies this
      ensures Valid() && Outcome(r, At()) == Grammar.NextToken(tokens, old(At()))
    {
      SkipWhiteSpaces();
      if pos == |tokens| {
        return Err(Error(UnexpectedEof));
      }
      var entry := tokens[pos];
      pos := pos + 1;
      match entry
      case Scanned(t) =>
        location := t.location;
        r := Ok(t.token);
      case LexError(e) =>
        r := Err(FromTokenizerError(e));
    }

    // -------------------------------------------------------------------------
    // Token helpers
    // -------------------------------------------------------------------------

    method ExpectToken(expected: Token) returns (r: Result<Token>)
      requires Valid()
      modifies this
      ensures Valid() && Outcome(r, At()) == Grammar.ExpectToken(tokens, expected, old(At()))
    {
      r := NextToken();
      if r.Ok? && r.value != expected {
        r := Err(Error(ExpectedToken(expected, r.value)));
      }
    }

    method ExpectKeyword(expected: Keyword) returns (r: Result<Keyword>)
      requires Valid()
      modifies this
      ensures Valid() && Outcome(r, At()) == Grammar.ExpectKeyword(tokens, expected, old(At()))
    {
      var token :- ExpectToken(Keyword(expected));
      r := Ok(expected);
    }

    method ExpectSemicolon() returns (r: Result<Token>)
      requires Valid()
      modifies this
      ensures Valid() && Outcome(r, At()) == Grammar.ExpectSemicolon(tokens, old(At()))
    {
      r := ExpectToken(SemiColon);
      if r.Err? {
        r := Err(Error(MissingTerminator));
      }
    }

    method ExpectOneOf(keywords: seq<Keyword>) returns (r: Result<Keyword>)
      requires Valid()
      modifies this
      ensures Valid() && Outcome(r, At()) == Grammar.ExpectOneOf(tokens, keywords, old(At()))
    {
      var keyword := ConsumeOneOf(keywords);
      if keyword == Keyword.None {
        var token :- NextToken();
        r := Err(Error(ExpectedOneOf(keywords, token)));
      } else {
        r := Ok(keyword);
      }
    }

    method ConsumeOptionalKeyword(optional: Keyword) returns (found: bool)
      requires Valid()
      modifies this
      ensures Valid() && Step(found, At()) == Grammar.ConsumeOptionalToken(tokens, Keyword(optional), old(At()))
    {
      found := ConsumeOptionalToken(Keyword(optional));
    }

    method ConsumeOptionalToken(optional: Token) returns (found: bool)
      requires Valid()
      modifies this
      ensures Valid() && Step(found, At()) == Grammar.ConsumeOptionalToken(tokens, optional, old(At()))
    {
      var peeked := PeekToken();
      if peeked.Some? && peeked.value.Scanned? && peeked.value.item.token == optional {
        var consumed := NextToken();
        found := true;
      } else {
        found := false;
      }
    }

    method ConsumeOneOf(keywords: seq<Keyword>) returns (keyword: Keyword)
      requires Valid()
      modifies this
      ensures Valid() && Step(keyword, At()) == Grammar.ConsumeOneOf(tokens, keywords, old(At()))
    {
      var i := 0;
      while i < |keywords|
        invariant Valid() && i <= |keywords|
        invariant Grammar.ConsumeOneOf(tokens, keywords, old(At())) == Grammar.ConsumeOneOf(tokens, keywords[i..], At())
      {
        var found := ConsumeOptionalKeyword(keywords[i]);
        if found {
          return keywords[i];
        }
        assert keywords[i..][1..] == keywords[i + 1..];
        i := i + 1;
      }
      keyword := Keyword.None;
    }

    method ParseIdentifier() returns (r: Result<string>)
      requires Valid()
      modifies this
      ensures Valid() && Outcome(r, At()) == Grammar.ParseIdentifier(tokens, old(At()))
    {
      var token :- NextToken();
      match token
      case Identifier(name) => r := Ok(name);
      case _ => r := Err(Error(ExpectedIdentifier(token)));
    }

    // -------------------------------------------------------------------------
    // Expressions
    // -------------------------------------------------------------------------

    method ParseExpression() returns (r: Result<Expression>)
      requires Valid()
      modifies this
      ensures Valid() && Outcome(r, At()) == Grammar.ParseExpression(tokens, old(At()))
      decreases |tokens| - pos, 3
    {
      r := ParseExpr(0);
    }

    method ParseExpr(precedence: nat) returns (r: Result<Expression>)
      requires Valid()
      modifies this
      ensures Valid() && Outcome(r, At()) == Grammar.ParseExpr(tokens, precedence, old(At()))
      decreases |tokens| - pos, 2
    {
      var expr :- ParsePrefix();
      ghost var before := At();
      var nextPrecedence := GetNextPrecedence();
      while precedence < nextPrecedence
        invariant Valid() && old(pos) <= before.pos <= pos
        invariant pos == Grammar.SkipWhiteSpaces(tokens, before.pos) && location == before.location
        invariant nextPrecedence == NextPrecedence(tokens, before.pos)
        invariant Grammar.ParseExpr(tokens, precedence, old(At())) == ExprLoop(tokens, precedence, expr, before)
        decreases |tokens| - pos
      {
        expr :- ParseInfix(expr, nextPrecedence);
        before := At();
        nextPrecedence := GetNextPrecedence();
      }
      r := Ok(expr);
    }

    method ParsePrefix() returns (r: Result<Expression>)
      requires Valid()
      modifies this
      ensures Valid() && Outcome(r, At()) == Grammar.ParsePrefix(tokens, old(At()))
      decreases |tokens| - pos, 1
    {
      var token :- NextToken();
      match token
      case Identifier(name) => r := Ok(Expression.Identifier(name));
      case Mul => r := Ok(Wildcard);
      case Number(digits) => r := Ok(Expression.Value(Value.Number(digits)));
      case String(text) => r := Ok(Expression.Value(Value.String(text)));
      case LeftParen =>
        var expr :- ParseExpression();
        var close :- ExpectToken(RightParen);
        r := Ok(expr);
      case _ => r := Err(Error(ExpectedPrefix(token)));
    }

    method ParseInfix(left: Expression, precedence: nat) returns (r: Result<Expression>)
      requires Valid()
      modifies this
      ensures Valid() && Outcome(r, At()) == Grammar.ParseInfix(tokens, left, precedence, old(At()))
      decreases |tokens| - pos, 0
    {
      var token :- NextToken();
      var operator := InfixOperator(token);
      if operator.None? {
        return Err(Error(ExpectedOperator(token)));
      }
      var right :- ParseExpr(precedence);
      r := Ok(BinaryOperation(left, operator.value, right));
    }

    method GetNextPrecedence() returns (precedence: nat)
      requires Valid()
      modifies this`pos
      ensures Valid() && pos == Grammar.SkipWhiteSpaces(tokens, old(pos))
      ensures precedence == NextPrecedence(tokens, old(pos))
    {
      var peeked := PeekToken();
      if peeked.None? || peeked.value.LexError? {
        return 0;
      }
      precedence := TokenPrecedence(peeked.value.item.token);
    }

    // -------------------------------------------------------------------------
    // Column definitions
    // -------------------------------------------------------------------------

    method ParseColumn() returns (r: Result<Column>)
      requires Valid()
      modifies this
      ensures Valid() && Outcome(r, At()) == Grammar.ParseColumn(tokens, old(At()))
    {
      var name :- ParseIdentifier();
      ghost var afterName := At();
      var token :- NextToken();
      if !token.Keyword? {
        return Err(Error(ExpectedDataType(token)));
      }
      var dataType: DataType;
      match token.keyword {
        case Int =>
          dataType := DataType.Int;
        case Varchar =>
          ghost var afterVarchar := At();
          var open :- ExpectToken(LeftParen);
          var length := NextToken();
          if length.Err? {
            return Err(length.error);
          }
          if !length.value.Number? {
            return Err(Error(ExpectedVarcharLength(length.value)));
          }
          var parsed := ParseLength(length.value.digits);
          if parsed.None? {
            return Err(Error(IncorrectVarcharLength(length.value.digits)));
          }
          var close :- ExpectToken(RightParen);
          assert ParseVarcharLength(tokens, afterVarchar) == Outcome(Ok(parsed.value), At());
          dataType := DataType.Varchar(parsed.value);
        case _ =>
          return Err(Error(UnexpectedKeyword(token.keyword)));
      }
      assert ParseDataType(tokens, afterName) == Outcome(Ok(dataType), At());
      ghost var afterType := At();
      var keyword := ConsumeOneOf([Primary, Keyword.Unique]);
      var constraint: Option<Constraint>;
      if keyword == Primary {
        var key :- ExpectKeyword(Key);
        constraint := Some(PrimaryKey);
      } else if keyword == Keyword.Unique {
        constraint := Some(Constraint.Unique);
      } else {
        constraint := Option.None;
      }
      assert ParseConstraint(tokens, afterType) == Outcome(Ok(constraint), At());
      r := Ok(Column(name, dataType, constraint));
    }

    // -------------------------------------------------------------------------
    // Comma-separated lists
    // -------------------------------------------------------------------------

    /** The sub-parser a list is built from. */
    method ParseItem(sub: Subparser) returns (r: Result<Item>)
      requires Valid()
      modifies this
      ensures Valid() && Outcome(r, At()) == Grammar.ParseItem(tokens, sub, old(At()))
    {
      match sub
      case Expressions =>
        var e :- ParseExpression();
        r := Ok(ExprItem(e));
      case Columns =>
        var c :- ParseColumn();
        r := Ok(ColumnItem(c));
      case Identifiers =>
        var i :- ParseIdentifier();
        r := Ok(IdentItem(i));
    }

    method ParseCommaSeparated(sub: Subparser, requiredParenthesis: bool) returns (r: Result<seq<Item>>)
      requires Valid()
      modifies this
      ensures Valid() && Outcome(r, At()) == Grammar.ParseCommaSeparated(tokens, sub, requiredParenthesis, old(At()))
    {
      var leftParen := ConsumeOptionalToken(LeftParen);
      if requiredParenthesis && !leftParen {
        return Err(Error(OpeningParenRequired));
      }
      var first :- ParseItem(sub);
      var items :- ParseCommaItems(sub, first);
      if leftParen {
        var close :- ExpectToken(RightParen);
      }
      r := Ok(items);
    }

    /** The loop of `ParseCommaSeparated`: while a comma follows, one more item. */
    method ParseCommaItems(sub: Subparser, first: Item) returns (r: Result<seq<Item>>)
      requires Valid()
      modifies this
      ensures Valid() && Outcome(r, At()) == CommaItems(tokens, sub, [first], old(At()))
    {
      var results := [first];
      ghost var before := At();
      var more := ConsumeOptionalToken(Comma);
      while more
        invariant Valid() && before.pos <= pos
        invariant Step(more, At()) == Grammar.ConsumeOptionalToken(tokens, Comma, before)
        invariant CommaItems(tokens, sub, [first], old(At())) == CommaItems(tokens, sub, results, before)
        decreases |tokens| - pos
      {
        var item :- ParseItem(sub);
        results := results + [item];
        before := At();
        more := ConsumeOptionalToken(Comma);
      }
      r := Ok(results);
    }

    method ParseCommaSeparatedExpressions() returns (r: Result<seq<Expression>>)
      requires Valid()
      modifies this
      ensures Valid() && Outcome(r, At()) == Grammar.ParseCommaSeparatedExpressions(tokens, old(At()))
    {
      var items :- ParseCommaSeparated(Expressions, false);
      r := Ok(ItemExprs(items));
    }

    method ParseSchema() returns (r: Result<seq<Column>>)
      requires Valid()
      modifies this
      ensures Valid() && Outcome(r, At()) == Grammar.ParseSchema(tokens, old(At()))
    {
      var items :- ParseCommaSeparated(Subparser.Columns, true);
      r := Ok(ItemColumns(items));
    }

    method ParseIdentifierList() returns (r: Result<seq<string>>)
      requires Valid()
      modifies this
      ensures Valid() && Outcome(r, At()) == Grammar.ParseIdentifierList(tokens, old(At()))
    {
      var items :- ParseCommaSeparated(Identifiers, true);
      r := Ok(ItemIdents(items));
    }

    // -------------------------------------------------------------------------
    // Statements
    // -------------------------------------------------------------------------

    method ParseOptionalWhere() returns (r: Result<Option<Expression>>)
      requires Valid()
      modifies this
      ensures Valid() && Outcome(r, At()) == Grammar.ParseOptionalWhere(tokens, old(At()))
    {
      var found := ConsumeOptionalKeyword(Where);
      if found {
        var e :- ParseExpression();
        r := Ok(Some(e));
      } else {
        r := Ok(Option.None);
      }
    }

    method ParseFromAndOptionalWhere() returns (r: Result<(string, Option<Expression>)>)
      requires Valid()
      modifies this
      ensures Valid() && Outcome(r, At()) == Grammar.ParseFromAndOptionalWhere(tokens, old(At()))
    {
      var from :- ParseIdentifier();
      var where :- ParseOptionalWhere();
      r := Ok((from, where));
    }

    method ParseSelect() returns (r: Result<Statement>)
      requires Valid()
      modifies this
      ensures Valid() && Outcome(r, At()) == Grammar.ParseSelect(tokens, old(At()))
    {
      var columns :- ParseCommaSeparatedExpressions();
      var from :- ExpectKeyword(From);
      var fromWhere :- ParseFromAndOptionalWhere();
      r := Ok(Statement.Select(columns, fromWhere.0, fromWhere.1));
    }

    method ParseCreate() returns (r: Result<Statement>)
      requires Valid()
      modifies this
      ensures Valid() && Outcome(r, At()) == Grammar.ParseCreate(tokens, old(At()))
    {
      var keyword :- ExpectOneOf([Keyword.Database, Keyword.Table]);
      var name :- ParseIdentifier();
      if keyword == Keyword.Database {
        r := Ok(Statement.Create(Create.Database(name)));
      } else {
        var columns :- ParseSchema();
        r := Ok(Statement.Create(Create.Table(name, columns)));
      }
    }

    method ParseUpdate() returns (r: Result<Statement>)
      requires Valid()
      modifies this
      ensures Valid() && Outcome(r, At()) == Grammar.ParseUpdate(tokens, old(At()))
    {
      var table :- ParseIdentifier();
      var setKeyword :- ExpectKeyword(Set);
      var columns :- ParseCommaSeparatedExpressions();
      var where :- ParseOptionalWhere();
      r := Ok(Statement.Update(table, columns, where));
    }

    method ParseInsert() returns (r: Result<Statement>)
      requires Valid()
      modifies this
      ensures Valid() && Outcome(r, At()) == Grammar.ParseInsert(tokens, old(At()))
    {
      var into :- ExpectKeyword(Into);
      var table :- ParseIdentifier();
      var columns :- ParseIdentifierList();
      var values :- ExpectKeyword(Keyword.Values);
      var exprs :- ParseCommaSeparatedExpressions();
      r := Ok(Statement.Insert(table, columns, exprs));
    }

    method ParseDelete() returns (r: Result<Statement>)
      requires Valid()
      modifies this
      ensures Valid() && Outcome(r, At()) == Grammar.ParseDelete(tokens, old(At()))
    {
      var from :- ExpectKeyword(From);
      var fromWhere :- ParseFromAndOptionalWhere();
      r := Ok(Statement.Delete(fromWhere.0, fromWhere.1));
    }

    method ParseDrop() returns (r: Result<Statement>)
      requires Valid()
      modifies this
      ensures Valid() && Outcome(r, At()) == Grammar.ParseDrop(tokens, old(At()))
    {
      var keyword :- ExpectOneOf([Keyword.Database, Keyword.Table]);
      var name :- ParseIdentifier();
      if keyword == Keyword.Database {
        r := Ok(Statement.Drop(Drop.Database(name)));
      } else {
        r := Ok(Statement.Drop(Drop.Table(name)));
      }
    }

    method ParseStatement() returns (r: Result<Statement>)
      requires Valid()
      modifies this
      ensures Valid() && Outcome(r, At()) == Grammar.ParseStatement(tokens, old(At()))
    {
      var token :- NextToken();
      if !token.Keyword? {
        return Err(Error(UnexpectedInitialToken(token)));
      }
      var statement: Result<Statement>;
      match token.keyword {
        case Select => statement := ParseSelect();
        case Create => statement := ParseCreate();
        case Update => statement := ParseUpdate();
        case Insert => statement := ParseInsert();
        case Delete => statement := ParseDelete();
        case Drop => statement := ParseDrop();
        case None => statement := Err(Error(ExpectedStatement));
        case _ => statement := Err(Error(UnexpectedStatementKeyword(token.keyword)));
      }
      if statement.Ok? {
        var semicolon :- ExpectSemicolon();
      }
      r := statement;
    }

    method TryParse() returns (r: Result<seq<Statement>>)
      requires Valid()
      modifies this
      ensures Valid() && Outcome(r, At()) == ParseStatements(tokens, old(At()))
    {
      var statements: seq<Statement> := [];
      PrependNothing(ParseStatements(tokens, At()));
      while true
        invariant Valid() && old(pos) <= pos
        invariant Prepend(statements, ParseStatements(tokens, At())) == ParseStatements(tokens, old(At()))
        decreases |tokens| - pos
      {
        ghost var before := At();
        var peeked := PeekToken();
        if peeked.None? || (peeked.value.Scanned? && peeked.value.item.token == Eof) {
          assert ParseStatements(tokens, before) == Outcome(Ok([]), At());
          assert statements + [] == statements;
          return Ok(statements);
        }
        var statement :- ParseStatement();
        assert ParseStatements(tokens, before) == Prepend([statement], ParseStatements(tokens, At()));
        PrependConcat(statements, [statement], ParseStatements(tokens, At()));
        statements := statements + [statement];
      }
    }
  }
}
