/**
  The parser as pure functions over a token stream and a cursor.

  Every routine of the recursive-descent parser is defined here as a function
  from the stream and the parser's state (`Cursor`: the position of the next
  unconsumed entry and the location of the last consumed token) to the
  routine's result and the new state. The class in parser.dfy runs the same
  routines imperatively and is proved to agree with these definitions; the
  properties of the parser are proved about these definitions.
*/
module Grammar {
  import opened Tokens
  import opened Ast

  // ---------------------------------------------------------------------------
  // Errors
  // ---------------------------------------------------------------------------

  /** What went wrong; the human-readable messages are not modelled. */
  datatype ErrorKind =
    | UnexpectedEof
    | Syntax(detail: string)                      // a lexical error, lifted
    | UnexpectedInitialToken(got: Token)
    | ExpectedStatement
    | UnexpectedStatementKeyword(keyword: Keyword)
    | MissingTerminator
    | ExpectedPrefix(got: Token)
    | ExpectedOperator(got: Token)
    | ExpectedDataType(got: Token)
    | UnexpectedKeyword(keyword: Keyword)
    | ExpectedVarcharLength(got: Token)
    | IncorrectVarcharLength(digits: string)
    | OpeningParenRequired
    | ExpectedIdentifier(got: Token)
    | ExpectedToken(expected: Token, got: Token)
    | ExpectedOneOf(keywords: seq<Keyword>, got: Token)

  datatype ParserError = ParserError(kind: ErrorKind, location: Location)

  /** A lexical error becomes a syntax error at the same location. */
  function FromTokenizerError(e: TokenizerError): ParserError {
    ParserError(Syntax(e.message), e.location)
  }

  datatype Result<T> = Ok(value: T) | Err(error: ParserError) {
    predicate IsFailure() { Err? }

    function PropagateFailure<U>(): Result<U>
      requires Err?
    {
      Err(error)
    }

    function Extract(): T
      requires Ok?
    {
      value
    }
  }

  // ---------------------------------------------------------------------------
  // Parser state
  // ---------------------------------------------------------------------------

  type Stream = seq<Scanned>

  /** `pos` indexes the next unconsumed entry; `location` is that of the last consumed token. */
  datatype Cursor = Cursor(pos: nat, location: Location)

  /** The result of a routine that can fail, and the state it leaves behind. */
  datatype Outcome<T> = Outcome(result: Result<T>, cursor: Cursor)

  /** The result of a routine that cannot fail, and the state it leaves behind. */
  datatype Step<T> = Step(value: T, cursor: Cursor)

  function Fail<T, U>(o: Outcome<T>): Outcome<U>
    requires o.result.Err?
  {
    Outcome(Err(o.result.error), o.cursor)
  }

  /**
    An error carries the location of the last consumed token, except a lifted
    lexical error, which carries the location the tokenizer gave it.
  */
  predicate Located<T>(o: Outcome<T>) {
    o.result.Err? ==> o.result.error.kind.Syntax? || o.result.error.location == o.cursor.location
  }

  /** The cursor only moves forward and stays within the stream; errors are located. */
  predicate Sound<T>(toks: Stream, st: Cursor, o: Outcome<T>) {
    st.pos <= o.cursor.pos <= |toks| && Located(o)
  }

  // ---------------------------------------------------------------------------
  // Token helpers
  // ---------------------------------------------------------------------------

  /** The position of the first entry at or after `pos` that is not whitespace. */
  function SkipWhiteSpaces(toks: Stream, pos: nat): (q: nat)
    requires pos <= |toks|
    ensures pos <= q <= |toks|
    ensures forall k | pos <= k < q :: IsWhitespace(toks[k])
    ensures q < |toks| ==> !IsWhitespace(toks[q])
    decreases |toks| - pos
  {
    if pos < |toks| && IsWhitespace(toks[pos]) then SkipWhiteSpaces(toks, pos + 1) else pos
  }

  /** The next entry after whitespace, if the stream is not exhausted. */
  function Peek(toks: Stream, pos: nat): Option<Scanned>
    requires pos <= |toks|
  {
    var q := SkipWhiteSpaces(toks, pos);
    if q < |toks| then Some(toks[q]) else Option.None
  }

  /** The token peeked at, when the next entry is a token rather than a lexical error. */
  function PeekedToken(toks: Stream, pos: nat): Option<Token>
    requires pos <= |toks|
  {
    match Peek(toks, pos)
    case Some(Scanned(t)) => Some(t.token)
    case _ => Option.None
  }

  /** The entry just before cursor `c` is the token `t`, and `c` records its location. */
  predicate JustRead(toks: Stream, c: Cursor, t: Token) {
    0 < c.pos <= |toks| && toks[c.pos - 1] == Scanned(TokenWithLocation(t, c.location))
  }

  /**
    Consumes whitespace and the entry after it. A token updates the location;
    a lexical error is lifted; an exhausted stream is an unexpected end.
  */
  function NextToken(toks: Stream, st: Cursor): (o: Outcome<Token>)
    requires st.pos <= |toks|
    ensures Sound(toks, st, o)
    ensures o.result.Ok? ==>
      o.cursor.pos > st.pos &&
      JustRead(toks, o.cursor, o.result.value) &&
      forall k | st.pos <= k < o.cursor.pos - 1 :: IsWhitespace(toks[k])
  {
    var q := SkipWhiteSpaces(toks, st.pos);
    if q == |toks| then
      Outcome(Err(ParserError(UnexpectedEof, st.location)), Cursor(q, st.location))
    else
      match toks[q]
      case Scanned(t) => Outcome(Ok(t.token), Cursor(q + 1, t.location))
      case LexError(e) => Outcome(Err(FromTokenizerError(e)), Cursor(q + 1, st.location))
  }

  /**
    What `NextToken` consumes: the first entry that is not whitespace. A token
    is returned and its location recorded; a lexical error is lifted with its
    own location and leaves the recorded location alone; when only whitespace
    is left the result is an unexpected end at the recorded location.
  */
  lemma NextTokenConsumesFirstEntry(toks: Stream, st: Cursor)
    requires st.pos <= |toks|
    ensures var o := NextToken(toks, st);
      var q := SkipWhiteSpaces(toks, st.pos);
      && (q == |toks| ==>
            o == Outcome(Err(ParserError(UnexpectedEof, st.location)), Cursor(|toks|, st.location)))
      && (q < |toks| ==>
            o.cursor.pos == q + 1 &&
            match toks[q]
            case Scanned(t) => o.result == Ok(t.token) && o.cursor.location == t.location && !t.token.Whitespace?
            case LexError(e) =>
              o.result == Err(ParserError(Syntax(e.message), e.location)) && o.cursor.location == st.location)
  {
  }

  /**
    Consumes the next token if it is `optional`; otherwise consumes only the
    whitespace before it.
  */
  function ConsumeOptionalToken(toks: Stream, optional: Token, st: Cursor): (s: Step<bool>)
    requires st.pos <= |toks|
    ensures s.value <==> PeekedToken(toks, st.pos) == Some(optional)
    ensures s.value ==>
      s.cursor.pos == SkipWhiteSpaces(toks, st.pos) + 1 &&
      JustRead(toks, s.cursor, optional)
    ensures !s.value ==> s.cursor == Cursor(SkipWhiteSpaces(toks, st.pos), st.location)
  {
    var q := SkipWhiteSpaces(toks, st.pos);
    if q < |toks| && toks[q].Scanned? && toks[q].item.token == optional then
      Step(true, Cursor(q + 1, toks[q].item.location))
    else
      Step(false, Cursor(q, st.location))
  }

  /** The keyword that the next token is, if it is one. */
  function PeekedKeyword(toks: Stream, pos: nat): Option<Keyword>
    requires pos <= |toks|
  {
    match PeekedToken(toks, pos)
    case Some(Keyword(k)) => Some(k)
    case _ => Option.None
  }

  /**
    Tries the keywords in list order and consumes the first one the next token
    matches; `Keyword.None` when none does.
  */
  function ConsumeOneOf(toks: Stream, keywords: seq<Keyword>, st: Cursor): (s: Step<Keyword>)
    requires st.pos <= |toks|
    ensures var peeked := PeekedKeyword(toks, st.pos);
      if peeked.Some? && peeked.value in keywords then
        s.value == peeked.value &&
        s.cursor.pos == SkipWhiteSpaces(toks, st.pos) + 1 &&
        JustRead(toks, s.cursor, Keyword(s.value))
      else
        s.value == Keyword.None &&
        s.cursor == Cursor(if keywords == [] then st.pos else SkipWhiteSpaces(toks, st.pos), st.location)
    decreases keywords
  {
    if keywords == [] then
      Step(Keyword.None, st)
    else
      var c := ConsumeOptionalToken(toks, Keyword(keywords[0]), st);
      if c.value then Step(keywords[0], c.cursor)
      else
        SkipIdempotent(toks, st.pos);
        ConsumeOneOf(toks, keywords[1..], c.cursor)
  }

  lemma SkipIdempotent(toks: Stream, pos: nat)
    requires pos <= |toks|
    ensures SkipWhiteSpaces(toks, SkipWhiteSpaces(toks, pos)) == SkipWhiteSpaces(toks, pos)
  {
  }

  /** Fails unless the next token is `expected`. */
  function ExpectToken(toks: Stream, expected: Token, st: Cursor): (o: Outcome<Token>)
    requires st.pos <= |toks|
    ensures Sound(toks, st, o)
    ensures o.cursor == NextToken(toks, st).cursor
    ensures o.result.Ok? <==> NextToken(toks, st).result == Ok(expected)
    ensures o.result.Ok? ==> o.result.value == expected
    ensures NextToken(toks, st).result.Err? ==> o.result == NextToken(toks, st).result
    ensures NextToken(toks, st).result.Ok? && NextToken(toks, st).result.value != expected ==>
      o.result == Err(ParserError(ExpectedToken(expected, NextToken(toks, st).result.value), o.cursor.location))
  {
    var n := NextToken(toks, st);
    if n.result.Err? then n
    else if n.result.value == expected then n
    else Outcome(Err(ParserError(ExpectedToken(expected, n.result.value), n.cursor.location)), n.cursor)
  }

  function ExpectKeyword(toks: Stream, expected: Keyword, st: Cursor): (o: Outcome<Keyword>)
    requires st.pos <= |toks|
    ensures Sound(toks, st, o)
    ensures o.result.Ok? <==> NextToken(toks, st).result == Ok(Keyword(expected))
    ensures o.result.Ok? ==> o.result.value == expected
    ensures NextToken(toks, st).result.Ok? && NextToken(toks, st).result.value != Keyword(expected) ==>
      o.result == Err(ParserError(ExpectedToken(Keyword(expected), NextToken(toks, st).result.value),
                                  NextToken(toks, st).cursor.location))
  {
    var t := ExpectToken(toks, Keyword(expected), st);
    if t.result.Err? then Fail(t) else Outcome(Ok(expected), t.cursor)
  }

  /** Any failure to find `;` becomes a missing-terminator error. */
  function ExpectSemicolon(toks: Stream, st: Cursor): (o: Outcome<Token>)
    requires st.pos <= |toks|
    ensures Sound(toks, st, o)
    ensures o.cursor == NextToken(toks, st).cursor
    ensures o.result.Ok? <==> NextToken(toks, st).result == Ok(SemiColon)
    ensures o.result.Err? ==> o.result.error == ParserError(MissingTerminator, o.cursor.location)
    ensures o.result.Ok? ==> o.cursor.pos > st.pos && JustRead(toks, o.cursor, SemiColon)
  {
    var t := ExpectToken(toks, SemiColon, st);
    if t.result.Err? then Outcome(Err(ParserError(MissingTerminator, t.cursor.location)), t.cursor)
    else t
  }

  /** Fails unless the next token is one of `keywords`; returns the one found. */
  function ExpectOneOf(toks: Stream, keywords: seq<Keyword>, st: Cursor): (o: Outcome<Keyword>)
    requires st.pos <= |toks|
    ensures Sound(toks, st, o)
    ensures o.result.Ok? ==>
      o.result.value in keywords && PeekedKeyword(toks, st.pos) == Some(o.result.value)
    ensures (PeekedKeyword(toks, st.pos).Some? && PeekedKeyword(toks, st.pos).value in keywords
             && PeekedKeyword(toks, st.pos).value != Keyword.None) ==> o.result.Ok?
    ensures o.result.Err? && Keyword.None !in keywords && NextToken(toks, st).result.Ok? ==>
      o == Outcome(Err(ParserError(ExpectedOneOf(keywords, NextToken(toks, st).result.value),
                                   NextToken(toks, st).cursor.location)), NextToken(toks, st).cursor)
  {
    var c := ConsumeOneOf(toks, keywords, st);
    if c.value == Keyword.None then
      var n := NextToken(toks, c.cursor);
      if n.result.Err? then Fail(n)
      else Outcome(Err(ParserError(ExpectedOneOf(keywords, n.result.value), n.cursor.location)), n.cursor)
    else
      Outcome(Ok(c.value), c.cursor)
  }

  function ParseIdentifier(toks: Stream, st: Cursor): (o: Outcome<string>)
    requires st.pos <= |toks|
    ensures Sound(toks, st, o)
    ensures o.result.Ok? <==> NextToken(toks, st).result.Ok? && NextToken(toks, st).result.value.Identifier?
    ensures o.result.Ok? ==>
      o.cursor.pos > st.pos &&
      NextToken(toks, st) == Outcome(Ok(Token.Identifier(o.result.value)), o.cursor)
    ensures NextToken(toks, st).result.Ok? && !NextToken(toks, st).result.value.Identifier? ==>
      o.result == Err(ParserError(ExpectedIdentifier(NextToken(toks, st).result.value), NextToken(toks, st).cursor.location))
  {
    var n := NextToken(toks, st);
    if n.result.Err? then Fail(n)
    else match n.result.value
      case Identifier(name) => Outcome(Ok(name), n.cursor)
      case t => Outcome(Err(ParserError(ExpectedIdentifier(t), n.cursor.location)), n.cursor)
  }

  // ---------------------------------------------------------------------------
  // Expressions: precedence climbing
  // ---------------------------------------------------------------------------

  /** Binding strength of a token in infix position; 0 for anything that is not an operator. */
  function TokenPrecedence(t: Token): nat {
    match t
    case Keyword(Or) => 5
    case Keyword(And) => 10
    case Eq | Neq | Gt | GtEq | Lt | LtEq => 20
    case Plus | Minus => 30
    case Mul | Div => 40
    case _ => 0
  }

  /** The operator a token stands for in infix position. */
  function InfixOperator(t: Token): Option<BinaryOperator> {
    match t
    case Plus => Some(BinaryOperator.Plus)
    case Minus => Some(BinaryOperator.Minus)
    case Div => Some(BinaryOperator.Div)
    case Mul => Some(BinaryOperator.Mul)
    case Eq => Some(BinaryOperator.Eq)
    case Neq => Some(BinaryOperator.Neq)
    case Gt => Some(BinaryOperator.Gt)
    case GtEq => Some(BinaryOperator.GtEq)
    case Lt => Some(BinaryOperator.Lt)
    case LtEq => Some(BinaryOperator.LtEq)
    case Keyword(And) => Some(BinaryOperator.And)
    case Keyword(Or) => Some(BinaryOperator.Or)
    case _ => Option.None
  }

  /** Precedence of the next token; 0 at a lexical error or at the end of the stream. */
  function NextPrecedence(toks: Stream, pos: nat): nat
    requires pos <= |toks|
  {
    match PeekedToken(toks, pos)
    case Some(t) => TokenPrecedence(t)
    case None => 0
  }

  /**
    Parses a prefix term, then absorbs every following operator that binds
    tighter than `precedence`.
  */
  function ParseExpr(toks: Stream, precedence: nat, st: Cursor): (o: Outcome<Expression>)
    requires st.pos <= |toks|
    ensures Sound(toks, st, o)
    ensures o.result.Ok? ==>
      o.cursor.pos > st.pos &&
      NextPrecedence(toks, o.cursor.pos) <= precedence
    decreases |toks| - st.pos, 2
  {
    var prefix := ParsePrefix(toks, st);
    if prefix.result.Err? then prefix
    else ExprLoop(toks, precedence, prefix.result.value, prefix.cursor)
  }

  /** The `while` loop of the precedence-climbing algorithm, with `left` parsed so far. */
  function ExprLoop(toks: Stream, precedence: nat, left: Expression, st: Cursor): (o: Outcome<Expression>)
    requires st.pos <= |toks|
    ensures Sound(toks, st, o)
    ensures o.result.Ok? ==>
      NextPrecedence(toks, o.cursor.pos) <= precedence
    decreases |toks| - st.pos, 1
  {
    var next := NextPrecedence(toks, st.pos);
    var here := Cursor(SkipWhiteSpaces(toks, st.pos), st.location);
    if precedence < next then
      var infix := ParseInfix(toks, left, next, here);
      if infix.result.Err? then infix
      else ExprLoop(toks, precedence, infix.result.value, infix.cursor)
    else
      SkipIdempotent(toks, st.pos);
      Outcome(Ok(left), here)
  }

  /** A prefix term: identifier, `*`, literal, or a parenthesised expression. */
  function ParsePrefix(toks: Stream, st: Cursor): (o: Outcome<Expression>)
    requires st.pos <= |toks|
    ensures Sound(toks, st, o)
    ensures o.result.Ok? ==> o.cursor.pos > st.pos
    decreases |toks| - st.pos, 1
  {
    var n := NextToken(toks, st);
    if n.result.Err? then Fail(n)
    else match n.result.value
      case Identifier(name) => Outcome(Ok(Expression.Identifier(name)), n.cursor)
      case Mul => Outcome(Ok(Wildcard), n.cursor)
      case Number(digits) => Outcome(Ok(Expression.Value(Value.Number(digits))), n.cursor)
      case String(text) => Outcome(Ok(Expression.Value(Value.String(text))), n.cursor)
      case LeftParen =>
        var inner := ParseExpr(toks, 0, n.cursor);
        if inner.result.Err? then inner
        else
          var close := ExpectToken(toks, RightParen, inner.cursor);
          if close.result.Err? then Fail(close) else Outcome(inner.result, close.cursor)
      case t => Outcome(Err(ParserError(ExpectedPrefix(t), n.cursor.location)), n.cursor)
  }

  /** An operator and its right operand, parsed at the operator's own precedence. */
  function ParseInfix(toks: Stream, left: Expression, precedence: nat, st: Cursor): (o: Outcome<Expression>)
    requires st.pos <= |toks|
    ensures Sound(toks, st, o)
    ensures o.result.Ok? ==>
      o.cursor.pos > st.pos &&
      NextPrecedence(toks, o.cursor.pos) <= precedence
    decreases |toks| - st.pos, 0
  {
    var n := NextToken(toks, st);
    if n.result.Err? then Fail(n)
    else match InfixOperator(n.result.value)
      case None => Outcome(Err(ParserError(ExpectedOperator(n.result.value), n.cursor.location)), n.cursor)
      case Some(op) =>
        var right := ParseExpr(toks, precedence, n.cursor);
        if right.result.Err? then right
        else Outcome(Ok(BinaryOperation(left, op, right.result.value)), right.cursor)
  }

  function ParseExpression(toks: Stream, st: Cursor): (o: Outcome<Expression>)
    requires st.pos <= |toks|
  {
    ParseExpr(toks, 0, st)
  }

  // ---------------------------------------------------------------------------
  // Column definitions
  // ---------------------------------------------------------------------------

  /** The largest VARCHAR length (a `usize` on a 64-bit target). */
  const MaxVarcharLength: nat := 0xFFFF_FFFF_FFFF_FFFF

  /** A column whose VARCHAR length, if any, fits the target's `usize`. */
  predicate BoundedColumn(c: Column) {
    c.dataType.Varchar? ==> c.dataType.length <= MaxVarcharLength
  }

  predicate IsDigit(c: char) {
    '0' <= c <= '9'
  }

  predicate AllDigits(s: string) {
    forall i | 0 <= i < |s| :: IsDigit(s[i])
  }

  /** The value of a string of decimal digits. */
  function DigitsValue(s: string): nat
    requires AllDigits(s)
  {
    if s == [] then 0 else DigitsValue(s[..|s| - 1]) * 10 + (s[|s| - 1] - '0') as nat
  }

  /**
    Reads a VARCHAR length as Rust's unsigned-integer parsing does: an optional
    `+`, at least one decimal digit, and a value that fits the target type.
  */
  function ParseLength(s: string): (r: Option<nat>)
    ensures r.Some? ==> r.value <= MaxVarcharLength
  {
    var digits := if |s| > 0 && s[0] == '+' then s[1..] else s;
    if digits == [] || !AllDigits(digits) then Option.None
    else if DigitsValue(digits) > MaxVarcharLength then Option.None
    else Some(DigitsValue(digits))
  }

  /** The parenthesised length after `VARCHAR`. */
  function ParseVarcharLength(toks: Stream, st: Cursor): (o: Outcome<nat>)
    requires st.pos <= |toks|
    ensures Sound(toks, st, o)
    ensures o.result.Ok? ==> o.cursor.pos > st.pos && o.result.value <= MaxVarcharLength
  {
    var open := ExpectToken(toks, LeftParen, st);
    if open.result.Err? then Fail(open)
    else
      var len := NextToken(toks, open.cursor);
      if len.result.Err? then Fail(len)
      else if !len.result.value.Number? then
        Outcome(Err(ParserError(ExpectedVarcharLength(len.result.value), len.cursor.location)), len.cursor)
      else
        var length := ParseLength(len.result.value.digits);
        if length.None? then
          Outcome(Err(ParserError(IncorrectVarcharLength(len.result.value.digits), len.cursor.location)), len.cursor)
        else
          var close := ExpectToken(toks, RightParen, len.cursor);
          if close.result.Err? then Fail(close) else Outcome(Ok(length.value), close.cursor)
  }

  /** The data type after a column name: `INT` or `VARCHAR ( length )`. */
  function ParseDataType(toks: Stream, st: Cursor): (o: Outcome<DataType>)
    requires st.pos <= |toks|
    ensures Sound(toks, st, o)
    ensures o.result.Ok? ==> o.cursor.pos > st.pos
    ensures o.result.Ok? && o.result.value.Varchar? ==> o.result.value.length <= MaxVarcharLength
  {
    var n := NextToken(toks, st);
    if n.result.Err? then Fail(n)
    else if !n.result.value.Keyword? then
      Outcome(Err(ParserError(ExpectedDataType(n.result.value), n.cursor.location)), n.cursor)
    else match n.result.value.keyword
      case Int => Outcome(Ok(DataType.Int), n.cursor)
      case Varchar =>
        var length := ParseVarcharLength(toks, n.cursor);
        if length.result.Err? then Fail(length) else Outcome(Ok(DataType.Varchar(length.result.value)), length.cursor)
      case k => Outcome(Err(ParserError(UnexpectedKeyword(k), n.cursor.location)), n.cursor)
  }

  /** The optional constraint after a data type: `PRIMARY KEY`, `UNIQUE`, or nothing. */
  function ParseConstraint(toks: Stream, st: Cursor): (o: Outcome<Option<Constraint>>)
    requires st.pos <= |toks|
    ensures Sound(toks, st, o)
    ensures PeekedKeyword(toks, st.pos) == Some(Keyword.Unique) ==> o.result == Ok(Some(Constraint.Unique))
    ensures (PeekedKeyword(toks, st.pos) == Some(Primary) &&
             NextToken(toks, NextToken(toks, st).cursor).result == Ok(Keyword(Key))) ==> o.result == Ok(Some(PrimaryKey))
    ensures PeekedKeyword(toks, st.pos) !in {Some(Keyword.Unique), Some(Primary)} ==>
      o == Outcome(Ok(Option.None), Cursor(SkipWhiteSpaces(toks, st.pos), st.location))
  {
    var c := ConsumeOneOf(toks, [Primary, Keyword.Unique], st);
    if c.value == Primary then
      var key := ExpectKeyword(toks, Key, c.cursor);
      if key.result.Err? then Fail(key) else Outcome(Ok(Some(PrimaryKey)), key.cursor)
    else if c.value == Keyword.Unique then
      Outcome(Ok(Some(Constraint.Unique)), c.cursor)
    else
      Outcome(Ok(Option.None), c.cursor)
  }

  /** A column definition of `CREATE TABLE`: name, data type, optional constraint. */
  function ParseColumn(toks: Stream, st: Cursor): (o: Outcome<Column>)
    requires st.pos <= |toks|
    ensures Sound(toks, st, o)
    ensures o.result.Ok? ==> o.cursor.pos > st.pos && BoundedColumn(o.result.value)
  {
    var name := ParseIdentifier(toks, st);
    if name.result.Err? then Fail(name)
    else
      var dataType := ParseDataType(toks, name.cursor);
      if dataType.result.Err? then Fail(dataType)
      else
        var constraint := ParseConstraint(toks, dataType.cursor);
        if constraint.result.Err? then Fail(constraint)
        else Outcome(Ok(Column(name.result.value, dataType.result.value, constraint.result.value)), constraint.cursor)
  }

  // ---------------------------------------------------------------------------
  // Comma-separated lists
  // ---------------------------------------------------------------------------

  /** Which item parser a list uses. */
  datatype Subparser = Expressions | Columns | Identifiers

  datatype Item = ExprItem(expr: Expression) | ColumnItem(column: Column) | IdentItem(ident: string)

  predicate Yields(sub: Subparser, item: Item) {
    match sub
    case Expressions => item.ExprItem?
    case Columns => item.ColumnItem? && BoundedColumn(item.column)
    case Identifiers => item.IdentItem?
  }

  predicate AllYield(sub: Subparser, items: seq<Item>) {
    forall i | 0 <= i < |items| :: Yields(sub, items[i])
  }

  function ParseItem(toks: Stream, sub: Subparser, st: Cursor): (o: Outcome<Item>)
    requires st.pos <= |toks|
    ensures Sound(toks, st, o)
    ensures o.result.Ok? ==>
      o.cursor.pos > st.pos && Yields(sub, o.result.value)
  {
    match sub
    case Expressions =>
      var e := ParseExpression(toks, st);
      if e.result.Err? then Fail(e) else Outcome(Ok(ExprItem(e.result.value)), e.cursor)
    case Columns =>
      var c := ParseColumn(toks, st);
      if c.result.Err? then Fail(c) else Outcome(Ok(ColumnItem(c.result.value)), c.cursor)
    case Identifiers =>
      var i := ParseIdentifier(toks, st);
      if i.result.Err? then Fail(i) else Outcome(Ok(IdentItem(i.result.value)), i.cursor)
  }

  /** The list loop: while a comma follows, parse one more item after it. */
  function CommaItems(toks: Stream, sub: Subparser, items: seq<Item>, st: Cursor): (o: Outcome<seq<Item>>)
    requires st.pos <= |toks|
    ensures Sound(toks, st, o)
    ensures o.result.Ok? ==>
      |o.result.value| >= |items| && o.result.value[..|items|] == items &&
      (AllYield(sub, items) ==> AllYield(sub, o.result.value))
    ensures o.result.Ok? ==> PeekedToken(toks, o.cursor.pos) != Some(Comma)
    decreases |toks| - st.pos
  {
    var comma := ConsumeOptionalToken(toks, Comma, st);
    if !comma.value then
      SkipIdempotent(toks, st.pos);
      Outcome(Ok(items), comma.cursor)
    else
      var item := ParseItem(toks, sub, comma.cursor);
      if item.result.Err? then Fail(item)
      else
        var more := items + [item.result.value];
        var o := CommaItems(toks, sub, more, item.cursor);
        if o.result.Ok? then
          ExtendedPrefix(sub, items, item.result.value, o.result.value);
          o
        else o
  }

  /** What extends `items` by one yielded item keeps `items` in front and still yields. */
  lemma ExtendedPrefix(sub: Subparser, items: seq<Item>, item: Item, all: seq<Item>)
    requires |all| >= |items| + 1 && all[..|items| + 1] == items + [item]
    requires Yields(sub, item) && (AllYield(sub, items + [item]) ==> AllYield(sub, all))
    ensures all[..|items|] == items
    ensures AllYield(sub, items) ==> AllYield(sub, all)
  {
    assert all[..|items|] == (items + [item])[..|items|];
  }

  /** The items of a list and, when the list was opened with `(`, its closing `)`. */
  function ParseListItems(toks: Stream, sub: Subparser, withParen: bool, st: Cursor): (o: Outcome<seq<Item>>)
    requires st.pos <= |toks|
    ensures Sound(toks, st, o)
    ensures o.result.Ok? ==> o.cursor.pos > st.pos && |o.result.value| >= 1 && AllYield(sub, o.result.value)
    ensures o.result.Ok? && withParen ==>
      JustRead(toks, o.cursor, RightParen)
  {
    var first := ParseItem(toks, sub, st);
    if first.result.Err? then Fail(first)
    else
      var items := CommaItems(toks, sub, [first.result.value], first.cursor);
      if items.result.Err? || !withParen then items
      else
        var close := ExpectToken(toks, RightParen, items.cursor);
        if close.result.Err? then Fail(close) else Outcome(items.result, close.cursor)
  }

  /**
    One or more items separated by commas, optionally wrapped in parentheses:
    an opening parenthesis, when present, is consumed and then a closing one
    is required; `requiredParenthesis` makes the opening one mandatory.
  */
  function ParseCommaSeparated(toks: Stream, sub: Subparser, requiredParenthesis: bool, st: Cursor)
    : (o: Outcome<seq<Item>>)
    requires st.pos <= |toks|
    ensures Sound(toks, st, o)
    ensures o.result.Ok? ==> o.cursor.pos > st.pos && |o.result.value| >= 1 && AllYield(sub, o.result.value)
    ensures requiredParenthesis && PeekedToken(toks, st.pos) != Some(LeftParen) ==>
      o.result == Err(ParserError(OpeningParenRequired, st.location))
    ensures o.result.Ok? && PeekedToken(toks, st.pos) == Some(LeftParen) ==>
      JustRead(toks, o.cursor, RightParen)
  {
    var open := ConsumeOptionalToken(toks, LeftParen, st);
    if requiredParenthesis && !open.value then
      Outcome(Err(ParserError(OpeningParenRequired, open.cursor.location)), open.cursor)
    else
      ParseListItems(toks, sub, open.value, open.cursor)
  }

  function ItemExprs(items: seq<Item>): (es: seq<Expression>)
    requires AllYield(Expressions, items)
    ensures |es| == |items| && forall i | 0 <= i < |items| :: items[i] == ExprItem(es[i])
  {
    seq(|items|, i requires 0 <= i < |items| => items[i].expr)
  }

  function ItemColumns(items: seq<Item>): (cs: seq<Column>)
    requires AllYield(Subparser.Columns, items)
    ensures |cs| == |items| && forall i | 0 <= i < |items| :: items[i] == ColumnItem(cs[i])
    ensures forall i | 0 <= i < |cs| :: BoundedColumn(cs[i])
  {
    seq(|items|, i requires 0 <= i < |items| => items[i].column)
  }

  function ItemIdents(items: seq<Item>): (ns: seq<string>)
    requires AllYield(Identifiers, items)
    ensures |ns| == |items| && forall i | 0 <= i < |items| :: items[i] == IdentItem(ns[i])
  {
    seq(|items|, i requires 0 <= i < |items| => items[i].ident)
  }

  /** The expressions after `SELECT`, `SET` or `VALUES`; parentheses optional. */
  function ParseCommaSeparatedExpressions(toks: Stream, st: Cursor): (o: Outcome<seq<Expression>>)
    requires st.pos <= |toks|
    ensures Sound(toks, st, o)
    ensures o.result.Ok? ==> o.cursor.pos > st.pos && |o.result.value| >= 1
  {
    var items := ParseCommaSeparated(toks, Expressions, false, st);
    if items.result.Err? then Fail(items) else Outcome(Ok(ItemExprs(items.result.value)), items.cursor)
  }

  /** The column definitions of `CREATE TABLE`; parentheses required. */
  function ParseSchema(toks: Stream, st: Cursor): (o: Outcome<seq<Column>>)
    requires st.pos <= |toks|
    ensures Sound(toks, st, o)
    ensures o.result.Ok? ==> o.cursor.pos > st.pos && |o.result.value| >= 1
    ensures o.result.Ok? ==> forall i | 0 <= i < |o.result.value| :: BoundedColumn(o.result.value[i])
  {
    var items := ParseCommaSeparated(toks, Subparser.Columns, true, st);
    if items.result.Err? then Fail(items) else Outcome(Ok(ItemColumns(items.result.value)), items.cursor)
  }

  /** The target columns of `INSERT`: bare identifiers; parentheses required. */
  function ParseIdentifierList(toks: Stream, st: Cursor): (o: Outcome<seq<string>>)
    requires st.pos <= |toks|
    ensures Sound(toks, st, o)
    ensures o.result.Ok? ==> o.cursor.pos > st.pos && |o.result.value| >= 1
  {
    var items := ParseCommaSeparated(toks, Identifiers, true, st);
    if items.result.Err? then Fail(items) else Outcome(Ok(ItemIdents(items.result.value)), items.cursor)
  }

  // ---------------------------------------------------------------------------
  // Statements
  // ---------------------------------------------------------------------------

  /** `WHERE` and an expression, if the next token is `WHERE`. */
  function ParseOptionalWhere(toks: Stream, st: Cursor): (o: Outcome<Option<Expression>>)
    requires st.pos <= |toks|
    ensures Sound(toks, st, o)
    ensures o.result.Ok? && o.result.value.None? <==> PeekedToken(toks, st.pos) != Some(Keyword(Where))
    ensures PeekedToken(toks, st.pos) != Some(Keyword(Where)) ==>
      o.cursor == Cursor(SkipWhiteSpaces(toks, st.pos), st.location)
  {
    var w := ConsumeOptionalToken(toks, Keyword(Where), st);
    if w.value then
      var e := ParseExpression(toks, w.cursor);
      if e.result.Err? then Fail(e) else Outcome(Ok(Some(e.result.value)), e.cursor)
    else
      Outcome(Ok(Option.None), w.cursor)
  }

  /** A table name followed by an optional `WHERE` clause. */
  function ParseFromAndOptionalWhere(toks: Stream, st: Cursor): (o: Outcome<(string, Option<Expression>)>)
    requires st.pos <= |toks|
    ensures Sound(toks, st, o)
    ensures o.result.Ok? ==> o.cursor.pos > st.pos
  {
    var from := ParseIdentifier(toks, st);
    if from.result.Err? then Fail(from)
    else
      var where := ParseOptionalWhere(toks, from.cursor);
      if where.result.Err? then Fail(where) else Outcome(Ok((from.result.value, where.result.value)), where.cursor)
  }

  function ParseSelect(toks: Stream, st: Cursor): (o: Outcome<Statement>)
    requires st.pos <= |toks|
    ensures Sound(toks, st, o)
    ensures o.result.Ok? ==> o.result.value.Select? && |o.result.value.columns| >= 1
  {
    var columns := ParseCommaSeparatedExpressions(toks, st);
    if columns.result.Err? then Fail(columns)
    else
      var from := ExpectKeyword(toks, From, columns.cursor);
      if from.result.Err? then Fail(from)
      else
        var fw := ParseFromAndOptionalWhere(toks, from.cursor);
        if fw.result.Err? then Fail(fw)
        else Outcome(Ok(Statement.Select(columns.result.value, fw.result.value.0, fw.result.value.1)), fw.cursor)
  }

  function ParseCreate(toks: Stream, st: Cursor): (o: Outcome<Statement>)
    requires st.pos <= |toks|
    ensures Sound(toks, st, o)
    ensures o.result.Ok? ==> o.result.value.Create?
    ensures o.result.Ok? && o.result.value.create.Table? ==>
      var cs := o.result.value.create.columns; |cs| >= 1 && forall i | 0 <= i < |cs| :: BoundedColumn(cs[i])
  {
    var kind := ExpectOneOf(toks, [Keyword.Database, Keyword.Table], st);
    if kind.result.Err? then Fail(kind)
    else
      var name := ParseIdentifier(toks, kind.cursor);
      if name.result.Err? then Fail(name)
      else if kind.result.value == Keyword.Database then
        Outcome(Ok(Statement.Create(Create.Database(name.result.value))), name.cursor)
      else
        var columns := ParseSchema(toks, name.cursor);
        if columns.result.Err? then Fail(columns)
        else Outcome(Ok(Statement.Create(Create.Table(name.result.value, columns.result.value))), columns.cursor)
  }

  function ParseUpdate(toks: Stream, st: Cursor): (o: Outcome<Statement>)
    requires st.pos <= |toks|
    ensures Sound(toks, st, o)
    ensures o.result.Ok? ==> o.result.value.Update? && |o.result.value.columns| >= 1
  {
    var table := ParseIdentifier(toks, st);
    if table.result.Err? then Fail(table)
    else
      var setKeyword := ExpectKeyword(toks, Set, table.cursor);
      if setKeyword.result.Err? then Fail(setKeyword)
      else
        var columns := ParseCommaSeparatedExpressions(toks, setKeyword.cursor);
        if columns.result.Err? then Fail(columns)
        else
          var where := ParseOptionalWhere(toks, columns.cursor);
          if where.result.Err? then Fail(where)
          else Outcome(Ok(Statement.Update(table.result.value, columns.result.value, where.result.value)), where.cursor)
  }

  function ParseInsert(toks: Stream, st: Cursor): (o: Outcome<Statement>)
    requires st.pos <= |toks|
    ensures Sound(toks, st, o)
    ensures o.result.Ok? ==>
      o.result.value.Insert? && |o.result.value.columnNames| >= 1 && |o.result.value.values| >= 1
  {
    var into := ExpectKeyword(toks, Into, st);
    if into.result.Err? then Fail(into)
    else
      var table := ParseIdentifier(toks, into.cursor);
      if table.result.Err? then Fail(table)
      else
        var columns := ParseIdentifierList(toks, table.cursor);
        if columns.result.Err? then Fail(columns)
        else
          var values := ExpectKeyword(toks, Keyword.Values, columns.cursor);
          if values.result.Err? then Fail(values)
          else
            var exprs := ParseCommaSeparatedExpressions(toks, values.cursor);
            if exprs.result.Err? then Fail(exprs)
            else Outcome(Ok(Statement.Insert(table.result.value, columns.result.value, exprs.result.value)), exprs.cursor)
  }

  function ParseDelete(toks: Stream, st: Cursor): (o: Outcome<Statement>)
    requires st.pos <= |toks|
    ensures Sound(toks, st, o)
    ensures o.result.Ok? ==> o.result.value.Delete?
  {
    var from := ExpectKeyword(toks, From, st);
    if from.result.Err? then Fail(from)
    else
      var fw := ParseFromAndOptionalWhere(toks, from.cursor);
      if fw.result.Err? then Fail(fw)
      else Outcome(Ok(Statement.Delete(fw.result.value.0, fw.result.value.1)), fw.cursor)
  }

  function ParseDrop(toks: Stream, st: Cursor): (o: Outcome<Statement>)
    requires st.pos <= |toks|
    ensures Sound(toks, st, o)
    ensures o.result.Ok? ==> o.result.value.Drop?
  {
    var kind := ExpectOneOf(toks, [Keyword.Database, Keyword.Table], st);
    if kind.result.Err? then Fail(kind)
    else
      var name := ParseIdentifier(toks, kind.cursor);
      if name.result.Err? then Fail(name)
      else if kind.result.value == Keyword.Database then
        Outcome(Ok(Statement.Drop(Drop.Database(name.result.value))), name.cursor)
      else
        Outcome(Ok(Statement.Drop(Drop.Table(name.result.value))), name.cursor)
  }

  /** The keywords a statement may start with. */
  predicate StartsStatement(k: Keyword) {
    k in {Keyword.Select, Keyword.Create, Keyword.Update, Keyword.Insert, Keyword.Delete, Keyword.Drop}
  }

  /** The statement body that follows the leading keyword `k`. */
  function ParseStatementBody(toks: Stream, k: Keyword, st: Cursor): (o: Outcome<Statement>)
    requires st.pos <= |toks|
    ensures Sound(toks, st, o)
    ensures !StartsStatement(k) ==>
      o == Outcome(Err(ParserError(if k == Keyword.None then ExpectedStatement else UnexpectedStatementKeyword(k),
                                   st.location)), st)
    ensures o.result.Ok? ==> StartsStatement(k)
  {
    match k
    case Select => ParseSelect(toks, st)
    case Create => ParseCreate(toks, st)
    case Update => ParseUpdate(toks, st)
    case Insert => ParseInsert(toks, st)
    case Delete => ParseDelete(toks, st)
    case Drop => ParseDrop(toks, st)
    case None => Outcome(Err(ParserError(ExpectedStatement, st.location)), st)
    case _ => Outcome(Err(ParserError(UnexpectedStatementKeyword(k), st.location)), st)
  }

  /**
    One statement: a leading keyword, its body, and the `;` terminator.
  */
  function ParseStatement(toks: Stream, st: Cursor): (o: Outcome<Statement>)
    requires st.pos <= |toks|
    ensures Sound(toks, st, o)
    ensures o.result.Ok? ==> o.cursor.pos > st.pos
    ensures o.result.Ok? ==> JustRead(toks, o.cursor, SemiColon)
    ensures o.result.Ok? ==>
      NextToken(toks, st).result.Ok? && NextToken(toks, st).result.value.Keyword? &&
      StartsStatement(NextToken(toks, st).result.value.keyword)
  {
    var first := NextToken(toks, st);
    if first.result.Err? then Fail(first)
    else if !first.result.value.Keyword? then
      Outcome(Err(ParserError(UnexpectedInitialToken(first.result.value), first.cursor.location)), first.cursor)
    else
      var body := ParseStatementBody(toks, first.result.value.keyword, first.cursor);
      if body.result.Err? then body
      else
        var semi := ExpectSemicolon(toks, body.cursor);
        if semi.result.Err? then Fail(semi) else Outcome(body.result, semi.cursor)
  }

  /** Whether parsing stops here: the next entry is `Eof`, or there is none. */
  predicate AtEnd(toks: Stream, pos: nat)
    requires pos <= |toks|
  {
    match Peek(toks, pos)
    case None => true
    case Some(s) => s.Scanned? && s.item.token == Eof
  }

  /**
    Statements until `Eof` or the end of the stream, in source order; the
    first error ends the parse and is the whole result.
  */
  function ParseStatements(toks: Stream, st: Cursor): (o: Outcome<seq<Statement>>)
    requires st.pos <= |toks|
    ensures Sound(toks, st, o)
    ensures o.result.Ok? ==> AtEnd(toks, o.cursor.pos)
    decreases |toks| - st.pos
  {
    var here := Cursor(SkipWhiteSpaces(toks, st.pos), st.location);
    if AtEnd(toks, st.pos) then
      SkipIdempotent(toks, st.pos);
      Outcome(Ok([]), here)
    else
      var s := ParseStatement(toks, here);
      if s.result.Err? then Fail(s)
      else
        var rest := ParseStatements(toks, s.cursor);
        if rest.result.Err? then rest
        else Outcome(Ok([s.result.value] + rest.result.value), rest.cursor)
  }

  /** The parse of a whole stream by a fresh parser. */
  function TryParse(toks: Stream): Result<seq<Statement>> {
    ParseStatements(toks, Cursor(0, DefaultLocation)).result
  }
}
