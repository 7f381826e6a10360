/**
  Statements are read back from their spelling: each statement kind's body,
  one whole statement with its terminator, and a script of statements up to
  the end of the stream.
*/
module StatementRoundTrip {
  import opened Tokens
  import opened Ast
  import opened Grammar
  import opened Printer
  import opened Spelling
  import opened RoundTrip
  import opened ListRoundTrip

  // ---------------------------------------------------------------------------
  // Lists of one kind
  // ---------------------------------------------------------------------------

  lemma ExprItems(cols: seq<Phrase>)
    ensures AllYield(Expressions, EntryItems(Phrases(cols)))
    ensures ItemExprs(EntryItems(Phrases(cols))) == Abstracts(cols)
  {
  }

  lemma ColumnItems(cs: seq<Column>)
    requires forall i | 0 <= i < |cs| :: BoundedColumn(cs[i])
    ensures AllYield(Subparser.Columns, EntryItems(ColumnEntries(cs)))
    ensures ItemColumns(EntryItems(ColumnEntries(cs))) == cs
  {
  }

  lemma IdentItems(ns: seq<string>)
    ensures AllYield(Identifiers, EntryItems(IdentEntries(ns)))
    ensures ItemIdents(EntryItems(IdentEntries(ns))) == ns
  {
  }

  /** An expression list, followed by a token that ends it, is read back as its trees. */
  lemma ParseExpressionsSpelled(toks: Stream, cols: seq<Phrase>, grouped: bool, next: Token, st: Cursor)
    requires st.pos <= |toks| && ListFits(Expressions, Phrases(cols), grouped)
    requires Spells(toks, st, RenderList(Phrases(cols), grouped))
    requires Sees(toks, Consume(toks, st, RenderList(Phrases(cols), grouped)), next) && Ends(next) && next != Comma
    ensures Reads(toks, st, RenderList(Phrases(cols), grouped), ParseCommaSeparatedExpressions(toks, st), Abstracts(cols))
  {
    ParseListSpelled(toks, Expressions, Phrases(cols), grouped, false, next, st);
    ExprItems(cols);
  }

  /** The parenthesised column definitions of `CREATE TABLE` are read back. */
  lemma ParseSchemaSpelled(toks: Stream, cs: seq<Column>, st: Cursor)
    requires st.pos <= |toks| && ListFits(Subparser.Columns, ColumnEntries(cs), true)
    requires Spells(toks, st, RenderList(ColumnEntries(cs), true))
    ensures Reads(toks, st, RenderList(ColumnEntries(cs), true), ParseSchema(toks, st), cs)
  {
    ParseListSpelled(toks, Subparser.Columns, ColumnEntries(cs), true, true, SemiColon, st);
    assert forall i | 0 <= i < |cs| :: Fits(Subparser.Columns, ColumnEntries(cs)[i]);
    ColumnItems(cs);
  }

  /** The parenthesised target columns of `INSERT` are read back. */
  lemma ParseIdentifierListSpelled(toks: Stream, ns: seq<string>, st: Cursor)
    requires st.pos <= |toks| && ListFits(Identifiers, IdentEntries(ns), true)
    requires Spells(toks, st, RenderList(IdentEntries(ns), true))
    ensures Reads(toks, st, RenderList(IdentEntries(ns), true), ParseIdentifierList(toks, st), ns)
  {
    ParseListSpelled(toks, Identifiers, IdentEntries(ns), true, true, SemiColon, st);
    IdentItems(ns);
  }

  // ---------------------------------------------------------------------------
  // Clauses
  // ---------------------------------------------------------------------------

  /** An optional `WHERE` clause before the terminator is read back; absent, it reads as `None`. */
  lemma ParseWhereSpelled(toks: Stream, w: Option<Phrase>, st: Cursor)
    requires st.pos <= |toks| && WhereFits(w) && Spells(toks, st, WhereClause(w))
    requires Sees(toks, Consume(toks, st, WhereClause(w)), SemiColon)
    ensures Reads(toks, st, WhereClause(w), ParseOptionalWhere(toks, st), AbstractWhere(w))
  {
    match w
    case None =>
      SeesNext(toks, st, SemiColon);
      SettleTwice(toks, st);
    case Some(ph) =>
      var clause := WhereClause(w);
      NextSpelled(toks, st, clause);
      var a := Advance(toks, st);
      assert clause[1..] == Render(ph);
      var after := Consume(toks, a, Render(ph));
      SeesNext(toks, after, SemiColon);
      Terminators();
      ParsePhrase(toks, ph, 0, a);
      SettleTwice(toks, after);
  }

  /** A table name and an optional `WHERE` clause before the terminator are read back. */
  lemma ParseFromWhereSpelled(toks: Stream, from: string, w: Option<Phrase>, st: Cursor)
    requires st.pos <= |toks| && WhereFits(w) && Spells(toks, st, FromWhere(from, w))
    requires Sees(toks, Consume(toks, st, FromWhere(from, w)), SemiColon)
    ensures Reads(toks, st, FromWhere(from, w), ParseFromAndOptionalWhere(toks, st), (from, AbstractWhere(w)))
  {
    var fw := FromWhere(from, w);
    NextSpelled(toks, st, fw);
    assert fw[1..] == WhereClause(w);
    ParseWhereSpelled(toks, w, Advance(toks, st));
  }

  /** `k` and a name: the body of `CREATE DATABASE`, `DROP DATABASE` and `DROP TABLE`. */
  lemma ParseKindAndNameSpelled(toks: Stream, k: Keyword, n: string, st: Cursor)
    requires st.pos <= |toks| && k in [Keyword.Database, Keyword.Table]
    requires Spells(toks, st, [Keyword(k), Token.Identifier(n)])
    ensures ExpectOneOf(toks, [Keyword.Database, Keyword.Table], st) == Outcome(Ok(k), Advance(toks, st))
    ensures ParseIdentifier(toks, Advance(toks, st)) ==
      Outcome(Ok(n), Consume(toks, st, [Keyword(k), Token.Identifier(n)]))
  {
    var ts := [Keyword(k), Token.Identifier(n)];
    NextSpelled(toks, st, ts);
    NextSpelled(toks, Advance(toks, st), ts[1..]);
  }

  // ---------------------------------------------------------------------------
  // Statement bodies
  // ---------------------------------------------------------------------------

  /** The part of a body between its leading tokens and the terminator. */
  lemma SpellsRest(toks: Stream, st: Cursor, head: seq<Token>, rest: seq<Token>)
    requires st.pos <= |toks| && Spells(toks, st, head + rest) && Sees(toks, Consume(toks, st, head + rest), SemiColon)
    ensures Spells(toks, st, head) && Spells(toks, Consume(toks, st, head), rest)
    ensures Consume(toks, Consume(toks, st, head), rest) == Consume(toks, st, head + rest)
    ensures Sees(toks, Consume(toks, Consume(toks, st, head), rest), SemiColon)
  {
    SpellsConcat(toks, st, head, rest);
  }

  /** Two leading tokens, read one after the other, and the rest spelled after them. */
  lemma ReadPair(toks: Stream, st: Cursor, t1: Token, t2: Token, rest: seq<Token>)
    requires st.pos <= |toks| && Spells(toks, st, [t1, t2] + rest)
    ensures Spells(toks, st, [t1, t2])
    ensures NextToken(toks, st) == Outcome(Ok(t1), Advance(toks, st))
    ensures NextToken(toks, Advance(toks, st)) == Outcome(Ok(t2), Consume(toks, st, [t1, t2]))
    ensures Spells(toks, Consume(toks, st, [t1, t2]), rest)
    ensures Consume(toks, Consume(toks, st, [t1, t2]), rest) == Consume(toks, st, [t1, t2] + rest)
  {
    var head := [t1, t2];
    SpellsConcat(toks, st, head, rest);
    NextSpelled(toks, st, head);
    assert head[1..] == [t2];
    NextSpelled(toks, Advance(toks, st), [t2]);
  }

  /** The keyword read by `NextToken` is the one `ExpectKeyword` expects. */
  lemma KeywordRead(toks: Stream, st: Cursor, k: Keyword, a: Cursor)
    requires st.pos <= |toks| && NextToken(toks, st) == Outcome(Ok(Keyword(k)), a)
    ensures ExpectKeyword(toks, k, st) == Outcome(Ok(k), a)
  {
  }

  /** After an expression list comes an optional `WHERE` clause, or else the terminator. */
  lemma WhereLead(w: Option<Phrase>)
    ensures var next := if WhereClause(w) == [] then SemiColon else WhereClause(w)[0];
      Ends(next) && next != Comma
  {
  }

  lemma ParseSelectSpelled(toks: Stream, s: Sentence, st: Cursor)
    requires st.pos <= |toks| && s.SelectOf? && WellFormed(s) && Spells(toks, st, Body(s))
    requires Sees(toks, Consume(toks, st, Body(s)), SemiColon)
    ensures Reads(toks, st, Body(s), ParseSelect(toks, st), AbstractSentence(s))
  {
    SelectSpelled(toks, s.columns, s.grouped, s.from, s.where, st);
  }

  lemma SelectSpelled(toks: Stream, cols: seq<Phrase>, grouped: bool, from: string, w: Option<Phrase>, st: Cursor)
    requires st.pos <= |toks| && ListFits(Expressions, Phrases(cols), grouped) && WhereFits(w)
    requires Spells(toks, st, RenderList(Phrases(cols), grouped) + ([Keyword(From)] + FromWhere(from, w)))
    requires Sees(toks, Consume(toks, st, RenderList(Phrases(cols), grouped) + ([Keyword(From)] + FromWhere(from, w))), SemiColon)
    ensures Reads(toks, st, RenderList(Phrases(cols), grouped) + ([Keyword(From)] + FromWhere(from, w)),
                  ParseSelect(toks, st), Statement.Select(Abstracts(cols), from, AbstractWhere(w)))
  {
    var list := RenderList(Phrases(cols), grouped);
    var rest := [Keyword(From)] + FromWhere(from, w);
    var mid := SplitAt(toks, st, list, rest, SemiColon);
    Terminators();
    ParseExpressionsSpelled(toks, cols, grouped, Keyword(From), st);
    var c := ParseCommaSeparatedExpressions(toks, st).cursor;
    Resume(toks, mid, c, rest, SemiColon);
    NextSpelled(toks, c, rest);
    assert rest[1..] == FromWhere(from, w);
    KeywordRead(toks, c, From, Advance(toks, c));
    ParseFromWhereSpelled(toks, from, w, Advance(toks, c));
    SelectSteps(toks, st, Abstracts(cols), c, Advance(toks, c), (from, AbstractWhere(w)),
                ParseFromAndOptionalWhere(toks, Advance(toks, c)).cursor);
  }

  /** `SELECT` succeeds when each of its steps does, and returns what they read. */
  lemma SelectSteps(toks: Stream, st: Cursor, cols: seq<Expression>, c: Cursor, a: Cursor,
                    fw: (string, Option<Expression>), d: Cursor)
    requires st.pos <= |toks| && c.pos <= |toks| && a.pos <= |toks|
    requires ParseCommaSeparatedExpressions(toks, st) == Outcome(Ok(cols), c)
    requires ExpectKeyword(toks, From, c) == Outcome(Ok(From), a)
    requires ParseFromAndOptionalWhere(toks, a) == Outcome(Ok(fw), d)
    ensures ParseSelect(toks, st) == Outcome(Ok(Statement.Select(cols, fw.0, fw.1)), d)
  {
  }

  lemma ParseCreateSpelled(toks: Stream, s: Sentence, st: Cursor)
    requires st.pos <= |toks| && s.CreateOf? && WellFormed(s) && Spells(toks, st, Body(s))
    ensures Reads(toks, st, Body(s), ParseCreate(toks, st), AbstractSentence(s))
  {
    match s.create
    case Database(n) =>
      ParseKindAndNameSpelled(toks, Keyword.Database, n, st);
      SettleTwice(toks, Consume(toks, st, Body(s)));
    case Table(n, cs) =>
      CreateTableSpelled(toks, n, cs, st);
  }

  lemma CreateTableSpelled(toks: Stream, n: string, cs: seq<Column>, st: Cursor)
    requires st.pos <= |toks| && ListFits(Subparser.Columns, ColumnEntries(cs), true)
    requires Spells(toks, st, [Keyword(Keyword.Table), Token.Identifier(n)] + RenderList(ColumnEntries(cs), true))
    ensures Reads(toks, st, [Keyword(Keyword.Table), Token.Identifier(n)] + RenderList(ColumnEntries(cs), true),
                  ParseCreate(toks, st), Statement.Create(Create.Table(n, cs)))
  {
    var list := RenderList(ColumnEntries(cs), true);
    ReadPair(toks, st, Keyword(Keyword.Table), Token.Identifier(n), list);
    var a := Consume(toks, st, [Keyword(Keyword.Table), Token.Identifier(n)]);
    ParseKindAndNameSpelled(toks, Keyword.Table, n, st);
    ParseSchemaSpelled(toks, cs, a);
    CreateTableSteps(toks, st, Advance(toks, st), n, a, cs, ParseSchema(toks, a).cursor);
  }

  /** `CREATE TABLE` succeeds when each of its steps does, and returns what they read. */
  lemma CreateTableSteps(toks: Stream, st: Cursor, a1: Cursor, n: string, a: Cursor, cs: seq<Column>, d: Cursor)
    requires st.pos <= |toks| && a1.pos <= |toks| && a.pos <= |toks|
    requires ExpectOneOf(toks, [Keyword.Database, Keyword.Table], st) == Outcome(Ok(Keyword.Table), a1)
    requires ParseIdentifier(toks, a1) == Outcome(Ok(n), a)
    requires ParseSchema(toks, a) == Outcome(Ok(cs), d)
    ensures ParseCreate(toks, st) == Outcome(Ok(Statement.Create(Create.Table(n, cs))), d)
  {
  }

  lemma ParseUpdateSpelled(toks: Stream, s: Sentence, st: Cursor)
    requires st.pos <= |toks| && s.UpdateOf? && WellFormed(s) && Spells(toks, st, Body(s))
    requires Sees(toks, Consume(toks, st, Body(s)), SemiColon)
    ensures Reads(toks, st, Body(s), ParseUpdate(toks, st), AbstractSentence(s))
  {
    UpdateSpelled(toks, s.table, s.columns, s.grouped, s.where, st);
  }

  lemma UpdateSpelled(toks: Stream, t: string, cols: seq<Phrase>, grouped: bool, w: Option<Phrase>, st: Cursor)
    requires st.pos <= |toks| && ListFits(Expressions, Phrases(cols), grouped) && WhereFits(w)
    requires Spells(toks, st, [Token.Identifier(t), Keyword(Set)] + (RenderList(Phrases(cols), grouped) + WhereClause(w)))
    requires Sees(toks, Consume(toks, st, [Token.Identifier(t), Keyword(Set)] + (RenderList(Phrases(cols), grouped) + WhereClause(w))), SemiColon)
    ensures Reads(toks, st, [Token.Identifier(t), Keyword(Set)] + (RenderList(Phrases(cols), grouped) + WhereClause(w)),
                  ParseUpdate(toks, st), Statement.Update(t, Abstracts(cols), AbstractWhere(w)))
  {
    var list := RenderList(Phrases(cols), grouped);
    var clause := WhereClause(w);
    ReadPair(toks, st, Token.Identifier(t), Keyword(Set), list + clause);
    var a1 := Advance(toks, st);
    var a := Consume(toks, st, [Token.Identifier(t), Keyword(Set)]);
    IdentifierRead(toks, st, t, a1);
    KeywordRead(toks, a1, Set, a);
    var mid := SplitAt(toks, a, list, clause, SemiColon);
    WhereLead(w);
    ParseExpressionsSpelled(toks, cols, grouped, if clause == [] then SemiColon else clause[0], a);
    var c := ParseCommaSeparatedExpressions(toks, a).cursor;
    Resume(toks, mid, c, clause, SemiColon);
    ParseWhereSpelled(toks, w, c);
    UpdateSteps(toks, st, t, a1, a, Abstracts(cols), c, AbstractWhere(w), ParseOptionalWhere(toks, c).cursor);
  }

  /** `UPDATE` succeeds when each of its steps does, and returns what they read. */
  lemma UpdateSteps(toks: Stream, st: Cursor, t: string, a1: Cursor, a: Cursor, cols: seq<Expression>, c: Cursor,
                    w: Option<Expression>, d: Cursor)
    requires st.pos <= |toks| && a1.pos <= |toks| && a.pos <= |toks| && c.pos <= |toks|
    requires ParseIdentifier(toks, st) == Outcome(Ok(t), a1)
    requires ExpectKeyword(toks, Set, a1) == Outcome(Ok(Set), a)
    requires ParseCommaSeparatedExpressions(toks, a) == Outcome(Ok(cols), c)
    requires ParseOptionalWhere(toks, c) == Outcome(Ok(w), d)
    ensures ParseUpdate(toks, st) == Outcome(Ok(Statement.Update(t, cols, w)), d)
  {
  }

  lemma ParseInsertSpelled(toks: Stream, into: string, ns: seq<string>, vs: seq<Phrase>, grouped: bool, st: Cursor)
    requires st.pos <= |toks| && ListFits(Identifiers, IdentEntries(ns), true) && ListFits(Expressions, Phrases(vs), grouped)
    requires Spells(toks, st, [Keyword(Into), Token.Identifier(into)] +
                              (RenderList(IdentEntries(ns), true) + ([Keyword(Keyword.Values)] + RenderList(Phrases(vs), grouped))))
    requires Sees(toks, Consume(toks, st, [Keyword(Into), Token.Identifier(into)] +
                              (RenderList(IdentEntries(ns), true) + ([Keyword(Keyword.Values)] + RenderList(Phrases(vs), grouped)))),
                  SemiColon)
    ensures Reads(toks, st, [Keyword(Into), Token.Identifier(into)] +
                            (RenderList(IdentEntries(ns), true) + ([Keyword(Keyword.Values)] + RenderList(Phrases(vs), grouped))),
                  ParseInsert(toks, st), Statement.Insert(into, ns, Abstracts(vs)))
  {
    var names := RenderList(IdentEntries(ns), true);
    var values := [Keyword(Keyword.Values)] + RenderList(Phrases(vs), grouped);
    ReadPair(toks, st, Keyword(Into), Token.Identifier(into), names + values);
    var a1 := Advance(toks, st);
    var a := Consume(toks, st, [Keyword(Into), Token.Identifier(into)]);
    KeywordRead(toks, st, Into, a1);
    IdentifierRead(toks, a1, into, a);
    var mid := SplitAt(toks, a, names, values, SemiColon);
    ParseIdentifierListSpelled(toks, ns, a);
    var c := ParseIdentifierList(toks, a).cursor;
    Resume(toks, mid, c, values, SemiColon);
    ParseValuesSpelled(toks, vs, grouped, c);
    var d := Advance(toks, c);
    InsertSteps(toks, st, a1, into, a, ns, c, d, Abstracts(vs), ParseCommaSeparatedExpressions(toks, d).cursor);
  }

  /** `INSERT` succeeds when each of its steps does, and returns what they read. */
  lemma InsertSteps(toks: Stream, st: Cursor, a1: Cursor, into: string, a: Cursor, ns: seq<string>, c: Cursor, d: Cursor,
                    vs: seq<Expression>, e: Cursor)
    requires st.pos <= |toks| && a1.pos <= |toks| && a.pos <= |toks| && c.pos <= |toks| && d.pos <= |toks|
    requires ExpectKeyword(toks, Into, st) == Outcome(Ok(Into), a1)
    requires ParseIdentifier(toks, a1) == Outcome(Ok(into), a)
    requires ParseIdentifierList(toks, a) == Outcome(Ok(ns), c)
    requires ExpectKeyword(toks, Keyword.Values, c) == Outcome(Ok(Keyword.Values), d)
    requires ParseCommaSeparatedExpressions(toks, d) == Outcome(Ok(vs), e)
    ensures ParseInsert(toks, st) == Outcome(Ok(Statement.Insert(into, ns, vs)), e)
  {
  }

  /** `VALUES` and an expression list before the terminator. */
  lemma ParseValuesSpelled(toks: Stream, vs: seq<Phrase>, grouped: bool, st: Cursor)
    requires st.pos <= |toks| && ListFits(Expressions, Phrases(vs), grouped)
    requires Spells(toks, st, [Keyword(Keyword.Values)] + RenderList(Phrases(vs), grouped))
    requires Sees(toks, Consume(toks, st, [Keyword(Keyword.Values)] + RenderList(Phrases(vs), grouped)), SemiColon)
    ensures ExpectKeyword(toks, Keyword.Values, st) == Outcome(Ok(Keyword.Values), Advance(toks, st))
    ensures Reads(toks, Advance(toks, st), RenderList(Phrases(vs), grouped),
                  ParseCommaSeparatedExpressions(toks, Advance(toks, st)), Abstracts(vs))
    ensures Consume(toks, Advance(toks, st), RenderList(Phrases(vs), grouped)) ==
      Consume(toks, st, [Keyword(Keyword.Values)] + RenderList(Phrases(vs), grouped))
  {
    var list := RenderList(Phrases(vs), grouped);
    var a := Advance(toks, st);
    Lead(toks, st, Keyword(Keyword.Values), list);
    KeywordRead(toks, st, Keyword.Values, a);
    assert Sees(toks, Consume(toks, a, list), SemiColon);
    Terminators();
    ParseExpressionsSpelled(toks, vs, grouped, SemiColon, a);
  }

  lemma ParseDeleteSpelled(toks: Stream, s: Sentence, st: Cursor)
    requires st.pos <= |toks| && s.DeleteOf? && WellFormed(s) && Spells(toks, st, Body(s))
    requires Sees(toks, Consume(toks, st, Body(s)), SemiColon)
    ensures Reads(toks, st, Body(s), ParseDelete(toks, st), AbstractSentence(s))
  {
    var body := Body(s);
    NextSpelled(toks, st, body);
    assert body[1..] == FromWhere(s.from, s.where);
    ParseFromWhereSpelled(toks, s.from, s.where, Advance(toks, st));
  }

  lemma ParseDropSpelled(toks: Stream, s: Sentence, st: Cursor)
    requires st.pos <= |toks| && s.DropOf? && WellFormed(s) && Spells(toks, st, Body(s))
    ensures Reads(toks, st, Body(s), ParseDrop(toks, st), AbstractSentence(s))
  {
    match s.drop
    case Database(n) =>
      ParseKindAndNameSpelled(toks, Keyword.Database, n, st);
      DropSteps(toks, st, Keyword.Database, Advance(toks, st), n, Consume(toks, st, Body(s)));
    case Table(n) =>
      ParseKindAndNameSpelled(toks, Keyword.Table, n, st);
      DropSteps(toks, st, Keyword.Table, Advance(toks, st), n, Consume(toks, st, Body(s)));
  }

  /** `DROP` succeeds when its kind and name are read, and returns them. */
  lemma DropSteps(toks: Stream, st: Cursor, k: Keyword, a: Cursor, n: string, e: Cursor)
    requires st.pos <= |toks| && a.pos <= |toks|
    requires ExpectOneOf(toks, [Keyword.Database, Keyword.Table], st) == Outcome(Ok(k), a)
    requires ParseIdentifier(toks, a) == Outcome(Ok(n), e)
    ensures ParseDrop(toks, st) ==
      Outcome(Ok(Statement.Drop(if k == Keyword.Database then Drop.Database(n) else Drop.Table(n))), e)
  {
  }

  /** The statement keyword selects the routine for the body after it. */
  lemma Dispatch(toks: Stream, k: Keyword, st: Cursor)
    requires st.pos <= |toks|
    ensures k == Keyword.Select ==> ParseStatementBody(toks, k, st) == ParseSelect(toks, st)
    ensures k == Keyword.Create ==> ParseStatementBody(toks, k, st) == ParseCreate(toks, st)
    ensures k == Keyword.Update ==> ParseStatementBody(toks, k, st) == ParseUpdate(toks, st)
    ensures k == Keyword.Insert ==> ParseStatementBody(toks, k, st) == ParseInsert(toks, st)
    ensures k == Keyword.Delete ==> ParseStatementBody(toks, k, st) == ParseDelete(toks, st)
    ensures k == Keyword.Drop ==> ParseStatementBody(toks, k, st) == ParseDrop(toks, st)
  {
  }

  /** The body after a sentence's leading keyword is read back by the routine that keyword selects. */
  lemma ParseBodySpelled(toks: Stream, s: Sentence, st: Cursor)
    requires st.pos <= |toks| && WellFormed(s) && Spells(toks, st, Body(s))
    requires Sees(toks, Consume(toks, st, Body(s)), SemiColon)
    ensures Reads(toks, st, Body(s), ParseStatementBody(toks, Leading(s), st), AbstractSentence(s))
  {
    if s.SelectOf? || s.UpdateOf? {
      ParseQueryBodySpelled(toks, s, st);
    } else if s.InsertOf? {
      ParseInsertBodySpelled(toks, s, st);
    } else {
      ParseOtherBodySpelled(toks, s, st);
    }
  }

  lemma ParseQueryBodySpelled(toks: Stream, s: Sentence, st: Cursor)
    requires st.pos <= |toks| && (s.SelectOf? || s.UpdateOf?) && WellFormed(s) && Spells(toks, st, Body(s))
    requires Sees(toks, Consume(toks, st, Body(s)), SemiColon)
    ensures Reads(toks, st, Body(s), ParseStatementBody(toks, Leading(s), st), AbstractSentence(s))
  {
    if s.SelectOf? {
      Dispatch(toks, Keyword.Select, st);
      ParseSelectSpelled(toks, s, st);
    } else {
      Dispatch(toks, Keyword.Update, st);
      ParseUpdateSpelled(toks, s, st);
    }
  }

  lemma ParseInsertBodySpelled(toks: Stream, s: Sentence, st: Cursor)
    requires st.pos <= |toks| && s.InsertOf? && WellFormed(s) && Spells(toks, st, Body(s))
    requires Sees(toks, Consume(toks, st, Body(s)), SemiColon)
    ensures Reads(toks, st, Body(s), ParseStatementBody(toks, Leading(s), st), AbstractSentence(s))
  {
    Dispatch(toks, Keyword.Insert, st);
    ParseInsertSpelled(toks, s.into, s.columnNames, s.values, s.grouped, st);
  }

  lemma ParseOtherBodySpelled(toks: Stream, s: Sentence, st: Cursor)
    requires st.pos <= |toks| && (s.DeleteOf? || s.CreateOf? || s.DropOf?) && WellFormed(s) && Spells(toks, st, Body(s))
    requires Sees(toks, Consume(toks, st, Body(s)), SemiColon)
    ensures Reads(toks, st, Body(s), ParseStatementBody(toks, Leading(s), st), AbstractSentence(s))
  {
    if s.DeleteOf? {
      Dispatch(toks, Keyword.Delete, st);
      ParseDeleteSpelled(toks, s, st);
    } else if s.CreateOf? {
      Dispatch(toks, Keyword.Create, st);
      ParseCreateSpelled(toks, s, st);
    } else {
      Dispatch(toks, Keyword.Drop, st);
      ParseDropSpelled(toks, s, st);
    }
  }

  // ---------------------------------------------------------------------------
  // Statements and scripts
  // ---------------------------------------------------------------------------

  /**
    A well-formed sentence is read back as its statement, and the parser
    stops right after its terminator.
  */
  lemma ParseSentence(toks: Stream, s: Sentence, st: Cursor)
    requires st.pos <= |toks| && WellFormed(s) && Spells(toks, st, RenderSentence(s))
    ensures ParseStatement(toks, st) == Outcome(Ok(AbstractSentence(s)), Consume(toks, st, RenderSentence(s)))
  {
    var k := Leading(s);
    var body := Body(s);
    assert RenderSentence(s) == [Keyword(k)] + body + [SemiColon];
    var a, b := Enclosed(toks, st, Keyword(k), body, SemiColon);
    ParseBodySpelled(toks, s, a);
    var c := ParseStatementBody(toks, k, a).cursor;
    SettledStart(toks, c);
    SettledStart(toks, b);
    StatementSteps(toks, st, k, a, AbstractSentence(s), c, Consume(toks, st, RenderSentence(s)));
  }

  /** A statement is read when its keyword, its body and its terminator are. */
  lemma StatementSteps(toks: Stream, st: Cursor, k: Keyword, a: Cursor, stmt: Statement, c: Cursor, d: Cursor)
    requires st.pos <= |toks| && a.pos <= |toks| && c.pos <= |toks|
    requires NextToken(toks, st) == Outcome(Ok(Keyword(k)), a)
    requires ParseStatementBody(toks, k, a) == Outcome(Ok(stmt), c)
    requires NextToken(toks, c) == Outcome(Ok(SemiColon), d)
    ensures ParseStatement(toks, st) == Outcome(Ok(stmt), d)
  {
  }

  /**
    Well-formed sentences, followed by the end of the stream or `Eof`, are
    read back as their statements in order.
  */
  lemma {:induction false} ParseSentences(toks: Stream, ss: seq<Sentence>, st: Cursor)
    requires st.pos <= |toks| && (forall i | 0 <= i < |ss| :: WellFormed(ss[i]))
    requires Spells(toks, st, RenderSentences(ss)) && AtEnd(toks, Consume(toks, st, RenderSentences(ss)).pos)
    ensures ParseStatements(toks, st) ==
      Outcome(Ok(AbstractSentences(ss)), Settle(toks, Consume(toks, st, RenderSentences(ss))))
    decreases |ss|
  {
    if ss != [] {
      var c := FirstSentence(toks, ss, st);
      WellFormedTail(ss);
      ParseSentences(toks, ss[1..], c);
      SentencesCons(toks, ss, st, c);
    } else {
      assert RenderSentences(ss) == [] && AbstractSentences(ss) == [];
      SentencesEnd(toks, st);
    }
  }

  lemma WellFormedTail(ss: seq<Sentence>)
    requires ss != [] && forall i | 0 <= i < |ss| :: WellFormed(ss[i])
    ensures forall i | 0 <= i < |ss[1..]| :: WellFormed(ss[1..][i])
  {
    forall i | 0 <= i < |ss[1..]|
      ensures WellFormed(ss[1..][i])
    {
      assert ss[1..][i] == ss[i + 1];
    }
  }

  /** At the end of the stream the statement loop reads nothing more. */
  lemma SentencesEnd(toks: Stream, st: Cursor)
    requires st.pos <= |toks| && AtEnd(toks, st.pos)
    ensures ParseStatements(toks, st) == Outcome(Ok([]), Settle(toks, st))
  {
  }

  /** The first sentence and the statements read after it make up the whole script. */
  lemma SentencesCons(toks: Stream, ss: seq<Sentence>, st: Cursor, c: Cursor)
    requires st.pos <= |toks| && c.pos <= |toks| && ss != [] && (forall i | 0 <= i < |ss| :: WellFormed(ss[i]))
    requires Spells(toks, st, RenderSentences(ss)) && !AtEnd(toks, st.pos)
    requires ParseStatement(toks, Settle(toks, st)) == Outcome(Ok(AbstractSentence(ss[0])), c)
    requires Spells(toks, c, RenderSentences(ss[1..]))
    requires Consume(toks, c, RenderSentences(ss[1..])) == Consume(toks, st, RenderSentences(ss))
    requires ParseStatements(toks, c) ==
      Outcome(Ok(AbstractSentences(ss[1..])), Settle(toks, Consume(toks, c, RenderSentences(ss[1..]))))
    ensures ParseStatements(toks, st) ==
      Outcome(Ok(AbstractSentences(ss)), Settle(toks, Consume(toks, st, RenderSentences(ss))))
  {
    StatementsStep(toks, st, AbstractSentence(ss[0]), c, AbstractSentences(ss[1..]));
    AbstractCons(ss);
  }

  lemma AbstractCons(ss: seq<Sentence>)
    requires ss != []
    ensures AbstractSentences(ss) == [AbstractSentence(ss[0])] + AbstractSentences(ss[1..])
  {
    assert AbstractSentences(ss) == [AbstractSentence(ss[0])] + AbstractSentences(ss[1..]);
  }

  /** The first of several sentences is read as one statement; the rest are spelled after it. */
  lemma FirstSentence(toks: Stream, ss: seq<Sentence>, st: Cursor) returns (c: Cursor)
    requires st.pos <= |toks| && ss != [] && (forall i | 0 <= i < |ss| :: WellFormed(ss[i]))
    requires Spells(toks, st, RenderSentences(ss)) && AtEnd(toks, Consume(toks, st, RenderSentences(ss)).pos)
    ensures !AtEnd(toks, st.pos)
    ensures ParseStatement(toks, Settle(toks, st)) == Outcome(Ok(AbstractSentence(ss[0])), c)
    ensures c.pos <= |toks| && Spells(toks, c, RenderSentences(ss[1..]))
    ensures Consume(toks, c, RenderSentences(ss[1..])) == Consume(toks, st, RenderSentences(ss))
  {
    var first := RenderSentence(ss[0]);
    var rest := RenderSentences(ss[1..]);
    assert RenderSentences(ss) == first + rest;
    var here;
    here, c := Front(toks, st, first, rest);
    ParseSentence(toks, ss[0], here);
    NotAtEnd(toks, st.pos, Keyword(Leading(ss[0])));
  }

  /** A token other than `Eof` next means the statement loop goes on. */
  lemma NotAtEnd(toks: Stream, pos: nat, t: Token)
    requires pos <= |toks| && PeekedToken(toks, pos) == Some(t) && t != Eof
    ensures !AtEnd(toks, pos)
  {
  }

  /** Not at the end, the statement loop reads one statement and goes on after it. */
  lemma StatementsStep(toks: Stream, st: Cursor, first: Statement, c: Cursor, rest: seq<Statement>)
    requires st.pos <= |toks| && c.pos <= |toks| && !AtEnd(toks, st.pos)
    requires ParseStatement(toks, Settle(toks, st)) == Outcome(Ok(first), c)
    requires ParseStatements(toks, c).result == Ok(rest)
    ensures ParseStatements(toks, st) == Outcome(Ok([first] + rest), ParseStatements(toks, c).cursor)
  {
  }

  /** A fresh parser reads a script of well-formed sentences back as its statements. */
  lemma ScriptRoundTrip(toks: Stream, ss: seq<Sentence>)
    requires forall i | 0 <= i < |ss| :: WellFormed(ss[i])
    requires Spells(toks, Cursor(0, DefaultLocation), RenderSentences(ss))
    requires AtEnd(toks, Consume(toks, Cursor(0, DefaultLocation), RenderSentences(ss)).pos)
    ensures TryParse(toks) == Ok(AbstractSentences(ss))
  {
    ParseSentences(toks, ss, Cursor(0, DefaultLocation));
  }

  // ---------------------------------------------------------------------------
  // Every statement the parser returns can be printed and read back
  // ---------------------------------------------------------------------------

  /** A printable statement is read back from its printed form. */
  lemma StatementRoundTrip(toks: Stream, stmt: Statement, st: Cursor)
    requires st.pos <= |toks| && Printable(stmt) && Spells(toks, st, RenderSentence(SentenceOf(stmt)))
    ensures ParseStatement(toks, st) == Outcome(Ok(stmt), Consume(toks, st, RenderSentence(SentenceOf(stmt))))
  {
    ParseSentence(toks, SentenceOf(stmt), st);
  }

  /** What a statement body routine returns is printable. */
  lemma ParsedBodyPrintable(toks: Stream, k: Keyword, st: Cursor)
    requires st.pos <= |toks|
    ensures ParseStatementBody(toks, k, st).result.Ok? ==> Printable(ParseStatementBody(toks, k, st).result.value)
  {
    Dispatch(toks, k, st);
  }

  /** Every statement the parser returns is printable. */
  lemma ParsedPrintable(toks: Stream, st: Cursor)
    requires st.pos <= |toks|
    ensures ParseStatement(toks, st).result.Ok? ==> Printable(ParseStatement(toks, st).result.value)
  {
    var first := NextToken(toks, st);
    if first.result.Ok? && first.result.value.Keyword? {
      ParsedBodyPrintable(toks, first.result.value.keyword, first.cursor);
    }
  }

  /** Every statement of a successful parse is printable. */
  lemma {:induction false} ParsedScriptPrintable(toks: Stream, st: Cursor)
    requires st.pos <= |toks|
    ensures var o := ParseStatements(toks, st);
      o.result.Ok? ==> forall i | 0 <= i < |o.result.value| :: Printable(o.result.value[i])
    decreases |toks| - st.pos
  {
    if !AtEnd(toks, st.pos) {
      var here := Settle(toks, st);
      var s := ParseStatement(toks, here);
      ParsedPrintable(toks, here);
      if s.result.Ok? {
        ParsedScriptPrintable(toks, s.cursor);
        var rest := ParseStatements(toks, s.cursor);
        if rest.result.Ok? {
          StatementsStep(toks, st, s.result.value, s.cursor, rest.result.value);
          PrintableCons(s.result.value, rest.result.value);
        }
      }
    }
  }

  lemma PrintableCons(first: Statement, rest: seq<Statement>)
    requires Printable(first) && forall i | 0 <= i < |rest| :: Printable(rest[i])
    ensures forall i | 0 <= i < |[first] + rest| :: Printable(([first] + rest)[i])
  {
  }

  /** A script of printable statements is read back by a fresh parser from its printed form. */
  lemma ScriptOfStatementsRoundTrip(toks: Stream, stmts: seq<Statement>)
    requires forall i | 0 <= i < |stmts| :: Printable(stmts[i])
    requires Spells(toks, Cursor(0, DefaultLocation), RenderSentences(SentencesOf(stmts)))
    requires AtEnd(toks, Consume(toks, Cursor(0, DefaultLocation), RenderSentences(SentencesOf(stmts))).pos)
    ensures TryParse(toks) == Ok(stmts)
  {
    ScriptRoundTrip(toks, SentencesOf(stmts));
  }

  /**
    Parsing, printing and parsing again gives back the first parse: every
    stream that spells the printed statements parses to the same statements.
  */
  lemma Reparse(toks: Stream, again: Stream)
    requires TryParse(toks).Ok?
    ensures forall i | 0 <= i < |TryParse(toks).value| :: Printable(TryParse(toks).value[i])
    ensures var printed := RenderSentences(SentencesOf(TryParse(toks).value));
      Spells(again, Cursor(0, DefaultLocation), printed) &&
      AtEnd(again, Consume(again, Cursor(0, DefaultLocation), printed).pos) ==>
      TryParse(again) == TryParse(toks)
  {
    ParsedScriptPrintable(toks, Cursor(0, DefaultLocation));
    var stmts := TryParse(toks).value;
    var printed := RenderSentences(SentencesOf(stmts));
    if Spells(again, Cursor(0, DefaultLocation), printed) &&
       AtEnd(again, Consume(again, Cursor(0, DefaultLocation), printed).pos) {
      ScriptOfStatementsRoundTrip(again, stmts);
    }
  }
}
