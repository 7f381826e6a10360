/**
  The parser's unit tests (src/sql/parser.rs, lines 509-928) as lemmas: for
  every token stream that spells the test's SQL, with any whitespace between
  the tokens, a fresh parser returns the tree the test expects. Each is
  derived from the round-trip lemmas by exhibiting the phrase or sentence
  that prints as the test's tokens.
*/
module Examples {
  import opened Tokens
  import opened Ast
  import opened Grammar
  import opened Printer
  import opened Spelling
  import opened RoundTrip
  import opened StatementRoundTrip

  /** A fresh parser's state. */
  const Start := Cursor(0, DefaultLocation)

  // Tokens
  function Kw(k: Keyword): Token { Token.Keyword(k) }
  function Ident(n: string): Token { Token.Identifier(n) }
  function Nr(d: string): Token { Token.Number(d) }
  function Str(t: string): Token { Token.String(t) }

  // Trees
  function Id(n: string): Expression { Expression.Identifier(n) }
  function Num(d: string): Expression { Expression.Value(Value.Number(d)) }
  function Text(t: string): Expression { Expression.Value(Value.String(t)) }
  function Bin(l: Expression, op: BinaryOperator, r: Expression): Expression { BinaryOperation(l, op, r) }

  // Phrases
  function Lit(d: string): Phrase { Literal(Value.Number(d)) }
  function LitText(t: string): Phrase { Literal(Value.String(t)) }

  /** The entry after whitespace is `Eof`, so the parse loop stops there. */
  lemma EofEnds(toks: Stream, c: Cursor)
    requires c.pos <= |toks| && Sees(toks, c, Eof)
    ensures AtEnd(toks, c.pos)
  {
  }

  predicate AllWellGrouped(ps: seq<Phrase>) {
    forall i | 0 <= i < |ps| :: WellGrouped(ps[i])
  }

  /** A list of phrases splits after its first entry. */
  lemma ListSplit(ps: seq<Phrase>)
    requires |ps| >= 2
    ensures Joined(Phrases(ps)) == Render(ps[0]) + ([Comma] + Joined(Phrases(ps[1..])))
    ensures Abstracts(ps) == [Abstract(ps[0])] + Abstracts(ps[1..])
    ensures WellGrouped(ps[0]) && AllWellGrouped(ps[1..]) ==> AllWellGrouped(ps)
  {
    var es := Phrases(ps);
    assert es[1..] == Phrases(ps[1..]);
    assert CommaTail(es[1..]) == [Comma] + (RenderEntry(es[1..][0]) + CommaTail(es[1..][1..]));
    if WellGrouped(ps[0]) && AllWellGrouped(ps[1..]) {
      forall i | 1 <= i < |ps|
        ensures WellGrouped(ps[i])
      {
        assert ps[i] == ps[1..][i - 1];
      }
    }
  }

  lemma ListOne(ps: seq<Phrase>)
    requires |ps| == 1
    ensures Joined(Phrases(ps)) == Render(ps[0])
    ensures Abstracts(ps) == [Abstract(ps[0])]
    ensures WellGrouped(ps[0]) ==> AllWellGrouped(ps)
  {
  }

  /** A list whose entries are all well grouped fits the expression sub-parser. */
  lemma ListFitsOf(ps: seq<Phrase>, grouped: bool)
    requires |ps| >= 1 && AllWellGrouped(ps)
    requires !grouped ==> Render(ps[0])[0] != LeftParen
    ensures ListFits(Expressions, Phrases(ps), grouped)
  {
  }

  /** Three phrases written as a comma-separated list. */
  lemma ThreePhrases(a: Phrase, b: Phrase, c: Phrase)
    requires WellGrouped(a) && WellGrouped(b) && WellGrouped(c)
    ensures Joined(Phrases([a, b, c])) == Render(a) + ([Comma] + (Render(b) + ([Comma] + Render(c))))
    ensures Abstracts([a, b, c]) == [Abstract(a), Abstract(b), Abstract(c)]
    ensures AllWellGrouped([a, b, c])
  {
    var ps := [a, b, c];
    assert ps[1..] == [b, c] && ps[1..][1..] == [c];
    ListOne(ps[1..][1..]);
    ListSplit(ps[1..]);
    ListSplit(ps);
  }

  /** Four phrases written as a comma-separated list. */
  lemma FourPhrases(a: Phrase, b: Phrase, c: Phrase, d: Phrase)
    requires WellGrouped(a) && WellGrouped(b) && WellGrouped(c) && WellGrouped(d)
    ensures Joined(Phrases([a, b, c, d])) ==
      Render(a) + ([Comma] + (Render(b) + ([Comma] + (Render(c) + ([Comma] + Render(d))))))
    ensures Abstracts([a, b, c, d]) == [Abstract(a), Abstract(b), Abstract(c), Abstract(d)]
    ensures AllWellGrouped([a, b, c, d])
  {
    var ps := [a, b, c, d];
    assert ps[1..] == [b, c, d];
    ThreePhrases(b, c, d);
    ListSplit(ps);
  }

  /** A list of column definitions splits after its first entry. */
  lemma ColumnsSplit(cs: seq<Column>)
    requires |cs| >= 2
    ensures Joined(ColumnEntries(cs)) == RenderColumn(cs[0]) + ([Comma] + Joined(ColumnEntries(cs[1..])))
  {
    var es := ColumnEntries(cs);
    assert es[1..] == ColumnEntries(cs[1..]);
    assert CommaTail(es[1..]) == [Comma] + (RenderEntry(es[1..][0]) + CommaTail(es[1..][1..]));
  }

  /** How a `SELECT` with an unparenthesised column list is written. */
  lemma SelectWritten(cols: seq<Phrase>, from: string, w: Option<Phrase>)
    requires ListFits(Expressions, Phrases(cols), false) && WhereFits(w)
    ensures WellFormed(SelectOf(cols, false, from, w))
    ensures RenderSentence(SelectOf(cols, false, from, w)) ==
      [Kw(Keyword.Select)] + RenderList(Phrases(cols), false) + [Kw(Keyword.From), Ident(from)] + WhereClause(w) + [SemiColon]
    ensures AbstractSentence(SelectOf(cols, false, from, w)) == Statement.Select(Abstracts(cols), from, AbstractWhere(w))
  {
  }

  /** How an `UPDATE` with an unparenthesised assignment list is written. */
  lemma UpdateWritten(t: string, cols: seq<Phrase>, w: Option<Phrase>)
    requires ListFits(Expressions, Phrases(cols), false) && WhereFits(w)
    ensures WellFormed(UpdateOf(t, cols, false, w))
    ensures RenderSentence(UpdateOf(t, cols, false, w)) ==
      [Kw(Keyword.Update), Ident(t), Kw(Keyword.Set)] + RenderList(Phrases(cols), false) + WhereClause(w) + [SemiColon]
    ensures AbstractSentence(UpdateOf(t, cols, false, w)) == Statement.Update(t, Abstracts(cols), AbstractWhere(w))
  {
  }

  /** How a `CREATE TABLE` is written. */
  lemma CreateTableWritten(n: string, cols: seq<Column>)
    requires ListFits(Subparser.Columns, ColumnEntries(cols), true)
    ensures WellFormed(CreateOf(Create.Table(n, cols)))
    ensures RenderSentence(CreateOf(Create.Table(n, cols))) ==
      [Kw(Keyword.Create), Kw(Keyword.Table), Ident(n)] + ([LeftParen] + Joined(ColumnEntries(cols)) + [RightParen]) + [SemiColon]
    ensures AbstractSentence(CreateOf(Create.Table(n, cols))) == Statement.Create(Create.Table(n, cols))
  {
  }

  /** How an `INSERT` with parenthesised values is written. */
  lemma InsertWritten(into: string, names: seq<string>, values: seq<Phrase>)
    requires ListFits(Identifiers, IdentEntries(names), true) && ListFits(Expressions, Phrases(values), true)
    ensures WellFormed(InsertOf(into, names, values, true))
    ensures RenderSentence(InsertOf(into, names, values, true)) ==
      [Kw(Keyword.Insert), Kw(Keyword.Into), Ident(into)] + RenderList(IdentEntries(names), true) + [Kw(Keyword.Values)] +
      RenderList(Phrases(values), true) + [SemiColon]
    ensures AbstractSentence(InsertOf(into, names, values, true)) == Statement.Insert(into, names, Abstracts(values))
  {
  }

  /** How a `DELETE` is written. */
  lemma DeleteWritten(from: string, w: Option<Phrase>)
    requires WhereFits(w)
    ensures WellFormed(DeleteOf(from, w))
    ensures RenderSentence(DeleteOf(from, w)) == [Kw(Keyword.Delete), Kw(Keyword.From), Ident(from)] + WhereClause(w) + [SemiColon]
    ensures AbstractSentence(DeleteOf(from, w)) == Statement.Delete(from, AbstractWhere(w))
  {
  }

  /** Three column definitions written as a comma-separated list. */
  lemma ThreeColumns(a: Column, b: Column, c: Column)
    ensures Joined(ColumnEntries([a, b, c])) == RenderColumn(a) + ([Comma] + (RenderColumn(b) + ([Comma] + RenderColumn(c))))
  {
    var es := ColumnEntries([a, b, c]);
    assert es[1..][1..] == [ColumnEntry(c)];
    assert CommaTail(es[1..][1..]) == [Comma] + RenderColumn(c);
    assert CommaTail(es[1..]) == [Comma] + (RenderColumn(b) + ([Comma] + RenderColumn(c)));
  }

  // ---------------------------------------------------------------------------
  // Statements
  // ---------------------------------------------------------------------------


  /** `SELECT id, name FROM users;` */
  const SimpleSelectSql := [Kw(Keyword.Select), Ident("id"), Comma, Ident("name"), Kw(Keyword.From), Ident("users"), SemiColon]
  const SimpleSelectTree := Statement.Select([Id("id"), Id("name")], "users", Option.None)

  /** A sentence that prints as the test's SQL. */
  lemma SimpleSelectSentence() returns (s: Sentence)
    ensures WellFormed(s) && RenderSentence(s) == SimpleSelectSql && AbstractSentence(s) == SimpleSelectTree
  {
    s := SelectOf([Name("id"), Name("name")], false, "users", Option.None);
  }

  lemma ParseSimpleSelect(toks: Stream)
    requires Spells(toks, Start, SimpleSelectSql)
    ensures ParseStatement(toks, Start).result == Ok(SimpleSelectTree)
  {
    var s := SimpleSelectSentence();
    ParseSentence(toks, s, Start);
  }

  /** `SELECT * FROM users;` */
  const SelectWildcardSql := [Kw(Keyword.Select), Token.Mul, Kw(Keyword.From), Ident("users"), SemiColon]
  const SelectWildcardTree := Statement.Select([Wildcard], "users", Option.None)

  /** A sentence that prints as the test's SQL. */
  lemma SelectWildcardSentence() returns (s: Sentence)
    ensures WellFormed(s) && RenderSentence(s) == SelectWildcardSql && AbstractSentence(s) == SelectWildcardTree
  {
    s := SelectOf([Star], false, "users", Option.None);
  }

  lemma ParseSelectWildcard(toks: Stream)
    requires Spells(toks, Start, SelectWildcardSql)
    ensures ParseStatement(toks, Start).result == Ok(SelectWildcardTree)
  {
    var s := SelectWildcardSentence();
    ParseSentence(toks, s, Start);
  }

  /** `SELECT id, price, discount FROM products WHERE price >= 100;` */
  const IdPriceDiscountSql := [Ident("id"), Comma, Ident("price"), Comma, Ident("discount")]
  const PriceFloorSql := [Kw(Keyword.Where), Ident("price"), Token.GtEq, Nr("100")]
  const SelectWhereSql :=
    [Kw(Keyword.Select)] + IdPriceDiscountSql + [Kw(Keyword.From), Ident("products")] + PriceFloorSql + [SemiColon]
  const SelectWhereTree := Statement.Select([Id("id"), Id("price"), Id("discount")], "products",
                                            Some(Bin(Id("price"), BinaryOperator.GtEq, Num("100"))))

  /** `id, price, discount` */
  lemma IdPriceDiscount() returns (cols: seq<Phrase>)
    ensures ListFits(Expressions, Phrases(cols), false)
    ensures RenderList(Phrases(cols), false) == IdPriceDiscountSql
    ensures Abstracts(cols) == [Id("id"), Id("price"), Id("discount")]
  {
    cols := [Name("id"), Name("price"), Name("discount")];
    ThreePhrases(cols[0], cols[1], cols[2]);
    ListFitsOf(cols, false);
  }

  /** A sentence that prints as the test's SQL. */
  lemma SelectWhereSentence() returns (s: Sentence)
    ensures WellFormed(s) && RenderSentence(s) == SelectWhereSql && AbstractSentence(s) == SelectWhereTree
  {
    var cols := IdPriceDiscount();
    var w := Some(Infix(Name("price"), BinaryOperator.GtEq, Lit("100")));
    assert WhereClause(w) == PriceFloorSql;
    SelectWritten(cols, "products", w);
    s := SelectOf(cols, false, "products", w);
  }

  lemma ParseSelectWhere(toks: Stream)
    requires Spells(toks, Start, SelectWhereSql)
    ensures ParseStatement(toks, Start).result == Ok(SelectWhereTree)
  {
    var s := SelectWhereSentence();
    ParseSentence(toks, s, Start);
  }

  /**
    `SELECT id, price, discount, price * discount / 100 FROM products
     WHERE 100 <= price AND price < 1000 OR discount < 10 + (2 * 20);`
  */
  const RatioSql := [Ident("price"), Token.Mul, Ident("discount"), Token.Div, Nr("100")]
  const SelectWithExpressionsColumnsSql :=
    [Ident("id"), Comma, Ident("price"), Comma, Ident("discount"), Comma] + RatioSql
  const BoundsSql := [Nr("100"), Token.LtEq, Ident("price")] + [Kw(Keyword.And)] + [Ident("price"), Token.Lt, Nr("1000")]
  const DiscountSql :=
    [Ident("discount"), Token.Lt, Nr("10"), Token.Plus, LeftParen, Nr("2"), Token.Mul, Nr("20"), RightParen]
  const SelectWithExpressionsWhereSql := [Kw(Keyword.Where)] + (BoundsSql + [Kw(Keyword.Or)] + DiscountSql)
  const SelectWithExpressionsSql :=
    [Kw(Keyword.Select)] + SelectWithExpressionsColumnsSql + [Kw(Keyword.From), Ident("products")] +
    SelectWithExpressionsWhereSql + [SemiColon]
  const SelectWithExpressionsTree := Statement.Select(
    [Id("id"), Id("price"), Id("discount"),
     Bin(Bin(Id("price"), BinaryOperator.Mul, Id("discount")), BinaryOperator.Div, Num("100"))],
    "products",
    Some(Bin(Bin(Bin(Num("100"), BinaryOperator.LtEq, Id("price")), BinaryOperator.And,
                 Bin(Id("price"), BinaryOperator.Lt, Num("1000"))),
             BinaryOperator.Or,
             Bin(Id("discount"), BinaryOperator.Lt,
                 Bin(Num("10"), BinaryOperator.Plus, Bin(Num("2"), BinaryOperator.Mul, Num("20")))))))

  /** A sentence that prints as the test's SQL. */
  lemma SelectWithExpressionsSentence() returns (s: Sentence)
    ensures WellFormed(s) && RenderSentence(s) == SelectWithExpressionsSql && AbstractSentence(s) == SelectWithExpressionsTree
  {
    var cols := SelectWithExpressionsColumns();
    var w := SelectWithExpressionsCondition();
    SelectWritten(cols, "products", w);
    s := SelectOf(cols, false, "products", w);
  }

  /** `price * discount / 100` */
  lemma RatioPhrase() returns (ph: Phrase)
    ensures WellGrouped(ph) && Render(ph) == RatioSql
    ensures Abstract(ph) == Bin(Bin(Id("price"), BinaryOperator.Mul, Id("discount")), BinaryOperator.Div, Num("100"))
  {
    ph := Infix(Infix(Name("price"), BinaryOperator.Mul, Name("discount")), BinaryOperator.Div, Lit("100"));
  }

  /** `id, price, discount, price * discount / 100` */
  lemma SelectWithExpressionsColumns() returns (cols: seq<Phrase>)
    ensures ListFits(Expressions, Phrases(cols), false)
    ensures RenderList(Phrases(cols), false) == SelectWithExpressionsColumnsSql
    ensures Abstracts(cols) == SelectWithExpressionsTree.columns
  {
    var ratio := RatioPhrase();
    FourPhrases(Name("id"), Name("price"), Name("discount"), ratio);
    cols := [Name("id"), Name("price"), Name("discount"), ratio];
    ListFitsOf(cols, false);
  }

  /** `WHERE 100 <= price AND price < 1000 OR discount < 10 + (2 * 20)` */
  lemma SelectWithExpressionsCondition() returns (w: Option<Phrase>)
    ensures WhereFits(w)
    ensures WhereClause(w) == SelectWithExpressionsWhereSql
    ensures AbstractWhere(w) == SelectWithExpressionsTree.where
  {
    var bounds := BoundsPhrase();
    var discount := DiscountPhrase();
    w := Some(Infix(bounds, BinaryOperator.Or, discount));
  }

  /** `100 <= price AND price < 1000` */
  lemma BoundsPhrase() returns (ph: Phrase)
    ensures WellGrouped(ph) && Render(ph) == BoundsSql && ph.Infix? && ph.op == BinaryOperator.And
    ensures Abstract(ph) == Bin(Bin(Num("100"), BinaryOperator.LtEq, Id("price")), BinaryOperator.And,
                                Bin(Id("price"), BinaryOperator.Lt, Num("1000")))
  {
    var low := Infix(Lit("100"), BinaryOperator.LtEq, Name("price"));
    var high := Infix(Name("price"), BinaryOperator.Lt, Lit("1000"));
    assert Render(low) == [Nr("100"), Token.LtEq, Ident("price")];
    assert Render(high) == [Ident("price"), Token.Lt, Nr("1000")];
    ph := Infix(low, BinaryOperator.And, high);
  }

  /** `discount < 10 + (2 * 20)` */
  lemma DiscountPhrase() returns (ph: Phrase)
    ensures WellGrouped(ph) && Render(ph) == DiscountSql && ph.Infix? && ph.op == BinaryOperator.Lt
    ensures Abstract(ph) == Bin(Id("discount"), BinaryOperator.Lt,
                                Bin(Num("10"), BinaryOperator.Plus, Bin(Num("2"), BinaryOperator.Mul, Num("20"))))
  {
    var product := Group(Infix(Lit("2"), BinaryOperator.Mul, Lit("20")));
    assert Render(product) == [LeftParen, Nr("2"), Token.Mul, Nr("20"), RightParen];
    ph := Infix(Name("discount"), BinaryOperator.Lt, Infix(Lit("10"), BinaryOperator.Plus, product));
  }

  lemma ParseSelectWithExpressions(toks: Stream)
    requires Spells(toks, Start, SelectWithExpressionsSql)
    ensures ParseStatement(toks, Start).result == Ok(SelectWithExpressionsTree)
  {
    var s := SelectWithExpressionsSentence();
    ParseSentence(toks, s, Start);
  }

  /** `CREATE DATABASE test;` */
  const CreateDatabaseSql := [Kw(Keyword.Create), Kw(Keyword.Database), Ident("test"), SemiColon]

  /** A sentence that prints as the test's SQL. */
  lemma CreateDatabaseSentence() returns (s: Sentence)
    ensures WellFormed(s) && RenderSentence(s) == CreateDatabaseSql && AbstractSentence(s) == Statement.Create(Create.Database("test"))
  {
    s := CreateOf(Create.Database("test"));
  }

  lemma ParseCreateDatabase(toks: Stream)
    requires Spells(toks, Start, CreateDatabaseSql)
    ensures ParseStatement(toks, Start).result == Ok(Statement.Create(Create.Database("test")))
  {
    var s := CreateDatabaseSentence();
    ParseSentence(toks, s, Start);
  }

  /**
    `CREATE TABLE users (id INT PRIMARY KEY, name VARCHAR(255),
     email VARCHAR(255) UNIQUE);`
  */
  const IdColumnSql := [Ident("id"), Kw(Keyword.Int), Kw(Keyword.Primary), Kw(Keyword.Key)]
  const NameColumnSql := [Ident("name"), Kw(Keyword.Varchar), LeftParen, Nr("255"), RightParen]
  const EmailColumnSql := [Ident("email"), Kw(Keyword.Varchar), LeftParen, Nr("255"), RightParen, Kw(Keyword.Unique)]
  const UsersColumnsSql := IdColumnSql + ([Comma] + (NameColumnSql + ([Comma] + EmailColumnSql)))
  const CreateTableSql :=
    [Kw(Keyword.Create), Kw(Keyword.Table), Ident("users")] + ([LeftParen] + UsersColumnsSql + [RightParen]) + [SemiColon]
  const UsersColumns := [
    Column("id", DataType.Int, Some(PrimaryKey)),
    Column("name", DataType.Varchar(255), Option.None),
    Column("email", DataType.Varchar(255), Some(Constraint.Unique))]

  /** Each of the three column definitions, as written. */
  lemma UsersColumnRendered(i: nat)
    requires i < 3
    ensures BoundedColumn(UsersColumns[i])
    ensures i == 0 ==> RenderColumn(UsersColumns[i]) == IdColumnSql
    ensures i == 1 ==> RenderColumn(UsersColumns[i]) == NameColumnSql
    ensures i == 2 ==> RenderColumn(UsersColumns[i]) == EmailColumnSql
  {
    assert Decimal(255) == "255";
  }

  /** The three column definitions, as written. */
  lemma UsersColumnsFit()
    ensures ListFits(Subparser.Columns, ColumnEntries(UsersColumns), true)
  {
    var es := ColumnEntries(UsersColumns);
    forall i | 0 <= i < |es|
      ensures Fits(Subparser.Columns, es[i])
    {
      UsersColumnRendered(i);
    }
  }

  lemma UsersColumnsRendered()
    ensures Joined(ColumnEntries(UsersColumns)) == UsersColumnsSql
  {
    UsersColumnRendered(0);
    UsersColumnRendered(1);
    UsersColumnRendered(2);
    ThreeColumns(UsersColumns[0], UsersColumns[1], UsersColumns[2]);
    assert UsersColumns == [UsersColumns[0], UsersColumns[1], UsersColumns[2]];
  }

  /** A sentence that prints as the test's SQL. */
  lemma CreateTableSentence() returns (s: Sentence)
    ensures WellFormed(s) && RenderSentence(s) == CreateTableSql
    ensures AbstractSentence(s) == Statement.Create(Create.Table("users", UsersColumns))
  {
    UsersColumnsFit();
    UsersColumnsRendered();
    CreateTableWritten("users", UsersColumns);
    s := CreateOf(Create.Table("users", UsersColumns));
  }

  lemma ParseCreateTable(toks: Stream)
    requires Spells(toks, Start, CreateTableSql)
    ensures ParseStatement(toks, Start).result == Ok(Statement.Create(Create.Table("users", UsersColumns)))
  {
    var s := CreateTableSentence();
    ParseSentence(toks, s, Start);
  }

  /** `UPDATE users SET is_admin = 1;` */
  const AdminSql := [Ident("is_admin"), Token.Eq, Nr("1")]
  const SimpleUpdateSql := [Kw(Keyword.Update), Ident("users"), Kw(Keyword.Set)] + AdminSql + [SemiColon]
  const SimpleUpdateTree := Statement.Update("users", [Bin(Id("is_admin"), BinaryOperator.Eq, Num("1"))], Option.None)

  /** A sentence that prints as the test's SQL. */
  lemma SimpleUpdateSentence() returns (s: Sentence)
    ensures WellFormed(s) && RenderSentence(s) == SimpleUpdateSql && AbstractSentence(s) == SimpleUpdateTree
  {
    var admin := Infix(Name("is_admin"), BinaryOperator.Eq, Lit("1"));
    assert Render(admin) == AdminSql;
    var cols := [admin];
    ListOne(cols);
    ListFitsOf(cols, false);
    UpdateWritten("users", cols, Option.None);
    s := UpdateOf("users", cols, false, Option.None);
  }

  lemma ParseSimpleUpdate(toks: Stream)
    requires Spells(toks, Start, SimpleUpdateSql)
    ensures ParseStatement(toks, Start).result == Ok(SimpleUpdateTree)
  {
    var s := SimpleUpdateSentence();
    ParseSentence(toks, s, Start);
  }

  /** `UPDATE products SET price = price - 10, discount = 15, stock = 10 WHERE price > 100;` */
  const AssignmentsSql := [
    Ident("price"), Token.Eq, Ident("price"), Token.Minus, Nr("10"), Comma,
    Ident("discount"), Token.Eq, Nr("15"), Comma,
    Ident("stock"), Token.Eq, Nr("10")]
  const PriceAboveSql := [Kw(Keyword.Where), Ident("price"), Token.Gt, Nr("100")]
  const UpdateWhereSql :=
    [Kw(Keyword.Update), Ident("products"), Kw(Keyword.Set)] + AssignmentsSql + PriceAboveSql + [SemiColon]
  const UpdateWhereTree := Statement.Update("products",
    [Bin(Id("price"), BinaryOperator.Eq, Bin(Id("price"), BinaryOperator.Minus, Num("10"))),
     Bin(Id("discount"), BinaryOperator.Eq, Num("15")),
     Bin(Id("stock"), BinaryOperator.Eq, Num("10"))],
    Some(Bin(Id("price"), BinaryOperator.Gt, Num("100"))))

  /** A sentence that prints as the test's SQL. */
  lemma UpdateWhereSentence() returns (s: Sentence)
    ensures WellFormed(s) && RenderSentence(s) == UpdateWhereSql && AbstractSentence(s) == UpdateWhereTree
  {
    var cols := UpdateWhereAssignments();
    var w := Some(Infix(Name("price"), BinaryOperator.Gt, Lit("100")));
    assert WhereClause(w) == PriceAboveSql;
    UpdateWritten("products", cols, w);
    s := UpdateOf("products", cols, false, w);
  }

  /** `price = price - 10, discount = 15, stock = 10` */
  lemma UpdateWhereAssignments() returns (cols: seq<Phrase>)
    ensures ListFits(Expressions, Phrases(cols), false)
    ensures RenderList(Phrases(cols), false) == AssignmentsSql
    ensures Abstracts(cols) ==
      [Bin(Id("price"), BinaryOperator.Eq, Bin(Id("price"), BinaryOperator.Minus, Num("10"))),
       Bin(Id("discount"), BinaryOperator.Eq, Num("15")),
       Bin(Id("stock"), BinaryOperator.Eq, Num("10"))]
  {
    var price := Infix(Name("price"), BinaryOperator.Eq, Infix(Name("price"), BinaryOperator.Minus, Lit("10")));
    var discount := Infix(Name("discount"), BinaryOperator.Eq, Lit("15"));
    var stock := Infix(Name("stock"), BinaryOperator.Eq, Lit("10"));
    assert Render(price) == [Ident("price"), Token.Eq, Ident("price"), Token.Minus, Nr("10")];
    assert Render(discount) == [Ident("discount"), Token.Eq, Nr("15")];
    assert Render(stock) == [Ident("stock"), Token.Eq, Nr("10")];
    ThreePhrases(price, discount, stock);
    cols := [price, discount, stock];
    ListFitsOf(cols, false);
  }

  lemma ParseUpdateWhere(toks: Stream)
    requires Spells(toks, Start, UpdateWhereSql)
    ensures ParseStatement(toks, Start).result == Ok(UpdateWhereTree)
  {
    var s := UpdateWhereSentence();
    ParseSentence(toks, s, Start);
  }

  /** `DELETE FROM products;` */
  const DeleteFromSql := [Kw(Keyword.Delete), Kw(Keyword.From), Ident("products"), SemiColon]

  /** A sentence that prints as the test's SQL. */
  lemma DeleteFromSentence() returns (s: Sentence)
    ensures WellFormed(s) && RenderSentence(s) == DeleteFromSql && AbstractSentence(s) == Statement.Delete("products", Option.None)
  {
    s := DeleteOf("products", Option.None);
  }

  lemma ParseDeleteFrom(toks: Stream)
    requires Spells(toks, Start, DeleteFromSql)
    ensures ParseStatement(toks, Start).result == Ok(Statement.Delete("products", Option.None))
  {
    var s := DeleteFromSentence();
    ParseSentence(toks, s, Start);
  }

  /** `DELETE FROM products WHERE price > 5000;` */
  const PriceCapSql := [Kw(Keyword.Where), Ident("price"), Token.Gt, Nr("5000")]
  const DeleteFromWhereSql := [Kw(Keyword.Delete), Kw(Keyword.From), Ident("products")] + PriceCapSql + [SemiColon]
  const DeleteFromWhereTree := Statement.Delete("products", Some(Bin(Id("price"), BinaryOperator.Gt, Num("5000"))))

  /** A sentence that prints as the test's SQL. */
  lemma DeleteFromWhereSentence() returns (s: Sentence)
    ensures WellFormed(s) && RenderSentence(s) == DeleteFromWhereSql && AbstractSentence(s) == DeleteFromWhereTree
  {
    var w := Some(Infix(Name("price"), BinaryOperator.Gt, Lit("5000")));
    assert WhereClause(w) == PriceCapSql;
    DeleteWritten("products", w);
    s := DeleteOf("products", w);
  }

  lemma ParseDeleteFromWhere(toks: Stream)
    requires Spells(toks, Start, DeleteFromWhereSql)
    ensures ParseStatement(toks, Start).result == Ok(DeleteFromWhereTree)
  {
    var s := DeleteFromWhereSentence();
    ParseSentence(toks, s, Start);
  }

  /** `INSERT INTO users (id, name, email) VALUES (1, "Test", "test@test.com");` */
  const InsertColumnsSql := [LeftParen, Ident("id"), Comma, Ident("name"), Comma, Ident("email"), RightParen]
  const InsertValuesSql := [LeftParen, Nr("1"), Comma, Str("Test"), Comma, Str("test@test.com"), RightParen]
  const InsertIntoSql :=
    [Kw(Keyword.Insert), Kw(Keyword.Into), Ident("users")] + InsertColumnsSql + [Kw(Keyword.Values)] + InsertValuesSql +
    [SemiColon]
  const InsertIntoTree := Statement.Insert("users", ["id", "name", "email"],
                                           [Num("1"), Text("Test"), Text("test@test.com")])

  /** `(id, name, email)` */
  lemma InsertColumnsRendered()
    ensures RenderList(IdentEntries(["id", "name", "email"]), true) == InsertColumnsSql
  {
    var es := IdentEntries(["id", "name", "email"]);
    assert es == [IdentEntry("id"), IdentEntry("name"), IdentEntry("email")];
    assert es[1..] == [IdentEntry("name"), IdentEntry("email")] && es[1..][1..] == [IdentEntry("email")];
    assert CommaTail(es[1..][1..]) == [Comma, Ident("email")];
    assert CommaTail(es[1..]) == [Comma, Ident("name"), Comma, Ident("email")];
  }

  /** `(1, "Test", "test@test.com")` */
  lemma InsertValues() returns (values: seq<Phrase>)
    ensures ListFits(Expressions, Phrases(values), true)
    ensures RenderList(Phrases(values), true) == InsertValuesSql
    ensures Abstracts(values) == [Num("1"), Text("Test"), Text("test@test.com")]
  {
    values := [Lit("1"), LitText("Test"), LitText("test@test.com")];
    ThreePhrases(values[0], values[1], values[2]);
    ListFitsOf(values, true);
  }

  /** A sentence that prints as the test's SQL. */
  lemma InsertIntoSentence() returns (s: Sentence)
    ensures WellFormed(s) && RenderSentence(s) == InsertIntoSql && AbstractSentence(s) == InsertIntoTree
  {
    InsertColumnsRendered();
    var values := InsertValues();
    InsertWritten("users", ["id", "name", "email"], values);
    s := InsertOf("users", ["id", "name", "email"], values, true);
  }

  lemma ParseInsertInto(toks: Stream)
    requires Spells(toks, Start, InsertIntoSql)
    ensures ParseStatement(toks, Start).result == Ok(InsertIntoTree)
  {
    var s := InsertIntoSentence();
    ParseSentence(toks, s, Start);
  }

  /** `DROP DATABASE test;` */
  const DropDatabaseSql := [Kw(Keyword.Drop), Kw(Keyword.Database), Ident("test"), SemiColon]

  /** A sentence that prints as the test's SQL. */
  lemma DropDatabaseSentence() returns (s: Sentence)
    ensures WellFormed(s) && RenderSentence(s) == DropDatabaseSql && AbstractSentence(s) == Statement.Drop(Drop.Database("test"))
  {
    s := DropOf(Drop.Database("test"));
  }

  lemma ParseDropDatabase(toks: Stream)
    requires Spells(toks, Start, DropDatabaseSql)
    ensures ParseStatement(toks, Start).result == Ok(Statement.Drop(Drop.Database("test")))
  {
    var s := DropDatabaseSentence();
    ParseSentence(toks, s, Start);
  }

  /** `DROP TABLE test;` */
  const DropTableSql := [Kw(Keyword.Drop), Kw(Keyword.Table), Ident("test"), SemiColon]

  /** A sentence that prints as the test's SQL. */
  lemma DropTableSentence() returns (s: Sentence)
    ensures WellFormed(s) && RenderSentence(s) == DropTableSql && AbstractSentence(s) == Statement.Drop(Drop.Table("test"))
  {
    s := DropOf(Drop.Table("test"));
  }

  lemma ParseDropTable(toks: Stream)
    requires Spells(toks, Start, DropTableSql)
    ensures ParseStatement(toks, Start).result == Ok(Statement.Drop(Drop.Table("test")))
  {
    var s := DropTableSentence();
    ParseSentence(toks, s, Start);
  }

  /** `DROP TABLE test; UPDATE users SET is_admin = 1; SELECT * FROM products;` */
  const SelectProductsSql := [Kw(Keyword.Select), Token.Mul, Kw(Keyword.From), Ident("products"), SemiColon]
  const MultipleStatementsSql := DropTableSql + (SimpleUpdateSql + SelectProductsSql)
  const MultipleStatementsTrees :=
    [Statement.Drop(Drop.Table("test")), SimpleUpdateTree, Statement.Select([Wildcard], "products", Option.None)]

  lemma SelectProductsSentence() returns (s: Sentence)
    ensures WellFormed(s) && RenderSentence(s) == SelectProductsSql
    ensures AbstractSentence(s) == Statement.Select([Wildcard], "products", Option.None)
  {
    s := SelectOf([Star], false, "products", Option.None);
  }

  /** Sentences that print as the test's script. */
  lemma MultipleStatementsSentences() returns (ss: seq<Sentence>)
    ensures forall i | 0 <= i < |ss| :: WellFormed(ss[i])
    ensures RenderSentences(ss) == MultipleStatementsSql && AbstractSentences(ss) == MultipleStatementsTrees
  {
    var drop := DropTableSentence();
    var update := SimpleUpdateSentence();
    var select := SelectProductsSentence();
    ss := [drop, update, select];
    assert ss[1..] == [update, select] && ss[1..][1..] == [select] && ss[1..][1..][1..] == [];
    assert RenderSentences(ss[1..][1..]) == SelectProductsSql + [];
    assert RenderSentences(ss[1..]) == SimpleUpdateSql + (SelectProductsSql + []);
    assert SelectProductsSql + [] == SelectProductsSql;
  }

  lemma ParseMultipleStatements(toks: Stream)
    requires Spells(toks, Start, MultipleStatementsSql + [Eof])
    ensures TryParse(toks) == Ok(MultipleStatementsTrees)
  {
    var ss := MultipleStatementsSentences();
    SpellsConcat(toks, Start, MultipleStatementsSql, [Eof]);
    EofEnds(toks, Consume(toks, Start, MultipleStatementsSql));
    ScriptRoundTrip(toks, ss);
  }

  // ---------------------------------------------------------------------------
  // Expressions, each followed by the end marker
  // ---------------------------------------------------------------------------

  lemma ExpressionExample(toks: Stream, ph: Phrase, sql: seq<Token>)
    requires WellGrouped(ph) && Render(ph) == sql
    requires Spells(toks, Start, sql + [Eof])
    ensures ParseExpression(toks, Start).result == Ok(Abstract(ph))
  {
    SpellsConcat(toks, Start, sql, [Eof]);
    SeesNext(toks, Consume(toks, Start, sql), Eof);
    ParsePhrase(toks, ph, 0, Start);
  }

  /** `price * discount / 100 < 10 + 20 * 30` */
  const ArithmeticSql :=
    [Ident("price"), Token.Mul, Ident("discount"), Token.Div, Nr("100")] + [Token.Lt] +
    [Nr("10"), Token.Plus, Nr("20"), Token.Mul, Nr("30")]
  const ArithmeticTree :=
    Bin(Bin(Bin(Id("price"), BinaryOperator.Mul, Id("discount")), BinaryOperator.Div, Num("100")),
        BinaryOperator.Lt,
        Bin(Num("10"), BinaryOperator.Plus, Bin(Num("20"), BinaryOperator.Mul, Num("30"))))

  /** A phrase that prints as the test's SQL. */
  lemma ArithmeticPhrase() returns (ph: Phrase)
    ensures WellGrouped(ph) && Render(ph) == ArithmeticSql && Abstract(ph) == ArithmeticTree
  {
    var ratio := Infix(Infix(Name("price"), BinaryOperator.Mul, Name("discount")), BinaryOperator.Div, Lit("100"));
    var sum := Infix(Lit("10"), BinaryOperator.Plus, Infix(Lit("20"), BinaryOperator.Mul, Lit("30")));
    assert Render(ratio) == [Ident("price"), Token.Mul, Ident("discount"), Token.Div, Nr("100")];
    assert Render(sum) == [Nr("10"), Token.Plus, Nr("20"), Token.Mul, Nr("30")];
    ph := Infix(ratio, BinaryOperator.Lt, sum);
  }

  lemma ArithmeticOperatorPrecedence(toks: Stream)
    requires Spells(toks, Start, ArithmeticSql + [Eof])
    ensures ParseExpression(toks, Start).result == Ok(ArithmeticTree)
  {
    var ph := ArithmeticPhrase();
    ExpressionExample(toks, ph, ArithmeticSql);
  }

  /** `price * discount >= 10 - (20 + 50) / (2 * (4 + (1 - 1)))` */
  const DivisorSql :=
    [LeftParen, Nr("2"), Token.Mul, LeftParen, Nr("4"), Token.Plus,
     LeftParen, Nr("1"), Token.Minus, Nr("1"), RightParen, RightParen, RightParen]
  const NestedSql :=
    [Ident("price"), Token.Mul, Ident("discount")] + [Token.GtEq] +
    ([Nr("10")] + [Token.Minus] + ([LeftParen, Nr("20"), Token.Plus, Nr("50"), RightParen] + [Token.Div] + DivisorSql))
  const NestedTree :=
    Bin(Bin(Id("price"), BinaryOperator.Mul, Id("discount")),
        BinaryOperator.GtEq,
        Bin(Num("10"), BinaryOperator.Minus,
            Bin(Bin(Num("20"), BinaryOperator.Plus, Num("50")),
                BinaryOperator.Div,
                Bin(Num("2"), BinaryOperator.Mul,
                    Bin(Num("4"), BinaryOperator.Plus, Bin(Num("1"), BinaryOperator.Minus, Num("1")))))))

  /** `(2 * (4 + (1 - 1)))` */
  lemma DivisorPhrase() returns (ph: Phrase)
    ensures ph.Group? && WellGrouped(ph) && Render(ph) == DivisorSql
    ensures Abstract(ph) == Bin(Num("2"), BinaryOperator.Mul,
                                Bin(Num("4"), BinaryOperator.Plus, Bin(Num("1"), BinaryOperator.Minus, Num("1"))))
  {
    var difference := Group(Infix(Lit("1"), BinaryOperator.Minus, Lit("1")));
    var inner := Group(Infix(Lit("4"), BinaryOperator.Plus, difference));
    assert Render(difference) == [LeftParen, Nr("1"), Token.Minus, Nr("1"), RightParen];
    assert Render(inner) == [LeftParen, Nr("4"), Token.Plus, LeftParen, Nr("1"), Token.Minus, Nr("1"), RightParen, RightParen];
    ph := Group(Infix(Lit("2"), BinaryOperator.Mul, inner));
  }

  /** A phrase that prints as the test's SQL. */
  lemma NestedPhrase() returns (ph: Phrase)
    ensures WellGrouped(ph) && Render(ph) == NestedSql && Abstract(ph) == NestedTree
  {
    var divisor := DivisorPhrase();
    var sum := Group(Infix(Lit("20"), BinaryOperator.Plus, Lit("50")));
    assert WellGrouped(sum) && Render(sum) == [LeftParen, Nr("20"), Token.Plus, Nr("50"), RightParen];
    var quotient := Infix(sum, BinaryOperator.Div, divisor);
    assert WellGrouped(quotient) && Render(quotient) == Render(sum) + [Token.Div] + DivisorSql;
    var right := Infix(Lit("10"), BinaryOperator.Minus, quotient);
    assert WellGrouped(right) && Render(right) == [Nr("10")] + [Token.Minus] + Render(quotient);
    assert Abstract(sum) == Bin(Num("20"), BinaryOperator.Plus, Num("50"));
    assert Abstract(quotient) == NestedTree.right.right;
    assert Abstract(right) == NestedTree.right;
    ph := Infix(Infix(Name("price"), BinaryOperator.Mul, Name("discount")), BinaryOperator.GtEq, right);
  }

  lemma NestedArithmeticPrecedence(toks: Stream)
    requires Spells(toks, Start, NestedSql + [Eof])
    ensures ParseExpression(toks, Start).result == Ok(NestedTree)
  {
    var ph := NestedPhrase();
    ExpressionExample(toks, ph, NestedSql);
  }

  /** `100 <= price AND price <= 200 OR price > 1000` */
  const AndOrSql :=
    [Nr("100"), Token.LtEq, Ident("price")] + [Kw(Keyword.And)] + [Ident("price"), Token.LtEq, Nr("200")] +
    [Kw(Keyword.Or)] + [Ident("price"), Token.Gt, Nr("1000")]
  const AndOrTree :=
    Bin(Bin(Bin(Num("100"), BinaryOperator.LtEq, Id("price")), BinaryOperator.And,
            Bin(Id("price"), BinaryOperator.LtEq, Num("200"))),
        BinaryOperator.Or,
        Bin(Id("price"), BinaryOperator.Gt, Num("1000")))

  /** A phrase that prints as the test's SQL. */
  lemma AndOrPhrase() returns (ph: Phrase)
    ensures WellGrouped(ph) && Render(ph) == AndOrSql && Abstract(ph) == AndOrTree
  {
    var low := Infix(Lit("100"), BinaryOperator.LtEq, Name("price"));
    var high := Infix(Name("price"), BinaryOperator.LtEq, Lit("200"));
    var over := Infix(Name("price"), BinaryOperator.Gt, Lit("1000"));
    assert Render(low) == [Nr("100"), Token.LtEq, Ident("price")];
    assert Render(high) == [Ident("price"), Token.LtEq, Nr("200")];
    assert Render(over) == [Ident("price"), Token.Gt, Nr("1000")];
    ph := Infix(Infix(low, BinaryOperator.And, high), BinaryOperator.Or, over);
  }

  lemma AndOrOperatorsPrecedence(toks: Stream)
    requires Spells(toks, Start, AndOrSql + [Eof])
    ensures ParseExpression(toks, Start).result == Ok(AndOrTree)
  {
    var ph := AndOrPhrase();
    ExpressionExample(toks, ph, AndOrSql);
  }
}
