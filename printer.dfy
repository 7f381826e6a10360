/**
  The inverse of the parser: concrete syntax that records where parentheses
  are written, how it is spelled as tokens, and the tree it stands for.

  A `Phrase` is an expression as written, parentheses included; `Abstract`
  drops the parentheses. A phrase is well grouped when its parentheses are
  sufficient for the parser's precedence rules: an operator's left operand is
  unparenthesised only if it binds at least as tightly, its right operand only
  if it binds strictly more tightly. `Minimal` writes every expression with
  just the parentheses it needs. A `Sentence` is a statement as written.
*/
module Printer {
  import opened Tokens
  import opened Ast
  import opened Grammar

  // ---------------------------------------------------------------------------
  // Operators
  // ---------------------------------------------------------------------------

  /** Binding strength of each operator: OR < AND < comparisons < + - < * /. */
  function Precedence(op: BinaryOperator): (p: nat)
    ensures 5 <= p <= 40
  {
    match op
    case Or => 5
    case And => 10
    case Eq | Neq | Gt | GtEq | Lt | LtEq => 20
    case Plus | Minus => 30
    case Mul | Div => 40
  }

  function OperatorToken(op: BinaryOperator): Token {
    match op
    case Plus => Token.Plus
    case Minus => Token.Minus
    case Mul => Token.Mul
    case Div => Token.Div
    case Eq => Token.Eq
    case Neq => Token.Neq
    case Gt => Token.Gt
    case GtEq => Token.GtEq
    case Lt => Token.Lt
    case LtEq => Token.LtEq
    case And => Keyword(Keyword.And)
    case Or => Keyword(Keyword.Or)
  }

  /** The parser reads each operator's token back as that operator, at that precedence. */
  lemma OperatorTokenAgrees(op: BinaryOperator)
    ensures InfixOperator(OperatorToken(op)) == Some(op)
    ensures TokenPrecedence(OperatorToken(op)) == Precedence(op)
  {
  }

  // ---------------------------------------------------------------------------
  // Expressions as written
  // ---------------------------------------------------------------------------

  datatype Phrase =
    | Name(name: string)
    | Star
    | Literal(value: Value)
    | Group(inner: Phrase)
    | Infix(left: Phrase, op: BinaryOperator, right: Phrase)

  function Abstract(ph: Phrase): Expression {
    match ph
    case Name(n) => Expression.Identifier(n)
    case Star => Wildcard
    case Literal(v) => Expression.Value(v)
    case Group(x) => Abstract(x)
    case Infix(l, op, r) => BinaryOperation(Abstract(l), op, Abstract(r))
  }

  function Render(ph: Phrase): (ts: seq<Token>)
    ensures |ts| >= 1
  {
    match ph
    case Name(n) => [Token.Identifier(n)]
    case Star => [Token.Mul]
    case Literal(Number(d)) => [Token.Number(d)]
    case Literal(String(s)) => [Token.String(s)]
    case Group(x) => [LeftParen] + Render(x) + [RightParen]
    case Infix(l, op, r) => Render(l) + [OperatorToken(op)] + Render(r)
  }

  /** A phrase parsed at context precedence `p` must bind more tightly than `p`. */
  predicate Binds(ph: Phrase, p: nat) {
    ph.Infix? ==> Precedence(ph.op) > p
  }

  predicate WellGrouped(ph: Phrase) {
    match ph
    case Group(x) => WellGrouped(x)
    case Infix(l, op, r) =>
      && WellGrouped(l) && WellGrouped(r)
      && (l.Infix? ==> Precedence(l.op) >= Precedence(op))
      && (r.Infix? ==> Precedence(r.op) > Precedence(op))
    case _ => true
  }

  /** Whether the phrase is written starting with an opening parenthesis. */
  predicate LeadingGroup(ph: Phrase) {
    ph.Group? || (ph.Infix? && LeadingGroup(ph.left))
  }

  lemma {:induction false} RenderStart(ph: Phrase)
    ensures Render(ph)[0] == LeftParen <==> LeadingGroup(ph)
  {
    match ph
    case Infix(l, op, r) =>
      RenderStart(l);
      assert Render(ph)[0] == Render(l)[0];
    case _ =>
  }

  /**
    The phrase with the fewest parentheses that stands for `e`: an operand is
    parenthesised exactly when the precedence rules would otherwise regroup it.
  */
  function Minimal(e: Expression): (ph: Phrase)
    ensures Abstract(ph) == e && WellGrouped(ph)
    ensures ph.Infix? <==> e.BinaryOperation?
    ensures ph.Infix? ==> ph.op == e.operator
  {
    match e
    case Identifier(n) => Name(n)
    case Wildcard => Star
    case Value(v) => Literal(v)
    case BinaryOperation(l, op, r) =>
      var left := if l.BinaryOperation? && Precedence(l.operator) < Precedence(op) then Group(Minimal(l)) else Minimal(l);
      var right := if r.BinaryOperation? && Precedence(r.operator) <= Precedence(op) then Group(Minimal(r)) else Minimal(r);
      Infix(left, op, right)
  }

  // ---------------------------------------------------------------------------
  // Column definitions
  // ---------------------------------------------------------------------------

  function Digit(d: nat): (c: char)
    requires d < 10
    ensures IsDigit(c) && (c - '0') as nat == d
  {
    ('0' as int + d) as char
  }

  /** The decimal numeral of `n`, without leading zeros. */
  function Decimal(n: nat): (s: string)
    ensures |s| >= 1 && AllDigits(s) && DigitsValue(s) == n
    ensures s[0] != '+'
  {
    if n < 10 then [Digit(n)]
    else
      var s := Decimal(n / 10) + [Digit(n % 10)];
      assert s[..|s| - 1] == Decimal(n / 10);
      s
  }

  /** Every length the parser accepts is read back from its numeral. */
  lemma LengthRoundTrip(n: nat)
    requires n <= MaxVarcharLength
    ensures ParseLength(Decimal(n)) == Some(n)
  {
  }

  function RenderDataType(t: DataType): seq<Token> {
    match t
    case Int => [Keyword(Keyword.Int)]
    case Varchar(n) => [Keyword(Keyword.Varchar), LeftParen, Token.Number(Decimal(n)), RightParen]
  }

  function RenderConstraint(c: Option<Constraint>): seq<Token> {
    match c
    case None => []
    case Some(PrimaryKey) => [Keyword(Primary), Keyword(Key)]
    case Some(Unique) => [Keyword(Keyword.Unique)]
  }

  function RenderColumn(c: Column): seq<Token> {
    [Token.Identifier(c.name)] + RenderDataType(c.dataType) + RenderConstraint(c.constraint)
  }

  // ---------------------------------------------------------------------------
  // Comma-separated lists
  // ---------------------------------------------------------------------------

  /** One list entry as written, for each kind of list. */
  datatype Entry = ExprEntry(phrase: Phrase) | ColumnEntry(column: Column) | IdentEntry(ident: string)

  /** The entry can be read by the given sub-parser. */
  predicate Fits(sub: Subparser, en: Entry) {
    match sub
    case Expressions => en.ExprEntry? && WellGrouped(en.phrase)
    case Columns => en.ColumnEntry? && BoundedColumn(en.column)
    case Identifiers => en.IdentEntry?
  }

  function RenderEntry(en: Entry): (ts: seq<Token>)
    ensures |ts| >= 1
  {
    match en
    case ExprEntry(ph) => Render(ph)
    case ColumnEntry(c) => RenderColumn(c)
    case IdentEntry(n) => [Token.Identifier(n)]
  }

  function EntryItem(en: Entry): Item {
    match en
    case ExprEntry(ph) => ExprItem(Abstract(ph))
    case ColumnEntry(c) => ColumnItem(c)
    case IdentEntry(n) => IdentItem(n)
  }

  function EntryItems(es: seq<Entry>): (items: seq<Item>)
    ensures |items| == |es|
    ensures forall i | 0 <= i < |es| :: items[i] == EntryItem(es[i])
  {
    if es == [] then [] else [EntryItem(es[0])] + EntryItems(es[1..])
  }

  /** Each entry preceded by a comma. */
  function CommaTail(es: seq<Entry>): seq<Token> {
    if es == [] then [] else [Comma] + (RenderEntry(es[0]) + CommaTail(es[1..]))
  }

  /** Entries separated by commas. */
  function Joined(es: seq<Entry>): seq<Token>
    requires |es| >= 1
  {
    RenderEntry(es[0]) + CommaTail(es[1..])
  }

  /** Entries separated by commas, in parentheses when `grouped`. */
  function RenderList(es: seq<Entry>, grouped: bool): seq<Token>
    requires |es| >= 1
  {
    if grouped then [LeftParen] + Joined(es) + [RightParen] else Joined(es)
  }

  /**
    A list the parser reads back: at least one entry, each fitting the
    sub-parser; an unparenthesised list must not start with a parenthesis,
    which the parser would take as the list's own.
  */
  predicate ListFits(sub: Subparser, es: seq<Entry>, grouped: bool) {
    && |es| >= 1
    && (forall i | 0 <= i < |es| :: Fits(sub, es[i]))
    && (!grouped ==> RenderEntry(es[0])[0] != LeftParen)
  }

  function Phrases(ps: seq<Phrase>): (es: seq<Entry>)
    ensures |es| == |ps| && forall i | 0 <= i < |ps| :: es[i] == ExprEntry(ps[i])
  {
    seq(|ps|, i requires 0 <= i < |ps| => ExprEntry(ps[i]))
  }

  function ColumnEntries(cs: seq<Column>): (es: seq<Entry>)
    ensures |es| == |cs| && forall i | 0 <= i < |cs| :: es[i] == ColumnEntry(cs[i])
  {
    seq(|cs|, i requires 0 <= i < |cs| => ColumnEntry(cs[i]))
  }

  function IdentEntries(ns: seq<string>): (es: seq<Entry>)
    ensures |es| == |ns| && forall i | 0 <= i < |ns| :: es[i] == IdentEntry(ns[i])
  {
    seq(|ns|, i requires 0 <= i < |ns| => IdentEntry(ns[i]))
  }

  function Abstracts(ps: seq<Phrase>): (es: seq<Expression>)
    ensures |es| == |ps| && forall i | 0 <= i < |ps| :: es[i] == Abstract(ps[i])
  {
    seq(|ps|, i requires 0 <= i < |ps| => Abstract(ps[i]))
  }

  // ---------------------------------------------------------------------------
  // Statements as written
  // ---------------------------------------------------------------------------

  datatype Sentence =
    | SelectOf(columns: seq<Phrase>, grouped: bool, from: string, where: Option<Phrase>)
    | CreateOf(create: Create)
    | UpdateOf(table: string, columns: seq<Phrase>, grouped: bool, where: Option<Phrase>)
    | InsertOf(into: string, columnNames: seq<string>, values: seq<Phrase>, grouped: bool)
    | DeleteOf(from: string, where: Option<Phrase>)
    | DropOf(drop: Drop)

  function AbstractWhere(w: Option<Phrase>): Option<Expression> {
    match w
    case None => Option.None
    case Some(ph) => Some(Abstract(ph))
  }

  function AbstractSentence(s: Sentence): Statement {
    match s
    case SelectOf(cols, _, from, w) => Statement.Select(Abstracts(cols), from, AbstractWhere(w))
    case CreateOf(c) => Statement.Create(c)
    case UpdateOf(t, cols, _, w) => Statement.Update(t, Abstracts(cols), AbstractWhere(w))
    case InsertOf(into, names, values, _) => Statement.Insert(into, names, Abstracts(values))
    case DeleteOf(from, w) => Statement.Delete(from, AbstractWhere(w))
    case DropOf(d) => Statement.Drop(d)
  }

  function WhereClause(w: Option<Phrase>): seq<Token> {
    match w
    case None => []
    case Some(ph) => [Keyword(Where)] + Render(ph)
  }

  predicate WhereFits(w: Option<Phrase>) {
    w.Some? ==> WellGrouped(w.value)
  }

  predicate WellFormed(s: Sentence) {
    match s
    case SelectOf(cols, grouped, _, w) => ListFits(Expressions, Phrases(cols), grouped) && WhereFits(w)
    case CreateOf(Table(_, cols)) => ListFits(Subparser.Columns, ColumnEntries(cols), true)
    case UpdateOf(_, cols, grouped, w) => ListFits(Expressions, Phrases(cols), grouped) && WhereFits(w)
    case InsertOf(_, names, values, grouped) =>
      ListFits(Identifiers, IdentEntries(names), true) && ListFits(Expressions, Phrases(values), grouped)
    case DeleteOf(_, w) => WhereFits(w)
    case _ => true
  }

  /** The keyword a sentence starts with. */
  function Leading(s: Sentence): Keyword {
    match s
    case SelectOf(_, _, _, _) => Keyword.Select
    case CreateOf(_) => Keyword.Create
    case UpdateOf(_, _, _, _) => Keyword.Update
    case InsertOf(_, _, _, _) => Keyword.Insert
    case DeleteOf(_, _) => Keyword.Delete
    case DropOf(_) => Keyword.Drop
  }

  /** A table name and the optional `WHERE` clause after it. */
  function FromWhere(from: string, w: Option<Phrase>): seq<Token> {
    [Token.Identifier(from)] + WhereClause(w)
  }

  /** What follows the leading keyword, up to the terminator. */
  function Body(s: Sentence): seq<Token>
    requires WellFormed(s)
  {
    match s
    case SelectOf(cols, grouped, from, w) =>
      RenderList(Phrases(cols), grouped) + ([Keyword(From)] + FromWhere(from, w))
    case CreateOf(Database(n)) => [Keyword(Keyword.Database), Token.Identifier(n)]
    case CreateOf(Table(n, cols)) =>
      [Keyword(Keyword.Table), Token.Identifier(n)] + RenderList(ColumnEntries(cols), true)
    case UpdateOf(t, cols, grouped, w) =>
      [Token.Identifier(t), Keyword(Set)] + (RenderList(Phrases(cols), grouped) + WhereClause(w))
    case InsertOf(into, names, values, grouped) =>
      [Keyword(Into), Token.Identifier(into)] +
      (RenderList(IdentEntries(names), true) + ([Keyword(Keyword.Values)] + RenderList(Phrases(values), grouped)))
    case DeleteOf(from, w) => [Keyword(From)] + FromWhere(from, w)
    case DropOf(Database(n)) => [Keyword(Keyword.Database), Token.Identifier(n)]
    case DropOf(Table(n)) => [Keyword(Keyword.Table), Token.Identifier(n)]
  }

  function RenderSentence(s: Sentence): seq<Token>
    requires WellFormed(s)
  {
    [Keyword(Leading(s))] + (Body(s) + [SemiColon])
  }

  function RenderSentences(ss: seq<Sentence>): seq<Token>
    requires forall i | 0 <= i < |ss| :: WellFormed(ss[i])
  {
    if ss == [] then [] else RenderSentence(ss[0]) + RenderSentences(ss[1..])
  }

  function AbstractSentences(ss: seq<Sentence>): (stmts: seq<Statement>)
    ensures |stmts| == |ss| && forall i | 0 <= i < |ss| :: stmts[i] == AbstractSentence(ss[i])
  {
    seq(|ss|, i requires 0 <= i < |ss| => AbstractSentence(ss[i]))
  }

  // ---------------------------------------------------------------------------
  // Printing statements
  // ---------------------------------------------------------------------------

  /**
    The statements the parser can return: every list has at least one entry
    and every VARCHAR length fits the target's `usize`.
  */
  predicate Printable(s: Statement) {
    match s
    case Select(cols, _, _) => |cols| >= 1
    case Create(Table(_, cols)) => |cols| >= 1 && forall i | 0 <= i < |cols| :: BoundedColumn(cols[i])
    case Update(_, cols, _) => |cols| >= 1
    case Insert(_, names, values) => |names| >= 1 && |values| >= 1
    case _ => true
  }

  function Minimals(es: seq<Expression>): (ps: seq<Phrase>)
    ensures |ps| == |es| && forall i | 0 <= i < |es| :: ps[i] == Minimal(es[i])
    ensures Abstracts(ps) == es
  {
    seq(|es|, i requires 0 <= i < |es| => Minimal(es[i]))
  }

  function MinimalWhere(w: Option<Expression>): (r: Option<Phrase>)
    ensures WhereFits(r) && AbstractWhere(r) == w
  {
    match w
    case None => Option.None
    case Some(e) => Some(Minimal(e))
  }

  /**
    Whether an expression list must be printed in parentheses: only when its
    first entry starts with a parenthesis, which the parser would otherwise
    take as the list's own.
  */
  function NeedsGroup(ps: seq<Phrase>): bool
    requires |ps| >= 1
  {
    Render(ps[0])[0] == LeftParen
  }

  /** A printable statement as the parser reads it back: minimal phrases, parentheses only where needed. */
  function SentenceOf(s: Statement): (r: Sentence)
    requires Printable(s)
    ensures WellFormed(r) && AbstractSentence(r) == s
  {
    match s
    case Select(cols, from, w) =>
      var ps := Minimals(cols);
      SelectOf(ps, NeedsGroup(ps), from, MinimalWhere(w))
    case Create(c) => CreateOf(c)
    case Update(t, cols, w) =>
      var ps := Minimals(cols);
      UpdateOf(t, ps, NeedsGroup(ps), MinimalWhere(w))
    case Insert(into, names, values) =>
      var ps := Minimals(values);
      InsertOf(into, names, ps, NeedsGroup(ps))
    case Delete(from, w) => DeleteOf(from, MinimalWhere(w))
    case Drop(d) => DropOf(d)
  }

  function SentencesOf(stmts: seq<Statement>): (ss: seq<Sentence>)
    requires forall i | 0 <= i < |stmts| :: Printable(stmts[i])
    ensures |ss| == |stmts| && forall i | 0 <= i < |ss| :: ss[i] == SentenceOf(stmts[i]) && WellFormed(ss[i])
    ensures AbstractSentences(ss) == stmts
  {
    seq(|stmts|, i requires 0 <= i < |stmts| && Printable(stmts[i]) => SentenceOf(stmts[i]))
  }
}
