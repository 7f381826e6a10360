/**
  Column definitions and comma-separated lists are read back from their
  spelling: each entry's tree, in order, one item per entry.
*/
module ListRoundTrip {
  import opened Tokens
  import opened Ast
  import opened Grammar
  import opened Printer
  import opened Spelling
  import opened RoundTrip

  /**
    The parse outcome `o` is `v`, read from exactly the tokens `ts` spelled
    from `st`; the parser may or may not have skipped the whitespace after them.
  */
  predicate Reads<T(==)>(toks: Stream, st: Cursor, ts: seq<Token>, o: Outcome<T>, v: T)
    requires st.pos <= |toks|
  {
    && Spells(toks, st, ts)
    && o.result == Ok(v)
    && o.cursor.pos <= |toks|
    && Settle(toks, o.cursor) == Settle(toks, Consume(toks, st, ts))
  }

  /** A token that ends an entry: no operator, and no constraint keyword. */
  predicate Ends(t: Token) {
    TokenPrecedence(t) == 0 && t != Keyword(Primary) && t != Keyword(Keyword.Unique)
  }

  /** The tokens that follow an entry in a statement: none of them continues it. */
  lemma Terminators()
    ensures Ends(Comma) && Ends(SemiColon) && Ends(Keyword(From))
    ensures SemiColon != Comma && Keyword(From) != Comma
  {
  }

  // ---------------------------------------------------------------------------
  // Column definitions
  // ---------------------------------------------------------------------------

  lemma ParseDataTypeSpelled(toks: Stream, t: DataType, st: Cursor)
    requires st.pos <= |toks| && (t.Varchar? ==> t.length <= MaxVarcharLength)
    requires Spells(toks, st, RenderDataType(t))
    ensures ParseDataType(toks, st) == Outcome(Ok(t), Consume(toks, st, RenderDataType(t)))
  {
    var ts := RenderDataType(t);
    NextSpelled(toks, st, ts);
    match t
    case Int =>
    case Varchar(n) =>
      assert ts[1..] == [LeftParen, Token.Number(Decimal(n)), RightParen];
      ParseLengthSpelled(toks, n, Advance(toks, st));
      VarcharRead(toks, st, n, Consume(toks, st, ts));
  }

  /** The VARCHAR branch of `ParseDataType`, once its length is read. */
  lemma VarcharRead(toks: Stream, st: Cursor, n: nat, c: Cursor)
    requires st.pos <= |toks| && NextToken(toks, st).result == Ok(Keyword(Keyword.Varchar))
    requires ParseVarcharLength(toks, NextToken(toks, st).cursor) == Outcome(Ok(n), c)
    ensures ParseDataType(toks, st) == Outcome(Ok(DataType.Varchar(n)), c)
  {
  }

  /** `( length )` is read back as the length it spells. */
  lemma ParseLengthSpelled(toks: Stream, n: nat, st: Cursor)
    requires st.pos <= |toks| && n <= MaxVarcharLength
    requires Spells(toks, st, [LeftParen, Token.Number(Decimal(n)), RightParen])
    ensures ParseVarcharLength(toks, st) == Outcome(Ok(n), Consume(toks, st, [LeftParen, Token.Number(Decimal(n)), RightParen]))
  {
    var ts := [LeftParen, Token.Number(Decimal(n)), RightParen];
    NextSpelled(toks, st, ts);
    var afterOpen := Advance(toks, st);
    assert ts[1..] == [Token.Number(Decimal(n)), RightParen];
    NextSpelled(toks, afterOpen, ts[1..]);
    var afterLength := Advance(toks, afterOpen);
    assert ts[1..][1..] == [RightParen];
    NextSpelled(toks, afterLength, [RightParen]);
    LengthRoundTrip(n);
  }

  lemma ParseConstraintSpelled(toks: Stream, k: Option<Constraint>, next: Token, st: Cursor)
    requires st.pos <= |toks| && Spells(toks, st, RenderConstraint(k))
    requires Sees(toks, Consume(toks, st, RenderConstraint(k)), next) && Ends(next)
    ensures Reads(toks, st, RenderConstraint(k), ParseConstraint(toks, st), k)
  {
    var ts := RenderConstraint(k);
    match k
    case None =>
      SeesNext(toks, st, next);
      SettleTwice(toks, st);
    case Some(PrimaryKey) =>
      NextSpelled(toks, st, ts);
      NextSpelled(toks, Advance(toks, st), ts[1..]);
    case Some(Unique) =>
      NextSpelled(toks, st, ts);
  }

  /** A column definition, followed by a token that cannot continue it, is read back. */
  lemma ParseColumnSpelled(toks: Stream, c: Column, next: Token, st: Cursor)
    requires st.pos <= |toks| && BoundedColumn(c) && Spells(toks, st, RenderColumn(c))
    requires Sees(toks, Consume(toks, st, RenderColumn(c)), next) && Ends(next)
    ensures Reads(toks, st, RenderColumn(c), ParseColumn(toks, st), c)
  {
    var dataType := RenderDataType(c.dataType);
    var constraint := RenderConstraint(c.constraint);
    assert RenderColumn(c) == [Token.Identifier(c.name)] + (dataType + constraint);
    Lead(toks, st, Token.Identifier(c.name), dataType + constraint);
    var a := Advance(toks, st);
    IdentifierRead(toks, st, c.name, a);
    var mid := SplitAt(toks, a, dataType, constraint, next);
    ParseDataTypeSpelled(toks, c.dataType, a);
    ParseConstraintSpelled(toks, c.constraint, next, mid);
    ColumnSteps(toks, st, c.name, a, c.dataType, mid, c.constraint, ParseConstraint(toks, mid).cursor);
  }

  /** A column definition is read when its name, data type and constraint are. */
  lemma ColumnSteps(toks: Stream, st: Cursor, name: string, a: Cursor, t: DataType, mid: Cursor,
                    k: Option<Constraint>, e: Cursor)
    requires st.pos <= |toks| && a.pos <= |toks| && mid.pos <= |toks|
    requires ParseIdentifier(toks, st) == Outcome(Ok(name), a)
    requires ParseDataType(toks, a) == Outcome(Ok(t), mid)
    requires ParseConstraint(toks, mid) == Outcome(Ok(k), e)
    ensures ParseColumn(toks, st) == Outcome(Ok(Column(name, t, k)), e)
  {
  }

  /** A name read by `NextToken` is what `ParseIdentifier` returns. */
  lemma IdentifierRead(toks: Stream, st: Cursor, n: string, a: Cursor)
    requires st.pos <= |toks| && NextToken(toks, st) == Outcome(Ok(Token.Identifier(n)), a)
    ensures ParseIdentifier(toks, st) == Outcome(Ok(n), a)
  {
  }

  // ---------------------------------------------------------------------------
  // Lists
  // ---------------------------------------------------------------------------

  lemma ParseEntrySpelled(toks: Stream, sub: Subparser, en: Entry, next: Token, st: Cursor)
    requires st.pos <= |toks| && Fits(sub, en) && Spells(toks, st, RenderEntry(en))
    requires Sees(toks, Consume(toks, st, RenderEntry(en)), next) && Ends(next)
    ensures Reads(toks, st, RenderEntry(en), ParseItem(toks, sub, st), EntryItem(en))
  {
    var ts := RenderEntry(en);
    var after := Consume(toks, st, ts);
    match sub
    case Expressions =>
      SeesNext(toks, after, next);
      ParsePhrase(toks, en.phrase, 0, st);
      SettleTwice(toks, after);
    case Columns =>
      ParseColumnSpelled(toks, en.column, next, st);
    case Identifiers =>
      NextSpelled(toks, st, ts);
  }

  /** With a comma next, the list loop reads the item after it and goes on. */
  lemma SeesComma(toks: Stream, sub: Subparser, items: seq<Item>, st: Cursor)
    requires st.pos <= |toks| && Sees(toks, st, Comma)
    ensures var item := ParseItem(toks, sub, Advance(toks, st));
      item.result.Ok? ==> CommaItems(toks, sub, items, st) == CommaItems(toks, sub, items + [item.result.value], item.cursor)
  {
    SeesNext(toks, st, Comma);
  }

  /** One iteration of the list loop: a comma and the entry after it. */
  lemma CommaStep(toks: Stream, sub: Subparser, items: seq<Item>, es: seq<Entry>, next: Token, st: Cursor)
    returns (d: Cursor)
    requires st.pos <= |toks| && es != [] && Fits(sub, es[0])
    requires Spells(toks, st, CommaTail(es)) && Sees(toks, Consume(toks, st, CommaTail(es)), next) && Ends(next)
    ensures d.pos <= |toks| && Spells(toks, d, CommaTail(es[1..])) && Sees(toks, Consume(toks, d, CommaTail(es[1..])), next)
    ensures Settle(toks, Consume(toks, d, CommaTail(es[1..]))) == Settle(toks, Consume(toks, st, CommaTail(es)))
    ensures CommaItems(toks, sub, items, st) == CommaItems(toks, sub, items + [EntryItem(es[0])], d)
  {
    var ts := CommaTail(es);
    assert ts == [Comma] + (RenderEntry(es[0]) + CommaTail(es[1..]));
    NextSpelled(toks, st, ts);
    assert ts[1..] == RenderEntry(es[0]) + CommaTail(es[1..]);
    CommaLead(es[1..]);
    d := JoinedHead(toks, sub, es[0], CommaTail(es[1..]), next, Advance(toks, st));
    SeesComma(toks, sub, items, st);
  }

  /** The list loop reads one item per comma-led entry and stops at a token that is not a comma. */
  lemma {:induction false} ParseCommaTail(toks: Stream, sub: Subparser, items: seq<Item>, es: seq<Entry>, next: Token, st: Cursor)
    requires st.pos <= |toks| && (forall i | 0 <= i < |es| :: Fits(sub, es[i]))
    requires Spells(toks, st, CommaTail(es)) && Sees(toks, Consume(toks, st, CommaTail(es)), next)
    requires Ends(next) && next != Comma
    ensures Reads(toks, st, CommaTail(es), CommaItems(toks, sub, items, st), items + EntryItems(es))
    decreases |es|
  {
    if es == [] {
      CommaEnd(toks, sub, items, next, st);
      assert items + EntryItems(es) == items;
    } else {
      var d := CommaStep(toks, sub, items, es, next, st);
      FitsTail(sub, es);
      ParseCommaTail(toks, sub, items + [EntryItem(es[0])], es[1..], next, d);
      CommaLift(toks, sub, items, es, st, d);
    }
  }

  /** With no comma next, the list loop stops and keeps what it has read. */
  lemma CommaEnd(toks: Stream, sub: Subparser, items: seq<Item>, next: Token, st: Cursor)
    requires st.pos <= |toks| && Sees(toks, st, next) && next != Comma
    ensures CommaItems(toks, sub, items, st) == Outcome(Ok(items), Settle(toks, st))
  {
    SeesNext(toks, st, next);
  }

  /** What the loop reads after the first comma-led entry, it reads from before that entry too. */
  lemma CommaLift(toks: Stream, sub: Subparser, items: seq<Item>, es: seq<Entry>, st: Cursor, d: Cursor)
    requires st.pos <= |toks| && d.pos <= |toks| && es != [] && Spells(toks, st, CommaTail(es))
    requires Spells(toks, d, CommaTail(es[1..]))
    requires Settle(toks, Consume(toks, d, CommaTail(es[1..]))) == Settle(toks, Consume(toks, st, CommaTail(es)))
    requires CommaItems(toks, sub, items, st) == CommaItems(toks, sub, items + [EntryItem(es[0])], d)
    requires Reads(toks, d, CommaTail(es[1..]), CommaItems(toks, sub, items + [EntryItem(es[0])], d),
                   items + [EntryItem(es[0])] + EntryItems(es[1..]))
    ensures Reads(toks, st, CommaTail(es), CommaItems(toks, sub, items, st), items + EntryItems(es))
  {
    ItemsCons(items, es);
  }

  lemma ItemsCons(items: seq<Item>, es: seq<Entry>)
    requires es != []
    ensures items + [EntryItem(es[0])] + EntryItems(es[1..]) == items + EntryItems(es)
  {
    assert EntryItems(es) == [EntryItem(es[0])] + EntryItems(es[1..]);
  }

  /** The first entry and the list loop after it. */
  lemma ParseJoined(toks: Stream, sub: Subparser, es: seq<Entry>, next: Token, st: Cursor)
    requires st.pos <= |toks| && |es| >= 1 && (forall i | 0 <= i < |es| :: Fits(sub, es[i]))
    requires Spells(toks, st, Joined(es)) && Sees(toks, Consume(toks, st, Joined(es)), next)
    requires Ends(next) && next != Comma
    ensures ParseItem(toks, sub, st).result == Ok(EntryItem(es[0]))
    ensures Reads(toks, st, Joined(es),
                  CommaItems(toks, sub, [EntryItem(es[0])], ParseItem(toks, sub, st).cursor), EntryItems(es))
  {
    CommaLead(es[1..]);
    var d := JoinedHead(toks, sub, es[0], CommaTail(es[1..]), next, st);
    FitsTail(sub, es);
    ParseCommaTail(toks, sub, [EntryItem(es[0])], es[1..], next, d);
    JoinedLift(toks, sub, es, st, d);
  }

  /** The first entry of a list is read back, and the rest is spelled from where it ends. */
  lemma JoinedHead(toks: Stream, sub: Subparser, en: Entry, rest: seq<Token>, next: Token, st: Cursor) returns (d: Cursor)
    requires st.pos <= |toks| && Fits(sub, en) && (rest == [] || rest[0] == Comma)
    requires Spells(toks, st, RenderEntry(en) + rest) && Sees(toks, Consume(toks, st, RenderEntry(en) + rest), next)
    requires Ends(next)
    ensures ParseItem(toks, sub, st) == Outcome(Ok(EntryItem(en)), d)
    ensures d.pos <= |toks| && Spells(toks, d, rest) && Sees(toks, Consume(toks, d, rest), next)
    ensures Settle(toks, Consume(toks, d, rest)) == Settle(toks, Consume(toks, st, RenderEntry(en) + rest))
  {
    var mid := SplitAt(toks, st, RenderEntry(en), rest, next);
    Terminators();
    ParseEntrySpelled(toks, sub, en, if rest == [] then next else Comma, st);
    d := ParseItem(toks, sub, st).cursor;
    Resume(toks, mid, d, rest, next);
  }

  /** A comma-led tail is empty or starts with its comma. */
  lemma CommaLead(es: seq<Entry>)
    ensures CommaTail(es) == [] || CommaTail(es)[0] == Comma
  {
  }

  lemma FitsTail(sub: Subparser, es: seq<Entry>)
    requires |es| >= 1 && forall i | 0 <= i < |es| :: Fits(sub, es[i])
    ensures forall i | 0 <= i < |es[1..]| :: Fits(sub, es[1..][i])
  {
    forall i | 0 <= i < |es[1..]|
      ensures Fits(sub, es[1..][i])
    {
      assert es[1..][i] == es[i + 1];
    }
  }

  /** What the list loop reads after the first entry completes the whole list. */
  lemma JoinedLift(toks: Stream, sub: Subparser, es: seq<Entry>, st: Cursor, d: Cursor)
    requires st.pos <= |toks| && d.pos <= |toks| && |es| >= 1 && Spells(toks, st, Joined(es))
    requires Spells(toks, d, CommaTail(es[1..]))
    requires Settle(toks, Consume(toks, d, CommaTail(es[1..]))) == Settle(toks, Consume(toks, st, Joined(es)))
    requires Reads(toks, d, CommaTail(es[1..]), CommaItems(toks, sub, [EntryItem(es[0])], d),
                   [EntryItem(es[0])] + EntryItems(es[1..]))
    ensures Reads(toks, st, Joined(es), CommaItems(toks, sub, [EntryItem(es[0])], d), EntryItems(es))
  {
    assert [EntryItem(es[0])] + EntryItems(es[1..]) == EntryItems(es);
  }

  /**
    A comma-separated list is read back entry by entry. When the list is
    parenthesised the parentheses are consumed; otherwise it must be followed
    by a token that neither continues its last entry nor is a comma.
  */
  lemma ParseListSpelled(toks: Stream, sub: Subparser, es: seq<Entry>, grouped: bool, required: bool, next: Token, st: Cursor)
    requires st.pos <= |toks| && ListFits(sub, es, grouped) && (required ==> grouped)
    requires Spells(toks, st, RenderList(es, grouped))
    requires !grouped ==> Sees(toks, Consume(toks, st, RenderList(es, grouped)), next) && Ends(next) && next != Comma
    ensures Reads(toks, st, RenderList(es, grouped), ParseCommaSeparated(toks, sub, required, st), EntryItems(es))
  {
    if grouped {
      ParseGroupedList(toks, sub, es, required, st);
    } else {
      var joined := Joined(es);
      NextSpelled(toks, st, joined);
      var start := Settle(toks, st);
      SettleTwice(toks, st);
      SettleAlike(toks, st, start, joined);
      SeesSettled(toks, Consume(toks, st, joined), Consume(toks, start, joined), next);
      ParseJoined(toks, sub, es, next, start);
    }
  }

  lemma ParseGroupedList(toks: Stream, sub: Subparser, es: seq<Entry>, required: bool, st: Cursor)
    requires st.pos <= |toks| && |es| >= 1 && (forall i | 0 <= i < |es| :: Fits(sub, es[i]))
    requires Spells(toks, st, RenderList(es, true))
    ensures Reads(toks, st, RenderList(es, true), ParseCommaSeparated(toks, sub, required, st), EntryItems(es))
  {
    var joined := Joined(es);
    assert RenderList(es, true) == [LeftParen] + joined + [RightParen];
    var a, b := Enclosed(toks, st, LeftParen, joined, RightParen);
    ParseJoined(toks, sub, es, RightParen, a);
    var c := ParseItem(toks, sub, a).cursor;
    var items := CommaItems(toks, sub, [EntryItem(es[0])], c);
    SettledStart(toks, items.cursor);
    SettledStart(toks, b);
    GroupedSteps(toks, sub, required, st, a, EntryItem(es[0]), c, EntryItems(es), items.cursor,
                 Consume(toks, st, RenderList(es, true)));
  }

  /** A parenthesised list is read when its `(`, its items and its `)` are. */
  lemma GroupedSteps(toks: Stream, sub: Subparser, required: bool, st: Cursor, a: Cursor, first: Item, c: Cursor,
                     items: seq<Item>, e: Cursor, d: Cursor)
    requires st.pos <= |toks| && a.pos <= |toks| && c.pos <= |toks| && e.pos <= |toks|
    requires NextToken(toks, st) == Outcome(Ok(LeftParen), a)
    requires ParseItem(toks, sub, a) == Outcome(Ok(first), c)
    requires CommaItems(toks, sub, [first], c) == Outcome(Ok(items), e)
    requires NextToken(toks, e) == Outcome(Ok(RightParen), d)
    ensures ParseCommaSeparated(toks, sub, required, st) == Outcome(Ok(items), d)
  {
  }
}
