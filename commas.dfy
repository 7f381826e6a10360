/**
  How many commas a list consumes. No routine that reads a single item (an
  expression, a column definition, an identifier) consumes a comma when it
  succeeds, so a comma-separated list holds exactly one item more than the
  commas it consumed.
*/
module CommaCount {
  import opened Tokens
  import opened Ast
  import opened Grammar

  predicate IsComma(s: Scanned) {
    s.Scanned? && s.item.token == Comma
  }

  /** The number of comma entries in `toks[lo..hi]`. */
  function Commas(toks: Stream, lo: nat, hi: nat): nat
    requires lo <= hi <= |toks|
    decreases hi - lo
  {
    if lo == hi then 0 else (if IsComma(toks[lo]) then 1 else 0) + Commas(toks, lo + 1, hi)
  }

  // ---------------------------------------------------------------------------
  // Counting over stretches of the stream
  // ---------------------------------------------------------------------------

  lemma {:induction false} CommasSplit(toks: Stream, a: nat, b: nat, c: nat)
    requires a <= b <= c <= |toks|
    ensures Commas(toks, a, c) == Commas(toks, a, b) + Commas(toks, b, c)
    decreases b - a
  {
    if a < b {
      CommasSplit(toks, a + 1, b, c);
    }
  }

  lemma {:induction false} WhitespaceCommas(toks: Stream, a: nat, b: nat)
    requires a <= b <= |toks| && forall k | a <= k < b :: IsWhitespace(toks[k])
    ensures Commas(toks, a, b) == 0
    decreases b - a
  {
    if a < b {
      WhitespaceCommas(toks, a + 1, b);
    }
  }

  /** Skipping whitespace consumes no comma. */
  lemma SkipCommas(toks: Stream, pos: nat)
    requires pos <= |toks|
    ensures Commas(toks, pos, SkipWhiteSpaces(toks, pos)) == 0
  {
    WhitespaceCommas(toks, pos, SkipWhiteSpaces(toks, pos));
  }

  /** Whitespace and then one token `t`: a comma is consumed exactly when `t` is one. */
  lemma ReadOneCommas(toks: Stream, a: nat, c: Cursor, t: Token)
    requires a < c.pos <= |toks| && JustRead(toks, c, t)
    requires forall k | a <= k < c.pos - 1 :: IsWhitespace(toks[k])
    ensures Commas(toks, a, c.pos) == if t == Comma then 1 else 0
  {
    WhitespaceCommas(toks, a, c.pos - 1);
    CommasSplit(toks, a, c.pos - 1, c.pos);
  }

  /** `NextToken` consumes a comma exactly when the token it returns is one. */
  lemma NextTokenCommas(toks: Stream, st: Cursor)
    requires st.pos <= |toks|
    ensures var n := NextToken(toks, st);
      n.result.Ok? ==> Commas(toks, st.pos, n.cursor.pos) == if n.result.value == Comma then 1 else 0
  {
    var n := NextToken(toks, st);
    if n.result.Ok? {
      ReadOneCommas(toks, st.pos, n.cursor, n.result.value);
    }
  }

  /** An optional token that is not a comma: no comma is consumed, whether it is there or not. */
  lemma OptionalTokenCommas(toks: Stream, t: Token, st: Cursor)
    requires st.pos <= |toks|
    ensures var s := ConsumeOptionalToken(toks, t, st);
      Commas(toks, st.pos, s.cursor.pos) == if s.value && t == Comma then 1 else 0
  {
    var s := ConsumeOptionalToken(toks, t, st);
    if s.value {
      ReadOneCommas(toks, st.pos, s.cursor, t);
    } else {
      SkipCommas(toks, st.pos);
    }
  }

  /** `ExpectToken` for a token other than a comma consumes no comma. */
  lemma ExpectTokenCommas(toks: Stream, t: Token, st: Cursor)
    requires st.pos <= |toks| && t != Comma
    ensures var o := ExpectToken(toks, t, st);
      o.result.Ok? ==> Commas(toks, st.pos, o.cursor.pos) == 0
  {
    NextTokenCommas(toks, st);
  }

  // ---------------------------------------------------------------------------
  // Expressions
  // ---------------------------------------------------------------------------

  lemma InfixNotComma()
    ensures InfixOperator(Comma).None?
  {
  }

  lemma {:induction false} ExprCommaFree(toks: Stream, p: nat, st: Cursor)
    requires st.pos <= |toks|
    ensures var o := ParseExpr(toks, p, st);
      o.result.Ok? ==> Commas(toks, st.pos, o.cursor.pos) == 0
    decreases |toks| - st.pos, 2
  {
    var prefix := ParsePrefix(toks, st);
    PrefixCommaFree(toks, st);
    if prefix.result.Ok? {
      var o := ExprLoop(toks, p, prefix.result.value, prefix.cursor);
      LoopCommaFree(toks, p, prefix.result.value, prefix.cursor);
      CommasSplit(toks, st.pos, prefix.cursor.pos, o.cursor.pos);
    }
  }

  lemma {:induction false} LoopCommaFree(toks: Stream, p: nat, left: Expression, st: Cursor)
    requires st.pos <= |toks|
    ensures var o := ExprLoop(toks, p, left, st);
      o.result.Ok? ==> Commas(toks, st.pos, o.cursor.pos) == 0
    decreases |toks| - st.pos, 1
  {
    var next := NextPrecedence(toks, st.pos);
    var here := Cursor(SkipWhiteSpaces(toks, st.pos), st.location);
    SkipCommas(toks, st.pos);
    if p < next {
      var infix := ParseInfix(toks, left, next, here);
      InfixCommaFree(toks, left, next, here);
      if infix.result.Ok? {
        var o := ExprLoop(toks, p, infix.result.value, infix.cursor);
        LoopCommaFree(toks, p, infix.result.value, infix.cursor);
        CommasSplit(toks, st.pos, here.pos, infix.cursor.pos);
        CommasSplit(toks, st.pos, infix.cursor.pos, o.cursor.pos);
      }
    }
  }

  lemma {:induction false} PrefixCommaFree(toks: Stream, st: Cursor)
    requires st.pos <= |toks|
    ensures var o := ParsePrefix(toks, st);
      o.result.Ok? ==> Commas(toks, st.pos, o.cursor.pos) == 0
    decreases |toks| - st.pos, 1
  {
    var n := NextToken(toks, st);
    NextTokenCommas(toks, st);
    if n.result.Ok? && n.result.value == LeftParen {
      var inner := ParseExpr(toks, 0, n.cursor);
      ExprCommaFree(toks, 0, n.cursor);
      if inner.result.Ok? {
        var close := ExpectToken(toks, RightParen, inner.cursor);
        ExpectTokenCommas(toks, RightParen, inner.cursor);
        if close.result.Ok? {
          CommasSplit(toks, st.pos, n.cursor.pos, inner.cursor.pos);
          CommasSplit(toks, st.pos, inner.cursor.pos, close.cursor.pos);
        }
      }
    }
  }

  lemma {:induction false} InfixCommaFree(toks: Stream, left: Expression, precedence: nat, st: Cursor)
    requires st.pos <= |toks|
    ensures var o := ParseInfix(toks, left, precedence, st);
      o.result.Ok? ==> Commas(toks, st.pos, o.cursor.pos) == 0
    decreases |toks| - st.pos, 0
  {
    var n := NextToken(toks, st);
    NextTokenCommas(toks, st);
    InfixNotComma();
    if n.result.Ok? && InfixOperator(n.result.value).Some? {
      var right := ParseExpr(toks, precedence, n.cursor);
      ExprCommaFree(toks, precedence, n.cursor);
      if right.result.Ok? {
        CommasSplit(toks, st.pos, n.cursor.pos, right.cursor.pos);
      }
    }
  }

  // ---------------------------------------------------------------------------
  // Column definitions and identifiers
  // ---------------------------------------------------------------------------

  lemma IdentifierCommaFree(toks: Stream, st: Cursor)
    requires st.pos <= |toks|
    ensures var o := ParseIdentifier(toks, st);
      o.result.Ok? ==> Commas(toks, st.pos, o.cursor.pos) == 0
  {
    NextTokenCommas(toks, st);
  }

  lemma VarcharLengthCommaFree(toks: Stream, st: Cursor)
    requires st.pos <= |toks|
    ensures var o := ParseVarcharLength(toks, st);
      o.result.Ok? ==> Commas(toks, st.pos, o.cursor.pos) == 0
  {
    var open := ExpectToken(toks, LeftParen, st);
    ExpectTokenCommas(toks, LeftParen, st);
    if open.result.Ok? {
      var len := NextToken(toks, open.cursor);
      NextTokenCommas(toks, open.cursor);
      if len.result.Ok? && len.result.value.Number? {
        var close := ExpectToken(toks, RightParen, len.cursor);
        ExpectTokenCommas(toks, RightParen, len.cursor);
        if close.result.Ok? {
          CommasSplit(toks, st.pos, open.cursor.pos, len.cursor.pos);
          CommasSplit(toks, st.pos, len.cursor.pos, close.cursor.pos);
        }
      }
    }
  }

  lemma DataTypeCommaFree(toks: Stream, st: Cursor)
    requires st.pos <= |toks|
    ensures var o := ParseDataType(toks, st);
      o.result.Ok? ==> Commas(toks, st.pos, o.cursor.pos) == 0
  {
    var n := NextToken(toks, st);
    NextTokenCommas(toks, st);
    if n.result.Ok? && n.result.value == Keyword(Keyword.Varchar) {
      var length := ParseVarcharLength(toks, n.cursor);
      VarcharLengthCommaFree(toks, n.cursor);
      if length.result.Ok? {
        CommasSplit(toks, st.pos, n.cursor.pos, length.cursor.pos);
      }
    }
  }

  /** `ConsumeOneOf` consumes at most one keyword, and so no comma. */
  lemma {:induction false} OneOfCommaFree(toks: Stream, keywords: seq<Keyword>, st: Cursor)
    requires st.pos <= |toks|
    ensures Commas(toks, st.pos, ConsumeOneOf(toks, keywords, st).cursor.pos) == 0
  {
    var s := ConsumeOneOf(toks, keywords, st);
    var peeked := PeekedKeyword(toks, st.pos);
    if peeked.Some? && peeked.value in keywords {
      ReadOneCommas(toks, st.pos, s.cursor, Keyword(s.value));
    } else {
      SkipCommas(toks, st.pos);
    }
  }

  lemma ConstraintCommaFree(toks: Stream, st: Cursor)
    requires st.pos <= |toks|
    ensures var o := ParseConstraint(toks, st);
      o.result.Ok? ==> Commas(toks, st.pos, o.cursor.pos) == 0
  {
    var c := ConsumeOneOf(toks, [Keyword.Primary, Keyword.Unique], st);
    OneOfCommaFree(toks, [Keyword.Primary, Keyword.Unique], st);
    if c.value == Keyword.Primary {
      var key := ExpectToken(toks, Keyword(Keyword.Key), c.cursor);
      ExpectTokenCommas(toks, Keyword(Keyword.Key), c.cursor);
      if key.result.Ok? {
        CommasSplit(toks, st.pos, c.cursor.pos, key.cursor.pos);
      }
    }
  }

  lemma ColumnCommaFree(toks: Stream, st: Cursor)
    requires st.pos <= |toks|
    ensures var o := ParseColumn(toks, st);
      o.result.Ok? ==> Commas(toks, st.pos, o.cursor.pos) == 0
  {
    var name := ParseIdentifier(toks, st);
    IdentifierCommaFree(toks, st);
    if name.result.Ok? {
      var dataType := ParseDataType(toks, name.cursor);
      DataTypeCommaFree(toks, name.cursor);
      if dataType.result.Ok? {
        var constraint := ParseConstraint(toks, dataType.cursor);
        ConstraintCommaFree(toks, dataType.cursor);
        if constraint.result.Ok? {
          CommasSplit(toks, st.pos, name.cursor.pos, dataType.cursor.pos);
          CommasSplit(toks, st.pos, dataType.cursor.pos, constraint.cursor.pos);
        }
      }
    }
  }

  /** Whatever the sub-parser, reading one item consumes no comma. */
  lemma ItemCommaFree(toks: Stream, sub: Subparser, st: Cursor)
    requires st.pos <= |toks|
    ensures var o := ParseItem(toks, sub, st);
      o.result.Ok? ==> Commas(toks, st.pos, o.cursor.pos) == 0
  {
    match sub
    case Expressions => ExprCommaFree(toks, 0, st);
    case Columns => ColumnCommaFree(toks, st);
    case Identifiers => IdentifierCommaFree(toks, st);
  }

  // ---------------------------------------------------------------------------
  // Lists
  // ---------------------------------------------------------------------------

  /** The list loop adds one item per comma it consumes. */
  lemma {:induction false} CommaItemsCount(toks: Stream, sub: Subparser, items: seq<Item>, st: Cursor)
    requires st.pos <= |toks|
    ensures var o := CommaItems(toks, sub, items, st);
      o.result.Ok? ==> |o.result.value| == |items| + Commas(toks, st.pos, o.cursor.pos)
    decreases |toks| - st.pos
  {
    var comma := ConsumeOptionalToken(toks, Comma, st);
    OptionalTokenCommas(toks, Comma, st);
    if comma.value {
      var item := ParseItem(toks, sub, comma.cursor);
      ItemCommaFree(toks, sub, comma.cursor);
      if item.result.Ok? {
        var o := CommaItems(toks, sub, items + [item.result.value], item.cursor);
        CommaItemsCount(toks, sub, items + [item.result.value], item.cursor);
        CommasSplit(toks, st.pos, comma.cursor.pos, item.cursor.pos);
        CommasSplit(toks, st.pos, item.cursor.pos, o.cursor.pos);
      }
    }
  }

  /**
    A comma-separated list, with or without its parentheses, holds one item
    more than the commas it consumed.
  */
  lemma CommaSeparatedCount(toks: Stream, sub: Subparser, requiredParenthesis: bool, st: Cursor)
    requires st.pos <= |toks|
    ensures var o := ParseCommaSeparated(toks, sub, requiredParenthesis, st);
      o.result.Ok? ==> |o.result.value| == 1 + Commas(toks, st.pos, o.cursor.pos)
  {
    var open := ConsumeOptionalToken(toks, LeftParen, st);
    OptionalTokenCommas(toks, LeftParen, st);
    var first := ParseItem(toks, sub, open.cursor);
    ItemCommaFree(toks, sub, open.cursor);
    if first.result.Ok? {
      var items := CommaItems(toks, sub, [first.result.value], first.cursor);
      CommaItemsCount(toks, sub, [first.result.value], first.cursor);
      if items.result.Ok? {
        CommasSplit(toks, st.pos, open.cursor.pos, first.cursor.pos);
        CommasSplit(toks, st.pos, first.cursor.pos, items.cursor.pos);
        if open.value {
          var close := ExpectToken(toks, RightParen, items.cursor);
          ExpectTokenCommas(toks, RightParen, items.cursor);
          if close.result.Ok? {
            CommasSplit(toks, st.pos, items.cursor.pos, close.cursor.pos);
          }
        }
      }
    }
  }
}
