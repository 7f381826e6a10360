/**
  When a token stream spells a sequence of tokens: read from a cursor, after
  skipping whitespace before each one, the stream's entries are those tokens
  (at any locations). `Consume` is the cursor the parser's `NextToken` leaves
  after reading them one by one.
*/
module Spelling {
  import opened Tokens
  import opened Ast
  import opened Grammar

  /** The cursor with the whitespace in front of it skipped. */
  function Settle(toks: Stream, c: Cursor): (s: Cursor)
    requires c.pos <= |toks|
    ensures c.pos <= s.pos <= |toks| && s.location == c.location
  {
    Cursor(SkipWhiteSpaces(toks, c.pos), c.location)
  }

  /** Whether the next entry after whitespace is the token `t`. */
  predicate Sees(toks: Stream, c: Cursor, t: Token)
    requires c.pos <= |toks|
  {
    var q := SkipWhiteSpaces(toks, c.pos);
    q < |toks| && toks[q].Scanned? && toks[q].item.token == t
  }

  /** The cursor after consuming the next entry, a token. */
  function Advance(toks: Stream, c: Cursor): (a: Cursor)
    requires c.pos <= |toks|
    requires SkipWhiteSpaces(toks, c.pos) < |toks| && toks[SkipWhiteSpaces(toks, c.pos)].Scanned?
    ensures c.pos < a.pos <= |toks|
  {
    var q := SkipWhiteSpaces(toks, c.pos);
    Cursor(q + 1, toks[q].item.location)
  }

  predicate Spells(toks: Stream, c: Cursor, ts: seq<Token>)
    requires c.pos <= |toks|
    decreases |ts|
  {
    ts == [] || (Sees(toks, c, ts[0]) && Spells(toks, Advance(toks, c), ts[1..]))
  }

  function Consume(toks: Stream, c: Cursor, ts: seq<Token>): (d: Cursor)
    requires c.pos <= |toks| && Spells(toks, c, ts)
    ensures c.pos <= d.pos <= |toks|
    ensures ts != [] ==> c.pos < d.pos
    decreases |ts|
  {
    if ts == [] then c else Consume(toks, Advance(toks, c), ts[1..])
  }

  /** `NextToken` reads the first spelled token and moves to where `Advance` says. */
  lemma NextSpelled(toks: Stream, c: Cursor, ts: seq<Token>)
    requires c.pos <= |toks| && Spells(toks, c, ts) && ts != []
    ensures NextToken(toks, c) == Outcome(Ok(ts[0]), Advance(toks, c))
    ensures PeekedToken(toks, c.pos) == Some(ts[0])
    ensures NextPrecedence(toks, c.pos) == TokenPrecedence(ts[0])
    ensures Spells(toks, Advance(toks, c), ts[1..])
    ensures Consume(toks, c, ts) == Consume(toks, Advance(toks, c), ts[1..])
  {
  }

  /** What the parser finds when the next token is `t`. */
  lemma SeesNext(toks: Stream, c: Cursor, t: Token)
    requires c.pos <= |toks| && Sees(toks, c, t)
    ensures NextToken(toks, c) == Outcome(Ok(t), Advance(toks, c))
    ensures PeekedToken(toks, c.pos) == Some(t)
    ensures NextPrecedence(toks, c.pos) == TokenPrecedence(t)
    ensures Spells(toks, c, [t]) && Consume(toks, c, [t]) == Advance(toks, c)
  {
  }

  lemma SeesSettled(toks: Stream, c: Cursor, d: Cursor, t: Token)
    requires c.pos <= |toks| && d.pos <= |toks| && Settle(toks, c) == Settle(toks, d)
    ensures Sees(toks, c, t) == Sees(toks, d, t)
  {
  }

  /** Spelling a concatenation is spelling one part, then the other from where it ends. */
  lemma {:induction false} SpellsConcat(toks: Stream, c: Cursor, a: seq<Token>, b: seq<Token>)
    requires c.pos <= |toks|
    ensures Spells(toks, c, a + b) <==> Spells(toks, c, a) && Spells(toks, Consume(toks, c, a), b)
    ensures Spells(toks, c, a + b) ==> Consume(toks, c, a + b) == Consume(toks, Consume(toks, c, a), b)
    decreases |a|
  {
    if a == [] {
      assert a + b == b;
    } else {
      assert (a + b)[0] == a[0];
      assert (a + b)[1..] == a[1..] + b;
      if Sees(toks, c, a[0]) {
        SpellsConcat(toks, Advance(toks, c), a[1..], b);
      }
    }
  }

  /** Only where whitespace ends matters: cursors that settle alike spell alike. */
  lemma SettleAlike(toks: Stream, c: Cursor, d: Cursor, ts: seq<Token>)
    requires c.pos <= |toks| && d.pos <= |toks| && Settle(toks, c) == Settle(toks, d)
    requires Spells(toks, c, ts)
    ensures Spells(toks, d, ts)
    ensures Settle(toks, Consume(toks, c, ts)) == Settle(toks, Consume(toks, d, ts))
    ensures ts != [] ==> Consume(toks, c, ts) == Consume(toks, d, ts)
  {
    if ts != [] {
      assert Advance(toks, c) == Advance(toks, d);
    }
  }

  /**
    After reading `a` from `c` the parser may stand anywhere before or after
    the whitespace that follows; from there the rest `b` is still spelled.
  */
  lemma Chain(toks: Stream, c: Cursor, a: seq<Token>, b: seq<Token>, d: Cursor)
    requires c.pos <= |toks| && d.pos <= |toks| && Spells(toks, c, a + b)
    requires Spells(toks, c, a) && Settle(toks, d) == Settle(toks, Consume(toks, c, a))
    ensures Spells(toks, d, b)
    ensures Settle(toks, Consume(toks, d, b)) == Settle(toks, Consume(toks, c, a + b))
    ensures b != [] ==> Consume(toks, d, b) == Consume(toks, c, a + b)
  {
    SpellsConcat(toks, c, a, b);
    SettleAlike(toks, Consume(toks, c, a), d, b);
  }

  lemma SettleTwice(toks: Stream, c: Cursor)
    requires c.pos <= |toks|
    ensures Settle(toks, Settle(toks, c)) == Settle(toks, c)
  {
    SkipIdempotent(toks, c.pos);
  }

  /**
    The parser's reading primitives skip whitespace first, so they behave the
    same from a cursor and from its settled form.
  */
  lemma SettledStart(toks: Stream, c: Cursor)
    requires c.pos <= |toks|
    ensures NextToken(toks, Settle(toks, c)) == NextToken(toks, c)
    ensures Peek(toks, Settle(toks, c).pos) == Peek(toks, c.pos)
    ensures NextPrecedence(toks, Settle(toks, c).pos) == NextPrecedence(toks, c.pos)
    ensures forall t :: ConsumeOptionalToken(toks, t, Settle(toks, c)) == ConsumeOptionalToken(toks, t, c)
  {
    SkipIdempotent(toks, c.pos);
  }

  /** Reading `first` ends at `mid`, where `rest` is spelled, starting with its first token or else `next`. */
  lemma SplitAt(toks: Stream, st: Cursor, first: seq<Token>, rest: seq<Token>, next: Token) returns (mid: Cursor)
    requires st.pos <= |toks| && Spells(toks, st, first + rest)
    requires Sees(toks, Consume(toks, st, first + rest), next)
    ensures Spells(toks, st, first) && mid == Consume(toks, st, first)
    ensures Spells(toks, mid, rest) && Consume(toks, mid, rest) == Consume(toks, st, first + rest)
    ensures Sees(toks, mid, if rest == [] then next else rest[0])
  {
    SpellsConcat(toks, st, first, rest);
    mid := Consume(toks, st, first);
  }

  /** Cursors that settle alike spell `rest` alike, up to the same next token. */
  lemma Resume(toks: Stream, c: Cursor, d: Cursor, rest: seq<Token>, next: Token)
    requires c.pos <= |toks| && d.pos <= |toks| && Settle(toks, c) == Settle(toks, d)
    requires Spells(toks, c, rest) && Sees(toks, Consume(toks, c, rest), next)
    ensures Spells(toks, d, rest) && Sees(toks, Consume(toks, d, rest), next)
    ensures Settle(toks, Consume(toks, d, rest)) == Settle(toks, Consume(toks, c, rest))
  {
    SettleAlike(toks, c, d, rest);
    SeesSettled(toks, Consume(toks, c, rest), Consume(toks, d, rest), next);
  }

  /**
    Reading `first` from where the whitespace before it ends leads to the
    same cursor `c`, from which `rest` is spelled.
  */
  lemma Front(toks: Stream, st: Cursor, first: seq<Token>, rest: seq<Token>) returns (here: Cursor, c: Cursor)
    requires st.pos <= |toks| && first != [] && Spells(toks, st, first + rest)
    ensures here == Settle(toks, st) && Spells(toks, here, first) && Consume(toks, here, first) == c
    ensures PeekedToken(toks, st.pos) == Some(first[0])
    ensures c.pos <= |toks| && Spells(toks, c, rest) && Consume(toks, c, rest) == Consume(toks, st, first + rest)
  {
    SpellsConcat(toks, st, first, rest);
    NextSpelled(toks, st, first);
    here := Settle(toks, st);
    SettleTwice(toks, st);
    SettleAlike(toks, st, here, first);
    c := Consume(toks, st, first);
  }

  /** A leading token `t` is what `NextToken` reads; the rest is spelled after it. */
  lemma Lead(toks: Stream, st: Cursor, t: Token, rest: seq<Token>)
    requires st.pos <= |toks| && Spells(toks, st, [t] + rest)
    ensures NextToken(toks, st) == Outcome(Ok(t), Advance(toks, st))
    ensures Spells(toks, Advance(toks, st), rest)
    ensures Consume(toks, Advance(toks, st), rest) == Consume(toks, st, [t] + rest)
  {
    NextSpelled(toks, st, [t] + rest);
    assert ([t] + rest)[1..] == rest;
  }
}
