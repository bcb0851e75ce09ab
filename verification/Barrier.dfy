/** A punctuation mark separates amounts: no accumulator and no guard crosses it. */
module Barrier {
  import opened Text
  import opened Vocabulary
  import opened Lexer
  import opened Lexing
  import opened Machine
  import opened Invariants
  import opened Composition

  // ----- a text seen from behind a prefix -------------------------------------------------------

  lemma FromShift(p: Text, b: Text, e: nat)
    ensures From(p + b, e + |p|) == From(b, e)
  {
    if e <= |b| { assert (p + b)[e + |p|..] == b[e..]; }
  }

  lemma SliceShift(p: Text, b: Text, x: nat, y: nat)
    requires x <= y <= |b|
    ensures Slice(p + b, x + |p|, y + |p|) == Slice(b, x, y)
  {
    assert (p + b)[x + |p|..y + |p|] == b[x..y];
  }

  lemma BehindPrefixStep(p: Text, front: seq<Tok>, b: Text, toks: seq<Tok>, x: nat)
    requires x < |toks|
    ensures SameStep(View(b, toks), View(p + b, front + ShiftAll(toks, |p|)), x, |front|, |p|)
  {
    hide ShorthandAhead, IsScaleTok, IsHundredTok, From;
    FromShift(p, b, toks[x].end);
    ScaleOfShift(Peek(toks, x + 2), |p|);
  }

  lemma ScaleOfShift(t: Option<Tok>, d: nat)
    ensures IsScaleTok(ShiftPeek(t, d)) == IsScaleTok(t)
  {}

  lemma SameBehind(p: Text, b: Text, toks: seq<Tok>, w: View)
    requires InOrder(b, toks) && w.text == p + b
    ensures SameText(View(b, toks), w, |toks|, |p|)
  {
    hide CurrencyAhead, Slice, From;
    forall x | 0 <= x < |toks| ensures From(w.text, toks[x].end + |p|) == From(b, toks[x].end) {
      FromShift(p, b, toks[x].end);
    }
    forall x, y | 0 <= x <= y < |toks|
      ensures Slice(w.text, toks[x].start + |p|, toks[y].end + |p|) == Slice(b, toks[x].start, toks[y].end)
    {
      assert toks[x].start <= toks[y].end <= |b|;
      SliceShift(p, b, toks[x].start, toks[y].end);
    }
  }

  lemma RepeatsBehind(p: Text, front: seq<Tok>, b: Text, toks: seq<Tok>)
    requires InOrder(b, toks) && Sensible(toks)
    ensures Repeats(View(b, toks), View(p + b, front + ShiftAll(toks, |p|)), |toks|, |front|, |p|)
  {
    hide SameStep, SameText, WellCut, InOrder;
    var v, w := View(b, toks), View(p + b, front + ShiftAll(toks, |p|));
    SameBehind(p, b, toks, w);
    forall x | 0 <= x < |toks| ensures SameStep(v, w, x, |front|, |p|) {
      BehindPrefixStep(p, front, b, toks, x);
    }
  }

  lemma ScanBehind(p: Text, front: seq<Tok>, v: View, w: View, i: nat)
    requires InOrder(v.text, v.toks) && Sensible(v.toks) && i <= |v.toks|
    requires i == 0 && front != [] ==> !IsIdentifierTok(Some(front[|front| - 1]))
    requires w == View(p + v.text, front + ShiftAll(v.toks, |p|))
    ensures i + |front| <= |w.toks|
    ensures Scan(w.text, w.toks, i + |front|) == ShiftMatches(Scan(v.text, v.toks, i), |p|)
  {
    hide Scan, Repeats, Sensible, InOrder, IsIdentifierTok, ShiftAll, ShiftMatches;
    RepeatsBehind(p, front, v.text, v.toks);
    if front != [] { assert w.toks[|front| - 1] == front[|front| - 1]; }
    ScanSame(v, w, |v.toks|, |front|, |p|, i);
    ScanEnd(w.text, w.toks);
    var found := ShiftMatches(Scan(v.text, v.toks, i), |p|);
    assert found + [] == found;
  }

  lemma TokensReady(b: Text)
    ensures InOrder(b, Tokens(b)) && Sensible(Tokens(b))
  {
    hide Lex, WellCut, Solid, InOrder;
    TokensLossless(b);
  }

  /** The amounts of `b` are found again, shifted, when something stands before `b`. */
  lemma BehindPrefix(p: Text, front: seq<Tok>, b: Text)
    requires front != [] ==> !IsIdentifierTok(Some(front[|front| - 1]))
    ensures Scan(p + b, front + ShiftAll(Tokens(b), |p|), |front|) == ShiftMatches(Amounts(b), |p|)
  {
    hide Tokens, Scan, Sensible, InOrder, IsIdentifierTok, ShiftAll, ShiftMatches;
    TokensReady(b);
    var v, w := View(b, Tokens(b)), View(p + b, front + ShiftAll(Tokens(b), |p|));
    ScanBehind(p, front, v, w, 0);
  }

  // ----- what stands beyond a mark cannot be seen from before it --------------------------------

  /** A mark that is neither the currency sign nor, before a digit, part of a numeral. */
  predicate Separates(c: Ch, b: Text) { c.Sym? && c != CURRENCY_SIGN && Detached([c] + b) }

  lemma CurrencyOf(u: Text, c: Ch, r: Text)
    requires c.Sym? && c != CURRENCY_SIGN
    ensures CurrencyAhead(u + ([c] + r)) == CurrencyAhead(u)
  {
    hide IsCurrencyWord;
    var t := [c] + r;
    PrefixOf(u, t, Spaces);
    var n := PrefixLen(u, Spaces);
    var q := u[n..];
    assert (u + t)[n..] == q + t;
    PrefixOf(q, t, Letters);
    var w := PrefixLen(q, Letters);
    assert (q + t)[..w] == q[..w];
    if q == [] { assert q + t == t; }
  }

  lemma BeforeMark(a: Text, c: Ch, r: Text, e: nat)
    requires Separates(c, r) && e <= |a|
    ensures CurrencyAhead(From(a + ([c] + r), e)) == CurrencyAhead(From(a, e))
    ensures ShorthandAhead(From(a + ([c] + r), e)) == ShorthandAhead(From(a, e))
  {
    hide CurrencyAhead, ShorthandAhead;
    assert (a + ([c] + r))[e..] == a[e..] + ([c] + r);
    CurrencyOf(a[e..], c, r);
    ScaleLettersOf(a[e..], [c] + r);
  }

  lemma MarkAlone(c: Ch, b: Text)
    requires Separates(c, b)
    ensures Separates(c, []) && !IsIdentifierTok(Some(Other([c], 0, 1)))
  {}

  lemma ShiftByZero(ms: seq<Match>)
    ensures ShiftMatches(ms, 0) == ms
  {}

  function Mark(a: Text, c: Ch): Tok { Other([c], |a|, |a| + 1) }

  lemma MarkedTokens(a: Text, c: Ch, b: Text)
    requires Separates(c, b)
    ensures Tokens(a + [c]) == Tokens(a) + [Mark(a, c)]
    ensures Tokens(a + [c] + b) == Tokens(a) + [Mark(a, c)] + ShiftAll(Tokens(b), |a| + 1)
  {
    hide Lex;
    TokensAcrossMark(a, c, b);
    assert [c] + [] == [c];
    TokensAcrossMark(a, c, []);
    assert a + [c] + [] == a + [c];
    LexEmpty([], false, 0);
    assert ShiftAll([], |a| + 1) == [];
  }

  lemma MarkSameStep(a: Text, c: Ch, b: Text, more: seq<Tok>, x: nat)
    requires Separates(c, b) && x < |Tokens(a)|
    ensures SameStep(View(a + [c], Tokens(a) + [Mark(a, c)]),
                     View(a + [c] + b, Tokens(a) + [Mark(a, c)] + more), x, 0, 0)
  {
    hide Lex, ShorthandAhead, IsScaleTok, WellCut, Solid, From, CurrencyAhead, Separates;
    TokensLossless(a);
    var toks := Tokens(a);
    assert a + [c] + b == a + ([c] + b) && a + [c] == a + ([c] + []);
    MarkAlone(c, b);
    BeforeMark(a, c, b, toks[x].end);
    BeforeMark(a, c, [], toks[x].end);
  }

  /** What is before a mark yields the same amounts whatever follows the mark. */
  lemma BeforeTheMark(a: Text, c: Ch, b: Text)
    requires Separates(c, b)
    ensures |Tokens(a)| <= |Tokens(a + [c] + b)|
    ensures Scan(a + [c] + b, Tokens(a + [c] + b), 0)
         == Amounts(a + [c]) + Scan(a + [c] + b, Tokens(a + [c] + b), |Tokens(a)|)
  {
    hide Lex, Scan, SameStep, CurrencyAhead, WellCut, Solid, Slice, From, IsIdentifierTok, Separates;
    MarkedTokens(a, c, b);
    MarkAlone(c, b);
    TokensLossless(a);
    TokensLossless(a + [c]);
    var toks, more := Tokens(a), ShiftAll(Tokens(b), |a| + 1);
    var v, w := View(a + [c], Tokens(a + [c])), View(a + [c] + b, Tokens(a + [c] + b));
    var n := |toks|;
    forall x | 0 <= x < n ensures SameStep(v, w, x, 0, 0) {
      MarkSameStep(a, c, b, more, x);
    }
    assert a + [c] + b == a + ([c] + b) && a + [c] == a + ([c] + []);
    forall x | 0 <= x < n
      ensures CurrencyAhead(From(w.text, v.toks[x].end)) == CurrencyAhead(From(v.text, v.toks[x].end))
    {
      BeforeMark(a, c, b, toks[x].end);
      BeforeMark(a, c, [], toks[x].end);
    }
    forall x, y | 0 <= x <= y < n
      ensures Slice(w.text, v.toks[x].start, v.toks[y].end) == Slice(v.text, v.toks[x].start, v.toks[y].end)
    {
      SliceWithin(a + [c], b, toks[x].start, toks[y].end);
    }
    ScanSame(v, w, n, 0, 0, 0);
    ShiftByZero(Amounts(a + [c]));
  }

  lemma SliceWithin(a: Text, b: Text, x: nat, y: nat)
    requires x <= y <= |a|
    ensures Slice(a + b, x, y) == Slice(a, x, y)
  {
    assert (a + b)[x..y] == a[x..y];
  }

  /** Punctuation barrier: the amounts of two texts with a mark between them are those of the first
      up to and including the mark, then those of the second, shifted. */
  lemma MarkSeparates(a: Text, c: Ch, b: Text)
    requires Separates(c, b)
    ensures Amounts(a + [c] + b) == Amounts(a + [c]) + ShiftMatches(Amounts(b), |a| + 1)
  {
    hide Lex, Scan, Separates;
    BeforeTheMark(a, c, b);
    MarkedTokens(a, c, b);
    MarkAlone(c, b);
    var front := Tokens(a) + [Mark(a, c)];
    BehindPrefix(a + [c], front, b);
    ScanUnfolds(a + [c] + b, Tokens(a + [c] + b), |Tokens(a)|);
  }
}
