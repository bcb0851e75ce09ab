/** How a text is spaced does not matter: whitespace between words may be any whitespace, and a scale
    word may be written against its number. */
module Spacing {
  import opened Text
  import opened Vocabulary
  import opened Lexer
  import opened Lexing
  import opened Machine
  import opened Invariants
  import opened Composition
  import opened Barrier
  import opened Placement

  predicate IsGap(g: Text) { g != [] && All(g, Spaces) }

  function ViewOf(s: Text): View { View(s, Tokens(s)) }

  /** Two texts with the same tokens but for their places. */
  predicate SameTokens(s: Text, t: Text) { Alike(ViewOf(s), ViewOf(t)) }

  // ----- the tokens of two texts with a gap between them ----------------------------------------

  lemma {:induction false} TokensBehindGap(g: Text, b: Text)
    requires All(g, Spaces)
    ensures Tokens(g + b) == ShiftAll(Tokens(b), |g|)
    decreases |g|
  {
    hide Lex;
    if g == [] {
      assert g + b == b;
      assert ShiftAll(Tokens(b), 0) == Tokens(b);
    } else {
      var s := g + b;
      assert In(g[0], Spaces) && s[1..] == g[1..] + b;
      LexUnfolds(s, false, 0);
      LexShift(s[1..], false, 0, 1);
      TokensBehindGap(g[1..], b);
      ShiftTwice(Tokens(b), |g| - 1, 1);
    }
  }

  lemma ShiftTwice(toks: seq<Tok>, m: nat, n: nat)
    ensures ShiftAll(ShiftAll(toks, m), n) == ShiftAll(toks, m + n)
  {}

  lemma TokensAcrossGap(a: Text, g: Text, b: Text)
    requires IsGap(g)
    ensures Tokens(a + g + b) == Tokens(a) + ShiftAll(Tokens(b), |a| + |g|)
  {
    hide Lex;
    assert In(g[0], Spaces) && a + g + b == a + [g[0]] + (g[1..] + b);
    TokensAcrossSpace(a, g[0], g[1..] + b);
    TokensBehindGap(g[1..], b);
    ShiftTwice(Tokens(b), |g| - 1, |a| + 1);
  }

  // ----- what stands behind a token -------------------------------------------------------------

  lemma {:induction false} CurrencyBehindGap(g: Text, b: Text)
    requires All(g, Spaces)
    ensures CurrencyAhead(g + b) == CurrencyAhead(b)
  {
    hide IsCurrencyWord;
    var n := PrefixLen(b, Spaces);
    var s := g + b;
    assert forall k | 0 <= k < |g| + n :: s[k] == if k < |g| then g[k] else b[k - |g|];
    assert |g| + n < |s| ==> s[|g| + n] == b[n];
    PrefixIs(s, Spaces, |g| + n);
    assert s[|g| + n..] == b[n..];
  }

  /** Whitespace ends a currency suffix. */
  lemma CurrencyStops(u: Text, r: Text)
    requires r != [] && r[0].Space? && !All(u, Spaces)
    ensures CurrencyAhead(u + r) == CurrencyAhead(u)
  {
    hide IsCurrencyWord;
    var n := PrefixLen(u, Spaces);
    var v := u[n..];
    assert n < |u|;
    PrefixOf(u, r, Spaces);
    PrefixOf(v, r, Letters);
    assert (u + r)[n..] == v + r;
    assert (v + r)[..PrefixLen(v, Letters)] == v[..PrefixLen(v, Letters)];
  }

  lemma LastEnds(text: Text, toks: seq<Tok>)
    requires InOrder(text, toks) && toks != []
    ensures toks[|toks| - 1].end <= |text| && forall t | t in toks :: t.end <= toks[|toks| - 1].end
  {
    forall t | t in toks ensures t.end <= toks[|toks| - 1].end {
      var y :| 0 <= y < |toks| && toks[y] == t;
      assert y < |toks| - 1 ==> t.end <= toks[|toks| - 1].start;
    }
  }

  lemma SpacesBehindLast(p: Text)
    requires Tokens(p) != []
    ensures var e := Tokens(p)[|Tokens(p)| - 1].end; e <= |p| && All(p[e..], Spaces)
  {
    hide Lex, WellCut, Solid, InOrder;
    TokensLossless(p);
    LastEnds(p, Tokens(p));
  }

  lemma WordBehindOther(p: Text, k: nat)
    requires k + 1 < |Tokens(p)|
    ensures var e := Tokens(p)[k].end; e <= |p| && !All(p[e..], Spaces)
  {
    hide Lex, WellCut;
    TokensLossless(p);
    var t, e := Tokens(p)[k + 1], Tokens(p)[k].end;
    assert t in Tokens(p) && Solid(t.text);
    assert t.text[0] == p[t.start] == p[e..][t.start - e];
  }

  /** What a step sees behind token `k`, where the token stands in front of a gap and `x`. */
  lemma FrontLooks(p: Text, g: Text, x: Text, k: nat)
    requires IsGap(g) && k < |Tokens(p)|
    ensures var s, t := p + g + x, Tokens(p)[k];
            var toks := Tokens(s);
            k < |toks| && toks[k] == t
            && ShorthandAhead(From(s, t.end)) == ShorthandAhead(From(p, t.end))
            && CurrencyAhead(From(s, t.end))
               == (if k + 1 == |Tokens(p)| then CurrencyAhead(x) else CurrencyAhead(From(p, t.end)))
            && GluedWord(t, Peek(toks, k + 1)) == GluedWord(t, Peek(Tokens(p), k + 1))
  {
    hide Lex, WellCut, Solid, CurrencyAhead, ShorthandAhead, From, JoinsDigits;
    TokensAcrossGap(p, g, x);
    TokensLossless(p);
    BehindFront(p, g, x, Tokens(p)[k].end);
    if k + 1 == |Tokens(p)| {
      LastLooks(p, g, x);
    } else {
      OtherLooks(p, g, x, k);
    }
  }

  lemma BehindFront(p: Text, g: Text, x: Text, e: nat)
    requires IsGap(g) && e <= |p|
    ensures From(p + g + x, e) == p[e..] + (g + x) && From(p, e) == p[e..]
    ensures ShorthandAhead(From(p + g + x, e)) == ShorthandAhead(From(p, e))
  {
    hide ShorthandAhead;
    assert (p + g + x)[e..] == p[e..] + (g + x);
    assert In(g[0], Spaces) && (g + x)[0] == g[0];
    ScaleLettersOf(p[e..], g + x);
  }

  lemma LastLooks(p: Text, g: Text, x: Text)
    requires IsGap(g) && Tokens(p) != []
    ensures CurrencyAhead(From(p + g + x, Tokens(p)[|Tokens(p)| - 1].end)) == CurrencyAhead(x)
  {
    hide Lex, CurrencyAhead, ShorthandAhead;
    SpacesBehindLast(p);
    var e := Tokens(p)[|Tokens(p)| - 1].end;
    BehindFront(p, g, x, e);
    assert p[e..] + (g + x) == (p[e..] + g) + x;
    CurrencyBehindGap(p[e..] + g, x);
  }

  lemma OtherLooks(p: Text, g: Text, x: Text, k: nat)
    requires IsGap(g) && k + 1 < |Tokens(p)|
    ensures var e := Tokens(p)[k].end; CurrencyAhead(From(p + g + x, e)) == CurrencyAhead(From(p, e))
  {
    hide Lex, CurrencyAhead, ShorthandAhead;
    WordBehindOther(p, k);
    var e := Tokens(p)[k].end;
    BehindFront(p, g, x, e);
    assert In(g[0], Spaces) && (g + x)[0] == g[0];
    CurrencyStops(p[e..], g + x);
  }

  /** The same for a token of `x`. */
  lemma BackLooks(p: Text, g: Text, x: Text, k: nat)
    requires IsGap(g) && k < |Tokens(x)|
    ensures var s, t, n, d := p + g + x, Tokens(x)[k], |Tokens(p)|, |p| + |g|;
            var toks := Tokens(s);
            n + k < |toks| == n + |Tokens(x)| && toks[n + k] == Shift(t, d)
            && From(s, t.end + d) == From(x, t.end)
            && GluedWord(toks[n + k], Peek(toks, n + k + 1)) == GluedWord(t, Peek(Tokens(x), k + 1))
  {
    hide Lex, From, JoinsDigits;
    TokensAcrossGap(p, g, x);
    FromShift(p + g, x, Tokens(x)[k].end);
  }

  // ----- the shape of what is between two tokens ------------------------------------------------

  lemma GapBetween(s: Text, x: nat, y: nat, z: nat)
    requires x <= z < y <= |s| && s[z].Space?
    ensures !IsPhoneShape(Slice(s, x, y)) && !IsYearShape(Slice(s, x, y))
  {
    assert s[x..y][z - x] == s[z] && !In(s[z], Digits);
  }

  lemma FrontSlice(p: Text, g: Text, x: Text, i: nat, j: nat)
    requires IsGap(g) && i <= j < |Tokens(p)|
    ensures var s := p + g + x;
            j < |Tokens(s)|
            && Slice(s, Tokens(s)[i].start, Tokens(s)[j].end) == Slice(p, Tokens(p)[i].start, Tokens(p)[j].end)
  {
    hide Lex, WellCut, Solid, Slice;
    TokensAcrossGap(p, g, x);
    TokensLossless(p);
    assert p + g + x == p + (g + x);
    SliceWithin(p, g + x, Tokens(p)[i].start, Tokens(p)[j].end);
  }

  lemma BackSlice(p: Text, g: Text, x: Text, i: nat, j: nat)
    requires IsGap(g) && i <= j < |Tokens(x)|
    ensures var s, n := p + g + x, |Tokens(p)|;
            n + j < |Tokens(s)|
            && Slice(s, Tokens(s)[n + i].start, Tokens(s)[n + j].end) == Slice(x, Tokens(x)[i].start, Tokens(x)[j].end)
  {
    hide Lex, WellCut, Solid, Slice;
    TokensAcrossGap(p, g, x);
    TokensLossless(x);
    SliceShift(p + g, x, Tokens(x)[i].start, Tokens(x)[j].end);
  }

  lemma CrossSlice(p: Text, g: Text, x: Text, i: nat, j: nat)
    requires IsGap(g) && i < |Tokens(p)| <= j < |Tokens(p)| + |Tokens(x)|
    ensures var s := p + g + x;
            j < |Tokens(s)|
            && var raw := Slice(s, Tokens(s)[i].start, Tokens(s)[j].end); !IsPhoneShape(raw) && !IsYearShape(raw)
  {
    hide Lex, WellCut, Solid, Slice, IsPhoneShape, IsYearShape;
    TokensAcrossGap(p, g, x);
    TokensLossless(p);
    TokensLossless(x);
    var s := p + g + x;
    assert In(g[0], Spaces) && s[|p|] == g[0];
    assert Tokens(s)[i] == Tokens(p)[i] && Tokens(s)[j] == Shift(Tokens(x)[j - |Tokens(p)|], |p| + |g|);
    GapBetween(s, Tokens(s)[i].start, Tokens(s)[j].end, |p|);
  }

  // ----- joining ---------------------------------------------------------------------------------

  lemma SensibleTokens(s: Text)
    ensures Sensible(Tokens(s))
  {
    hide Lex, WellCut, Solid;
    TokensLossless(s);
  }

  lemma SameAt(s: Text, t: Text, k: nat)
    requires SameTokens(s, t) && k < |Tokens(s)|
    ensures LooksSame(ViewOf(s), ViewOf(t), k)
  {
    hide Lex, LooksSame, ShapeSame, WellCut;
  }

  lemma SameCount(s: Text, t: Text)
    requires SameTokens(s, t)
    ensures |Tokens(s)| == |Tokens(t)|
  {
    hide Lex, LooksSame, ShapeSame, WellCut;
  }

  lemma SameShape(s: Text, t: Text, i: nat, j: nat)
    requires SameTokens(s, t) && i <= j < |Tokens(s)|
    ensures ShapeSame(ViewOf(s), ViewOf(t), i, j)
  {
    hide Lex, LooksSame, ShapeSame, WellCut;
  }

  lemma JoinLooks(p: Text, g: Text, x: Text, q: Text, h: Text, y: Text, k: nat)
    requires IsGap(g) && IsGap(h) && SameTokens(p, q) && SameTokens(x, y) && CurrencyAhead(x) == CurrencyAhead(y)
    requires k < |Tokens(p)| + |Tokens(x)|
    ensures LooksSame(ViewOf(p + g + x), ViewOf(q + h + y), k)
  {
    hide Lex, SameTokens, IsGap, CurrencyAhead, ShorthandAhead, From, GluedWord;
    TokensCounted(p, g, x);
    TokensCounted(q, h, y);
    SameCount(p, q);
    SameCount(x, y);
    if k < |Tokens(p)| {
      SameAt(p, q, k);
      FrontLooks(p, g, x, k);
      FrontLooks(q, h, y, k);
    } else {
      var i := k - |Tokens(p)|;
      SameAt(x, y, i);
      BackLooks(p, g, x, i);
      BackLooks(q, h, y, i);
    }
  }

  lemma TokensCounted(p: Text, g: Text, x: Text)
    requires IsGap(g)
    ensures |Tokens(p + g + x)| == |Tokens(p)| + |Tokens(x)|
  {
    hide Lex;
    TokensAcrossGap(p, g, x);
  }

  lemma JoinShape(p: Text, g: Text, x: Text, q: Text, h: Text, y: Text, i: nat, j: nat)
    requires IsGap(g) && IsGap(h) && SameTokens(p, q) && SameTokens(x, y)
    requires i <= j < |Tokens(p)| + |Tokens(x)|
    ensures ShapeSame(ViewOf(p + g + x), ViewOf(q + h + y), i, j)
  {
    hide Lex, SameTokens, IsGap, Slice, IsPhoneShape, IsYearShape;
    TokensCounted(p, g, x);
    TokensCounted(q, h, y);
    SameCount(p, q);
    SameCount(x, y);
    var n := |Tokens(p)|;
    if j < n {
      SameShape(p, q, i, j);
      FrontSlice(p, g, x, i, j);
      FrontSlice(q, h, y, i, j);
    } else if i < n {
      CrossSlice(p, g, x, i, j);
      CrossSlice(q, h, y, i, j);
    } else {
      SameShape(x, y, i - n, j - n);
      BackSlice(p, g, x, i - n, j - n);
      BackSlice(q, h, y, i - n, j - n);
    }
  }

  /** Joining with any whitespace keeps texts alike. */
  lemma JoinSame(p: Text, g: Text, x: Text, q: Text, h: Text, y: Text)
    requires IsGap(g) && IsGap(h) && SameTokens(p, q) && SameTokens(x, y) && CurrencyAhead(x) == CurrencyAhead(y)
    ensures SameTokens(p + g + x, q + h + y)
  {
    hide Lex, LooksSame, ShapeSame, CurrencyAhead, IsGap, WellCut, Sensible;
    var v, w := ViewOf(p + g + x), ViewOf(q + h + y);
    TokensCounted(p, g, x);
    TokensCounted(q, h, y);
    SameCount(p, q);
    SameCount(x, y);
    SensibleTokens(p + g + x);
    SensibleTokens(q + h + y);
    forall k | 0 <= k < |v.toks| ensures LooksSame(v, w, k) { JoinLooks(p, g, x, q, h, y, k); }
    forall i, j | 0 <= i <= j < |v.toks| ensures ShapeSame(v, w, i, j) { JoinShape(p, g, x, q, h, y, i, j); }
  }

  lemma SameSelf(s: Text)
    ensures SameTokens(s, s)
  {
    hide Lex, ShorthandAhead, CurrencyAhead, From, GluedWord, Slice, IsPhoneShape, IsYearShape, WellCut;
    SensibleTokens(s);
  }

  /** The width and the kind of whitespace between two words do not change the values of a text. */
  lemma GapsDoNotMatter(a: Text, g: Text, h: Text, b: Text)
    requires IsGap(g) && IsGap(h)
    ensures Valued(a + g + b) == Valued(a + h + b)
  {
    hide Lex, SameTokens, IsGap, CurrencyAhead, Valued;
    SameSelf(a);
    SameSelf(b);
    JoinSame(a, g, b, a, h, b);
    SameValues(a + g + b, a + h + b);
  }

  lemma SameValues(s: Text, t: Text)
    requires SameTokens(s, t)
    ensures Valued(s) == Valued(t)
  {
    hide Lex, Alike, Valued;
    ValuesAlike(s, t);
  }
}
