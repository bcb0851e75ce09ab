/** Amounts in digits however they are laid out: "10tr 500k", "10 triệu   500 nghìn". */
module Layouts {
  import opened Text
  import opened Vocabulary
  import opened Lexer
  import opened Lexing
  import opened Machine
  import opened Invariants
  import opened Words
  import opened DigitGroups
  import opened SpokenTails
  import opened Names
  import opened Placement
  import opened Spacing

  // ----- any words, any gaps --------------------------------------------------------------------

  predicate AreGaps(gaps: seq<Text>) { forall k | 0 <= k < |gaps| :: IsGap(gaps[k]) }

  lemma OpensAlike(ws: seq<Text>, gaps: seq<Text>)
    requires |ws| == |gaps| + 1 && AreGaps(gaps) && AreChunks(ws)
    ensures CurrencyAhead(SetOut(ws, gaps)) == CurrencyAhead(ws[0])
  {
    hide CurrencyAhead;
    assert IsChunk(ws[0]);
    if gaps != [] {
      var r := gaps[0] + SetOut(ws[1..], gaps[1..]);
      assert SetOut(ws, gaps) == ws[0] + r;
      assert IsGap(gaps[0]) && In(gaps[0][0], Spaces) && r[0] == gaps[0][0];
      assert !In(ws[0][0], Spaces);
      CurrencyStops(ws[0], r);
    }
  }

  function Blanks(n: nat): seq<Text> { seq(n, _ => [BLANK]) }

  lemma {:induction false} JoinIsSetOut(ws: seq<Text>)
    requires ws != []
    ensures Join(ws) == SetOut(ws, Blanks(|ws| - 1))
    decreases |ws|
  {
    if |ws| > 1 {
      JoinIsSetOut(ws[1..]);
      assert Blanks(|ws| - 1)[1..] == Blanks(|ws| - 2);
    }
  }

  lemma {:induction false} SetOutSame(ws: seq<Text>, gaps: seq<Text>, others: seq<Text>)
    requires |ws| == |gaps| + 1 == |others| + 1 && AreGaps(gaps) && AreGaps(others) && AreChunks(ws)
    ensures SameTokens(SetOut(ws, gaps), SetOut(ws, others))
    decreases |ws|
  {
    hide SameTokens, CurrencyAhead, IsGap, IsChunk;
    if gaps == [] {
      SameSelf(ws[0]);
    } else {
      SetOutSame(ws[1..], gaps[1..], others[1..]);
      OpensAlike(ws[1..], gaps[1..]);
      OpensAlike(ws[1..], others[1..]);
      SameSelf(ws[0]);
      JoinSame(ws[0], gaps[0], SetOut(ws[1..], gaps[1..]), ws[0], others[0], SetOut(ws[1..], others[1..]));
    }
  }

  /** Words set out with any whitespace have the values of the words with single blanks: every round
      trip holds for any spacing. */
  lemma SpacingDoesNotMatter(ws: seq<Text>, gaps: seq<Text>)
    requires |ws| == |gaps| + 1 && AreGaps(gaps) && AreChunks(ws)
    ensures Valued(SetOut(ws, gaps)) == Valued(Join(ws))
  {
    hide SameTokens, Valued, AreChunks, SetOut, Join;
    BlankGaps(|gaps|);
    JoinIsSetOut(ws);
    SetOutSame(ws, gaps, Blanks(|gaps|));
    SameValues(SetOut(ws, gaps), Join(ws));
  }

  lemma BlankGaps(n: nat)
    ensures AreGaps(Blanks(n))
  {
    assert IsGap([BLANK]);
  }

  // ----- a scale written against its number -----------------------------------------------------

  lemma NoShorthand(w: Text)
    requires All(w, Letters)
    ensures !ShorthandAhead(w)
  {
    var m := ShortScale(w);
    if m < |w| { assert In(w[m], Letters); }
  }

  /** What the lexer cuts from a numeral with letters behind it. */
  lemma GluedShape(n: Text, w: Text)
    requires IsNumeral(n) && IsWord(w)
    ensures var s, d := n + w, |n|;
            BodyLen(s) == d && ShorthandLen(s) == 0 && s[d..] == w && s[..d] == n && s[0].Dig?
            && GluedLen(w) == (if IsGluedScale(Lower(w)) then |w| else 0)
  {
    hide IsGluedScale;
    var s, d := n + w, |n|;
    assert s[d..] == w && w[0..] == w && w[..|w|] == w && s[..d] == n;
    assert In(w[0], Letters) && s[d] == w[0];
    assert BodyLen(s) == d by { BodyOf(n, w); }
    NoShorthandBehind(n, w);
    PrefixIs(w, WordChars, |w|);
    PrefixIs(w, Letters, |w|);
  }

  lemma NoShorthandBehind(n: Text, w: Text)
    requires IsNumeral(n) && IsWord(w)
    ensures ShorthandLen(n + w) == 0
  {
    var d := PrefixLen(n, Digits);
    NumeralGoesOn(n);
    hide BodyLen;
    assert In(w[0], Letters) && (n + w)[d..] == n[d..] + w;
    PrefixOf(n, w, Digits);
    if d == |n| {
      assert (n + w)[d..] == w;
      NoShorthand(w);
    } else {
      assert (n + w)[d..][0] == n[d];
    }
  }

  function NumberTok(n: Text): Tok { Num(n, 0, |n|, ValueOf(n), Absent) }

  function ScaleTok(w: Text, pos: nat): Tok { Word(w, pos, pos + |w|, WordFor(w)) }

  lemma GluedMunch(n: Text, w: Text)
    requires IsNumeral(n) && IsWord(w)
    ensures var s := n + w;
            s[0].Dig?
            && MunchNumber(s, 0) == if IsGluedScale(Lower(w)) then Cut([NumberTok(n)] + [ScaleTok(w, |n|)], |s|)
                                    else Cut([NumberTok(n)], |n|)
  {
    GluedShape(n, w);
    hide BodyLen, ShorthandLen, GluedLen, WordOf, IsGluedScale, ParseNumText;
    assert (n + w)[|n|..][..|w|] == w;
  }

  lemma WordBehindNumber(w: Text, pos: nat)
    requires IsWord(w)
    ensures Lex(w, true, pos) == [ScaleTok(w, pos)]
  {
    hide Lex, WordOf;
    assert In(w[0], Letters) && w[|w|..] == [] && w[..|w|] == w;
    PrefixIs(w, Letters, |w|);
    LexUnfolds(w, true, pos);
    LexEmpty([], IsWordChar(w[|w| - 1]), pos + |w|);
  }

  lemma ListedTokens(n: Text, w: Text)
    requires IsNumeral(n) && IsWord(w) && IsGluedScale(Lower(w))
    ensures Tokens(n + w) == [NumberTok(n), ScaleTok(w, |n|)]
  {
    GluedMunch(n, w);
    hide Lex, MunchNumber, WordOf, IsGluedScale, BodyLen, NumberTok, ScaleTok;
    var s := n + w;
    assert s[|s|..] == [];
    LexUnfolds(s, false, 0);
    LexEmpty([], IsWordChar(s[|s| - 1]), |s|);
  }

  lemma CutThenRest(s: Text, t: Tok, d: nat)
    requires s != [] && s[0].Dig? && MunchNumber(s, 0) == Cut([t], d)
    ensures 0 < d <= |s| && Tokens(s) == [t] + Lex(s[d..], IsWordChar(s[d - 1]), d)
  {
    hide Lex, MunchNumber;
    LexUnfolds(s, false, 0);
  }

  lemma OtherTokens(n: Text, w: Text)
    requires IsNumeral(n) && IsWord(w) && !IsGluedScale(Lower(w))
    ensures Tokens(n + w) == [NumberTok(n), ScaleTok(w, |n|)]
  {
    hide Lex, MunchNumber, WordFor, IsGluedScale, NumberTok, ScaleTok, IsNumeral;
    GluedMunch(n, w);
    CutThenRest(n + w, NumberTok(n), |n|);
    NumeralEnds(n);
    WordBehindNumber(w, |n|);
    assert (n + w)[|n|..] == w && (n + w)[|n| - 1] == n[|n| - 1];
  }

  /** Letters written against a numeral are a word of their own, in the list of glued scales or not. */
  lemma GluedTokens(n: Text, w: Text)
    requires IsNumeral(n) && IsWord(w)
    ensures Tokens(Together(n, w)) == [NumberTok(n), ScaleTok(w, |n|)]
  {
    hide Tokens, WordOf, IsGluedScale, BodyLen, NumberTok, ScaleTok;
    if IsGluedScale(Lower(w)) { ListedTokens(n, w); } else { OtherTokens(n, w); }
  }

  lemma NumeralEnds(n: Text)
    requires IsNumeral(n)
    ensures IsWordChar(n[|n| - 1])
  {
    var d, w := PrefixLen(n, Digits), WholeLen(n);
    if w < |n| {
      assert FractionLen(n[w..]) == |n| - w;
      assert n[|n| - 1] == n[w..][1..][|n| - w - 2];
    } else if d < |n| {
      GroupsEnd(n[d..]);
      assert n[|n| - 1] == n[d..][|n| - d - 1];
    }
  }

  lemma {:induction false} GroupsEnd(s: Text)
    requires s != [] && GroupsLen(s) == |s|
    ensures s[|s| - 1].Dig?
    decreases |s|
  {
    if |s| > 4 {
      GroupsEnd(s[4..]);
      assert s[|s| - 1] == s[4..][|s| - 5];
    } else {
      assert s[3] == s[1..][2];
    }
  }

  function Apart(n: Text, w: Text): Text { n + [BLANK] + w }

  function Together(n: Text, w: Text): Text { n + w }

  lemma NumberToken(n: Text)
    requires IsNumeral(n)
    ensures Tokens(n) == [NumberTok(n)]
  {
    hide Lex, ValueOf, WordFor, BodyLen;
    ChunkLex(n);
  }

  lemma ScaleToken(w: Text)
    requires IsWord(w)
    ensures Tokens(w) == [ScaleTok(w, 0)]
  {
    hide Lex, ValueOf, WordFor;
    assert In(w[0], Letters);
    ChunkLex(w);
  }

  lemma TwoAcross(a: Text, b: Text, t: Tok, u: Tok)
    requires Tokens(a) == [t] && Tokens(b) == [u]
    ensures Tokens(a + [BLANK] + b) == [t, Shift(u, |a| + 1)]
  {
    hide Tokens, Shift;
    TokensAcrossGap(a, [BLANK], b);
    OneShifted(u, |a| + 1);
  }

  lemma OneShifted(t: Tok, d: nat)
    ensures ShiftAll([t], d) == [Shift(t, d)]
  {}

  lemma ApartTokens(n: Text, w: Text)
    requires IsNumeral(n) && IsWord(w)
    ensures Tokens(Apart(n, w)) == [NumberTok(n), ScaleTok(w, |n| + 1)]
  {
    hide Tokens, WordFor, ValueOf, NumberTok;
    NumberToken(n);
    ScaleToken(w);
    TwoAcross(n, w, NumberTok(n), ScaleTok(w, 0));
  }

  /** What stands behind the two tokens, and between them. */
  lemma Surroundings(n: Text, w: Text)
    requires IsWord(w)
    ensures var d, s, t := |n|, Apart(n, w), Together(n, w);
            |s| == d + 1 + |w| && |t| == d + |w|
            && From(s, d) == [BLANK] + w && From(t, d) == w && From(s, |s|) == [] && From(t, |t|) == []
            && Slice(s, 0, d) == n == Slice(t, 0, d)
  {}

  lemma EndsInLetters(a: Text, w: Text, x: nat)
    requires IsWord(w) && x <= |a|
    ensures var raw := Slice(a + w, x, |a| + |w|); !IsPhoneShape(raw) && !IsYearShape(raw)
  {
    hide IsPhoneShape, IsYearShape;
    assert In(w[0], Letters) && (a + w)[x..][|a| - x] == w[0];
    WithLetters((a + w)[x..], |a| - x);
    assert (a + w)[x..] == (a + w)[x..|a + w|];
  }

  lemma WithLetters(s: Text, k: nat)
    requires k < |s| && s[k].Let?
    ensures !IsPhoneShape(s) && !IsYearShape(s)
  {
    assert !In(s[k], Digits);
  }

  lemma BlankAhead(w: Text)
    ensures !ShorthandAhead([BLANK] + w)
  {}

  /** Two texts of two tokens are the same but for places. */
  lemma TwoSame(s: Text, t: Text, a: Tok, b: Tok, b': Tok)
    requires Tokens(s) == [a, b] && Tokens(t) == [a, b'] && Unplaced(b) == Unplaced(b')
    requires b.end == |s| && b'.end == |t|
    requires ShorthandAhead(From(t, a.end)) == ShorthandAhead(From(s, a.end))
    requires CurrencyAhead(From(t, a.end)) == CurrencyAhead(From(s, a.end))
    requires GluedWord(a, Some(b')) == GluedWord(a, Some(b))
    requires From(s, |s|) == From(t, |t|) && Slice(s, a.start, a.end) == Slice(t, a.start, a.end)
    requires forall x | x == a.start || x == b.start ::
               !IsPhoneShape(Slice(s, x, |s|)) && !IsYearShape(Slice(s, x, |s|))
    requires forall x | x == a.start || x == b'.start ::
               !IsPhoneShape(Slice(t, x, |t|)) && !IsYearShape(Slice(t, x, |t|))
    ensures SameTokens(s, t)
  {
    hide Lex, WellCut, Sensible, ShorthandAhead, CurrencyAhead, From, Slice, IsPhoneShape, IsYearShape, JoinsDigits;
    SensibleTokens(s);
    SensibleTokens(t);
    var v, w := ViewOf(s), ViewOf(t);
    assert LooksSame(v, w, 0) && LooksSame(v, w, 1);
    assert ShapeSame(v, w, 0, 0) && ShapeSame(v, w, 0, 1) && ShapeSame(v, w, 1, 1);
  }

  lemma GluedSame(n: Text, w: Text)
    requires IsNumeral(n) && IsWord(w) && WordFor(w).Scale?
    ensures SameTokens(Apart(n, w), Together(n, w))
  {
    hide Lex, WordFor, IsNumeral, SameTokens, ShorthandAhead, CurrencyAhead, IsPhoneShape, IsYearShape, From,
      Slice, ValueOf;
    var d := |n|;
    GluedTokens(n, w);
    ApartTokens(n, w);
    Surroundings(n, w);
    CurrencyBehindGap([BLANK], w);
    NoShorthand(w);
    BlankAhead(w);
    LettersToTheEnd(n + [BLANK], w);
    LettersToTheEnd(n, w);
    assert Apart(n, w) == n + [BLANK] + w && Together(n, w) == n + w;
    TwoSame(Apart(n, w), Together(n, w), NumberTok(n), ScaleTok(w, d + 1), ScaleTok(w, d));
  }

  /** From the start, or from the scale, to the end there are letters. */
  predicate LettersBehind(a: Text, w: Text) {
    var s := a + w;
    !IsPhoneShape(Slice(s, 0, |s|)) && !IsYearShape(Slice(s, 0, |s|))
    && !IsPhoneShape(Slice(s, |a|, |s|)) && !IsYearShape(Slice(s, |a|, |s|))
  }

  lemma LettersToTheEnd(a: Text, w: Text)
    requires IsWord(w)
    ensures LettersBehind(a, w)
  {
    hide IsPhoneShape, IsYearShape, Slice, In;
    EndsInLetters(a, w, 0);
    EndsInLetters(a, w, |a|);
  }

  // ----- groups in any layout -------------------------------------------------------------------

  function OneLaidOut(g: Group, inner: Text): Text { g.count + inner + g.scale }

  function LaidOut(gs: seq<Group>, inner: seq<Text>, outer: seq<Text>): Text
    requires gs != [] && |inner| == |gs| == |outer| + 1
  {
    if |gs| == 1 then OneLaidOut(gs[0], inner[0])
    else OneLaidOut(gs[0], inner[0]) + outer[0] + LaidOut(gs[1..], inner[1..], outer[1..])
  }

  lemma OneSame(g: Group, inner: Text)
    requires IsGroup(g) && All(inner, Spaces)
    ensures SameTokens(OneLaidOut(g, [BLANK]), OneLaidOut(g, inner))
  {
    hide SameTokens, WordOf, CurrencyAhead, BodyLen;
    assert OneLaidOut(g, [BLANK]) == Apart(g.count, g.scale);
    if inner == [] {
      assert g.count + [] + g.scale == g.count + g.scale;
      GluedSame(g.count, g.scale);
    } else {
      SameSelf(g.count);
      SameSelf(g.scale);
      assert IsGap([BLANK]);
      JoinSame(g.count, [BLANK], g.scale, g.count, inner, g.scale);
    }
  }

  lemma LaidOutOpens(gs: seq<Group>, inner: seq<Text>, outer: seq<Text>)
    requires gs != [] && IsGroup(gs[0]) && |inner| == |gs| == |outer| + 1
    ensures !CurrencyAhead(LaidOut(gs, inner, outer))
  {
    hide BodyLen, WordFor;
    DigitAhead(LaidOut(gs, inner, outer));
    hide CurrencyAhead;
  }

  lemma {:induction false} LaidOutSame(gs: seq<Group>, inner: seq<Text>, outer: seq<Text>)
    requires gs != [] && AreGroups(gs) && |inner| == |gs| == |outer| + 1 && AreGaps(outer)
    requires forall k | 0 <= k < |gs| :: All(inner[k], Spaces)
    ensures SameTokens(LaidOut(gs, Blanks(|gs|), Blanks(|gs| - 1)), LaidOut(gs, inner, outer))
    decreases |gs|
  {
    hide SameTokens, CurrencyAhead, IsGap, IsGroup, OneLaidOut;
    OneSame(gs[0], inner[0]);
    if |gs| > 1 {
      LaidOutSame(gs[1..], inner[1..], outer[1..]);
      LaidOutOpens(gs[1..], inner[1..], outer[1..]);
      LaidOutOpens(gs[1..], Blanks(|gs| - 1), Blanks(|gs| - 2));
      assert Blanks(|gs|)[1..] == Blanks(|gs| - 1) && Blanks(|gs| - 1)[1..] == Blanks(|gs| - 2);
      BlankGaps(1);
      assert Blanks(1)[0] == [BLANK];
      JoinSame(OneLaidOut(gs[0], [BLANK]), [BLANK], LaidOut(gs[1..], Blanks(|gs| - 1), Blanks(|gs| - 2)),
               OneLaidOut(gs[0], inner[0]), outer[0], LaidOut(gs[1..], inner[1..], outer[1..]));
    }
  }

  lemma JoinPair(c: Text, w: Text, rest: seq<Text>)
    requires rest != []
    ensures Join([c, w] + rest) == (c + [BLANK] + w) + [BLANK] + Join(rest)
  {
    var ws := [c, w] + rest;
    assert ws[1..] == [w] + rest && ws[1..][1..] == rest;
    assert Join(ws) == c + [BLANK] + (w + [BLANK] + Join(rest));
  }

  lemma {:induction false} JoinIsLaidOut(gs: seq<Group>)
    requires gs != []
    ensures Join(GroupWords(gs)) == LaidOut(gs, Blanks(|gs|), Blanks(|gs| - 1))
    decreases |gs|
  {
    hide Join;
    var c, w, rest := gs[0].count, gs[0].scale, GroupWords(gs[1..]);
    assert GroupWords(gs) == [c, w] + rest;
    if |gs| == 1 {
      assert [c, w] + rest == [c, w];
      JoinLastPair(c, w);
    } else {
      JoinIsLaidOut(gs[1..]);
      JoinPair(c, w, rest);
      assert Blanks(|gs|)[1..] == Blanks(|gs| - 1) && Blanks(|gs| - 1)[1..] == Blanks(|gs| - 2);
    }
  }

  lemma JoinLastPair(c: Text, w: Text)
    ensures Join([c, w]) == c + [BLANK] + w
  {
    assert [c, w][1..] == [w];
  }

  /** The digit round trip for every layout: any whitespace between the groups, and between a numeral
      and its scale any whitespace or none: "10tr 500k", "0,5tỷ", "5củ". */
  lemma AnyLayout(gs: seq<Group>, inner: seq<Text>, outer: seq<Text>)
    requires gs != [] && AreGroups(gs) && |inner| == |gs| == |outer| + 1 && AreGaps(outer)
    requires forall k | 0 <= k < |gs| :: All(inner[k], Spaces)
    ensures Valued(LaidOut(gs, inner, outer)) == if SomeCount(gs) then [RoundHalfUp(ReadSum(gs))] else []
  {
    hide SameTokens, Amounts, IsGap, IsGroup, LaidOut, Join, SomeCount, ReadSum, RoundHalfUp, All;
    DigitRoundTrip(gs);
    JoinIsLaidOut(gs);
    LaidOutSame(gs, inner, outer);
    SameValues(Join(GroupWords(gs)), LaidOut(gs, inner, outer));
    if SomeCount(gs) { ValuedOne(Join(GroupWords(gs)), RoundHalfUp(ReadSum(gs))); }
  }
}
