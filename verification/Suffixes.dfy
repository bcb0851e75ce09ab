/** A currency suffix speaks for any number: "2024đ", "5 đồng", "100₫". */
module Suffixes {
  import opened Text
  import opened Vocabulary
  import opened Lexer
  import opened Lexing
  import opened Machine
  import opened Composition
  import opened Barrier
  import opened Words
  import opened Accepting
  import opened SpokenTails
  import opened Names
  import opened Spacing
  import opened Layouts

  /** A currency word, or the sign. */
  predicate IsSuffix(c: Text) { (IsWord(c) && IsCurrency(c)) || c == [CURRENCY_SIGN] }

  // ----- the tokens -----------------------------------------------------------------------------

  function SuffixTok(c: Text, pos: nat): Tok
    requires c != []
  {
    if c[0].Let? then ScaleTok(c, pos) else Other(c, pos, pos + 1)
  }

  lemma WordSuffixTokens(n: Text, g: Text, c: Text)
    requires IsNumeral(n) && All(g, Spaces) && IsWord(c)
    ensures Tokens(n + g + c) == [NumberTok(n), ScaleTok(c, |n| + |g|)]
  {
    hide Tokens, WordFor, NumberTok, IsNumeral, Shift, ScaleTok;
    if g == [] {
      GluedTokens(n, c);
      assert n + [] + c == Together(n, c);
    } else {
      NumberToken(n);
      ScaleToken(c);
      TokensAcrossGap(n, g, c);
      OneShifted(ScaleTok(c, 0), |n| + |g|);
      ScaleShifted(c, |n| + |g|);
    }
  }

  lemma ScaleShifted(c: Text, d: nat)
    ensures Shift(ScaleTok(c, 0), d) == ScaleTok(c, d)
  {
    hide WordFor;
  }

  lemma SignTokens(n: Text, g: Text)
    requires IsNumeral(n) && All(g, Spaces)
    ensures Tokens(n + g + [CURRENCY_SIGN]) == [NumberTok(n), Other([CURRENCY_SIGN], |n| + |g|, |n| + |g| + 1)]
  {
    hide Lex, NumberTok, IsNumeral;
    NumberToken(n);
    LexEmpty([], false, 0);
    if g == [] {
      assert n + g == n;
    } else {
      TokensAcrossGap(n, g, []);
      assert n + g + [] == n + g;
    }
    TokensAcrossMark(n + g, CURRENCY_SIGN, []);
    assert n + g + [CURRENCY_SIGN] + [] == n + g + [CURRENCY_SIGN];
  }

  lemma SuffixTokens(n: Text, g: Text, c: Text)
    requires IsNumeral(n) && All(g, Spaces) && IsSuffix(c)
    ensures Tokens(n + g + c) == [NumberTok(n), SuffixTok(c, |n| + |g|)]
    ensures var t := SuffixTok(c, |n| + |g|); t.Other? || (t.Word? && t.word.Plain?)
  {
    hide Tokens, WordFor, NumberTok, IsNumeral, IsCurrency;
    if c == [CURRENCY_SIGN] {
      SignTokens(n, g);
    } else {
      assert In(c[0], Letters);
      WordSuffixTokens(n, g, c);
      CurrencyIsPlain(c);
    }
  }

  // ----- what stands behind the number ----------------------------------------------------------

  lemma SuffixAhead(n: Text, g: Text, c: Text)
    requires All(g, Spaces) && IsSuffix(c)
    ensures var text := n + g + c;
            From(text, |n|) == g + c && Slice(text, 0, |n|) == n && CurrencyAhead(g + c) && !ShorthandAhead(g + c)
  {
    hide IsCurrencyWord;
    var text := n + g + c;
    assert text[|n|..] == g + c && text[0..|n|] == n;
    CurrencyBehindGap(g, c);
    if c == [CURRENCY_SIGN] { SignAhead(); } else { WordAhead(c); }
    if g != [] {
      assert In(g[0], Spaces) && (g + c)[0] == g[0];
    } else {
      assert g + c == c;
    }
  }

  lemma SignAhead()
    ensures CurrencyAhead([CURRENCY_SIGN]) && !ShorthandAhead([CURRENCY_SIGN])
  {
    var c := [CURRENCY_SIGN];
    PrefixIs(c, Spaces, 0);
    assert c[0..] == c;
  }

  lemma WordAhead(c: Text)
    requires IsWord(c) && IsCurrency(c)
    ensures CurrencyAhead(c) && !ShorthandAhead(c)
  {
    hide CurrencyAhead, IsCurrency;
    WordIsCurrency(c, []);
    assert c + [] == c;
    NoShorthand(c);
  }

  // ----- the amount -----------------------------------------------------------------------------

  lemma PaidStep(text: Text, toks: seq<Tok>, n: Text, t: Tok)
    requires n != [] && toks == [NumberTok(n), t] && (t.Other? || (t.Word? && t.word.Plain?))
             && !ShorthandAhead(From(text, |n|))
    ensures var s := Began(Fresh(|n|), n, |n|);
            Step(text, toks, 0, Fresh(|n|)) == Go(s, 1) && Step(text, toks, 1, s) == Stop(s) && !StartsRun(t)
  {
    hide ShorthandAhead, From, ValueOf, DigitCount;
    var f := Fresh(|n|);
    assert ReadingOf(text, toks, 0, f) == First;
    hide ReadingOf;
    assert !GluedWord(toks[0], Peek(toks, 1));
  }

  lemma PaidJudged(text: Text, toks: seq<Tok>, n: Text, t: Tok)
    requires toks == [NumberTok(n), t] && Slice(text, 0, |n|) == n && CurrencyAhead(From(text, |n|))
    ensures Judge(text, toks, 0, 1, Began(Fresh(|n|), n, |n|))
         == if ValueOf(n) > 0.0 && !IsPhoneShape(n) then Some(Match(RoundHalfUp(ValueOf(n)), n, 0, |n|)) else None
  {
    hide CurrencyAhead, From, ValueOf, DigitCount, IsPhoneShape, IsYearShape, Slice, RoundHalfUp, IsDigitText;
    assert GrandTotal(Began(Fresh(|n|), n, |n|)) == ValueOf(n);
  }

  /** A currency suffix behind a numeral, glued to it or not, makes it an amount whatever its length and
      even if it has the shape of a year; only zero and phone numbers are refused. */
  lemma SuffixSpeaks(n: Text, g: Text, c: Text)
    requires IsNumeral(n) && All(g, Spaces) && IsSuffix(c)
    ensures Amounts(n + g + c)
         == if ValueOf(n) > 0.0 && !IsPhoneShape(n) then [Match(RoundHalfUp(ValueOf(n)), n, 0, |n|)] else []
  {
    hide Tokens, Run, Step, Scan, Judge, ValueOf, IsNumeral, IsPhoneShape, RoundHalfUp, CurrencyAhead,
      ShorthandAhead, From, IsSuffix, WordFor, SuffixTok;
    var text := n + g + c;
    var toks := Tokens(text);
    assert c != [] by { SuffixSolid(c); }
    assert n != [] by { NumeralGoesOn(n); }
    SuffixTokens(n, g, c);
    SuffixAhead(n, g, c);
    var t := toks[1];
    var f := Fresh(|n|);
    PaidStep(text, toks, n, t);
    PaidJudged(text, toks, n, t);
    RunUnfolds(text, toks, 0, f);
    RunUnfolds(text, toks, 1, Began(f, n, |n|));
    ScanUnfolds(text, toks, 0);
    ScanUnfolds(text, toks, 1);
    ScanEnd(text, toks);
  }

  lemma SuffixSolid(c: Text)
    requires IsSuffix(c)
    ensures c != []
  {
    hide IsCurrency;
  }

  /** So every whole number of đồng is read as that number. */
  lemma NumberOfDong(n: nat, g: Text, c: Text)
    requires n > 0 && All(g, Spaces) && IsSuffix(c)
    ensures Amounts(Decimal(n) + g + c) == [Match(n, Decimal(n), 0, |Decimal(n)|)]
  {
    hide Amounts, Decimal, ValueOf, IsNumeral, IsSuffix;
    DecimalNumeral(n);
    DecimalShape(n);
    RoundWhole(n);
    SuffixSpeaks(Decimal(n), g, c);
  }

  lemma DecimalShape(n: nat)
    requires n > 0
    ensures !IsPhoneShape(Decimal(n))
  {
    DecimalLength(n);
  }

  // ----- any text behind a number ---------------------------------------------------------------

  predicate IsDong(low: string) { low == "đ" || low == "đồng" || low == "vnđ" || low == "vnd" }

  /** Behind whitespace the characters `k` to `m` are a currency word or the sign, and no letter follows. */
  predicate PricedAt(t: Text, k: nat, m: nat) {
    k < m <= |t| && All(t[..k], Spaces) && (m < |t| ==> !t[m].Let?)
    && ((All(t[k..m], Letters) && IsDong(Lower(t[k..m]))) || t[k..m] == [Sym('₫')])
  }

  predicate IsPriced(t: Text) { exists k, m | 0 <= k < m <= |t| :: PricedAt(t, k, m) }

  lemma DongListed(low: string)
    ensures IsCurrencyWord(low) <==> IsDong(low)
  {}

  lemma PricedIsAhead(t: Text, k: nat, m: nat)
    requires PricedAt(t, k, m)
    ensures CurrencyAhead(t)
  {
    hide IsCurrencyWord, IsDong;
    var r := t[k..];
    assert forall x | 0 <= x < k :: t[x] == t[..k][x];
    assert t[k] == t[k..m][0];
    if t[k..m] == [CURRENCY_SIGN] {
      PrefixIs(t, Spaces, k);
      assert m == k + 1 && (|r| > 1 ==> r[1] == t[m]);
    } else {
      assert In(t[k..m][0], Letters);
      PrefixIs(t, Spaces, k);
      assert forall x | 0 <= x < m - k :: r[x] == t[k..m][x];
      assert m < |t| ==> r[m - k] == t[m];
      PrefixIs(r, Letters, m - k);
      assert r[..m - k] == t[k..m];
      DongListed(Lower(t[k..m]));
    }
  }

  lemma AheadIsPriced(t: Text)
    requires CurrencyAhead(t)
    ensures IsPriced(t)
  {
    hide IsCurrencyWord, IsDong;
    var k := PrefixLen(t, Spaces);
    var r := t[k..];
    var w := PrefixLen(r, Letters);
    assert All(t[..k], Spaces) && All(r[..w], Letters);
    if IsCurrencyWord(Lower(r[..w])) {
      DongListed(Lower(r[..w]));
      EmptyIsNoCurrency();
      assert |Lower(r[..w])| == w;
      assert t[k..k + w] == r[..w] && (k + w < |t| ==> r[w] == t[k + w]);
      assert PricedAt(t, k, k + w);
    } else {
      assert t[k..k + 1] == [CURRENCY_SIGN] && (k + 1 < |t| ==> r[1] == t[k + 1]);
      assert PricedAt(t, k, k + 1);
    }
  }

  lemma PricedExactly(t: Text)
    ensures CurrencyAhead(t) <==> IsPriced(t)
  {
    hide CurrencyAhead, PricedAt;
    if CurrencyAhead(t) { AheadIsPriced(t); }
    if k, m :| 0 <= k < m <= |t| && PricedAt(t, k, m) { PricedIsAhead(t, k, m); }
  }

  /** A text that stands apart from a number in front of it and does not go on with it. */
  predicate StandsApart(t: Text) {
    (t == [] || t[0].Space? || t[0].Sym?) && Detached(t)
    && (Tokens(t) == [] || Tokens(t)[0].Other? || (Tokens(t)[0].Word? && Tokens(t)[0].word.Plain?))
  }

  /** A numeral before such a text is an amount: it is more than zero and no phone number, and has a
      currency suffix behind it, or four digits and not the shape of a year. */
  predicate IsPaid(n: Text, t: Text) {
    ValueOf(n) > 0.0 && !IsPhoneShape(n) && (IsPriced(t) || (DigitCount(n) >= 4 && !IsYearShape(n)))
  }

  lemma ApartTokens(n: Text, t: Text)
    requires IsNumeral(n) && StandsApart(t)
    ensures Tokens(n + t) == [NumberTok(n)] + ShiftAll(Tokens(t), |n|)
  {
    hide Lex, IsNumeral, NumberTok, Detached;
    NumberToken(n);
    LexSplit(n, t, false, 0);
    FreshBehind(t, EndsWord(n, false), |n|);
    LexShift(t, false, 0, |n|);
  }

  lemma FreshBehind(t: Text, afterWord: bool, pos: nat)
    requires t == [] || t[0].Space? || t[0].Sym?
    ensures Lex(t, afterWord, pos) == Lex(t, false, pos)
  {
    hide Lex;
    if t == [] {
      LexEmpty(t, afterWord, pos);
      LexEmpty(t, false, pos);
    } else {
      LexUnfolds(t, afterWord, pos);
      LexUnfolds(t, false, pos);
    }
  }

  lemma ApartStep(text: Text, toks: seq<Tok>, n: Text)
    requires n != [] && toks != [] && toks[0] == NumberTok(n) && !ShorthandAhead(From(text, |n|))
    requires |toks| > 1 ==> toks[1].Other? || (toks[1].Word? && toks[1].word.Plain?)
    ensures RunAt(text, toks, 0) == Outcome(Began(Fresh(|n|), n, |n|), 1)
  {
    hide ShorthandAhead, From, ValueOf, DigitCount, Run;
    var f := Fresh(|n|);
    RunUnfolds(text, toks, 0, f);
    RunUnfolds(text, toks, 1, Began(f, n, |n|));
    assert ReadingOf(text, toks, 0, f) == First;
    hide ReadingOf;
    assert !GluedWord(toks[0], Peek(toks, 1));
  }

  lemma ApartJudged(text: Text, toks: seq<Tok>, n: Text)
    requires toks != [] && toks[0] == NumberTok(n) && Slice(text, 0, |n|) == n
    requires |toks| > 1 ==> toks[1].Other? || (toks[1].Word? && toks[1].word.Plain?)
    ensures Judge(text, toks, 0, 1, Began(Fresh(|n|), n, |n|))
         == if ValueOf(n) > 0.0 && !IsPhoneShape(n)
               && (CurrencyAhead(From(text, |n|)) || (DigitCount(n) >= 4 && !IsYearShape(n)))
            then Some(Match(RoundHalfUp(ValueOf(n)), n, 0, |n|)) else None
  {
    hide CurrencyAhead, From, ValueOf, DigitCount, IsPhoneShape, IsYearShape, Slice, RoundHalfUp;
    assert GrandTotal(Began(Fresh(|n|), n, |n|)) == ValueOf(n);
  }

  lemma ApartShown(n: Text, t: Text)
    requires IsNumeral(n) && StandsApart(t)
    ensures From(n + t, |n|) == t && Slice(n + t, 0, |n|) == n && !ShorthandAhead(t)
    ensures CurrencyAhead(t) <==> IsPriced(t)
  {
    hide CurrencyAhead, IsPriced, IsNumeral;
    assert (n + t)[|n|..] == t && (n + t)[0..|n|] == n;
    PricedExactly(t);
  }

  /** A number and any text that stands apart from it: each is read by itself, and a currency suffix at the
      head of the text speaks for the number. */
  lemma NumberThenText(n: Text, t: Text)
    requires IsNumeral(n) && StandsApart(t)
    ensures Amounts(n + t)
         == (if IsPaid(n, t) then [Match(RoundHalfUp(ValueOf(n)), n, 0, |n|)] else []) + ShiftMatches(Amounts(t), |n|)
  {
    hide Lex, RunAt, Scan, Judge, ValueOf, IsNumeral, IsPhoneShape, IsYearShape, RoundHalfUp, CurrencyAhead, DigitCount,
      ShorthandAhead, From, IsPriced, StandsApart, NumberTok, ShiftMatches, Slice;
    var text, toks := n + t, Tokens(n + t);
    assert n != [] by { NumeralGoesOn(n); }
    ApartTokens(n, t);
    ApartShown(n, t);
    ApartFirst(n, t, toks);
    ApartStep(text, toks, n);
    ApartJudged(text, toks, n);
    ScanUnfolds(text, toks, 0);
    NumberToken(n);
    BehindPrefix(n, Tokens(n), t);
  }

  lemma ApartFirst(n: Text, t: Text, toks: seq<Tok>)
    requires StandsApart(t) && toks == [NumberTok(n)] + ShiftAll(Tokens(t), |n|)
    ensures StartsRun(toks[0]) && !IsIdentifierTok(Some(toks[0]))
    ensures |toks| > 1 ==> toks[1].Other? || (toks[1].Word? && toks[1].word.Plain?)
  {
    hide Lex, Detached, ValueOf;
  }
}
