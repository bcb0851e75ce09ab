/** What is refused rather than read: a shorthand with too many digits ("2tr50"), a shorthand with a
    scale behind it ("2tr5 nghìn"), a numeral word written against digits ("2024năm"). */
module Refusals {
  import opened Text
  import opened Vocabulary
  import opened Lexer
  import opened Lexing
  import opened Machine
  import opened Invariants
  import opened Guarantees
  import opened OpenTail
  import opened Words
  import opened Accepting
  import opened SpokenTails
  import opened ShortForms
  import opened Spacing
  import opened Layouts
  import Suffixes

  // ----- broken shorthands ----------------------------------------------------------------------

  /** Digits behind a word character are no number. */
  lemma {:induction false} GluedDigits(ds: Text, pos: nat)
    requires All(ds, Digits)
    ensures forall t | t in Lex(ds, true, pos) :: t.Other?
    decreases |ds|
  {
    hide Lex;
    if ds == [] {
      LexEmpty(ds, true, pos);
    } else {
      assert In(ds[0], Digits);
      LexUnfolds(ds, true, pos);
      GluedDigits(ds[1..], pos + 1);
    }
  }

  lemma OthersYieldNothing(text: Text, toks: seq<Tok>, k: nat)
    requires k <= |toks| && forall x | k <= x < |toks| :: toks[x].Other?
    ensures Scan(text, toks, k) == []
    decreases |toks| - k
  {
    hide Scan, RunAt, Judge;
    if k == |toks| {
      ScanEnd(text, toks);
    } else {
      ScanUnfolds(text, toks, k);
      OthersYieldNothing(text, toks, k + 1);
    }
  }

  lemma LettersBeforeDigits(ls: Text, ds: Text)
    requires IsWord(ls) && ds != [] && All(ds, Digits)
    ensures PrefixLen(ls + ds, Letters) == |ls| < PrefixLen(ls + ds, WordChars) == |ls + ds|
  {
    var s := ls + ds;
    assert forall k | 0 <= k < |s| :: s[k] == if k < |ls| then ls[k] else ds[k - |ls|];
    assert forall k | 0 <= k < |ls| :: In(ls[k], Letters);
    assert forall k | 0 <= k < |ds| :: In(ds[k], Digits);
    PrefixIs(s, Letters, |ls|);
    PrefixIs(s, WordChars, |s|);
  }

  lemma BrokenTokens(n: Text, ls: Text, ds: Text)
    requires IsNumeral(n) && IsShortScale(ls) && |ds| >= 2 && All(ds, Digits)
    ensures var toks := Tokens(n + (ls + ds));
            |toks| >= 2 && toks[0] == NumberTok(n) && toks[1] == ScaleTok(ls, |n|)
            && forall x | 2 <= x < |toks| :: toks[x].Other?
  {
    hide Lex, WordFor, IsNumeral, MunchNumber, NumberTok, ScaleTok;
    var r := ls + ds;
    BrokenMunch(n, ls, ds);
    assert n != [] by { NumeralGoesOn(n); }
    CutThenRest(n + r, NumberTok(n), |n|);
    assert (n + r)[|n|..] == r && (n + r)[|n| - 1] == n[|n| - 1];
    NumeralEnds(n);
    LetterMunch(ls, ds, |n|);
    GluedDigits(ds, |n| + |ls|);
  }

  lemma LetterMunch(ls: Text, ds: Text, pos: nat)
    requires IsShortScale(ls) && ds != [] && All(ds, Digits)
    ensures Lex(ls + ds, true, pos) == [ScaleTok(ls, pos)] + Lex(ds, true, pos + |ls|)
  {
    hide Lex, WordOf;
    assert IsWord(ls);
    LettersBeforeDigits(ls, ds);
    var s := ls + ds;
    assert s[0] == ls[0] && s[..|ls|] == ls && s[|ls|..] == ds && s[|ls| - 1] == ls[|ls| - 1];
    LexUnfolds(s, true, pos);
  }

  lemma BrokenMunch(n: Text, ls: Text, ds: Text)
    requires IsNumeral(n) && IsShortScale(ls) && |ds| >= 2 && All(ds, Digits)
    ensures var s := n + (ls + ds); s != [] && s[0].Dig? && MunchNumber(s, 0) == Cut([NumberTok(n)], |n|)
  {
    var r := ls + ds;
    var s := n + r;
    assert r[0] == ls[0];
    BodyOf(n, r);
    NoShortDigits(n, ls, ds);
    assert IsWord(ls);
    LettersBeforeDigits(ls, ds);
    assert GluedLen(r) == 0;
    assert s[|n|..] == r && s[..|n|] == n;
    hide BodyLen, ShorthandLen, GluedLen, ParseNumText;
  }

  lemma NoShortDigits(n: Text, ls: Text, ds: Text)
    requires IsNumeral(n) && IsShortScale(ls) && |ds| >= 2 && All(ds, Digits)
    ensures ShorthandLen(n + (ls + ds)) == 0
  {
    var d := PrefixLen(n, Digits);
    NumeralGoesOn(n);
    hide BodyLen;
    var r := ls + ds;
    assert r[0] == ls[0] && (|ls| == 2 ==> r[1] == ls[1]) && r[|ls|] == ds[0] && r[|ls| + 1] == ds[1];
    assert In(ds[0], Digits) && In(ds[1], Digits);
    PrefixOf(n, r, Digits);
    assert (n + r)[d..] == n[d..] + r;
    if d == |n| {
      assert (n + r)[d..] == r && (n + r)[d + |ls| + 1] == ds[1];
    } else {
      assert (n + r)[d..][0] == n[d];
    }
  }

  lemma ShortScaleWord(ls: Text)
    requires IsShortScale(ls)
    ensures WordFor(ls).Scale?
  {
    if |ls| == 1 { assert Lower(ls) == "k"; } else { assert Lower(ls) == "tr"; }
    KIsScale();
    TrIsScale();
    hide WordOf;
  }

  lemma KIsScale()
    ensures WordOf("k").Scale?
  {}

  lemma TrIsScale()
    ensures WordOf("tr").Scale?
  {}

  /** A scale word by itself is no amount. */
  lemma LoneScale(text: Text, toks: seq<Tok>, k: nat)
    requires k < |toks| && toks[k].Word? && toks[k].word.Scale? && (k + 1 < |toks| ==> toks[k + 1].Other?)
    ensures var r := RunAt(text, toks, k); r.next == k + 1 && Judge(text, toks, k, r.next, r.state).None?
  {
    hide Run, LooksLikeIdentifier, CurrencyAhead, Scaled, Base;
    var f := Fresh(toks[k].end);
    var s := Multiply(f, toks[k].word, toks[k].end);
    RunUnfolds(text, toks, k, f);
    RunUnfolds(text, toks, k + 1, s);
  }

  /** A shorthand that is followed by more than one digit is refused as a whole: "2tr50" is neither
      2 500 000 nor 2 000 000. */
  lemma BrokenShorthand(n: Text, ls: Text, ds: Text)
    requires IsNumeral(n) && IsShortScale(ls) && |ds| >= 2 && All(ds, Digits)
    ensures Amounts(n + (ls + ds)) == []
  {
    hide Lex, Scan, RunAt, Judge, WordFor, IsNumeral, ValueOf;
    var text := n + (ls + ds);
    var toks := Tokens(text);
    BrokenTokens(n, ls, ds);
    ShortScaleWord(ls);
    BrokenRun(text, toks, n, ls, ds);
    ScanUnfolds(text, toks, 0);
    LoneScale(text, toks, 1);
    ScanUnfolds(text, toks, 1);
    OthersYieldNothing(text, toks, 2);
  }

  lemma BrokenRun(text: Text, toks: seq<Tok>, n: Text, ls: Text, ds: Text)
    requires text == n + (ls + ds) && IsShortScale(ls) && |ds| >= 2 && All(ds, Digits)
    requires toks != [] && toks[0] == NumberTok(n)
    ensures var r := RunAt(text, toks, 0); r.next == 0 && Judge(text, toks, 0, 0, r.state).None?
  {
    hide Run, LooksLikeIdentifier, CurrencyAhead, ValueOf;
    var r := ls + ds;
    assert text[|n|..] == r;
    assert r[0] == ls[0] && (|ls| == 2 ==> r[1] == ls[1]) && r[|ls|] == ds[0] && In(ds[0], Digits);
    RunUnfolds(text, toks, 0, Fresh(|n|));
  }

  // ----- no amount cuts a shorthand -------------------------------------------------------------

  /** At `e` the text goes on with "k" or "tr", in either case, and a digit. */
  predicate ScaleAndDigit(text: Text, e: nat) {
    (e + 1 < |text| && text[e].Let? && text[e].letter == 'k' && text[e + 1].Dig?)
    || (e + 2 < |text| && text[e].Let? && text[e].letter == 't' && text[e + 1].Let? && text[e + 1].letter == 'r'
        && text[e + 2].Dig?)
  }

  lemma StepIsWhole(text: Text, toks: seq<Tok>, j: nat, s: State)
    requires j < |toks| && toks[j].Num? && toks[j].end <= |text| && Step(text, toks, j, s).Go?
    ensures !ScaleAndDigit(text, toks[j].end)
  {
    StepIsUnbroken(text, toks, j, s);
    NothingBroken(text, toks[j].end);
    hide Step;
  }

  lemma StepIsUnbroken(text: Text, toks: seq<Tok>, j: nat, s: State)
    requires j < |toks| && toks[j].Num? && Step(text, toks, j, s).Go?
    ensures !ShorthandAhead(From(text, toks[j].end))
  {
    hide DigitShorthand, Count, TakeHundreds, JoinsGroup, IsEdge, IsScaleTok, ShorthandAhead, From;
  }

  lemma NothingBroken(text: Text, e: nat)
    requires e <= |text| && !ShorthandAhead(From(text, e))
    ensures !ScaleAndDigit(text, e)
  {
    assert forall k | 0 <= k < |text| - e :: text[e..][k] == text[e + k];
  }

  predicate NoneCut(text: Text, toks: seq<Tok>, i: nat, j: nat)
    requires j <= |toks|
  {
    forall k | i <= k < j && toks[k].Num? :: !ScaleAndDigit(text, toks[k].end)
  }

  /** A step of two tokens takes a word with it. */
  lemma SecondIsWord(text: Text, toks: seq<Tok>, j: nat, s: State)
    requires j < |toks| && Step(text, toks, j, s).Go?
    ensures var a := Step(text, toks, j, s); a.width == 1 || (a.width == 2 && toks[j + 1].Word?)
  {
    hide ReadingOf, HundredsOf, Multiply, DigitCount, GluedWord, SpokenShorthand, NamShorthand, IsScaleTok, IsEdge;
  }

  lemma {:induction false} RunIsWhole(text: Text, toks: seq<Tok>, i: nat, j: nat, s: State)
    requires InOrder(text, toks) && i <= j <= |toks| && NoneCut(text, toks, i, j)
    ensures var r := Run(text, toks, j, s); NoneCut(text, toks, i, r.next)
    decreases |toks| - j
  {
    hide Run, Step, ScaleAndDigit;
    RunUnfolds(text, toks, j, s);
    if j < |toks| {
      var a := Step(text, toks, j, s);
      if a.Go? {
        if toks[j].Num? { StepIsWhole(text, toks, j, s); }
        SecondIsWord(text, toks, j, s);
        RunIsWhole(text, toks, i, j + a.width, a.state);
      }
    }
  }

  /** No amount of any text cuts a shorthand: none of its numbers stands right before a scale letter and
      a digit. */
  lemma NoAmountCutsShorthand(text: Text, m: Match)
    requires m in Amounts(text)
    ensures exists i, j :: Emitted(text, Tokens(text), i, j, m) && NoneCut(text, Tokens(text), i, j)
  {
    hide Lex, Scan, Emitted, NoneCut, WellCut, Solid, InOrder;
    TokensLossless(text);
    ScanEmits(text, Tokens(text), 0);
    var i, j :| Emitted(text, Tokens(text), i, j, m);
    EmittedIsWhole(text, Tokens(text), i, j, m);
  }

  lemma EmittedIsWhole(text: Text, toks: seq<Tok>, i: nat, j: nat, m: Match)
    requires Emitted(text, toks, i, j, m) && InOrder(text, toks)
    ensures j <= |toks| && NoneCut(text, toks, i, j)
  {
    hide Run, Judge, SomeScale, SomeNonzero, DigitsIn, CurrencyAhead, InOrder, ScaleAndDigit;
    RunIsWhole(text, toks, i, i, Fresh(toks[i].end));
  }

  // ----- a number word against digits -----------------------------------------------------------

  /** The number words that are never written against digits: all but the scales and "chục". */
  predicate NeverGlued(w: Text) {
    var word := WordFor(w);
    word.Ones? || word.Hundred? || word.Filler? || word.Halves? || word.Half? || (word.Tens? && Lower(w) != "chục")
  }

  lemma TensThatJoin(low: string)
    requires WordOf(low).Tens?
    ensures WordOf(low).joins <==> low != "chục"
  {}

  /** A number word other than a scale, at the end of a text, is no amount by itself. */
  lemma LoneWord(text: Text, toks: seq<Tok>, k: nat)
    requires k + 1 == |toks| && toks[k].Word? && toks[k].end == |text|
    requires IsNumberWord(toks[k].word) && !toks[k].word.Scale?
    ensures Scan(text, toks, k) == []
  {
    hide Run, CurrencyAhead, From, LooksLikeIdentifier, Scan;
    NothingAhead(text);
    var f := Fresh(toks[k].end);
    RunUnfolds(text, toks, k, f);
    LoneStep(text, toks, k, f);
    RunUnfolds(text, toks, k + 1, Step(text, toks, k, f).state);
    ScanUnfolds(text, toks, k);
    ScanEnd(text, toks);
  }

  lemma LoneStep(text: Text, toks: seq<Tok>, k: nat, f: State)
    requires k + 1 == |toks| && toks[k].Word? && IsNumberWord(toks[k].word) && !toks[k].word.Scale?
    requires f == Fresh(toks[k].end)
    ensures var a := Step(text, toks, k, f);
            a.Go? && a.width == 1 && !a.state.seenBig && a.state.digits == 0 && a.state.end == toks[k].end
  {}

  lemma GluedRun(text: Text, toks: seq<Tok>, n: Text, w: Text)
    requires toks == [NumberTok(n), ScaleTok(w, |n|)] && !ShorthandAhead(From(text, |n|)) && JoinsDigits(WordFor(w))
    ensures var r := RunAt(text, toks, 0); r.next == 0 && Judge(text, toks, 0, 0, r.state).None?
  {
    hide Run, LooksLikeIdentifier, CurrencyAhead, ValueOf, WordOf, ShorthandAhead, From, JoinsDigits;
    RunUnfolds(text, toks, 0, Fresh(|n|));
  }

  lemma GluedEnds(n: Text, w: Text)
    requires IsWord(w)
    ensures From(n + w, |n|) == w && !ShorthandAhead(w)
  {
    assert (n + w)[|n|..] == w;
    NoShorthand(w);
  }

  /** A numeral word against digits is refused, number and word: "2024năm", "2024trăm", "2024rưỡi". */
  lemma GluedWordRefused(n: Text, w: Text)
    requires IsNumeral(n) && IsWord(w) && NeverGlued(w)
    ensures Amounts(n + w) == []
  {
    hide Tokens, Scan, RunAt, Judge, WordOf, IsNumeral, ShorthandAhead, From, ValueOf;
    var text := n + w;
    var toks := Tokens(text);
    GluedTokens(n, w);
    GluedEnds(n, w);
    if WordFor(w).Tens? { TensThatJoin(Lower(w)); }
    GluedRun(text, toks, n, w);
    ScanUnfolds(text, toks, 0);
    LoneWord(text, toks, 1);
  }

  lemma ChucRun(text: Text, toks: seq<Tok>, n: Text, w: Text) returns (s: State)
    requires toks == [NumberTok(n), ScaleTok(w, |n|)] && !ShorthandAhead(From(text, |n|))
    requires n != [] && WordFor(w) == Tens(false)
    ensures RunAt(text, toks, 0) == Outcome(s, 2)
    ensures s.hasNumber && s.hasNonzero && Unflagged(s) && !s.seenBig && s.slang == {} && s.digits == DigitCount(n)
    ensures s.end == |n| + |w| && GrandTotal(s) == ValueOf(n) * 10.0
  {
    hide Run, ValueOf, WordOf, ShorthandAhead, From, DigitCount, Step;
    var f := Fresh(|n|);
    var s1 := Began(f, n, |n|);
    ChucBegins(text, toks, n, w);
    s := Multiply(s1, WordFor(w), |n| + |w|);
    assert Step(text, toks, 1, s1) == Go(s, 1) by { ChucStep(text, toks, w, s1); }
    RunUnfolds(text, toks, 0, f);
    RunUnfolds(text, toks, 1, s1);
    RunUnfolds(text, toks, 2, s);
  }

  lemma ChucBegins(text: Text, toks: seq<Tok>, n: Text, w: Text)
    requires toks == [NumberTok(n), ScaleTok(w, |n|)] && !ShorthandAhead(From(text, |n|))
    requires n != [] && WordFor(w) == Tens(false)
    ensures Step(text, toks, 0, Fresh(|n|)) == Go(Began(Fresh(|n|), n, |n|), 1)
  {
    hide ValueOf, WordOf, ShorthandAhead, From, DigitCount;
    assert ReadingOf(text, toks, 0, Fresh(|n|)) == First;
    hide ReadingOf, All;
  }

  lemma ChucStep(text: Text, toks: seq<Tok>, w: Text, s: State)
    requires |toks| == 2 && toks[1].Word? && toks[1].word == WordFor(w) == Tens(false)
    ensures Step(text, toks, 1, s) == Go(Multiply(s, WordFor(w), toks[1].end), 1)
  {
    hide Multiply, WordOf;
  }

  /** "chục" may be written against digits, and multiplies them by ten. */
  lemma GluedTen(n: Text, w: Text)
    requires IsNumeral(n) && IsWord(w) && Lower(w) == "chục"
    ensures var text := n + w;
            Amounts(text)
            == if DigitCount(n) >= 4 && ValueOf(n) > 0.0
               then [Match(RoundHalfUp(ValueOf(n) * 10.0), text, 0, |text|)] else []
  {
    hide Tokens, Scan, RunAt, WordOf, IsNumeral, ShorthandAhead, From, ValueOf, DigitCount, CurrencyAhead, RoundHalfUp,
      GrandTotal;
    var text := n + w;
    var toks := Tokens(text);
    GluedTokens(n, w);
    GluedEnds(n, w);
    ChucIsTen();
    NumeralGoesOn(n);
    var s := ChucRun(text, toks, n, w);
    NothingAhead(text);
    EndsInLetters(n, w, 0);
    hide IsPhoneShape, IsYearShape;
    assert Slice(text, 0, |text|) == text;
    ScanUnfolds(text, toks, 0);
    ScanEnd(text, toks);
  }

  lemma ChucIsTen()
    ensures WordOf("chục") == Tens(false)
  {}

  // ----- a scale behind a shorthand -------------------------------------------------------------

  lemma ShortBehind(n: nat, ls: Text, d: Digit, w: Text)
    requires IsShortScale(ls) && IsWord(w)
    ensures var s := Short(n, ls, d) + w;
            s != [] && s[0].Dig? && MunchNumber(s, 0) == Cut([ShortTok(n, ls, d)], |Short(n, ls, d)|)
  {
    hide Decimal, ShorthandLen, Lexer.Shorthand, BodyLen, GluedLen, NumTok, ShortValue, Base, ShortScale;
    var a := Short(n, ls, d);
    var s, k := a + w, |Decimal(n)|;
    assert In(Decimal(n)[0], Digits) && s[0] == Decimal(n)[0];
    ShortLen(n, ls, d);
    ShortIsCut(n, ls, d);
    LenBehind(n, ls, d, w);
    PrefixOf(a, w, Digits);
    assert s[..|a|] == a[..|a|];
    SameShorthand(a, s);
  }

  lemma SameShorthand(a: Text, s: Text)
    requires ShorthandLen(a) == ShorthandLen(s) > 0 && s[..ShorthandLen(a)] == a[..ShorthandLen(a)]
    requires PrefixLen(a, Digits) == PrefixLen(s, Digits)
    requires ShortScale(a[PrefixLen(a, Digits)..]) == ShortScale(s[PrefixLen(a, Digits)..])
    ensures Lexer.Shorthand(s, 0) == Lexer.Shorthand(a, 0)
  {
    hide ShortScale, NatOf, PrefixLen, ShorthandLen, Base;
    var n, d := ShorthandLen(a), PrefixLen(a, Digits);
    assert s[..d] == s[..n][..d] && a[..d] == a[..n][..d];
    assert s[n - 1] == s[..n][n - 1] && a[n - 1] == a[..n][n - 1];
  }

  lemma LenBehind(n: nat, ls: Text, d: Digit, w: Text)
    requires IsShortScale(ls) && IsWord(w)
    ensures ShorthandLen(Short(n, ls, d) + w) == |Short(n, ls, d)|
    ensures ShortScale((Short(n, ls, d) + w)[|Decimal(n)|..]) == |ls|
  {
    hide Decimal, PrefixLen;
    var a := Short(n, ls, d);
    var s, k := a + w, |Decimal(n)|;
    ShortLen(n, ls, d);
    PrefixOf(a, w, Digits);
    var t := s[k..];
    assert t == ls + [Dig(d)] + w;
    assert t[0] == ls[0] && t[|ls|] == Dig(d) && (|ls| == 2 ==> t[1] == ls[1]);
    assert In(w[0], Letters) && s[|a|] == w[0];
    hide IsWord, All;
  }

  function ShortTok(n: nat, ls: Text, d: Digit): Tok {
    Num(Short(n, ls, d), 0, |Short(n, ls, d)|, ShortValue(n, ls, d) as real, Is(Base(ShortMagnitude(ls))))
  }

  lemma ShortThenWord(n: nat, ls: Text, d: Digit, g: Text, w: Text)
    requires IsShortScale(ls) && All(g, Spaces) && IsWord(w)
    ensures var a := Short(n, ls, d); Tokens(a + g + w) == [ShortTok(n, ls, d), ScaleTok(w, |a| + |g|)]
  {
    hide Lex, Short, MunchNumber, ScaleTok, Shift, ShortValue, ShorthandLen, Lexer.Shorthand;
    var a := Short(n, ls, d);
    if g == [] {
      assert a + [] + w == a + w;
      ShortBehind(n, ls, d, w);
      CutThenRest(a + w, ShortTok(n, ls, d), |a|);
      assert (a + w)[|a|..] == w && (a + w)[|a| - 1] == a[|a| - 1];
      ShortEnds(n, ls, d);
      WordBehindNumber(w, |a|);
    } else {
      ShortToken(n, ls, d);
      ScaleToken(w);
      TokensAcrossGap(a, g, w);
      OneShifted(ScaleTok(w, 0), |a| + |g|);
      Suffixes.ScaleShifted(w, |a| + |g|);
    }
  }

  lemma ShortEnds(n: nat, ls: Text, d: Digit)
    ensures var a := Short(n, ls, d); a != [] && IsWordChar(a[|a| - 1])
  {
    hide Decimal;
  }

  lemma ShortRefused(text: Text, toks: seq<Tok>, a: Text, v: real, base: real, w: Text, pos: nat)
    requires toks == [Num(a, 0, |a|, v, Is(base)), ScaleTok(w, pos)] && IsScaleWord(WordFor(w))
    requires !ShorthandAhead(From(text, |a|))
    ensures var r := RunAt(text, toks, 0); r.next == 0 && Judge(text, toks, 0, 0, r.state).None?
  {
    hide Run, LooksLikeIdentifier, CurrencyAhead, WordOf, ShorthandAhead, From, IsScaleWord, All;
    RunUnfolds(text, toks, 0, Fresh(|a|));
  }

  /** A word that scales behind a shorthand, glued or not, makes nonsense of it: "2tr5k", "1k5 nghìn". */
  lemma ShorthandThenScale(n: nat, ls: Text, d: Digit, g: Text, w: Text)
    requires IsShortScale(ls) && All(g, Spaces) && IsWord(w)
    requires WordFor(w).Tens? || WordFor(w).Hundred? || WordFor(w).Scale?
    ensures Amounts(Short(n, ls, d) + g + w) == []
  {
    hide Tokens, Scan, RunAt, Judge, WordOf, ShorthandAhead, From, Short, ShortValue, Base;
    var a := Short(n, ls, d);
    var text := a + g + w;
    var toks := Tokens(text);
    ShortThenWord(n, ls, d, g, w);
    GapThenWord(a, g, w);
    ShortRefused(text, toks, a, ShortValue(n, ls, d) as real, Base(ShortMagnitude(ls)), w, |a| + |g|);
    ScanUnfolds(text, toks, 0);
    if WordFor(w).Scale? {
      LoneScale(text, toks, 1);
      ScanUnfolds(text, toks, 1);
      ScanEnd(text, toks);
    } else {
      LoneWord(text, toks, 1);
    }
  }

  lemma GapThenWord(a: Text, g: Text, w: Text)
    requires All(g, Spaces) && IsWord(w)
    ensures !ShorthandAhead(From(a + g + w, |a|))
  {
    assert (a + g + w)[|a|..] == g + w;
    if g == [] {
      assert g + w == w;
      NoShorthand(w);
    } else {
      assert In(g[0], Spaces) && (g + w)[0] == g[0];
    }
  }
}
