/** Inputs on which the parser does not give the amount a speaker means, and a spelling of the
    vocabulary for which the spoken round trip is a statement about real words. */
module Limits {
  import opened Text
  import opened Vocabulary
  import opened Lexer
  import opened Lexing
  import opened Machine
  import opened OpenTail
  import opened Words
  import opened Accepting
  import opened DigitGroups
  import opened Tails
  import opened SpokenTails
  import opened Spoken
  import opened NumberForms
  import opened ShortForms
  import opened LeadingWords
  import opened Barrier
  import opened Rows

  // ----- canonical spelling in letters ----------------------------------------------------------

  /** The words that `Spelling` uses, and the unambiguous scales. */
  predicate IsCanonical(w: Word) {
    match w
    case Ones(d, variant) => variant ==> d == 1 || d == 5
    case Tens(joins) => joins
    case Hundred => true
    case Filler => true
    case Scale(_, noun) => noun == None
    case _ => false
  }

  function Letter(w: Word): string
    requires IsCanonical(w)
  {
    match w
    case Ones(d, variant) =>
      if variant then (if d == 1 then "mốt" else "lăm")
      else ["không", "một", "hai", "ba", "bốn", "năm", "sáu", "bảy", "tám", "chín"][d]
    case Tens(_) => "mươi"
    case Hundred => "trăm"
    case Filler => "linh"
    case Scale(m, _) =>
      match m
      case Thousand => "nghìn"
      case Myriad => "vạn"
      case Million => "triệu"
      case Billion => "tỷ"
  }

  lemma FirstNumeralLetters(d: Digit)
    requires d < 3
    ensures WordOf(Letter(Ones(d, false))) == Ones(d, false)
  {
    if d == 0 { assert WordOf("không") == Ones(0, false); }
    else if d == 1 { assert WordOf("một") == Ones(1, false); }
    else { assert WordOf("hai") == Ones(2, false); }
  }

  lemma LowNumeralLetters(d: Digit)
    requires 3 <= d < 5
    ensures WordOf(Letter(Ones(d, false))) == Ones(d, false)
  {
    if d == 3 { assert WordOf("ba") == Ones(3, false); } else { assert WordOf("bốn") == Ones(4, false); }
  }

  lemma HighNumeralLetters(d: Digit)
    requires d >= 5
    ensures WordOf(Letter(Ones(d, false))) == Ones(d, false)
  {
    if d == 5 { assert WordOf("năm") == Ones(5, false); }
    else if d == 6 { assert WordOf("sáu") == Ones(6, false); }
    else if d == 7 { assert WordOf("bảy") == Ones(7, false); }
    else if d == 8 { assert WordOf("tám") == Ones(8, false); }
    else { assert WordOf("chín") == Ones(9, false); }
  }

  lemma LowScaleLetters(m: Magnitude)
    requires m.Thousand? || m.Myriad?
    ensures WordOf(Letter(Scale(m, None))) == Scale(m, None)
  {
    if m.Thousand? { assert WordOf("nghìn") == Scale(Thousand, None); }
    else { assert WordOf("vạn") == Scale(Myriad, None); }
  }

  lemma HighScaleLetters(m: Magnitude)
    requires m.Million? || m.Billion?
    ensures WordOf(Letter(Scale(m, None))) == Scale(m, None)
  {
    if m.Million? { assert WordOf("triệu") == Scale(Million, None); }
    else { assert WordOf("tỷ") == Scale(Billion, None); }
  }

  /** The word lists read every canonical word back as what it is. */
  lemma LettersRead(w: Word)
    requires IsCanonical(w)
    ensures WordOf(Letter(w)) == w && Letter(w) != ""
  {
    hide WordOf;
    match w {
      case Ones(d, variant) =>
        if variant { VariantLetters(d); }
        else if d < 3 { FirstNumeralLetters(d); }
        else if d < 5 { LowNumeralLetters(d); }
        else { HighNumeralLetters(d); }
      case Tens(_) => OtherLetters();
      case Hundred => OtherLetters();
      case Filler => OtherLetters();
      case Scale(m, _) =>
        if m.Thousand? || m.Myriad? { LowScaleLetters(m); } else { HighScaleLetters(m); }
    }
  }

  lemma VariantLetters(d: Digit)
    requires d == 1 || d == 5
    ensures WordOf(Letter(Ones(d, true))) == Ones(d, true)
  {
    if d == 1 { assert WordOf("mốt") == Ones(1, true); } else { assert WordOf("lăm") == Ones(5, true); }
  }

  lemma OtherLetters()
    ensures WordOf("mươi") == Tens(true) && WordOf("trăm") == Hundred && WordOf("linh") == Filler
  {
    assert WordOf("mươi") == Tens(true);
    assert WordOf("trăm") == Hundred;
  }

  predicate AreCanonical(ws: seq<Word>) { forall k | 0 <= k < |ws| :: IsCanonical(ws[k]) }

  /** Canonical words as lower-case text. */
  function InLetters(ws: seq<Word>): (ts: seq<Text>)
    requires AreCanonical(ws)
    ensures |ts| == |ws|
  {
    seq(|ws|, k requires 0 <= k < |ws| => Written(Letter(ws[k])))
  }

  lemma LettersSay(ws: seq<Word>)
    requires AreCanonical(ws)
    ensures Says(InLetters(ws), ws)
  {
    hide WordOf, Letter;
    forall k | 0 <= k < |ws| ensures IsWord(InLetters(ws)[k]) && WordFor(InLetters(ws)[k]) == ws[k] {
      LettersRead(ws[k]);
      LowerWritten(Letter(ws[k]));
    }
  }

  lemma {:induction false} SpellingCanonical(gs: seq<SpokenGroup>)
    requires AreSpoken(gs) && forall k | 0 <= k < |gs| :: gs[k].scale.noun == None
    ensures AreCanonical(Spelling(gs))
    decreases |gs|
  {
    if gs != [] {
      SpellCanonical(gs[0].count);
      hide Spell;
      SpellingCanonical(gs[1..]);
    }
  }

  lemma SpellCanonical(c: nat)
    requires 0 < c < 1000
    ensures AreCanonical(Spell(c))
  {
    if c >= 100 && c % 100 >= 10 { BelowCanonical(c % 100); }
    if c < 100 { BelowCanonical(c); }
    hide BelowHundred;
  }

  lemma BelowCanonical(c: nat)
    requires 0 < c < 100
    ensures AreCanonical(BelowHundred(c))
  {}

  /** The spoken round trip in letters: the text spelled by the word lists themselves. */
  lemma SpokenInLetters(gs: seq<SpokenGroup>)
    requires gs != [] && AreSpoken(gs) && forall k | 0 <= k < |gs| :: gs[k].scale.noun == None
    ensures AreCanonical(Spelling(gs))
    ensures var ws := InLetters(Spelling(gs));
            ws != [] && Amounts(Join(ws)) == [Match(HeardSum(START, gs), Join(ws), 0, |Join(ws)|)]
  {
    hide Amounts, Join, Letter, WordOf, Spelling, HeardSum;
    SpellingCanonical(gs);
    LettersSay(Spelling(gs));
    SpokenRoundTrip(gs, InLetters(Spelling(gs)));
  }

  const MILLION_AND_230_000: seq<SpokenGroup> :=
    [SpokenGroup(1, Scale(Million, None)), SpokenGroup(230, Scale(Thousand, None))]

  lemma MisheardSpelling()
    ensures Spelling(MILLION_AND_230_000)
         == [One(1), Scale(Million, None), One(2), Hundred, One(3), Tens(true), Scale(Thousand, None)]
  {
    var a, b := SpokenGroup(1, Scale(Million, None)), SpokenGroup(230, Scale(Thousand, None));
    var gs := MILLION_AND_230_000;
    assert gs[1..] == [b] && [b][1..] == [];
    assert Spell(1) == [One(1)] && Spell(230) == [One(2), Hundred, One(3), Tens(true)];
    hide Spell;
    assert Spelling([b]) == Spell(230) + [b.scale] + [];
    assert Spelling(gs) == Spell(1) + [a.scale] + Spelling([b]);
  }

  lemma MisheardSum()
    ensures HeardSum(START, MILLION_AND_230_000) == 201030000 && Meant(MILLION_AND_230_000) == 1230000
  {
    var a, b := SpokenGroup(1, Scale(Million, None)), SpokenGroup(230, Scale(Thousand, None));
    var gs, ctx := MILLION_AND_230_000, Behind(START, a);
    assert gs[1..] == [b] && [b][1..] == [];
    assert Heard(ctx, 230) == 200030;
    assert HeardSum(ctx, [b]) == 200030 * 1000 + HeardSum(Behind(ctx, b), []);
  }

  /** "một triệu hai trăm ba mươi nghìn", 1 230 000, is read as 201 030 000. */
  lemma HundredsMisheard()
    ensures var text := Join([Written("một"), Written("triệu"), Written("hai"), Written("trăm"), Written("ba"),
                              Written("mươi"), Written("nghìn")]);
            Amounts(text) == [Match(201030000, text, 0, |text|)]
  {
    hide Amounts, Join, WordOf, Spelling, HeardSum, Letter;
    MisheardSpelling();
    MisheardSum();
    SpokenInLetters(MILLION_AND_230_000);
    var ws := InLetters(Spelling(MILLION_AND_230_000));
    MisheardLetters();
    assert ws == [Written("một"), Written("triệu"), Written("hai"), Written("trăm"), Written("ba"), Written("mươi"),
                  Written("nghìn")];
  }

  lemma MisheardLetters()
    ensures Letter(One(1)) == "một" && Letter(One(2)) == "hai" && Letter(One(3)) == "ba"
    ensures Letter(Hundred) == "trăm" && Letter(Tens(true)) == "mươi"
    ensures Letter(Scale(Million, None)) == "triệu" && Letter(Scale(Thousand, None)) == "nghìn"
  {}

  // ----- coefficients that are not what they say ------------------------------------------------

  /** A scale counts once where its coefficient is zero: "5 triệu 0 nghìn" is 5 001 000. */
  lemma ZeroCountsAsOne(gs: seq<Group>, zero: Text, scale: Text)
    requires AreGroups(gs) && SomeCount(gs) && IsNumeral(zero) && ValueOf(zero) == 0.0
    requires IsWord(scale) && WordFor(scale).Scale?
    ensures var text := Join(GroupWords(gs) + [zero, scale]);
            Amounts(text) == [Match(RoundHalfUp(ReadSum(gs) + Base(WordFor(scale).magnitude)), text, 0, |text|)]
  {
    hide WordFor, Join, Amounts, Base, MagnitudeOf, GroupWords, ReadSum, SomeCount, ValueOf, BodyLen, RoundHalfUp;
    var g := Group(zero, scale);
    GroupAppended(gs, g);
    CountAppended(gs, g);
    DigitRoundTrip(gs + [g]);
  }

  lemma CountAppended(gs: seq<Group>, g: Group)
    requires SomeCount(gs)
    ensures SomeCount(gs + [g])
  {
    hide ValueOf;
    var k :| 0 <= k < |gs| && ValueOf(gs[k].count) != 0.0;
    assert (gs + [g])[k] == gs[k];
  }

  /** Ten and hundred are added to a number behind them: "Mười 500 ngàn" is 510 000, "trăm 500 ngàn"
      is 600 000. */
  lemma TenInflates(ten: Text, n: nat, scale: Text)
    requires IsWord(ten) && (WordFor(ten).Tens? || WordFor(ten).Hundred?)
    requires IsWord(scale) && WordFor(scale).Scale?
    ensures var text := Join([ten, Decimal(n), scale]);
            var more := if WordFor(ten).Tens? then 10 else 100;
            Amounts(text) == [Match((more + n) * Unit(WordFor(scale).magnitude), text, 0, |text|)]
  {
    hide WordOf, Join, Amounts, Unit, Decimal, Scaled, RoundHalfUp, ValueOf, IsNumeral;
    var more := if WordFor(ten).Tens? then 10 else 100;
    DecimalNumeral(n);
    LedGroup(ten, Decimal(n), scale);
    UnitOf(more + n, WordFor(scale).magnitude);
    RoundWhole((more + n) * Unit(WordFor(scale).magnitude));
  }

  // ----- an amount of zero ----------------------------------------------------------------------

  const DONG: Text := [Let('đ', false)]

  const TENTHS: Text := [Dig(0), Sym('.'), Dig(4)]

  lemma TenthsShape()
    ensures PrefixLen(TENTHS, Digits) == 1 && WholeLen(TENTHS) == 1
    ensures BodyLen(TENTHS + DONG) == 3 && ShorthandLen(TENTHS + DONG) == 0 && GluedLen(DONG) == 0
  {
    var s := TENTHS + DONG;
    PrefixIs(TENTHS, Digits, 1);
    PrefixIs(s, Digits, 1);
    var n, w := TENTHS[1..], s[1..];
    assert n == [Sym('.'), Dig(4)] && w == [Sym('.'), Dig(4), Let('đ', false)];
    assert n[1..] == [Dig(4)] && w[1..] == [Dig(4), Let('đ', false)];
    PrefixIs(n[1..], Digits, 1);
    PrefixIs(w[1..], Digits, 1);
    assert GroupsLen(n) == 0 && GroupsLen(w) == 0 && FractionLen(w) == 2;
    PrefixIs(DONG, WordChars, 1);
    assert Lower(DONG[..1]) == "đ" && !IsGluedScale("đ");
  }

  lemma TenthsRead()
    ensures ParseNumText(TENTHS) == Is(0.4)
  {
    TenthsShape();
    hide PrefixLen, GroupsLen, WholeLen;
    assert TENTHS[1..] == [Sym('.'), Dig(4)] && TENTHS[1..][1..] == [Dig(4)] && TENTHS[2..] == [Dig(4)];
    assert TENTHS[..1] == [Dig(0)] && [Dig(0)][..0] == [] && [Dig(4)][..0] == [];
    assert NatOf([]) == 0;
    assert NatOf([Dig(0)]) == 0 && NatOf([Dig(4)]) == 4;
    assert Pow10(1) == 10.0 * Pow10(0) == 10.0;
    assert FractionOf([Dig(4)]) == 4.0 / 10.0;
  }

  lemma DongIsPlain()
    ensures WordOf("đ") == Plain(false, None) && IsCurrencyWord("đ") && Lower(DONG) == "đ"
  {}

  lemma TenthsTokens()
    ensures Tokens(TENTHS + DONG) == [Num(TENTHS, 0, 3, 0.4, Absent), Word(DONG, 3, 4, Plain(false, None))]
  {
    hide Lex, BodyLen, ShorthandLen, ParseNumText, WordOf, GluedLen;
    var s := TENTHS + DONG;
    TenthsShape();
    TenthsRead();
    DongIsPlain();
    assert s[..3] == TENTHS && s[3..] == DONG && DONG[..1] == DONG && DONG[1..] == [];
    PrefixIs(DONG, Letters, 1);
    LexUnfolds(s, false, 0);
    LexUnfolds(DONG, true, 3);
    LexEmpty([], true, 4);
  }

  /** An amount can be zero: the total of "0.4đ" is positive, but it is rounded. */
  lemma AmountOfZero()
    ensures Amounts(TENTHS + DONG) == [Match(0, TENTHS, 0, 3)]
  {
    hide Lex, Run, Step, Scan, WordOf, CurrencyAhead, IsCurrencyWord;
    var s := TENTHS + DONG;
    TenthsTokens();
    var toks := Tokens(s);
    var f := Fresh(3);
    TenthsSteps(s, toks, f);
    var s1 := Step(s, toks, 0, f).state;
    RunUnfolds(s, toks, 0, f);
    RunUnfolds(s, toks, 1, s1);
    assert From(s, 3) == DONG && Slice(s, 0, 3) == TENTHS;
    assert CurrencyAhead(DONG) by { DongAhead(); }
    assert !IsDigitText(TENTHS) by { assert !In(TENTHS[1], Digits); }
    ScanUnfolds(s, toks, 0);
    ScanUnfolds(s, toks, 1);
    ScanEnd(s, toks);
  }

  lemma DongAhead()
    ensures CurrencyAhead(DONG)
  {
    DongIsPlain();
    PrefixIs(DONG, Spaces, 0);
    PrefixIs(DONG, Letters, 1);
    assert DONG[0..] == DONG && DONG[..1] == DONG;
    hide IsCurrencyWord;
  }

  lemma TenthsSteps(s: Text, toks: seq<Tok>, f: State)
    requires s == TENTHS + DONG && f == Fresh(3)
    requires toks == [Num(TENTHS, 0, 3, 0.4, Absent), Word(DONG, 3, 4, Plain(false, None))]
    ensures var a := Step(s, toks, 0, f);
            a.Go? && a.width == 1 && GrandTotal(a.state) == 0.4 && Unflagged(a.state) && !a.state.seenBig
            && a.state.hasNumber && a.state.hasNonzero && a.state.end == 3 && a.state.slang == {}
            && Step(s, toks, 1, a.state) == Stop(a.state)
  {
    hide DigitCount;
    assert From(s, 3) == DONG;
    assert !ShorthandAhead(DONG);
    assert ReadingOf(s, toks, 0, f) == First;
  }

  // ----- further texts --------------------------------------------------------------------------

  const ONE_TEN_THOUSANDTH: Text := [Dig(0), Dig(0), Dig(0), Dig(1)]

  lemma TenThousandthRead()
    ensures IsDecimalPart(0, Sym('.'), ONE_TEN_THOUSANDTH) && FractionOf(ONE_TEN_THOUSANDTH) == 1.0 / 10000.0
  {
    var f := ONE_TEN_THOUSANDTH;
    assert f[..3] == [Dig(0), Dig(0), Dig(0)] && f[..3][..2] == [Dig(0), Dig(0)] && [Dig(0), Dig(0)][..1] == [Dig(0)];
    assert NatOf([]) == 0 && [Dig(0)][..0] == [];
    assert NatOf([Dig(0)]) == 0;
    assert NatOf([Dig(0), Dig(0)]) == 0;
    assert NatOf(f[..3]) == 0;
    assert NatOf(f) == 1;
    assert Pow10(4) == 10.0 * Pow10(3) && Pow10(3) == 10.0 * Pow10(2) && Pow10(2) == 10.0 * Pow10(1);
    assert Pow10(1) == 10.0 * Pow10(0);
  }

  /** An amount of zero needs no currency suffix: "0.0001" has five digits and is one. */
  lemma DecimalOfZero()
    ensures var s := WithFraction(0, Sym('.'), ONE_TEN_THOUSANDTH); Amounts(s) == [Match(0, s, 0, |s|)]
  {
    hide Amounts, FractionOf, WithFraction;
    TenThousandthRead();
    DecimalNumber(0, Sym('.'), ONE_TEN_THOUSANDTH);
  }

  /** "2 triệu 5" is two and a half million, and "2 triệu 5," is nothing. */
  lemma CommaRefuses()
    ensures var s := Join([Decimal(2), Written("triệu"), [Dig(5)]]);
            Amounts(s) == [Match(2500000, s, 0, |s|)] && Amounts(s + [Sym(',')]) == []
  {
    hide Amounts, Join, Decimal, WordOf, WithTenths, ReadSum, ValueOf, IsNumeral;
    HighScaleLetters(Million);
    LowerWritten("triệu");
    var scale := Written("triệu");
    assert WordFor(scale) == Scale(Million, None);
    OneMillions(2, scale);
    var gs := [Group(Decimal(2), scale)];
    assert GroupWords(gs) + [[Dig(5)]] == [Decimal(2), scale, [Dig(5)]];
    MillionTenths(2, 5, scale);
    FigureNumeral(5);
    TrailingNumber(gs, [Dig(5)]);
    MarkTakesTail(gs, [Dig(5)], Sym(','));
  }

  const PHONE: seq<Text> := [[Dig(0), Dig(9), Dig(1), Dig(2)], [Dig(3), Dig(4), Dig(5)], [Dig(6), Dig(7), Dig(8)]]

  lemma PhoneUnspaced()
    ensures IsBlock(PHONE, 0, |PHONE|) && Unspaced(PHONE) == PHONE[0] + PHONE[1] + PHONE[2]
  {
    var a, b, c := PHONE[0], PHONE[1], PHONE[2];
    assert PHONE[..2] == [a, b] && [a, b][..1] == [a];
    assert Unspaced([a][..0]) == [];
    assert Unspaced([a]) == [] + a == a;
    assert Unspaced([a, b]) == a + b;
  }

  lemma PhoneDigits()
    ensures IsBlock(PHONE, 0, |PHONE|) && NatOf(Unspaced(PHONE)) == 912345678
  {
    PhoneUnspaced();
    PhoneHead();
    ThreeDigits(3, 4, 5);
    ThreeDigits(6, 7, 8);
    hide NatOf, IsBlock, Unspaced;
    NatOfTriple(PHONE[0] + PHONE[1], PHONE[2]);
    NatOfTriple(PHONE[0], PHONE[1]);
  }

  lemma PhoneHead()
    ensures NatOf(PHONE[0]) == 912
  {
    var t := [Dig(9), Dig(1), Dig(2)];
    ThreeDigits(9, 1, 2);
    NatOfTriple([Dig(0)], t);
    assert PHONE[0] == [Dig(0)] + t && [Dig(0)][..0] == [] && NatOf([Dig(0)]) == 0;
  }

  lemma ThreeDigits(x: Digit, y: Digit, z: Digit)
    ensures NatOf([Dig(x), Dig(y), Dig(z)]) == 100 * x + 10 * y + z
  {
    var t := [Dig(x), Dig(y), Dig(z)];
    assert t[..2] == [Dig(x), Dig(y)] && t[..2][..1] == [Dig(x)] && [Dig(x)][..0] == [];
    assert NatOf([Dig(x)]) == x && NatOf([Dig(x), Dig(y)]) == 10 * x + y;
  }

  /** How far the guard against phone numbers reaches: written in groups, "0912 345 678", a phone
      number is an amount. */
  lemma PhoneInGroups()
    ensures Amounts(Join(PHONE)) == [Match(912345678, Join(PHONE), 0, |Join(PHONE)|)]
  {
    hide Amounts, Join, NatOf, Unspaced, IsBlock;
    PhoneDigits();
    SpacedDigits(PHONE);
  }

  lemma PhoneHeadValue()
    ensures Amounts(PHONE[0]) == [Match(912, PHONE[0], 0, 4)]
  {
    hide Amounts, NatOf;
    PhoneHead();
    PlainDigits(PHONE[0]);
  }

  /** With dashes, "0912-345-678", the first group is an amount, 912, and the others are too short. */
  lemma PhoneWithDashes()
    ensures Amounts(PHONE[0] + [Sym('-')] + (PHONE[1] + [Sym('-')] + PHONE[2])) == [Match(912, PHONE[0], 0, 4)]
  {
    hide Amounts, IsNumeral;
    var a, b, c := PHONE[0], PHONE[1], PHONE[2];
    DigitsNumeral(a);
    DigitsNumeral(b);
    PlainDigits(b);
    PlainDigits(c);
    PhoneHeadValue();
    assert Separates(Sym('-'), c) && Separates(Sym('-'), b + [Sym('-')] + c);
    NumberBeforeMark(b, Sym('-'), c);
    NumberBeforeMark(a, Sym('-'), b + [Sym('-')] + c);
  }
}
