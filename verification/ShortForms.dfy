/** The written shorthand "2tr5", and the agreement of all the ways to say a scale and its hundreds. */
module ShortForms {
  import opened Text
  import opened Vocabulary
  import opened Lexer
  import opened Lexing
  import opened Machine
  import opened OpenTail
  import opened Words
  import opened Accepting
  import opened DigitGroups
  import opened Tails
  import opened SpokenTails

  /** The letters "k" or "tr", in either case. */
  predicate IsShortScale(ls: Text) {
    (|ls| == 1 && ls[0].Let? && ls[0].letter == 'k')
    || (|ls| == 2 && ls[0].Let? && ls[0].letter == 't' && ls[1].Let? && ls[1].letter == 'r')
  }

  function ShortMagnitude(ls: Text): Magnitude { if |ls| == 1 then Thousand else Million }

  function Short(n: nat, ls: Text, d: Digit): Text { Decimal(n) + ls + [Dig(d)] }

  function ShortValue(n: nat, ls: Text, d: Digit): nat {
    n * Unit(ShortMagnitude(ls)) + Tenths(d, ShortMagnitude(ls))
  }

  lemma ShortLen(n: nat, ls: Text, d: Digit)
    requires IsShortScale(ls)
    ensures var s := Short(n, ls, d);
            PrefixLen(s, Digits) == |Decimal(n)| && ShorthandLen(s) == |s|
            && ShortScale(s[|Decimal(n)|..]) == |ls| && s[..|Decimal(n)|] == Decimal(n) && s[|s| - 1] == Dig(d)
  {
    hide Decimal, PrefixLen;
    var s, k := Short(n, ls, d), |Decimal(n)|;
    assert forall i | 0 <= i < k :: s[i] == Decimal(n)[i];
    PrefixIs(s, Digits, k);
    assert s[k..] == ls + [Dig(d)];
  }

  lemma ShortWorth(n: nat, ls: Text, d: Digit)
    requires IsShortScale(ls)
    ensures var base := if |ls| == 1 then Base(Thousand) else Base(Million);
            n as real * base + d as real * (base / 10.0) == ShortValue(n, ls, d) as real
  {
    if |ls| == 1 {
      assert Tenths(d, Thousand) == d * 100;
    } else {
      assert Tenths(d, Million) == d * 100000;
    }
  }

  lemma ShortIsCut(n: nat, ls: Text, d: Digit)
    requires IsShortScale(ls)
    ensures var s := Short(n, ls, d);
            ShorthandLen(s) == |s| > 0 && s[0].Dig?
            && Lexer.Shorthand(s, 0) == Num(s, 0, |s|, ShortValue(n, ls, d) as real, Is(Base(ShortMagnitude(ls))))
  {
    hide ShorthandLen, ShortScale, NatOf, Base, Decimal, ShortValue, PrefixLen;
    var s := Short(n, ls, d);
    ShortLen(n, ls, d);
    ShortWorth(n, ls, d);
    NatOfDecimal(n);
    assert In(Decimal(n)[0], Digits);
    assert s[..|s|] == s;
  }

  lemma ShortToken(n: nat, ls: Text, d: Digit)
    requires IsShortScale(ls)
    ensures var s := Short(n, ls, d);
            Tokens(s) == [Num(s, 0, |s|, ShortValue(n, ls, d) as real, Is(Base(ShortMagnitude(ls))))]
  {
    hide Lex, BodyLen, GluedLen, ShorthandLen, Lexer.Shorthand, Base, ShortValue, Short;
    var s := Short(n, ls, d);
    ShortIsCut(n, ls, d);
    assert s[|s|..] == [];
    LexUnfolds(s, false, 0);
    LexEmpty([], IsWordChar(s[|s| - 1]), |s|);
  }

  /** "2tr5" is two and a half million: the digit behind the scale counts its tenths. */
  lemma ShorthandNumber(n: nat, ls: Text, d: Digit)
    requires IsShortScale(ls) && (n > 0 || d > 0)
    ensures Amounts(Short(n, ls, d)) == [Match(ShortValue(n, ls, d), Short(n, ls, d), 0, |Short(n, ls, d)|)]
  {
    hide Lex, Run, Scan, Short, ShortValue, CurrencyAhead, IsDigitText, DigitCount, From, Base, Step;
    var s, v := Short(n, ls, d), ShortValue(n, ls, d);
    ShortToken(n, ls, d);
    ShortShape(n, ls, d);
    var toks := Tokens(s);
    var f := Fresh(|s|);
    ShortStep(s, toks, f, v as real, Base(ShortMagnitude(ls)));
    var s1 := Step(s, toks, 0, f).state;
    assert Slice(s, 0, |s|) == s by { WholeSlice(s); }
    RunUnfolds(s, toks, 0, f);
    RunUnfolds(s, toks, 1, s1);
    ScanUnfolds(s, toks, 0);
    ScanEnd(s, toks);
    RoundWhole(v);
  }

  lemma WholeSlice(s: Text)
    ensures Slice(s, 0, |s|) == s
  {}

  lemma ShortShape(n: nat, ls: Text, d: Digit)
    requires IsShortScale(ls) && (n > 0 || d > 0)
    ensures Short(n, ls, d) != [] && !IsDigitText(Short(n, ls, d)) && ShortValue(n, ls, d) > 0
  {
    hide Decimal;
    assert Short(n, ls, d)[|Decimal(n)|] == ls[0] && !In(ls[0], Digits);
    assert Tenths(d, Thousand) == d * 100 && Tenths(d, Million) == d * 100000;
  }

  lemma ShortStep(s: Text, toks: seq<Tok>, f: State, v: real, base: real)
    requires s != [] && v > 0.0 && toks == [Num(s, 0, |s|, v, Is(base))] && f == Fresh(|s|) && !IsDigitText(s)
    ensures var a := Step(s, toks, 0, f);
            a.Go? && a.width == 1 && a.state.seenBig && a.state.hasNumber && a.state.hasNonzero && Unflagged(a.state)
            && a.state.slang == {} && GrandTotal(a.state) == v && a.state.end == |s|
  {
    hide DigitCount, From, ShorthandAhead, All;
    FromEnd(s);
    assert ReadingOf(s, toks, 0, f) == First;
  }

  lemma FromEnd(s: Text)
    ensures From(s, |s|) == [] && !ShorthandAhead([])
  {}

  // ----- agreement ------------------------------------------------------------------------------

  lemma FigureNumeral(d: Digit)
    requires d > 0
    ensures IsNumeral([Dig(d)]) && IsFigure([Dig(d)])
  {
    DigitsNumeral([Dig(d)]);
    hide BodyLen;
  }

  lemma DigitValue(gs: seq<Group>, d: Digit, hundred: Text)
    requires gs != [] && AreGroups(gs) && Abbreviates(gs) && d > 0 && IsWord(hundred) && WordFor(hundred).Hundred?
    ensures Valued(Join(GroupWords(gs) + [[Dig(d)]])) == [WithTenths(gs, d)]
            && Valued(Join(GroupWords(gs) + [[Dig(d)], hundred])) == [WithTenths(gs, d)]
  {
    hide WordOf, Join, Amounts, WithTenths, Abbreviates, GroupWords, IsGroup, Valued, BodyLen, ValueOf;
    FigureNumeral(d);
    TrailingNumber(gs, [Dig(d)]);
    NumberOfHundreds(gs, [Dig(d)], hundred);
    ValuedOne(Join(GroupWords(gs) + [[Dig(d)]]), WithTenths(gs, d));
    ValuedOne(Join(GroupWords(gs) + [[Dig(d)], hundred]), WithTenths(gs, d));
  }

  lemma NumeralValue(gs: seq<Group>, d: Digit, word: Text, hundred: Text)
    requires gs != [] && AreGroups(gs) && Abbreviates(gs) && d > 0 && IsWord(hundred) && WordFor(hundred).Hundred?
    requires IsWord(word) && WordFor(word) == Ones(d, false)
    ensures Valued(Join(GroupWords(gs) + [word, hundred])) == [WithTenths(gs, d)]
            && Valued(Join(GroupWords(gs) + [word])) == if d == 5 then [] else [WithTenths(gs, d)]
  {
    hide WordOf, Join, Amounts, WithTenths, Abbreviates, GroupWords, IsGroup;
    TrailingNumeral(gs, word);
    NumeralOfHundreds(gs, word, hundred);
    ValuedOne(Join(GroupWords(gs) + [word, hundred]), WithTenths(gs, d));
    if d != 5 { ValuedOne(Join(GroupWords(gs) + [word]), WithTenths(gs, d)); }
  }

  /** The texts that all add `d` tenths of the last scale, `d` from one to nine: a digit, "d trăm",
      or the numeral word, with or without "trăm"; only a bare "năm" is refused. */
  lemma HundredsAgree(gs: seq<Group>, d: Digit, word: Text, hundred: Text)
    requires gs != [] && AreGroups(gs) && Abbreviates(gs) && d > 0 && IsWord(hundred) && WordFor(hundred).Hundred?
    requires IsWord(word) && WordFor(word) == Ones(d, false)
    ensures var head, v := GroupWords(gs), WithTenths(gs, d);
            Valued(Join(head + [[Dig(d)]])) == [v]
            && Valued(Join(head + [[Dig(d)], hundred])) == [v]
            && Valued(Join(head + [word, hundred])) == [v]
            && Valued(Join(head + [word])) == if d == 5 then [] else [v]
  {
    hide WordOf, Join, Amounts, WithTenths, Abbreviates, GroupWords, IsGroup, Valued;
    DigitValue(gs, d, hundred);
    NumeralValue(gs, d, word, hundred);
  }

  lemma OneMillions(n: nat, scale: Text)
    requires n > 0 && IsWord(scale) && WordFor(scale) == Scale(Million, None)
    ensures var gs := [DigitGroups.Group(Decimal(n), scale)];
            AreGroups(gs) && GroupWords(gs) == [Decimal(n), scale] && ReadSum(gs) == (n * 1000000) as real
            && Abbreviates(gs) && MagnitudeOf(gs[0]) == Million && LastUnit(gs) == 1000000
  {
    hide WordOf, Decimal, ValueOf, BodyLen;
    DecimalNumeral(n);
    var gs := [DigitGroups.Group(Decimal(n), scale)];
    assert gs[1..] == [];
    assert AreGroups(gs) && MagnitudeOf(gs[0]) == Million;
    assert GroupWords(gs) == [Decimal(n), scale] + GroupWords([]);
    assert ReadSum(gs) == Scaled(n as real, Million) + ReadSum([]);
    UnitOf(n, Million);
    assert NounsOf(gs) == {} + NounsOf([]);
  }

  lemma MillionTenths(n: nat, d: nat, scale: Text)
    requires n > 0 && IsWord(scale) && WordFor(scale) == Scale(Million, None)
    ensures var gs := [DigitGroups.Group(Decimal(n), scale)];
            AreGroups(gs) && WithTenths(gs, d) == n * 1000000 + d * 100000
  {
    hide WordOf, Decimal, ReadSum, AreGroups, RoundHalfUp;
    OneMillions(n, scale);
    RoundWhole(n * 1000000 + d * 100000);
  }

  /** "n tr d", written together, is "n triệu d", and with five it is "n triệu rưỡi". */
  lemma ShorthandAgrees(n: nat, ls: Text, d: Digit, scale: Text, half: Text)
    requires IsShortScale(ls) && |ls| == 2 && n > 0 && d > 0 && IsWord(scale)
    requires WordFor(scale) == Scale(Million, None) && IsWord(half) && WordFor(half).Halves?
    ensures Valued(Short(n, ls, d)) == [n * 1000000 + d * 100000]
    ensures Valued(Join([Decimal(n), scale] + [[Dig(d)]])) == [n * 1000000 + d * 100000]
    ensures Valued(Join([Decimal(n), scale] + [half])) == Valued(Short(n, ls, 5))
  {
    hide WordOf, Join, Decimal, Amounts, Short, Tenths, ReadSum, Abbreviates, GroupWords, MagnitudeOf, AreGroups,
      Valued, LastUnit, WithTenths, BodyLen, RoundHalfUp;
    var gs := [DigitGroups.Group(Decimal(n), scale)];
    OneMillions(n, scale);
    MillionTenths(n, d, scale);
    ShortMillions(n, ls, d);
    ShorthandNumber(n, ls, d);
    ValuedOne(Short(n, ls, d), n * 1000000 + d * 100000);
    ShortMillions(n, ls, 5);
    ShorthandNumber(n, ls, 5);
    ValuedOne(Short(n, ls, 5), n * 1000000 + 500000);
    FigureNumeral(d);
    TrailingNumber(gs, [Dig(d)]);
    ValuedOne(Join([Decimal(n), scale] + [[Dig(d)]]), n * 1000000 + d * 100000);
    HalfTail(gs, half);
    RoundWhole(n * 1000000 + 500000);
    ValuedOne(Join([Decimal(n), scale] + [half]), n * 1000000 + 500000);
  }

  lemma ShortMillions(n: nat, ls: Text, d: Digit)
    requires IsShortScale(ls) && |ls| == 2
    ensures ShortValue(n, ls, d) == n * 1000000 + d * 100000
  {}
}
