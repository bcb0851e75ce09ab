/** One word in front of a text that starts with a number: which words leave the amounts of the text
    as they are, and what each of the others does to them. */
module LeadingWords {
  import opened Text
  import opened Vocabulary
  import opened Lexer
  import opened Machine
  import opened Composition
  import opened OpenTail
  import opened Words
  import opened Accepting
  import opened DigitGroups
  import opened Tails
  import opened SpokenTails
  import opened NumberForms
  import opened Names

  /** The words that leave the amounts behind them as they are. */
  predicate IsHarmless(w: Word) { IsCounting(w) || (w.Plain? && !w.identifier) }

  /** The words that open an amount themselves, without being a scale. */
  predicate Opens(w: Word) { w.Tens? || w.Hundred? || w.Filler? || w.Halves? }

  /** What such a word adds to a number behind it: "rưỡi" adds a half, which is rounded up. */
  function Added(w: Word): nat
    requires Opens(w)
  {
    match w
    case Tens(_) => 10
    case Hundred => 100
    case Filler => 0
    case Halves => 1
  }

  // ----- a number behind the word ---------------------------------------------------------------

  /** What the word has put into the accumulators. */
  predicate HasTaken(s: State, w: Word)
    requires Opens(w)
  {
    match w
    case Tens(_) => s.total == 0.0 && s.section == 10.0
    case Hundred => s.total == 0.0 && s.section == 100.0
    case Filler => s.total == 0.0 && s.section == 0.0
    case Halves => s.total == 0.5 && s.section == 0.0
  }

  /** The state behind the word and the number. */
  lemma LedState(text: Text, toks: seq<Tok>, ws: seq<Text>) returns (s: State)
    requires Reads(text, toks, ws) && |ws| >= 2 && IsWord(ws[0]) && Opens(WordFor(ws[0])) && IsNumeral(ws[1])
    requires |ws| == 2 || (|ws| == 3 && IsWord(ws[2]) && WordFor(ws[2]).Scale?)
    ensures |toks| == |ws| && RunAt(text, toks, 0) == Run(text, toks, 2, s)
    ensures s.hasNumber && !s.seenBig && s.slang == {} && Unflagged(s) && s.digits == DigitCount(ws[1])
    ensures s.hasNonzero == (ValueOf(ws[1]) != 0.0 || !WordFor(ws[0]).Filler?)
    ensures s.end == toks[1].end && s.current == Is(ValueOf(ws[1])) && HasTaken(s, WordFor(ws[0]))
  {
    hide WordOf, Run, Step, ReadsAt, Reads, ValueOf, BodyLen, DigitCount;
    ReadsLength(text, toks, ws);
    ReadsHere(text, toks, ws, 0);
    ReadsHere(text, toks, ws, 1);
    var f := Fresh(toks[0].end);
    ScaleStep(text, toks, ws, 0, f);
    var s0 := Multiply(f, WordFor(ws[0]), toks[0].end);
    NumberBegins(text, toks, ws, 1, s0);
    s := Began(s0, ws[1], toks[1].end);
    RunUnfolds(text, toks, 0, f);
    RunUnfolds(text, toks, 1, s0);
  }

  /** What the word and the number come to: "rưỡi" adds a half. */
  function LedTotal(w: Word, v: real): real
    requires Opens(w)
  {
    v + if w.Halves? then 0.5 else Added(w) as real
  }

  lemma LedGrand(w: Word, s: State, v: real)
    requires Opens(w) && s.current == Is(v) && v >= 0.0 && HasTaken(s, w)
    ensures GrandTotal(s) == LedTotal(w, v) && (GrandTotal(s) > 0.0 <==> v != 0.0 || !w.Filler?)
  {}

  /** A run over the whole text without a scale is an amount exactly if it has four digits. */
  lemma WholeDigits(text: Text, toks: seq<Tok>, ws: seq<Text>, s: State)
    requires toks == Tokens(text) && Reads(text, toks, ws) && |ws| > 0 && IsWord(ws[0])
    requires RunAt(text, toks, 0) == Outcome(s, |toks|) && s.end == |text|
    requires s.hasNumber && Unflagged(s) && !s.seenBig && s.slang == {} && (s.hasNonzero ==> GrandTotal(s) > 0.0)
    ensures Amounts(text)
         == if s.hasNonzero && s.digits >= 4 then [Match(RoundHalfUp(GrandTotal(s)), text, 0, |text|)] else []
  {
    hide Lex, Scan, RunAt, CurrencyAhead, From, GrandTotal, RoundHalfUp, ReadsAt;
    ReadsHere(text, toks, ws, 0);
    OpensWithLetter(text, toks, ws);
    LettersAreNoDigits(text, 0, |text|);
    hide IsPhoneShape, IsYearShape;
    assert Slice(text, 0, |text|) == text;
    NothingAhead(text);
    ScanUnfolds(text, toks, 0);
    ScanEnd(text, toks);
    ConsumedStarts(text, toks, 0);
  }

  lemma OpensWithLetter(text: Text, toks: seq<Tok>, ws: seq<Text>)
    requires toks == Tokens(text) && Reads(text, toks, ws) && IsWord(ws[0])
    ensures text != [] && text[0].Let?
  {
    hide Lex, WordOf, ValueOf, BodyLen;
    Lexing.TokensLossless(text);
    assert ReadsAt(text, toks, ws, 0) && In(ws[0][0], Letters);
    assert toks[0].text == text[toks[0].start..toks[0].end];
  }

  /** A numeral of four digits or more behind such a word is an amount, even one of the shape of a
      year or of a phone number, and what the word says is added: "mười 2024" is 2034. */
  lemma LedNumber(w: Text, n: Text)
    requires IsWord(w) && Opens(WordFor(w)) && IsNumeral(n)
    ensures var text, v := Join([w, n]), ValueOf(n);
            Amounts(text)
            == if DigitCount(n) >= 4 && (v != 0.0 || !WordFor(w).Filler?)
               then [Match(RoundHalfUp(LedTotal(WordFor(w), v)), text, 0, |text|)] else []
  {
    hide Lex, WordOf, Join, Reads, Run, RunAt, GrandTotal, RoundHalfUp, ValueOf, BodyLen, DigitCount, LedTotal;
    var ws := [w, n];
    var text := Join(ws);
    var toks := Tokens(text);
    JoinReads(ws);
    var s := LedState(text, toks, ws);
    RunUnfolds(text, toks, 2, s);
    LastEnds(text, toks, ws);
    LedGrand(WordFor(w), s, ValueOf(n));
    WholeDigits(text, toks, ws, s);
  }

  lemma LastEnds(text: Text, toks: seq<Tok>, ws: seq<Text>)
    requires Reads(text, toks, ws)
    ensures |toks| == |ws| > 0 && toks[|ws| - 1].end == |text|
  {
    hide ReadsAt;
  }

  // ----- a number with a scale behind the word --------------------------------------------------

  /** What such a word and a number with a scale behind them come to. */
  function Led(w: Word, v: real, m: Magnitude): real
    requires Opens(w)
  {
    if w.Halves? then Scaled(v, m) + 0.5 else Scaled(v + Added(w) as real, m)
  }

  lemma LedScaled(w: Word, s: State, v: real, m: Magnitude)
    requires Opens(w) && s.current == Is(v) && v >= 0.0 && HasTaken(s, w)
    ensures var total := s.total + Scaled(s.section + OrZero(s.current), m); total > 0.0 && total == Led(w, v, m)
  {
    hide Scaled;
    ScaledLarge(s.section + v, m);
  }

  /** A number with a scale behind such a word: "mười 500 ngàn" is 510 000, "trăm 500 ngàn" 600 000. */
  lemma LedGroup(w: Text, n: Text, scale: Text)
    requires IsWord(w) && Opens(WordFor(w)) && IsNumeral(n) && IsWord(scale) && WordFor(scale).Scale?
    ensures var text, v := Join([w, n, scale]), ValueOf(n);
            Amounts(text)
            == if v == 0.0 && WordFor(w).Filler? then []
               else [Match(RoundHalfUp(Led(WordFor(w), v, WordFor(scale).magnitude)), text, 0, |text|)]
  {
    hide Lex, WordOf, Join, Reads, ReadsAt, Run, Step, RunAt, RoundHalfUp, ValueOf, BodyLen, DigitCount, Scaled, Led;
    var ws := [w, n, scale];
    var text := Join(ws);
    var toks := Tokens(text);
    JoinReads(ws);
    var s := LedState(text, toks, ws);
    ReadsHere(text, toks, ws, 2);
    ScaleStep(text, toks, ws, 2, s);
    var s' := Multiply(s, WordFor(scale), toks[2].end);
    RunUnfolds(text, toks, 2, s);
    RunUnfolds(text, toks, 3, s');
    if ValueOf(n) == 0.0 && WordFor(w).Filler? {
      AllZero(text, toks, s');
    } else {
      LedScaled(WordFor(w), s, ValueOf(n), WordFor(scale).magnitude);
      WholeText(text, toks, ws, s');
    }
  }

  lemma LedByScaleState(text: Text, toks: seq<Tok>, ws: seq<Text>) returns (s: State)
    requires Reads(text, toks, ws) && |ws| == 3 && IsWord(ws[0]) && WordFor(ws[0]).Scale? && IsNumeral(ws[1])
    requires IsWord(ws[2]) && WordFor(ws[2]).Scale?
    ensures |toks| == 3 && RunAt(text, toks, 0) == Outcome(s, 3)
    ensures s.hasNumber && s.seenBig && s.hasNonzero == (ValueOf(ws[1]) != 0.0) && Unflagged(s)
    ensures GrandTotal(s) == Scaled(0.0, WordFor(ws[0]).magnitude) + Scaled(ValueOf(ws[1]), WordFor(ws[2]).magnitude)
  {
    hide WordOf, Reads, ReadsAt, Run, Step, Scaled, ValueOf, Base, BodyLen, DigitCount;
    ReadsLength(text, toks, ws);
    ReadsHere(text, toks, ws, 0);
    ReadsHere(text, toks, ws, 1);
    ReadsHere(text, toks, ws, 2);
    ScaleFollows(text, toks, ws, 1);
    var f := Fresh(toks[0].end);
    ScaleStep(text, toks, ws, 0, f);
    var s0 := Multiply(f, WordFor(ws[0]), toks[0].end);
    NumberBegins(text, toks, ws, 1, s0);
    var s1 := Began(s0, ws[1], toks[1].end);
    ScaleStep(text, toks, ws, 2, s1);
    s := Multiply(s1, WordFor(ws[2]), toks[2].end);
    RunUnfolds(text, toks, 0, f);
    RunUnfolds(text, toks, 1, s0);
    RunUnfolds(text, toks, 2, s1);
    RunUnfolds(text, toks, 3, s);
  }

  /** A scale word in front counts once by itself: "triệu 500 nghìn" is 1 500 000. */
  lemma LedByScale(w: Text, n: Text, scale: Text)
    requires IsWord(w) && WordFor(w).Scale? && IsNumeral(n) && IsWord(scale) && WordFor(scale).Scale?
    ensures var text := Join([w, n, scale]);
            var v := Scaled(0.0, WordFor(w).magnitude) + Scaled(ValueOf(n), WordFor(scale).magnitude);
            Amounts(text) == if ValueOf(n) == 0.0 then [] else [Match(RoundHalfUp(v), text, 0, |text|)]
  {
    hide Lex, WordOf, Join, Reads, Run, RunAt, Scaled, ValueOf, BodyLen, GrandTotal, RoundHalfUp;
    var ws := [w, n, scale];
    var text := Join(ws);
    JoinReads(ws);
    var s := LedByScaleState(text, Tokens(text), ws);
    ScaledLarge(0.0, WordFor(w).magnitude);
    ScaledLarge(ValueOf(n), WordFor(scale).magnitude);
    if ValueOf(n) == 0.0 { AllZero(text, Tokens(text), s); } else { WholeText(text, Tokens(text), ws, s); }
  }

  lemma ScaleFollows(text: Text, toks: seq<Tok>, ws: seq<Text>, k: nat)
    requires k + 1 < |toks| == |ws| && ReadsAt(text, toks, ws, k + 1) && IsWord(ws[k + 1]) && WordFor(ws[k + 1]).Scale?
    ensures IsScaleTok(Peek(toks, k + 1)) && !IsHundredTok(Peek(toks, k + 1))
  {
    hide WordOf, StandsFree;
    assert In(ws[k + 1][0], Letters);
  }

  // ----- a number behind another word -----------------------------------------------------------

  /** A scale word that lets a digit behind it stand for its hundreds. */
  predicate TakesFigure(w: Word) { w.Scale? && Unit(w.magnitude) >= 1000000 && w.noun.None? }

  /** Behind a scale word one digit may stand for its hundreds; any other numeral is money only by
      itself. */
  lemma NumberBehindScale(w: Text, n: Text)
    requires IsWord(w) && WordFor(w).Scale? && IsNumeral(n)
    ensures var text, m := Join([w, n]), WordFor(w).magnitude;
            Amounts(text)
            == if IsFigure(n) && TakesFigure(WordFor(w))
               then [Match(Unit(m) + Tenths(n[0].digit, m), text, 0, |text|)]
               else ByItself(n, text)
  {
    hide Lex, WordOf, Join, Reads, ReadsAt, Run, Step, Scan, ValueOf, BodyLen, Base, RoundHalfUp, IsBare, IsFigure,
      Taken, GrandTotal, Unit, Tenths, RunAt;
    var ws, m := [w, n], WordFor(w).magnitude;
    var text := Join(ws);
    var toks := Tokens(text);
    JoinReads(ws);
    ReadsLength(text, toks, ws);
    ReadsHere(text, toks, ws, 0);
    ReadsHere(text, toks, ws, 1);
    var f := Fresh(toks[0].end);
    assert RunAt(text, toks, 0) == Run(text, toks, 0, f) by { RunAtIs(text, toks, 0); }
    ScaleStep(text, toks, ws, 0, f);
    var s := Multiply(f, WordFor(w), toks[0].end);
    RunUnfolds(text, toks, 0, f);
    BehindScale(s, WordFor(w));
    if IsFigure(n) && TakesFigure(WordFor(w)) {
      NumberBehind(text, toks, ws, 1, s, m);
      RunUnfolds(text, toks, 1, s);
      TakenFinishes(text, toks, s, m, n[0].digit, toks[1].end);
      AmountIs(text, toks, ws, Taken(s, n[0].digit as real, m, toks[1].end), Unit(m) + Tenths(n[0].digit, m));
    } else {
      NumberRefuses(text, toks, ws, 1, s, m);
    }
  }

  lemma RunAtIs(text: Text, toks: seq<Tok>, i: nat)
    requires i < |toks|
    ensures RunAt(text, toks, i) == Run(text, toks, i, Fresh(toks[i].end))
  {}

  lemma BehindScale(s: State, w: Word)
    requires w.Scale? && s.current.Absent? && s.section == 0.0 && Unflagged(s) && s.seenBig && s.hasNumber
    requires s.total == 0.0 + Scaled(0.0 + 0.0, w.magnitude) && s.lastScale == Is(Base(w.magnitude))
    requires s.slang == if w.noun.Some? then {} + {w.noun.value} else {}
    ensures Closed(s, w.magnitude) && s.total == Unit(w.magnitude) as real && Unit(w.magnitude) > 0
    ensures TakesDigits(s) <==> TakesFigure(w)
  {}

  /** Behind an identifier word a numeral is no amount: "mã 5000". */
  lemma IdentifierGuards(w: Text, n: Text)
    requires IsWord(w) && WordFor(w).Plain? && WordFor(w).identifier && IsNumeral(n)
    ensures Amounts(Join([w, n])) == []
  {
    hide Lex, WordOf, Join, Reads, ReadsAt, Run, Step, Scan, ValueOf, BodyLen, DigitCount, CurrencyAhead, From, Judge;
    var ws := [w, n];
    var text := Join(ws);
    var toks := Tokens(text);
    JoinReads(ws);
    ReadsLength(text, toks, ws);
    ReadsHere(text, toks, ws, 0);
    ReadsHere(text, toks, ws, 1);
    LastEnds(text, toks, ws);
    WordTokAt(text, toks, ws, 0);
    var f := Fresh(toks[1].end);
    NumberBegins(text, toks, ws, 1, f);
    var s := Began(f, ws[1], toks[1].end);
    RunUnfolds(text, toks, 1, f);
    RunUnfolds(text, toks, 2, s);
    ScanUnfolds(text, toks, 0);
    ScanUnfolds(text, toks, 1);
    ScanEnd(text, toks);
    NothingAhead(text);
    IdentifierRefused(text, toks, s);
  }

  lemma WordTokAt(text: Text, toks: seq<Tok>, ws: seq<Text>, k: nat)
    requires k < |toks| == |ws| && ReadsAt(text, toks, ws, k) && IsWord(ws[k])
    ensures toks[k].Word? && toks[k].word == WordFor(ws[k])
  {
    hide WordOf, StandsFree, BodyLen;
    assert In(ws[k][0], Letters);
  }

  lemma IdentifierRefused(text: Text, toks: seq<Tok>, s: State)
    requires |toks| == 2 && IsIdentifierTok(Some(toks[0])) && !s.seenBig && !CurrencyAhead(From(text, s.end))
    ensures Judge(text, toks, 1, 2, s).None?
  {
    hide CurrencyAhead, From, IsPhoneShape, IsYearShape, IsIdentifierTok;
  }

  // ----- phone numbers --------------------------------------------------------------------------

  lemma PhoneDigits(n: Text)
    requires IsPhoneShape(n)
    ensures IsNumeral(n) && DigitCount(n) >= 4 && |n| > 1 && !IsBare(n) && ValueOf(n) == NatOf(n) as real
    ensures Amounts(n) == [] && StartsWithNumber(n)
  {
    hide ValueOf, NatOf, BodyLen, DigitCount, Amounts;
    DigitsNumeral(n);
    DigitCountAll(n);
    PlainNumeral(n);
    NumberOpens(n);
  }

  lemma LongIsNoFigure(n: Text)
    requires |n| > 1
    ensures !IsFigure(n)
  {}

  /** A phone number in one piece is caught, alone or behind a word, unless the word is a ten, "trăm", a
      filler or "rưỡi" (a filler does not make an amount of zeros): "mười 0912345678" is 912 345 688. */
  lemma PhoneBehindWord(w: Text, n: Text)
    requires IsWord(w) && IsPhoneShape(n)
    ensures Amounts(n) == []
    ensures Amounts(Join([w, n])) != [] <==> Opens(WordFor(w)) && (NatOf(n) > 0 || !WordFor(w).Filler?)
  {
    hide WordOf, Amounts, Join, IsBare, ValueOf, NatOf, BodyLen, DigitCount, StartsWithNumber, RoundHalfUp,
      IsPhoneShape;
    PhoneDigits(n);
    JoinTwo(w, n);
    var word := WordFor(w);
    if Opens(word) {
      LedNumber(w, n);
    } else if word.Scale? {
      NumberBehindScale(w, n);
      LongIsNoFigure(n);
    } else if IsHarmless(word) {
      HarmlessKeeps(w, n);
    } else {
      IdentifierGuards(w, n);
    }
  }

  // ----- the words that do no harm --------------------------------------------------------------

  lemma NumberOpens(n: Text)
    requires IsNumeral(n)
    ensures StartsWithNumber(n)
  {
    hide Lex, ValueOf, BodyLen;
    ChunkLex(n);
  }

  lemma GroupOpens(n: Text, scale: Text)
    requires IsNumeral(n) && IsWord(scale)
    ensures StartsWithNumber(Join([n, scale]))
  {
    hide Lex, Join, WordOf, ValueOf, BodyLen;
    var ws := [n, scale];
    JoinReads(ws);
    assert ReadsAt(Join(ws), Tokens(Join(ws)), ws, 0);
  }

  /** A text that shows the harm of a word: its values are others behind the word. */
  lemma HarmShown(w: Text) returns (t: Text)
    requires IsWord(w) && !IsHarmless(WordFor(w))
    ensures StartsWithNumber(t) && Valued(w + [BLANK] + t) != Valued(t)
  {
    hide WordOf, Amounts, Decimal, LedTotal, StartsWithNumber, Scaled, ValueOf, IsNumeral, DigitCount, RoundHalfUp;
    var word := WordFor(w);
    if Opens(word) {
      t := Decimal(2024);
      HarmOfOpening(w, t);
    } else if word.Scale? {
      DecimalNumeral(1);
      t := Join([Decimal(1), w]);
      GroupOpens(Decimal(1), w);
      JoinThree(w, Decimal(1), w);
      LedByScale(w, Decimal(1), w);
      OneGroup(Decimal(1), w);
      ScaleTwice(word.magnitude);
      var m := word.magnitude;
      ValuedOne(w + [BLANK] + t, RoundHalfUp(Scaled(0.0, m) + Scaled(1.0, m)));
      ValuedOne(t, RoundHalfUp(Scaled(1.0, m)));
    } else {
      t := Decimal(5000);
      DecimalNumeral(5000);
      NumberOpens(t);
      JoinTwo(w, t);
      IdentifierGuards(w, t);
      PlainNumber(5000);
      ValuedOne(t, 5000);
    }
  }

  lemma HarmOfOpening(w: Text, t: Text)
    requires IsWord(w) && Opens(WordFor(w)) && t == Decimal(2024)
    ensures StartsWithNumber(t) && Valued(w + [BLANK] + t) != Valued(t)
  {
    hide WordOf, Amounts, Decimal, LedTotal, StartsWithNumber, ValueOf, IsNumeral, DigitCount, RoundHalfUp;
    DecimalNumeral(2024);
    NumberOpens(t);
    DecimalLength(2024);
    DigitCountAll(t);
    JoinTwo(w, t);
    LedNumber(w, t);
    PlainNumber(2024);
    ValuedOne(w + [BLANK] + t, RoundHalfUp(LedTotal(WordFor(w), 2024.0)));
  }

  lemma ScaleTwice(m: Magnitude)
    ensures RoundHalfUp(Scaled(0.0, m) + Scaled(1.0, m)) != RoundHalfUp(Scaled(1.0, m))
  {}

  lemma JoinTwo(a: Text, b: Text)
    ensures Join([a, b]) == a + [BLANK] + b
  {
    assert [a, b][1..] == [b];
  }

  lemma JoinThree(a: Text, b: Text, c: Text)
    ensures Join([a, b, c]) == a + [BLANK] + Join([b, c])
  {
    assert [a, b, c][1..] == [b, c];
  }

  lemma OneGroup(n: Text, scale: Text)
    requires IsNumeral(n) && ValueOf(n) != 0.0 && IsWord(scale) && WordFor(scale).Scale?
    ensures var text := Join([n, scale]);
            Amounts(text) == [Match(RoundHalfUp(Scaled(ValueOf(n), WordFor(scale).magnitude)), text, 0, |text|)]
  {
    hide WordFor, Amounts, Join, Scaled, GroupWords, ReadSum, SomeCount, ValueOf, BodyLen, RoundHalfUp;
    var gs := [Group(n, scale)];
    OneGroupSum(gs[0]);
    DigitRoundTrip(gs);
  }

  lemma OneGroupSum(g: Group)
    requires IsGroup(g)
    ensures AreGroups([g]) && (SomeCount([g]) <==> ValueOf(g.count) != 0.0) && GroupWords([g]) == [g.count, g.scale]
    ensures ReadSum([g]) == Scaled(ValueOf(g.count), WordFor(g.scale).magnitude)
  {
    hide WordFor, Scaled, ValueOf, BodyLen;
    assert [g][1..] == [] && [g][0] == g;
  }

  /** The text behind the word keeps its amounts. */
  predicate Keeps(w: Text, t: Text) { Amounts(w + [BLANK] + t) == ShiftMatches(Amounts(t), |w| + 1) }

  lemma KeptValues(w: Text, t: Text)
    requires Keeps(w, t)
    ensures Valued(w + [BLANK] + t) == Valued(t)
  {
    hide Amounts;
  }

  /** The harmless words, exactly: a word leaves the amounts of every text that starts with a number
      as they are if and only if it is a numeral 0..9, "nửa", or a plain word that does not announce
      an identifier. */
  lemma HarmlessWords(w: Text)
    requires IsWord(w)
    ensures (forall t | StartsWithNumber(t) :: Keeps(w, t)) <==> IsHarmless(WordFor(w))
  {
    hide WordOf, Keeps, Amounts, StartsWithNumber, Valued;
    if IsHarmless(WordFor(w)) {
      forall t | StartsWithNumber(t) ensures Keeps(w, t) { HarmlessKeeps(w, t); }
    } else {
      var t := HarmShown(w);
      if Keeps(w, t) { KeptValues(w, t); }
    }
  }

  lemma HarmlessKeeps(w: Text, t: Text)
    requires IsWord(w) && IsHarmless(WordFor(w)) && StartsWithNumber(t)
    ensures Keeps(w, t)
  {
    hide WordOf, Amounts, StartsWithNumber, IsCurrency;
    NamesDoNotInterfere([w], t);
    assert !Priced([w][1..], false) && !Priced([w][1..], true);
  }
}
