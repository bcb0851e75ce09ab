/** What a word between two numbers does: a filler leaves them the groups of one number ("1 lẻ 500"), a
    numeral or "nửa" keeps them apart ("1 hai 500 nghìn"). */
module Interrupted {
  import opened Text
  import opened Vocabulary
  import opened Lexer
  import opened Lexing
  import opened Machine
  import opened Composition
  import opened Barrier
  import opened OpenTail
  import opened Words
  import opened Accepting
  import opened SpokenTails
  import opened NumberForms
  import opened Names
  import opened LeadingWords
  import opened Refusals
  import opened Followers
  import opened Coefficients

  // ----- a filler -------------------------------------------------------------------------------

  lemma WholeDigitText(n: Text)
    requires n != [] && All(n, Digits)
    ensures IsNumeral(n) && ValueOf(n) == ValueOf(n).Floor as real && DigitCount(n) == |n|
  {
    hide NatOf, ValueOf, BodyLen, DigitCount;
    DigitsNumeral(n);
    DigitCountAll(n);
  }

  lemma FillerRun(text: Text, toks: seq<Tok>, ws: seq<Text>) returns (s: State)
    requires toks == Tokens(text) && Reads(text, toks, ws) && |ws| == 3
    requires ws[0] != [] && All(ws[0], Digits) && IsWord(ws[1]) && WordFor(ws[1]).Filler? && IsTriple(ws[2])
    ensures |toks| == 3 && RunAt(text, toks, 0) == Outcome(s, 3)
    ensures s.hasNumber && Unflagged(s) && !s.seenBig && s.slang == {} && s.end == |text| && s.digits >= 4
    ensures GrandTotal(s) == ValueOf(ws[0]) * 1000.0 + ValueOf(ws[2])
    ensures s.hasNonzero == (ValueOf(ws[0]) != 0.0 || ValueOf(ws[2]) != 0.0)
  {
    hide Lex, WordOf, Reads, ReadsAt, Run, Step, ValueOf, BodyLen, DigitCount;
    ReadsHere(text, toks, ws, 0);
    ReadsHere(text, toks, ws, 1);
    ReadsHere(text, toks, ws, 2);
    LastEnds(text, toks, ws);
    WholeDigitText(ws[0]);
    var f := Fresh(toks[0].end);
    NumberBegins(text, toks, ws, 0, f);
    var s1 := Began(f, ws[0], toks[0].end);
    ScaleStep(text, toks, ws, 1, s1);
    var s2 := Multiply(s1, WordFor(ws[1]), toks[1].end);
    GroupJoins(text, toks, ws, 2, s2);
    s := Step(text, toks, 2, s2).state;
    RunUnfolds(text, toks, 0, f);
    RunUnfolds(text, toks, 1, s1);
    RunUnfolds(text, toks, 2, s2);
    RunUnfolds(text, toks, 3, s);
  }

  /** Digits, a filler and three digits are read as one number with a group behind it. */
  lemma FillerBetween(n: Text, f: Text, d: Text)
    requires n != [] && All(n, Digits) && IsWord(f) && WordFor(f).Filler? && IsTriple(d)
    ensures var text, v := Join([n, f, d]), ValueOf(n) * 1000.0 + ValueOf(d);
            Amounts(text) == if v > 0.0 then [Match(RoundHalfUp(v), text, 0, |text|)] else []
  {
    hide Lex, WordOf, Join, Reads, ReadsAt, Run, RunAt, Scan, ValueOf, BodyLen, DigitCount, GrandTotal, RoundHalfUp,
      CurrencyAhead, From;
    var ws := [n, f, d];
    var text := Join(ws);
    var toks := Tokens(text);
    DigitsNumeral(n);
    DigitsNumeral(d);
    JoinReads(ws);
    var s := FillerRun(text, toks, ws);
    BlankInside(n, f, d);
    hide IsPhoneShape, IsYearShape, All;
    assert Slice(text, 0, |text|) == text;
    NothingAhead(text);
    LastEnds(text, toks, ws);
    ReadsEnds(text, toks, ws);
    ConsumedStarts(text, toks, 0);
    ScanUnfolds(text, toks, 0);
    ScanEnd(text, toks);
  }

  lemma BlankInside(a: Text, b: Text, c: Text)
    ensures var text := Join([a, b, c]); !IsPhoneShape(text) && !IsYearShape(text)
  {
    var text := Join([a, b, c]);
    JoinThree(a, b, c);
    assert text[|a|] == BLANK && !In(text[|a|], Digits);
  }

  // ----- a numeral ------------------------------------------------------------------------------

  /** A numeral with a counting word behind it is an amount of its own before the text `t`: it has four
      digits, and `t` does not take it away. */
  predicate StandsBefore(n: Text, w: Text, t: Text) {
    var ts := Tokens(t);
    DigitCount(n) >= 4 && ValueOf(n) + Worth(w) > 0.0 && |ts| > 1 && !ts[1].Other? && !ScaleAndDigit(t, ts[0].end)
  }

  lemma PairRun(n: Text, w: Text, t: Text) returns (s: State)
    requires IsNumeral(n) && IsWord(w) && IsCounting(WordFor(w))
    ensures var a := Join([n, w]);
            var text, toks := a + [BLANK] + t, Joined(a, t);
            |Tokens(a)| == 2 && RunAt(text, toks, 0) == Run(text, toks, 2, s) && toks[0].start == 0 && s.end == |a|
            && toks[0].Num? && toks[1].Word? && !toks[1].word.Plain?
    ensures s.current == Is(ValueOf(n) + Worth(w)) && !s.fromDigits && s.total == 0.0 && s.section == 0.0
    ensures !s.seenBig && s.slang == {} && Unflagged(s) && s.hasNumber && s.digits == DigitCount(n)
    ensures s.hasNonzero == (ValueOf(n) + Worth(w) > 0.0)
  {
    hide Lex, WordOf, Join, ReadsAt, Run, Step, ValueOf, IsNumeral, DigitCount, All;
    var ws := [n, w];
    var a := Join(ws);
    PairOfChunks(n, w);
    JoinReads(ws);
    ReadsEnds(a, Tokens(a), ws);
    var text, toks := a + [BLANK] + t, Joined(a, t);
    var vs := Padded(ws, |toks|);
    PartRead(a, t, ws, vs);
    assert vs[..2][0] == n && vs[..2][1] == w;
    WordAt(text, toks, vs, 1);
    NumberHere(text, toks, vs, 0);
    var f := Fresh(toks[0].end);
    NumberBegins(text, toks, vs, 0, f);
    var s1 := Began(f, n, toks[0].end);
    s := CountStep(text, toks, vs, 1, s1);
    RunUnfolds(text, toks, 0, f);
    RunUnfolds(text, toks, 1, s1);
  }

  lemma PairOfChunks(n: Text, w: Text)
    requires IsNumeral(n) && IsWord(w)
    ensures AreChunks([n, w])
  {
    hide BodyLen;
  }

  lemma NumberHere(text: Text, toks: seq<Tok>, ws: seq<Text>, k: nat)
    requires k < |toks| == |ws| && ReadsAt(text, toks, ws, k) && IsNumeral(ws[k])
    ensures toks[k].Num?
  {
    hide WordOf, StandsFree, ValueOf, BodyLen;
  }

  lemma CountStep(text: Text, toks: seq<Tok>, ws: seq<Text>, k: nat, s: State) returns (s': State)
    requires k < |toks| == |ws| && ReadsAt(text, toks, ws, k) && IsWord(ws[k]) && IsCounting(WordFor(ws[k]))
    requires s.current.Is?
    ensures Step(text, toks, k, s) == Go(s', 1)
    ensures s' == s.(current := Is(s.current.value + Worth(ws[k])), fromDigits := false,
                     hasNonzero := s.hasNonzero || Worth(ws[k]) != 0.0, hasNumber := true, end := toks[k].end)
  {
    hide WordOf, ReadsAt, BodyLen;
    WordAt(text, toks, ws, k);
    assert In(ws[k][0], Letters);
    if WordFor(ws[k]).Ones? {
      OnesGoes(text, toks, k, s, WordFor(ws[k]).digit as real);
      s' := Step(text, toks, k, s).state;
    } else {
      ScaleStep(text, toks, ws, k, s);
      s' := Multiply(s, WordFor(ws[k]), toks[k].end);
    }
  }

  lemma NumberStops(text: Text, toks: seq<Tok>, k: nat, s: State)
    requires k < |toks| && toks[k].Num? && s.current.Is? && !s.fromDigits
    ensures Step(text, toks, k, s)
         == Stop(if ShorthandAhead(From(text, toks[k].end)) then s.(suspicious := true)
                 else s.(ambiguousTail := Peek(toks, k + 1).None? || Peek(toks, k + 1).value.Other?))
  {
    hide ShorthandAhead, From, All;
  }

  lemma PairJudged(text: Text, toks: seq<Tok>, s: State, a: Text, broken: bool, edge: bool)
    requires |toks| > 2 && toks[2].Num? && Slice(text, toks[0].start, s.end) == a && !IsDigitText(a)
    requires !s.seenBig && s.slang == {} && Unflagged(s) && s.hasNumber && !CurrencyAhead(From(text, s.end))
    requires s.hasNonzero == (GrandTotal(s) > 0.0)
    ensures Judge(text, toks, 0, 2, if broken then s.(suspicious := true) else s.(ambiguousTail := edge))
         == if !broken && !edge && s.digits >= 4 && GrandTotal(s) > 0.0
            then Some(Match(RoundHalfUp(GrandTotal(s)), a, toks[0].start, s.end)) else None
  {
    hide Slice, From, CurrencyAhead, IsDigitText, RoundHalfUp;
  }

  lemma PairScanned(n: Text, w: Text, t: Text)
    requires IsNumeral(n) && IsWord(w) && IsCounting(WordFor(w)) && StartsWithNumber(t)
    ensures var a := Join([n, w]);
            var text, toks := a + [BLANK] + t, Joined(a, t);
            |Tokens(a)| == 2 && !IsIdentifierTok(Some(Tokens(a)[1]))
            && Scan(text, toks, 0)
               == (if StandsBefore(n, w, t) then [Match(RoundHalfUp(ValueOf(n) + Worth(w)), a, 0, |a|)] else [])
                  + Scan(text, toks, 2)
  {
    hide Lex, WordOf, Join, Run, RunAt, Scan, Judge, ValueOf, IsNumeral, DigitCount, RoundHalfUp, Worth, CurrencyAhead,
      ShorthandAhead, ScaleAndDigit, WellCut, Solid, From, IsDigitText;
    var a := Join([n, w]);
    var text, toks := a + [BLANK] + t, Joined(a, t);
    var s := PairRun(n, w, t);
    var x := Tokens(t)[0];
    assert toks[2] == Shift(x, |a| + 1) && toks[2].Num?;
    NumberStops(text, toks, 2, s);
    RunUnfolds(text, toks, 2, s);
    TokensLossless(t);
    assert x in Tokens(t);
    FromShift(a + [BLANK], t, x.end);
    AheadIs(t, x.end);
    BehindPair(a, t);
    assert Slice(text, 0, |a|) == a;
    PairText(n, w);
    PairJudged(text, toks, s, a, ShorthandAhead(From(text, toks[2].end)),
               Peek(toks, 3).None? || Peek(toks, 3).value.Other?);
    ConsumedStarts(text, toks, 0);
    ScanUnfolds(text, toks, 0);
  }

  lemma PairText(n: Text, w: Text)
    ensures !IsDigitText(Join([n, w]))
  {
    JoinTwo(n, w);
    assert Join([n, w])[|n|] == BLANK && !In(BLANK, Digits);
  }

  lemma BehindPair(a: Text, t: Text)
    requires StartsWithNumber(t)
    ensures !CurrencyAhead(From(a + [BLANK] + t, |a|))
  {
    hide StartsWithNumber, CurrencyAhead;
    assert (a + [BLANK] + t)[|a|..] == [BLANK] + t;
    AfterBlank(t);
    NumberIsNoCurrency(t);
  }

  /** Behind a numeral and a counting word a number is never a group of the first one: both are read by
      themselves. */
  lemma NumeralBetween(n: Text, w: Text, t: Text)
    requires IsNumeral(n) && IsWord(w) && IsCounting(WordFor(w)) && StartsWithNumber(t)
    ensures var a := Join([n, w]);
            Amounts(a + [BLANK] + t)
            == (if StandsBefore(n, w, t) then [Match(RoundHalfUp(ValueOf(n) + Worth(w)), a, 0, |a|)] else [])
               + ShiftMatches(Amounts(t), |a| + 1)
  {
    hide Lex, Scan, Join, WordOf, IsNumeral, ValueOf, Worth, StandsBefore, RoundHalfUp, ShiftMatches, StartsWithNumber,
      IsIdentifierTok;
    var a := Join([n, w]);
    TokensAcrossSpace(a, BLANK, t);
    PairScanned(n, w, t);
    BehindPrefix(a + [BLANK], Tokens(a), t);
    assert (a + [BLANK]) + t == a + [BLANK] + t;
  }
}
