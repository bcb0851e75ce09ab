/** When the value of an amount is zero although its exact total is positive. */
module Rounding {
  import opened Text
  import opened Vocabulary
  import opened Lexer
  import opened Lexing
  import opened Machine
  import opened Invariants
  import opened Guarantees

  /** A number between zero and one half. */
  predicate IsSmall(t: Tok) { t.Num? && 0.0 < t.value < 0.5 }

  predicate SomeSmall(toks: seq<Tok>, i: nat, j: nat)
    requires j <= |toks|
  {
    exists k | i <= k < j :: IsSmall(toks[k])
  }

  // ----- without a small number every part is zero or at least one half --------------------------

  predicate Chunky(x: real) { x == 0.0 || x >= 0.5 }

  predicate InChunks(s: State) { Chunky(s.total) && Chunky(s.section) && Chunky(OrZero(s.current)) }

  lemma ChunkyTimes(x: real, k: real)
    requires Chunky(x) && k >= 1.0
    ensures Chunky(x * k) && x * k >= 0.0
  {}

  lemma ChunkyHundreds(digit: real, scale: real)
    requires Chunky(digit) && (scale == 0.0 || IsBase(scale))
    ensures Chunky(HundredsOf(digit, scale)) && HundredsOf(digit, scale) >= 0.0
  {
    if scale != 0.0 { ChunkyTimes(digit, scale / 10.0); }
  }

  lemma ChunkyScaled(section: real, m: Magnitude)
    requires Chunky(section)
    ensures Chunky(Scaled(section, m)) && Scaled(section, m) >= 0.0
  {
    ChunkyTimes(section, Base(m));
  }

  lemma ChunkySum(x: real, y: real)
    requires Chunky(x) && Chunky(y)
    ensures Chunky(x + y)
  {}

  lemma ChunkyWhole(n: nat)
    ensures Chunky(n as real)
  {}

  lemma ChunkyCount(t: Tok, nxt: Option<Tok>, s: State)
    requires t.Num? && InChunks(s)
    ensures InChunks(Count(t, nxt, s).state)
  {
    hide DigitCount, GluedWord, IsScaleTok, Chunky;
  }

  lemma ChunkyNum(text: Text, toks: seq<Tok>, j: nat, s: State)
    requires j < |toks| && toks[j].Num? && toks[j].value >= 0.0 && !IsSmall(toks[j]) && InChunks(s)
    requires s.lastScale.Is? ==> IsBase(s.lastScale.value)
    ensures InChunks(StepNum(text, toks, j, s).state)
  {
    hide HundredsOf, ReadingOf, Count, JoinsGroup, DigitShorthand, IsEdge, All, IsBase, Chunky, IsHundredTok;
    var t, nxt := toks[j], Peek(toks, j + 1);
    assert Chunky(t.value) by { LargeIsChunky(t); }
    match ReadingOf(text, toks, j, s) {
      case Hundreds =>
        ChunkyHundreds(t.value, s.lastScale.Or(0.0));
        ChunkySum(s.section, HundredsOf(t.value, s.lastScale.Or(0.0)));
      case First =>
        ChunkyCount(t, nxt, s.(current := Is(t.value), fromDigits := t.text != [] && All(t.text, Digits)));
      case NextGroup =>
        ChunkyTimes(s.current.value, 1000.0);
        ChunkySum(s.current.value * 1000.0, t.value);
        ChunkyCount(t, nxt, s.(current := Is(s.current.value * 1000.0 + t.value)));
      case _ =>
    }
  }

  lemma LargeIsChunky(t: Tok)
    requires t.Num? && t.value >= 0.0 && !IsSmall(t)
    ensures Chunky(t.value)
  {}

  lemma ChunkyOnes(toks: seq<Tok>, j: nat, s: State)
    requires j < |toks| && toks[j].Word? && toks[j].word.Ones? && InChunks(s)
    requires s.lastScale.Is? ==> IsBase(s.lastScale.value)
    ensures InChunks(StepOnes(toks, j, s).state)
  {
    hide HundredsOf, SpokenShorthand, NamShorthand, IsScaleTok, IsBase, Chunky, IsEdge, IsHundredTok;
    var v := toks[j].word.digit as real;
    ChunkyWhole(toks[j].word.digit);
    ChunkyHundreds(v, s.lastScale.Or(0.0));
    ChunkySum(s.section, HundredsOf(v, s.lastScale.Or(0.0)));
    ChunkySum(OrZero(s.current), v);
  }

  lemma ChunkyWord(s: State, w: Word, end: nat)
    requires IsNumberWord(w) && !w.Ones? && InChunks(s)
    requires s.lastScale.Is? ==> IsBase(s.lastScale.value)
    ensures InChunks(Multiply(s, w, end))
  {
    hide Scaled, Chunky;
    ChunkyParts(s);
    match w {
      case Filler =>
      case Tens(_) => ChunkySum(s.section, OrOne(s.current) * 10.0);
      case Hundred => ChunkySum(s.section, OrOne(s.current) * 100.0);
      case Scale(m, _) =>
        ChunkySum(s.section, OrZero(s.current));
        ChunkyScaled(s.section + OrZero(s.current), m);
        ChunkySum(s.total, Scaled(s.section + OrZero(s.current), m));
      case Half => ChunkySum(OrZero(s.current), 0.5);
      case Halves => ChunkySum(s.total, OrOne(s.lastScale) / 2.0);
    }
  }

  lemma ChunkyParts(s: State)
    requires InChunks(s) && (s.lastScale.Is? ==> IsBase(s.lastScale.value))
    ensures Chunky(OrOne(s.current) * 10.0) && Chunky(OrOne(s.current) * 100.0) && Chunky(OrOne(s.lastScale) / 2.0)
    ensures Chunky(0.0) && Chunky(0.5)
  {
    ChunkyTimes(OrOne(s.current), 10.0);
    ChunkyTimes(OrOne(s.current), 100.0);
  }

  lemma ChunkyStep(text: Text, toks: seq<Tok>, j: nat, s: State)
    requires j < |toks| && WellCut(toks[j]) && !IsSmall(toks[j]) && InChunks(s)
    requires s.lastScale.Is? ==> IsBase(s.lastScale.value)
    ensures InChunks(Step(text, toks, j, s).state)
  {
    hide StepNum, StepOnes, Multiply, InChunks, IsBase, ParseNumText, WordOf;
    var t := toks[j];
    if t.Num? {
      ChunkyNum(text, toks, j, s);
    } else if t.Word? && t.word.Ones? {
      ChunkyOnes(toks, j, s);
    } else if t.Word? && IsNumberWord(t.word) {
      ChunkyWord(s, t.word, t.end);
    }
  }

  /** A step that leaves the loop adds nothing, unless it makes the run suspicious. */
  lemma StopAddsNothing(text: Text, toks: seq<Tok>, j: nat, s: State)
    requires j < |toks| && Step(text, toks, j, s).Stop? && InChunks(s)
    ensures var e := Step(text, toks, j, s).state; e.suspicious || InChunks(e)
  {
    hide StepNum, StepOnes, Multiply, Chunky;
    if toks[j].Num? {
      StopAtNumber(text, toks, j, s);
    } else if toks[j].Word? && toks[j].word.Ones? {
      StopAtNumeral(toks, j, s);
    }
  }

  lemma StopAtNumber(text: Text, toks: seq<Tok>, j: nat, s: State)
    requires j < |toks| && toks[j].Num? && StepNum(text, toks, j, s).Stop? && InChunks(s)
    ensures var e := StepNum(text, toks, j, s).state; e.suspicious || InChunks(e)
  {
    hide ReadingOf, HundredsOf, DigitCount, GluedWord, IsScaleTok, Chunky, IsEdge, All;
  }

  lemma StopAtNumeral(toks: seq<Tok>, j: nat, s: State)
    requires j < |toks| && toks[j].Word? && toks[j].word.Ones? && StepOnes(toks, j, s).Stop? && InChunks(s)
    ensures InChunks(StepOnes(toks, j, s).state)
  {
    hide HundredsOf, IsScaleTok, SpokenShorthand, NamShorthand, Chunky, IsEdge;
  }

  /** A run that consumes no small number ends in chunks. */
  lemma {:induction false} ChunkyRun(text: Text, toks: seq<Tok>, i: nat, j: nat, s: State)
    requires Sensible(toks) && RunInvariant(toks, i, j, s) && InChunks(s) && j <= |toks|
    requires !SomeSmall(toks, j, Run(text, toks, j, s).next)
    ensures var e := Run(text, toks, j, s).state; e.suspicious || InChunks(e)
    decreases |toks| - j
  {
    hide Run, Step, RunInvariant, WellCut, InChunks, IsSmall;
    RunUnfolds(text, toks, j, s);
    if j < |toks| {
      assert toks[j] in toks;
      InvariantParts(toks, i, j, s);
      var a := Step(text, toks, j, s);
      if a.Go? {
        ChunkyStep(text, toks, j, s);
        StepKeeps(text, toks, i, j, s);
        ChunkyRun(text, toks, i, j + a.width, a.state);
      } else {
        StopAddsNothing(text, toks, j, s);
      }
    }
  }

  // ----- a small number has a decimal part ------------------------------------------------------

  predicate HasSep(s: Text) { exists p | 0 <= p < |s| :: IsSep(s[p]) }

  lemma SepInside(s: Text, d: nat)
    requires d < |s| && IsSep(s[d..][0])
    ensures HasSep(s)
  {
    assert IsSep(s[d]);
  }

  lemma SmallHasSep(t: Tok)
    requires WellCut(t) && IsSmall(t)
    ensures HasSep(t.text)
  {
    var s := t.text;
    var d := PrefixLen(s, Digits);
    hide NatOf, StripSeps, FractionOf, PrefixLen, HasSep;
    if d < |s| && IsSep(s[d..][0]) { SepInside(s, d); }
  }

  lemma SepShows(text: Text, toks: seq<Tok>, i: nat, j: nat, k: nat)
    requires i <= k < j <= |toks| && InOrder(text, toks) && HasSep(toks[k].text)
    ensures HasSep(Slice(text, toks[i].start, toks[j - 1].end))
  {
    hide Slice, InOrder;
    var p :| 0 <= p < |toks[k].text| && IsSep(toks[k].text[p]);
    RawShows(text, toks, i, j, k, p);
  }

  // ----- amounts of zero ------------------------------------------------------------------------

  /** The exact total of the run that starts at token `i`. */
  function TotalAt(text: Text, toks: seq<Tok>, i: nat): real
    requires i < |toks|
  {
    GrandTotal(RunAt(text, toks, i).state)
  }

  lemma EmittedZero(text: Text, toks: seq<Tok>, i: nat, j: nat, m: Match)
    requires Emitted(text, toks, i, j, m) && Sensible(toks) && InOrder(text, toks)
    ensures i < j <= |toks|
    ensures m.value == 0 <==> TotalAt(text, toks, i) < 0.5
    ensures m.value >= 0 && (m.value == 0 ==> SomeSmall(toks, i, j) && HasSep(m.raw))
  {
    hide Run, SomeScale, SomeNonzero, DigitsIn, CurrencyAhead, LooksLikeIdentifier, RunInvariant, Slice, WellCut,
      HasSep, IsSmall, SomeSmall, InOrder;
    var f := Fresh(toks[i].end);
    FreshInvariant(toks, i);
    if !SomeSmall(toks, i, j) {
      ChunkyRun(text, toks, i, i, f);
    } else {
      SmallShows(text, toks, i, j);
    }
    assert m.raw == Slice(text, toks[i].start, toks[j - 1].end) by { RawIsSlice(text, toks, i, j, m); }
  }

  lemma RawIsSlice(text: Text, toks: seq<Tok>, i: nat, j: nat, m: Match)
    requires Emitted(text, toks, i, j, m)
    ensures m.raw == Slice(text, toks[i].start, toks[j - 1].end)
  {
    hide RunAt, Judge, SomeScale, SomeNonzero, DigitsIn, CurrencyAhead;
  }

  lemma SmallShows(text: Text, toks: seq<Tok>, i: nat, j: nat)
    requires i < j <= |toks| && Sensible(toks) && InOrder(text, toks) && SomeSmall(toks, i, j)
    ensures HasSep(Slice(text, toks[i].start, toks[j - 1].end))
  {
    hide WellCut, HasSep, Slice, InOrder, IsSmall;
    var k :| i <= k < j && IsSmall(toks[k]);
    assert toks[k] in toks;
    SmallHasSep(toks[k]);
    SepShows(text, toks, i, j, k);
  }

  /** The amounts of zero: the value is zero if and only if the exact total is below one half, and
      then a number between zero and one half, with its decimal point or comma, stands in the amount. */
  lemma ZeroAmounts(text: Text, m: Match)
    requires m in Amounts(text)
    ensures exists i, j ::
              Emitted(text, Tokens(text), i, j, m)
              && (m.value == 0 <==> TotalAt(text, Tokens(text), i) < 0.5)
              && (m.value == 0 ==> SomeSmall(Tokens(text), i, j))
    ensures m.value >= 0 && (m.value == 0 ==> HasSep(m.raw))
  {
    hide Lex, Scan, Emitted, WellCut, Solid, InOrder, SomeSmall, HasSep, TotalAt;
    TokensLossless(text);
    ScanEmits(text, Tokens(text), 0);
    var i, j :| Emitted(text, Tokens(text), i, j, m);
    EmittedZero(text, Tokens(text), i, j, m);
  }
}
