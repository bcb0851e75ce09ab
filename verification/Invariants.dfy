/** What every step of a run keeps, and what it means for every amount that is emitted. */
module Invariants {
  import opened Text
  import opened Vocabulary
  import opened Lexer
  import opened Lexing
  import opened Machine

  // ----- evidence in tokens ---------------------------------------------------------------------

  /** A token that fixes a big scale: a scale word, or a shorthand such as "1k5". */
  predicate FixesScale(t: Tok) { (t.Word? && t.word.Scale?) || (t.Num? && t.implied.Is?) }

  /** A token that stands for something other than zero; "không", 0 and scale words do not. */
  predicate IsNonzero(t: Tok) {
    (t.Num? && t.value != 0.0)
    || (t.Word? && (t.word.Tens? || t.word.Hundred? || t.word.Half? || t.word.Halves?
                    || (t.word.Ones? && t.word.digit != 0)))
  }

  predicate SomeScale(toks: seq<Tok>, i: nat, j: nat)
    requires j <= |toks|
  {
    exists k | i <= k < j :: FixesScale(toks[k])
  }

  predicate SomeNonzero(toks: seq<Tok>, i: nat, j: nat)
    requires j <= |toks|
  {
    exists k | i <= k < j :: IsNonzero(toks[k])
  }

  /** The digits written in the number tokens from `i` to `j`. */
  function DigitsIn(toks: seq<Tok>, i: nat, j: nat): nat
    requires i <= j <= |toks|
    decreases j - i
  {
    if i == j then 0
    else DigitsIn(toks, i, j - 1) + if toks[j - 1].Num? then DigitCount(toks[j - 1].text) else 0
  }

  // ----- the run invariant ----------------------------------------------------------------------

  predicate IsBase(x: real) { x == 1000.0 || x == 10000.0 || x == 1000000.0 || x == 1000000000.0 }

  predicate Amounting(s: State) { s.total >= 0.0 && s.section >= 0.0 && OrZero(s.current) >= 0.0 }

  /** What the tokens consumed say about the flags and counters of the run. */
  predicate Tallied(toks: seq<Tok>, i: nat, j: nat, s: State) {
    i <= j <= |toks|
    && s.digits <= DigitsIn(toks, i, j)
    && (s.seenBig <==> SomeScale(toks, i, j))
    && (s.hasNonzero <==> SomeNonzero(toks, i, j))
    && (i < j ==> s.end == toks[j - 1].end)
    && (s.hasNumber ==> i < j)
  }

  /** `last_scale` is set exactly when a big scale was seen, so dividing it by ten is safe. */
  predicate ScaleKept(s: State) {
    (s.seenBig <==> s.lastScale.Is?) && (s.lastScale.Is? ==> IsBase(s.lastScale.value))
  }

  /** The invariant of a run that started at token `i` and stands at token `j`. */
  predicate RunInvariant(toks: seq<Tok>, i: nat, j: nat, s: State) {
    Tallied(toks, i, j, s) && ScaleKept(s) && Amounting(s)
  }


  predicate Sensible(toks: seq<Tok>) { forall t | t in toks :: WellCut(t) }

  lemma ScaleSteps(toks: seq<Tok>, i: nat, j: nat)
    requires i <= j < |toks|
    ensures SomeScale(toks, i, j + 1) <==> SomeScale(toks, i, j) || FixesScale(toks[j])
    ensures SomeNonzero(toks, i, j + 1) <==> SomeNonzero(toks, i, j) || IsNonzero(toks[j])
  {}

  lemma HundredsGrow(digit: real, scale: real)
    requires digit >= 0.0 && scale >= 0.0
    ensures HundredsOf(digit, scale) >= 0.0
  {}

  lemma ScaledGrows(section: real, m: Magnitude)
    requires section >= 0.0
    ensures Scaled(section, m) >= section
  {}

  lemma CountGrows(t: Tok, nxt: Option<Tok>, s: State)
    requires t.Num? && Amounting(s)
    ensures var s' := Count(t, nxt, s).state; Amounting(s') && GrandTotal(s') == GrandTotal(s)
  {
    hide DigitCount, GluedWord, IsScaleTok;
  }

  lemma NumGrows(text: Text, toks: seq<Tok>, j: nat, s: State)
    requires j < |toks| && toks[j].Num? && toks[j].value >= 0.0 && Amounting(s)
    requires s.lastScale.Is? ==> IsBase(s.lastScale.value)
    ensures var s' := StepNum(text, toks, j, s).state; Amounting(s') && GrandTotal(s') >= GrandTotal(s)
  {
    hide HundredsOf, ReadingOf, Count, JoinsGroup, DigitShorthand, IsEdge, All;
    var t, nxt := toks[j], Peek(toks, j + 1);
    match ReadingOf(text, toks, j, s) {
      case First =>
        CountGrows(t, nxt, s.(current := Is(t.value), fromDigits := t.text != [] && All(t.text, Digits)));
      case NextGroup => CountGrows(t, nxt, s.(current := Is(s.current.value * 1000.0 + t.value)));
      case _ =>
    }
    HundredsGrow(toks[j].value, s.lastScale.Or(0.0));
  }

  lemma OnesGrow(toks: seq<Tok>, j: nat, s: State)
    requires j < |toks| && toks[j].Word? && toks[j].word.Ones? && Amounting(s)
    requires s.lastScale.Is? ==> IsBase(s.lastScale.value)
    ensures var s' := StepOnes(toks, j, s).state; Amounting(s') && GrandTotal(s') >= GrandTotal(s)
  {
    hide HundredsOf, SpokenShorthand, NamShorthand, IsScaleTok;
    HundredsGrow(toks[j].word.digit as real, s.lastScale.Or(0.0));
  }

  lemma MultiplyGrows(s: State, w: Word, end: nat)
    requires IsNumberWord(w) && !w.Ones? && Amounting(s)
    requires s.lastScale.Is? ==> IsBase(s.lastScale.value)
    ensures var s' := Multiply(s, w, end); Amounting(s') && GrandTotal(s') >= GrandTotal(s)
  {
    hide Scaled, Base;
    if w.Scale? { ScaledGrows(s.section + OrZero(s.current), w.magnitude); }
  }

  /** No step lowers the amount read so far, and every step keeps its parts non-negative. */
  lemma StepGrows(text: Text, toks: seq<Tok>, j: nat, s: State)
    requires j < |toks| && WellCut(toks[j]) && Amounting(s)
    requires s.lastScale.Is? ==> IsBase(s.lastScale.value)
    ensures var s' := Step(text, toks, j, s).state; Amounting(s') && GrandTotal(s') >= GrandTotal(s)
  {
    hide StepNum, StepOnes, Multiply, Amounting, GrandTotal, IsBase, ParseNumText, WordOf;
    var t := toks[j];
    if t.Num? {
      NumGrows(text, toks, j, s);
    } else if t.Word? && t.word.Ones? {
      OnesGrow(toks, j, s);
    } else if t.Word? && IsNumberWord(t.word) {
      MultiplyGrows(s, t.word, t.end);
    }
  }

  // ----- every step keeps the run invariant -----------------------------------------------------

  /** Where the run stands after an action at token `j`. */
  function After(j: nat, a: Action): nat { if a.Go? then j + a.width else j }

  lemma TakeKeeps(toks: seq<Tok>, i: nat, j: nat, s: State, digit: real)
    requires j < |toks| && Tallied(toks, i, j, s) && IsNonzero(toks[j]) && !FixesScale(toks[j])
    ensures var a := TakeHundreds(toks, j, s, digit); Tallied(toks, i, After(j, a), a.state)
  {
    hide HundredsOf, SomeScale, SomeNonzero, DigitsIn;
    ScaleSteps(toks, i, j);
    DigitsStep(toks, i, j);
    if IsHundredTok(Peek(toks, j + 1)) {
      ScaleSteps(toks, i, j + 1);
      DigitsStep(toks, i, j + 1);
    }
  }

  lemma CountKeeps(toks: seq<Tok>, i: nat, j: nat, s: State, nxt: Option<Tok>)
    requires j < |toks| && toks[j].Num? && Tallied(toks, i, j, s) && ScaleKept(s) && WellCut(toks[j])
    ensures var a := Count(toks[j], nxt, s); Tallied(toks, i, After(j, a), a.state) && ScaleKept(a.state)
  {
    hide SomeScale, SomeNonzero, DigitCount, GluedWord, IsScaleTok, ParseNumText;
    ScaleSteps(toks, i, j);
  }

  lemma NumKeeps(text: Text, toks: seq<Tok>, i: nat, j: nat, s: State)
    requires j < |toks| && toks[j].Num? && Tallied(toks, i, j, s) && ScaleKept(s) && WellCut(toks[j])
    ensures var a := StepNum(text, toks, j, s); Tallied(toks, i, After(j, a), a.state) && ScaleKept(a.state)
  {
    hide ReadingOf, TakeHundreds, Count, Tallied, ScaleKept, IsBase, ParseNumText, JoinsGroup, All;
    var t, nxt := toks[j], Peek(toks, j + 1);
    match ReadingOf(text, toks, j, s) {
      case Hundreds =>
        DigitsAreNonzero(toks, j, s);
        TakeKeeps(toks, i, j, s, t.value);
        TakeScale(toks, j, s, t.value);
      case First =>
        var s1 := s.(current := Is(t.value), fromDigits := t.text != [] && All(t.text, Digits));
        SameTally(toks, i, j, s, s1);
        CountKeeps(toks, i, j, s1, nxt);
      case NextGroup =>
        var s1 := s.(current := Is(s.current.value * 1000.0 + t.value));
        SameTally(toks, i, j, s, s1);
        CountKeeps(toks, i, j, s1, nxt);
      case _ =>
        SameTally(toks, i, j, s, StepNum(text, toks, j, s).state);
    }
  }

  lemma DigitsAreNonzero(toks: seq<Tok>, j: nat, s: State)
    requires j < |toks| && toks[j].Num? && WellCut(toks[j]) && DigitShorthand(toks, j, s)
    ensures IsNonzero(toks[j]) && !FixesScale(toks[j])
  {}

  /** The tally does not look at the amount itself. */
  lemma SameTally(toks: seq<Tok>, i: nat, j: nat, s: State, s': State)
    requires Tallied(toks, i, j, s) && ScaleKept(s)
    requires s'.digits == s.digits && s'.seenBig == s.seenBig && s'.lastScale == s.lastScale
    requires s'.hasNonzero == s.hasNonzero && s'.hasNumber == s.hasNumber && s'.end == s.end
    ensures Tallied(toks, i, j, s') && ScaleKept(s')
  {
    hide SomeScale, SomeNonzero, DigitsIn, IsBase;
  }

  lemma TakeScale(toks: seq<Tok>, j: nat, s: State, digit: real)
    requires j < |toks| && ScaleKept(s)
    ensures ScaleKept(TakeHundreds(toks, j, s, digit).state)
  {
    hide HundredsOf;
  }

  lemma OnesKeeps(toks: seq<Tok>, i: nat, j: nat, s: State)
    requires j < |toks| && toks[j].Word? && toks[j].word.Ones? && Tallied(toks, i, j, s) && ScaleKept(s)
    ensures var a := StepOnes(toks, j, s); Tallied(toks, i, After(j, a), a.state) && ScaleKept(a.state)
  {
    hide TakeHundreds, SomeScale, SomeNonzero, GrandTotal, TailConsumable, IsScaleTok, IsBase, DigitsIn;
    ScaleSteps(toks, i, j);
    var v := toks[j].word.digit as real;
    if SpokenShorthand(toks, j, s) || NamShorthand(toks, j, s) {
      TakeKeeps(toks, i, j, s, v);
      TakeScale(toks, j, s, v);
    } else {
      DigitsStep(toks, i, j);
    }
  }

  lemma DigitsStep(toks: seq<Tok>, i: nat, j: nat)
    requires i <= j < |toks|
    ensures DigitsIn(toks, i, j + 1)
         == DigitsIn(toks, i, j) + if toks[j].Num? then DigitCount(toks[j].text) else 0
  {}

  lemma WordKeeps(toks: seq<Tok>, i: nat, j: nat, s: State)
    requires j < |toks| && toks[j].Word? && IsNumberWord(toks[j].word) && !toks[j].word.Ones?
    requires Tallied(toks, i, j, s) && ScaleKept(s)
    ensures var s' := Multiply(s, toks[j].word, toks[j].end); Tallied(toks, i, j + 1, s') && ScaleKept(s')
  {
    hide SomeScale, SomeNonzero, DigitsIn, Scaled;
    ScaleSteps(toks, i, j);
    DigitsStep(toks, i, j);
  }

  /** Every step keeps the run invariant, whether it goes on or leaves the loop. */
  lemma StepKeeps(text: Text, toks: seq<Tok>, i: nat, j: nat, s: State)
    requires j < |toks| && WellCut(toks[j]) && RunInvariant(toks, i, j, s)
    ensures var a := Step(text, toks, j, s); RunInvariant(toks, i, After(j, a), a.state)
  {
    hide StepNum, StepOnes, Multiply, SomeScale, SomeNonzero, GrandTotal, IsBase, ParseNumText, WordOf, DigitsIn;
    var t := toks[j];
    StepGrows(text, toks, j, s);
    if t.Num? {
      NumKeeps(text, toks, i, j, s);
    } else if t.Word? && t.word.Ones? {
      OnesKeeps(toks, i, j, s);
    } else if t.Word? && IsNumberWord(t.word) {
      WordKeeps(toks, i, j, s);
    }
  }

  /** The invariant holds at the end of a run, and the run has not lost any of its amount. */
  lemma {:induction false} RunKeeps(text: Text, toks: seq<Tok>, i: nat, j: nat, s: State)
    requires Sensible(toks) && RunInvariant(toks, i, j, s)
    ensures var Outcome(s', j') := Run(text, toks, j, s);
            RunInvariant(toks, i, j', s') && GrandTotal(s') >= GrandTotal(s)
    decreases |toks| - j
  {
    hide Run, Step, RunInvariant, GrandTotal, WellCut;
    assert i <= j <= |toks| by { InvariantRange(toks, i, j, s); }
    RunUnfolds(text, toks, j, s);
    if j < |toks| {
      assert toks[j] in toks;
      InvariantParts(toks, i, j, s);
      StepKeeps(text, toks, i, j, s);
      StepGrows(text, toks, j, s);
      var a := Step(text, toks, j, s);
      if a.Go? {
        RunKeeps(text, toks, i, j + a.width, a.state);
      }
    }
  }

  lemma InvariantRange(toks: seq<Tok>, i: nat, j: nat, s: State)
    requires RunInvariant(toks, i, j, s)
    ensures i <= j <= |toks|
  {}

  lemma InvariantParts(toks: seq<Tok>, i: nat, j: nat, s: State)
    requires RunInvariant(toks, i, j, s)
    ensures Amounting(s) && (s.lastScale.Is? ==> IsBase(s.lastScale.value))
  {}

  lemma FreshInvariant(toks: seq<Tok>, i: nat)
    requires i < |toks|
    ensures RunInvariant(toks, i, i, Fresh(toks[i].end))
  {}
}
