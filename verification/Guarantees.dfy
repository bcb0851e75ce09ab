/** What holds of every amount of every text: its evidence, its rounding and its place. */
module Guarantees {
  import opened Text
  import opened Vocabulary
  import opened Lexer
  import opened Lexing
  import opened Machine
  import opened Invariants

  /** `m` is the amount of the run of tokens `i` up to `j`: it covers exactly those tokens; some of
      them is not zero; a big scale, four digits or a currency suffix speak for it; and its value is
      the half-up rounding of the exact, positive total of the run. */
  predicate Emitted(text: Text, toks: seq<Tok>, i: nat, j: nat, m: Match) {
    i < j <= |toks|
    && m.start == toks[i].start && m.end == toks[j - 1].end
    && m.start < m.end <= |text| && m.raw == text[m.start..m.end]
    && SomeNonzero(toks, i, j)
    && (SomeScale(toks, i, j) || DigitsIn(toks, i, j) >= 4 || CurrencyAhead(text[m.end..]))
    && RunAt(text, toks, i).next == j && Judge(text, toks, i, j, RunAt(text, toks, i).state) == Some(m)
    && var total := GrandTotal(RunAt(text, toks, i).state);
       total > 0.0 && m.value as real - 0.5 <= total < m.value as real + 0.5
  }

  lemma RunAtKeeps(text: Text, toks: seq<Tok>, i: nat)
    requires i < |toks| && Sensible(toks)
    ensures var Outcome(s, j) := RunAt(text, toks, i); RunInvariant(toks, i, j, s)
  {
    hide Run, RunInvariant, WellCut;
    FreshInvariant(toks, i);
    RunKeeps(text, toks, i, i, Fresh(toks[i].end));
  }

  lemma InSlice(text: Text, x: nat, y: nat, z: nat)
    requires x <= z < y <= |text|
    ensures text[z] in Slice(text, x, y)
  {
    assert text[x..y][z - x] == text[z];
  }

  lemma TokenText(text: Text, toks: seq<Tok>, k: nat, p: nat)
    requires k < |toks| && InOrder(text, toks) && p < |toks[k].text|
    ensures toks[k].start + p < toks[k].end <= |text| && toks[k].text[p] == text[toks[k].start + p]
  {
    var t := toks[k];
    assert t.text == text[t.start..t.end];
  }

  /** A run shows the text of each of its tokens. */
  lemma RawShows(text: Text, toks: seq<Tok>, i: nat, j: nat, k: nat, p: nat)
    requires i <= k < j <= |toks| && InOrder(text, toks) && p < |toks[k].text|
    ensures toks[k].text[p] in Slice(text, toks[i].start, toks[j - 1].end)
  {
    hide Slice;
    TokenText(text, toks, k, p);
    assert toks[i].start <= toks[k].start && toks[k].end <= toks[j - 1].end <= |text|;
    InSlice(text, toks[i].start, toks[j - 1].end, toks[k].start + p);
  }

  /** A run that saw a big scale is not written in digits alone. */
  lemma ScaleShows(text: Text, toks: seq<Tok>, i: nat, j: nat)
    requires i < j <= |toks| && InOrder(text, toks) && Sensible(toks) && SomeScale(toks, i, j)
    ensures !IsDigitText(Slice(text, toks[i].start, toks[j - 1].end))
  {
    hide WellCut, Slice, FixesScale;
    var k :| i <= k < j && FixesScale(toks[k]);
    assert toks[k] in toks && toks[k].text != [];
    NotDigits(toks[k]);
    var p :| 0 <= p < |toks[k].text| && !toks[k].text[p].Dig?;
    RawShows(text, toks, i, j, k, p);
  }

  lemma NotDigits(t: Tok)
    requires WellCut(t) && FixesScale(t) && t.text != []
    ensures exists p :: 0 <= p < |t.text| && !t.text[p].Dig?
  {
    hide WordOf, ParseNumText;
    if t.Word? { assert In(t.text[0], Letters) && !t.text[0].Dig?; }
  }

  lemma JudgeEmits(text: Text, toks: seq<Tok>, i: nat)
    requires i < |toks| && Sensible(toks) && InOrder(text, toks)
    requires var Outcome(s, j) := RunAt(text, toks, i); Judge(text, toks, i, j, s).Some?
    ensures var Outcome(s, j) := RunAt(text, toks, i); Emitted(text, toks, i, j, Judge(text, toks, i, j, s).value)
  {
    hide RunAt, LooksLikeIdentifier, CurrencyAhead, SomeScale, SomeNonzero, DigitsIn, WellCut, ScaleKept,
      Amounting, IsBase;
    RunAtKeeps(text, toks, i);
    var Outcome(s, j) := RunAt(text, toks, i);
    assert i < j && s.end == toks[j - 1].end;
    assert toks[i].start < toks[i].end <= toks[j - 1].end <= |text|;
  }

  /** The matches of a scan, each emitted from its own tokens, follow one another. */
  lemma {:induction false} ScanEmits(text: Text, toks: seq<Tok>, i: nat)
    requires i <= |toks| && Sensible(toks) && InOrder(text, toks)
    ensures forall m | m in Scan(text, toks, i) :: exists a, b | i <= a :: Emitted(text, toks, a, b, m)
    ensures forall k, l | 0 <= k < l < |Scan(text, toks, i)| ::
              Scan(text, toks, i)[k].end <= Scan(text, toks, i)[l].start
    decreases |toks| - i
  {
    hide RunAt, Judge, Emitted, Sensible;
    if i == |toks| {
    } else if !StartsRun(toks[i]) {
      ScanEmits(text, toks, i + 1);
    } else {
      var Outcome(s, j) := RunAt(text, toks, i);
      var first, rest := Judge(text, toks, i, j, s), Scan(text, toks, NextStart(i, j));
      ScanEmits(text, toks, NextStart(i, j));
      if first.Some? {
        JudgeEmits(text, toks, i);
        EmittedRange(text, toks, i, j, first.value);
        forall m | m in rest ensures first.value.end <= m.start {
          var a, b :| NextStart(i, j) <= a && Emitted(text, toks, a, b, m);
          EmittedRange(text, toks, a, b, m);
          assert toks[j - 1].end <= toks[a].start;
        }
      }
    }
  }

  lemma EmittedRange(text: Text, toks: seq<Tok>, i: nat, j: nat, m: Match)
    requires Emitted(text, toks, i, j, m)
    ensures i < j <= |toks| && m.start == toks[i].start && m.end == toks[j - 1].end
  {}

  /** Evidence for every amount: every amount of every text comes from a run of tokens with a
      nonzero part and a big scale, four digits or a currency suffix, and it is the rounding of a
      strictly positive total. In particular no amount covers only zeros, fillers and scales. */
  lemma EveryAmountHasEvidence(text: Text, m: Match)
    requires m in Amounts(text)
    ensures exists i, j :: Emitted(text, Tokens(text), i, j, m)
  {
    hide Lex, Scan, Emitted, WellCut, Solid, InOrder;
    TokensLossless(text);
    ScanEmits(text, Tokens(text), 0);
  }

  /** Span discipline: the amounts are non-empty slices of the text, in order and disjoint. */
  lemma SpanDiscipline(text: Text)
    ensures forall m | m in Amounts(text) :: m.start < m.end <= |text| && m.raw == text[m.start..m.end]
    ensures forall k, l | 0 <= k < l < |Amounts(text)| :: Amounts(text)[k].end <= Amounts(text)[l].start
  {
    hide Lex, Scan, WellCut, Solid, InOrder;
    TokensLossless(text);
    ScanEmits(text, Tokens(text), 0);
  }

  // ----- the shape guards -----------------------------------------------------------------------

  /** The nouns that the scale words from `i` to `j` also are. */
  function NounsIn(toks: seq<Tok>, i: nat, j: nat): set<Noun>
    requires i <= j <= |toks|
    decreases j - i
  {
    if i == j then {}
    else
      var t := toks[j - 1];
      NounsIn(toks, i, j - 1) + if t.Word? && t.word.Scale? && t.word.noun.Some? then {t.word.noun.value} else {}
  }

  lemma NounsMore(toks: seq<Tok>, i: nat, j: nat)
    requires i <= j < |toks|
    ensures var t := toks[j];
            NounsIn(toks, i, j + 1)
            == NounsIn(toks, i, j) + if t.Word? && t.word.Scale? && t.word.noun.Some? then {t.word.noun.value} else {}
  {}

  lemma NumNouns(text: Text, toks: seq<Tok>, i: nat, j: nat, s: State)
    requires i <= j < |toks| && toks[j].Num? && s.slang == NounsIn(toks, i, j)
    ensures var a := StepNum(text, toks, j, s); a.state.slang == NounsIn(toks, i, After(j, a))
  {
    hide ReadingOf, TakeHundreds, Count, IsEdge, All, NounsIn, IsScaleTok;
    NounsMore(toks, i, j);
    var t, nxt := toks[j], Peek(toks, j + 1);
    match ReadingOf(text, toks, j, s) {
      case Hundreds => TakeNouns(toks, i, j, s, t.value);
      case First =>
        CountNouns(t, nxt, s.(current := Is(t.value), fromDigits := t.text != [] && All(t.text, Digits)));
      case NextGroup => CountNouns(t, nxt, s.(current := Is(s.current.value * 1000.0 + t.value)));
      case _ =>
    }
  }

  lemma TakeNouns(toks: seq<Tok>, i: nat, j: nat, s: State, digit: real)
    requires i <= j < |toks| && !(toks[j].Word? && toks[j].word.Scale?) && s.slang == NounsIn(toks, i, j)
    ensures var a := TakeHundreds(toks, j, s, digit); a.state.slang == NounsIn(toks, i, After(j, a))
  {
    hide HundredsOf, NounsIn;
    NounsMore(toks, i, j);
    if j + 1 < |toks| { NounsMore(toks, i, j + 1); }
  }

  lemma CountNouns(t: Tok, nxt: Option<Tok>, s: State)
    requires t.Num?
    ensures var a := Count(t, nxt, s); a.state.slang == s.slang && (a.Go? ==> a.width == 1)
  {
    hide DigitCount, GluedWord, IsScaleTok;
  }

  lemma OnesNouns(toks: seq<Tok>, i: nat, j: nat, s: State)
    requires i <= j < |toks| && toks[j].Word? && toks[j].word.Ones? && s.slang == NounsIn(toks, i, j)
    ensures var a := StepOnes(toks, j, s); a.state.slang == NounsIn(toks, i, After(j, a))
  {
    hide HundredsOf, SpokenShorthand, NamShorthand, IsScaleTok, NounsIn, IsEdge;
    NounsMore(toks, i, j);
    if j + 1 < |toks| { NounsMore(toks, i, j + 1); }
  }

  lemma StepNouns(text: Text, toks: seq<Tok>, i: nat, j: nat, s: State)
    requires i <= j < |toks| && s.slang == NounsIn(toks, i, j)
    ensures var a := Step(text, toks, j, s); a.state.slang == NounsIn(toks, i, After(j, a))
  {
    hide StepNum, StepOnes, Scaled, NounsIn;
    NounsMore(toks, i, j);
    if toks[j].Num? {
      NumNouns(text, toks, i, j, s);
    } else if toks[j].Word? && toks[j].word.Ones? {
      OnesNouns(toks, i, j, s);
    }
  }

  lemma {:induction false} RunNouns(text: Text, toks: seq<Tok>, i: nat, j: nat, s: State)
    requires i <= j <= |toks| && s.slang == NounsIn(toks, i, j)
    ensures var r := Run(text, toks, j, s); r.state.slang == NounsIn(toks, i, r.next)
    decreases |toks| - j
  {
    hide Run, Step, NounsIn;
    RunUnfolds(text, toks, j, s);
    if j < |toks| {
      StepNouns(text, toks, i, j, s);
      var a := Step(text, toks, j, s);
      if a.Go? { RunNouns(text, toks, i, j + a.width, a.state); }
    }
  }

  /** The shape guards reach every amount: none has the shape of a phone number; one of the shape of a
      year has a currency suffix; one right behind an identifier word has a suffix or a scale; and behind
      one with a slang scale stands no object that the slang word could count. */
  predicate Guarded(text: Text, toks: seq<Tok>, i: nat, j: nat, m: Match)
    requires i < j <= |toks|
  {
    !IsPhoneShape(m.raw)
    && (IsYearShape(m.raw) ==> CurrencyAhead(From(text, m.end)))
    && (IsIdentifierTok(Prev(toks, i)) ==> SomeScale(toks, i, j) || CurrencyAhead(From(text, m.end)))
    && !IsObjectTok(Peek(toks, j), NounsIn(toks, i, j))
  }

  lemma EmittedGuarded(text: Text, toks: seq<Tok>, i: nat, j: nat, m: Match)
    requires Emitted(text, toks, i, j, m) && Sensible(toks) && InOrder(text, toks)
    ensures i < j <= |toks| && Guarded(text, toks, i, j, m)
  {
    hide RunAt, CurrencyAhead, SomeScale, SomeNonzero, DigitsIn, WellCut, ScaleKept, Amounting, IsBase,
      IsDigitText, IsIdentifierTok, IsObjectTok, NounsIn, GrandTotal, Slice, From;
    RunAtKeeps(text, toks, i);
    SlangOfRun(text, toks, i);
    if SomeScale(toks, i, j) { ScaleShows(text, toks, i, j); }
  }

  lemma SlangOfRun(text: Text, toks: seq<Tok>, i: nat)
    requires i < |toks|
    ensures var r := RunAt(text, toks, i); r.state.slang == NounsIn(toks, i, r.next)
  {
    hide Run;
    RunNouns(text, toks, i, i, Fresh(toks[i].end));
  }

  lemma EveryAmountGuarded(text: Text, m: Match)
    requires m in Amounts(text)
    ensures exists i, j :: Emitted(text, Tokens(text), i, j, m) && Guarded(text, Tokens(text), i, j, m)
  {
    hide Lex, Scan, Emitted, Guarded, WellCut, Solid, InOrder;
    TokensLossless(text);
    ScanEmits(text, Tokens(text), 0);
    var i, j :| Emitted(text, Tokens(text), i, j, m);
    EmittedGuarded(text, Tokens(text), i, j, m);
  }
}
