/** Runs see only their own tokens and the text right behind them: shifting a text, or changing what
    stands beyond a punctuation mark, changes nothing but positions. */
module Composition {
  import opened Text
  import opened Vocabulary
  import opened Lexer
  import opened Lexing
  import opened Machine
  import opened Invariants
  import opened Guarantees

  function ShiftState(s: State, d: nat): State { s.(end := s.end + d) }

  function ShiftAction(a: Action, d: nat): Action { a.(state := ShiftState(a.state, d)) }

  function ShiftMatch(m: Match, d: nat): Match { m.(start := m.start + d, end := m.end + d) }

  function ShiftMatches(ms: seq<Match>, d: nat): (r: seq<Match>)
    ensures |r| == |ms|
    ensures forall k | 0 <= k < |ms| :: r[k] == ShiftMatch(ms[k], d)
  {
    seq(|ms|, k requires 0 <= k < |ms| => ShiftMatch(ms[k], d))
  }

  function ShiftPeek(t: Option<Tok>, d: nat): Option<Tok> { if t.Some? then Some(Shift(t.value, d)) else None }

  /** A text with its tokens. */
  datatype View = View(text: Text, toks: seq<Tok>)

  /** Token `x` of `v` and token `x + k` of `w` are the same up to the shift `d`, and so is all that
      a step looks at around them. */
  predicate SameStep(v: View, w: View, x: nat, k: nat, d: nat) {
    x < |v.toks| && x + k < |w.toks|
    && w.toks[x + k] == Shift(v.toks[x], d)
    && Peek(w.toks, x + k + 1) == ShiftPeek(Peek(v.toks, x + 1), d)
    && (IsHundredTok(Peek(v.toks, x + 1)) ==>
          IsScaleTok(Peek(w.toks, x + k + 2)) == IsScaleTok(Peek(v.toks, x + 2)))
    && ShorthandAhead(From(w.text, w.toks[x + k].end)) == ShorthandAhead(From(v.text, v.toks[x].end))
  }

  lemma PeeksAgree(v: View, w: View, x: nat, k: nat, d: nat)
    requires SameStep(v, w, x, k, d)
    ensures var p, q := Peek(v.toks, x + 1), Peek(w.toks, x + k + 1);
            IsHundredTok(q) == IsHundredTok(p) && IsScaleTok(q) == IsScaleTok(p) && IsEdge(q) == IsEdge(p)
            && GluedWord(w.toks[x + k], q) == GluedWord(v.toks[x], p)
            && (IsHundredTok(p) ==> q.value.end == p.value.end + d)
    ensures TailConsumable(w.toks, x + k + 1) == TailConsumable(v.toks, x + 1)
    ensures ClosingHundred(w.toks, x + k + 1) == ClosingHundred(v.toks, x + 1)
  {}

  lemma CountSame(t: Tok, nxt: Option<Tok>, t': Tok, nxt': Option<Tok>, s: State, d: nat)
    requires t.Num? && t' == Shift(t, d)
    requires IsScaleTok(nxt') == IsScaleTok(nxt) && GluedWord(t', nxt') == GluedWord(t, nxt)
    ensures Count(t', nxt', ShiftState(s, d)) == ShiftAction(Count(t, nxt, s), d)
  {
    hide DigitCount, GluedWord, IsScaleTok;
  }

  lemma TakeSame(v: View, w: View, x: nat, k: nat, d: nat, s: State, digit: real)
    requires SameStep(v, w, x, k, d)
    ensures TakeHundreds(w.toks, x + k, ShiftState(s, d), digit)
         == ShiftAction(TakeHundreds(v.toks, x, s, digit), d)
  {
    hide HundredsOf;
  }

  lemma ReadingSame(v: View, w: View, x: nat, k: nat, d: nat, s: State)
    requires SameStep(v, w, x, k, d) && v.toks[x].Num?
    ensures ReadingOf(w.text, w.toks, x + k, ShiftState(s, d)) == ReadingOf(v.text, v.toks, x, s)
  {
    hide ShorthandAhead, TailConsumable, IsScaleTok, All, From;
    PeeksAgree(v, w, x, k, d);
  }

  lemma QuitSame(p: Option<Tok>, q: Option<Tok>, s: State, d: nat)
    requires IsEdge(q) == IsEdge(p)
    ensures Quit(ShiftState(s, d), q) == ShiftAction(Quit(s, p), d)
  {
    hide IsEdge;
  }

  lemma NumSame(v: View, w: View, x: nat, k: nat, d: nat, s: State)
    requires SameStep(v, w, x, k, d) && v.toks[x].Num?
    ensures StepNum(w.text, w.toks, x + k, ShiftState(s, d)) == ShiftAction(StepNum(v.text, v.toks, x, s), d)
  {
    hide ReadingOf, TakeHundreds, Count, SameStep, IsEdge, All, Quit, IsScaleTok, IsHundredTok, GluedWord;
    assert w.toks[x + k] == Shift(v.toks[x], d) by { Unshifted(v, w, x, k, d); }
    ReadingSame(v, w, x, k, d, s);
    PeeksAgree(v, w, x, k, d);
    var t := v.toks[x];
    var p, q, t' := Peek(v.toks, x + 1), Peek(w.toks, x + k + 1), w.toks[x + k];
    match ReadingOf(v.text, v.toks, x, s) {
      case Broken =>
      case Hundreds => TakeSame(v, w, x, k, d, s, t.value);
      case Loose => QuitSame(p, q, s, d);
      case First =>
        CountSame(t, p, t', q, s.(current := Is(t.value), fromDigits := t.text != [] && All(t.text, Digits)), d);
      case NextGroup => CountSame(t, p, t', q, s.(current := Is(s.current.value * 1000.0 + t.value)), d);
    }
  }

  lemma Unshifted(v: View, w: View, x: nat, k: nat, d: nat)
    requires SameStep(v, w, x, k, d)
    ensures x < |v.toks| && x + k < |w.toks| && w.toks[x + k] == Shift(v.toks[x], d)
  {}

  lemma OnesSame(v: View, w: View, x: nat, k: nat, d: nat, s: State)
    requires SameStep(v, w, x, k, d) && v.toks[x].Word? && v.toks[x].word.Ones?
    ensures StepOnes(w.toks, x + k, ShiftState(s, d)) == ShiftAction(StepOnes(v.toks, x, s), d)
  {
    hide TakeHundreds, TailConsumable, ClosingHundred, IsScaleTok, IsEdge, ShorthandAhead;
    PeeksAgree(v, w, x, k, d);
    TakeSame(v, w, x, k, d, s, v.toks[x].word.digit as real);
  }

  lemma MultiplySame(s: State, w: Word, end: nat, d: nat)
    requires IsNumberWord(w) && !w.Ones?
    ensures Multiply(ShiftState(s, d), w, end + d) == ShiftState(Multiply(s, w, end), d)
  {
    hide Scaled, Base;
    match w {
      case Filler =>
      case Tens(_) =>
      case Hundred =>
      case Scale(_, _) =>
      case Half =>
      case Halves =>
    }
  }

  lemma StepSame(v: View, w: View, x: nat, k: nat, d: nat, s: State)
    requires SameStep(v, w, x, k, d)
    ensures Step(w.text, w.toks, x + k, ShiftState(s, d)) == ShiftAction(Step(v.text, v.toks, x, s), d)
  {
    hide StepNum, StepOnes, SameStep, Multiply;
    Unshifted(v, w, x, k, d);
    var t := v.toks[x];
    if t.Num? {
      NumSame(v, w, x, k, d, s);
    } else if t.Word? && t.word.Ones? {
      OnesSame(v, w, x, k, d, s);
    } else if t.Word? && IsNumberWord(t.word) {
      MultiplySame(s, t.word, t.end, d);
    }
  }

  /** From token `a` on, `v` and `w` agree up to token `lim` of `v`, where either both end or both
      have the same token, one that starts no run. */
  predicate Aligned(v: View, w: View, a: nat, lim: nat, k: nat, d: nat) {
    (forall x | a <= x < lim :: SameStep(v, w, x, k, d))
    && if lim == |v.toks| then lim + k == |w.toks|
       else lim < |v.toks| && lim + k < |w.toks| && !StartsRun(v.toks[lim]) && w.toks[lim + k] == Shift(v.toks[lim], d)
  }

  lemma StepStays(v: View, w: View, a: nat, lim: nat, k: nat, d: nat, x: nat, s: State)
    requires Aligned(v, w, a, lim, k, d) && a <= x < lim
    ensures x < |v.toks|
    ensures var act := Step(v.text, v.toks, x, s); act.Go? ==> x + act.width <= lim
  {
    hide ReadingOf, Multiply, HundredsOf, DigitCount, GluedWord, ShorthandAhead, IsScaleTok, SpokenShorthand;
  }

  lemma {:induction false} RunSame(v: View, w: View, a: nat, lim: nat, k: nat, d: nat, x: nat, s: State)
    requires Aligned(v, w, a, lim, k, d) && a <= x <= lim <= |v.toks|
    ensures x + k <= |w.toks|
    ensures Run(w.text, w.toks, x + k, ShiftState(s, d))
         == Outcome(ShiftState(Run(v.text, v.toks, x, s).state, d), Run(v.text, v.toks, x, s).next + k)
    ensures Run(v.text, v.toks, x, s).next <= lim
    decreases lim - x
  {
    hide Run, StepNum, StepOnes, Multiply, SameStep;
    if x < lim {
      Unshifted(v, w, x, k, d);
      RunUnfolds(v.text, v.toks, x, s);
      RunUnfolds(w.text, w.toks, x + k, ShiftState(s, d));
      hide Step;
      StepSame(v, w, x, k, d, s);
      StepStays(v, w, a, lim, k, d, x, s);
      var act := Step(v.text, v.toks, x, s);
      if act.Go? {
        RunSame(v, w, a, lim, k, d, x + act.width, act.state);
      }
    } else {
      RunUnfolds(v.text, v.toks, x, s);
      RunUnfolds(w.text, w.toks, x + k, ShiftState(s, d));
    }
  }

  // ----- verdicts and scans ---------------------------------------------------------------------

  /** The two texts look the same from token boundaries up to `lim`. */
  predicate SameText(v: View, w: View, lim: nat, d: nat) {
    lim <= |v.toks|
    && (forall x | 0 <= x < lim ::
          CurrencyAhead(From(w.text, v.toks[x].end + d)) == CurrencyAhead(From(v.text, v.toks[x].end)))
    && (forall x, y | 0 <= x <= y < lim ::
          Slice(w.text, v.toks[x].start + d, v.toks[y].end + d) == Slice(v.text, v.toks[x].start, v.toks[y].end))
  }

  /** `w` repeats `v` from token `k` on. */
  predicate Repeats(v: View, w: View, lim: nat, k: nat, d: nat) {
    Aligned(v, w, 0, lim, k, d) && SameText(v, w, lim, d) && Sensible(v.toks)
  }

  /** No identifier word of `w` stands before token `i` of `v` that is none of `v`. */
  predicate Unannounced(w: View, k: nat, i: nat) { i > 0 || k == 0 || !IsIdentifierTok(Peek(w.toks, k - 1)) }

  function ShiftOption(m: Option<Match>, d: nat): Option<Match> {
    if m.Some? then Some(ShiftMatch(m.value, d)) else None
  }

  lemma PrevSame(v: View, w: View, lim: nat, k: nat, d: nat, i: nat)
    requires Repeats(v, w, lim, k, d) && i < lim && Unannounced(w, k, i)
    ensures IsIdentifierTok(Prev(w.toks, i + k)) == IsIdentifierTok(Prev(v.toks, i))
  {
    hide ShorthandAhead, CurrencyAhead, From, Slice, WellCut;
    if i > 0 { assert SameStep(v, w, i - 1, k, d); }
  }

  lemma NextSame(v: View, w: View, lim: nat, k: nat, d: nat, j: nat, slang: set<Noun>)
    requires Repeats(v, w, lim, k, d) && j <= lim
    ensures IsObjectTok(Peek(w.toks, j + k), slang) == IsObjectTok(Peek(v.toks, j), slang)
  {
    hide ShorthandAhead, CurrencyAhead, From, Slice, WellCut;
    if j < lim { assert SameStep(v, w, j, k, d); }
  }

  lemma JudgeSame(v: View, w: View, lim: nat, k: nat, d: nat, i: nat)
    requires Repeats(v, w, lim, k, d) && i < lim && Unannounced(w, k, i)
    ensures i < |v.toks| && i + k < |w.toks|
    ensures var Outcome(s, j) := RunAt(v.text, v.toks, i);
            RunAt(w.text, w.toks, i + k) == Outcome(ShiftState(s, d), j + k) && j <= lim
            && Judge(w.text, w.toks, i + k, j + k, ShiftState(s, d)) == ShiftOption(Judge(v.text, v.toks, i, j, s), d)
  {
    hide Run, CurrencyAhead, IsPhoneShape, IsYearShape, IsIdentifierTok, IsObjectTok, WellCut, ShorthandAhead,
      From, Slice, SomeScale, SomeNonzero, DigitsIn, IsBase, Amounting;
    assert SameStep(v, w, i, k, d);
    RunSame(v, w, 0, lim, k, d, i, Fresh(v.toks[i].end));
    RunAtKeeps(v.text, v.toks, i);
    var Outcome(s, j) := RunAt(v.text, v.toks, i);
    assert s.end == v.toks[if i < j then j - 1 else i].end by { FreshEnd(v.text, v.toks, i); }
    PrevSame(v, w, lim, k, d, i);
    NextSame(v, w, lim, k, d, j, s.slang);
  }

  /** A run that consumes nothing ends where its first token does. */
  lemma FreshEnd(text: Text, toks: seq<Tok>, i: nat)
    requires i < |toks|
    ensures RunAt(text, toks, i).next == i ==> RunAt(text, toks, i).state.end == toks[i].end
  {
    hide Run, ReadingOf, Multiply, TakeHundreds, DigitCount, GluedWord, IsScaleTok;
    var s := Fresh(toks[i].end);
    RunUnfolds(text, toks, i, s);
    var a := Step(text, toks, i, s);
    if a.Go? { assert Run(text, toks, i + a.width, a.state).next > i; }
  }

  lemma {:induction false} ScanSame(v: View, w: View, lim: nat, k: nat, d: nat, i: nat)
    requires Repeats(v, w, lim, k, d) && i <= lim && |v.toks| <= lim + 1 && Unannounced(w, k, i)
    ensures lim + k <= |w.toks| && lim <= |v.toks|
    ensures Scan(w.text, w.toks, i + k)
         == ShiftMatches(Scan(v.text, v.toks, i), d) + Scan(w.text, w.toks, lim + k)
    decreases lim - i
  {
    hide RunAt, Judge, SameStep, CurrencyAhead, Aligned, SameText, Sensible, Scan, ShiftMatches;
    AlignedEnds(v, w, lim, k, d);
    var tail := Scan(w.text, w.toks, lim + k);
    if i == lim {
      ScanTail(v, w, lim, k, d);
      assert ShiftMatches([], d) == [];
      assert [] + tail == tail;
    } else {
      JudgeSame(v, w, lim, k, d, i);
      SameStart(v, w, lim, k, d, i);
      ScanUnfolds(v.text, v.toks, i);
      ScanUnfolds(w.text, w.toks, i + k);
      if !StartsRun(v.toks[i]) {
        ScanSame(v, w, lim, k, d, i + 1);
      } else {
        var Outcome(s, j) := RunAt(v.text, v.toks, i);
        var m, rest := Judge(v.text, v.toks, i, j, s), Scan(v.text, v.toks, NextStart(i, j));
        ScanSame(v, w, lim, k, d, NextStart(i, j));
        ShiftJoin(m, rest, d);
        assert (Listed(ShiftOption(m, d)) + ShiftMatches(rest, d)) + tail
            == Listed(ShiftOption(m, d)) + (ShiftMatches(rest, d) + tail);
      }
    }
  }

  lemma ShiftJoin(m: Option<Match>, rest: seq<Match>, d: nat)
    ensures ShiftMatches(Listed(m) + rest, d) == Listed(ShiftOption(m, d)) + ShiftMatches(rest, d)
  {}

  lemma AlignedEnds(v: View, w: View, lim: nat, k: nat, d: nat)
    requires Aligned(v, w, 0, lim, k, d)
    ensures lim + k <= |w.toks| && lim <= |v.toks|
    ensures lim < |v.toks| ==> !StartsRun(v.toks[lim])
  {
    hide SameStep;
  }

  lemma SameStart(v: View, w: View, lim: nat, k: nat, d: nat, i: nat)
    requires Aligned(v, w, 0, lim, k, d) && i < lim
    ensures i < |v.toks| && i + k < |w.toks| && StartsRun(w.toks[i + k]) == StartsRun(v.toks[i])
  {
    hide ShorthandAhead, IsScaleTok;
    assert SameStep(v, w, i, k, d);
  }

  lemma ScanTail(v: View, w: View, lim: nat, k: nat, d: nat)
    requires Aligned(v, w, 0, lim, k, d) && lim <= |v.toks| <= lim + 1
    ensures Scan(v.text, v.toks, lim) == []
  {
    hide SameStep;
    AlignedEnds(v, w, lim, k, d);
    if lim < |v.toks| { assert Scan(v.text, v.toks, lim) == Scan(v.text, v.toks, lim + 1); }
  }
}
