/** The amounts do not depend on where the tokens stand: two texts with the same tokens in other
    places have the same values, if what stands right behind the tokens looks the same. */
module Placement {
  import opened Text
  import opened Vocabulary
  import opened Lexer
  import opened Lexing
  import opened Machine
  import opened Invariants
  import opened Guarantees
  import opened Composition

  function Unplaced(t: Tok): Tok { t.(start := 0, end := 0) }

  function Bare(s: State): State { s.(end := 0) }

  function BareAction(a: Action): Action { a.(state := Bare(a.state)) }

  /** Token `x` is the same but for its place, and a step and a verdict see the same behind it. */
  predicate LooksSame(v: View, w: View, x: nat) {
    x < |v.toks| == |w.toks| && Unplaced(w.toks[x]) == Unplaced(v.toks[x])
    && ShorthandAhead(From(w.text, w.toks[x].end)) == ShorthandAhead(From(v.text, v.toks[x].end))
    && CurrencyAhead(From(w.text, w.toks[x].end)) == CurrencyAhead(From(v.text, v.toks[x].end))
    && GluedWord(w.toks[x], Peek(w.toks, x + 1)) == GluedWord(v.toks[x], Peek(v.toks, x + 1))
  }

  /** The text from token `x` to token `y` has the shape of a phone number or a year in both or in
      neither. */
  predicate ShapeSame(v: View, w: View, x: nat, y: nat) {
    x <= y < |v.toks| == |w.toks|
    && var p, q := Slice(v.text, v.toks[x].start, v.toks[y].end), Slice(w.text, w.toks[x].start, w.toks[y].end);
       IsPhoneShape(p) == IsPhoneShape(q) && IsYearShape(p) == IsYearShape(q)
  }

  predicate Alike(v: View, w: View) {
    |v.toks| == |w.toks| && Sensible(v.toks) && Sensible(w.toks)
    && (forall x | 0 <= x < |v.toks| :: LooksSame(v, w, x))
    && (forall x, y | 0 <= x <= y < |v.toks| :: ShapeSame(v, w, x, y))
  }

  // ----- steps ----------------------------------------------------------------------------------

  ghost predicate KindSame(p: Option<Tok>, q: Option<Tok>) {
    IsHundredTok(q) == IsHundredTok(p) && IsScaleTok(q) == IsScaleTok(p) && IsEdge(q) == IsEdge(p)
    && q.None? == p.None? && IsIdentifierTok(q) == IsIdentifierTok(p)
    && forall nouns: set<Noun> :: IsObjectTok(q, nouns) == IsObjectTok(p, nouns)
  }

  lemma PeekAlike(v: View, w: View, x: nat)
    requires Alike(v, w)
    ensures KindSame(Peek(v.toks, x), Peek(w.toks, x))
  {
    hide ShorthandAhead, CurrencyAhead, From, GluedWord, ShapeSame, WellCut;
    if x < |v.toks| { assert LooksSame(v, w, x); }
  }

  lemma ConsumableAlike(v: View, w: View, x: nat)
    requires Alike(v, w)
    ensures ClosingHundred(w.toks, x) == ClosingHundred(v.toks, x) && TailConsumable(w.toks, x)
            == TailConsumable(v.toks, x)
  {
    hide Alike, IsHundredTok, IsScaleTok, IsEdge, IsIdentifierTok, IsObjectTok, Peek;
    PeekAlike(v, w, x);
    PeekAlike(v, w, x + 1);
  }

  lemma TakeAlike(v: View, w: View, x: nat, s: State, s': State, digit: real)
    requires Alike(v, w) && x < |v.toks| == |w.toks| && Bare(s) == Bare(s')
    ensures BareAction(TakeHundreds(w.toks, x, s', digit)) == BareAction(TakeHundreds(v.toks, x, s, digit))
  {
    hide Alike, IsHundredTok, IsScaleTok, IsEdge, IsIdentifierTok, IsObjectTok, Peek, HundredsOf;
    PeekAlike(v, w, x + 1);
  }

  lemma CountAlike(t: Tok, p: Option<Tok>, t': Tok, q: Option<Tok>, s: State, s': State)
    requires t.Num? && Unplaced(t) == Unplaced(t') && Bare(s) == Bare(s')
    requires IsScaleTok(q) == IsScaleTok(p) && GluedWord(t', q) == GluedWord(t, p)
    ensures BareAction(Count(t', q, s')) == BareAction(Count(t, p, s))
  {
    hide DigitCount, GluedWord, IsScaleTok;
  }

  lemma ReadingAlike(v: View, w: View, x: nat, s: State, s': State)
    requires Alike(v, w) && x < |v.toks| == |w.toks| && v.toks[x].Num? && w.toks[x].Num? && Bare(s) == Bare(s')
    ensures ReadingOf(w.text, w.toks, x, s') == ReadingOf(v.text, v.toks, x, s)
  {
    assert LooksSame(v, w, x);
    hide Alike, ShorthandAhead, CurrencyAhead, From, GluedWord, TailConsumable, IsHundredTok, IsScaleTok, IsEdge,
      Peek, All, IsIdentifierTok, IsObjectTok;
    PeekAlike(v, w, x + 1);
    ConsumableAlike(v, w, x + 1);
  }

  lemma QuitAlike(p: Option<Tok>, q: Option<Tok>, s: State, s': State)
    requires IsEdge(q) == IsEdge(p) && Bare(s) == Bare(s')
    ensures BareAction(Quit(s', q)) == BareAction(Quit(s, p))
  {
    hide IsEdge;
  }

  lemma NumFacts(v: View, w: View, x: nat)
    requires Alike(v, w) && x < |v.toks| == |w.toks|
    ensures var p, q := Peek(v.toks, x + 1), Peek(w.toks, x + 1);
            IsScaleTok(q) == IsScaleTok(p) && IsEdge(q) == IsEdge(p)
            && GluedWord(w.toks[x], q) == GluedWord(v.toks[x], p) && Unplaced(w.toks[x]) == Unplaced(v.toks[x])
  {
    assert LooksSame(v, w, x);
    hide Alike, ShorthandAhead, CurrencyAhead, From, GluedWord, IsScaleTok, IsEdge, IsHundredTok, IsIdentifierTok,
      IsObjectTok, Peek;
    PeekAlike(v, w, x + 1);
  }

  lemma NumAlike(v: View, w: View, x: nat, s: State, s': State)
    requires Alike(v, w) && x < |v.toks| == |w.toks| && v.toks[x].Num? && w.toks[x].Num? && Bare(s) == Bare(s')
    ensures BareAction(StepNum(w.text, w.toks, x, s')) == BareAction(StepNum(v.text, v.toks, x, s))
  {
    hide Alike, ReadingOf, TakeHundreds, Count, IsEdge, All, GluedWord, IsScaleTok, Peek, Quit;
    NumFacts(v, w, x);
    ReadingAlike(v, w, x, s, s');
    var t, t' := v.toks[x], w.toks[x];
    var p, q := Peek(v.toks, x + 1), Peek(w.toks, x + 1);
    match ReadingOf(v.text, v.toks, x, s) {
      case Broken =>
      case Hundreds => TakeAlike(v, w, x, s, s', t.value);
      case Loose => QuitAlike(p, q, s, s');
      case First =>
        var digits := t.text != [] && All(t.text, Digits);
        CountAlike(t, p, t', q, s.(current := Is(t.value), fromDigits := digits),
                   s'.(current := Is(t.value), fromDigits := digits));
      case NextGroup =>
        var c := Is(s.current.value * 1000.0 + t.value);
        CountAlike(t, p, t', q, s.(current := c), s'.(current := c));
    }
  }

  lemma OnesAlike(v: View, w: View, x: nat, s: State, s': State)
    requires Alike(v, w) && x < |v.toks| == |w.toks| && v.toks[x].Word? && v.toks[x].word.Ones?
    requires Unplaced(w.toks[x]) == Unplaced(v.toks[x]) && Bare(s) == Bare(s')
    ensures BareAction(StepOnes(w.toks, x, s')) == BareAction(StepOnes(v.toks, x, s))
  {
    hide Alike, TakeHundreds, TailConsumable, ClosingHundred, IsScaleTok, IsEdge, Peek, IsHundredTok,
      IsIdentifierTok, IsObjectTok;
    PeekAlike(v, w, x + 1);
    ConsumableAlike(v, w, x + 1);
    TakeAlike(v, w, x, s, s', v.toks[x].word.digit as real);
  }

  lemma MultiplyAlike(s: State, s': State, w: Word, end: nat, end': nat)
    requires IsNumberWord(w) && !w.Ones? && Bare(s) == Bare(s')
    ensures Bare(Multiply(s', w, end')) == Bare(Multiply(s, w, end))
  {
    hide Scaled, Base;
    match w {
      case Filler =>
      case Tens(_) =>
      case Hundred =>
      case Scale(_, _) =>
      case Half =>
      case Halves =>
    }
  }

  lemma StepAlike(v: View, w: View, x: nat, s: State, s': State)
    requires Alike(v, w) && x < |v.toks| == |w.toks| && Bare(s) == Bare(s')
    ensures BareAction(Step(w.text, w.toks, x, s')) == BareAction(Step(v.text, v.toks, x, s))
  {
    assert LooksSame(v, w, x);
    hide StepNum, StepOnes, Multiply, Alike, ShorthandAhead, CurrencyAhead, From, GluedWord;
    var t := v.toks[x];
    if t.Num? {
      NumAlike(v, w, x, s, s');
    } else if t.Word? && t.word.Ones? {
      OnesAlike(v, w, x, s, s');
    } else if t.Word? && IsNumberWord(t.word) {
      MultiplyAlike(s, s', t.word, t.end, w.toks[x].end);
    }
  }

  // ----- runs, verdicts and scans ---------------------------------------------------------------

  lemma {:induction false} RunAlike(v: View, w: View, x: nat, s: State, s': State)
    requires Alike(v, w) && x <= |v.toks| == |w.toks| && Bare(s) == Bare(s')
    ensures var r, r' := Run(v.text, v.toks, x, s), Run(w.text, w.toks, x, s');
            r.next == r'.next && Bare(r.state) == Bare(r'.state)
    decreases |v.toks| - x
  {
    hide Run, Step, Alike;
    RunUnfolds(v.text, v.toks, x, s);
    RunUnfolds(w.text, w.toks, x, s');
    if x < |v.toks| {
      StepAlike(v, w, x, s, s');
      var a, a' := Step(v.text, v.toks, x, s), Step(w.text, w.toks, x, s');
      if a.Go? { RunAlike(v, w, x + a.width, a.state, a'.state); }
    }
  }

  /** The verdict on a run that consumed tokens. */
  lemma VerdictAlike(v: View, w: View, i: nat, j: nat, s: State, s': State)
    requires Alike(v, w) && i < j <= |v.toks| == |w.toks| && Bare(s) == Bare(s')
    requires s.end == v.toks[j - 1].end && s'.end == w.toks[j - 1].end
    ensures var m, m' := Judge(v.text, v.toks, i, j, s), Judge(w.text, w.toks, i, j, s');
            m.Some? == m'.Some? && (m.Some? ==> m.value.value == m'.value.value)
  {
    assert LooksSame(v, w, j - 1) && ShapeSame(v, w, i, j - 1);
    PeekAlike(v, w, j);
    if i > 0 { PeekAlike(v, w, i - 1); }
    hide Alike, ShorthandAhead, CurrencyAhead, From, GluedWord, Slice, IsPhoneShape, IsYearShape, IsHundredTok,
      IsScaleTok, IsEdge, IsIdentifierTok, IsObjectTok, Peek;
    assert IsIdentifierTok(Prev(w.toks, i)) == IsIdentifierTok(Prev(v.toks, i));
  }

  lemma RunEnd(text: Text, toks: seq<Tok>, i: nat)
    requires i < |toks| && Sensible(toks)
    ensures var Outcome(s, j) := RunAt(text, toks, i);
            (s.hasNumber ==> i < j) && (i < j ==> j <= |toks| && s.end == toks[j - 1].end)
  {
    hide RunAt, WellCut, SomeScale, SomeNonzero, DigitsIn, ScaleKept, Amounting;
    RunAtKeeps(text, toks, i);
  }

  lemma JudgeAlike(v: View, w: View, i: nat)
    requires Alike(v, w) && i < |v.toks| == |w.toks|
    ensures var r, r' := RunAt(v.text, v.toks, i), RunAt(w.text, w.toks, i);
            r.next == r'.next
            && var m, m' := Judge(v.text, v.toks, i, r.next, r.state), Judge(w.text, w.toks, i, r'.next, r'.state);
               m.Some? == m'.Some? && (m.Some? ==> m.value.value == m'.value.value)
  {
    hide Run, Judge, Alike;
    RunAlike(v, w, i, Fresh(v.toks[i].end), Fresh(w.toks[i].end));
    assert Sensible(v.toks) && Sensible(w.toks) by { AlikeSensible(v, w); }
    RunEnd(v.text, v.toks, i);
    RunEnd(w.text, w.toks, i);
    var r, r' := RunAt(v.text, v.toks, i), RunAt(w.text, w.toks, i);
    if i < r.next {
      VerdictAlike(v, w, i, r.next, r.state, r'.state);
    } else {
      NoNumber(v.text, v.toks, i, r.next, r.state);
      NoNumber(w.text, w.toks, i, r'.next, r'.state);
    }
  }

  lemma AlikeSensible(v: View, w: View)
    requires Alike(v, w)
    ensures Sensible(v.toks) && Sensible(w.toks)
  {}

  lemma NoNumber(text: Text, toks: seq<Tok>, i: nat, j: nat, s: State)
    requires i < |toks| && !s.hasNumber
    ensures Judge(text, toks, i, j, s).None?
  {}

  lemma StartsAlike(v: View, w: View, i: nat)
    requires Alike(v, w) && i < |v.toks| == |w.toks|
    ensures StartsRun(w.toks[i]) == StartsRun(v.toks[i])
  {
    assert LooksSame(v, w, i);
    hide ShorthandAhead, CurrencyAhead, From, GluedWord;
  }

  lemma {:induction false} ScanAlike(v: View, w: View, i: nat)
    requires Alike(v, w) && i <= |v.toks| == |w.toks|
    ensures ValuesOf(Scan(w.text, w.toks, i)) == ValuesOf(Scan(v.text, v.toks, i))
    decreases |v.toks| - i
  {
    hide RunAt, Judge, Scan, Alike;
    if i == |v.toks| {
      ScanEnd(v.text, v.toks);
      ScanEnd(w.text, w.toks);
    } else {
      ScanUnfolds(v.text, v.toks, i);
      ScanUnfolds(w.text, w.toks, i);
      StartsAlike(v, w, i);
      if StartsRun(v.toks[i]) {
        JudgeAlike(v, w, i);
        var r, r' := RunAt(v.text, v.toks, i), RunAt(w.text, w.toks, i);
        var next := NextStart(i, r.next);
        ScanAlike(v, w, next);
        ValuesJoin(Listed(Judge(v.text, v.toks, i, r.next, r.state)), Scan(v.text, v.toks, next));
        ValuesJoin(Listed(Judge(w.text, w.toks, i, r'.next, r'.state)), Scan(w.text, w.toks, next));
      } else {
        ScanAlike(v, w, i + 1);
      }
    }
  }

  /** Texts with the same tokens in other places have the same values. */
  lemma ValuesAlike(s: Text, t: Text)
    requires Alike(View(s, Tokens(s)), View(t, Tokens(t)))
    ensures Valued(t) == Valued(s)
  {
    hide Lex, Scan, LooksSame, ShapeSame, WellCut;
    ScanAlike(View(s, Tokens(s)), View(t, Tokens(t)), 0);
  }
}
