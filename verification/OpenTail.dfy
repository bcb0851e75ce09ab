/** The one thing a punctuation mark changes in what stands before it: a shorthand tail such as
    "2 triệu 5" is taken at the end of a text only, and refused before a mark. */
module OpenTail {
  import opened Text
  import opened Vocabulary
  import opened Lexer
  import opened Lexing
  import opened Machine
  import opened Invariants
  import opened Guarantees
  import opened Composition
  import opened Barrier

  /** The step at token `j` takes the token as the hundreds of the last scale. */
  predicate Takes(text: Text, toks: seq<Tok>, j: nat, s: State)
    requires j < |toks|
  {
    (toks[j].Num? && ReadingOf(text, toks, j, s).Hundreds?)
    || (toks[j].Word? && toks[j].word.Ones?
        && (SpokenShorthand(toks, j, s) || NamShorthand(toks, j, s)))
  }

  /** A run that stands at token `j` takes the last token of the text as hundreds. */
  predicate TailTaken(text: Text, toks: seq<Tok>, j: nat, s: State)
    requires j <= |toks|
    decreases |toks| - j
  {
    j < |toks|
    && var a := Step(text, toks, j, s);
       a.Go? && if j == |toks| - 1 then Takes(text, toks, j, s) else TailTaken(text, toks, j + a.width, a.state)
  }

  lemma TailPasses(text: Text, toks: seq<Tok>, j: nat, s: State)
    requires j + 1 < |toks| && Step(text, toks, j, s).Go?
    ensures var a := Step(text, toks, j, s);
            TailTaken(text, toks, j, s) <==> TailTaken(text, toks, j + a.width, a.state)
  {
    hide Step, Takes;
  }

  /** The last run found from token `i` on takes the last token as hundreds. */
  predicate OpenEnded(text: Text, toks: seq<Tok>, i: nat)
    requires i <= |toks|
    decreases |toks| - i
  {
    i < |toks|
    && if !StartsRun(toks[i]) then OpenEnded(text, toks, i + 1)
       else TailTaken(text, toks, i, Fresh(toks[i].end))
            || OpenEnded(text, toks, NextStart(i, RunAt(text, toks, i).next))
  }

  predicate EndsInShorthand(text: Text) { OpenEnded(text, Tokens(text), 0) }

  // ----- a tail that is taken is emitted --------------------------------------------------------

  /** A state that a verdict accepts wherever the text ends. */
  predicate Acceptable(s: State) {
    s.hasNumber && s.seenBig && s.hasNonzero && s.slang == {} && !s.ambiguousTail && !s.suspicious
    && GrandTotal(s) > 0.0
  }

  predicate Unflagged(s: State) { !s.ambiguousTail && !s.suspicious }

  lemma StepUnflagged(text: Text, toks: seq<Tok>, j: nat, s: State)
    requires j < |toks| && Unflagged(s) && Step(text, toks, j, s).Go?
    ensures Unflagged(Step(text, toks, j, s).state)
  {
    hide ReadingOf, HundredsOf, DigitCount, GluedWord, Scaled, IsScaleTok, SpokenShorthand, NamShorthand;
    var t := toks[j];
    if t.Word? && IsNumberWord(t.word) && !t.word.Ones? {
      match t.word {
        case Filler =>
        case Tens(_) =>
        case Hundred =>
        case Scale(_, _) =>
        case Half =>
        case Halves =>
      }
    }
  }

  lemma HundredsPositive(digit: real, scale: real)
    requires digit > 0.0 && scale >= 1000000.0
    ensures HundredsOf(digit, scale) > 0.0
  {}

  lemma TakenAcceptable(text: Text, toks: seq<Tok>, j: nat, s: State)
    requires j + 1 == |toks| && Takes(text, toks, j, s) && Unflagged(s) && Amounting(s)
    ensures var digit := if toks[j].Num? then toks[j].value else toks[j].word.digit as real;
            Step(text, toks, j, s) == TakeHundreds(toks, j, s, digit)
    ensures Acceptable(Step(text, toks, j, s).state) && Step(text, toks, j, s).Go?
  {
    hide HundredsOf, ReadingOf, Count, All;
    var t := toks[j];
    if t.Num? {
      HundredsPositive(t.value, s.lastScale.value);
    } else {
      HundredsPositive(t.word.digit as real, s.lastScale.value);
    }
  }

  lemma {:induction false} TailRun(text: Text, toks: seq<Tok>, i: nat, j: nat, s: State)
    requires Sensible(toks) && RunInvariant(toks, i, j, s) && Unflagged(s)
    requires j <= |toks| && TailTaken(text, toks, j, s)
    ensures Run(text, toks, j, s).next == |toks| && Acceptable(Run(text, toks, j, s).state)
    decreases |toks| - j
  {
    hide Run, Step, RunInvariant, WellCut, Takes, Acceptable, Unflagged;
    assert toks[j] in toks;
    RunUnfolds(text, toks, j, s);
    var a := Step(text, toks, j, s);
    InvariantParts(toks, i, j, s);
    if j + 1 == |toks| {
      TakenAcceptable(text, toks, j, s);
      RunUnfolds(text, toks, j + 1, a.state);
      TakenWidth(text, toks, j, s);
    } else {
      StepKeeps(text, toks, i, j, s);
      StepUnflagged(text, toks, j, s);
      TailRun(text, toks, i, j + a.width, a.state);
    }
  }

  lemma TakenWidth(text: Text, toks: seq<Tok>, j: nat, s: State)
    requires j + 1 == |toks| && Step(text, toks, j, s).Go?
    ensures Step(text, toks, j, s).width == 1
  {
    hide StepNum, StepOnes, Multiply;
  }

  lemma TailJudged(text: Text, toks: seq<Tok>, i: nat)
    requires i < |toks| && Sensible(toks) && InOrder(text, toks)
    requires TailTaken(text, toks, i, Fresh(toks[i].end))
    ensures var Outcome(s, j) := RunAt(text, toks, i);
            j == |toks| && i < j && Judge(text, toks, i, j, s).Some?
  {
    hide Run, RunInvariant, TailTaken, SomeScale, SomeNonzero, DigitsIn, InOrder, IsBase, WellCut, IsDigitText,
      CurrencyAhead, Slice, From;
    FreshInvariant(toks, i);
    TailRun(text, toks, i, i, Fresh(toks[i].end));
    RunAtKeeps(text, toks, i);
    var Outcome(s, j) := RunAt(text, toks, i);
    InvariantTally(toks, i, j, s);
    ScaleShows(text, toks, i, j);
  }

  lemma InvariantTally(toks: seq<Tok>, i: nat, j: nat, s: State)
    requires RunInvariant(toks, i, j, s)
    ensures Tallied(toks, i, j, s)
  {}

  // ----- what a mark behind the text changes ----------------------------------------------------

  /** A text, and the same text with a mark behind it. */
  predicate Marked(v: View, w: View, c: Ch) {
    Separates(c, []) && v.toks == Tokens(v.text)
    && w.text == v.text + [c] && w.toks == v.toks + [Mark(v.text, c)]
  }

  lemma MarkLooks(v: View, w: View, c: Ch, x: nat)
    requires Marked(v, w, c) && x < |v.toks|
    ensures w.toks[x] == v.toks[x]
    ensures CurrencyAhead(From(w.text, v.toks[x].end)) == CurrencyAhead(From(v.text, v.toks[x].end))
    ensures ShorthandAhead(From(w.text, v.toks[x].end)) == ShorthandAhead(From(v.text, v.toks[x].end))
  {
    hide Lex, WellCut, Solid, CurrencyAhead, ShorthandAhead, From;
    TokensLossless(v.text);
    assert v.text + [c] == v.text + ([c] + []);
    BeforeMark(v.text, c, [], v.toks[x].end);
  }

  lemma MarkedStep(v: View, w: View, c: Ch, x: nat)
    requires Marked(v, w, c) && x + 1 < |v.toks|
    ensures SameStep(v, w, x, 0, 0)
  {
    hide Lex, ShorthandAhead, From, Separates;
    MarkLooks(v, w, c, x);
  }

  /** At the last token, the mark matters only to a tail that would be taken. */
  lemma LastStep(v: View, w: View, c: Ch, x: nat, s: State)
    requires Marked(v, w, c) && x + 1 == |v.toks|
    ensures !Takes(v.text, v.toks, x, s) ==> Step(w.text, w.toks, x, s) == Step(v.text, v.toks, x, s)
    ensures Takes(v.text, v.toks, x, s) ==> Step(w.text, w.toks, x, s) == Stop(s.(ambiguousTail := true))
    ensures Takes(v.text, v.toks, x, s) ==> Step(v.text, v.toks, x, s).Go?
  {
    hide Lex, ShorthandAhead, From, Separates, Multiply, HundredsOf, DigitCount, All, BigEnough, Count, JoinsGroup;
    MarkLooks(v, w, c, x);
    var t := v.toks[x];
    if t.Num? {
      LastReading(v, w, c, x, s);
      LastCount(v, w, c, x, s.(current := Is(t.value), fromDigits := t.text != [] && All(t.text, Digits)));
      LastCount(v, w, c, x, s.(current := Is(s.current.Or(0.0) * 1000.0 + t.value)));
      hide ReadingOf;
    }
  }

  lemma LastReading(v: View, w: View, c: Ch, x: nat, s: State)
    requires Marked(v, w, c) && x + 1 == |v.toks| && v.toks[x].Num?
    ensures w.toks[x] == v.toks[x]
    ensures var r := ReadingOf(v.text, v.toks, x, s);
            ReadingOf(w.text, w.toks, x, s) == if r.Hundreds? then Loose else r
  {
    hide Lex, ShorthandAhead, From, Separates, All, JoinsGroup;
    MarkLooks(v, w, c, x);
  }

  lemma LastCount(v: View, w: View, c: Ch, x: nat, s: State)
    requires Marked(v, w, c) && x + 1 == |v.toks| && v.toks[x].Num?
    ensures Count(v.toks[x], Peek(w.toks, x + 1), s) == Count(v.toks[x], Peek(v.toks, x + 1), s)
  {
    hide Lex, DigitCount;
  }

  /** A mark behind the text either changes nothing in a run, or refuses the tail the run took. */
  lemma {:induction false} RunMarked(v: View, w: View, c: Ch, x: nat, s: State)
    requires Marked(v, w, c) && x <= |v.toks|
    ensures x <= |w.toks|
    ensures !TailTaken(v.text, v.toks, x, s) ==> Run(w.text, w.toks, x, s) == Run(v.text, v.toks, x, s)
    ensures TailTaken(v.text, v.toks, x, s) ==>
              Run(w.text, w.toks, x, s).next == |v.toks| - 1 && Run(w.text, w.toks, x, s).state.ambiguousTail
    decreases |v.toks| - x
  {
    hide Run, Step, Marked, Takes;
    assert |w.toks| == |v.toks| + 1 by { MarkedLength(v, w, c); }
    RunUnfolds(v.text, v.toks, x, s);
    RunUnfolds(w.text, w.toks, x, s);
    if x == |v.toks| {
      MarkStops(v, w, c, s);
    } else {
      var a := Step(v.text, v.toks, x, s);
      if x + 1 == |v.toks| {
        LastStep(v, w, c, x, s);
        if a.Go? {
          TakenWidth(v.text, v.toks, x, s);
          RunMarked(v, w, c, x + 1, a.state);
        }
      } else {
        MarkedStep(v, w, c, x);
        StepSame(v, w, x, 0, 0, s);
        ShiftNothing(s, a);
        if a.Go? { RunMarked(v, w, c, x + a.width, a.state); }
      }
    }
  }

  lemma ShiftNothing(s: State, a: Action)
    ensures ShiftState(s, 0) == s && ShiftAction(a, 0) == a
  {}

  lemma MarkedLength(v: View, w: View, c: Ch)
    requires Marked(v, w, c)
    ensures |w.toks| == |v.toks| + 1
  {
    hide Lex;
  }

  lemma MarkStops(v: View, w: View, c: Ch, s: State)
    requires Marked(v, w, c)
    ensures |v.toks| < |w.toks| && Step(w.text, w.toks, |v.toks|, s) == Stop(s)
    ensures !StartsRun(w.toks[|v.toks|])
  {
    hide Lex;
  }

  /** A run that takes no tail is judged alike with and without the mark. */
  lemma JudgeMarked(v: View, w: View, c: Ch, i: nat)
    requires Marked(v, w, c) && i < |v.toks| && !TailTaken(v.text, v.toks, i, Fresh(v.toks[i].end))
    ensures i < |w.toks| && w.toks[i] == v.toks[i]
    ensures RunAt(w.text, w.toks, i) == RunAt(v.text, v.toks, i)
    ensures var Outcome(s, j) := RunAt(v.text, v.toks, i);
            Judge(w.text, w.toks, i, j, s) == Judge(v.text, v.toks, i, j, s)
  {
    hide Run, Lex, TailTaken, CurrencyAhead, From, WellCut, Solid, Separates, RunInvariant;
    TokensLossless(v.text);
    RunMarked(v, w, c, i, Fresh(v.toks[i].end));
    var Outcome(s, j) := RunAt(v.text, v.toks, i);
    RunAtKeeps(v.text, v.toks, i);
    InvariantTally(v.toks, i, j, s);
    FreshEnd(v.text, v.toks, i);
    var last := if i < j then j - 1 else i;
    assert s.end == v.toks[last].end;
    MarkLooks(v, w, c, last);
    assert v.toks[i].start <= v.toks[last].end <= |v.text|;
    SliceWithin(v.text, [c], v.toks[i].start, s.end);
    JudgeByLooks(v, w, c, i, j, s);
  }

  lemma JudgeByLooks(v: View, w: View, c: Ch, i: nat, j: nat, s: State)
    requires Marked(v, w, c) && i < |v.toks| && j <= |v.toks|
    requires CurrencyAhead(From(w.text, s.end)) == CurrencyAhead(From(v.text, s.end))
    requires Slice(w.text, v.toks[i].start, s.end) == Slice(v.text, v.toks[i].start, s.end)
    ensures i < |w.toks| && Judge(w.text, w.toks, i, j, s) == Judge(v.text, v.toks, i, j, s)
  {
    hide Lex, CurrencyAhead, From, Slice, IsPhoneShape, IsYearShape, Separates;
    assert w.toks[i] == v.toks[i];
    assert Prev(w.toks, i) == Prev(v.toks, i);
    assert IsObjectTok(Peek(w.toks, j), s.slang) == IsObjectTok(Peek(v.toks, j), s.slang);
  }

  // ----- the refused tail starts no amount of its own -------------------------------------------

  lemma BlankHasNoCurrency(s: Text)
    requires All(s, Spaces)
    ensures !CurrencyAhead(s)
  {
    PrefixIs(s, Spaces, |s|);
    assert s[|s|..] == [];
  }

  lemma BlankAfterLast(text: Text)
    requires Tokens(text) != []
    ensures All(From(text, Tokens(text)[|Tokens(text)| - 1].end), Spaces)
  {
    hide Lex, WellCut, Solid;
    TokensLossless(text);
    var toks := Tokens(text);
    var last := toks[|toks| - 1];
    assert forall t | t in toks :: t.end <= last.end;
    var rest := From(text, last.end);
    forall k | 0 <= k < |rest| ensures rest[k].Space? {
      assert rest[k] == text[last.end + k];
    }
  }

  /** Read afresh, a one-digit number or a numeral word has no evidence. */
  lemma LoneTail(v: View, w: View, c: Ch, s: State)
    requires Marked(v, w, c) && v.toks != [] && Takes(v.text, v.toks, |v.toks| - 1, s)
    ensures |v.toks| < |w.toks| && Scan(w.text, w.toks, |v.toks| - 1) == []
  {
    hide Lex, Scan, Run, Step, From, CurrencyAhead, LooksLikeIdentifier, WellCut, Solid, Marked;
    var n := |v.toks| - 1;
    MarkedLength(v, w, c);
    MarkLooks(v, w, c, n);
    MarkedTokensOf(v, w, c);
    BlankAfterLast(v.text);
    LoneRun(v, w, c, s);
    BlankHasNoCurrency(From(v.text, v.toks[n].end));
    ScanUnfolds(w.text, w.toks, n);
    ScanUnfolds(w.text, w.toks, n + 1);
    MarkStops(v, w, c, s);
    ScanEnd(w.text, w.toks);
  }

  lemma MarkedTokensOf(v: View, w: View, c: Ch)
    requires Marked(v, w, c)
    ensures v.toks == Tokens(v.text)
  {
    hide Lex;
  }

  lemma LoneRun(v: View, w: View, c: Ch, s: State)
    requires Marked(v, w, c) && v.toks != [] && Takes(v.text, v.toks, |v.toks| - 1, s)
    ensures var n := |v.toks| - 1;
            n + 1 < |w.toks| && StartsRun(w.toks[n])
            && RunAt(w.text, w.toks, n).next == n + 1
            && var e := RunAt(w.text, w.toks, n).state;
               !e.seenBig && e.digits <= 1 && e.end == v.toks[n].end
  {
    hide Lex, Run, From, ShorthandAhead, Separates;
    var n, t := |v.toks| - 1, v.toks[|v.toks| - 1];
    MarkLooks(v, w, c, n);
    TokensLossless(v.text);
    var f := Fresh(w.toks[n].end);
    RunUnfolds(w.text, w.toks, n, f);
    var a := Step(w.text, w.toks, n, f);
    assert t in v.toks && WellCut(t);
    if t.Num? {
      OneDigit(t.text);
      assert t.implied.Absent?;
    }
    assert a.Go? && a.width == 1;
    RunUnfolds(w.text, w.toks, n + 1, a.state);
  }

  lemma OneDigit(s: Text)
    requires |s| == 1
    ensures DigitCount(s) <= 1
  {
    assert s[1..] == [];
  }

  /** The state in which the last token is taken. */
  lemma {:induction false} TakingState(text: Text, toks: seq<Tok>, j: nat, s: State) returns (s': State)
    requires j <= |toks| && TailTaken(text, toks, j, s)
    ensures Takes(text, toks, |toks| - 1, s')
    decreases |toks| - j
  {
    hide Step, Takes;
    if j == |toks| - 1 {
      s' := s;
    } else {
      var a := Step(text, toks, j, s);
      s' := TakingState(text, toks, j + a.width, a.state);
    }
  }

  lemma FreshTakesNothing(text: Text, toks: seq<Tok>, i: nat, end: nat)
    requires i < |toks|
    ensures !Takes(text, toks, i, Fresh(end))
  {
    hide TailConsumable, ShorthandAhead, From;
  }

  /** The amounts with the mark are those without it, less the last one if it took a tail. */
  lemma {:induction false} ScanMarked(v: View, w: View, c: Ch, i: nat)
    requires Marked(v, w, c) && i <= |v.toks|
    ensures i <= |w.toks|
    ensures !OpenEnded(v.text, v.toks, i) ==> Scan(w.text, w.toks, i) == Scan(v.text, v.toks, i)
    ensures OpenEnded(v.text, v.toks, i) ==>
              |Scan(v.text, v.toks, i)| > 0
              && Scan(w.text, w.toks, i) == Scan(v.text, v.toks, i)[..|Scan(v.text, v.toks, i)| - 1]
    decreases |v.toks| - i
  {
    hide RunAt, Judge, Scan, Marked, TailTaken, Takes, Separates;
    MarkedLength(v, w, c);
    if i == |v.toks| {
      MarkStops(v, w, c, Fresh(0));
      ScanUnfolds(w.text, w.toks, i);
      ScanEnd(w.text, w.toks);
      ScanEnd(v.text, v.toks);
    } else {
      ScanUnfolds(v.text, v.toks, i);
      ScanUnfolds(w.text, w.toks, i);
      MarkLooks(v, w, c, i);
      if !StartsRun(v.toks[i]) {
        ScanMarked(v, w, c, i + 1);
      } else if TailTaken(v.text, v.toks, i, Fresh(v.toks[i].end)) {
        TailMarked(v, w, c, i);
      } else {
        JudgeMarked(v, w, c, i);
        ScanMarked(v, w, c, NextStart(i, RunAt(v.text, v.toks, i).next));
      }
    }
  }

  lemma TailMarked(v: View, w: View, c: Ch, i: nat)
    requires Marked(v, w, c) && i < |v.toks| && StartsRun(v.toks[i])
    requires TailTaken(v.text, v.toks, i, Fresh(v.toks[i].end))
    ensures i < |w.toks| && Scan(w.text, w.toks, i) == [] && |Scan(v.text, v.toks, i)| == 1
  {
    hide Run, Step, Judge, Scan, Marked, Takes, Separates, Lex, WellCut, Solid, InOrder;
    var n := |v.toks| - 1;
    MarkedLength(v, w, c);
    MarkedTokensOf(v, w, c);
    TokensLossless(v.text);
    MarkLooks(v, w, c, i);
    TailJudged(v.text, v.toks, i);
    ScanUnfolds(v.text, v.toks, i);
    ScanEnd(v.text, v.toks);
    FreshTakesNothing(v.text, v.toks, i, v.toks[i].end);
    assert i < n;
    RunMarked(v, w, c, i, Fresh(v.toks[i].end));
    var s := TakingState(v.text, v.toks, i, Fresh(v.toks[i].end));
    LoneTail(v, w, c, s);
    ScanUnfolds(w.text, w.toks, i);
    FlaggedRefused(w.text, w.toks, i, n, RunAt(w.text, w.toks, i).state);
  }

  lemma FlaggedRefused(text: Text, toks: seq<Tok>, i: nat, j: nat, s: State)
    requires i < |toks| && s.ambiguousTail
    ensures Judge(text, toks, i, j, s).None?
  {}

  // ----- what the last token must be ------------------------------------------------------------

  /** A single digit other than zero, or one of the eight numerals that may stand for hundreds. */
  predicate IsShortTail(t: Tok) {
    (t.Num? && |t.text| == 1 && t.text[0].Dig? && t.value > 0.0) || (t.Word? && IsSpokenTail(t.word))
  }

  lemma TakenIsShort(text: Text, toks: seq<Tok>, j: nat, s: State)
    requires j + 1 == |toks| && Takes(text, toks, j, s)
    ensures IsShortTail(toks[j])
  {
    hide ShorthandAhead, From;
  }

  lemma {:induction false} OpenIsShort(text: Text, toks: seq<Tok>, i: nat)
    requires i <= |toks| && OpenEnded(text, toks, i)
    ensures toks != [] && IsShortTail(toks[|toks| - 1])
    decreases |toks| - i
  {
    hide RunAt, Takes, TailTaken, IsShortTail;
    if !StartsRun(toks[i]) {
      OpenIsShort(text, toks, i + 1);
    } else if TailTaken(text, toks, i, Fresh(toks[i].end)) {
      var s := TakingState(text, toks, i, Fresh(toks[i].end));
      TakenIsShort(text, toks, |toks| - 1, s);
    } else {
      OpenIsShort(text, toks, NextStart(i, RunAt(text, toks, i).next));
    }
  }

  /** Only a text whose last token is a short tail can lose an amount to a mark. */
  lemma ShorthandIsShort(text: Text)
    requires EndsInShorthand(text)
    ensures Tokens(text) != [] && IsShortTail(Tokens(text)[|Tokens(text)| - 1])
  {
    hide Lex, OpenEnded, IsShortTail;
    OpenIsShort(text, Tokens(text), 0);
  }

  lemma FirstRunOpen(text: Text)
    requires Tokens(text) != [] && TailTaken(text, Tokens(text), 0, Fresh(Tokens(text)[0].end))
    ensures EndsInShorthand(text)
  {
    hide Lex, RunAt, TailTaken;
    assert StartsRun(Tokens(text)[0]) by { TailStarts(text, Tokens(text), 0, Fresh(Tokens(text)[0].end)); }
  }

  lemma TailStarts(text: Text, toks: seq<Tok>, j: nat, s: State)
    requires j <= |toks| && TailTaken(text, toks, j, s)
    ensures j < |toks| && StartsRun(toks[j])
  {
    hide StepNum, StepOnes, Multiply, Takes;
  }

  /** A mark behind a text takes away exactly the amount whose last token was read as the hundreds of
      a scale at the very end of the text; such an amount is always there, and is the last. */
  lemma MarkRefusesTail(a: Text, c: Ch)
    requires Separates(c, [])
    ensures EndsInShorthand(a) ==> |Amounts(a)| > 0 && Amounts(a + [c]) == Amounts(a)[..|Amounts(a)| - 1]
    ensures !EndsInShorthand(a) ==> Amounts(a + [c]) == Amounts(a)
  {
    hide Lex, Scan, Separates, OpenEnded;
    MarkedTokens(a, c, []);
    ScanMarked(View(a, Tokens(a)), View(a + [c], Tokens(a + [c])), c, 0);
  }

  /** The whole barrier: what two texts yield with a mark between them. */
  lemma PunctuationBarrier(a: Text, c: Ch, b: Text)
    requires Separates(c, b)
    ensures EndsInShorthand(a) ==> |Amounts(a)| > 0
    ensures Amounts(a + [c] + b)
         == (if EndsInShorthand(a) then Amounts(a)[..|Amounts(a)| - 1] else Amounts(a))
            + ShiftMatches(Amounts(b), |a| + 1)
  {
    hide Amounts, EndsInShorthand, Separates;
    MarkAlone(c, b);
    MarkRefusesTail(a, c);
    MarkSeparates(a, c, b);
  }
}
