/** Words behind complete groups at the end of a text: a numeral for the hundreds of the last scale
    ("một triệu hai"), with or without "trăm", and what becomes of every other numeral. */
module SpokenTails {
  import opened Text
  import opened Vocabulary
  import opened Lexer
  import opened Machine
  import opened OpenTail
  import opened Words
  import opened Accepting
  import opened DigitGroups
  import opened Tails

  predicate IsWord(w: Text) { w != [] && All(w, Letters) }

  lemma NumeralBehind(text: Text, toks: seq<Tok>, ws: seq<Text>, k: nat, s: State, m: Magnitude)
    requires k + 1 == |toks| == |ws| && ReadsAt(text, toks, ws, k) && Closed(s, m)
    requires IsWord(ws[k]) && WordFor(ws[k]).Ones?
    ensures Step(text, toks, k, s)
         == (var w := WordFor(ws[k]);
             if IsSpokenTail(w) && TakesDigits(s)
             then Go(Taken(s, w.digit as real, m, toks[k].end), 1)
             else Stop(s.(ambiguousTail := true)))
  {
    hide StandsFree, WordOf, Base, HundredsOf;
    assert In(ws[k][0], Letters);
  }

  /** A numeral word at the end of a text, read as a run of its own, is no amount. */
  lemma LastNumeral(text: Text, toks: seq<Tok>, ws: seq<Text>, k: nat)
    requires Reads(text, toks, ws) && k + 1 == |ws| && IsWord(ws[k]) && WordFor(ws[k]).Ones?
    ensures Scan(text, toks, k) == []
  {
    hide Run, StandsFree, WordOf, CurrencyAhead, From, LooksLikeIdentifier, Scan;
    assert ReadsAt(text, toks, ws, k) && In(ws[k][0], Letters);
    NothingAhead(text);
    var f := Fresh(toks[k].end);
    RunUnfolds(text, toks, k, f);
    RunUnfolds(text, toks, k + 1, Step(text, toks, k, f).state);
    ScanUnfolds(text, toks, k);
    ScanEnd(text, toks);
  }

  /** What is found when complete groups are followed by one numeral word at the end of the text. */
  function WithNumeral(gs: seq<Group>, w: Word, text: Text): seq<Match>
    requires gs != [] && AreGroups(gs) && w.Ones?
  {
    if IsSpokenTail(w) && Abbreviates(gs)
    then [Match(WithTenths(gs, w.digit), text, 0, |text|)]
    else []
  }

  /** One numeral word behind complete groups stands for the hundreds of the last scale if it is in
      the accepted list and the groups allow it; otherwise, and so for "năm", nothing is found. */
  lemma TrailingNumeral(gs: seq<Group>, w: Text)
    requires gs != [] && AreGroups(gs) && IsWord(w) && WordFor(w).Ones?
    ensures Amounts(Join(GroupWords(gs) + [w])) == WithNumeral(gs, WordFor(w), Join(GroupWords(gs) + [w]))
  {
    hide WordOf, Lex, Run, Reads, Join, Scan, Base, ReadsAt, MagnitudeOf, Abbreviates, TakesDigits, NounsOf,
      ReadSum, Tenths, RoundHalfUp, Taken, GrandTotal, Step, RunAt;
    var ws, k := GroupWords(gs) + [w], 2 * |gs|;
    var text := Join(ws);
    var toks := Tokens(text);
    var m := MagnitudeOf(gs[|gs| - 1]);
    var s := Opening(gs, [w], ws);
    ReadsHere(text, toks, ws, k);
    SumPositive(gs);
    AbbreviatingState(gs, s);
    NumeralBehind(text, toks, ws, k, s, m);
    RunUnfolds(text, toks, k, s);
    if IsSpokenTail(WordFor(w)) && Abbreviates(gs) {
      TakenFinishes(text, toks, s, m, WordFor(w).digit, toks[k].end);
      WholeText(text, toks, ws, Taken(s, WordFor(w).digit as real, m, toks[k].end));
    } else {
      RefusedThen(text, toks, k, s.(ambiguousTail := true));
      LastNumeral(text, toks, ws, k);
    }
  }

  lemma NumeralIsTaken(text: Text, toks: seq<Tok>, ws: seq<Text>, k: nat, s: State, m: Magnitude)
    requires k + 1 == |toks| == |ws| && ReadsAt(text, toks, ws, k) && Closed(s, m)
    requires IsWord(ws[k]) && WordFor(ws[k]).Ones? && IsSpokenTail(WordFor(ws[k])) && TakesDigits(s)
    ensures TailTaken(text, toks, k, s)
  {
    NumeralBehind(text, toks, ws, k, s, m);
    hide Step, StandsFree, WordOf, Base, HundredsOf;
    assert In(ws[k][0], Letters);
  }

  /** The same for a numeral word: it is a tail that a mark takes away exactly if it is taken. */
  lemma NumeralOpensTail(gs: seq<Group>, w: Text)
    requires gs != [] && AreGroups(gs) && IsWord(w) && WordFor(w).Ones?
    ensures EndsInShorthand(Join(GroupWords(gs) + [w])) <==> IsSpokenTail(WordFor(w)) && Abbreviates(gs)
  {
    hide WordOf, Lex, Run, Reads, Join, Base, ReadsAt, MagnitudeOf, Abbreviates, TakesDigits, NounsOf, ReadSum,
      Tenths, TailTaken, EndsInShorthand, Amounts, GroupWords, IsSpokenTail;
    var ws, k := GroupWords(gs) + [w], 2 * |gs|;
    var text := Join(ws);
    var toks := Tokens(text);
    var s := Opening(gs, [w], ws);
    ReadsHere(text, toks, ws, k);
    SumPositive(gs);
    AbbreviatingState(gs, s);
    if IsSpokenTail(WordFor(w)) && Abbreviates(gs) {
      NumeralIsTaken(text, toks, ws, k, s, MagnitudeOf(gs[|gs| - 1]));
      FirstRunOpen(text);
    } else if EndsInShorthand(text) {
      TailFound(text);
      TrailingNumeral(gs, w);
    }
  }

  // ----- with "trăm" behind it ------------------------------------------------------------------

  /** A closing "trăm" stands at `k + 1`, at the end of the text. */
  predicate HundredEnds(text: Text, toks: seq<Tok>, ws: seq<Text>, k: nat) {
    Reads(text, toks, ws) && k + 2 == |toks| == |ws| && IsWord(ws[k + 1]) && WordFor(ws[k + 1]).Hundred?
  }

  lemma HundredCloses(text: Text, toks: seq<Tok>, ws: seq<Text>, k: nat)
    requires HundredEnds(text, toks, ws, k)
    ensures IsHundredTok(Peek(toks, k + 1)) && IsScaleTok(Peek(toks, k + 1)) && ClosingHundred(toks, k + 1)
    ensures ReadsAt(text, toks, ws, k)
  {
    hide StandsFree, WordOf;
    assert ReadsAt(text, toks, ws, k + 1) && ReadsAt(text, toks, ws, k) && In(ws[k + 1][0], Letters);
  }

  /** The state after "x" has been read as a coefficient of the "trăm" that follows. */
  predicate Pending(s: State, s1: State, x: real) {
    s1.current == Is(x) && s1.section == 0.0 && s1.total == s.total && Unflagged(s1)
    && s1.seenBig && s1.hasNumber
  }

  lemma NumberHundred(text: Text, toks: seq<Tok>, ws: seq<Text>, k: nat, s: State, m: Magnitude)
    requires HundredEnds(text, toks, ws, k) && IsNumeral(ws[k]) && Closed(s, m)
    ensures var a := Step(text, toks, k, s);
            a.Go? && if IsFigure(ws[k]) && TakesDigits(s)
                     then a == Go(Taken(s, ws[k][0].digit as real, m, toks[k + 1].end), 2)
                     else a.width == 1 && Pending(s, a.state, ValueOf(ws[k]))
  {
    hide Reads, ShorthandAhead, GluedWord, ValueOf, StandsFree, WordOf, Base, HundredsOf, From, ClosingHundred,
      BodyLen, All, IsFigure, DigitCount;
    HundredCloses(text, toks, ws, k);
    FreeOfGlue(text, toks, ws, k);
    FigureValue(ws[k]);
  }

  lemma NumeralHundred(text: Text, toks: seq<Tok>, ws: seq<Text>, k: nat, s: State, m: Magnitude)
    requires HundredEnds(text, toks, ws, k) && IsWord(ws[k]) && WordFor(ws[k]).Ones? && Closed(s, m)
    ensures var a, w := Step(text, toks, k, s), WordFor(ws[k]);
            a.Go? && if (IsSpokenTail(w) && TakesDigits(s)) || IsNam(w)
                     then a == Go(Taken(s, w.digit as real, m, toks[k + 1].end), 2)
                     else a.width == 1 && Pending(s, a.state, w.digit as real)
  {
    hide Reads, StandsFree, WordOf, Base, HundredsOf, ClosingHundred;
    HundredCloses(text, toks, ws, k);
    assert In(ws[k][0], Letters);
  }

  /** "trăm" multiplies what is pending by a hundred and ends the run. */
  lemma HundredFinishes(text: Text, toks: seq<Tok>, ws: seq<Text>, k: nat, s: State, s1: State, x: real)
    returns (s': State)
    requires HundredEnds(text, toks, ws, k) && Pending(s, s1, x)
    ensures Run(text, toks, k + 1, s1) == Outcome(s', |toks|)
    ensures s'.hasNumber && s'.seenBig && s'.hasNonzero && Unflagged(s')
    ensures GrandTotal(s') == s.total + x * 100.0
  {
    hide WordOf, Run, Step, ReadsAt, BodyLen;
    ReadsHere(text, toks, ws, k + 1);
    ScaleStep(text, toks, ws, k + 1, s1);
    s' := Multiply(s1, WordFor(ws[k + 1]), toks[k + 1].end);
    RunUnfolds(text, toks, k + 1, s1);
    RunUnfolds(text, toks, k + 2, s');
  }

  /** What groups are worth with `x` hundreds behind them. */
  function WithHundreds(gs: seq<Group>, x: real): int
    requires AreGroups(gs)
  {
    RoundHalfUp(ReadSum(gs) + x * 100.0)
  }

  /** Behind complete groups "n trăm" means hundreds of the last scale if `n` is one digit and the
      groups allow it, and plain hundreds otherwise. */
  lemma NumberOfHundreds(gs: seq<Group>, w: Text, hundred: Text)
    requires gs != [] && AreGroups(gs) && IsNumeral(w) && IsWord(hundred) && WordFor(hundred).Hundred?
    ensures var text := Join(GroupWords(gs) + [w, hundred]);
            var v := if IsFigure(w) && Abbreviates(gs) then WithTenths(gs, w[0].digit)
                     else WithHundreds(gs, ValueOf(w));
            Amounts(text) == [Match(v, text, 0, |text|)]
  {
    hide WordOf, Lex, Run, Step, Join, Scan, Base, ReadsAt, MagnitudeOf, Abbreviates, TakesDigits, NounsOf,
      ReadSum, Tenths, Taken, Reads, GroupWords, IsGroup, Pending, ValueOf, BodyLen, IsFigure, RoundHalfUp,
      GrandTotal, RunAt;
    var ws, k := GroupWords(gs) + [w, hundred], 2 * |gs|;
    var text := Join(ws);
    var toks := Tokens(text);
    var m := MagnitudeOf(gs[|gs| - 1]);
    var s := Opening(gs, [w, hundred], ws);
    SumPositive(gs);
    AbbreviatingState(gs, s);
    assert ws[k] == w && ws[k + 1] == hundred;
    NumberHundred(text, toks, ws, k, s, m);
    RunUnfolds(text, toks, k, s);
    if IsFigure(w) && Abbreviates(gs) {
      TakenFinishes(text, toks, s, m, w[0].digit, toks[k + 1].end);
      WholeText(text, toks, ws, Taken(s, w[0].digit as real, m, toks[k + 1].end));
    } else {
      var s' := HundredFinishes(text, toks, ws, k, s, Step(text, toks, k, s).state, ValueOf(w));
      WholeText(text, toks, ws, s');
    }
  }

  /** The same for a numeral word; "năm trăm" is always taken as hundreds of the last scale. */
  lemma NumeralOfHundreds(gs: seq<Group>, w: Text, hundred: Text)
    requires gs != [] && AreGroups(gs) && IsWord(hundred) && WordFor(hundred).Hundred?
    requires IsWord(w) && WordFor(w).Ones?
    ensures var text := Join(GroupWords(gs) + [w, hundred]);
            var d: nat := WordFor(w).digit;
            var v := if (IsSpokenTail(WordFor(w)) && Abbreviates(gs)) || IsNam(WordFor(w))
                     then WithTenths(gs, d) else WithHundreds(gs, d as real);
            Amounts(text) == [Match(v, text, 0, |text|)]
  {
    hide WordOf, Lex, Run, Step, Join, Scan, Base, ReadsAt, MagnitudeOf, Abbreviates, TakesDigits, NounsOf,
      ReadSum, Tenths, Taken, Reads, GroupWords, IsGroup, Pending, RoundHalfUp, GrandTotal, RunAt, BodyLen;
    var ws, k := GroupWords(gs) + [w, hundred], 2 * |gs|;
    var d: nat := WordFor(w).digit;
    var text := Join(ws);
    var toks := Tokens(text);
    var m := MagnitudeOf(gs[|gs| - 1]);
    var s := Opening(gs, [w, hundred], ws);
    SumPositive(gs);
    AbbreviatingState(gs, s);
    assert ws[k] == w && ws[k + 1] == hundred;
    NumeralHundred(text, toks, ws, k, s, m);
    RunUnfolds(text, toks, k, s);
    if (IsSpokenTail(WordFor(w)) && Abbreviates(gs)) || IsNam(WordFor(w)) {
      TakenFinishes(text, toks, s, m, d, toks[k + 1].end);
      WholeText(text, toks, ws, Taken(s, d as real, m, toks[k + 1].end));
    } else {
      var s' := HundredFinishes(text, toks, ws, k, s, Step(text, toks, k, s).state, d as real);
      WholeText(text, toks, ws, s');
    }
  }
}
