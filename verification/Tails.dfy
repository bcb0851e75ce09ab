/** What may stand behind complete groups at the end of a text: a half, the hundreds of the last
    scale, a word for them, or a number that makes the whole amount ambiguous. */
module Tails {
  import opened Text
  import opened Vocabulary
  import opened Lexer
  import opened Machine
  import opened Barrier
  import opened OpenTail
  import opened Words
  import opened Accepting
  import opened DigitGroups

  function LastUnit(gs: seq<Group>): nat
    requires gs != [] && AreGroups(gs)
  {
    Unit(MagnitudeOf(gs[|gs| - 1]))
  }

  /** The groups end in a scale of a million or more, and none of their scales is slang: only then
      does a bare digit behind them stand for the hundreds of that scale. */
  predicate Abbreviates(gs: seq<Group>)
    requires gs != [] && AreGroups(gs)
  {
    LastUnit(gs) >= 1000000 && NounsOf(gs) == {}
  }

  /** The state behind the groups that open a text. */
  lemma Opening(gs: seq<Group>, rest: seq<Text>, ws: seq<Text>) returns (s: State)
    requires gs != [] && AreGroups(gs) && AreChunks(rest) && ws == GroupWords(gs) + rest
    ensures var text, k := Join(ws), 2 * |gs|;
            Reads(text, Tokens(text), ws) && |Tokens(text)| == |ws|
            && RunAt(text, Tokens(text), 0) == Run(text, Tokens(text), k, s)
            && ReadsAt(text, Tokens(text), ws, k - 1)
            && All(ws[k - 1], Letters) && WordFor(ws[k - 1]).Scale?
    ensures Ready(s) && s.total == ReadSum(gs) && s.slang == NounsOf(gs)
    ensures 2 * |gs| < |ws| && TailTaken(Join(ws), Tokens(Join(ws)), 2 * |gs|, s) ==>
              TailTaken(Join(ws), Tokens(Join(ws)), 0, Fresh(Tokens(Join(ws))[0].end))
    ensures s.seenBig && s.hasNumber && s.lastScale == Is(Base(MagnitudeOf(gs[|gs| - 1])))
  {
    hide WordOf, Lex, Run, Join, IsGroup, Base, MagnitudeOf, Reads, ReadsAt;
    GroupsAreChunks(gs);
    JoinReads(ws);
    var text, k := Join(ws), 2 * |gs|;
    var toks := Tokens(text);
    ReadsHere(text, toks, ws, k - 1);
    assert ws[0..k] == GroupWords(gs);
    ReadsAsPart(text, toks, ws);
    s := GroupsRun(text, toks, ws, 0, Fresh(toks[0].end), gs);
    LastGroupWord(gs);
    assert ws[k - 1] == GroupWords(gs)[k - 1];
  }

  lemma {:induction false} LastGroupWord(gs: seq<Group>)
    requires gs != [] && AreGroups(gs)
    ensures GroupWords(gs)[2 * |gs| - 1] == gs[|gs| - 1].scale
    ensures IsGroup(gs[|gs| - 1]) && All(gs[|gs| - 1].scale, Letters) && WordFor(gs[|gs| - 1].scale).Scale?
  {
    hide WordOf, IsNumeral;
    if |gs| > 1 {
      LastGroupWord(gs[1..]);
      assert GroupWords(gs)[2 * |gs| - 1] == GroupWords(gs[1..])[2 * |gs| - 3];
    } else {
      assert IsGroup(gs[0]);
    }
  }

  /** `d` hundreds of the unit below a scale: the tenth part of the scale, `d` times. */
  function Tenths(d: nat, m: Magnitude): nat { d * (Unit(m) / 10) }

  lemma HundredsUnit(d: nat, m: Magnitude)
    ensures HundredsOf(d as real, Base(m)) == Tenths(d, m) as real
  {
    var r := d as real;
    match m {
      case Thousand => assert HundredsOf(r, 1000.0) == r * 100.0 == (d * 100) as real;
      case Myriad => assert HundredsOf(r, 10000.0) == r * 1000.0 == (d * 1000) as real;
      case Million => assert HundredsOf(r, 1000000.0) == r * 100000.0 == (d * 100000) as real;
      case Billion => assert HundredsOf(r, 1000000000.0) == r * 100000000.0 == (d * 100000000) as real;
    }
  }

  lemma HalfUnit(m: Magnitude)
    ensures Base(m) / 2.0 == (Unit(m) / 2) as real
  {
    match m {
      case Thousand =>
      case Myriad =>
      case Million =>
      case Billion =>
    }
  }

  lemma BigUnit(m: Magnitude)
    ensures Base(m) >= 1000000.0 <==> Unit(m) >= 1000000
  {}

  /** "rưỡi" at the end adds exactly half the last scale. */
  lemma HalfTail(gs: seq<Group>, half: Text)
    requires gs != [] && AreGroups(gs) && half != [] && All(half, Letters) && WordFor(half).Halves?
    ensures var text := Join(GroupWords(gs) + [half]);
            Amounts(text) == [Match(RoundHalfUp(ReadSum(gs) + (LastUnit(gs) / 2) as real), text, 0, |text|)]
  {
    hide Lex, Run, Reads, Join, IsGroup, Amounts, Step, WordFor, Base, Unit, RoundHalfUp, ReadSum;
    var ws, k := GroupWords(gs) + [half], 2 * |gs|;
    var text := Join(ws);
    var toks := Tokens(text);
    var s := Opening(gs, [half], ws);
    assert ws[k] == half;
    ReadsHere(text, toks, ws, k);
    ScaleStep(text, toks, ws, k, s);
    var s' := Multiply(s, WordFor(half), toks[k].end);
    RunUnfolds(text, toks, k, s);
    RunUnfolds(text, toks, k + 1, s');
    HalfUnit(MagnitudeOf(gs[|gs| - 1]));
    SumPositive(gs);
    WholeText(text, toks, ws, s');
  }

  // ----- a number behind the groups, at the end of the text -------------------------------------

  /** The groups are complete, nothing is pending, and `scale` was the last of them. */
  predicate Closed(s: State, m: Magnitude) {
    Ready(s) && s.seenBig && s.hasNumber && s.total > 0.0 && s.lastScale == Is(Base(m))
  }

  /** A state that takes a bare digit as hundreds. */
  predicate TakesDigits(s: State) { BigEnough(s) && s.slang == {} }

  /** One digit other than zero. */
  predicate IsFigure(w: Text) { |w| == 1 && w[0].Dig? && w[0].digit > 0 }

  lemma FigureValue(w: Text)
    requires IsNumeral(w)
    ensures IsFigure(w) <==> |w| == 1 && All(w, Digits) && ValueOf(w) > 0.0
    ensures IsFigure(w) ==> ValueOf(w) == w[0].digit as real
  {
    if |w| == 1 {
      assert w == [w[0]] && w[..0] == [];
      assert All(w, Digits);
      DigitsNumeral(w);
    }
    hide BodyLen, ValueOf;
  }

  /** The state in which the digit `d` has been taken as hundreds of the last scale. */
  function Taken(s: State, d: real, m: Magnitude, end: nat): State {
    s.(section := s.section + HundredsOf(d, Base(m)), hasNonzero := true, end := end)
  }

  lemma NumberBehind(text: Text, toks: seq<Tok>, ws: seq<Text>, k: nat, s: State, m: Magnitude)
    requires k + 1 == |toks| == |ws| && ReadsAt(text, toks, ws, k) && IsNumeral(ws[k]) && Closed(s, m)
    ensures IsFigure(ws[k]) && TakesDigits(s) ==> ReadingOf(text, toks, k, s).Hundreds?
    ensures Step(text, toks, k, s)
         == if IsFigure(ws[k]) && TakesDigits(s) then Go(Taken(s, ws[k][0].digit as real, m, toks[k].end), 1)
            else Stop(s.(ambiguousTail := true))
  {
    hide ShorthandAhead, GluedWord, ValueOf, StandsFree, WordOf, Base, HundredsOf, From, BodyLen, All, IsFigure;
    FreeOfGlue(text, toks, ws, k);
    FigureValue(ws[k]);
  }

  /** A refused run, and what the scan finds when it starts again behind it. */
  lemma RefusedThen(text: Text, toks: seq<Tok>, k: nat, s: State)
    requires 0 < k <= |toks| && RunAt(text, toks, 0) == Outcome(s, k) && s.ambiguousTail
    ensures Scan(text, toks, 0) == Scan(text, toks, k)
  {
    hide Run, RunAt, Scan, Judge;
    ScanUnfolds(text, toks, 0);
    ConsumedStarts(text, toks, 0);
    FlaggedRefused(text, toks, 0, k, s);
  }

  lemma ScaleIsNoIdentifier(text: Text, toks: seq<Tok>, ws: seq<Text>, k: nat)
    requires 0 < k < |toks| == |ws| && ReadsAt(text, toks, ws, k - 1)
    requires All(ws[k - 1], Letters) && WordFor(ws[k - 1]).Scale?
    ensures !IsIdentifierTok(Prev(toks, k))
  {
    hide WordOf, BodyLen;
    assert In(ws[k - 1][0], Letters);
  }

  /** Where `w` starts when it ends `text`. */
  function StartOf(text: Text, w: Text): nat { if |w| <= |text| then |text| - |w| else 0 }

  /** A numeral that is found by itself at the end of the text, or nothing. */
  function ByItself(w: Text, text: Text): seq<Match> {
    if IsBare(w) then [Match(RoundHalfUp(ValueOf(w)), w, StartOf(text, w), |text|)] else []
  }

  /** What groups are worth with `d` tenths of the last scale behind them. */
  function WithTenths(gs: seq<Group>, d: nat): int
    requires gs != [] && AreGroups(gs)
  {
    RoundHalfUp(ReadSum(gs) + Tenths(d, MagnitudeOf(gs[|gs| - 1])) as real)
  }

  /** What is found when complete groups are followed by the numeral `w` at the end of the text. */
  function WithNumber(gs: seq<Group>, w: Text, text: Text): seq<Match>
    requires gs != [] && AreGroups(gs)
  {
    if IsFigure(w) && Abbreviates(gs) then [Match(WithTenths(gs, w[0].digit), text, 0, |text|)] else ByItself(w, text)
  }

  lemma AbbreviatingState(gs: seq<Group>, s: State)
    requires gs != [] && AreGroups(gs) && s.slang == NounsOf(gs)
    requires s.lastScale == Is(Base(MagnitudeOf(gs[|gs| - 1])))
    ensures TakesDigits(s) <==> Abbreviates(gs)
  {
    hide WordOf, MagnitudeOf, NounsOf, Base, Unit;
    BigUnit(MagnitudeOf(gs[|gs| - 1]));
  }

  /** Everything a numeral at the end of the text can do behind complete groups. One digit gives the
      hundreds of the last scale, if the groups allow it. Any other numeral makes the groups
      ambiguous, so they are refused, and the numeral is money only if it is by itself. */
  lemma TrailingNumber(gs: seq<Group>, w: Text)
    requires gs != [] && AreGroups(gs) && IsNumeral(w)
    ensures Amounts(Join(GroupWords(gs) + [w])) == WithNumber(gs, w, Join(GroupWords(gs) + [w]))
  {
    hide WordOf, Lex, Run, Reads, Join, Scan, Base, ReadsAt, MagnitudeOf, IsBare, Abbreviates, TakesDigits,
      NounsOf, ReadSum, Tenths, ValueOf, BodyLen, RoundHalfUp, IsFigure, Taken, GrandTotal, RunAt, Step;
    var ws, k := GroupWords(gs) + [w], 2 * |gs|;
    var text := Join(ws);
    var toks := Tokens(text);
    var m := MagnitudeOf(gs[|gs| - 1]);
    var s := Opening(gs, [w], ws);
    SumPositive(gs);
    AbbreviatingState(gs, s);
    ReadsHere(text, toks, ws, k);
    NumberBehind(text, toks, ws, k, s, m);
    if IsFigure(w) && Abbreviates(gs) {
      RunUnfolds(text, toks, k, s);
      TakenFinishes(text, toks, s, m, w[0].digit, toks[k].end);
      WholeText(text, toks, ws, Taken(s, w[0].digit as real, m, toks[k].end));
    } else {
      NumberRefuses(text, toks, ws, k, s, m);
    }
  }

  lemma TakenFinishes(text: Text, toks: seq<Tok>, s: State, m: Magnitude, d: nat, end: nat)
    requires Closed(s, m)
    ensures var s' := Taken(s, d as real, m, end);
            Run(text, toks, |toks|, s') == Outcome(s', |toks|)
            && s'.hasNumber && s'.seenBig && s'.hasNonzero && Unflagged(s')
            && GrandTotal(s') == s.total + Tenths(d, m) as real
  {
    hide Run, Base, HundredsOf, Tenths;
    RunUnfolds(text, toks, |toks|, Taken(s, d as real, m, end));
    HundredsUnit(d, m);
  }

  /** A numeral behind complete groups is a tail that a mark takes away exactly if it stands for the
      hundreds of the last scale. */
  lemma NumberOpensTail(gs: seq<Group>, w: Text)
    requires gs != [] && AreGroups(gs) && IsNumeral(w)
    ensures EndsInShorthand(Join(GroupWords(gs) + [w])) <==> IsFigure(w) && Abbreviates(gs)
  {
    hide WordOf, Lex, Run, Reads, Join, Base, ReadsAt, MagnitudeOf, Abbreviates, TakesDigits, NounsOf, ReadSum,
      Step, Tenths, EndsInShorthand, Amounts, GroupWords, BodyLen, ValueOf, IsFigure, ReadingOf, RoundHalfUp;
    var ws, k := GroupWords(gs) + [w], 2 * |gs|;
    var text := Join(ws);
    var toks := Tokens(text);
    var s := Opening(gs, [w], ws);
    ReadsHere(text, toks, ws, k);
    SumPositive(gs);
    AbbreviatingState(gs, s);
    NumberBehind(text, toks, ws, k, s, MagnitudeOf(gs[|gs| - 1]));
    NumeralTok(text, toks, ws, k);
    if IsFigure(w) && Abbreviates(gs) {
      assert TailTaken(text, toks, k, s);
      FirstRunOpen(text);
    } else if EndsInShorthand(text) {
      ShorthandIsShort(text);
      ShortIsFigure(text, toks, ws, k);
      TailFound(text);
      TrailingNumber(gs, w);
      FigureIsNotBare(w);
    }
  }

  lemma NumeralTok(text: Text, toks: seq<Tok>, ws: seq<Text>, k: nat)
    requires k < |toks| == |ws| && ReadsAt(text, toks, ws, k) && IsNumeral(ws[k])
    ensures toks[k].Num? && toks[k].text == ws[k] && toks[k].value == ValueOf(ws[k]) && toks[k].implied.Absent?
  {
    hide StandsFree, WordOf, ValueOf, BodyLen;
  }

  lemma ShortIsFigure(text: Text, toks: seq<Tok>, ws: seq<Text>, k: nat)
    requires k < |toks| == |ws| && ReadsAt(text, toks, ws, k) && IsNumeral(ws[k]) && IsShortTail(toks[k])
    ensures IsFigure(ws[k])
  {
    hide ReadsAt, ValueOf, BodyLen, IsFigure;
    NumeralTok(text, toks, ws, k);
    FigureValue(ws[k]);
  }

  lemma FigureIsNotBare(w: Text)
    requires IsFigure(w)
    ensures !IsBare(w)
  {
    hide ValueOf;
    assert w[1..] == [] && DigitCount(w) == 1;
  }

  /** A tail that a mark takes away is an amount. */
  lemma TailFound(text: Text)
    requires EndsInShorthand(text)
    ensures Amounts(text) != []
  {
    hide EndsInShorthand, Amounts;
    MarkRefusesTail(text, Sym(','));
  }

  /** "2 triệu 5" is an amount, "2 triệu 5," is none. */
  lemma MarkTakesTail(gs: seq<Group>, w: Text, c: Ch)
    requires gs != [] && AreGroups(gs) && IsNumeral(w) && IsFigure(w) && Abbreviates(gs) && Separates(c, [])
    ensures Amounts(Join(GroupWords(gs) + [w]) + [c]) == []
  {
    hide EndsInShorthand, Amounts, Join, GroupWords, IsGroup, Separates, Abbreviates, Tenths, MagnitudeOf, BodyLen,
      IsFigure, RoundHalfUp, ReadSum;
    NumberOpensTail(gs, w);
    TrailingNumber(gs, w);
    MarkRefusesTail(Join(GroupWords(gs) + [w]), c);
  }

  /** A run over the whole text with the total `n` yields exactly `n`. */
  lemma AmountIs(text: Text, toks: seq<Tok>, ws: seq<Text>, s: State, n: nat)
    requires toks == Tokens(text) && Reads(text, toks, ws) && n > 0
    requires RunAt(text, toks, 0) == Outcome(s, |toks|) && GrandTotal(s) == n as real
    requires s.hasNumber && s.seenBig && s.hasNonzero && Unflagged(s)
    ensures Amounts(text) == [Match(n, text, 0, |text|)]
  {
    hide Lex, RunAt, Reads, Scan, GrandTotal;
    WholeText(text, toks, ws, s);
    RoundWhole(n);
  }

  lemma NumberRefuses(text: Text, toks: seq<Tok>, ws: seq<Text>, k: nat, s: State, m: Magnitude)
    requires toks == Tokens(text) && Reads(text, toks, ws) && 0 < k && k + 1 == |toks| == |ws| && IsNumeral(ws[k])
    requires All(ws[k - 1], Letters) && WordFor(ws[k - 1]).Scale? && Closed(s, m)
    requires !(IsFigure(ws[k]) && TakesDigits(s))
    requires RunAt(text, toks, 0) == Run(text, toks, k, s)
    ensures Amounts(text) == ByItself(ws[k], text)
  {
    hide Lex, Run, Reads, Step, Base, HundredsOf, ReadsAt, Scan, RunAt, BigEnough, IsFigure, IsBare, ValueOf,
      BodyLen, RoundHalfUp, WordOf;
    ReadsHere(text, toks, ws, k);
    ReadsHere(text, toks, ws, k - 1);
    NumberBehind(text, toks, ws, k, s, m);
    RunUnfolds(text, toks, k, s);
    RefusedThen(text, toks, k, s.(ambiguousTail := true));
    ScaleIsNoIdentifier(text, toks, ws, k);
    LastNumber(text, toks, ws, k);
    LastStart(text, toks, ws, k);
  }

  lemma LastStart(text: Text, toks: seq<Tok>, ws: seq<Text>, k: nat)
    requires Reads(text, toks, ws) && k + 1 == |ws|
    ensures k < |toks| && toks[k].start + |ws[k]| == |text|
  {
    hide WordOf, ValueOf, StandsFree, BodyLen;
    assert ReadsAt(text, toks, ws, k);
  }
}
