/** Which texts lose an amount to a mark behind them, told from the tokens of their last amount. */
module TailShape {
  import opened Text
  import opened Vocabulary
  import opened Lexer
  import opened Lexing
  import opened Machine
  import opened Invariants
  import opened Guarantees
  import opened Composition
  import opened Barrier
  import opened OpenTail

  // ----- what the tokens of a run say -----------------------------------------------------------

  /** No coefficient is left open by the tokens from `i` to `j`: behind fillers and "rưỡi", the last
      of them is a ten, a hundred or a scale. */
  predicate IsClosed(toks: seq<Tok>, i: nat, j: nat)
    requires i <= j <= |toks|
    decreases j - i
  {
    i == j
    || (toks[j - 1].Word?
        && match toks[j - 1].word
           case Tens(_) => true
           case Hundred => true
           case Scale(_, _) => true
           case Filler => IsClosed(toks, i, j - 1)
           case Halves => IsClosed(toks, i, j - 1)
           case _ => false)
  }

  function ScaleOf(t: Tok): Quantity {
    if t.Num? then t.implied else if t.Word? && t.word.Scale? then Is(Base(t.word.magnitude)) else Absent
  }

  /** The last scale fixed by the tokens. */
  function LastScale(toks: seq<Tok>, i: nat, j: nat): Quantity
    requires i <= j <= |toks|
    decreases j - i
  {
    if i == j then Absent
    else if ScaleOf(toks[j - 1]).Is? then ScaleOf(toks[j - 1])
    else LastScale(toks, i, j - 1)
  }

  predicate IsSlang(t: Tok) { t.Word? && t.word.Scale? && t.word.noun.Some? }

  predicate NoSlang(toks: seq<Tok>, i: nat, j: nat)
    requires i <= j <= |toks|
    decreases j - i
  {
    i == j || (!IsSlang(toks[j - 1]) && NoSlang(toks, i, j - 1))
  }

  /** The tokens are complete groups that end in a scale of a million or more, without slang. */
  predicate AwaitsTail(toks: seq<Tok>, i: nat, j: nat)
    requires i <= j <= |toks|
  {
    IsClosed(toks, i, j) && NoSlang(toks, i, j)
    && LastScale(toks, i, j).Is? && LastScale(toks, i, j).value >= 1000000.0
  }

  // ----- the state agrees with the tokens -------------------------------------------------------

  predicate Agrees(toks: seq<Tok>, i: nat, j: nat, s: State) {
    i <= j <= |toks|
    && (s.current.Absent? <==> IsClosed(toks, i, j))
    && (s.slang == {} <==> NoSlang(toks, i, j))
    && s.lastScale == LastScale(toks, i, j) && (s.seenBig <==> s.lastScale.Is?)
  }

  lemma OneMore(toks: seq<Tok>, i: nat, j: nat)
    requires i <= j < |toks|
    ensures IsClosed(toks, i, j + 1)
            <==> toks[j].Word?
                 && match toks[j].word
                    case Tens(_) => true
                    case Hundred => true
                    case Scale(_, _) => true
                    case Filler => IsClosed(toks, i, j)
                    case Halves => IsClosed(toks, i, j)
                    case _ => false
    ensures LastScale(toks, i, j + 1) == if ScaleOf(toks[j]).Is? then ScaleOf(toks[j]) else LastScale(toks, i, j)
    ensures NoSlang(toks, i, j + 1) <==> !IsSlang(toks[j]) && NoSlang(toks, i, j)
  {}

  lemma TakeAgrees(toks: seq<Tok>, i: nat, j: nat, s: State, digit: real)
    requires Agrees(toks, i, j, s) && j < |toks| && s.current.Absent? && ScaleOf(toks[j]).Absent? && !IsSlang(toks[j])
    requires TailConsumable(toks, j + 1)
    ensures var a := TakeHundreds(toks, j, s, digit);
            j + a.width < |toks| ==> Agrees(toks, i, j + a.width, a.state)
  {
    hide IsClosed, LastScale, NoSlang, HundredsOf;
    OneMore(toks, i, j);
    if j + 1 < |toks| { OneMore(toks, i, j + 1); }
  }

  lemma CountAgrees(toks: seq<Tok>, i: nat, j: nat, s: State, c: Quantity, nxt: Option<Tok>, digits: bool)
    requires Agrees(toks, i, j, s) && j < |toks| && toks[j].Num? && c.Is?
    ensures var a := Count(toks[j], nxt, s.(current := c, fromDigits := digits));
            a.Go? ==> a.width == 1 && Agrees(toks, i, j + 1, a.state)
  {
    hide IsClosed, LastScale, NoSlang, DigitCount, GluedWord, IsScaleTok;
    OneMore(toks, i, j);
  }

  lemma NumAgrees(text: Text, toks: seq<Tok>, i: nat, j: nat, s: State)
    requires Agrees(toks, i, j, s) && j < |toks| && toks[j].Num? && WellCut(toks[j])
    ensures var a := StepNum(text, toks, j, s); a.Go? && j + a.width < |toks| ==> Agrees(toks, i, j + a.width, a.state)
  {
    hide Agrees, TakeHundreds, Count, ReadingOf, IsEdge, ParseNumText, TailConsumable, JoinsGroup;
    var t, nxt := toks[j], Peek(toks, j + 1);
    match ReadingOf(text, toks, j, s) {
      case Hundreds => TakeAgrees(toks, i, j, s, t.value);
      case First =>
        CountAgrees(toks, i, j, s, Is(t.value), nxt, t.text != [] && All(t.text, Digits));
      case NextGroup =>
        CountAgrees(toks, i, j, s, Is(s.current.value * 1000.0 + t.value), nxt, s.fromDigits);
      case _ =>
    }
  }

  lemma OnesAgree(toks: seq<Tok>, i: nat, j: nat, s: State)
    requires Agrees(toks, i, j, s) && j < |toks| && toks[j].Word? && toks[j].word.Ones?
    ensures var a := StepOnes(toks, j, s); a.Go? && j + a.width < |toks| ==> Agrees(toks, i, j + a.width, a.state)
  {
    hide IsClosed, LastScale, NoSlang, TakeHundreds, TailConsumable, ClosingHundred, IsScaleTok, IsEdge;
    OneMore(toks, i, j);
    if SpokenShorthand(toks, j, s) || NamShorthand(toks, j, s) {
      assert TailConsumable(toks, j + 1) by { Consumable(toks, j + 1); }
      TakeAgrees(toks, i, j, s, toks[j].word.digit as real);
    }
  }

  lemma Consumable(toks: seq<Tok>, j: nat)
    ensures ClosingHundred(toks, j) ==> TailConsumable(toks, j)
  {}

  lemma WordAgrees(toks: seq<Tok>, i: nat, j: nat, s: State)
    requires Agrees(toks, i, j, s) && j < |toks| && toks[j].Word? && IsNumberWord(toks[j].word) && !toks[j].word.Ones?
    ensures Agrees(toks, i, j + 1, Multiply(s, toks[j].word, toks[j].end))
  {
    hide IsClosed, LastScale, NoSlang, Scaled, Base;
    OneMore(toks, i, j);
    match toks[j].word {
      case Filler =>
      case Tens(_) =>
      case Hundred =>
      case Scale(_, noun) => if noun.Some? { assert noun.value in s.slang + {noun.value}; }
      case Half =>
      case Halves =>
    }
  }

  /** A step that goes on and is not the last keeps the agreement. */
  lemma StepAgrees(text: Text, toks: seq<Tok>, i: nat, j: nat, s: State)
    requires Agrees(toks, i, j, s) && j < |toks| && WellCut(toks[j])
    ensures var a := Step(text, toks, j, s); a.Go? && j + a.width < |toks| ==> Agrees(toks, i, j + a.width, a.state)
  {
    hide StepNum, StepOnes, Multiply, Agrees, ParseNumText, WordOf;
    var t := toks[j];
    if t.Num? {
      NumAgrees(text, toks, i, j, s);
    } else if t.Word? && t.word.Ones? {
      OnesAgree(toks, i, j, s);
    } else if t.Word? && IsNumberWord(t.word) {
      WordAgrees(toks, i, j, s);
    }
  }

  lemma FreshAgrees(toks: seq<Tok>, i: nat)
    requires i < |toks|
    ensures Agrees(toks, i, i, Fresh(toks[i].end))
  {}

  // ----- a taken tail, and the tokens before it -------------------------------------------------

  lemma TakesAwaited(text: Text, toks: seq<Tok>, i: nat, j: nat, s: State)
    requires Agrees(toks, i, j, s) && j + 1 == |toks| && Takes(text, toks, j, s)
    ensures AwaitsTail(toks, i, j)
  {
    hide IsClosed, LastScale, NoSlang, ShorthandAhead, From, All;
  }

  lemma {:induction false} TakenAwaited(text: Text, toks: seq<Tok>, i: nat, j: nat, s: State)
    requires Sensible(toks) && Agrees(toks, i, j, s) && TailTaken(text, toks, j, s)
    ensures i < |toks| && AwaitsTail(toks, i, |toks| - 1) && IsShortTail(toks[|toks| - 1])
    decreases |toks| - j
  {
    hide Step, Takes, WellCut, Agrees, AwaitsTail, IsShortTail;
    assert i <= j by { AgreesRange(toks, i, j, s); }
    assert toks[j] in toks;
    if j + 1 == |toks| {
      TakesAwaited(text, toks, i, j, s);
      TakenIsShort(text, toks, j, s);
    } else {
      var a := Step(text, toks, j, s);
      StepAgrees(text, toks, i, j, s);
      TakenAwaited(text, toks, i, j + a.width, a.state);
    }
  }

  lemma AgreesRange(toks: seq<Tok>, i: nat, j: nat, s: State)
    requires Agrees(toks, i, j, s)
    ensures i <= j <= |toks|
  {}

  /** The last step of a run that goes through to the end takes the tail that was awaited. */
  lemma AwaitedTakes(text: Text, toks: seq<Tok>, i: nat, j: nat, s: State)
    requires Agrees(toks, i, j, s) && j + 1 == |toks| && WellCut(toks[j]) && Unflagged(s) && Step(text, toks, j, s).Go?
    requires AwaitsTail(toks, i, j) && IsShortTail(toks[j])
    ensures Takes(text, toks, j, s)
  {
    hide IsClosed, LastScale, NoSlang, ShorthandAhead, From, ParseNumText, WordOf, Count, TakeHundreds;
    assert Peek(toks, j + 1).None?;
    if toks[j].Num? { assert All(toks[j].text, Digits); }
  }

  /** No step jumps over a last token that is a short tail. */
  lemma NoJump(text: Text, toks: seq<Tok>, j: nat, s: State)
    requires j + 1 < |toks| && Step(text, toks, j, s).Go? && IsShortTail(toks[|toks| - 1])
    ensures j + Step(text, toks, j, s).width < |toks|
  {
    hide ReadingOf, HundredsOf, Multiply, DigitCount, GluedWord, SpokenShorthand, NamShorthand, IsScaleTok;
  }

  lemma {:induction false} AwaitedTaken(text: Text, toks: seq<Tok>, i: nat, j: nat, s: State)
    requires Sensible(toks) && Agrees(toks, i, j, s) && Unflagged(s) && j < |toks|
    requires Run(text, toks, j, s).next == |toks| && i < |toks| && AwaitsTail(toks, i, |toks| - 1)
    requires IsShortTail(toks[|toks| - 1])
    ensures TailTaken(text, toks, j, s)
    decreases |toks| - j
  {
    hide Run, Step, Takes, WellCut, Agrees, AwaitsTail, IsShortTail, Unflagged;
    assert toks[j] in toks;
    RunUnfolds(text, toks, j, s);
    var a := Step(text, toks, j, s);
    if j + 1 == |toks| {
      AwaitedTakes(text, toks, i, j, s);
    } else {
      NoJump(text, toks, j, s);
      StepAgrees(text, toks, i, j, s);
      StepUnflagged(text, toks, j, s);
      AwaitedTaken(text, toks, i, j + a.width, a.state);
    }
  }

  // ----- the texts that lose an amount ----------------------------------------------------------

  /** `m`, which starts at token `i`, goes to the last token; this is one digit or one of the eight
      numerals, and before it stand complete groups that end in a scale of a million or more. */
  predicate EndsInTail(toks: seq<Tok>, m: Match, i: nat) {
    i < |toks| && m.start == toks[i].start && m.end == toks[|toks| - 1].end
    && IsShortTail(toks[|toks| - 1]) && AwaitsTail(toks, i, |toks| - 1)
  }

  lemma {:induction false} OpenHasTail(text: Text, toks: seq<Tok>, k: nat) returns (m: Match, i: nat)
    requires k <= |toks| && Sensible(toks) && InOrder(text, toks) && OpenEnded(text, toks, k)
    ensures m in Scan(text, toks, k) && EndsInTail(toks, m, i)
    decreases |toks| - k
  {
    hide RunAt, Judge, Scan, TailTaken, WellCut, InOrder, AwaitsTail, IsShortTail, Agrees;
    ScanUnfolds(text, toks, k);
    if !StartsRun(toks[k]) {
      m, i := OpenHasTail(text, toks, k + 1);
    } else if TailTaken(text, toks, k, Fresh(toks[k].end)) {
      i := k;
      FreshAgrees(toks, k);
      TakenAwaited(text, toks, k, k, Fresh(toks[k].end));
      TailJudged(text, toks, k);
      JudgeEmits(text, toks, k);
      var r := RunAt(text, toks, k);
      m := Judge(text, toks, k, r.next, r.state).value;
      EmittedRange(text, toks, k, r.next, m);
    } else {
      m, i := OpenHasTail(text, toks, NextStart(k, RunAt(text, toks, k).next));
    }
  }

  lemma FoundOpens(text: Text, toks: seq<Tok>, k: nat, m: Match, i: nat)
    requires k < |toks| && Sensible(toks) && InOrder(text, toks) && StartsRun(toks[k]) && EndsInTail(toks, m, i)
    requires var r := RunAt(text, toks, k); Judge(text, toks, k, r.next, r.state) == Some(m)
    ensures OpenEnded(text, toks, k)
  {
    hide Run, Judge, WellCut, TailTaken, AwaitsTail, IsShortTail, Agrees, Emitted;
    JudgeEmits(text, toks, k);
    var j := RunAt(text, toks, k).next;
    EmittedRange(text, toks, k, j, m);
    SamePlace(text, toks, k, i, j);
    FreshAgrees(toks, k);
    AwaitedTaken(text, toks, k, k, Fresh(toks[k].end));
  }

  /** Tokens with the same start, or with the same end, are the same. */
  lemma SamePlace(text: Text, toks: seq<Tok>, k: nat, i: nat, j: nat)
    requires InOrder(text, toks) && k < |toks| && i < |toks| && 0 < j <= |toks|
    requires toks[k].start == toks[i].start && toks[j - 1].end == toks[|toks| - 1].end
    ensures k == i && j == |toks|
  {
    assert toks[k].start < toks[k].end && toks[i].start < toks[i].end;
    assert toks[|toks| - 1].start < toks[|toks| - 1].end;
  }

  lemma {:induction false} TailIsOpen(text: Text, toks: seq<Tok>, k: nat, m: Match, i: nat)
    requires k <= |toks| && Sensible(toks) && InOrder(text, toks) && m in Scan(text, toks, k) && EndsInTail(toks, m, i)
    ensures OpenEnded(text, toks, k)
    decreases |toks| - k
  {
    hide RunAt, Judge, Scan, TailTaken, WellCut, InOrder, EndsInTail;
    if k == |toks| {
      ScanEnd(text, toks);
    } else {
      ScanUnfolds(text, toks, k);
      if !StartsRun(toks[k]) {
        TailIsOpen(text, toks, k + 1, m, i);
      } else {
        var r := RunAt(text, toks, k);
        if Judge(text, toks, k, r.next, r.state) == Some(m) {
          FoundOpens(text, toks, k, m, i);
        } else {
          TailIsOpen(text, toks, NextStart(k, r.next), m, i);
        }
      }
    }
  }

  /** The last amount goes to the last token and is made of complete groups, the last of a million or
      more and none of them slang, with one digit or one of the eight numerals behind them. */
  ghost predicate LosesTail(text: Text) { exists m, i :: m in Amounts(text) && EndsInTail(Tokens(text), m, i) }

  /** The texts that lose an amount to a mark, exactly. */
  lemma ShorthandExactly(text: Text)
    ensures EndsInShorthand(text) <==> LosesTail(text)
  {
    hide Lex, Scan, OpenEnded, EndsInTail, WellCut, Solid, InOrder;
    TokensLossless(text);
    var toks := Tokens(text);
    if EndsInShorthand(text) {
      var m, i := OpenHasTail(text, toks, 0);
      assert m in Amounts(text) && EndsInTail(toks, m, i);
    }
    if LosesTail(text) {
      var m, i :| m in Amounts(text) && EndsInTail(toks, m, i);
      TailIsOpen(text, toks, 0, m, i);
    }
  }

  /** The punctuation barrier in these terms: the amounts of two texts with a mark between them are the
      amounts of each, less the last amount of the first if it ends in such a tail. */
  lemma BarrierExactly(a: Text, c: Ch, b: Text)
    requires Separates(c, b)
    ensures LosesTail(a) ==> |Amounts(a)| > 0
    ensures Amounts(a + [c] + b)
         == (if LosesTail(a) then Amounts(a)[..|Amounts(a)| - 1] else Amounts(a)) + ShiftMatches(Amounts(b), |a| + 1)
  {
    hide Amounts, LosesTail, EndsInShorthand, Separates;
    ShorthandExactly(a);
    PunctuationBarrier(a, c, b);
  }
}
