/** Number words without a scale: they are money only if a currency suffix says so ("hai trăm đồng" against
    "hai trăm" and "hai trăm bao"). */
module PricedWords {
  import opened Text
  import opened Vocabulary
  import opened Lexer
  import opened Lexing
  import opened Machine
  import opened Invariants
  import opened Guarantees
  import opened Composition
  import opened Barrier
  import opened OpenTail
  import opened Words
  import opened Accepting
  import opened SpokenTails
  import opened Suffixes
  import opened Followers
  import opened Coefficients

  /** A coefficient made of words, with no numeral in digits. */
  predicate IsWordy(c: Coefficient) {
    CoefficientWords(c) != [] && IsCoefficient(c, false)
    && forall k | 0 <= k < |CoefficientWords(c)| :: IsWord(CoefficientWords(c)[k])
  }

  /** The text does not go on with a number: it is blank, or opens with a mark or a plain word. */
  predicate EndsRun(t: Text) { Tokens(t) == [] || Tokens(t)[0].Other? || IsPlainTok(Tokens(t)[0]) }

  lemma CoefficientChunks(c: Coefficient)
    requires IsCoefficient(c, false)
    ensures AreChunks(CoefficientWords(c))
  {
    hide WordOf, IsNumeral, Fits, SegmentsFit;
    SegmentsAreChunks(c.segments, false);
    ItemsAreChunks(c.last, false, false);
  }

  /** The run over the words, in front of any text. */
  lemma WordyRun(c: Coefficient, t: Text) returns (s: State)
    requires IsWordy(c)
    ensures var a, n := Join(CoefficientWords(c)), |CoefficientWords(c)|;
            var text, toks := a + [BLANK] + t, Joined(a, t);
            |Tokens(a)| == n && RunAt(text, toks, 0) == Run(text, toks, n, s) && toks[0].start == 0
            && toks[n - 1].end == |a|
            && forall k | 0 <= k < n :: toks[k].Word? && toks[k].text == CoefficientWords(c)[k]
    ensures At(s, false, 0.0, SegmentsWorth(c.segments), Plus(Absent, c.last), IsMeant(c))
  {
    hide Lex, WordOf, Join, ReadsAt, Run, ValueOf, IsNumeral, SegmentsWorth, Tally, IsCoefficient, CoefficientWords,
      Counts, IsWord, IsMeant;
    var ws := CoefficientWords(c);
    var a := Join(ws);
    CoefficientChunks(c);
    JoinReads(ws);
    ReadsEnds(a, Tokens(a), ws);
    var text, toks := a + [BLANK] + t, Joined(a, t);
    var vs := Padded(ws, |toks|);
    PartRead(a, t, ws, vs);
    assert vs[0..|ws|] == ws;
    s := CoefficientRun(text, toks, vs, 0, Fresh(toks[0].end), c, false, 0.0, false);
    forall k | 0 <= k < |ws| ensures toks[k].Word? && toks[k].text == ws[k] {
      assert vs[..|ws|][k] == vs[k];
      WordText(text, toks, vs, k);
    }
  }

  lemma WordText(text: Text, toks: seq<Tok>, ws: seq<Text>, k: nat)
    requires k < |toks| == |ws| && ReadsAt(text, toks, ws, k) && IsWord(ws[k])
    ensures toks[k].Word? && toks[k].text == ws[k]
  {
    hide WordOf, StandsFree, ValueOf, BodyLen;
    assert In(ws[k][0], Letters);
  }

  lemma {:induction false} NoDigits(toks: seq<Tok>, i: nat, j: nat)
    requires i <= j <= |toks| && forall k | i <= k < j :: toks[k].Word?
    ensures DigitsIn(toks, i, j) == 0
    decreases j - i
  {
    if i < j { NoDigits(toks, i, j - 1); }
  }

  /** Where the run ends, and what it has counted. */
  lemma WordyEnd(c: Coefficient, t: Text) returns (s: State)
    requires IsWordy(c) && EndsRun(t)
    ensures var a, n := Join(CoefficientWords(c)), |CoefficientWords(c)|;
            var text, toks := a + [BLANK] + t, Joined(a, t);
            |Tokens(a)| == n && RunAt(text, toks, 0) == Outcome(s, n) && toks[0].start == 0 && s.end == |a|
            && toks[0].Word? && toks[0].text == CoefficientWords(c)[0]
    ensures Unflagged(s) && !s.seenBig && s.slang == {} && s.digits == 0
    ensures GrandTotal(s) == CoefficientWorth(c) && s.hasNonzero == IsMeant(c)
    ensures CoefficientWorth(c) > 0.0 ==> s.hasNumber
  {
    hide Lex, WordOf, Join, Run, RunAt, ValueOf, SegmentsWorth, Tally, IsWordy, CoefficientWords, Counts, IsMeant,
      WellCut, Solid, SomeScale, SomeNonzero, InOrder, EndsRun;
    WordyIsSome(c);
    var ws := CoefficientWords(c);
    var a, n := Join(ws), |ws|;
    var text, toks := a + [BLANK] + t, Joined(a, t);
    s := WordyRun(c, t);
    EndStops(text, toks, n, s, a, t);
    TokensAcrossSpace(a, BLANK, t);
    TokensLossless(text);
    RunAtKeeps(text, toks, 0);
    NoDigits(toks, 0, n);
    NothingTallied(c);
  }

  lemma WordyIsSome(c: Coefficient)
    requires IsWordy(c)
    ensures CoefficientWords(c) != []
  {
    hide CoefficientWords, IsCoefficient, IsWord;
  }

  lemma NothingTallied(c: Coefficient)
    ensures SegmentsWorth(c.segments) + OrZero(Plus(Absent, c.last)) == CoefficientWorth(c)
  {
    hide SegmentsWorth, Tally, Counts;
    TallyOfNothing(c.last);
  }

  lemma EndStops(text: Text, toks: seq<Tok>, n: nat, s: State, a: Text, t: Text)
    requires EndsRun(t) && toks == Joined(a, t) && n == |Tokens(a)|
    ensures Run(text, toks, n, s) == Outcome(s, n)
  {
    hide Lex;
    RunUnfolds(text, toks, n, s);
    if n < |toks| { assert toks[n] == Shift(Tokens(t)[0], |a| + 1); }
  }

  /** Number words without a scale before any text that does not go on with them: an amount iff they count
      more than zero and a currency suffix stands behind them. */
  lemma WordsThenText(c: Coefficient, t: Text)
    requires IsWordy(c) && EndsRun(t)
    ensures var a := Join(CoefficientWords(c));
            Amounts(a + [BLANK] + t)
            == (if CoefficientWorth(c) > 0.0 && IsPriced([BLANK] + t)
                then [Match(RoundHalfUp(CoefficientWorth(c)), a, 0, |a|)] else [])
               + ShiftMatches(Amounts(t), |a| + 1)
  {
    hide Lex, Scan, Run, RunAt, Judge, Join, WordOf, CoefficientWorth, IsWordy, IsMeant, IsPriced, EndsRun, RoundHalfUp,
      ShiftMatches, IsIdentifierTok, CurrencyAhead, CoefficientWords;
    WordyIsSome(c);
    var a, n := Join(CoefficientWords(c)), |CoefficientWords(c)|;
    var text, toks := a + [BLANK] + t, Joined(a, t);
    TokensAcrossSpace(a, BLANK, t);
    var s := WordyEnd(c, t);
    MeantIfWorth(c);
    PricedExactly([BLANK] + t);
    assert text[|a|..] == [BLANK] + t && Slice(text, 0, |a|) == a;
    FirstLetter(c);
    WordyJudged(text, toks, n, s, a);
    ConsumedStarts(text, toks, 0);
    ScanUnfolds(text, toks, 0);
    LastIsNumber(c, t);
    BehindPrefix(a + [BLANK], Tokens(a), t);
    assert (a + [BLANK]) + t == text;
  }

  lemma MeantIfWorth(c: Coefficient)
    ensures CoefficientWorth(c) > 0.0 ==> IsMeant(c)
  {
    hide Tally, Counts, WordOf;
  }

  lemma FirstLetter(c: Coefficient)
    requires IsWordy(c)
    ensures var a := Join(CoefficientWords(c)); a != [] && a[0].Let?
  {
    hide CoefficientWords, IsCoefficient;
    var ws := CoefficientWords(c);
    assert IsWord(ws[0]) && In(ws[0][0], Letters);
    if |ws| == 1 { assert Join(ws) == ws[0]; } else { assert Join(ws)[0] == ws[0][0]; }
  }

  lemma WordyJudged(text: Text, toks: seq<Tok>, n: nat, s: State, a: Text)
    requires 0 < n <= |toks| && Slice(text, toks[0].start, s.end) == a && a != [] && a[0].Let?
    requires Unflagged(s) && !s.seenBig && s.slang == {} && s.digits == 0 && (GrandTotal(s) > 0.0 ==> s.hasNumber)
    requires GrandTotal(s) > 0.0 ==> s.hasNonzero
    ensures Judge(text, toks, 0, n, s)
         == if GrandTotal(s) > 0.0 && CurrencyAhead(From(text, s.end))
            then Some(Match(RoundHalfUp(GrandTotal(s)), a, toks[0].start, s.end)) else None
  {
    hide Slice, From, CurrencyAhead, RoundHalfUp, GrandTotal;
    assert !In(a[0], Digits);
    assert !IsDigitText(a);
    hide All;
  }

  lemma LastIsNumber(c: Coefficient, t: Text)
    requires IsWordy(c)
    ensures var a := Join(CoefficientWords(c)); Tokens(a) != [] && !IsIdentifierTok(Some(Tokens(a)[|Tokens(a)| - 1]))
  {
    hide Lex, Join, WordOf, ReadsAt, IsCoefficient, CoefficientWords;
    var ws := CoefficientWords(c);
    var a, k := Join(ws), |ws| - 1;
    CoefficientChunks(c);
    JoinReads(ws);
    ReadsHere(a, Tokens(a), ws, k);
    WordAt(a, Tokens(a), ws, k);
    LastWord(c);
  }

  lemma LastWord(c: Coefficient)
    requires IsCoefficient(c, false) && CoefficientWords(c) != []
    requires IsWord(CoefficientWords(c)[|CoefficientWords(c)| - 1])
    ensures IsNumberWord(WordFor(CoefficientWords(c)[|CoefficientWords(c)| - 1]))
  {
    hide WordOf, IsNumeral;
    if c.last != [] {
      LastItem(c.last, false);
    } else {
      LastTimes(c.segments);
    }
  }

  lemma {:induction false} LastItem(items: seq<Text>, pending: bool)
    requires Fits(items, false, pending) && items != [] && IsWord(items[|items| - 1])
    ensures IsNumberWord(WordFor(items[|items| - 1]))
    decreases |items|
  {
    hide WordOf, BodyLen;
    var w := items[|items| - 1];
    assert In(w[0], Letters);
    if |items| > 1 {
      LastItem(items[1..], IsNumeral(items[0]) || (if WordFor(items[0]).Filler? then pending else true));
    }
  }

  lemma {:induction false} LastTimes(gs: seq<Segment>)
    requires SegmentsFit(gs, false) && gs != []
    ensures var ws := SegmentWords(gs); ws != [] && IsNumberWord(WordFor(ws[|ws| - 1]))
    decreases |gs|
  {
    hide WordOf, Fits;
    var rest := gs[1..];
    if rest != [] {
      assert forall x | 0 <= x < |rest| :: rest[x] == gs[x + 1];
      LastTimes(rest);
      assert SegmentWords(gs)[|SegmentWords(gs)| - 1] == SegmentWords(rest)[|SegmentWords(rest)| - 1];
    } else {
      assert SegmentWords(rest) == [];
      assert SegmentWords(gs)[|SegmentWords(gs)| - 1] == gs[0].times;
    }
  }
}
