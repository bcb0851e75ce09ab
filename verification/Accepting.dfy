/** Steps and verdicts over texts written with single spaces. */
module Accepting {
  import opened Text
  import opened Vocabulary
  import opened Lexer
  import opened Lexing
  import opened Machine
  import opened Invariants
  import opened Guarantees
  import opened OpenTail
  import opened Words

  /** Behind a chunk stands no scale letter and no glued word. */
  lemma FreeOfGlue(text: Text, toks: seq<Tok>, ws: seq<Text>, k: nat)
    requires k < |toks| == |ws| && ReadsAt(text, toks, ws, k)
    ensures !ShorthandAhead(From(text, toks[k].end)) && !GluedWord(toks[k], Peek(toks, k + 1))
  {
    hide WordOf, ValueOf, BodyLen;
    var e := toks[k].end;
    if text[e..] != [] { assert text[e..][0] == text[e]; }
  }

  lemma DigitCountAll(s: Text)
    requires All(s, Digits)
    ensures DigitCount(s) == |s|
  {
    if s != [] { DigitCountAll(s[1..]); }
  }

  /** The state after a number has been read as the start of a coefficient. */
  function Began(s: State, w: Text, end: nat): State {
    s.(current := Is(ValueOf(w)), fromDigits := All(w, Digits), digits := s.digits + DigitCount(w),
       hasNonzero := s.hasNonzero || ValueOf(w) != 0.0, hasNumber := true, end := end)
  }

  /** A number with nothing pending starts a coefficient, unless it stands behind a complete group
      without a scale of its own. */
  lemma NumberBegins(text: Text, toks: seq<Tok>, ws: seq<Text>, k: nat, s: State)
    requires k < |toks| == |ws| && ReadsAt(text, toks, ws, k) && IsNumeral(ws[k])
    requires s.current.Absent?
    requires s.seenBig ==> IsScaleTok(Peek(toks, k + 1)) && !IsHundredTok(Peek(toks, k + 1))
    ensures Step(text, toks, k, s) == Go(Began(s, ws[k], toks[k].end), 1)
  {
    hide ShorthandAhead, GluedWord, ValueOf, DigitCount, StandsFree, WordOf, IsScaleTok, BodyLen;
    FreeOfGlue(text, toks, ws, k);
    assert ReadingOf(text, toks, k, s) == First by { NotHundreds(toks, k, s); }
    hide ReadingOf;
  }

  lemma NotHundreds(toks: seq<Tok>, k: nat, s: State)
    requires k < |toks| && toks[k].Num?
    requires s.seenBig ==> IsScaleTok(Peek(toks, k + 1)) && !IsHundredTok(Peek(toks, k + 1))
    ensures !DigitShorthand(toks, k, s)
  {}

  /** A scale word closes the section and multiplies it. */
  lemma ScaleStep(text: Text, toks: seq<Tok>, ws: seq<Text>, k: nat, s: State)
    requires k < |toks| == |ws| && ReadsAt(text, toks, ws, k)
    requires All(ws[k], Letters) && IsNumberWord(WordFor(ws[k])) && !WordFor(ws[k]).Ones?
    ensures Step(text, toks, k, s) == Go(Multiply(s, WordFor(ws[k]), toks[k].end), 1)
  {
    hide Multiply, WordOf;
    assert In(ws[k][0], Letters);
  }

  // ----- a run over the whole text --------------------------------------------------------------

  lemma InvariantEnd(toks: seq<Tok>, i: nat, j: nat, s: State)
    requires RunInvariant(toks, i, j, s) && i < j
    ensures j <= |toks| && s.end == toks[j - 1].end && (s.seenBig ==> SomeScale(toks, i, j))
  {}

  /** A run that takes all the tokens, with a big scale and a positive total, is the one amount. */
  lemma WholeText(text: Text, toks: seq<Tok>, ws: seq<Text>, s: State)
    requires toks == Tokens(text) && Reads(text, toks, ws)
    requires RunAt(text, toks, 0) == Outcome(s, |toks|)
    requires s.hasNumber && s.seenBig && s.hasNonzero && Unflagged(s) && GrandTotal(s) > 0.0
    ensures Amounts(text) == [Match(RoundHalfUp(GrandTotal(s)), text, 0, |text|)]
  {
    hide Lex, Scan, RunAt, RunInvariant, SomeScale, CurrencyAhead, From, IsDigitText, ReadsAt, WellCut, Solid,
      InOrder, GrandTotal, RoundHalfUp;
    TokensLossless(text);
    RunAtKeeps(text, toks, 0);
    InvariantEnd(toks, 0, |toks|, s);
    ScaleShows(text, toks, 0, |toks|);
    assert Slice(text, 0, |text|) == text;
    ScanUnfolds(text, toks, 0);
    ScanEnd(text, toks);
    assert StartsRun(toks[0]) by { ConsumedStarts(text, toks, 0); }
  }

  lemma ConsumedStarts(text: Text, toks: seq<Tok>, i: nat)
    requires i < |toks| && RunAt(text, toks, i).next > i
    ensures StartsRun(toks[i])
  {
    hide Run, StepNum, StepOnes, Multiply;
    RunUnfolds(text, toks, i, Fresh(toks[i].end));
  }

  lemma RoundWhole(n: int)
    ensures RoundHalfUp(n as real) == n
  {}

  // ----- a number at the end of the text, read afresh -------------------------------------------

  /** The numerals that are money by themselves: four digits or more, not zero, and of the shape of
      neither a phone number nor a year. */
  predicate IsBare(w: Text) { DigitCount(w) >= 4 && ValueOf(w) > 0.0 && !IsPhoneShape(w) && !IsYearShape(w) }

  /** The same for canonical numbers. */
  predicate IsBareAmount(n: nat) { n >= 1000 && !(1900 <= n <= 2099) }

  lemma NothingAhead(text: Text)
    ensures !CurrencyAhead(From(text, |text|))
  {
    assert text[|text|..] == [];
    assert PrefixLen([], Spaces) == 0 && PrefixLen([], Letters) == 0;
  }

  lemma BareDecimal(n: nat)
    ensures IsBare(Decimal(n)) <==> IsBareAmount(n)
  {
    hide ValueOf, NatOf, DigitCount;
    DecimalLength(n);
    DecimalNumeral(n);
    NatOfDecimal(n);
    DigitCountAll(Decimal(n));
    if n == 0 { assert |Decimal(n)| == 1; }
  }

  /** A numeral at the end of a text, read as a run of its own. */
  lemma LastNumber(text: Text, toks: seq<Tok>, ws: seq<Text>, k: nat)
    requires toks == Tokens(text) && Reads(text, toks, ws) && k + 1 == |ws| && IsNumeral(ws[k])
    requires !IsIdentifierTok(Prev(toks, k))
    ensures Scan(text, toks, k)
         == if IsBare(ws[k]) then [Match(RoundHalfUp(ValueOf(ws[k])), ws[k], toks[k].start, |text|)] else []
  {
    hide Lex, Run, Step, Scan, Judge, ValueOf, StandsFree, WordOf, IsIdentifierTok, BodyLen, IsBare, DigitCount,
      RoundHalfUp;
    assert ReadsAt(text, toks, ws, k);
    var f := Fresh(toks[k].end);
    NumberBegins(text, toks, ws, k, f);
    RunUnfolds(text, toks, k, f);
    var s := Began(f, ws[k], toks[k].end);
    RunUnfolds(text, toks, k + 1, s);
    ScanUnfolds(text, toks, k);
    ScanEnd(text, toks);
    LastSlice(text, toks, ws, k);
    JudgeBare(text, toks, k, s, ws[k]);
  }

  lemma LastSlice(text: Text, toks: seq<Tok>, ws: seq<Text>, k: nat)
    requires Reads(text, toks, ws) && k + 1 == |ws| && toks == Tokens(text)
    ensures Slice(text, toks[k].start, |text|) == ws[k]
  {
    hide Lex, WellCut, Solid, WordOf, ValueOf, BodyLen;
    assert ReadsAt(text, toks, ws, k);
    TokensLossless(text);
  }

  lemma JudgeBare(text: Text, toks: seq<Tok>, k: nat, s: State, w: Text)
    requires k < |toks| && k + 1 == |toks|
    requires s == Began(Fresh(toks[k].end), w, |text|)
    requires Slice(text, toks[k].start, |text|) == w && !IsIdentifierTok(Prev(toks, k))
    ensures Judge(text, toks, k, k + 1, s)
         == if IsBare(w) then Some(Match(RoundHalfUp(ValueOf(w)), w, toks[k].start, |text|)) else None
  {
    hide Slice, CurrencyAhead, From, IsPhoneShape, IsYearShape, ValueOf, IsIdentifierTok, DigitCount, RoundHalfUp;
    NothingAhead(text);
    assert GrandTotal(s) == ValueOf(w);
  }

  /** A numeral by itself. */
  lemma PlainNumeral(w: Text)
    requires IsNumeral(w)
    ensures Amounts(w) == if IsBare(w) then [Match(RoundHalfUp(ValueOf(w)), w, 0, |w|)] else []
  {
    hide Lex, IsBare, Scan, ValueOf, BodyLen, RoundHalfUp, WordOf;
    JoinReads([w]);
    LastNumber(w, Tokens(w), [w], 0);
  }
}
