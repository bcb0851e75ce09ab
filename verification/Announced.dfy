/** A plain word in front of any text: it changes nothing, unless it announces an identifier; then it takes
    away exactly a first amount that rests on its digits alone ("mã 5000", but not "mã 5 triệu"). */
module Announced {
  import opened Text
  import opened Vocabulary
  import opened Lexer
  import opened Lexing
  import opened Machine
  import opened Invariants
  import opened Guarantees
  import opened Composition
  import opened Barrier
  import opened Words
  import opened SpokenTails
  import opened Suffixes

  /** The first amount of the text starts with its first token, has no scale in it, and no currency suffix
      behind it. */
  predicate RestsOnDigits(t: Text) {
    var ms, toks := Amounts(t), Tokens(t);
    ms != [] && toks != [] && ms[0].start == toks[0].start
    && (forall k | 0 <= k < |toks| && toks[k].end <= ms[0].end :: !FixesScale(toks[k]))
    && !IsPriced(From(t, ms[0].end))
  }

  /** The amounts that the word leaves to the text behind it. */
  function KeptBehind(w: Text, t: Text): seq<Match>
    requires WordFor(w).Plain?
  {
    if WordFor(w).identifier && RestsOnDigits(t) then Amounts(t)[1..] else Amounts(t)
  }

  /** The run at the first token of `t` is an amount that an identifier word would refuse. */
  predicate FirstRefused(t: Text) {
    var toks := Tokens(t);
    toks != [] && StartsRun(toks[0])
    && var Outcome(s, j) := RunAt(t, toks, 0);
       Judge(t, toks, 0, j, s).Some? && !s.seenBig && !CurrencyAhead(From(t, s.end))
  }

  /** Amounts found behind the first token do not start with it. */
  lemma LaterStart(t: Text, i: nat)
    requires 0 < i <= |Tokens(t)|
    ensures forall m | m in Scan(t, Tokens(t), i) :: m.start > Tokens(t)[0].start
  {
    hide Lex, Scan, WellCut, Solid;
    var toks := Tokens(t);
    TokensLossless(t);
    ScanEmits(t, toks, i);
    forall m | m in Scan(t, toks, i) ensures m.start > toks[0].start {
      var a, b :| i <= a && Emitted(t, toks, a, b, m);
      StartsThere(t, toks, a, b, m);
      assert toks[0].start < toks[0].end <= toks[a].start;
    }
  }

  lemma StartsThere(t: Text, toks: seq<Tok>, a: nat, b: nat, m: Match)
    requires Emitted(t, toks, a, b, m)
    ensures a < |toks| && m.start == toks[a].start
  {
    hide RunAt, Judge, SomeScale, SomeNonzero, DigitsIn, CurrencyAhead;
  }

  /** What the first run says about the first amount. */
  lemma FirstAmount(t: Text)
    requires Tokens(t) != [] && StartsRun(Tokens(t)[0])
    ensures var toks := Tokens(t);
            var Outcome(s, j) := RunAt(t, toks, 0);
            var first := Judge(t, toks, 0, j, s);
            Amounts(t) == Listed(first) + Scan(t, toks, NextStart(0, j))
            && (first.Some? ==> first.value.start == toks[0].start && first.value.end == s.end
                                && 0 < j && s.end == toks[j - 1].end
                                && (s.seenBig <==> SomeScale(toks, 0, j)))
  {
    hide Lex, Scan, Run, CurrencyAhead, LooksLikeIdentifier, SomeScale, SomeNonzero, DigitsIn, WellCut, Solid,
      InOrder, Slice, From, IsValid;
    TokensLossless(t);
    RunAtKeeps(t, Tokens(t), 0);
    ScanUnfolds(t, Tokens(t), 0);
  }

  lemma ScaleWithin(t: Text, j: nat)
    requires 0 < j <= |Tokens(t)|
    ensures var toks := Tokens(t);
            SomeScale(toks, 0, j)
            <==> exists k | 0 <= k < |toks| && toks[k].end <= toks[j - 1].end :: FixesScale(toks[k])
  {
    hide Lex, FixesScale, WellCut, Solid;
    var toks := Tokens(t);
    TokensLossless(t);
    if SomeScale(toks, 0, j) {
      var k :| 0 <= k < j && FixesScale(toks[k]);
      assert toks[k].end <= toks[j - 1].end by { if k < j - 1 { assert toks[k].end <= toks[j - 1].start; } }
    }
    assert forall x | j <= x < |toks| :: toks[j - 1].end <= toks[x].start < toks[x].end;
  }

  lemma RefusedRests(t: Text)
    ensures FirstRefused(t) <==> RestsOnDigits(t)
    ensures FirstRefused(t) ==> Amounts(t)[1..] == Scan(t, Tokens(t), NextStart(0, RunAt(t, Tokens(t), 0).next))
  {
    hide Lex, Scan, RunAt, CurrencyAhead, IsPriced, StartsRun, FixesScale, Judge, SomeScale, From;
    var toks := Tokens(t);
    if toks != [] && StartsRun(toks[0]) {
      FirstAmount(t);
      var Outcome(s, j) := RunAt(t, toks, 0);
      var first := Judge(t, toks, 0, j, s);
      LaterStart(t, NextStart(0, j));
      if first.Some? {
        ScaleWithin(t, j);
        PricedExactly(From(t, s.end));
        assert Amounts(t)[0] == first.value && Amounts(t)[1..] == Scan(t, toks, NextStart(0, j));
      } else if Amounts(t) != [] {
        assert Amounts(t)[0] in Scan(t, toks, NextStart(0, j));
      }
    } else if toks != [] {
      ScanUnfolds(t, toks, 0);
      LaterStart(t, 1);
      if Amounts(t) != [] { assert Amounts(t)[0] in Scan(t, toks, 1); }
    }
  }

  // ----- the law --------------------------------------------------------------------------------

  /** The first run of `v` in a text in which the token `first` stands before it. */
  predicate Led(v: View, w: View, p: Text, first: Tok) {
    v.toks != [] && InOrder(v.text, v.toks) && Sensible(v.toks)
    && w == View(p + v.text, [first] + ShiftAll(v.toks, |p|)) && first.Word? && first.word.Plain?
  }

  lemma RunBehind(v: View, w: View, p: Text, first: Tok)
    requires Led(v, w, p, first)
    ensures var Outcome(s, j) := RunAt(v.text, v.toks, 0);
            RunAt(w.text, w.toks, 1) == Outcome(ShiftState(s, |p|), j + 1) && j <= |v.toks|
            && s.end == v.toks[if 0 < j then j - 1 else 0].end
            && IsObjectTok(Peek(w.toks, j + 1), s.slang) == IsObjectTok(Peek(v.toks, j), s.slang)
  {
    hide Run, CurrencyAhead, IsObjectTok, WellCut, SameStep, SameText, From, Slice, SomeScale, SomeNonzero, DigitsIn,
      IsBase, Amounting, InOrder;
    RepeatsBehind(p, [first], v.text, v.toks);
    assert SameStep(v, w, 0, 1, |p|);
    RunSame(v, w, 0, |v.toks|, 1, |p|, 0, Fresh(v.toks[0].end));
    RunAtKeeps(v.text, v.toks, 0);
    var Outcome(s, j) := RunAt(v.text, v.toks, 0);
    FreshEnd(v.text, v.toks, 0);
    NextSame(v, w, |v.toks|, 1, |p|, j, s.slang);
  }

  lemma TextBehind(v: View, w: View, p: Text, first: Tok, k: nat)
    requires Led(v, w, p, first) && k < |v.toks|
    ensures var e := v.toks[k].end;
            CurrencyAhead(From(w.text, e + |p|)) == CurrencyAhead(From(v.text, e))
            && Slice(w.text, w.toks[1].start, e + |p|) == Slice(v.text, v.toks[0].start, e)
  {
    hide CurrencyAhead, WellCut, SameStep, From, Slice, InOrder;
    SameBehind(p, v.text, v.toks, w);
  }

  lemma FirstBehind(v: View, w: View, p: Text, first: Tok)
    requires Led(v, w, p, first)
    ensures var Outcome(s, j) := RunAt(v.text, v.toks, 0);
            RunAt(w.text, w.toks, 1) == Outcome(ShiftState(s, |p|), j + 1) && j <= |v.toks|
            && Judge(w.text, w.toks, 1, j + 1, ShiftState(s, |p|))
               == if first.word.identifier && !s.seenBig && !CurrencyAhead(From(v.text, s.end)) then None
                  else ShiftOption(Judge(v.text, v.toks, 0, j, s), |p|)
  {
    hide RunAt, CurrencyAhead, IsPhoneShape, IsYearShape, IsObjectTok, WellCut, From, Slice, InOrder, RoundHalfUp;
    RunBehind(v, w, p, first);
    var Outcome(s, j) := RunAt(v.text, v.toks, 0);
    TextBehind(v, w, p, first, if 0 < j then j - 1 else 0);
  }

  /** A plain word in front of a text leaves its amounts as they are, but for a first one that rests on its
      digits alone behind a word that announces an identifier. */
  lemma PlainInFront(w: Text, t: Text)
    requires IsWord(w) && WordFor(w).Plain?
    ensures Amounts(w + [BLANK] + t) == ShiftMatches(KeptBehind(w, t), |w| + 1)
  {
    hide Lex, Scan, RunAt, Judge, WordOf, CurrencyAhead, IsPriced, StartsRun, FixesScale, WellCut, Solid, InOrder,
      ShiftMatches, ValueOf, From;
    var p, toks := w + [BLANK], Tokens(t);
    var text, first := p + t, ChunkTok(w, 0);
    assert In(w[0], Letters);
    assert w + [BLANK] + t == text;
    ChunkLex(w);
    TokensAcrossSpace(w, BLANK, t);
    TokensLossless(t);
    var all := Tokens(text);
    assert all == [first] + ShiftAll(toks, |p|) && !StartsRun(first) by { PlainStarts(w); }
    ScanUnfolds(text, all, 0);
    if !first.word.identifier {
      ScanBehind(p, [first], View(t, toks), View(text, all), 0);
    } else if toks == [] {
      ScanEnd(text, all);
      ScanEnd(t, toks);
      assert ShiftMatches([], |p|) == [];
    } else {
      AnnouncedScan(w, t, first, all);
    }
  }

  lemma PlainStarts(w: Text)
    requires IsWord(w) && WordFor(w).Plain?
    ensures !StartsRun(ChunkTok(w, 0))
  {
    hide WordOf, ValueOf;
    assert In(w[0], Letters);
  }

  lemma AnnouncedScan(w: Text, t: Text, first: Tok, all: seq<Tok>)
    requires first.Word? && first.word.Plain? && first.word.identifier && Tokens(t) != []
    requires all == [first] + ShiftAll(Tokens(t), |w| + 1)
    ensures Scan(w + [BLANK] + t, all, 1)
         == ShiftMatches(if RestsOnDigits(t) then Amounts(t)[1..] else Amounts(t), |w| + 1)
  {
    hide Lex, Scan, RunAt, Judge, WellCut, Solid, InOrder, ShiftMatches, RestsOnDigits, StartsRun, FirstRefused;
    var p, toks := w + [BLANK], Tokens(t);
    var text := p + t;
    TokensLossless(t);
    RefusedRests(t);
    ScanUnfolds(t, toks, 0);
    ScanUnfolds(text, all, 1);
    StartsAlike(toks[0], |p|);
    if !StartsRun(toks[0]) {
      assert !FirstRefused(t) by { NotStarted(t); }
      ScanBehind(p, [first], View(t, toks), View(text, all), 1);
    } else {
      StartedScan(w, t, first, all);
    }
  }

  lemma NotStarted(t: Text)
    requires Tokens(t) != [] && !StartsRun(Tokens(t)[0])
    ensures !FirstRefused(t)
  {
    hide Lex;
  }

  lemma StartsAlike(t: Tok, d: nat)
    ensures StartsRun(Shift(t, d)) == StartsRun(t)
  {}

  lemma StartedScan(w: Text, t: Text, first: Tok, all: seq<Tok>)
    requires first.Word? && first.word.Plain? && first.word.identifier && Tokens(t) != [] && StartsRun(Tokens(t)[0])
    requires all == [first] + ShiftAll(Tokens(t), |w| + 1) && StartsRun(all[1])
    ensures Scan(w + [BLANK] + t, all, 1)
         == ShiftMatches(if FirstRefused(t) then Scan(t, Tokens(t), NextStart(0, RunAt(t, Tokens(t), 0).next))
                         else Amounts(t), |w| + 1)
  {
    hide Lex, Scan, RunAt, Judge, CurrencyAhead, From, ShiftMatches, StartsRun, ShiftAll, Led;
    var p := w + [BLANK];
    LedBy(View(t, Tokens(t)), View(p + t, all), p, first);
    StartedBehind(View(t, Tokens(t)), View(p + t, all), p, first);
  }

  lemma StartedBehind(v: View, w: View, p: Text, first: Tok)
    requires Led(v, w, p, first) && first.word.identifier && StartsRun(v.toks[0])
    ensures 1 < |w.toks|
    ensures var Outcome(s, j) := RunAt(v.text, v.toks, 0);
            var refused := Judge(v.text, v.toks, 0, j, s).Some? && !s.seenBig && !CurrencyAhead(From(v.text, s.end));
            Scan(w.text, w.toks, 1)
            == ShiftMatches(Scan(v.text, v.toks, if refused then NextStart(0, j) else 0), |p|)
  {
    hide Scan, RunAt, Judge, CurrencyAhead, From, ShiftMatches, StartsRun, ShiftAll, Listed, InOrder, Sensible;
    FirstBehind(v, w, p, first);
    StartsAlike(v.toks[0], |p|);
    assert w.toks[1] == Shift(v.toks[0], |p|) by { FirstShifted(first, v.toks, |p|); }
    var Outcome(s, j) := RunAt(v.text, v.toks, 0);
    var m, rest := Judge(v.text, v.toks, 0, j, s), Scan(v.text, v.toks, NextStart(0, j));
    ScanUnfolds(v.text, v.toks, 0);
    ScanUnfolds(w.text, w.toks, 1);
    ScanBehind(p, [first], v, w, NextStart(0, j));
    Dropped(m, !s.seenBig && !CurrencyAhead(From(v.text, s.end)), rest, |p|);
  }

  lemma FirstShifted(first: Tok, toks: seq<Tok>, d: nat)
    requires toks != []
    ensures ([first] + ShiftAll(toks, d))[1] == Shift(toks[0], d)
  {}

  lemma LedBy(v: View, w: View, p: Text, first: Tok)
    requires v.toks != [] && v.toks == Tokens(v.text) && first.Word? && first.word.Plain?
    requires w == View(p + v.text, [first] + ShiftAll(v.toks, |p|))
    ensures Led(v, w, p, first) && InOrder(v.text, v.toks) && Sensible(v.toks)
  {
    hide Lex, Sensible, InOrder;
    TokensReady(v.text);
  }

  lemma Dropped(m: Option<Match>, refused: bool, rest: seq<Match>, d: nat)
    ensures Listed(if refused then None else ShiftOption(m, d)) + ShiftMatches(rest, d)
         == ShiftMatches(if m.Some? && refused then rest else Listed(m) + rest, d)
  {
    ShiftJoin(m, rest, d);
    assert [] + ShiftMatches(rest, d) == ShiftMatches(rest, d) && [] + rest == rest;
    hide ShiftMatches;
  }
}
