/** Names that are numerals ("bác Hai", "chị Bảy") in front of an amount do not touch it. */
module Names {
  import opened Text
  import opened Vocabulary
  import opened Lexer
  import opened Lexing
  import opened Machine
  import opened Composition
  import opened Barrier
  import opened OpenTail
  import opened Words
  import opened SpokenTails

  /** A numeral 0..9, "nửa", or a word without numeric meaning. */
  predicate IsName(w: Text) { IsWord(w) && (IsCounting(WordFor(w)) || WordFor(w).Plain?) }

  predicate AreNames(ws: seq<Text>) { forall k | 0 <= k < |ws| :: IsName(ws[k]) }

  /** A word that a run of numerals goes on with. */
  predicate IsCounting(w: Word) { w.Ones? || w.Half? }

  predicate IsNothing(w: Word) { w.Ones? && w.digit == 0 }

  predicate IsCurrency(w: Text) { IsCurrencyWord(Lower(w)) }

  /** Some unbroken numerals, not all of them "không", have a currency word right behind them;
      `pending` says whether numerals other than "không" stand right before `ws`. */
  predicate Priced(ws: seq<Text>, pending: bool) {
    ws != []
    && if IsCounting(WordFor(ws[0])) then
         var more := pending || !IsNothing(WordFor(ws[0]));
         (more && |ws| > 1 && IsCurrency(ws[1])) || Priced(ws[1..], more)
       else Priced(ws[1..], false)
  }

  /** The text starts, after whitespace, with a number. */
  predicate StartsWithNumber(text: Text) { Tokens(text) != [] && Tokens(text)[0].Num? }

  // ----- the currency words behind names --------------------------------------------------------

  lemma AfterBlank(r: Text)
    ensures CurrencyAhead([BLANK] + r) == CurrencyAhead(r)
  {
    hide IsCurrencyWord;
    var n := PrefixLen(r, Spaces);
    assert ([BLANK] + r)[1..] == r;
    assert PrefixLen([BLANK] + r, Spaces) == 1 + n;
    assert ([BLANK] + r)[1 + n..] == r[n..];
  }

  lemma WordIsCurrency(w: Text, r: Text)
    requires IsWord(w) && (r == [] || !r[0].Let?)
    ensures CurrencyAhead(w + r) == IsCurrency(w)
  {
    hide IsCurrencyWord, WordOf;
    var s := w + r;
    assert In(w[0], Letters) && s[0] == w[0];
    PrefixIs(s, Spaces, 0);
    assert s[0..] == s;
    assert forall k | 0 <= k < |w| :: s[k] == w[k];
    PrefixIs(s, Letters, |w|);
    assert s[..|w|] == w;
  }

  lemma NumberIsNoCurrency(t: Text)
    requires StartsWithNumber(t)
    ensures !CurrencyAhead(t)
  {
    hide IsCurrencyWord, Lex, ParseNumText, WordOf, Solid;
    LexTiles(t, false, 0);
    var first := Tokens(t)[0];
    assert Opens(t, 0, first);
    var n := first.start;
    assert t[n] == t[first.start..first.end][0] && t[n].Dig?;
    assert forall k | 0 <= k < n :: t[k] == t[..n][k];
    PrefixIs(t, Spaces, n);
    assert PrefixLen(t[n..], Letters) == 0 && Lower(t[n..][..0]) == "";
    EmptyIsNoCurrency();
  }

  lemma DigitAhead(s: Text)
    requires s != [] && s[0].Dig?
    ensures !CurrencyAhead(s)
  {
    PrefixIs(s, Spaces, 0);
    PrefixIs(s, Letters, 0);
    assert s[0..] == s && s[..0] == [] && Lower([]) == "";
    EmptyIsNoCurrency();
    hide IsCurrencyWord;
  }

  lemma EmptyIsNoCurrency()
    ensures !IsCurrencyWord("")
  {}

  lemma JoinUnfolds(ws: seq<Text>)
    requires |ws| > 1
    ensures Join(ws) == ws[0] + [BLANK] + Join(ws[1..])
  {}

  lemma JoinTokens(ws: seq<Text>)
    requires AreChunks(ws) && ws != []
    ensures |Tokens(Join(ws))| == |ws|
    ensures |ws| == 1 ==> Tokens(Join(ws))[0].end == |Join(ws)|
    ensures |ws| > 1 ==>
              Tokens(Join(ws)) == [ChunkTok(ws[0], 0)] + ShiftAll(Tokens(Join(ws[1..])), |ws[0]| + 1)
  {
    hide Lex, ReadsAt, ChunkTok, Join;
    JoinReads(ws);
    if |ws| > 1 {
      ChunkLex(ws[0]);
      JoinUnfolds(ws);
      TokensAcrossSpace(ws[0], BLANK, Join(ws[1..]));
    }
  }

  /** What stands behind the `k`-th of the joined words. */
  lemma {:induction false} BehindWord(ws: seq<Text>, k: nat)
    requires AreChunks(ws) && k < |ws|
    ensures |Tokens(Join(ws))| == |ws|
    ensures From(Join(ws), Tokens(Join(ws))[k].end) == if k + 1 == |ws| then [] else [BLANK] + Join(ws[k + 1..])
    decreases |ws|
  {
    hide Lex, Join, ChunkTok, From;
    JoinTokens(ws);
    if |ws| == 1 {
      FromWhole(Join(ws));
    } else {
      var w, rest := ws[0], Join(ws[1..]);
      JoinUnfolds(ws);
      if k == 0 {
        BehindChunk(w, rest);
      } else {
        BehindWord(ws[1..], k - 1);
        FromShift(w + [BLANK], rest, Tokens(rest)[k - 1].end);
        assert ws[1..][k..] == ws[k + 1..];
      }
    }
  }

  lemma FromWhole(s: Text)
    ensures From(s, |s|) == []
  {}

  lemma BehindChunk(w: Text, rest: Text)
    requires w != []
    ensures From(w + [BLANK] + rest, ChunkTok(w, 0).end) == [BLANK] + rest
  {
    hide NatOf, WordFor;
    assert (w + [BLANK] + rest)[|w|..] == [BLANK] + rest;
  }

  /** What stands behind the last name. */
  lemma NumberBehindName(t: Text)
    requires StartsWithNumber(t)
    ensures !CurrencyAhead([] + [BLANK] + t)
  {
    hide CurrencyAhead, StartsWithNumber;
    assert [] + [BLANK] + t == [BLANK] + t;
    AfterBlank(t);
    NumberIsNoCurrency(t);
  }

  /** What stands behind another name. */
  lemma NameBehindName(ws: seq<Text>, t: Text)
    requires ws != [] && IsWord(ws[0])
    ensures CurrencyAhead([BLANK] + Join(ws) + [BLANK] + t) == IsCurrency(ws[0])
  {
    hide CurrencyAhead, IsCurrencyWord, Join, IsWord, Lower;
    var r := JoinOpens(ws);
    var behind := r + [BLANK] + t;
    assert [BLANK] + Join(ws) + [BLANK] + t == [BLANK] + (ws[0] + behind);
    assert behind[0] == BLANK;
    AfterBlank(ws[0] + behind);
    WordIsCurrency(ws[0], behind);
  }

  lemma JoinOpens(ws: seq<Text>) returns (r: Text)
    requires ws != []
    ensures Join(ws) == ws[0] + r && (r == [] || r[0] == BLANK)
  {
    if |ws| == 1 {
      r := [];
      assert ws[0] + r == ws[0];
    } else {
      r := [BLANK] + Join(ws[1..]);
      assert Join(ws) == ws[0] + r;
    }
  }

  /** The tokens of a text that opens with names, and what is behind each name. */
  lemma NamesRead(names: seq<Text>, t: Text, k: nat)
    requires AreNames(names) && k < |names| && StartsWithNumber(t)
    ensures var text, front := Join(names) + [BLANK] + t, Tokens(Join(names));
            |front| == |names| && front[k].Word? && front[k].text == names[k] && front[k].word == WordFor(names[k])
            && (CurrencyAhead(From(text, front[k].end)) <==> k + 1 < |names| && IsCurrency(names[k + 1]))
  {
    hide Lex, WordOf, StandsFree, CurrencyAhead, IsCurrencyWord, StartsWithNumber, Join;
    NamesAreChunks(names);
    JoinReads(names);
    var p := Join(names);
    var front := Tokens(p);
    assert ReadsAt(p, front, names, k) && In(names[k][0], Letters);
    BehindWord(names, k);
    var e := front[k].end;
    StandsWithin(p, front, k);
    assert (p + [BLANK] + t)[e..] == p[e..] + [BLANK] + t;
    if k + 1 == |names| {
      NumberBehindName(t);
    } else {
      NameBehindName(names[k + 1..], t);
    }
  }

  lemma StandsWithin(text: Text, toks: seq<Tok>, k: nat)
    requires k < |toks| && StandsFree(text, toks, k)
    ensures toks[k].end <= |text|
  {}

  lemma NamesAreChunks(names: seq<Text>)
    requires AreNames(names)
    ensures AreChunks(names)
  {
    hide WordOf;
  }

  // ----- runs over names ------------------------------------------------------------------------

  predicate IsCountingTok(t: Tok) { t.Word? && IsCounting(t.word) }

  /** `n` names, then a number; a currency suffix behind a name is no numeral itself. */
  predicate NamesThenNumber(text: Text, toks: seq<Tok>, n: nat) {
    n < |toks| && toks[n].Num?
    && (forall k | 0 <= k < n :: toks[k].Word? && (IsCounting(toks[k].word) || toks[k].word.Plain?))
    && (forall k | 0 <= k < n :: CurrencyAhead(From(text, toks[k].end)) ==> k + 1 < n && !IsCountingTok(toks[k + 1]))
  }

  /** `Priced` on tokens. */
  predicate PricedFrom(text: Text, toks: seq<Tok>, n: nat, i: nat, pending: bool)
    requires n <= |toks|
    decreases n - i
  {
    i < n
    && if IsCountingTok(toks[i]) then
         var more := pending || !IsNothing(toks[i].word);
         (more && CurrencyAhead(From(text, toks[i].end))) || PricedFrom(text, toks, n, i + 1, more)
       else PricedFrom(text, toks, n, i + 1, false)
  }

  /** Nothing but numerals has been read since token `i`. */
  predicate OnlyNumerals(s: State, toks: seq<Tok>, i: nat, x: nat) {
    i <= x <= |toks| && !s.seenBig && s.digits == 0 && s.slang == {} && s.total == 0.0 && s.section == 0.0
    && OrZero(s.current) >= 0.0 && (s.hasNonzero <==> OrZero(s.current) > 0.0) && (s.hasNumber <==> x > i)
    && (x > i ==> s.current.Is? && !s.fromDigits && s.end == toks[x - 1].end)
  }

  lemma NumeralStep(text: Text, toks: seq<Tok>, i: nat, x: nat, s: State)
    requires OnlyNumerals(s, toks, i, x) && x < |toks| && IsCountingTok(toks[x]) && Unflagged(s)
    ensures var a := Step(text, toks, x, s);
            a.Go? && a.width == 1 && OnlyNumerals(a.state, toks, i, x + 1) && Unflagged(a.state)
            && a.state.hasNonzero == (s.hasNonzero || !IsNothing(toks[x].word))
  {}

  lemma NameStops(text: Text, toks: seq<Tok>, i: nat, x: nat, s: State)
    requires OnlyNumerals(s, toks, i, x) && x < |toks| && Unflagged(s)
    requires (toks[x].Num? && x > i) || (toks[x].Word? && toks[x].word.Plain?)
    ensures var a := Step(text, toks, x, s); a.Stop? && OnlyNumerals(a.state, toks, i, x)
    ensures toks[x].Word? ==> Step(text, toks, x, s) == Stop(s)
    ensures Step(text, toks, x, s).state.hasNonzero == s.hasNonzero
  {
    hide ShorthandAhead, From, IsEdge, All;
  }

  /** A run over names goes on to the end of the unbroken numerals. */
  lemma {:induction false} NameRun(text: Text, toks: seq<Tok>, n: nat, i: nat, x: nat, s: State)
    requires NamesThenNumber(text, toks, n) && i < n && i <= x <= n && OnlyNumerals(s, toks, i, x) && Unflagged(s)
    requires x == i ==> IsCountingTok(toks[i])
    ensures var Outcome(e, j) := Run(text, toks, x, s);
            i < j <= n && x <= j && OnlyNumerals(e, toks, i, j)
            && (j < n ==> Unflagged(e)) && (j == x ==> e.hasNonzero == s.hasNonzero)
            && (j > x ==> IsCountingTok(toks[x]))
            && (PricedFrom(text, toks, n, x, s.hasNonzero)
                <==> (x < j && e.hasNonzero && CurrencyAhead(From(text, toks[j - 1].end)))
                     || PricedFrom(text, toks, n, j, false))
    decreases n - x
  {
    hide Run, Step, OnlyNumerals, CurrencyAhead, From, Unflagged;
    RunUnfolds(text, toks, x, s);
    if x < n && IsCountingTok(toks[x]) {
      NumeralStep(text, toks, i, x, s);
      NameRun(text, toks, n, i, x + 1, Step(text, toks, x, s).state);
    } else {
      NameStops(text, toks, i, x, s);
    }
  }

  /** The run at a numeral is an amount exactly if it is priced. */
  lemma NameJudged(text: Text, toks: seq<Tok>, n: nat, i: nat)
    requires NamesThenNumber(text, toks, n) && i < n && IsCountingTok(toks[i]) && toks[i].start < |text|
             && text[toks[i].start].Let?
    ensures var Outcome(s, j) := RunAt(text, toks, i);
            i < j <= n
            && (Judge(text, toks, i, j, s).Some? <==> s.hasNonzero && CurrencyAhead(From(text, toks[j - 1].end)))
            && (PricedFrom(text, toks, n, i, false)
                <==> Judge(text, toks, i, j, s).Some? || PricedFrom(text, toks, n, j, false))
  {
    hide Run, CurrencyAhead, From, PricedFrom;
    NameRun(text, toks, n, i, i, Fresh(toks[i].end));
    var s := RunAt(text, toks, i).state;
    LettersAreNoDigits(text, toks[i].start, s.end);
    hide IsPhoneShape, IsYearShape, Slice;
  }

  lemma LettersAreNoDigits(text: Text, x: nat, y: nat)
    requires x < |text| && text[x].Let?
    ensures !IsPhoneShape(Slice(text, x, y)) && !IsYearShape(Slice(text, x, y))
  {
    var raw := Slice(text, x, y);
    if raw != [] { assert raw[0] == text[x] && !In(raw[0], Digits); }
  }

  /** The scan over names finds nothing exactly if none of them is priced. */
  lemma {:induction false} ScanNames(text: Text, toks: seq<Tok>, n: nat, i: nat)
    requires NamesThenNumber(text, toks, n) && i <= n
    requires forall k | 0 <= k < n :: toks[k].start < |text| && text[toks[k].start].Let?
    ensures |Scan(text, toks, i)| >= |Scan(text, toks, n)|
    ensures Scan(text, toks, i) == Scan(text, toks, n) <==> !PricedFrom(text, toks, n, i, false)
    decreases n - i
  {
    hide RunAt, Judge, Scan, CurrencyAhead, From;
    if i < n {
      ScanUnfolds(text, toks, i);
      if IsCountingTok(toks[i]) {
        NameJudged(text, toks, n, i);
        ScanNames(text, toks, n, RunAt(text, toks, i).next);
      } else {
        ScanNames(text, toks, n, i + 1);
      }
    }
  }

  /** Token `k` reads name `k`, and the currency suffix behind it is the next name. */
  predicate NameAt(names: seq<Text>, text: Text, toks: seq<Tok>, k: nat)
    requires k < |names| <= |toks|
  {
    toks[k].Word? && toks[k].word == WordFor(names[k]) && toks[k].start < |text| && text[toks[k].start].Let?
    && (CurrencyAhead(From(text, toks[k].end)) <==> k + 1 < |names| && IsCurrency(names[k + 1]))
  }

  /** The tokens of the names are priced if the names are. */
  lemma {:induction false} PricedWords(names: seq<Text>, text: Text, toks: seq<Tok>, k: nat, pending: bool)
    requires k <= |names| <= |toks|
    requires forall x | 0 <= x < |names| :: NameAt(names, text, toks, x)
    ensures Priced(names[k..], pending) == PricedFrom(text, toks, |names|, k, pending)
    decreases |names| - k
  {
    hide WordOf, CurrencyAhead, From, IsCurrency, Priced, PricedFrom;
    if k < |names| {
      assert NameAt(names, text, toks, k);
      var more := pending || !IsNothing(WordFor(names[k]));
      assert names[k..][1..] == names[k + 1..];
      PricedUnfolds(names[k..], pending);
      PricedFromUnfolds(text, toks, |names|, k, pending);
      PricedWords(names, text, toks, k + 1, more);
      PricedWords(names, text, toks, k + 1, false);
    } else {
      NothingPriced(text, toks, |names|, pending);
      assert names[k..] == [];
    }
  }

  lemma NothingPriced(text: Text, toks: seq<Tok>, n: nat, pending: bool)
    requires n <= |toks|
    ensures !Priced([], pending) && !PricedFrom(text, toks, n, n, pending)
  {}

  lemma PricedUnfolds(ws: seq<Text>, pending: bool)
    requires ws != []
    ensures Priced(ws, pending)
            <==> if IsCounting(WordFor(ws[0])) then
                   var more := pending || !IsNothing(WordFor(ws[0]));
                   (more && |ws| > 1 && IsCurrency(ws[1])) || Priced(ws[1..], more)
                 else Priced(ws[1..], false)
  {
    hide WordOf, IsCurrency;
  }

  lemma PricedFromUnfolds(text: Text, toks: seq<Tok>, n: nat, i: nat, pending: bool)
    requires i < n <= |toks|
    ensures PricedFrom(text, toks, n, i, pending)
            <==> if IsCountingTok(toks[i]) then
                   var more := pending || !IsNothing(toks[i].word);
                   (more && CurrencyAhead(From(text, toks[i].end))) || PricedFrom(text, toks, n, i + 1, more)
                 else PricedFrom(text, toks, n, i + 1, false)
  {
    hide CurrencyAhead, From;
  }

  /** A currency word has no numeric meaning. */
  lemma CurrencyIsPlain(w: Text)
    requires IsCurrency(w)
    ensures WordFor(w).Plain?
  {
    ShortCurrency();
    SpelledCurrency();
    LongCurrency();
    MixedCurrency();
    hide WordOf;
  }

  lemma ShortCurrency()
    ensures WordOf("đ").Plain?
  {}

  lemma SpelledCurrency()
    ensures WordOf("đồng").Plain?
  {}

  lemma LongCurrency()
    ensures WordOf("vnd").Plain?
  {}

  lemma MixedCurrency()
    ensures WordOf("vnđ").Plain?
  {}

  function Behind(names: seq<Text>, t: Text): seq<Tok>
    requires names != []
  {
    Tokens(Join(names)) + ShiftAll(Tokens(t), |Join(names)| + 1)
  }

  lemma NamesAt(names: seq<Text>, t: Text, k: nat)
    requires AreNames(names) && k < |names| && StartsWithNumber(t)
    ensures |Tokens(Join(names))| == |names| && NameAt(names, Join(names) + [BLANK] + t, Behind(names, t), k)
  {
    hide Lex, WordOf, Join, CurrencyAhead, IsCurrency, From, IsName, WellCut, Solid, StartsWithNumber;
    var p := Join(names);
    NamesRead(names, t, k);
    NameLetters(names[k]);
    TokensLossless(p);
    assert Tokens(p)[k] in Tokens(p);
    assert Tokens(p)[k].text[0] == p[Tokens(p)[k].start];
  }

  lemma NameAtNext(names: seq<Text>, text: Text, toks: seq<Tok>, k: nat)
    requires AreNames(names) && k < |names| <= |toks| && forall x | 0 <= x < |names| :: NameAt(names, text, toks, x)
    ensures toks[k].Word? && (IsCounting(toks[k].word) || toks[k].word.Plain?)
    ensures toks[k].start < |text| && text[toks[k].start].Let?
    ensures CurrencyAhead(From(text, toks[k].end)) ==> k + 1 < |names| && !IsCountingTok(toks[k + 1])
  {
    hide WordOf, CurrencyAhead, IsCurrency, From, IsName;
    assert NameAt(names, text, toks, k);
    NameLetters(names[k]);
    if CurrencyAhead(From(text, toks[k].end)) {
      CurrencyIsPlain(names[k + 1]);
      assert NameAt(names, text, toks, k + 1);
    }
  }

  lemma NamesLaidOut(names: seq<Text>, t: Text)
    requires names != [] && AreNames(names) && StartsWithNumber(t)
    ensures var text, toks, n := Join(names) + [BLANK] + t, Behind(names, t), |names|;
            |Tokens(Join(names))| == n && NamesThenNumber(text, toks, n)
            && (forall k | 0 <= k < n :: toks[k].start < |text| && text[toks[k].start].Let?)
            && PricedFrom(text, toks, n, 0, false) == Priced(names, false)
            && toks[n - 1].Word? && toks[n - 1].word == WordFor(names[n - 1])
  {
    hide Lex, WordOf, Join, CurrencyAhead, IsCurrency, From, IsName, PricedFrom, Priced, NameAt, IsCountingTok;
    var text, toks, n := Join(names) + [BLANK] + t, Behind(names, t), |names|;
    NamesAt(names, t, 0);
    forall k | 0 <= k < n ensures NameAt(names, text, toks, k) { NamesAt(names, t, k); }
    forall k | 0 <= k < n
      ensures toks[k].Word? && (IsCounting(toks[k].word) || toks[k].word.Plain?)
              && toks[k].start < |text| && text[toks[k].start].Let?
              && (CurrencyAhead(From(text, toks[k].end)) ==> k + 1 < n && !IsCountingTok(toks[k + 1]))
    {
      NameAtNext(names, text, toks, k);
    }
    assert toks[n] == Shift(Tokens(t)[0], |Join(names)| + 1) && toks[n].Num?;
    assert NamesThenNumber(text, toks, n);
    PricedWords(names, text, toks, 0, false);
    assert names[0..] == names;
    LastName(names, text, toks);
  }

  lemma LastName(names: seq<Text>, text: Text, toks: seq<Tok>)
    requires 0 < |names| <= |toks| && NameAt(names, text, toks, |names| - 1)
    ensures var n := |names|; toks[n - 1].Word? && toks[n - 1].word == WordFor(names[n - 1])
  {
    hide WordOf, CurrencyAhead, From;
  }

  lemma NameLetters(w: Text)
    requires IsName(w)
    ensures w != [] && w[0].Let? && (IsCounting(WordFor(w)) || WordFor(w).Plain?)
  {
    hide WordOf;
    assert In(w[0], Letters);
  }

  /** Name non-interference, exactly: numerals, "nửa" and plain words in front of a text that starts
      with a number, the last of them not an identifier word, leave every amount of the text as it is
      and only move its place, if and only if none of them has a price of its own ("Hai đồng"). */
  lemma NamesDoNotInterfere(names: seq<Text>, t: Text)
    requires names != [] && AreNames(names) && StartsWithNumber(t)
    requires !(WordFor(names[|names| - 1]).Plain? && WordFor(names[|names| - 1]).identifier)
    ensures Amounts(Join(names) + [BLANK] + t) == ShiftMatches(Amounts(t), |Join(names)| + 1)
            <==> !Priced(names, false)
  {
    hide Lex, Scan, WordOf, Join, IsName, PricedFrom, Priced, NamesThenNumber;
    var p := Join(names) + [BLANK];
    var front := Tokens(Join(names));
    TokensAcrossSpace(Join(names), BLANK, t);
    NamesLaidOut(names, t);
    assert Tokens(p + t) == Behind(names, t);
    ScanNames(p + t, Behind(names, t), |names|, 0);
    BehindPrefix(p, front, t);
  }
}
