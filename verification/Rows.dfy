/** Numbers in a row, and numbers with marks between them: which of them are amounts. */
module Rows {
  import opened Text
  import opened Lexer
  import opened Lexing
  import opened Machine
  import opened Composition
  import opened Barrier
  import opened OpenTail
  import opened Words
  import opened Accepting
  import opened DigitGroups
  import opened Tails
  import opened NumberForms
  import opened Names
  import opened Spacing

  // ----- what a row of numbers yields -----------------------------------------------------------

  /** The end of the block of numbers that starts at `i` and goes on at `k`. */
  function BlockEnd(ws: seq<Text>, i: nat, k: nat): (j: nat)
    requires i < k <= |ws|
    ensures k <= j <= |ws|
    decreases |ws| - k
  {
    if k < |ws| && All(ws[i], Digits) && IsTriple(ws[k]) then BlockEnd(ws, i, k + 1) else k
  }

  /** A block that is an amount by itself: four digits or more, not zero, and, if it is one numeral, of
      the shape of neither a phone number nor a year. */
  predicate IsBareBlock(ws: seq<Text>, i: nat, j: nat)
    requires i < j <= |ws|
  {
    BlockDigits(ws, i, j) >= 4 && BlockValue(ws, i, j) > 0.0
    && (j == i + 1 ==> !IsPhoneShape(ws[i]) && !IsYearShape(ws[i]))
  }

  /** The values of a row: block by block, but a block in front of a single last number is refused. */
  function RowValues(ws: seq<Text>, i: nat): seq<int>
    requires i <= |ws|
    decreases |ws| - i
  {
    if i == |ws| then []
    else
      var j := BlockEnd(ws, i, i + 1);
      (if j + 1 != |ws| && IsBareBlock(ws, i, j) then [RoundHalfUp(BlockValue(ws, i, j))] else []) + RowValues(ws, j)
  }

  lemma {:induction false} EndsBlock(ws: seq<Text>, i: nat, k: nat)
    requires IsBlock(ws, i, k)
    ensures var j := BlockEnd(ws, i, k);
            IsBlock(ws, i, j) && (j < |ws| ==> !(All(ws[i], Digits) && IsTriple(ws[j])))
    decreases |ws| - k
  {
    if k < |ws| && All(ws[i], Digits) && IsTriple(ws[k]) { EndsBlock(ws, i, k + 1); }
  }

  /** A number that does not join the block ends the run; if it is the last token, the run is refused. */
  lemma BlockStops(text: Text, toks: seq<Tok>, ws: seq<Text>, i: nat, j: nat, s: State)
    requires Reads(text, toks, ws) && i < j < |ws| && IsNumeral(ws[j]) && HasRead(s, ws, i, j)
    requires !(All(ws[i], Digits) && IsTriple(ws[j]))
    requires j + 1 < |ws| ==> IsNumeral(ws[j + 1])
    ensures |toks| == |ws| && Step(text, toks, j, s) == Stop(s.(ambiguousTail := j + 1 == |ws|))
  {
    hide Reads, ReadsAt, ValueOf, BodyLen, All, IsTriple, BlockValue, BlockDigits;
    ReadsLength(text, toks, ws);
    ReadsHere(text, toks, ws, j);
    NumeralTok(text, toks, ws, j);
    FreeOfGlue(text, toks, ws, j);
    assert !JoinsGroup(s, toks[j]) by { NotTriple(ws[i], ws[j], s, toks[j]); }
    if j + 1 < |ws| {
      ReadsHere(text, toks, ws, j + 1);
      NumeralTok(text, toks, ws, j + 1);
    }
    hide ShorthandAhead, From, GluedWord, JoinsGroup;
  }

  lemma NotTriple(head: Text, w: Text, s: State, t: Tok)
    requires t.Num? && t.text == w && s.current.Is? && s.fromDigits == All(head, Digits)
    requires !(All(head, Digits) && IsTriple(w))
    ensures !JoinsGroup(s, t)
  {}

  // ----- the verdict on a block -----------------------------------------------------------------

  /** Behind each number of a row stands no currency word. */
  lemma RowHasNoCurrency(ws: seq<Text>, k: nat)
    requires AreNumerals(ws) && k < |ws|
    ensures |Tokens(Join(ws))| == |ws| && !CurrencyAhead(From(Join(ws), Tokens(Join(ws))[k].end))
  {
    hide Lex, Join, BodyLen, CurrencyAhead, ValueOf;
    NumeralsAreChunks(ws);
    BehindWord(ws, k);
    if k + 1 < |ws| {
      var r := JoinOpens(ws[k + 1..]);
      AfterBlank(Join(ws[k + 1..]));
      DigitAhead(Join(ws[k + 1..]));
    } else {
      NothingAhead([]);
    }
  }

  lemma NumeralsAreChunks(ws: seq<Text>)
    requires AreNumerals(ws)
    ensures AreChunks(ws)
  {
    hide BodyLen;
  }

  /** The text of a block has the shape of a phone number or of a year only if it is one numeral. */
  lemma BlockShape(ws: seq<Text>, i: nat, j: nat)
    requires AreNumerals(ws) && i < j <= |ws|
    ensures var text, toks := Join(ws), Tokens(Join(ws));
            |toks| == |ws|
            && var raw := Slice(text, toks[i].start, toks[j - 1].end);
               if j == i + 1 then raw == ws[i] else !IsPhoneShape(raw) && !IsYearShape(raw)
  {
    hide Lex, Join, BodyLen, ValueOf, IsPhoneShape, IsYearShape, WellCut, Solid, Slice;
    NumeralsAreChunks(ws);
    JoinReads(ws);
    var text, toks := Join(ws), Tokens(Join(ws));
    ReadsHere(text, toks, ws, i);
    NumeralTok(text, toks, ws, i);
    TokensLossless(text);
    if j > i + 1 {
      InnerGap(text, toks, ws, i, j);
    } else {
      assert toks[i].text == text[toks[i].start..toks[i].end];
      WholePiece(text, toks[i].start, toks[i].end);
    }
  }

  lemma WholePiece(text: Text, x: nat, y: nat)
    requires x <= y <= |text|
    ensures Slice(text, x, y) == text[x..y]
  {}

  lemma InnerGap(text: Text, toks: seq<Tok>, ws: seq<Text>, i: nat, j: nat)
    requires |toks| == |ws| && i + 1 < j <= |ws| && ReadsAt(text, toks, ws, i) && InOrder(text, toks)
    ensures var raw := Slice(text, toks[i].start, toks[j - 1].end); !IsPhoneShape(raw) && !IsYearShape(raw)
  {
    hide IsChunk, ChunkTok, IsPhoneShape, IsYearShape, Slice;
    assert toks[i + 1].start < toks[i + 1].end && toks[i + 1].end <= toks[j - 1].end;
    GapBetween(text, toks[i].start, toks[j - 1].end, toks[i].end);
  }

  lemma NoIdentifierBefore(ws: seq<Text>, i: nat)
    requires AreNumerals(ws) && i < |ws|
    ensures |Tokens(Join(ws))| == |ws| && !IsIdentifierTok(Prev(Tokens(Join(ws)), i))
  {
    hide Lex, Join, BodyLen, ValueOf;
    NumeralsAreChunks(ws);
    JoinReads(ws);
    if i > 0 {
      ReadsHere(Join(ws), Tokens(Join(ws)), ws, i - 1);
      NumeralTok(Join(ws), Tokens(Join(ws)), ws, i - 1);
    }
  }

  lemma BlockJudged(ws: seq<Text>, i: nat, j: nat, s: State)
    requires AreNumerals(ws) && i < j <= |ws| && |Tokens(Join(ws))| == |ws|
    requires HasRead(s, ws, i, j) && s.end == Tokens(Join(ws))[j - 1].end
    ensures var m := Judge(Join(ws), Tokens(Join(ws)), i, j, s);
            (m.Some? <==> IsBareBlock(ws, i, j)) && (m.Some? ==> m.value.value == RoundHalfUp(BlockValue(ws, i, j)))
  {
    hide Lex, Join, BodyLen, ValueOf, IsPhoneShape, IsYearShape, Slice, CurrencyAhead, From, BlockValue,
      BlockDigits, IsIdentifierTok, RoundHalfUp, All;
    BlockShape(ws, i, j);
    RowHasNoCurrency(ws, j - 1);
    NoIdentifierBefore(ws, i);
    assert GrandTotal(s) == BlockValue(ws, i, j);
  }

  // ----- the scan over a row --------------------------------------------------------------------

  lemma StopFlags(text: Text, toks: seq<Tok>, i: nat, j: nat, s: State)
    requires i < |toks| && Unflagged(s)
    ensures Judge(text, toks, i, j, s.(ambiguousTail := false)) == Judge(text, toks, i, j, s)
    ensures Judge(text, toks, i, j, s.(ambiguousTail := true)).None?
  {
    assert s.(ambiguousTail := false) == s;
    FlaggedRefused(text, toks, i, j, s.(ambiguousTail := true));
  }

  lemma RunOfBlock(ws: seq<Text>, i: nat) returns (s: State)
    requires AreNumerals(ws) && i < |ws|
    ensures var text, toks, j := Join(ws), Tokens(Join(ws)), BlockEnd(ws, i, i + 1);
            |toks| == |ws| && HasRead(s, ws, i, j) && s.end == toks[j - 1].end
            && RunAt(text, toks, i) == Outcome(s.(ambiguousTail := j + 1 == |ws|), j)
  {
    hide Lex, Join, BodyLen, ValueOf, Run, RunAt, Step, Reads, HasRead, IsTriple;
    NumeralsAreChunks(ws);
    JoinReads(ws);
    var text, toks, j := Join(ws), Tokens(Join(ws)), BlockEnd(ws, i, i + 1);
    EndsBlock(ws, i, i + 1);
    s := BlockRun(text, toks, ws, i, j);
    RunUnfolds(text, toks, j, s);
    NotFlagged(s, ws, i, j);
    if j < |ws| { BlockStops(text, toks, ws, i, j, s); }
  }

  lemma NotFlagged(s: State, ws: seq<Text>, i: nat, j: nat)
    requires i < j <= |ws| && HasRead(s, ws, i, j)
    ensures Unflagged(s) && s.(ambiguousTail := false) == s
  {
    hide BlockValue, BlockDigits, All;
  }

  lemma {:induction false} RowScan(ws: seq<Text>, i: nat)
    requires AreNumerals(ws) && ws != [] && i <= |ws|
    ensures |Tokens(Join(ws))| == |ws| && ValuesOf(Scan(Join(ws), Tokens(Join(ws)), i)) == RowValues(ws, i)
    decreases |ws| - i
  {
    hide Lex, Join, BodyLen, ValueOf, RunAt, Judge, Scan, HasRead, IsBareBlock, BlockValue, RoundHalfUp;
    NumeralsAreChunks(ws);
    JoinReads(ws);
    var text, toks := Join(ws), Tokens(Join(ws));
    ReadsLength(text, toks, ws);
    if i == |ws| {
      ScanEnd(text, toks);
    } else {
      var j := BlockEnd(ws, i, i + 1);
      var s := RunOfBlock(ws, i);
      NotFlagged(s, ws, i, j);
      BlockJudged(ws, i, j, s);
      StopFlags(text, toks, i, j, s);
      RowScan(ws, j);
      ConsumedStarts(text, toks, i);
      ScanUnfolds(text, toks, i);
      var m := Judge(text, toks, i, j, s.(ambiguousTail := j + 1 == |ws|));
      ValuesJoin(Listed(m), Scan(text, toks, j));
    }
  }

  /** Numbers in a row: blocks of digits with groups of three digits behind them, and other numerals by
      themselves, are amounts of their own, except the one in front of a single last number, which is
      lost: "230000 5000" yields 5000 only. */
  lemma NumbersInARow(ws: seq<Text>)
    requires ws != [] && AreNumerals(ws)
    ensures Valued(Join(ws)) == RowValues(ws, 0)
  {
    hide Tokens, Scan, Join, AreNumerals, RowValues;
    RowScan(ws, 0);
  }

  // ----- numbers and marks ----------------------------------------------------------------------

  /** A mark behind a numeral cuts it off: each side is read by itself. */
  lemma NumberBeforeMark(w: Text, c: Ch, b: Text)
    requires IsNumeral(w) && Separates(c, b)
    ensures Amounts(w + [c] + b) == Amounts(w) + ShiftMatches(Amounts(b), |w| + 1)
  {
    hide Amounts, EndsInShorthand, Separates, BodyLen, ValueOf, IsBare, RoundHalfUp;
    PunctuationBarrier(w, c, b);
    if EndsInShorthand(w) {
      ShorthandIsShort(w);
      JoinReads([w]);
      ReadsHere(w, Tokens(w), [w], 0);
      ShortIsFigure(w, Tokens(w), [w], 0);
      FigureIsNotBare(w);
      PlainNumeral(w);
    }
  }
}
