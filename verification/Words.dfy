/** Texts written as numerals and words with single spaces between them, and their tokens. */
module Words {
  import opened Text
  import opened Vocabulary
  import opened Lexer
  import opened Lexing

  const BLANK: Ch := Space(' ')

  /** A text that the number pattern matches from end to end: "5", "05", "1.500", "0,5". */
  predicate IsNumeral(w: Text) { w != [] && w[0].Dig? && BodyLen(w) == |w| }

  /** What a numeral is worth. */
  function ValueOf(w: Text): (v: real)
    ensures v >= 0.0
  {
    ParseNumText(w).Or(0.0)
  }

  /** A word, or a numeral. */
  predicate IsChunk(w: Text) { w != [] && (All(w, Letters) || IsNumeral(w)) }

  predicate AreChunks(ws: seq<Text>) { forall k | 0 <= k < |ws| :: IsChunk(ws[k]) }

  function Join(ws: seq<Text>): Text
    requires ws != []
  {
    if |ws| == 1 then ws[0] else ws[0] + [BLANK] + Join(ws[1..])
  }

  /** Words with any text between them. */
  function SetOut(ws: seq<Text>, gaps: seq<Text>): Text
    requires |ws| == |gaps| + 1
  {
    if gaps == [] then ws[0] else ws[0] + gaps[0] + SetOut(ws[1..], gaps[1..])
  }

  function WordFor(w: Text): Word { WordOf(Lower(w)) }

  function ChunkTok(w: Text, pos: nat): Tok
    requires w != []
  {
    if w[0].Dig? then Num(w, pos, pos + |w|, ValueOf(w), Absent)
    else Word(w, pos, pos + |w|, WordFor(w))
  }

  /** A run of digits is a numeral, and worth the number it denotes. */
  lemma DigitsNumeral(w: Text)
    requires w != [] && All(w, Digits)
    ensures IsNumeral(w) && ValueOf(w) == NatOf(w) as real
  {
    hide NatOf, StripSeps, FractionOf;
    PrefixIs(w, Digits, |w|);
    assert w[|w|..] == [] && In(w[0], Digits);
    assert GroupsLen([]) == 0 && FractionLen([]) == 0;
    assert !IsGrouped(w);
  }

  lemma DecimalNumeral(n: nat)
    ensures IsNumeral(Decimal(n)) && ValueOf(Decimal(n)) == n as real && All(Decimal(n), Digits)
  {
    hide IsNumeral, ValueOf, Decimal, NatOf;
    DigitsNumeral(Decimal(n));
    NatOfDecimal(n);
  }

  /** Behind its first digits, a numeral goes on with a separator. */
  lemma NumeralGoesOn(w: Text)
    requires IsNumeral(w)
    ensures var d := PrefixLen(w, Digits); 0 < d && (d < |w| ==> IsSep(w[d]))
  {}

  lemma NumeralMunch(w: Text)
    requires IsNumeral(w)
    ensures MunchNumber(w, 0) == Cut([ChunkTok(w, 0)], |w|)
  {
    NumeralGoesOn(w);
    assert w[|w|..] == [] && w[..|w|] == w;
    assert GluedLen([]) == 0;
    assert ShorthandLen(w) == 0 by { hide BodyLen; }
    hide BodyLen, ShorthandLen, ParseNumText, WordFor;
  }

  lemma ChunkLex(w: Text)
    requires IsChunk(w)
    ensures Tokens(w) == [ChunkTok(w, 0)]
  {
    hide Lex, MunchNumber, WordOf, ValueOf, BodyLen;
    LexUnfolds(w, false, 0);
    LexEmpty([], IsWordChar(w[|w| - 1]), |w|);
    if w[0].Dig? {
      NumeralMunch(w);
      assert w[|w|..] == [];
    } else {
      PrefixIs(w, Letters, |w|);
      assert w[..|w|] == w && w[|w|..] == [];
    }
  }

  /** The token at `k` is followed by whitespace or by nothing. */
  predicate StandsFree(text: Text, toks: seq<Tok>, k: nat)
    requires k < |toks|
  {
    toks[k].end <= |text|
    && (text[toks[k].end..] == [] || text[toks[k].end].Space?)
    && (k + 1 < |toks| ==> toks[k].end < toks[k + 1].start)
  }

  predicate ReadsAt(text: Text, toks: seq<Tok>, ws: seq<Text>, k: nat)
    requires k < |toks| == |ws|
  {
    IsChunk(ws[k]) && toks[k] == ChunkTok(ws[k], toks[k].start) && StandsFree(text, toks, k)
  }

  /** The tokens read the chunks one by one, each standing free, from end to end of the text. */
  predicate Reads(text: Text, toks: seq<Tok>, ws: seq<Text>) {
    |toks| == |ws| > 0
    && (forall k | 0 <= k < |ws| :: ReadsAt(text, toks, ws, k))
    && toks[0].start == 0 && toks[|ws| - 1].end == |text|
  }

  /** The tokens `lo` to `hi` read chunks of a longer text. */
  predicate ReadsPart(text: Text, toks: seq<Tok>, ws: seq<Text>, lo: nat, hi: nat) {
    |toks| == |ws| && hi <= |ws| && forall k | lo <= k < hi :: ReadsAt(text, toks, ws, k)
  }

  lemma ReadsAsPart(text: Text, toks: seq<Tok>, ws: seq<Text>)
    requires Reads(text, toks, ws)
    ensures |toks| == |ws| && ReadsPart(text, toks, ws, 0, |ws|)
  {
    hide ReadsAt;
  }

  lemma ReadsHere(text: Text, toks: seq<Tok>, ws: seq<Text>, k: nat)
    requires Reads(text, toks, ws) && k < |ws|
    ensures k < |toks| == |ws| && ReadsAt(text, toks, ws, k)
  {
    hide ReadsAt;
  }

  /** Joined words are read back, each as the chunk it is. */
  lemma {:induction false} JoinReads(ws: seq<Text>)
    requires ws != [] && AreChunks(ws)
    ensures Reads(Join(ws), Tokens(Join(ws)), ws)
    decreases |ws|
  {
    hide Lex, Reads, ChunkTok;
    ChunkLex(ws[0]);
    if |ws| == 1 {
      OneReads(ws[0]);
      assert ws == [ws[0]];
    } else {
      var rest := Join(ws[1..]);
      JoinReads(ws[1..]);
      TokensAcrossSpace(ws[0], BLANK, rest);
      JoinCons(ws[0], rest, Tokens(rest), ws[1..]);
      assert ws == [ws[0]] + ws[1..];
    }
  }

  lemma OneReads(w: Text)
    requires IsChunk(w)
    ensures Reads(w, [ChunkTok(w, 0)], [w])
  {
    hide WordFor, ValueOf;
    assert ReadsAt(w, [ChunkTok(w, 0)], [w], 0);
  }

  lemma JoinCons(w: Text, rest: Text, tail: seq<Tok>, ws: seq<Text>)
    requires IsChunk(w) && Reads(rest, tail, ws)
    ensures Reads(w + [BLANK] + rest, [ChunkTok(w, 0)] + ShiftAll(tail, |w| + 1), [w] + ws)
  {
    hide WordFor, ValueOf, ReadsAt;
    var text, toks := w + [BLANK] + rest, [ChunkTok(w, 0)] + ShiftAll(tail, |w| + 1);
    forall k | 0 <= k < |toks| ensures ReadsAt(text, toks, [w] + ws, k) {
      ConsReadsAt(w, rest, tail, ws, k);
    }
  }

  lemma ConsReadsAt(w: Text, rest: Text, tail: seq<Tok>, ws: seq<Text>, k: nat)
    requires IsChunk(w) && Reads(rest, tail, ws) && k <= |ws|
    ensures ReadsAt(w + [BLANK] + rest, [ChunkTok(w, 0)] + ShiftAll(tail, |w| + 1), [w] + ws, k)
  {
    hide WordFor, ValueOf, IsChunk;
    var text, d := w + [BLANK] + rest, |w| + 1;
    if k > 0 {
      var t := tail[k - 1];
      assert ReadsAt(rest, tail, ws, k - 1);
      assert text[t.end + d..] == rest[t.end..];
    }
  }
}
