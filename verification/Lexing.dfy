/** What the tokenizer guarantees: it loses nothing, every numeral it cuts out can be read, and the
    tokens of a text do not depend on what stands beyond a space or a punctuation mark. */
module Lexing {
  import opened Text
  import opened Vocabulary
  import opened Lexer

  // ----- every number token has a shape `_parse_num_text` can read ------------------------------

  /** `r` cannot continue the digits, the groups and the decimal part of a numeral. */
  predicate EndsNumeral(r: Text) { r == [] || (!r[0].Dig? && !(IsSep(r[0]) && |r| > 1 && r[1].Dig?)) }

  /** `r` cannot continue a run of word characters either. */
  predicate Detached(r: Text) { EndsNumeral(r) && (r == [] || !IsWordChar(r[0])) }

  lemma {:induction false} GroupsOf(a: Text, r: Text)
    requires EndsNumeral(r)
    ensures GroupsLen(a + r) == GroupsLen(a)
    decreases |a|
  {
    if a == [] {
      assert a + r == r;
    } else {
      assert (a + r)[1..] == a[1..] + r;
      PrefixOf(a[1..], r, Digits);
      if IsSep(a[0]) && PrefixLen(a[1..], Digits) == 3 {
        assert (a + r)[4..] == a[4..] + r;
        GroupsOf(a[4..], r);
      }
    }
  }

  lemma FractionOfPrefix(a: Text, r: Text)
    requires EndsNumeral(r)
    ensures FractionLen(a + r) == FractionLen(a)
  {
    if a == [] {
      assert a + r == r;
    } else {
      assert (a + r)[1..] == a[1..] + r;
      PrefixOf(a[1..], r, Digits);
      if |a| == 1 { assert a[1..] + r == r; }
    }
  }

  lemma WholeOf(a: Text, r: Text)
    requires EndsNumeral(r)
    ensures WholeLen(a + r) == WholeLen(a)
  {
    PrefixOf(a, r, Digits);
    var d := PrefixLen(a, Digits);
    assert (a + r)[d..] == a[d..] + r;
    GroupsOf(a[d..], r);
  }

  lemma BodyOf(a: Text, r: Text)
    requires EndsNumeral(r)
    ensures BodyLen(a + r) == BodyLen(a)
  {
    WholeOf(a, r);
    var w := WholeLen(a);
    assert (a + r)[w..] == a[w..] + r;
    FractionOfPrefix(a[w..], r);
  }

  /** Cutting a text behind a numeral does not change the digits and groups of the numeral. */
  lemma {:induction false} GroupsCut(s: Text, m: nat)
    requires m == GroupsLen(s) + FractionLen(s[GroupsLen(s)..])
    ensures GroupsLen(s[..m]) == GroupsLen(s)
    decreases |s|
  {
    hide PrefixLen, FractionLen;
    var g := GroupsLen(s);
    if g > 0 {
      assert s[..m][1..] == s[1..][..m - 1];
      DigitsCut(s[1..], m - 1);
      assert s[..m][4..] == s[4..][..m - 4];
      assert s[4..][g - 4..] == s[g..];
      GroupsCut(s[4..], m - 4);
    } else {
      assert s[0..] == s;
      NoGroups(s, m);
    }
  }

  lemma NoGroups(s: Text, m: nat)
    requires GroupsLen(s) == 0 && m == FractionLen(s)
    ensures GroupsLen(s[..m]) == 0
  {
    if m > 0 {
      assert s[..m][1..] == s[1..][..m - 1];
      DigitsCut(s[1..], m - 1);
    }
  }

  lemma DigitsCut(s: Text, m: nat)
    requires m <= |s|
    ensures PrefixLen(s[..m], Digits) == if PrefixLen(s, Digits) <= m then PrefixLen(s, Digits) else m
  {
    PrefixIs(s[..m], Digits, if PrefixLen(s, Digits) <= m then PrefixLen(s, Digits) else m);
  }

  lemma WholeCut(s: Text, m: nat)
    requires m == BodyLen(s)
    ensures PrefixLen(s[..m], Digits) == PrefixLen(s, Digits)
    ensures WholeLen(s[..m]) == WholeLen(s)
  {
    hide FractionLen, PrefixLen, GroupsLen;
    var d, w := PrefixLen(s, Digits), WholeLen(s);
    DigitsCut(s, m);
    if d <= 3 {
      var q := s[d..];
      assert s[..m][d..] == q[..m - d];
      assert q[w - d..] == s[w..];
      GroupsCut(q, m - d);
    }
  }

  lemma FractionReads(s: Text)
    requires FractionLen(s) > 0
    ensures IsFraction(s[..FractionLen(s)])
  {
    var n := FractionLen(s);
    assert s[..n][1..] == s[1..][..n - 1];
  }

  lemma CutTwice(s: Text, w: nat, b: nat)
    requires w <= b <= |s|
    ensures s[..b][w..] == s[w..][..b - w]
  {}

  lemma NumeralShape(s: Text)
    requires s != [] && s[0].Dig?
    ensures var a, d, w := s[..BodyLen(s)], PrefixLen(s, Digits), WholeLen(s);
            0 < d == PrefixLen(a, Digits) && w == WholeLen(a) && (w < |a| ==> IsFraction(a[w..]))
  {
    hide WholeLen, IsFraction, FractionLen, GroupsLen;
    var w, b := WholeLen(s), BodyLen(s);
    WholeCut(s, b);
    if w < b {
      FractionReads(s[w..]);
      CutTwice(s, w, b);
    }
  }

  /** A numeral at the head of `s` is a text that `_parse_num_text` can read. */
  lemma NumeralReadable(s: Text)
    requires s != [] && s[0].Dig?
    ensures ParseNumText(s[..BodyLen(s)]).Is?
  {
    NumeralShape(s);
    hide BodyLen, NatOf, StripSeps, FractionOf;
  }

  // ----- the tokens tile the text ---------------------------------------------------------------

  /** What a token says about its own text. */
  predicate WellCut(t: Tok) {
    match t
    case Num(text, _, _, value, implied) =>
      text != [] && text[0].Dig? && value >= 0.0
      && (implied.Absent? ==> ParseNumText(text) == Is(value))
      && (implied.Is? ==> !All(text, Digits)
                          && (implied.value == Base(Thousand) || implied.value == Base(Million))
                          && (value == 0.0 || value >= 1.0))
    case Word(text, _, _, word) => All(text, Letters) && word == WordOf(Lower(text))
    case Other(text, _, _) => |text| == 1 && !text[0].Let?
  }

  predicate Solid(s: Text) { forall k | 0 <= k < |s| :: !s[k].Space? }

  /** `t` is the first token of `s`, which starts at `pos`; only whitespace stands before it. */
  predicate Opens(s: Text, pos: nat, t: Tok) {
    pos <= t.start < t.end == t.start + |t.text| <= pos + |s|
    && WellCut(t) && Solid(t.text)
    && All(s[..t.start - pos], Spaces)
    && t.text == s[t.start - pos..t.end - pos]
  }

  /** The tokens stand in `s`, which starts at `pos`, in order and without overlap, and nothing but
      whitespace lies between them: every other character belongs to exactly one token. */
  predicate Tiles(s: Text, pos: nat, toks: seq<Tok>)
    decreases |toks|
  {
    if toks == [] then All(s, Spaces)
    else Opens(s, pos, toks[0]) && Tiles(s[toks[0].end - pos..], toks[0].end, toks[1..])
  }

  lemma OpensRange(s: Text, pos: nat, t: Tok)
    requires Opens(s, pos, t)
    ensures pos <= t.start < t.end == t.start + |t.text| <= pos + |s|
  {
    hide WellCut, Solid;
  }

  lemma SolidBody(s: Text)
    requires s != [] && s[0].Dig?
    ensures Solid(s[..BodyLen(s)])
  {
    var w, d := WholeLen(s), PrefixLen(s, Digits);
    if d <= 3 { SolidGroups(s[d..]); }
    forall k | 0 <= k < BodyLen(s) ensures !s[k].Space? {
      if k < d {
      } else if k < w {
        assert s[k] == s[d..][k - d];
      } else if k == w {
        assert s[k] == s[w..][0];
      } else {
        assert s[k] == s[w..][1..][k - w - 1];
      }
    }
  }

  lemma {:induction false} SolidGroups(s: Text)
    ensures forall k | 0 <= k < GroupsLen(s) :: !s[k].Space?
    decreases |s|
  {
    if GroupsLen(s) > 0 {
      SolidGroups(s[4..]);
      forall k | 0 <= k < GroupsLen(s) ensures !s[k].Space? {
        if 1 <= k < 4 { assert s[k] == s[1..][k - 1]; }
        if 4 <= k { assert s[k] == s[4..][k - 4]; }
      }
    }
  }

  lemma SolidShorthand(s: Text)
    requires s != [] && s[0].Dig? && ShorthandLen(s) > 0
    ensures Solid(s[..ShorthandLen(s)])
    ensures s[ShorthandLen(s) - 1].Dig?
  {
    var d := PrefixLen(s, Digits);
    forall k | 0 <= k < ShorthandLen(s) ensures !s[k].Space? {
      if k >= d { assert s[k] == s[d..][k - d]; }
    }
    var n := ShorthandLen(s);
    assert s[n - 1] == s[d..][n - 1 - d];
  }

  lemma OneTile(s: Text, t: Tok)
    requires WellCut(t) && Solid(s) && t.text == s && t.end == t.start + |s| && s != []
    ensures Tiles(s, t.start, [t])
  {
    hide WellCut, Solid;
    assert Opens(s, t.start, t);
    hide Opens;
    assert s[t.end - t.start..] == [];
    assert [t][1..] == [];
  }

  lemma NumeralTiles(s: Text, pos: nat)
    requires s != [] && s[0].Dig?
    ensures Tiles(s[..BodyLen(s)], pos, [NumTok(s[..BodyLen(s)], pos)])
  {
    NumeralReadable(s);
    SolidBody(s);
    hide ParseNumText, Solid, BodyLen;
    OneTile(s[..BodyLen(s)], NumTok(s[..BodyLen(s)], pos));
  }

  lemma WordTiles(s: Text, pos: nat)
    requires s != [] && All(s, Letters)
    ensures Tiles(s, pos, [WordTok(s, pos)])
  {
    hide WordOf;
    OneTile(s, WordTok(s, pos));
  }

  lemma ShorthandTiles(s: Text, pos: nat)
    requires s != [] && s[0].Dig? && ShorthandLen(s) > 0
    ensures Tiles(s[..ShorthandLen(s)], pos, [Shorthand(s, pos)])
  {
    SolidShorthand(s);
    var d := PrefixLen(s, Digits);
    assert s[..ShorthandLen(s)][d] == s[d..][0];
    hide Solid, ShortScale, ShorthandLen;
    OneTile(s[..ShorthandLen(s)], Shorthand(s, pos));
  }

  lemma GluedWordTiles(s: Text, pos: nat)
    requires GluedLen(s) > 0
    ensures Tiles(s[..GluedLen(s)], pos, [WordTok(s[..GluedLen(s)], pos)])
  {
    hide Tiles, WordTok, IsGluedScale;
    WordTiles(s[..GluedLen(s)], pos);
  }

  lemma GluedTiles(s: Text, pos: nat, b: nat, g: nat)
    requires s != [] && s[0].Dig? && b == BodyLen(s) && 0 < g == GluedLen(s[b..])
    ensures Tiles(s[..b + g], pos, [NumTok(s[..b], pos)] + [WordTok(s[b..][..g], pos + b)])
  {
    hide WellCut, Tiles, BodyLen, GluedLen, NumTok, WordTok;
    NumeralTiles(s, pos);
    GluedWordTiles(s[b..], pos + b);
    assert s[..b + g] == s[..b] + s[b..][..g];
    TilesJoin(s[..b], pos, [NumTok(s[..b], pos)], s[b..][..g], [WordTok(s[b..][..g], pos + b)]);
  }

  lemma NumberTiles(s: Text, pos: nat)
    requires s != [] && s[0].Dig?
    ensures Tiles(s[..MunchNumber(s, pos).len], pos, MunchNumber(s, pos).toks)
  {
    hide Tiles, Shorthand, ShorthandLen, BodyLen, GluedLen, NumTok, WordTok;
    var b := BodyLen(s);
    var g := GluedLen(s[b..]);
    if ShorthandLen(s) > 0 {
      ShorthandTiles(s, pos);
    } else if g > 0 {
      GluedTiles(s, pos, b, g);
    } else {
      NumeralTiles(s, pos);
    }
  }

  lemma MunchTiles(s: Text, afterWord: bool, pos: nat)
    requires s != [] && !s[0].Space?
    ensures var Cut(toks, n) := Munch(s, afterWord, pos); Tiles(s[..n], pos, toks)
  {
    hide Tiles, MunchNumber, WordTok;
    if s[0].Dig? && !afterWord {
      NumberTiles(s, pos);
    } else if s[0].Let? {
      WordTiles(s[..PrefixLen(s, Letters)], pos);
    } else {
      OtherTiles(s[..1], pos);
    }
  }

  lemma OtherTiles(s: Text, pos: nat)
    requires |s| == 1 && !s[0].Space? && !s[0].Let?
    ensures Tiles(s, pos, [Other(s, pos, pos + 1)])
  {
    OneTile(s, Other(s, pos, pos + 1));
  }

  lemma SpacesBefore(a: Text, b: Text, pos: nat, toks: seq<Tok>)
    requires All(a, Spaces) && Tiles(b, pos + |a|, toks)
    ensures Tiles(a + b, pos, toks)
  {
    hide WellCut, Solid;
    if toks != [] {
      var t := toks[0];
      var s, x, y := a + b, t.start - pos, t.end - pos;
      assert s[..x] == a + b[..x - |a|];
      assert s[x..y] == b[x - |a|..y - |a|];
      assert Opens(s, pos, t);
      hide Opens;
      assert s[y..] == b[y - |a|..];
    }
  }

  lemma OpensLonger(a: Text, b: Text, pos: nat, t: Tok)
    requires Opens(a, pos, t)
    ensures Opens(a + b, pos, t)
  {
    hide WellCut, Solid;
    assert (a + b)[..t.start - pos] == a[..t.start - pos];
    assert (a + b)[t.start - pos..t.end - pos] == a[t.start - pos..t.end - pos];
  }

  lemma {:induction false} TilesJoin(a: Text, pos: nat, atoks: seq<Tok>, b: Text, btoks: seq<Tok>)
    requires Tiles(a, pos, atoks) && Tiles(b, pos + |a|, btoks)
    ensures Tiles(a + b, pos, atoks + btoks)
    decreases |atoks|
  {
    hide Opens;
    if atoks == [] {
      assert atoks + btoks == btoks;
      SpacesBefore(a, b, pos, btoks);
    } else {
      var t, rest := atoks[0], atoks[1..];
      OpensRange(a, pos, t);
      TilesJoin(a[t.end - pos..], t.end, rest, b, btoks);
      OpensLonger(a, b, pos, t);
      assert (a + b)[t.end - pos..] == a[t.end - pos..] + b;
      assert (atoks + btoks)[1..] == rest + btoks;
    }
  }

  lemma {:induction false} LexTiles(s: Text, afterWord: bool, pos: nat)
    ensures Tiles(s, pos, Lex(s, afterWord, pos))
    decreases |s|, 1
  {
    hide Munch, WellCut;
    if s == [] {
    } else if s[0].Space? {
      LexTiles(s[1..], false, pos + 1);
      SpacesBefore(s[..1], s[1..], pos, Lex(s[1..], false, pos + 1));
      assert s == s[..1] + s[1..];
    } else {
      MunchTiles(s, afterWord, pos);
      LexTilesAfter(s, afterWord, pos, Munch(s, afterWord, pos).toks, Munch(s, afterWord, pos).len);
    }
  }

  lemma {:induction false} LexTilesAfter(s: Text, afterWord: bool, pos: nat, toks: seq<Tok>, n: nat)
    requires s != [] && !s[0].Space? && Cut(toks, n) == Munch(s, afterWord, pos)
    requires Tiles(s[..n], pos, toks)
    ensures Tiles(s, pos, Lex(s, afterWord, pos))
    decreases |s|, 0
  {
    hide Munch, Tiles, Lex;
    var aw := IsWordChar(s[n - 1]);
    LexUnfolds(s, afterWord, pos);
    LexTiles(s[n..], aw, pos + n);
    TilesJoin(s[..n], pos, toks, s[n..], Lex(s[n..], aw, pos + n));
    assert s == s[..n] + s[n..];
  }

  /** What tiling means token by token. */
  predicate InOrder(text: Text, toks: seq<Tok>) {
    && (forall k | 0 <= k < |toks| ::
          toks[k].start < toks[k].end <= |text| && toks[k].text == text[toks[k].start..toks[k].end])
    && (forall k, l | 0 <= k < l < |toks| :: toks[k].end <= toks[l].start)
  }

  lemma {:induction false} TilesInOrder(text: Text, pos: nat, toks: seq<Tok>)
    requires pos <= |text| && Tiles(text[pos..], pos, toks)
    ensures InOrder(text, toks)
    ensures forall t | t in toks :: pos <= t.start && WellCut(t) && Solid(t.text)
    decreases |toks|
  {
    hide WellCut, Solid;
    if toks != [] {
      var t := toks[0];
      assert Opens(text[pos..], pos, t);
      assert text[pos..][t.end - pos..] == text[t.end..];
      TilesInOrder(text, t.end, toks[1..]);
      assert forall k | 1 <= k < |toks| :: toks[k] == toks[1..][k - 1];
      assert text[pos..][t.start - pos..t.end - pos] == text[t.start..t.end];
    }
  }

  /** Every character of a text is whitespace or lies in a token. */
  lemma {:induction false} TilesCover(text: Text, pos: nat, toks: seq<Tok>, p: nat)
    requires pos <= p < |text| && Tiles(text[pos..], pos, toks)
    ensures text[p].Space? || exists t | t in toks :: t.start <= p < t.end
    decreases |toks|
  {
    hide WellCut, Solid;
    if toks == [] {
      assert In(text[pos..][p - pos], Spaces);
    } else {
      var t := toks[0];
      if p < t.start {
        assert In(text[pos..][..t.start - pos][p - pos], Spaces);
      } else if p >= t.end {
        assert text[pos..][t.end - pos..] == text[t.end..];
        TilesCover(text, t.end, toks[1..], p);
      }
    }
  }

  /** Lossless, total lexing: the tokens are slices of the text, in order and disjoint, each readable
      and without whitespace, and they leave out nothing but whitespace. */
  lemma TokensLossless(text: Text)
    ensures InOrder(text, Tokens(text))
    ensures forall t | t in Tokens(text) :: WellCut(t) && Solid(t.text)
    ensures forall p | 0 <= p < |text| ::
              text[p].Space? || exists t | t in Tokens(text) :: t.start <= p < t.end
  {
    hide WellCut, Solid, InOrder, Tiles, Lex;
    LexTiles(text, false, 0);
    assert text[0..] == text;
    TilesInOrder(text, 0, Tokens(text));
    forall p | 0 <= p < |text| && !text[p].Space?
      ensures exists t | t in Tokens(text) :: t.start <= p < t.end
    {
      TilesCover(text, 0, Tokens(text), p);
    }
  }

  // ----- a detached continuation does not change the tokens before it ---------------------------

  lemma ShorthandOf(a: Text, r: Text)
    requires Detached(r)
    ensures ShorthandLen(a + r) == ShorthandLen(a)
  {
    PrefixOf(a, r, Digits);
    var d := PrefixLen(a, Digits);
    assert (a + r)[d..] == a[d..] + r;
    ScaleLettersOf(a[d..], r);
    var m := ShortScale(a[d..]);
    assert forall k | d <= k < |a| :: (a + r)[k] == a[k];
  }

  lemma ScaleLettersOf(a: Text, r: Text)
    requires Detached(r)
    ensures ShortScale(a + r) == ShortScale(a)
    ensures ShorthandAhead(a + r) == ShorthandAhead(a)
  {
    if a == [] { assert a + r == r; }
  }

  lemma GluedOf(a: Text, r: Text)
    requires Detached(r)
    ensures GluedLen(a + r) == GluedLen(a)
  {
    PrefixOf(a, r, WordChars);
    PrefixOf(a, r, Letters);
    var w := PrefixLen(a, WordChars);
    assert (a + r)[..w] == a[..w];
    hide PrefixLen, IsGluedScale;
  }

  lemma ShorthandTokOf(a: Text, r: Text, pos: nat)
    requires Detached(r) && ShorthandLen(a) > 0
    ensures ShorthandLen(a + r) > 0 && Shorthand(a + r, pos) == Shorthand(a, pos)
  {
    hide ShorthandLen, ShortScale, PrefixLen, NatOf, Detached;
    var s, n, d := a + r, ShorthandLen(a), PrefixLen(a, Digits);
    ShorthandOf(a, r);
    PrefixOf(a, r, Digits);
    ScaleLettersOf(a[d..], r);
    assert s[d..] == a[d..] + r;
    assert s[..n] == a[..n] && s[..d] == a[..d] && s[n - 1] == a[n - 1];
  }

  lemma DetachedEnds(r: Text)
    requires Detached(r)
    ensures EndsNumeral(r)
  {}

  lemma NumberOf(a: Text, r: Text, pos: nat)
    requires a != [] && a[0].Dig? && Detached(r)
    ensures MunchNumber(a + r, pos) == MunchNumber(a, pos)
  {
    hide BodyLen, ShorthandLen, Shorthand, GluedLen, PrefixLen, NumTok, WordTok, Detached;
    var s, b := a + r, BodyLen(a);
    ShorthandOf(a, r);
    DetachedEnds(r);
    BodyOf(a, r);
    var q, g := a[b..], GluedLen(a[b..]);
    assert s[b..] == q + r;
    GluedOf(q, r);
    if ShorthandLen(a) > 0 {
      ShorthandTokOf(a, r, pos);
    } else {
      assert s[..b] == a[..b];
      assert (q + r)[..g] == q[..g];
    }
  }

  lemma DetachedPrefix(a: Text, r: Text, cls: Class)
    requires Detached(r) && !cls.Spaces?
    ensures PrefixLen(a + r, cls) == PrefixLen(a, cls)
  {
    PrefixOf(a, r, cls);
  }

  lemma MunchOf(a: Text, r: Text, afterWord: bool, pos: nat)
    requires a != [] && !a[0].Space? && Detached(r)
    ensures Munch(a + r, afterWord, pos) == Munch(a, afterWord, pos)
  {
    hide MunchNumber, PrefixLen, WordTok, Detached;
    if a[0].Dig? && !afterWord {
      NumberOf(a, r, pos);
    } else {
      DetachedPrefix(a, r, Letters);
      var n := PrefixLen(a, Letters);
      assert (a + r)[..n] == a[..n] && (a + r)[..1] == a[..1];
    }
  }

  lemma LexUnfolds(s: Text, afterWord: bool, pos: nat)
    requires s != []
    ensures s[0].Space? ==> Lex(s, afterWord, pos) == Lex(s[1..], false, pos + 1)
    ensures !s[0].Space? ==>
              var Cut(toks, n) := Munch(s, afterWord, pos);
              Lex(s, afterWord, pos) == toks + Lex(s[n..], IsWordChar(s[n - 1]), pos + n)
  {
    hide Munch;
  }

  /** Whether the character behind `a` follows a word character. */
  predicate EndsWord(a: Text, afterWord: bool) {
    if a == [] then afterWord else IsWordChar(a[|a| - 1])
  }

  lemma {:induction false} LexSplit(a: Text, r: Text, afterWord: bool, pos: nat)
    requires Detached(r)
    ensures Lex(a + r, afterWord, pos)
         == Lex(a, afterWord, pos) + Lex(r, EndsWord(a, afterWord), pos + |a|)
    decreases |a|
  {
    hide Munch, Detached, Lex;
    if a == [] {
      assert a + r == r;
      assert Lex(a, afterWord, pos) == [] by { LexEmpty(a, afterWord, pos); }
    } else if a[0].Space? {
      LexUnfolds(a, afterWord, pos);
      LexUnfolds(a + r, afterWord, pos);
      assert (a + r)[1..] == a[1..] + r;
      LexSplit(a[1..], r, false, pos + 1);
    } else {
      LexUnfolds(a, afterWord, pos);
      LexUnfolds(a + r, afterWord, pos);
      MunchOf(a, r, afterWord, pos);
      var Cut(toks, n) := Munch(a, afterWord, pos);
      assert (a + r)[n..] == a[n..] + r;
      LexSplit(a[n..], r, IsWordChar(a[n - 1]), pos + n);
      assert EndsWord(a[n..], IsWordChar(a[n - 1])) == EndsWord(a, afterWord);
    }
  }

  // ----- positions are relative -----------------------------------------------------------------

  function Shift(t: Tok, d: nat): Tok { t.(start := t.start + d, end := t.end + d) }

  function ShiftAll(toks: seq<Tok>, d: nat): (r: seq<Tok>)
    ensures |r| == |toks|
    ensures forall k | 0 <= k < |toks| :: r[k] == Shift(toks[k], d)
  {
    seq(|toks|, k requires 0 <= k < |toks| => Shift(toks[k], d))
  }

  lemma MunchShift(s: Text, afterWord: bool, pos: nat, d: nat)
    requires s != [] && !s[0].Space?
    ensures Munch(s, afterWord, pos + d).len == Munch(s, afterWord, pos).len
    ensures Munch(s, afterWord, pos + d).toks == ShiftAll(Munch(s, afterWord, pos).toks, d)
  {
    hide BodyLen, ShorthandLen, GluedLen, ShortScale, PrefixLen, NatOf, ParseNumText, WordOf;
  }

  lemma {:induction false} LexShift(s: Text, afterWord: bool, pos: nat, d: nat)
    ensures Lex(s, afterWord, pos + d) == ShiftAll(Lex(s, afterWord, pos), d)
    decreases |s|
  {
    hide Munch, Lex;
    if s == [] {
      LexEmpty(s, afterWord, pos);
      LexEmpty(s, afterWord, pos + d);
    } else {
      LexUnfolds(s, afterWord, pos);
      LexUnfolds(s, afterWord, pos + d);
      if s[0].Space? {
        LexShift(s[1..], false, pos + 1, d);
      } else {
        MunchShift(s, afterWord, pos, d);
        var n := Munch(s, afterWord, pos).len;
        LexShift(s[n..], IsWordChar(s[n - 1]), pos + n, d);
      }
    }
  }

  /** The tokens of two texts with a space between them. */
  lemma TokensAcrossSpace(a: Text, c: Ch, b: Text)
    requires c.Space?
    ensures Tokens(a + [c] + b) == Tokens(a) + ShiftAll(Tokens(b), |a| + 1)
  {
    hide Munch;
    assert a + [c] + b == a + ([c] + b);
    LexSplit(a, [c] + b, false, 0);
    assert ([c] + b)[1..] == b;
    LexShift(b, false, 0, |a| + 1);
  }

  /** The tokens of two texts with a punctuation mark between them. A separator must not be
      followed by a digit, for then it could be part of a number. */
  lemma TokensAcrossMark(a: Text, c: Ch, b: Text)
    requires c.Sym? && Detached([c] + b)
    ensures Tokens(a + [c] + b)
         == Tokens(a) + [Other([c], |a|, |a| + 1)] + ShiftAll(Tokens(b), |a| + 1)
  {
    hide Lex, Detached;
    var r := [c] + b;
    assert a + [c] + b == a + r;
    LexSplit(a, r, false, 0);
    assert r[1..] == b && r[..1] == [c];
    LexShift(b, false, 0, |a| + 1);
    LexUnfolds(r, EndsWord(a, false), |a|);
  }
}
