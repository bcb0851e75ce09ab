/** `strip_kinship` on sentences, and exactly when a second pass finds nothing more to remove. */
module KinshipTwice {
  import opened Text
  import opened Vocabulary
  import opened Words
  import opened Kinship
  import opened KinshipText

  // ----- sentences ------------------------------------------------------------------------------

  /** Words of letters with whitespace between them. */
  predicate IsSentence(ws: seq<Text>, gs: seq<Text>) {
    |ws| == |gs| + 1
    && (forall k | 0 <= k < |ws| :: ws[k] != [] && All(ws[k], Letters))
    && forall k | 0 <= k < |gs| :: gs[k] != [] && All(gs[k], Spaces)
  }

  /** How many words at the head of a sentence are titles in front of a name. */
  function LeadCount(ws: seq<Text>): (k: nat)
    ensures ws != [] ==> k < |ws|
    ensures ws == [] ==> k == 0
  {
    if |ws| > 1 && IsTitle(ws[0]) && LooksLikeName(ws[1]) then 1 + LeadCount(ws[1..]) else 0
  }

  /** How many of them stand before the first gap wider than one character. */
  function CloseLead(ws: seq<Text>, gs: seq<Text>): (k: nat)
    requires |ws| == |gs| + 1
    ensures k <= |gs|
  {
    if |ws| > 1 && IsTitle(ws[0]) && LooksLikeName(ws[1]) then
      1 + if |gs[0]| == 1 then CloseLead(ws[1..], gs[1..]) else 0
    else 0
  }

  /** The gaps one after the other. */
  function Flat(gs: seq<Text>): Text { if gs == [] then [] else gs[0] + Flat(gs[1..]) }

  function NarrowGap(g: Text): Text { if |g| == 1 then g else [BLANK] }

  /** The gaps once runs of whitespace are collapsed. */
  function Narrow(gs: seq<Text>): (r: seq<Text>)
    ensures |r| == |gs|
  {
    seq(|gs|, k requires 0 <= k < |gs| => NarrowGap(gs[k]))
  }

  lemma SentenceTail(ws: seq<Text>, gs: seq<Text>, k: nat)
    requires IsSentence(ws, gs) && k <= |gs|
    ensures IsSentence(ws[k..], gs[k..])
  {
    assert forall i | 0 <= i < |ws| - k :: ws[k..][i] == ws[k + i];
    assert forall i | 0 <= i < |gs| - k :: gs[k..][i] == gs[k + i];
  }

  lemma SpacedUnfolds(ws: seq<Text>, gs: seq<Text>)
    requires |ws| == |gs| + 1
    ensures gs == [] ==> SetOut(ws, gs) == ws[0]
    ensures gs != [] ==> SetOut(ws, gs) == ws[0] + (gs[0] + SetOut(ws[1..], gs[1..]))
  {
    hide SetOut;
    if gs != [] {
      assert SetOut(ws, gs) == ws[0] + gs[0] + SetOut(ws[1..], gs[1..]) by { SpacedMore(ws, gs); }
    } else {
      SpacedOne(ws, gs);
    }
  }

  lemma SpacedOne(ws: seq<Text>, gs: seq<Text>)
    requires |ws| == |gs| + 1 == 1
    ensures SetOut(ws, gs) == ws[0]
  {}

  lemma SpacedMore(ws: seq<Text>, gs: seq<Text>)
    requires |ws| == |gs| + 1 > 1
    ensures SetOut(ws, gs) == ws[0] + gs[0] + SetOut(ws[1..], gs[1..])
  {}

  /** A sentence begins with a letter and ends in one. */
  lemma {:induction false} SentenceEnds(ws: seq<Text>, gs: seq<Text>)
    requires IsSentence(ws, gs)
    ensures var s := SetOut(ws, gs); s != [] && s[0] == ws[0][0] && s[0].Let? && s[|s| - 1].Let?
    decreases |ws|
  {
    hide SetOut;
    SpacedUnfolds(ws, gs);
    assert In(ws[0][0], Letters) && In(ws[0][|ws[0]| - 1], Letters);
    if gs != [] {
      SentenceTail(ws, gs, 1);
      SentenceEnds(ws[1..], gs[1..]);
    }
  }

  // ----- the pieces of a sentence ---------------------------------------------------------------

  lemma {:induction false} SkipGap(g: Text, rest: Text, pos: nat)
    requires All(g, Spaces)
    ensures PiecesFrom(g + rest, pos) == PiecesFrom(rest, pos + |g|)
    decreases |g|
  {
    hide PiecesFrom;
    if g == [] {
      assert g + rest == rest;
    } else {
      assert In(g[0], Spaces);
      PiecesUnfold(g + rest, pos);
      assert (g + rest)[1..] == g[1..] + rest;
      SkipGap(g[1..], rest, pos + 1);
    }
  }

  /** The first piece of a sentence is its first word. */
  lemma SentencePieces(ws: seq<Text>, gs: seq<Text>, pos: nat)
    requires IsSentence(ws, gs)
    ensures gs == [] ==> PiecesFrom(SetOut(ws, gs), pos) == [Piece(ws[0], pos, pos + |ws[0]|)]
    ensures gs != [] ==>
              PiecesFrom(SetOut(ws, gs), pos)
              == [Piece(ws[0], pos, pos + |ws[0]|)] + PiecesFrom(SetOut(ws[1..], gs[1..]), pos + |ws[0]| + |gs[0]|)
  {
    hide PiecesFrom, SetOut;
    var w, s := ws[0], SetOut(ws, gs);
    var n := |w|;
    SpacedUnfolds(ws, gs);
    assert s[0] == w[0] && In(w[0], Letters);
    assert forall k | 0 <= k < n :: s[k] == w[k];
    var r := s[n..];
    if gs == [] {
      NoPieces(r, pos + n);
    } else {
      assert r == gs[0] + SetOut(ws[1..], gs[1..]);
      assert r[0] == gs[0][0] && In(gs[0][0], Spaces);
      SkipGap(gs[0], SetOut(ws[1..], gs[1..]), pos + n);
    }
    assert n < |s| ==> s[n] == r[0];
    PrefixIs(s, Letters, n);
    PiecesUnfold(s, pos);
    assert s[..n] == w;
  }

  /** The first word of a sentence qualifies if it is a title in front of a name and stands close. */
  lemma SentenceQualifies(ws: seq<Text>, gs: seq<Text>, pos: nat, frontier: nat)
    requires IsSentence(ws, gs)
    ensures PiecesFrom(SetOut(ws, gs), pos) != []
    ensures Qualifies(PiecesFrom(SetOut(ws, gs), pos), frontier)
            <==> pos <= frontier + 1 && |ws| > 1 && IsTitle(ws[0]) && LooksLikeName(ws[1])
  {
    hide PiecesFrom, IsTitle, LooksLikeName, SetOut;
    SentencePieces(ws, gs, pos);
    if gs != [] {
      SentenceTail(ws, gs, 1);
      SentencePieces(ws[1..], gs[1..], pos + |ws[0]| + |gs[0]|);
      assert In(ws[1][0], Letters);
    }
  }

  // ----- cutting the cluster out of a sentence --------------------------------------------------

  /** The words that go from a sentence which stands behind `lead` whitespace characters. */
  function Going(ws: seq<Text>, gs: seq<Text>, lead: nat): (k: nat)
    requires |ws| == |gs| + 1
    ensures k <= |gs|
  {
    if lead <= 1 then CloseLead(ws, gs) else 0
  }

  /** What is left of a sentence when the first `k` words go. */
  function LeftOver(lead: Text, ws: seq<Text>, gs: seq<Text>, k: nat): Text
    requires |ws| == |gs| + 1 && k <= |gs|
  {
    lead + Flat(gs[..k]) + SetOut(ws[k..], gs[k..])
  }

  lemma ClusterCons(text: Text, prev: nat, ps: seq<Piece>, frontier: nat)
    requires ps != [] && Qualifies(ps, frontier)
    ensures var gone := Cluster(ps[1..], ps[0].end);
            Cluster(ps, frontier) == [ps[0]] + gone
            && TextsOf([ps[0]] + gone) == [ps[0].text] + TextsOf(gone)
            && CutOut(text, prev, [ps[0]] + gone) == Slice(text, prev, ps[0].start) + CutOut(text, ps[0].end, gone)
  {
    hide Qualifies, Slice;
    var gone := Cluster(ps[1..], ps[0].end);
    assert ([ps[0]] + gone)[1..] == gone;
  }

  lemma BehindFirst(text: Text, prev: nat, lead: Text, ws: seq<Text>, gs: seq<Text>)
    requires IsSentence(ws, gs) && gs != [] && prev <= |text| && text[prev..] == lead + SetOut(ws, gs)
    ensures var e := prev + |lead| + |ws[0]|; e <= |text| && text[e..] == gs[0] + SetOut(ws[1..], gs[1..])
    ensures Slice(text, prev, prev + |lead|) == lead
  {
    hide SetOut;
    SpacedUnfolds(ws, gs);
    var s, e := text[prev..], prev + |lead| + |ws[0]|;
    var behind := gs[0] + SetOut(ws[1..], gs[1..]);
    assert s == lead + ws[0] + behind;
    assert s[|lead| + |ws[0]|..] == behind;
    assert text[e..] == s[e - prev..];
    assert text[prev..prev + |lead|] == s[..|lead|];
  }

  lemma LeftOverMore(lead: Text, ws: seq<Text>, gs: seq<Text>, k: nat)
    requires |ws| == |gs| + 1 && 0 < k <= |gs|
    ensures lead + LeftOver(gs[0], ws[1..], gs[1..], k - 1) == LeftOver(lead, ws, gs, k)
    ensures [ws[0]] + ws[1..][..k - 1] == ws[..k]
  {
    hide SetOut;
    assert gs[..k][0] == gs[0] && gs[..k][1..] == gs[1..][..k - 1];
    assert ws[1..][k - 1..] == ws[k..] && gs[1..][k - 1..] == gs[k..];
  }

  lemma LeftOverAll(text: Text, prev: nat, lead: Text, ws: seq<Text>, gs: seq<Text>)
    requires |ws| == |gs| + 1 && prev <= |text| && text[prev..] == lead + SetOut(ws, gs)
    ensures CutOut(text, prev, []) == LeftOver(lead, ws, gs, 0) && TextsOf([]) == ws[..0]
  {
    hide SetOut;
    assert CutOut(text, prev, []) == text[prev..];
    assert gs[..0] == [] && ws[0..] == ws && gs[0..] == gs && lead + [] == lead;
  }

  /** From a sentence the close titles in front of a name go, and the whitespace between them stays. */
  lemma {:induction false} SentenceCut(text: Text, prev: nat, lead: Text, ws: seq<Text>, gs: seq<Text>)
    requires IsSentence(ws, gs) && All(lead, Spaces)
    requires prev <= |text| && text[prev..] == lead + SetOut(ws, gs)
    ensures var gone, k := Cluster(PiecesFrom(text[prev..], prev), prev), Going(ws, gs, |lead|);
            TextsOf(gone) == ws[..k] && CutOut(text, prev, gone) == LeftOver(lead, ws, gs, k)
    decreases |ws|
  {
    hide PiecesFrom, IsTitle, LooksLikeName, SetOut, Qualifies, Slice, CutOut, LeftOver, TextsOf;
    var pos := prev + |lead|;
    var ps := PiecesFrom(SetOut(ws, gs), pos);
    SkipGap(lead, SetOut(ws, gs), prev);
    SentencePieces(ws, gs, pos);
    SentenceQualifies(ws, gs, pos, prev);
    if Qualifies(ps, prev) {
      var e := ps[0].end;
      BehindFirst(text, prev, lead, ws, gs);
      SentenceTail(ws, gs, 1);
      SentenceCut(text, e, gs[0], ws[1..], gs[1..]);
      SkipGap(gs[0], SetOut(ws[1..], gs[1..]), e);
      ClusterCons(text, prev, ps, prev);
      LeftOverMore(lead, ws, gs, Going(ws, gs, |lead|));
    } else {
      LeftOverAll(text, prev, lead, ws, gs);
    }
  }

  // ----- what is left is a sentence again -------------------------------------------------------

  lemma GapCollapsed(g: Text, rest: Text)
    requires g != [] && All(g, Spaces) && rest != [] && !rest[0].Space?
    ensures Collapse(g + rest) == NarrowGap(g) + Collapse(rest)
  {
    hide Collapse;
    var s := g + rest;
    assert s[|g|] == rest[0];
    assert forall k | 0 <= k < |g| :: s[k] == g[k];
    PrefixIs(s, Spaces, |g|);
    CollapseUnfolds(s);
    assert s[|g|..] == rest;
  }

  lemma {:induction false} SentenceCollapsed(ws: seq<Text>, gs: seq<Text>)
    requires IsSentence(ws, gs)
    ensures Collapse(SetOut(ws, gs)) == SetOut(ws, Narrow(gs))
    decreases |ws|
  {
    hide Collapse, SetOut, NarrowGap;
    var w, s := ws[0], SetOut(ws, gs);
    SpacedUnfolds(ws, gs);
    SpacedUnfolds(ws, Narrow(gs));
    assert forall k | 0 <= k < |w| :: s[k] == w[k] && In(w[k], Letters);
    CollapseRun(s, |w|);
    assert s[..|w|] == w;
    if gs == [] {
      assert s[|w|..] == [];
      CollapseNothing();
    } else {
      var rest := SetOut(ws[1..], gs[1..]);
      assert s[|w|..] == gs[0] + rest;
      SentenceTail(ws, gs, 1);
      SentenceEnds(ws[1..], gs[1..]);
      GapCollapsed(gs[0], rest);
      SentenceCollapsed(ws[1..], gs[1..]);
      assert Narrow(gs)[1..] == Narrow(gs[1..]);
    }
  }

  lemma {:induction false} FlatGaps(gs: seq<Text>)
    requires forall k | 0 <= k < |gs| :: gs[k] != [] && All(gs[k], Spaces)
    ensures All(Flat(gs), Spaces) && (gs != [] ==> Flat(gs) != [])
  {
    if gs != [] { FlatGaps(gs[1..]); }
  }

  /** Narrow gaps stay as they are, and make a sentence again. */
  lemma NarrowGaps(ws: seq<Text>, gs: seq<Text>)
    requires IsSentence(ws, gs)
    ensures IsSentence(ws, Narrow(gs)) && forall k | 0 <= k < |gs| :: |Narrow(gs)[k]| == 1
  {
    forall k | 0 <= k < |gs| ensures |Narrow(gs)[k]| == 1 && All(Narrow(gs)[k], Spaces) {
      assert NarrowGap(gs[k]) == Narrow(gs)[k];
    }
  }

  lemma SpacesTrimmed(g: Text, s: Text)
    requires |g| == 1 && All(g, Spaces) && s != [] && !s[0].Space? && !s[|s| - 1].Space?
    ensures Trim(g + s) == s
  {
    assert (g + s)[1] == s[0];
    PrefixIs(g + s, Spaces, 1);
    assert (g + s)[1..] == s;
  }

  /** The stripper drops the close titles in front of a name from a sentence, and gives the other words
      back with their gaps narrowed. */
  lemma SentenceStripped(ws: seq<Text>, gs: seq<Text>)
    requires IsSentence(ws, gs)
    ensures var k := CloseLead(ws, gs);
            Strip(SetOut(ws, gs))
            == if k == 0 then Stripped(SetOut(ws, gs), []) else Stripped(SetOut(ws[k..], Narrow(gs[k..])), ws[..k])
  {
    hide PiecesFrom, IsTitle, LooksLikeName, SetOut, Collapse, Trim, CutOut, Flat, NarrowGap, TextsOf;
    var text, k := SetOut(ws, gs), CloseLead(ws, gs);
    assert text[0..] == text && [] + text == text;
    SentenceCut(text, 0, [], ws, gs);
    SentenceEnds(ws, gs);
    OnlyTheHead(text);
    if k > 0 {
      var rest := SetOut(ws[k..], gs[k..]);
      SentenceTail(ws, gs, k);
      FlatGaps(gs[..k]);
      SentenceEnds(ws[k..], gs[k..]);
      GapCollapsed(Flat(gs[..k]), rest);
      SentenceCollapsed(ws[k..], gs[k..]);
      NarrowGaps(ws[k..], gs[k..]);
      SentenceEnds(ws[k..], Narrow(gs[k..]));
      NarrowedGap(Flat(gs[..k]));
      SpacesTrimmed(NarrowGap(Flat(gs[..k])), SetOut(ws[k..], Narrow(gs[k..])));
      assert [] + Flat(gs[..k]) == Flat(gs[..k]);
    }
  }

  lemma NarrowedGap(g: Text)
    requires All(g, Spaces)
    ensures |NarrowGap(g)| == 1 && All(NarrowGap(g), Spaces)
  {}

  // ----- a second pass --------------------------------------------------------------------------

  lemma {:induction false} LeadSplits(ws: seq<Text>, gs: seq<Text>)
    requires |ws| == |gs| + 1
    ensures CloseLead(ws, gs) + LeadCount(ws[CloseLead(ws, gs)..]) == LeadCount(ws) || CloseLead(ws, gs) == 0
    ensures (forall k | 0 <= k < |gs| :: |gs[k]| == 1) ==> CloseLead(ws, gs) == LeadCount(ws)
    decreases |ws|
  {
    hide IsTitle, LooksLikeName;
    var k := CloseLead(ws, gs);
    if k > 0 {
      LeadSplits(ws[1..], gs[1..]);
      assert ws[1..][k - 1..] == ws[k..];
      assert ws[1..][0..] == ws[1..];
    }
  }

  lemma {:induction false} FewerIsShorter(ws: seq<Text>, gs: seq<Text>, k: nat)
    requires IsSentence(ws, gs) && 0 < k <= |gs|
    ensures |SetOut(ws[k..], gs[k..])| < |SetOut(ws, gs)|
    decreases k
  {
    hide SetOut;
    SpacedUnfolds(ws, gs);
    SentenceTail(ws, gs, 1);
    if k > 1 {
      FewerIsShorter(ws[1..], gs[1..], k - 1);
      assert ws[1..][k - 1..] == ws[k..] && gs[1..][k - 1..] == gs[k..];
    }
  }

  /** Kinship idempotence, exactly: stripping a stripped sentence changes nothing if and only if no wide
      gap cuts its leading titles in two. "Anh  chị Nam" is the other case: the first pass removes "Anh"
      and closes the gap, the second one removes "chị". */
  lemma StripTwice(ws: seq<Text>, gs: seq<Text>)
    requires IsSentence(ws, gs)
    ensures var once := Strip(SetOut(ws, gs)).text;
            Strip(once).text == once <==> CloseLead(ws, gs) == 0 || CloseLead(ws, gs) == LeadCount(ws)
  {
    hide Strip, SetOut, Narrow, LeadCount, CloseLead;
    var k := CloseLead(ws, gs);
    SentenceStripped(ws, gs);
    if k > 0 {
      var vs, hs := ws[k..], Narrow(gs[k..]);
      SentenceTail(ws, gs, k);
      NarrowGaps(vs, gs[k..]);
      SentenceStripped(vs, hs);
      LeadSplits(ws, gs);
      LeadSplits(vs, hs);
      var j := CloseLead(vs, hs);
      if j > 0 {
        SentenceTail(vs, hs, j);
        NarrowAlready(hs[j..]);
        FewerIsShorter(vs, hs, j);
      }
    }
  }

  lemma NarrowAlready(gs: seq<Text>)
    requires forall k | 0 <= k < |gs| :: |gs[k]| == 1
    ensures Narrow(gs) == gs
  {}

  /** With single gaps throughout, one pass always is enough: it drops every title in front of a name
      from the head, although the first word left may itself be a title. */
  lemma PlainSentence(ws: seq<Text>, gs: seq<Text>)
    requires IsSentence(ws, gs) && forall k | 0 <= k < |gs| :: |gs[k]| == 1
    ensures var k, once := LeadCount(ws), Strip(SetOut(ws, gs));
            once == Stripped(SetOut(ws[k..], gs[k..]), ws[..k]) && Strip(once.text) == Stripped(once.text, [])
  {
    hide Strip, SetOut, Narrow, LeadCount, CloseLead;
    var k := LeadCount(ws);
    LeadSplits(ws, gs);
    SentenceStripped(ws, gs);
    SentenceTail(ws, gs, k);
    NarrowAlready(gs[k..]);
    assert ws[0..] == ws && gs[0..] == gs && ws[..0] == [];
    LeadSplits(ws[k..], gs[k..]);
    SentenceStripped(ws[k..], gs[k..]);
  }

  // ----- both failures at a text ----------------------------------------------------------------

  const ANH: Text := Written("anh")
  const CHI: Text := Written("chị")
  const NAM: Text := [Let('n', true), Let('a', false), Let('m', false)]

  lemma TheWords()
    ensures ANH != [] && CHI != [] && NAM != [] && All(ANH, Letters) && All(CHI, Letters) && All(NAM, Letters)
    ensures IsTitle(ANH) && IsTitle(CHI) && !IsTitle(NAM) && LooksLikeName(CHI) && LooksLikeName(NAM)
  {
    LowerWritten("anh");
    LowerWritten("chị");
    assert Lower(NAM) == "nam";
    NamIsNoTitle();
    NamIsAName();
    hide KINSHIP_TITLES, NON_NAME_WORDS, NICKNAMES, IsQuantityWord;
    TitleWords();
  }

  lemma TitleWords()
    ensures "anh" in KINSHIP_TITLES && "chị" in KINSHIP_TITLES
  {}

  lemma NamIsNoTitle()
    ensures "nam" !in KINSHIP_TITLES
  {}

  lemma NamIsAName()
    ensures !IsQuantityWord("nam") && "nam" !in NON_NAME_WORDS
  {
    hide BIG_SCALES, TENS, NON_NAME_WORDS, FILLERS;
    NamIsNoScale();
    NamIsNoWord();
  }

  lemma NamIsNoScale()
    ensures "nam" !in BIG_SCALES && "nam" !in TENS && "nam" !in FILLERS
  {}

  lemma NamIsNoWord()
    ensures "nam" !in NON_NAME_WORDS
  {
    NamIsNoParticle();
    NamIsNoTrade();
    hide PARTICLES, TRADE_WORDS;
  }

  lemma NamIsNoParticle()
    ensures "nam" !in PARTICLES
  {}

  lemma NamIsNoTrade()
    ensures "nam" !in TRADE_WORDS
  {}

  /** "anh  chị Nam", with two blanks: the first pass leaves "chị Nam", the second one "Nam". */
  lemma WideGapTwice()
    ensures Strip(SetOut([ANH, CHI, NAM], [[BLANK, BLANK], [BLANK]])) == Stripped(SetOut([CHI, NAM], [[BLANK]]), [ANH])
    ensures Strip(SetOut([CHI, NAM], [[BLANK]])) == Stripped(NAM, [CHI])
  {
    TheWords();
    hide Strip, IsTitle, LooksLikeName, ANH, CHI, NAM;
    var ws, gs := [ANH, CHI, NAM], [[BLANK, BLANK], [BLANK]];
    assert ws[1..] == [CHI, NAM] && gs[1..] == [[BLANK]] && [CHI, NAM][1..] == [NAM] && [[BLANK]][1..] == [];
    assert ws[..1] == [ANH] && [CHI, NAM][..1] == [CHI];
    assert Narrow([[BLANK]]) == [[BLANK]] && Narrow([]) == [];
    BlankGaps();
    SentenceStripped(ws, gs);
    SentenceStripped([CHI, NAM], [[BLANK]]);
    SpacedOne([NAM], []);
  }

  lemma BlankGaps()
    ensures All([BLANK], Spaces) && All([BLANK, BLANK], Spaces)
  {}

  /** Behind a digit glued to its first word a sentence loses its close titles just the same. */
  lemma GluedSentence(c: Ch, ws: seq<Text>, gs: seq<Text>)
    requires c.Dig? && IsSentence(ws, gs)
    ensures var text, k := [c] + SetOut(ws, gs), CloseLead(ws, gs);
            Strip(text)
            == if k == 0 then Stripped(text, [])
               else Stripped([c] + (NarrowGap(Flat(gs[..k])) + SetOut(ws[k..], Narrow(gs[k..]))), ws[..k])
  {
    hide PiecesFrom, IsTitle, LooksLikeName, SetOut, Collapse, Trim, CutOut, Flat, NarrowGap, TextsOf;
    var text, k := [c] + SetOut(ws, gs), CloseLead(ws, gs);
    GluedCut(c, ws, gs);
    if k > 0 { GluedLeft(c, ws, gs, k); }
  }

  lemma GluedCut(c: Ch, ws: seq<Text>, gs: seq<Text>)
    requires c.Dig? && IsSentence(ws, gs)
    ensures var text, k := [c] + SetOut(ws, gs), CloseLead(ws, gs);
            var gone := Removed(Pieces(text), 0);
            TextsOf(gone) == ws[..k] && (k == 0 ==> gone == []) && CutOut(text, 0, gone) == LeftOver([c], ws, gs, k)
  {
    hide PiecesFrom, IsTitle, LooksLikeName, SetOut, Qualifies, Slice, CutOut, LeftOver, TextsOf, Removed;
    var text := [c] + SetOut(ws, gs);
    SentenceEnds(ws, gs);
    PrefixIs(text, Digits, 1);
    PiecesUnfold(text, 0);
    assert text[1..] == SetOut(ws, gs) && text[0..] == text;
    OnlyTheHead(text);
    var ps := PiecesFrom(SetOut(ws, gs), 1);
    assert Pieces(text)[1..] == ps;
    SentencePieces(ws, gs, 1);
    SentenceQualifies(ws, gs, 1, 0);
    if Qualifies(ps, 0) {
      var e := ps[0].end;
      BehindFirst(text, 0, [c], ws, gs);
      SentenceTail(ws, gs, 1);
      SentenceCut(text, e, gs[0], ws[1..], gs[1..]);
      SkipGap(gs[0], SetOut(ws[1..], gs[1..]), e);
      ClusterCons(text, 0, ps, 0);
      LeftOverMore([c], ws, gs, CloseLead(ws, gs));
    } else {
      LeftOverAll(text, 0, [c], ws, gs);
    }
  }

  lemma GluedLeft(c: Ch, ws: seq<Text>, gs: seq<Text>, k: nat)
    requires c.Dig? && IsSentence(ws, gs) && 0 < k <= |gs|
    ensures Trim(Collapse(LeftOver([c], ws, gs, k)))
         == [c] + (NarrowGap(Flat(gs[..k])) + SetOut(ws[k..], Narrow(gs[k..])))
  {
    hide SetOut, Collapse, Trim, Flat, NarrowGap;
    var rest, gap := SetOut(ws[k..], gs[k..]), Flat(gs[..k]);
    SentenceTail(ws, gs, k);
    FlatGaps(gs[..k]);
    SentenceEnds(ws[k..], gs[k..]);
    var s := [c] + gap + rest;
    assert s == [c] + (gap + rest) && s[1..] == gap + rest && s[..1] == [c];
    CollapseRun(s, 1);
    GapCollapsed(gap, rest);
    SentenceCollapsed(ws[k..], gs[k..]);
    NarrowGaps(ws[k..], gs[k..]);
    var left := SetOut(ws[k..], Narrow(gs[k..]));
    SentenceEnds(ws[k..], Narrow(gs[k..]));
    Untrimmed([c] + (NarrowGap(gap) + left));
  }

  lemma Untrimmed(s: Text)
    requires s != [] && !s[0].Space? && !s[|s| - 1].Space?
    ensures Trim(s) == s
  {
    PrefixIs(s, Spaces, 0);
    assert s[0..] == s;
  }

  /** "1anh Nam": the title is glued to a digit, and goes nevertheless. */
  lemma GluedTitleGoes()
    ensures Strip([Dig(1)] + SetOut([ANH, NAM], [[BLANK]])) == Stripped([Dig(1), BLANK] + NAM, [ANH])
  {
    TheWords();
    hide Strip, IsTitle, LooksLikeName, ANH, NAM;
    var ws, gs := [ANH, NAM], [[BLANK]];
    assert ws[1..] == [NAM] && gs[1..] == [] && ws[..1] == [ANH] && gs[..1] == gs && Narrow([]) == [];
    BlankGaps();
    assert Flat(gs) == [BLANK] + Flat([]) == [BLANK];
    GluedSentence(Dig(1), ws, gs);
    SpacedOne([NAM], []);
    assert [Dig(1)] + ([BLANK] + NAM) == [Dig(1), BLANK] + NAM;
  }
}
