/** The text that `strip_kinship` gives back: nothing but titles is lost. */
module KinshipText {
  import opened Text
  import opened Words
  import opened Kinship

  /** The runs of letters and of digits in a text, in order. */
  function RunsOf(s: Text): seq<Text>
    decreases |s|
  {
    if s == [] then []
    else if IsAlnum(s[0]) then
      var n := PrefixLen(s, RunClass(s[0]));
      [s[..n]] + RunsOf(s[n..])
    else RunsOf(s[1..])
  }

  lemma RunsUnfold(s: Text)
    requires s != []
    ensures IsAlnum(s[0]) ==>
              var n := PrefixLen(s, RunClass(s[0])); n > 0 && RunsOf(s) == [s[..n]] + RunsOf(s[n..])
    ensures !IsAlnum(s[0]) ==> RunsOf(s) == RunsOf(s[1..])
  {}

  lemma {:induction false} PiecesAreRuns(s: Text, pos: nat)
    ensures TextsOf(PiecesFrom(s, pos)) == RunsOf(s)
    decreases |s|
  {
    hide PiecesFrom, RunsOf;
    if s == [] {
      NoPieces(s, pos);
      assert RunsOf(s) == [] by { NoRuns(s); }
    } else {
      PiecesUnfold(s, pos);
      RunsUnfold(s);
      if IsAlnum(s[0]) {
        PiecesAreRuns(s[PrefixLen(s, RunClass(s[0]))..], pos + PrefixLen(s, RunClass(s[0])));
      } else {
        PiecesAreRuns(s[1..], pos + 1);
      }
    }
  }

  lemma NoRuns(s: Text)
    requires forall k | 0 <= k < |s| :: !IsAlnum(s[k])
    ensures RunsOf(s) == []
  {
    if s != [] { NoRuns(s[1..]); }
  }

  predicate NoAlnum(s: Text) { forall k | 0 <= k < |s| :: !IsAlnum(s[k]) }

  lemma {:induction false} RunsSkip(a: Text, b: Text)
    requires NoAlnum(a)
    ensures RunsOf(a + b) == RunsOf(b)
    decreases |a|
  {
    hide RunsOf;
    if a == [] {
      assert a + b == b;
    } else {
      RunsUnfold(a + b);
      assert (a + b)[1..] == a[1..] + b;
      RunsSkip(a[1..], b);
    }
  }

  // ----- removing the cluster removes its runs and no more --------------------------------------

  /** `p` is the first piece of `s`, and `rest` are those behind it. */
  predicate Heads(s: Text, pos: nat, p: Piece, rest: seq<Piece>) {
    pos <= p.start < p.end <= pos + |s|
    && var x, y := p.start - pos, p.end - pos;
       NoAlnum(s[..x]) && IsAlnum(s[x]) && p.text == s[x..y] && rest == PiecesFrom(s[y..], p.end)
       && (y < |s| ==> !In(s[y], RunClass(s[x]))) && (All(p.text, Digits) <==> s[x].Dig?)
  }

  lemma SliceOfTail(s: Text, x: nat, y: nat)
    requires 0 < x <= y <= |s|
    ensures s[1..][x - 1..y - 1] == s[x..y] && s[1..][y - 1..] == s[y..] && s[..x] == [s[0]] + s[1..][..x - 1]
  {}

  lemma HeadsSkip(s: Text, pos: nat, p: Piece, rest: seq<Piece>)
    requires s != [] && !IsAlnum(s[0]) && Heads(s[1..], pos + 1, p, rest)
    ensures Heads(s, pos, p, rest)
  {
    hide PiecesFrom;
    SliceOfTail(s, p.start - pos, p.end - pos);
  }

  /** The first piece lies behind characters that belong to no piece. */
  lemma {:induction false} FirstPiece(s: Text, pos: nat)
    requires PiecesFrom(s, pos) != []
    ensures Heads(s, pos, PiecesFrom(s, pos)[0], PiecesFrom(s, pos)[1..])
    decreases |s|
  {
    hide PiecesFrom, Heads;
    if s == [] { NoPieces(s, pos); }
    PiecesUnfold(s, pos);
    if IsAlnum(s[0]) {
      FirstRun(s, pos);
    } else {
      FirstPiece(s[1..], pos + 1);
      HeadsSkip(s, pos, PiecesFrom(s, pos)[0], PiecesFrom(s, pos)[1..]);
    }
  }

  lemma FirstRun(s: Text, pos: nat)
    requires s != [] && IsAlnum(s[0])
    ensures var n := PrefixLen(s, RunClass(s[0]));
            Heads(s, pos, Piece(s[..n], pos, pos + n), PiecesFrom(s[n..], pos + n))
  {
    hide PiecesFrom, PrefixLen;
    var c := RunClass(s[0]);
    var n := PrefixLen(s, c);
    assert n < |s| ==> !In(s[n], c);
    assert n > 0;
    assert s[..0] == [] && s[0..n] == s[..n] && s[..n][0] == s[0];
    if s[0].Dig? {
      assert All(s[..n], Digits);
    } else {
      assert !In(s[..n][0], Digits);
    }
  }

  lemma {:induction false} CutOutRuns(text: Text, prev: nat, frontier: nat)
    requires prev <= |text|
    ensures var gone := Cluster(PiecesFrom(text[prev..], prev), frontier);
            |gone| <= |RunsOf(text[prev..])|
            && RunsOf(CutOut(text, prev, gone)) == RunsOf(text[prev..])[|gone|..]
    decreases |text| - prev
  {
    hide PiecesFrom, RunsOf, Qualifies;
    var s := text[prev..];
    var ps := PiecesFrom(s, prev);
    var gone := Cluster(ps, frontier);
    PiecesAreRuns(s, prev);
    if gone == [] {
      assert CutOut(text, prev, gone) == s;
      assert RunsOf(s)[0..] == RunsOf(s);
    } else {
      FirstPiece(s, prev);
      var p := ps[0];
      var rest := text[p.end..];
      assert s[p.end - prev..] == rest;
      assert gone[1..] == Cluster(PiecesFrom(rest, p.end), p.end);
      CutOutRuns(text, p.end, p.end);
      PiecesAreRuns(rest, p.end);
      assert TextsOf(ps)[1..] == TextsOf(ps[1..]);
      assert Slice(text, prev, p.start) == s[..p.start - prev];
      RunsSkip(s[..p.start - prev], CutOut(text, p.end, gone[1..]));
    }
  }

  // ----- whitespace -----------------------------------------------------------------------------

  lemma CollapseUnfolds(s: Text)
    requires s != []
    ensures var n := PrefixLen(s, Spaces);
            Collapse(s) == if n >= 2 then [BLANK] + Collapse(s[n..]) else [s[0]] + Collapse(s[1..])
  {}

  /** Collapsing keeps the first character, up to the kind of whitespace. */
  lemma CollapseHead(s: Text)
    requires s != []
    ensures Collapse(s) != [] && (s[0].Space? <==> Collapse(s)[0].Space?)
    ensures !s[0].Space? ==> Collapse(s)[0] == s[0] && Collapse(s) == [s[0]] + Collapse(s[1..])
  {
    CollapseUnfolds(s);
  }

  /** A run of characters that are not whitespace is copied. */
  lemma {:induction false} CollapseRun(s: Text, n: nat)
    requires n <= |s| && forall k | 0 <= k < n :: !s[k].Space?
    ensures Collapse(s) == s[..n] + Collapse(s[n..])
    decreases n
  {
    hide Collapse;
    if n == 0 {
      assert s[0..] == s;
    } else {
      CollapseHead(s);
      CollapseRun(s[1..], n - 1);
      assert s[1..][n - 1..] == s[n..];
      assert s[..n] == [s[0]] + s[1..][..n - 1];
    }
  }

  /** What a run looks like when something of another class follows it. */
  lemma RunBefore(w: Text, r: Text)
    requires w != [] && IsAlnum(w[0]) && All(w, RunClass(w[0])) && (r != [] ==> !In(r[0], RunClass(w[0])))
    ensures RunsOf(w + r) == [w] + RunsOf(r)
  {
    hide RunsOf;
    var s := w + r;
    assert forall k | 0 <= k < |w| :: s[k] == w[k];
    PrefixIs(s, RunClass(w[0]), |w|);
    assert s[..|w|] == w && s[|w|..] == r;
    RunsUnfold(s);
  }

  /** Collapsing whitespace keeps the runs. */
  lemma {:induction false} CollapseKeepsRuns(s: Text)
    ensures RunsOf(Collapse(s)) == RunsOf(s)
    decreases |s|, 1
  {
    hide RunsOf, Collapse;
    if s == [] {
      assert Collapse(s) == [] by { CollapseNothing(); }
    } else {
      RunsUnfold(s);
      if IsAlnum(s[0]) {
        var n := PrefixLen(s, RunClass(s[0]));
        var r := s[n..];
        CollapseRun(s, n);
        CollapseKeepsRuns(r);
        if r != [] { CollapseHead(r); } else { CollapseNothing(); }
        RunBefore(s[..n], Collapse(r));
      } else {
        CollapseUnfolds(s);
        CollapseGap(s);
      }
    }
  }

  lemma CollapseNothing()
    ensures Collapse([]) == []
  {}

  lemma {:induction false} CollapseGap(s: Text)
    requires s != [] && !IsAlnum(s[0])
    ensures RunsOf(Collapse(s)) == RunsOf(s)
    decreases |s|, 0
  {
    hide RunsOf, Collapse;
    var n := PrefixLen(s, Spaces);
    CollapseUnfolds(s);
    if n >= 2 {
      CollapseKeepsRuns(s[n..]);
      RunsSkip([BLANK], Collapse(s[n..]));
      assert s == s[..n] + s[n..];
      RunsSkip(s[..n], s[n..]);
    } else {
      CollapseKeepsRuns(s[1..]);
      RunsSkip([s[0]], Collapse(s[1..]));
      RunsUnfold(s);
    }
  }

  lemma {:induction false} RunsBlankEnd(s: Text, c: Ch)
    requires !IsAlnum(c)
    ensures RunsOf(s + [c]) == RunsOf(s)
    decreases |s|
  {
    hide RunsOf;
    if s == [] {
      assert s + [c] == [c];
      NoRuns([c]);
      NoRuns(s);
    } else {
      RunsUnfold(s);
      RunsUnfold(s + [c]);
      if IsAlnum(s[0]) {
        var n := PrefixLen(s, RunClass(s[0]));
        assert s + [c] == s[..n] + (s[n..] + [c]);
        RunsBlankEnd(s[n..], c);
        RunBefore(s[..n], s[n..] + [c]);
      } else {
        assert (s + [c])[1..] == s[1..] + [c];
        RunsBlankEnd(s[1..], c);
      }
    }
  }

  lemma {:induction false} TrimKeepsRuns(s: Text)
    ensures RunsOf(Trim(s)) == RunsOf(s)
  {
    hide RunsOf, TrimRight;
    var n := PrefixLen(s, Spaces);
    assert s == s[..n] + s[n..];
    RunsSkip(s[..n], s[n..]);
    TrimRightKeepsRuns(s[n..]);
  }

  lemma {:induction false} TrimRightKeepsRuns(s: Text)
    ensures RunsOf(TrimRight(s)) == RunsOf(s)
    decreases |s|
  {
    hide RunsOf;
    if s != [] && s[|s| - 1].Space? {
      TrimRightKeepsRuns(s[..|s| - 1]);
      assert s == s[..|s| - 1] + [s[|s| - 1]];
      RunsBlankEnd(s[..|s| - 1], s[|s| - 1]);
    }
  }

  // ----- nothing but titles is lost -------------------------------------------------------------

  lemma {:induction false} ClusterOfTitles(ps: seq<Piece>, frontier: nat)
    ensures forall k | 0 <= k < |Cluster(ps, frontier)| :: IsTitle(Cluster(ps, frontier)[k].text)
    decreases |ps|
  {
    hide IsTitle, LooksLikeName, All;
    if ps != [] && Qualifies(ps, frontier) { ClusterOfTitles(ps[1..], ps[0].end); }
  }

  /** Cutting out pieces keeps what stands before them. */
  lemma CutHead(text: Text, prev: nat, gone: seq<Piece>)
    requires prev < |text| && !IsAlnum(text[prev]) && gone <= PiecesFrom(text[prev..], prev)
    ensures CutOut(text, prev, gone) != [] && CutOut(text, prev, gone)[0] == text[prev]
  {
    hide PiecesFrom;
    if gone != [] {
      FirstPiece(text[prev..], prev);
      assert gone[0] == PiecesFrom(text[prev..], prev)[0];
    }
  }

  /** The title at the head of a cluster is followed by a character of no piece. */
  lemma TitleEnds(text: Text, prev: nat, frontier: nat)
    requires prev <= |text| && PiecesFrom(text[prev..], prev) != []
             && Qualifies(PiecesFrom(text[prev..], prev), frontier)
    ensures var p := PiecesFrom(text[prev..], prev)[0]; p.end < |text| && !IsAlnum(text[p.end])
  {
    hide PiecesFrom, IsTitle, LooksLikeName;
    var s := text[prev..];
    var ps := PiecesFrom(s, prev);
    FirstPiece(s, prev);
    var p := ps[0];
    var y := p.end - prev;
    if s[p.start - prev].Dig? { TitlesAreWords(p.text); }
    if y == |s| {
      NoPieces(s[y..], p.end);
    } else if IsAlnum(s[y]) {
      FirstPiece(s[y..], p.end);
      PiecesUnfold(s[y..], p.end);
    }
  }

  lemma CutOutGlued(text: Text)
    requires OpensGlued(text)
    ensures var gone := Cluster(PiecesFrom(text[1..], 1), 0);
            |gone| <= |RunsOf(text[1..])|
            && RunsOf(CutOut(text, 0, gone)) == [text[..1]] + RunsOf(text[1..])[|gone|..]
  {
    hide PiecesFrom, RunsOf, Qualifies;
    var ps := PiecesFrom(text[1..], 1);
    var gone := Cluster(ps, 0);
    CutOutRuns(text, 1, 0);
    PiecesUnfold(text[1..], 1);
    var x := CutOut(text, 1, gone);
    if gone != [] {
      TitleEnds(text, 1, 0);
      var p := ps[0];
      assert p.start == 1;
      FirstPiece(text[1..], 1);
      assert text[1..][p.end - 1..] == text[p.end..];
      CutHead(text, p.end, gone[1..]);
      assert x == CutOut(text, p.end, gone[1..]);
      assert CutOut(text, 0, gone) == text[..1] + x;
    } else {
      assert CutOut(text, 0, gone) == text == text[..1] + x;
    }
    RunBefore(text[..1], x);
  }

  /** `r` is `text` without the `k` tokens from the `at`-th on, and those are its titles. */
  predicate Without(r: Stripped, text: Text, at: nat) {
    var runs, k := RunsOf(text), |r.titles|;
    at + k <= |runs| && (k > 0 ==> at + k < |runs|)
    && r.titles == runs[at..at + k] && (forall i | 0 <= i < k :: IsTitle(r.titles[i]))
    && RunsOf(r.text) == runs[..at] + runs[at + k..]
  }

  lemma GluedLosesTitles(text: Text)
    requires OpensGlued(text)
    ensures Without(Strip(text), text, 1)
  {
    hide PiecesFrom, RunsOf, IsTitle, LooksLikeName, Collapse, Trim, CutOut;
    var ps := Pieces(text);
    PiecesAreRuns(text, 0);
    OnlyTheHead(text);
    PiecesUnfold(text, 0);
    PrefixIs(text, Digits, 1);
    var gone := Cluster(ps[1..], 0);
    ClusterOfTitles(ps[1..], 0);
    CutOutGlued(text);
    PiecesAreRuns(text[1..], 1);
    assert TextsOf(ps)[1..] == TextsOf(ps[1..]);
    assert TextsOf(gone) == TextsOf(ps)[1..1 + |gone|];
    Respaced(CutOut(text, 0, gone));
    RunsUnfold(text);
  }

  lemma UngluedLosesTitles(text: Text)
    requires !OpensGlued(text)
    ensures Without(Strip(text), text, 0)
  {
    hide PiecesFrom, RunsOf, IsTitle, LooksLikeName, Collapse, Trim, CutOut;
    var ps := Pieces(text);
    PiecesAreRuns(text, 0);
    OnlyTheHead(text);
    assert text[0..] == text;
    var gone := Cluster(ps, 0);
    ClusterOfTitles(ps, 0);
    CutOutRuns(text, 0, 0);
    assert TextsOf(gone) == TextsOf(ps)[..|gone|];
    Respaced(CutOut(text, 0, gone));
  }

  /** Conservation: the titles reported are a block of titles at the head of the utterance, the last
      token always survives, and the text given back holds exactly the other tokens in order. A single
      digit glued to the first word stays in front. */
  lemma OnlyTitlesGo(text: Text)
    ensures Without(Strip(text), text, if OpensGlued(text) then 1 else 0)
  {
    hide Without, Strip;
    if OpensGlued(text) { GluedLosesTitles(text); } else { UngluedLosesTitles(text); }
  }

  lemma Respaced(s: Text)
    ensures RunsOf(Trim(Collapse(s))) == RunsOf(s)
  {
    CollapseKeepsRuns(s);
    TrimKeepsRuns(Collapse(s));
  }
}
