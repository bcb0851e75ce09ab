/** Exactly when a second pass of `strip_kinship` finds more to remove, for every utterance. */
module KinshipAgain {
  import opened Text
  import opened Words
  import opened Kinship
  import opened KinshipText
  import opened KinshipTwice

  /** The characters of a text that are neither letters nor digits. */
  function Others(s: Text): (r: Text)
    ensures NoAlnum(r)
  {
    if s == [] then [] else (if IsAlnum(s[0]) then [] else [s[0]]) + Others(s[1..])
  }

  lemma {:induction false} OthersJoin(a: Text, b: Text)
    ensures Others(a + b) == Others(a) + Others(b)
    decreases |a|
  {
    if a == [] {
      assert a + b == b;
    } else {
      assert (a + b)[1..] == a[1..] + b;
      OthersJoin(a[1..], b);
    }
  }

  lemma {:induction false} OthersAll(s: Text)
    requires NoAlnum(s)
    ensures Others(s) == s
  {
    if s != [] { OthersAll(s[1..]); }
  }

  lemma {:induction false} OthersNone(s: Text)
    requires forall k | 0 <= k < |s| :: IsAlnum(s[k])
    ensures Others(s) == []
  {
    if s != [] { OthersNone(s[1..]); }
  }

  // ----- what is left when the cluster is cut out -----------------------------------------------

  lemma {:induction false} SkipOthers(a: Text, b: Text, pos: nat)
    requires NoAlnum(a)
    ensures PiecesFrom(a + b, pos) == PiecesFrom(b, pos + |a|)
    decreases |a|
  {
    hide PiecesFrom;
    if a == [] {
      assert a + b == b;
    } else {
      PiecesUnfold(a + b, pos);
      assert (a + b)[1..] == a[1..] + b;
      SkipOthers(a[1..], b, pos + 1);
    }
  }

  /** `p` is the first piece of the text from `prev` on. */
  lemma HeadAt(text: Text, prev: nat)
    requires prev <= |text| && PiecesFrom(text[prev..], prev) != []
    ensures var ps := PiecesFrom(text[prev..], prev);
            var p := ps[0];
            prev <= p.start < p.end <= |text| && NoAlnum(text[prev..p.start]) && IsAlnum(text[p.start])
            && PiecesFrom(text[p.start..], p.start) == ps && ps[1..] == PiecesFrom(text[p.end..], p.end)
            && p.text == text[p.start..p.end] && (All(p.text, Digits) <==> text[p.start].Dig?)
  {
    hide PiecesFrom;
    var s := text[prev..];
    FirstPiece(s, prev);
    var p := PiecesFrom(s, prev)[0];
    var x, y := p.start - prev, p.end - prev;
    assert s[..x] == text[prev..p.start] && s[x..] == text[p.start..] && s[y..] == text[p.end..];
    assert s[x] == text[p.start];
    assert s[x..y] == text[p.start..p.end];
    assert s == s[..x] + s[x..];
    SkipOthers(s[..x], s[x..], prev);
  }

  /** A title is letters. */
  lemma TitleIsLetters(text: Text, prev: nat, frontier: nat)
    requires prev <= |text| && PiecesFrom(text[prev..], prev) != []
             && Qualifies(PiecesFrom(text[prev..], prev), frontier)
    ensures var p := PiecesFrom(text[prev..], prev)[0];
            prev <= p.start < p.end <= |text| && Others(text[p.start..p.end]) == []
  {
    hide PiecesFrom, IsTitle, LooksLikeName, PrefixLen;
    HeadAt(text, prev);
    var p := PiecesFrom(text[prev..], prev)[0];
    var s := text[p.start..];
    PiecesUnfold(s, p.start);
    var n := PrefixLen(s, RunClass(s[0]));
    assert p.text == s[..n] && forall k | 0 <= k < n :: In(s[k], RunClass(s[0]));
    assert forall k | 0 <= k < n :: IsAlnum(s[..n][k]);
    OthersNone(s[..n]);
  }

  /** What stands where the cluster was: the characters between the titles, and then the text from the
      first surviving piece on. */
  predicate IsRemainder(text: Text, prev: nat, ps: seq<Piece>, gone: seq<Piece>) {
    |gone| < |ps|
    && var p := ps[|gone|];
       prev <= p.start < |text| && IsAlnum(text[p.start]) && PiecesFrom(text[p.start..], p.start) == ps[|gone|..]
       && CutOut(text, prev, gone) == Others(text[prev..p.start]) + text[p.start..]
       && (gone != [] ==> text[p.start].Let?)
  }

  lemma {:induction false} ClusterCut(text: Text, prev: nat, frontier: nat)
    requires prev <= |text| && PiecesFrom(text[prev..], prev) != []
    ensures var ps := PiecesFrom(text[prev..], prev); IsRemainder(text, prev, ps, Cluster(ps, frontier))
    decreases |text| - prev
  {
    hide PiecesFrom, IsTitle, LooksLikeName, Others;
    var ps := PiecesFrom(text[prev..], prev);
    HeadAt(text, prev);
    var p := ps[0];
    if Qualifies(ps, frontier) {
      var e := p.end;
      ClusterCut(text, e, e);
      TitleIsLetters(text, prev, frontier);
      var q := ps[|Cluster(ps, frontier)|];
      OnwardCut(text, prev, ps, Cluster(ps[1..], e));
      SurvivorIsWord(text, e, ps, Cluster(ps[1..], e));
    } else {
      OthersAll(text[prev..p.start]);
      assert text[prev..] == text[prev..p.start] + text[p.start..];
      assert CutOut(text, prev, []) == text[prev..];
      assert ps[0..] == ps;
    }
  }

  lemma OthersThrough(text: Text, x: nat, y: nat, z: nat, w: nat)
    requires x <= y <= z <= w <= |text|
    ensures Others(text[x..w]) == Others(text[x..y]) + Others(text[y..z]) + Others(text[z..w])
  {
    hide Others;
    assert text[x..w] == text[x..z] + text[z..w] && text[x..z] == text[x..y] + text[y..z];
    OthersJoin(text[x..z], text[z..w]);
    OthersJoin(text[x..y], text[y..z]);
  }

  lemma OnwardCut(text: Text, prev: nat, ps: seq<Piece>, rest: seq<Piece>)
    requires |ps| > 1 && prev <= ps[0].start < ps[0].end <= |text| && NoAlnum(text[prev..ps[0].start])
    requires Others(text[ps[0].start..ps[0].end]) == [] && IsRemainder(text, ps[0].end, ps[1..], rest)
    ensures var q := ps[1 + |rest|]; CutOut(text, prev, [ps[0]] + rest) == Others(text[prev..q.start]) + text[q.start..]
    ensures ps[1..][|rest|] == ps[1 + |rest|] && ps[1..][|rest|..] == ps[1 + |rest|..]
  {
    hide PiecesFrom, Others, NoAlnum, CutOut;
    var p, q := ps[0], ps[1 + |rest|];
    var a, c := text[prev..p.start], Others(text[p.end..q.start]);
    CutFirst(text, prev, p, rest);
    OthersAll(a);
    OthersThrough(text, prev, p.start, p.end, q.start);
    Regrouped(a, [], c + text[q.start..]);
    Regrouped(a, c, text[q.start..]);
    assert a + [] == a;
  }

  lemma Regrouped(a: Text, b: Text, c: Text)
    ensures a + (b + c) == (a + b) + c
  {}

  lemma CutFirst(text: Text, prev: nat, p: Piece, rest: seq<Piece>)
    requires prev <= p.start <= |text|
    ensures CutOut(text, prev, [p] + rest) == text[prev..p.start] + CutOut(text, p.end, rest)
  {
    assert ([p] + rest)[1..] == rest;
  }

  /** The piece behind a removed title is a word. */
  lemma SurvivorIsWord(text: Text, e: nat, ps: seq<Piece>, rest: seq<Piece>)
    requires |ps| > 1 && e <= |text| && !All(ps[1].text, Digits) && ps[1..] == PiecesFrom(text[e..], e)
    requires IsRemainder(text, e, ps[1..], rest)
    ensures text[ps[1..][|rest|].start].Let?
  {
    hide PiecesFrom, Others, All;
    if rest == [] { HeadAt(text, e); }
  }

  // ----- the text given back --------------------------------------------------------------------

  lemma {:induction false} CollapseJoin(a: Text, b: Text)
    requires b != [] && !b[0].Space?
    ensures Collapse(a + b) == Collapse(a) + Collapse(b)
    decreases |a|
  {
    hide Collapse, PrefixLen;
    if a == [] {
      assert a + b == b;
      CollapseNothing();
    } else {
      var n := PrefixLen(a, Spaces);
      PrefixOf(a, b, Spaces);
      CollapseUnfolds(a + b);
      CollapseUnfolds(a);
      var k, head := if n >= 2 then n else 1, if n >= 2 then [BLANK] else [a[0]];
      Dropped(a, b, k);
      CollapseJoin(a[k..], b);
      Regrouped(head, Collapse(a[k..]), Collapse(b));
    }
  }

  lemma Dropped(a: Text, b: Text, k: nat)
    requires k <= |a|
    ensures (a + b)[k..] == a[k..] + b
  {}

  lemma {:induction false} CollapseOthers(s: Text)
    requires NoAlnum(s)
    ensures NoAlnum(Collapse(s)) && (s != [] ==> Collapse(s) != [])
    decreases |s|
  {
    hide Collapse;
    if s == [] {
      CollapseNothing();
    } else {
      var n := PrefixLen(s, Spaces);
      CollapseUnfolds(s);
      if n >= 2 { CollapseOthers(s[n..]); } else { CollapseOthers(s[1..]); }
    }
  }

  lemma {:induction false} TrimRightJoin(a: Text, b: Text)
    requires b != [] && !b[0].Space?
    ensures TrimRight(b) != [] && TrimRight(b)[0] == b[0] && TrimRight(a + b) == a + TrimRight(b)
    decreases |b|
  {
    var s := a + b;
    assert s[|s| - 1] == b[|b| - 1];
    if b[|b| - 1].Space? {
      assert s[..|s| - 1] == a + b[..|b| - 1];
      TrimRightJoin(a, b[..|b| - 1]);
    }
  }

  function TrimLeft(s: Text): Text { s[PrefixLen(s, Spaces)..] }

  lemma TrimLeftJoin(a: Text, b: Text)
    requires b != [] && !b[0].Space?
    ensures TrimLeft(a + b) == TrimLeft(a) + b
  {
    var n := PrefixLen(a, Spaces);
    PrefixOf(a, b, Spaces);
    assert (a + b)[n..] == a[n..] + b;
  }

  /** What is left of the characters between the titles. */
  function Left(j: Text): Text { TrimLeft(Collapse(j)) }

  lemma LeftOthers(j: Text)
    requires NoAlnum(j)
    ensures NoAlnum(Left(j))
  {
    hide Collapse;
    CollapseOthers(j);
  }

  /** The cut text, collapsed and trimmed: something before the first piece, and that piece. */
  lemma Given(j: Text, t: Text) returns (e: Text)
    requires NoAlnum(j) && t != [] && IsAlnum(t[0])
    ensures e != [] && e[0] == t[0] && Trim(Collapse(j + t)) == Left(j) + e && RunsOf(Left(j) + e) == RunsOf(t)
  {
    hide Collapse, TrimRight, RunsOf;
    CollapseJoin(j, t);
    CollapseHead(t);
    var d := Collapse(t);
    e := TrimRight(d);
    TrimLeftJoin(Collapse(j), d);
    TrimRightJoin(Left(j), d);
    Respaced(j + t);
    RunsSkip(j, t);
  }

  // ----- the second pass ------------------------------------------------------------------------

  /** The first piece that survives is itself a title in front of a name, and no more than one character
      is left before it when the titles before it are gone. */
  predicate TitleSurvives(text: Text) {
    var ps, k := Pieces(text), |Strip(text).titles|;
    !OpensGlued(text) && 0 < k && k + 1 < |ps| && ps[k].start <= |text|
    && IsTitle(ps[k].text) && !All(ps[k + 1].text, Digits) && LooksLikeName(ps[k + 1].text)
    && |Left(Others(text[..ps[k].start]))| <= 1
  }

  /** Removing something changes the text. */
  lemma RemovalShows(text: Text)
    ensures Strip(text).text == text <==> Removed(Pieces(text), 0) == []
  {
    hide RunsOf, Removed, PiecesFrom, Collapse, Trim, CutOut, IsTitle;
    if Removed(Pieces(text), 0) != [] {
      OnlyTitlesGo(text);
      var at := if OpensGlued(text) then 1 else 0;
      assert |RunsOf(Strip(text).text)| < |RunsOf(text)|;
    }
  }

  lemma ClusterEmpty(ps: seq<Piece>, frontier: nat)
    ensures Cluster(ps, frontier) == [] <==> ps == [] || !Qualifies(ps, frontier)
  {
    hide Qualifies;
  }

  /** The pieces of the text given back: those that survived, the first of them behind `l`. */
  lemma GivenPieces(l: Text, e: Text, t: Text, pos: nat)
    requires NoAlnum(l) && e != [] && IsAlnum(e[0]) && t != [] && RunsOf(l + e) == RunsOf(t)
    ensures var ps, qs := PiecesFrom(t, pos), Pieces(l + e);
            |qs| == |ps| > 0 && qs[0].start == |l| && forall k | 0 <= k < |ps| :: qs[k].text == ps[k].text
  {
    hide PiecesFrom, RunsOf;
    PiecesAreRuns(l + e, 0);
    PiecesAreRuns(t, pos);
    SkipOthers(l, e, 0);
    PiecesUnfold(e, |l|);
    assert |TextsOf(Pieces(l + e))| == |TextsOf(PiecesFrom(t, pos))|;
    forall k | 0 <= k < |Pieces(l + e)| ensures Pieces(l + e)[k].text == PiecesFrom(t, pos)[k].text {
      assert Pieces(l + e)[k].text == TextsOf(Pieces(l + e))[k];
    }
  }

  lemma SecondPass(l: Text, e: Text, t: Text, pos: nat)
    requires NoAlnum(l) && e != [] && e[0].Let? && t != [] && RunsOf(l + e) == RunsOf(t)
    ensures Strip(l + e).text == l + e
            <==> var ps := PiecesFrom(t, pos);
                 !(|ps| > 1 && IsTitle(ps[0].text) && |l| <= 1 && !All(ps[1].text, Digits) && LooksLikeName(ps[1].text))
  {
    hide PiecesFrom, RunsOf, IsTitle, LooksLikeName, Strip, Removed;
    var s := l + e;
    GivenPieces(l, e, t, pos);
    assert !OpensGlued(s) by { assert l == [] ==> s[0] == e[0]; assert l != [] ==> s[0] == l[0]; }
    OnlyTheHead(s);
    RemovalShows(s);
    ClusterEmpty(Pieces(s), 0);
  }

  lemma NothingRemoved(text: Text)
    requires Strip(text).titles == []
    ensures Strip(text).text == text
  {
    hide Removed, PiecesFrom, Collapse, Trim, CutOut;
  }

  lemma AgainUnglued(text: Text)
    requires !OpensGlued(text) && Strip(text).titles != []
    ensures var once := Strip(text).text; Strip(once).text == once <==> !TitleSurvives(text)
  {
    hide PiecesFrom, IsTitle, LooksLikeName, Collapse, Trim, CutOut, Others, Left, Removed, RunsOf;
    var ps := Pieces(text);
    OnlyTheHead(text);
    var gone := Cluster(ps, 0);
    assert text[0..] == text && ps != [];
    ClusterCut(text, 0, 0);
    var p := ps[|gone|];
    var j, t := Others(text[..p.start]), text[p.start..];
    assert text[0..p.start] == text[..p.start];
    var e := Given(j, t);
    LeftOthers(j);
    SecondPass(Left(j), e, t, p.start);
    assert ps[|gone|..][0] == p && (|gone| + 1 < |ps| ==> ps[|gone|..][1] == ps[|gone| + 1]);
  }

  /** Behind a digit glued to the first word, the second pass meets the digit first. */
  lemma AgainGlued(text: Text)
    requires OpensGlued(text) && Strip(text).titles != []
    ensures var once := Strip(text).text; Strip(once).text == once
  {
    hide PiecesFrom, IsTitle, LooksLikeName, Collapse, Trim, CutOut, Removed, RunsOf, Others;
    OnlyTheHead(text);
    var once := Strip(text).text;
    var c, x := GluedGiven(text);
    var n := PrefixLen(once, Digits);
    PrefixIs(once, Digits, 1);
    PiecesUnfold(once, 0);
    TitlesAreWords(once[..1]);
    OnlyTheHead(once);
    RemovalShows(once);
    ClusterEmpty(Pieces(once), 0);
    NotQualified(Pieces(once));
  }

  lemma NotQualified(ps: seq<Piece>)
    requires ps != [] && !IsTitle(ps[0].text)
    ensures !Qualifies(ps, 0)
  {
    hide IsTitle, LooksLikeName;
  }

  /** What is left of a text that opens with a glued digit: the digit, the characters between the
      titles, of which there are some, and the text from the first surviving word on. */
  lemma GluedRemainder(text: Text) returns (j: Text, t: Text)
    requires OpensGlued(text) && Strip(text).titles != []
    ensures NoAlnum(j) && j != [] && t != [] && IsAlnum(t[0])
    ensures Strip(text).text == Trim(Collapse([text[0]] + (j + t)))
  {
    hide PiecesFrom, IsTitle, LooksLikeName, Collapse, Trim, Removed, Others;
    OnlyTheHead(text);
    PiecesUnfold(text, 0);
    PrefixIs(text, Digits, 1);
    var ps := PiecesFrom(text[1..], 1);
    assert Pieces(text)[1..] == ps;
    var gone := Cluster(ps, 0);
    TitleEnds(text, 1, 0);
    PiecesUnfold(text[1..], 1);
    ClusterCut(text, 1, 0);
    SurvivorBehind(text, ps);
    var q := ps[|gone|];
    j, t := Others(text[1..q.start]), text[q.start..];
    GapSurvives(text, ps, q);
    GluedSlices(text, gone);
    assert CutOut(text, 0, gone) == [text[0]] + (j + t);
  }

  lemma GluedSlices(text: Text, gone: seq<Piece>)
    requires text != [] && gone != [] && gone[0].start == 1
    ensures CutOut(text, 0, gone) == [text[0]] + CutOut(text, 1, gone)
  {
    assert Slice(text, 0, 1) == [text[0]] && Slice(text, 1, 1) == [];
  }

  /** The text given back opens with the digit and a character that belongs to no piece. */
  lemma GluedGiven(text: Text) returns (c: Ch, x: Text)
    requires OpensGlued(text) && Strip(text).titles != []
    ensures !IsAlnum(c) && Strip(text).text == [text[0]] + [c] + x
  {
    hide PiecesFrom, IsTitle, LooksLikeName, Collapse, Trim, TrimRight, Removed, Strip;
    var j, t := GluedRemainder(text);
    var a := [text[0]];
    var k, d := Collapse(j), Collapse(t);
    CollapseOthers(j);
    CollapseHead(t);
    assert a + (j + t) == (a + j) + t && (a + j)[1..] == j;
    CollapseJoin(a + j, t);
    CollapseHead(a + j);
    TrimIs((a + k) + d);
    TrimLeftJoin(a + k, d);
    Untouched(a + k);
    TrimRightJoin(a + k, d);
    c, x := k[0], k[1..] + TrimRight(d);
    assert a + k + TrimRight(d) == a + [c] + x;
  }

  lemma SurvivorBehind(text: Text, ps: seq<Piece>)
    requires text != [] && ps == PiecesFrom(text[1..], 1) && ps != [] && Qualifies(ps, 0)
    ensures var k := |Cluster(ps, 0)|;
            k < |ps| && ps[0].start < ps[0].end <= ps[k].start < |text| && IsAlnum(text[ps[k].start])
  {
    hide PiecesFrom, IsTitle, LooksLikeName, Others;
    HeadAt(text, 1);
    var e := ps[0].end;
    ClusterCut(text, e, e);
    var rest := Cluster(ps[1..], e);
    assert ps[1..][|rest|] == ps[1 + |rest|];
  }

  lemma TrimIs(s: Text)
    ensures Trim(s) == TrimRight(TrimLeft(s))
  {}

  lemma Untouched(s: Text)
    requires s != [] && !s[0].Space?
    ensures TrimLeft(s) == s
  {
    PrefixIs(s, Spaces, 0);
    assert s[0..] == s;
  }

  /** Behind the first title stands a character of no piece, and it stays. */
  lemma GapSurvives(text: Text, ps: seq<Piece>, q: Piece)
    requires ps != [] && 1 <= ps[0].start < ps[0].end < q.start <= |text| && !IsAlnum(text[ps[0].end])
    ensures Others(text[1..q.start]) != []
  {
    var e := ps[0].end;
    var a, b := text[1..e], text[e..q.start];
    assert text[1..q.start] == a + b && b[0] == text[e];
    OthersJoin(a, b);
  }

  /** Kinship idempotence, for every utterance: stripping a stripped utterance changes nothing if and
      only if no title survives at its head. "anh (chị Nam" is the other case: the bracket ends the
      cluster, and is the one character left before "chị". */
  lemma StripAgain(text: Text)
    ensures var once := Strip(text).text; Strip(once).text == once <==> !TitleSurvives(text)
  {
    hide Strip, TitleSurvives;
    if Strip(text).titles == [] {
      NothingRemoved(text);
      NoSurvivor(text);
    } else if OpensGlued(text) {
      AgainGlued(text);
      NoSurvivor(text);
    } else {
      AgainUnglued(text);
    }
  }

  lemma NoSurvivor(text: Text)
    requires Strip(text).titles == [] || OpensGlued(text)
    ensures !TitleSurvives(text)
  {
    hide Strip, IsTitle, LooksLikeName, Others, Left, PiecesFrom;
  }

  // ----- a title behind a bracket ---------------------------------------------------------------

  const BRACKET: Text := [BLANK, Sym('(')]

  const BEHIND: Text := SetOut([CHI, NAM], [[BLANK]])

  lemma HeadWord(w: Text, r: Text, pos: nat)
    requires w != [] && All(w, Letters) && (r == [] || !r[0].Let?)
    ensures PiecesFrom(w + r, pos) == [Piece(w, pos, pos + |w|)] + PiecesFrom(r, pos + |w|)
  {
    hide PiecesFrom;
    var s := w + r;
    assert In(w[0], Letters) && s[0] == w[0];
    assert forall k | 0 <= k < |w| :: s[k] == w[k];
    PrefixIs(s, Letters, |w|);
    PiecesUnfold(s, pos);
    assert s[..|w|] == w && s[|w|..] == r;
  }

  lemma Sizes()
    ensures |ANH| == 3 && |CHI| == 3 && |NAM| == 3 && All(ANH, Letters) && All(CHI, Letters) && All(NAM, Letters)
    ensures |BRACKET| == 2 && NoAlnum(BRACKET) && BRACKET[0] == BLANK
    ensures forall k | 0 <= k < |ANH| :: IsAlnum(ANH[k])
  {
    LowerWritten("anh");
    LowerWritten("chị");
    forall k | 0 <= k < |ANH| ensures IsAlnum(ANH[k]) { assert In(ANH[k], Letters); }
  }

  lemma BracketPieces()
    ensures Pieces(ANH + BRACKET + BEHIND) == [Piece(ANH, 0, 3), Piece(CHI, 5, 8), Piece(NAM, 9, 12)]
  {
    hide PiecesFrom, ANH, CHI, NAM, IsTitle, LooksLikeName, BEHIND, BRACKET;
    Sizes();
    assert ANH + BRACKET + BEHIND == ANH + (BRACKET + BEHIND);
    HeadWord(ANH, BRACKET + BEHIND, 0);
    SkipOthers(BRACKET, BEHIND, 3);
    BehindPieces();
  }

  lemma BehindPieces()
    ensures PiecesFrom(BEHIND, 5) == [Piece(CHI, 5, 8), Piece(NAM, 9, 12)]
  {
    hide PiecesFrom, CHI, NAM, IsTitle, LooksLikeName;
    Sizes();
    BlankGaps();
    var ws, gs := [CHI, NAM], [[BLANK]];
    assert ws[1..] == [NAM] && gs[1..] == [];
    SentencePieces(ws, gs, 5);
    SentencePieces([NAM], [], 9);
  }

  lemma BracketCollapsed()
    ensures Collapse(BRACKET) == BRACKET && TrimLeft(BRACKET) == [Sym('(')]
  {
    hide Collapse;
    PrefixIs(BRACKET, Spaces, 1);
    assert BRACKET[1..] == [Sym('(')] && [Sym('(')][1..] == [];
    PrefixIs([Sym('(')], Spaces, 0);
    CollapseUnfolds(BRACKET);
    CollapseUnfolds([Sym('(')]);
    CollapseNothing();
  }

  lemma BracketLeft()
    ensures |Left(Others(ANH + BRACKET))| == 1
  {
    hide Collapse, TrimLeft, ANH, BRACKET, IsTitle, LooksLikeName;
    Sizes();
    BracketCollapsed();
    OthersNone(ANH);
    OthersJoin(ANH, BRACKET);
    OthersAll(BRACKET);
    assert Others(ANH + BRACKET) == BRACKET;
  }

  /** "anh (chị Nam": no gap is wide, and nevertheless the second pass removes "chị". */
  lemma BracketTwice()
    ensures var once := Strip(ANH + BRACKET + BEHIND).text; Strip(once).text != once
  {
    var text := ANH + BRACKET + BEHIND;
    TheWords();
    BracketPieces();
    BracketLeft();
    assert |ANH| == 3 && text[..5] == ANH + BRACKET;
    hide PiecesFrom, ANH, CHI, NAM, IsTitle, LooksLikeName, BEHIND, Left, Others, BRACKET;
    var ps := Pieces(text);
    assert In(NAM[0], Letters) && In(CHI[0], Letters);
    BracketCluster(text, ps);
    StripAgain(text);
  }

  lemma BracketCluster(text: Text, ps: seq<Piece>)
    requires ps == Pieces(text) == [Piece(ANH, 0, 3), Piece(CHI, 5, 8), Piece(NAM, 9, 12)]
    requires IsTitle(ANH) && LooksLikeName(CHI) && !All(CHI, Digits) && IsTitle(CHI) && LooksLikeName(NAM)
             && !All(NAM, Digits)
    requires |text| >= 5 && |Left(Others(text[..5]))| <= 1 && text[0].Let?
    ensures TitleSurvives(text)
  {
    hide PiecesFrom, ANH, CHI, NAM, IsTitle, LooksLikeName, Left, Others, Collapse, Trim, CutOut, All;
    OnlyTheHead(text);
    assert ps[1..] == [Piece(CHI, 5, 8), Piece(NAM, 9, 12)];
    assert !Qualifies(ps[1..], 3);
    assert Cluster(ps, 0) == [ps[0]] + Cluster(ps[1..], 3);
  }
}
