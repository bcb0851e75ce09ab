/** What stands behind complete groups and is no part of them: "320 nghìn một bao", "2 triệu 5 bao",
    "5 củ tiền hàng", "5 củ cải". */
module Followers {
  import opened Text
  import opened Vocabulary
  import opened Lexer
  import opened Lexing
  import opened Machine
  import opened Invariants
  import opened Guarantees
  import opened Composition
  import opened Barrier
  import opened OpenTail
  import opened Words
  import opened Accepting
  import opened DigitGroups
  import opened Tails
  import opened SpokenTails
  import opened Names
  import opened Refusals

  predicate IsOnesTok(t: Tok) { t.Word? && t.word.Ones? }

  predicate IsPlainTok(t: Tok) { t.Word? && t.word.Plain? }

  predicate Multiplies(t: Tok) { t.Word? && (t.word.Tens? || t.word.Hundred? || t.word.Scale?) }

  /** The tokens do not go on with the groups: they open with a mark, a plain word, or a number or numeral
      behind which another token stands that does not multiply it. */
  predicate CutsOff(ts: seq<Tok>) {
    ts != []
    && (ts[0].Other? || IsPlainTok(ts[0])
        || ((ts[0].Num? || IsOnesTok(ts[0])) && |ts| > 1 && !Multiplies(ts[1])))
  }

  /** The text leaves the groups in front of it an amount: no plain word in it makes a slang scale of
      theirs the name of a thing, and no number in it is broken or has a mark behind it. */
  predicate LeavesGroups(gs: seq<Group>, t: Text)
    requires AreGroups(gs) && CutsOff(Tokens(t))
  {
    var ts := Tokens(t);
    match ts[0]
    case Other(_, _, _) => true
    case Word(_, _, _, Plain(_, objectOf)) => objectOf.Some? ==> objectOf.value !in NounsOf(gs)
    case Word(_, _, _, _) => !ts[1].Other?
    case Num(_, _, end, _, _) => !ts[1].Other? && !ScaleAndDigit(t, end)
  }

  // ----- the texts side by side -----------------------------------------------------------------

  /** The tokens of `a`, a blank and `t`. */
  function Joined(a: Text, t: Text): seq<Tok> { Tokens(a) + ShiftAll(Tokens(t), |a| + 1) }

  /** The chunks `ws` read in `a` are read in a longer text too. */
  lemma PartRead(a: Text, t: Text, ws: seq<Text>, vs: seq<Text>)
    requires Reads(a, Tokens(a), ws) && |vs| == |Joined(a, t)| && |ws| <= |vs| && vs[..|ws|] == ws
    ensures ReadsPart(a + [BLANK] + t, Joined(a, t), vs, 0, |ws|)
  {
    hide Lex, WordOf, ValueOf, IsChunk;
    var text, toks := a + [BLANK] + t, Joined(a, t);
    forall k | 0 <= k < |ws| ensures ReadsAt(text, toks, vs, k) {
      assert ReadsAt(a, Tokens(a), ws, k);
      assert vs[..|ws|][k] == vs[k];
      PartFree(a, t, k);
    }
  }

  lemma PartFree(a: Text, t: Text, k: nat)
    requires k < |Tokens(a)| && StandsFree(a, Tokens(a), k)
    ensures StandsFree(a + [BLANK] + t, Joined(a, t), k)
  {
    hide Lex;
    var text, toks := a + [BLANK] + t, Joined(a, t);
    var e := toks[k].end;
    assert text[e..] == a[e..] + [BLANK] + t;
    if e < |a| { assert text[e] == a[e] == a[e..][0]; }
  }

  lemma Padded(ws: seq<Text>, n: nat) returns (vs: seq<Text>)
    requires |ws| <= n
    ensures |vs| == n && vs[..|ws|] == ws
  {
    vs := ws + seq(n - |ws|, _ => []);
  }

  // ----- the step at the follower ---------------------------------------------------------------

  lemma AheadIs(text: Text, e: nat)
    ensures ShorthandAhead(From(text, e)) <==> e <= |text| && ScaleAndDigit(text, e)
  {
    if e <= |text| { assert forall k | 0 <= k < |text| - e :: text[e..][k] == text[e + k]; }
  }

  /** The state in which the run stops before `x`, where `y` is the token behind it. */
  function Stopped(text: Text, s: State, x: Tok, y: Option<Tok>): State {
    if x.Num? && ShorthandAhead(From(text, x.end)) then s.(suspicious := true)
    else if x.Num? || IsOnesTok(x) then s.(ambiguousTail := y.None? || y.value.Other?)
    else s
  }

  lemma FollowerStops(text: Text, toks: seq<Tok>, k: nat, s: State)
    requires k < |toks| && CutsOff(toks[k..]) && s.seenBig && s.current.Absent?
    ensures Step(text, toks, k, s) == Stop(Stopped(text, s, toks[k], Peek(toks, k + 1)))
  {
    hide ShorthandAhead, From, BigEnough, IsSpokenTail;
    var x := toks[k];
    assert toks[k..][0] == x && (|toks[k..]| > 1 ==> toks[k..][1] == toks[k + 1]);
    if x.Num? || IsOnesTok(x) {
      assert !IsScaleTok(Peek(toks, k + 1)) && !IsHundredTok(Peek(toks, k + 1));
      assert !TailConsumable(toks, k + 1);
      hide IsScaleTok, TailConsumable, IsHundredTok;
    }
  }

  /** The verdict on complete groups that end before `x`. */
  lemma GroupsJudged(text: Text, toks: seq<Tok>, k: nat, s: State, x: Tok, y: Option<Tok>, a: Text)
    requires 0 < k < |toks| && x == toks[k] && (x.Num? || x.Other? || x.Word?)
    requires Ready(s) && s.seenBig && s.hasNumber && s.total > 0.0
    requires Slice(text, toks[0].start, s.end) == a && !IsDigitText(a)
    ensures var keeps := (if x.Num? && ShorthandAhead(From(text, x.end)) then false
                          else if x.Num? || IsOnesTok(x) then y.Some? && !y.value.Other?
                          else !IsObjectTok(Some(x), s.slang));
            Judge(text, toks, 0, k, Stopped(text, s, x, y))
            == if keeps && s.hasNonzero then Some(Match(RoundHalfUp(s.total), a, toks[0].start, s.end)) else None
  {
    hide ShorthandAhead, From, CurrencyAhead, IsDigitText, Slice, RoundHalfUp;
    assert GrandTotal(s) == s.total;
    hide GrandTotal;
  }

  // ----- the law --------------------------------------------------------------------------------

  lemma GroupsFirst(gs: seq<Group>, t: Text) returns (s: State)
    requires gs != [] && AreGroups(gs)
    ensures var a, k := Join(GroupWords(gs)), 2 * |gs|;
            var text, toks := a + [BLANK] + t, Joined(a, t);
            |Tokens(a)| == k && RunAt(text, toks, 0) == Run(text, toks, k, s)
            && toks[0].start == 0 && s.end == |a| && Prev(toks, k).Some? && !IsIdentifierTok(Prev(toks, k))
            && SomeScale(Tokens(a), 0, k)
    ensures Ready(s) && s.seenBig && s.hasNumber && s.total == ReadSum(gs) && s.hasNonzero == SomeCount(gs)
    ensures s.slang == NounsOf(gs)
  {
    hide Lex, Run, Join, IsGroup, ReadsAt, SomeCount, NounsOf, ReadSum, TailTaken, MagnitudeOf, Base, WordOf;
    var ws, k := GroupWords(gs), 2 * |gs|;
    var a := Join(ws);
    GroupsAreChunks(gs);
    JoinReads(ws);
    ReadsLength(a, Tokens(a), ws);
    var text, toks := a + [BLANK] + t, Joined(a, t);
    var vs := Padded(ws, |toks|);
    PartRead(a, t, ws, vs);
    assert vs[0..k] == ws;
    s := GroupsRun(text, toks, vs, 0, Fresh(toks[0].end), gs);
    LastGroupWord(gs);
    ReadsHere(a, Tokens(a), ws, k - 1);
    LastIsScale(a, Tokens(a), ws, k - 1);
    RunAtStarts(text, toks);
  }

  lemma RunAtStarts(text: Text, toks: seq<Tok>)
    requires toks != []
    ensures RunAt(text, toks, 0) == Run(text, toks, 0, Fresh(toks[0].end))
  {}

  lemma LastIsScale(a: Text, toks: seq<Tok>, ws: seq<Text>, k: nat)
    requires k < |toks| == |ws| && ReadsAt(a, toks, ws, k) && All(ws[k], Letters) && WordFor(ws[k]).Scale?
    ensures toks[k].Word? && toks[k].word.Scale? && SomeScale(toks, 0, k + 1)
  {
    hide WordOf, StandsFree;
    assert In(ws[k][0], Letters);
    assert FixesScale(toks[k]);
  }

  lemma GroupsAreNoDigits(gs: seq<Group>)
    requires gs != [] && AreGroups(gs) && |Tokens(Join(GroupWords(gs)))| == 2 * |gs|
    requires SomeScale(Tokens(Join(GroupWords(gs))), 0, 2 * |gs|)
    ensures !IsDigitText(Join(GroupWords(gs)))
  {
    hide Lex, Join, IsGroup, SomeScale, IsDigitText, WellCut, Solid, InOrder, Reads;
    var a := Join(GroupWords(gs));
    TokensLossless(a);
    GroupsAreChunks(gs);
    JoinReads(GroupWords(gs));
    ReadsEnds(a, Tokens(a), GroupWords(gs));
    ScaleShows(a, Tokens(a), 0, 2 * |gs|);
    assert Slice(a, 0, |a|) == a;
  }

  lemma ReadsEnds(text: Text, toks: seq<Tok>, ws: seq<Text>)
    requires Reads(text, toks, ws)
    ensures |toks| == |ws| > 0 && toks[0].start == 0 && toks[|ws| - 1].end == |text|
  {
    hide ReadsAt;
  }

  /** The verdict on the groups, and where the search goes on. */
  lemma GroupsScanned(gs: seq<Group>, t: Text)
    requires gs != [] && AreGroups(gs) && CutsOff(Tokens(t))
    ensures var a, k := Join(GroupWords(gs)), 2 * |gs|;
            var text, toks := a + [BLANK] + t, Joined(a, t);
            k < |toks| && |Tokens(a)| == k && !IsIdentifierTok(Prev(toks, k)) && Prev(toks, k) == Some(Tokens(a)[k - 1])
            && Scan(text, toks, 0)
               == (if SomeCount(gs) && LeavesGroups(gs, t) then [Match(RoundHalfUp(ReadSum(gs)), a, 0, |a|)] else [])
                  + Scan(text, toks, k)
  {
    hide Lex, Run, RunAt, Scan, Judge, Join, IsGroup, SomeCount, NounsOf, ReadSum, Ready, IsDigitText, CutsOff,
      Stopped, LeavesGroups, RoundHalfUp, SomeScale, IsIdentifierTok;
    var a, k := Join(GroupWords(gs)), 2 * |gs|;
    var text, toks := a + [BLANK] + t, Joined(a, t);
    var s := GroupsFirst(gs, t);
    SumPositive(gs);
    GroupsAreNoDigits(gs);
    CutsShifted(Tokens(t), |a| + 1);
    assert toks[k..] == ShiftAll(Tokens(t), |a| + 1);
    ReadyState(s);
    FollowerStops(text, toks, k, s);
    RunUnfolds(text, toks, k, s);
    assert Slice(text, 0, |a|) == a;
    GroupsJudged(text, toks, k, s, toks[k], Peek(toks, k + 1), a);
    Leaves(gs, t, s);
    ConsumedStarts(text, toks, 0);
    ScanUnfolds(text, toks, 0);
  }

  /** Groups before a text that does not go on with them: they are an amount of their own unless the text
      takes it from them, and the text is read by itself. */
  lemma GroupsThenText(gs: seq<Group>, t: Text)
    requires gs != [] && AreGroups(gs) && CutsOff(Tokens(t))
    ensures var a := Join(GroupWords(gs));
            Amounts(a + [BLANK] + t)
            == (if SomeCount(gs) && LeavesGroups(gs, t) then [Match(RoundHalfUp(ReadSum(gs)), a, 0, |a|)] else [])
               + ShiftMatches(Amounts(t), |a| + 1)
  {
    hide Lex, Scan, Join, GroupWords, IsGroup, SomeCount, ReadSum, CutsOff, LeavesGroups, RoundHalfUp, ShiftMatches,
      IsIdentifierTok;
    var a := Join(GroupWords(gs));
    TokensAcrossSpace(a, BLANK, t);
    GroupsScanned(gs, t);
    BehindPrefix(a + [BLANK], Tokens(a), t);
    assert (a + [BLANK]) + t == a + [BLANK] + t;
  }

  lemma ReadyState(s: State)
    requires Ready(s)
    ensures s.current.Absent?
  {}

  lemma CutsShifted(ts: seq<Tok>, d: nat)
    requires CutsOff(ts)
    ensures CutsOff(ShiftAll(ts, d))
  {}

  lemma Leaves(gs: seq<Group>, t: Text, s: State)
    requires gs != [] && AreGroups(gs) && CutsOff(Tokens(t)) && s.slang == NounsOf(gs)
    ensures var a := Join(GroupWords(gs));
            var text, toks, k := a + [BLANK] + t, Joined(a, t), |Tokens(a)|;
            k < |toks|
            && var x, y := toks[k], Peek(toks, k + 1);
               LeavesGroups(gs, t)
               <==> (if x.Num? && ShorthandAhead(From(text, x.end)) then false
                     else if x.Num? || IsOnesTok(x) then y.Some? && !y.value.Other?
                     else !IsObjectTok(Some(x), s.slang))
  {
    hide Lex, Join, ShorthandAhead, IsGroup, NounsOf, WellCut, Solid, ScaleAndDigit, From;
    var a := Join(GroupWords(gs));
    var x := Tokens(t)[0];
    TokensLossless(t);
    assert Joined(a, t)[|Tokens(a)|] == Shift(x, |a| + 1);
    FromShift(a + [BLANK], t, x.end);
    AheadIs(t, x.end);
    assert x in Tokens(t);
  }

  // ----- words behind groups --------------------------------------------------------------------

  lemma {:induction false} JoinBehind(ws: seq<Text>, rest: seq<Text>)
    requires ws != [] && rest != []
    ensures Join(ws + rest) == Join(ws) + [BLANK] + Join(rest)
    decreases |ws|
  {
    hide Join;
    JoinUnfolds(ws + rest);
    assert (ws + rest)[1..] == ws[1..] + rest;
    if |ws| == 1 {
      JoinOne(ws);
      assert ws[1..] + rest == rest;
    } else {
      JoinUnfolds(ws);
      JoinBehind(ws[1..], rest);
    }
  }

  lemma JoinOne(ws: seq<Text>)
    requires |ws| == 1
    ensures Join(ws) == ws[0]
  {}

  /** A plain word by itself is no amount. */
  lemma LonePlain(p: Text)
    requires IsWord(p) && WordFor(p).Plain?
    ensures Tokens(p) == [ChunkTok(p, 0)] && IsPlainTok(Tokens(p)[0]) && Amounts(p) == []
  {
    hide Lex, Scan, WordOf, ValueOf;
    assert In(p[0], Letters);
    ChunkLex(p);
    ScanUnfolds(p, Tokens(p), 0);
    ScanEnd(p, Tokens(p));
  }

  /** A plain word behind groups: they are an amount unless it names a thing that one of their scale
      words counts ("5 củ tiền hàng" against "5 củ cải"). */
  lemma WordBehindGroups(gs: seq<Group>, p: Text)
    requires gs != [] && AreGroups(gs) && IsWord(p) && WordFor(p).Plain?
    ensures var a, noun := Join(GroupWords(gs)), WordFor(p).objectOf;
            Amounts(Join(GroupWords(gs) + [p]))
            == if SomeCount(gs) && (noun.Some? ==> noun.value !in NounsOf(gs))
               then [Match(RoundHalfUp(ReadSum(gs)), a, 0, |a|)] else []
  {
    hide Lex, Join, IsGroup, SomeCount, NounsOf, ReadSum, RoundHalfUp, Scan, GroupWords, WordOf, ValueOf, BodyLen;
    LonePlain(p);
    assert In(p[0], Letters);
    JoinBehind(GroupWords(gs), [p]);
    JoinOne([p]);
    GroupsThenText(gs, p);
  }

  /** Two chunks, the first a number or a numeral. */
  lemma NumberThenWord(x: Text, p: Text)
    requires (IsNumeral(x) || (IsWord(x) && WordFor(x).Ones?)) && IsWord(p) && WordFor(p).Plain?
    ensures var t := Join([x, p]);
            var ts := Tokens(t);
            |ts| == 2 && (ts[0].Num? || IsOnesTok(ts[0])) && IsPlainTok(ts[1])
            && ts[0].end < |t| && t[ts[0].end].Space?
  {
    hide Lex, Join, WordOf, ValueOf, BodyLen;
    var ws := [x, p];
    JoinReads(ws);
    var t, ts := Join(ws), Tokens(Join(ws));
    ReadsHere(t, ts, ws, 0);
    ReadsHere(t, ts, ws, 1);
    assert In(p[0], Letters);
    if !IsNumeral(x) { assert In(x[0], Letters); }
    assert ts[0].end < ts[1].start;
    ReadsEnds(t, ts, ws);
  }

  /** A number or a numeral with a plain word behind it takes nothing from the groups in front: "320 nghìn
      một bao" is 320 000, "2 triệu 5 bao" 2 000 000. */
  lemma CountBehindGroups(gs: seq<Group>, x: Text, p: Text)
    requires gs != [] && AreGroups(gs) && SomeCount(gs)
    requires (IsNumeral(x) || (IsWord(x) && WordFor(x).Ones?)) && IsWord(p) && WordFor(p).Plain?
    ensures var a := Join(GroupWords(gs));
            Amounts(Join(GroupWords(gs) + [x, p]))
            == [Match(RoundHalfUp(ReadSum(gs)), a, 0, |a|)] + ShiftMatches(Amounts(Join([x, p])), |a| + 1)
  {
    hide Lex, Join, IsGroup, SomeCount, NounsOf, ReadSum, RoundHalfUp, Scan, GroupWords, WordOf, ValueOf, BodyLen,
      ShiftMatches;
    NumberThenWord(x, p);
    JoinBehind(GroupWords(gs), [x, p]);
    GroupsThenText(gs, Join([x, p]));
  }
}
