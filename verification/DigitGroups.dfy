/** Amounts written as numbers with scale words: "10 triệu 500 nghìn". */
module DigitGroups {
  import opened Text
  import opened Vocabulary
  import opened Lexer
  import opened Machine
  import opened OpenTail
  import opened Words
  import opened Accepting

  /** A numeral and the scale word behind it, in any spelling: "10 triệu", "1.500 nghìn", "0,5 tỷ". */
  datatype Group = Group(count: Text, scale: Text)

  predicate IsGroup(g: Group) {
    IsNumeral(g.count) && g.scale != [] && All(g.scale, Letters) && WordFor(g.scale).Scale?
  }

  predicate AreGroups(gs: seq<Group>) { forall k | 0 <= k < |gs| :: IsGroup(gs[k]) }

  function MagnitudeOf(g: Group): Magnitude
    requires IsGroup(g)
  {
    WordFor(g.scale).magnitude
  }

  function Unit(m: Magnitude): nat {
    match m
    case Thousand => 1000
    case Myriad => 10000
    case Million => 1000000
    case Billion => 1000000000
  }

  /** What the groups add up to. */
  function Sum(gs: seq<Group>): real
    requires AreGroups(gs)
  {
    if gs == [] then 0.0 else ValueOf(gs[0].count) * Base(MagnitudeOf(gs[0])) + Sum(gs[1..])
  }

  /** What is read: the sum in which every zero counts as one. */
  function ReadSum(gs: seq<Group>): real
    requires AreGroups(gs)
  {
    if gs == [] then 0.0 else Scaled(ValueOf(gs[0].count), MagnitudeOf(gs[0])) + ReadSum(gs[1..])
  }

  /** How often a scale counts behind the number `n`: a zero counts as one. */
  function Times(n: nat): nat { if n == 0 then 1 else n }

  /** Some number is not zero; none is. */
  predicate SomeCount(gs: seq<Group>) { exists k | 0 <= k < |gs| :: ValueOf(gs[k].count) != 0.0 }

  predicate AllCount(gs: seq<Group>) { forall k | 0 <= k < |gs| :: ValueOf(gs[k].count) != 0.0 }

  function GroupWords(gs: seq<Group>): (ws: seq<Text>)
    ensures |ws| == 2 * |gs|
  {
    if gs == [] then [] else [gs[0].count, gs[0].scale] + GroupWords(gs[1..])
  }

  function NounsOf(gs: seq<Group>): set<Noun>
    requires AreGroups(gs)
  {
    if gs == [] then {}
    else
      var noun := WordFor(gs[0].scale).noun;
      (if noun.Some? then {noun.value} else {}) + NounsOf(gs[1..])
  }

  /** The state of a run in which nothing is pending. */
  predicate Ready(s: State) { s.current.Absent? && s.section == 0.0 && Unflagged(s) }

  lemma UnitOf(n: nat, m: Magnitude)
    ensures Scaled(n as real, m) == (Times(n) * Unit(m)) as real
    ensures Base(m) == Unit(m) as real
  {
    match m {
      case Thousand =>
      case Myriad =>
      case Million =>
      case Billion =>
    }
  }

  /** One group adds its count of its unit, or one unit if the count is zero. */
  lemma GroupRuns(text: Text, toks: seq<Tok>, ws: seq<Text>, k: nat, s: State, g: Group) returns (s': State)
    requires ReadsPart(text, toks, ws, k, k + 2) && IsGroup(g) && Ready(s)
    requires ws[k] == g.count && ws[k + 1] == g.scale
    ensures Run(text, toks, k, s) == Run(text, toks, k + 2, s')
    ensures k + 2 < |toks| && TailTaken(text, toks, k + 2, s') ==> TailTaken(text, toks, k, s)
    ensures Ready(s') && s'.seenBig && s'.hasNumber && s'.end == toks[k + 1].end
    ensures s'.hasNonzero == (s.hasNonzero || ValueOf(g.count) != 0.0)
    ensures s'.total == s.total + Scaled(ValueOf(g.count), MagnitudeOf(g))
    ensures s'.lastScale == Is(Base(MagnitudeOf(g)))
    ensures s'.slang == s.slang + NounsOf([g])
  {
    hide Run, Step, StandsFree, WordOf, Scaled, Base, TailTaken, ValueOf, BodyLen, DigitCount;
    assert ReadsAt(text, toks, ws, k) && ReadsAt(text, toks, ws, k + 1);
    assert In(g.scale[0], Letters);
    NumberBegins(text, toks, ws, k, s);
    var s1 := Began(s, ws[k], toks[k].end);
    ScaleStep(text, toks, ws, k + 1, s1);
    s' := Multiply(s1, WordFor(g.scale), toks[k + 1].end);
    RunUnfolds(text, toks, k, s);
    RunUnfolds(text, toks, k + 1, s1);
    if k + 2 < |toks| {
      TailPasses(text, toks, k, s);
      TailPasses(text, toks, k + 1, s1);
    }
    assert NounsOf([g][1..]) == {};
  }

  lemma {:induction false} GroupsRun(text: Text, toks: seq<Tok>, ws: seq<Text>, k: nat, s: State, gs: seq<Group>)
    returns (s': State)
    requires ReadsPart(text, toks, ws, k, k + 2 * |gs|) && AreGroups(gs) && Ready(s)
    requires ws[k..k + 2 * |gs|] == GroupWords(gs)
    ensures Run(text, toks, k, s) == Run(text, toks, k + 2 * |gs|, s')
    ensures k + 2 * |gs| < |toks| && TailTaken(text, toks, k + 2 * |gs|, s') ==> TailTaken(text, toks, k, s)
    ensures Ready(s') && s'.total == s.total + ReadSum(gs) && s'.slang == s.slang + NounsOf(gs)
    ensures s'.hasNonzero == (s.hasNonzero || SomeCount(gs))
    ensures gs == [] ==> s' == s
    ensures gs != [] ==>
              s'.seenBig && s'.hasNumber && s'.end == toks[k + 2 * |gs| - 1].end
              && s'.lastScale == Is(Base(MagnitudeOf(gs[|gs| - 1])))
    decreases |gs|
  {
    hide Run, ReadsAt, IsGroup, Base, MagnitudeOf, TailTaken, SomeCount, Scaled, NounsOf, ValueOf;
    s' := s;
    NoNouns();
    SomeCountUnfolds(gs);
    if gs != [] {
      assert ws[k..k + 2 * |gs|][0] == ws[k] && ws[k..k + 2 * |gs|][1] == ws[k + 1];
      assert ws[k..k + 2 * |gs|][2..] == ws[k + 2..k + 2 * |gs|];
      var s1 := GroupRuns(text, toks, ws, k, s, gs[0]);
      s' := GroupsRun(text, toks, ws, k + 2, s1, gs[1..]);
      OneNoun(gs);
    }
  }

  lemma SomeCountUnfolds(gs: seq<Group>)
    ensures SomeCount(gs) <==> gs != [] && (ValueOf(gs[0].count) != 0.0 || SomeCount(gs[1..]))
  {
    hide ValueOf;
    if k :| 1 <= k < |gs| && ValueOf(gs[k].count) != 0.0 { assert gs[1..][k - 1] == gs[k]; }
  }

  lemma NoNouns()
    ensures NounsOf([]) == {}
  {}

  lemma OneNoun(gs: seq<Group>)
    requires AreGroups(gs) && gs != []
    ensures NounsOf(gs) == NounsOf([gs[0]]) + NounsOf(gs[1..])
  {
    hide IsGroup;
    assert NounsOf([gs[0]][1..]) == {};
  }

  lemma {:induction false} GroupsAreChunks(gs: seq<Group>)
    requires AreGroups(gs)
    ensures AreChunks(GroupWords(gs))
  {
    hide WordOf, BodyLen;
    if gs != [] {
      GroupsAreChunks(gs[1..]);
      assert IsGroup(gs[0]);
    }
  }

  lemma ScaledLarge(x: real, m: Magnitude)
    requires x >= 0.0
    ensures Scaled(x, m) > 0.0 && Scaled(x, m) >= x * Base(m)
    ensures x == 0.0 ==> Scaled(x, m) >= x * Base(m) + 1000.0
    ensures x != 0.0 ==> Scaled(x, m) == x * Base(m)
  {}

  lemma {:induction false} SumPositive(gs: seq<Group>)
    requires AreGroups(gs) && gs != []
    ensures ReadSum(gs) > 0.0
  {
    hide WordOf, Scaled, ValueOf;
    ScaledLarge(ValueOf(gs[0].count), MagnitudeOf(gs[0]));
    if |gs| > 1 { SumPositive(gs[1..]); }
  }

  /** Digit round trip: numerals with scale words behind them, in any number, order and spelling, are
      one amount over the whole text, their sum rounded half up, in which every zero counts as one;
      only if all the numerals are zero nothing is found. */
  lemma DigitRoundTrip(gs: seq<Group>)
    requires gs != [] && AreGroups(gs)
    ensures var text := Join(GroupWords(gs));
            Amounts(text) == if SomeCount(gs) then [Match(RoundHalfUp(ReadSum(gs)), text, 0, |text|)] else []
  {
    hide Lex, Run, Reads, ReadsPart, Join, IsGroup, Amounts, TailTaken, SomeCount, Scaled, ValueOf, RoundHalfUp;
    var ws := GroupWords(gs);
    var text := Join(ws);
    var toks := Tokens(text);
    GroupsAreChunks(gs);
    JoinReads(ws);
    ReadsAsPart(text, toks, ws);
    SumPositive(gs);
    assert ws[0..2 * |gs|] == ws;
    var f := Fresh(toks[0].end);
    var s := GroupsRun(text, toks, ws, 0, f, gs);
    RunUnfolds(text, toks, |ws|, s);
    if SomeCount(gs) { WholeText(text, toks, ws, s); } else { AllZero(text, toks, s); }
  }

  /** A run over the whole text that read nothing but zeros is refused. */
  lemma AllZero(text: Text, toks: seq<Tok>, s: State)
    requires toks == Tokens(text) && toks != [] && RunAt(text, toks, 0) == Outcome(s, |toks|) && !s.hasNonzero
    ensures Amounts(text) == []
  {
    hide Lex, RunAt, Scan, LooksLikeIdentifier, CurrencyAhead;
    ScanUnfolds(text, toks, 0);
    ScanEnd(text, toks);
    ConsumedStarts(text, toks, 0);
  }

  lemma {:induction false} ReadSumMore(gs: seq<Group>)
    requires AreGroups(gs)
    ensures AllCount(gs) ==> ReadSum(gs) == Sum(gs)
    ensures !AllCount(gs) ==> ReadSum(gs) >= Sum(gs) + 1000.0
    ensures ReadSum(gs) >= Sum(gs)
  {
    hide Scaled, Base, MagnitudeOf, IsGroup, ValueOf;
    if gs != [] {
      ReadSumMore(gs[1..]);
      ScaledLarge(ValueOf(gs[0].count), MagnitudeOf(gs[0]));
      AllCountUnfolds(gs);
    }
  }

  lemma AllCountUnfolds(gs: seq<Group>)
    requires gs != []
    ensures AllCount(gs) <==> ValueOf(gs[0].count) != 0.0 && AllCount(gs[1..])
  {
    hide ValueOf;
    if ValueOf(gs[0].count) != 0.0 && AllCount(gs[1..]) {
      forall k | 0 <= k < |gs| ensures ValueOf(gs[k].count) != 0.0 { if k > 0 { assert gs[k] == gs[1..][k - 1]; } }
    }
  }

  /** The sum law holds exactly where no number is zero; otherwise the amount is too large. */
  lemma SumRight(gs: seq<Group>)
    requires AreGroups(gs) && SomeCount(gs)
    ensures gs != [] && |Amounts(Join(GroupWords(gs)))| == 1
    ensures Amounts(Join(GroupWords(gs)))[0].value >= RoundHalfUp(Sum(gs))
    ensures Amounts(Join(GroupWords(gs)))[0].value == RoundHalfUp(Sum(gs)) <==> AllCount(gs)
  {
    hide Amounts, Join, IsGroup, GroupWords, Scaled, ValueOf;
    DigitRoundTrip(gs);
    ReadSumMore(gs);
  }

  // ----- whole numbers --------------------------------------------------------------------------

  predicate IsWhole(x: real) { x == x.Floor as real }

  predicate AllWhole(gs: seq<Group>) { forall k | 0 <= k < |gs| :: IsWhole(ValueOf(gs[k].count)) }

  lemma WholeScaled(x: real, m: Magnitude)
    requires x >= 0.0 && IsWhole(x)
    ensures IsWhole(Scaled(x, m))
  {
    UnitOf(x.Floor, m);
    var n := Times(x.Floor) * Unit(m);
    assert Scaled(x, m) == n as real;
  }

  lemma WholeRounds(x: real)
    requires IsWhole(x)
    ensures RoundHalfUp(x) as real == x
  {
    RoundWhole(x.Floor);
  }

  /** With whole numbers the sum is whole, and nothing is rounded. */
  lemma {:induction false} WholeSum(gs: seq<Group>)
    requires AreGroups(gs) && AllWhole(gs)
    ensures IsWhole(ReadSum(gs))
  {
    hide Scaled, MagnitudeOf, IsGroup, ValueOf, IsWhole;
    if gs == [] {
      WholeZero();
    } else {
      WholeSum(gs[1..]);
      WholeScaled(ValueOf(gs[0].count), MagnitudeOf(gs[0]));
      WholePlus(Scaled(ValueOf(gs[0].count), MagnitudeOf(gs[0])), ReadSum(gs[1..]));
    }
  }

  /** So whole numbers, grouped or not, give exactly their sum. */
  lemma WholeRoundTrip(gs: seq<Group>)
    requires AreGroups(gs) && SomeCount(gs) && AllWhole(gs)
    ensures gs != [] && |Amounts(Join(GroupWords(gs)))| == 1
    ensures Amounts(Join(GroupWords(gs)))[0].value as real == ReadSum(gs)
  {
    hide Amounts, Join, IsGroup, GroupWords, ReadSum, ValueOf, IsWhole, RoundHalfUp, AllWhole;
    DigitRoundTrip(gs);
    WholeSum(gs);
    WholeRounds(ReadSum(gs));
  }

  lemma WholeZero()
    ensures IsWhole(0.0)
  {}

  lemma WholePlus(x: real, y: real)
    requires IsWhole(x) && IsWhole(y)
    ensures IsWhole(x + y)
  {
    assert x + y == (x.Floor + y.Floor) as real;
  }

  lemma {:induction false} GroupAppended(gs: seq<Group>, g: Group)
    requires AreGroups(gs) && IsGroup(g)
    ensures AreGroups(gs + [g]) && GroupWords(gs + [g]) == GroupWords(gs) + [g.count, g.scale]
    ensures ReadSum(gs + [g]) == ReadSum(gs) + Scaled(ValueOf(g.count), WordFor(g.scale).magnitude)
    decreases |gs|
  {
    hide IsGroup, Scaled, ValueOf, WordFor;
    if gs == [] {
      assert [g][1..] == [] && gs + [g] == [g];
    } else {
      GroupAppended(gs[1..], g);
      assert (gs + [g])[1..] == gs[1..] + [g];
    }
  }

  lemma ReadsLength(text: Text, toks: seq<Tok>, ws: seq<Text>)
    requires Reads(text, toks, ws)
    ensures |toks| == |ws| > 0
  {
    hide ReadsAt;
  }
}
