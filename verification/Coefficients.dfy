/** What stands in front of a scale word: numerals, "nửa", tens, hundreds and fillers in any order, and
    what they are worth together: "nửa triệu", "5 nửa triệu", "hai trăm linh ba nghìn". */
module Coefficients {
  import opened Text
  import opened Vocabulary
  import opened Lexer
  import opened Machine
  import opened OpenTail
  import opened Words
  import opened Accepting
  import opened DigitGroups
  import opened SpokenTails

  /** What is counted, and the ten or hundred that multiplies it. */
  datatype Segment = Segment(items: seq<Text>, times: Text)

  /** Segments one after the other, and what is counted behind the last of them. */
  datatype Coefficient = Coefficient(segments: seq<Segment>, last: seq<Text>)

  function Worth(w: Text): (v: real)
    ensures v >= 0.0
  {
    if IsNumeral(w) then ValueOf(w)
    else match WordFor(w)
         case Ones(digit, _) => digit as real
         case Half => 0.5
         case _ => 0.0
  }

  function Tally(items: seq<Text>): (v: real)
    ensures v >= 0.0
  {
    if items == [] then 0.0 else Worth(items[0]) + Tally(items[1..])
  }

  /** Something is counted: not all the items are fillers. */
  predicate Counts(items: seq<Text>) {
    items != [] && (IsNumeral(items[0]) || !WordFor(items[0]).Filler? || Counts(items[1..]))
  }

  /** A segment in which nothing is counted counts once. */
  function SegmentWorth(g: Segment): real {
    (if Counts(g.items) then Tally(g.items) else 1.0) * (if WordFor(g.times).Hundred? then 100.0 else 10.0)
  }

  function SegmentsWorth(gs: seq<Segment>): real {
    if gs == [] then 0.0 else SegmentWorth(gs[0]) + SegmentsWorth(gs[1..])
  }

  function CoefficientWorth(c: Coefficient): real { SegmentsWorth(c.segments) + Tally(c.last) }

  /** Some ten or hundred, or something that is not zero. */
  predicate IsMeant(c: Coefficient) { c.segments != [] || Tally(c.last) != 0.0 }

  /** The items can be read as one count: a number only where nothing is pending; `behind` complete
      groups neither a number nor a numeral opens it, for they could be the hundreds of the last scale. */
  predicate Fits(items: seq<Text>, behind: bool, pending: bool) {
    items == []
    || if IsNumeral(items[0]) then !pending && !behind && Fits(items[1..], behind, true)
       else
         IsWord(items[0])
         && match WordFor(items[0])
            case Filler => Fits(items[1..], behind, pending)
            case Half => Fits(items[1..], behind, true)
            case Ones(_, _) => (pending || !behind) && Fits(items[1..], behind, true)
            case _ => false
  }

  predicate SegmentsFit(gs: seq<Segment>, behind: bool) {
    forall k | 0 <= k < |gs| ::
      Fits(gs[k].items, behind, false) && IsWord(gs[k].times)
      && (WordFor(gs[k].times).Tens? || WordFor(gs[k].times).Hundred?)
  }

  function SegmentWords(gs: seq<Segment>): seq<Text> {
    if gs == [] then [] else gs[0].items + [gs[0].times] + SegmentWords(gs[1..])
  }

  function CoefficientWords(c: Coefficient): seq<Text> { SegmentWords(c.segments) + c.last }

  // ----- runs -----------------------------------------------------------------------------------

  /** A state inside a coefficient: `total` is settled, `section` counts its closed segments, and
      `count` what has been counted since. */
  predicate At(s: State, behind: bool, total: real, section: real, count: Quantity, meant: bool) {
    Unflagged(s) && s.seenBig == behind && s.total == total && s.section == section && s.current == count
    && s.hasNonzero == meant && (!behind ==> s.slang == {}) && (section + OrZero(count) > 0.0 ==> s.hasNumber)
  }

  function Plus(count: Quantity, items: seq<Text>): Quantity {
    if count.Is? || Counts(items) then Is(OrZero(count) + Tally(items)) else Absent
  }

  lemma PlusUnfolds(count: Quantity, items: seq<Text>)
    requires items != []
    ensures Counts(items) <==> IsNumeral(items[0]) || !WordFor(items[0]).Filler? || Counts(items[1..])
    ensures Tally(items) == Worth(items[0]) + Tally(items[1..])
  {
    hide WordOf, IsNumeral;
  }

  lemma ItemStep(text: Text, toks: seq<Tok>, ws: seq<Text>, k: nat, s: State, behind: bool, total: real, section: real,
                 count: Quantity, meant: bool, rest: seq<Text>) returns (s': State)
    requires k < |toks| == |ws| && ReadsAt(text, toks, ws, k) && At(s, behind, total, section, count, meant)
    requires Fits([ws[k]] + rest, behind, count.Is?)
    ensures Step(text, toks, k, s) == Go(s', 1)
    ensures var next := if !IsNumeral(ws[k]) && WordFor(ws[k]).Filler? then count else Is(OrZero(count) + Worth(ws[k]));
            At(s', behind, total, section, next, meant || Worth(ws[k]) != 0.0) && Fits(rest, behind, next.Is?)
  {
    hide ReadsAt, WordOf, ValueOf, IsNumeral, DigitCount, All;
    var w := ws[k];
    assert ([w] + rest)[1..] == rest;
    if IsNumeral(w) {
      NumberBegins(text, toks, ws, k, s);
      s' := Began(s, w, toks[k].end);
    } else {
      WordAt(text, toks, ws, k);
      var word := WordFor(w);
      if word.Ones? {
        var v := word.digit as real;
        s' := s.(current := Is(OrZero(s.current) + v), fromDigits := false, hasNonzero := s.hasNonzero || v != 0.0,
                 hasNumber := true, end := toks[k].end);
        OnesGoes(text, toks, k, s, v);
      } else {
        s' := Multiply(s, word, toks[k].end);
        ScaleStep(text, toks, ws, k, s);
      }
    }
  }

  lemma WordAt(text: Text, toks: seq<Tok>, ws: seq<Text>, k: nat)
    requires k < |toks| == |ws| && ReadsAt(text, toks, ws, k) && IsWord(ws[k])
    ensures toks[k].Word? && toks[k].word == WordFor(ws[k])
  {
    hide WordOf, StandsFree, ValueOf, BodyLen;
    assert In(ws[k][0], Letters);
  }

  lemma OnesGoes(text: Text, toks: seq<Tok>, k: nat, s: State, v: real)
    requires k < |toks| && toks[k].Word? && toks[k].word.Ones? && v == toks[k].word.digit as real
    requires !AfterScale(s)
    ensures Step(text, toks, k, s)
         == Go(s.(current := Is(OrZero(s.current) + v), fromDigits := false, hasNonzero := s.hasNonzero || v != 0.0,
                  hasNumber := true, end := toks[k].end),
               1)
  {
    hide TailConsumable, ClosingHundred, IsSpokenTail;
  }

  lemma {:induction false} ItemsRun(text: Text, toks: seq<Tok>, ws: seq<Text>, k: nat, s: State, items: seq<Text>,
                                    behind: bool, total: real, section: real, count: Quantity, meant: bool)
    returns (s': State)
    requires ReadsPart(text, toks, ws, k, k + |items|) && ws[k..k + |items|] == items
    requires At(s, behind, total, section, count, meant) && Fits(items, behind, count.Is?)
    ensures Run(text, toks, k, s) == Run(text, toks, k + |items|, s')
    ensures At(s', behind, total, section, Plus(count, items), meant || Tally(items) != 0.0)
    decreases |items|
  {
    hide ReadsAt, Run, Step, Fits, Worth, WordOf, IsNumeral;
    s' := s;
    if items != [] {
      var rest := items[1..];
      assert items[0] == ws[k] && items == [ws[k]] + rest && ws[k + 1..k + |items|] == rest;
      var s1 := ItemStep(text, toks, ws, k, s, behind, total, section, count, meant, rest);
      RunUnfolds(text, toks, k, s);
      var next := if !IsNumeral(ws[k]) && WordFor(ws[k]).Filler? then count else Is(OrZero(count) + Worth(ws[k]));
      s' := ItemsRun(text, toks, ws, k + 1, s1, rest, behind, total, section, next, meant || Worth(ws[k]) != 0.0);
      PlusUnfolds(count, items);
      FillerWorth(ws[k]);
    }
  }

  lemma FillerWorth(w: Text)
    ensures !IsNumeral(w) && WordFor(w).Filler? ==> Worth(w) == 0.0
  {
    hide WordOf, IsNumeral;
  }

  // ----- segments -------------------------------------------------------------------------------

  lemma TimesStep(text: Text, toks: seq<Tok>, ws: seq<Text>, k: nat, s: State, behind: bool, total: real, section: real,
                  count: Quantity, meant: bool) returns (s': State)
    requires k < |toks| == |ws| && ReadsAt(text, toks, ws, k) && At(s, behind, total, section, count, meant)
    requires IsWord(ws[k]) && (WordFor(ws[k]).Tens? || WordFor(ws[k]).Hundred?)
    ensures Step(text, toks, k, s) == Go(s', 1)
    ensures var times := if WordFor(ws[k]).Hundred? then 100.0 else 10.0;
            At(s', behind, total, section + OrOne(count) * times, Absent, true)
  {
    hide ReadsAt, WordOf;
    ScaleStep(text, toks, ws, k, s);
    s' := Multiply(s, WordFor(ws[k]), toks[k].end);
  }

  lemma SegmentRun(text: Text, toks: seq<Tok>, ws: seq<Text>, k: nat, s: State, g: Segment, behind: bool, total: real,
                   section: real, meant: bool) returns (s': State)
    requires var n := |g.items|;
             ReadsPart(text, toks, ws, k, k + n + 1) && ws[k..k + n] == g.items && ws[k + n] == g.times
    requires At(s, behind, total, section, Absent, meant) && SegmentsFit([g], behind)
    ensures Run(text, toks, k, s) == Run(text, toks, k + |g.items| + 1, s')
    ensures At(s', behind, total, section + SegmentWorth(g), Absent, true)
  {
    hide ReadsAt, Run, Step, Fits, WordOf, Counts, Tally, At;
    var n := |g.items|;
    assert [g][0] == g;
    var s1 := ItemsRun(text, toks, ws, k, s, g.items, behind, total, section, Absent, meant);
    var count := Plus(Absent, g.items);
    s' := TimesStep(text, toks, ws, k + n, s1, behind, total, section, count, meant || Tally(g.items) != 0.0);
    RunUnfolds(text, toks, k + n, s1);
  }

  lemma {:induction false} SegmentsRun(text: Text, toks: seq<Tok>, ws: seq<Text>, k: nat, s: State, gs: seq<Segment>,
                                       behind: bool, total: real, section: real, meant: bool) returns (s': State)
    requires var n := |SegmentWords(gs)|; ReadsPart(text, toks, ws, k, k + n) && ws[k..k + n] == SegmentWords(gs)
    requires At(s, behind, total, section, Absent, meant) && SegmentsFit(gs, behind)
    ensures Run(text, toks, k, s) == Run(text, toks, k + |SegmentWords(gs)|, s')
    ensures At(s', behind, total, section + SegmentsWorth(gs), Absent, meant || gs != [])
    decreases |gs|
  {
    hide ReadsAt, Run, Fits, WordOf, SegmentWorth, At;
    s' := s;
    if gs != [] {
      var g, rest := gs[0], gs[1..];
      var n, m := |g.items|, |SegmentWords(gs)|;
      assert SegmentWords(gs) == g.items + [g.times] + SegmentWords(rest);
      assert ws[k..k + n] == SegmentWords(gs)[..n] && ws[k + n] == SegmentWords(gs)[n];
      assert ws[k + n + 1..k + m] == SegmentWords(gs)[n + 1..] == SegmentWords(rest);
      assert [g][0] == gs[0] && forall x | 0 <= x < |rest| :: rest[x] == gs[x + 1];
      var s1 := SegmentRun(text, toks, ws, k, s, g, behind, total, section, meant);
      s' := SegmentsRun(text, toks, ws, k + n + 1, s1, rest, behind, total, section + SegmentWorth(g), true);
    }
  }

  predicate IsCoefficient(c: Coefficient, behind: bool) {
    SegmentsFit(c.segments, behind) && Fits(c.last, behind, false)
  }

  lemma CoefficientRun(text: Text, toks: seq<Tok>, ws: seq<Text>, k: nat, s: State, c: Coefficient, behind: bool,
                       total: real, meant: bool) returns (s': State)
    requires var n := |CoefficientWords(c)|; ReadsPart(text, toks, ws, k, k + n) && ws[k..k + n] == CoefficientWords(c)
    requires At(s, behind, total, 0.0, Absent, meant) && IsCoefficient(c, behind)
    ensures Run(text, toks, k, s) == Run(text, toks, k + |CoefficientWords(c)|, s')
    ensures At(s', behind, total, SegmentsWorth(c.segments), Plus(Absent, c.last), meant || IsMeant(c))
  {
    hide ReadsAt, Run, Fits, WordOf, SegmentsWorth, SegmentWords, Tally, Counts, At, SegmentsFit;
    var n, m := |SegmentWords(c.segments)|, |CoefficientWords(c)|;
    assert ws[k..k + n] == CoefficientWords(c)[..n] == SegmentWords(c.segments);
    assert ws[k + n..k + m] == CoefficientWords(c)[n..] == c.last;
    var s1 := SegmentsRun(text, toks, ws, k, s, c.segments, behind, total, 0.0, meant);
    s' := ItemsRun(text, toks, ws, k + n, s1, c.last, behind, total, 0.0 + SegmentsWorth(c.segments), Absent,
                   meant || c.segments != []);
  }

  /** The scale word closes the coefficient. */
  lemma ScaleCloses(text: Text, toks: seq<Tok>, ws: seq<Text>, k: nat, s: State, behind: bool, total: real,
                    c: Coefficient, meant: bool) returns (s': State)
    requires k < |toks| == |ws| && ReadsAt(text, toks, ws, k)
    requires At(s, behind, total, SegmentsWorth(c.segments), Plus(Absent, c.last), meant)
    requires IsWord(ws[k]) && WordFor(ws[k]).Scale?
    ensures Step(text, toks, k, s) == Go(s', 1)
    ensures s'.hasNumber && s'.seenBig && s'.hasNonzero == meant && Unflagged(s')
    ensures GrandTotal(s') == total + Scaled(CoefficientWorth(c), WordFor(ws[k]).magnitude)
  {
    hide ReadsAt, WordOf, Scaled, SegmentsWorth;
    ScaleStep(text, toks, ws, k, s);
    s' := Multiply(s, WordFor(ws[k]), toks[k].end);
    TallyOfNothing(c.last);
    hide Tally, Counts;
    assert SegmentsWorth(c.segments) + OrZero(Plus(Absent, c.last)) == CoefficientWorth(c);
  }

  lemma {:induction false} TallyOfNothing(items: seq<Text>)
    ensures !Counts(items) ==> Tally(items) == 0.0
  {
    hide WordOf, IsNumeral, Worth;
    if items != [] {
      TallyOfNothing(items[1..]);
      FillerWorth(items[0]);
    }
  }

  // ----- the law --------------------------------------------------------------------------------

  lemma {:induction false} ItemsAreChunks(items: seq<Text>, behind: bool, pending: bool)
    requires Fits(items, behind, pending)
    ensures AreChunks(items)
    decreases |items|
  {
    hide WordOf, BodyLen;
    if items != [] {
      ItemsAreChunks(items[1..], behind,
                     IsNumeral(items[0]) || (if WordFor(items[0]).Filler? then pending else true));
      assert forall k | 1 <= k < |items| :: items[k] == items[1..][k - 1];
    }
  }

  lemma {:induction false} SegmentsAreChunks(gs: seq<Segment>, behind: bool)
    requires SegmentsFit(gs, behind)
    ensures AreChunks(SegmentWords(gs))
    decreases |gs|
  {
    hide WordOf, IsNumeral, Fits;
    if gs != [] {
      assert forall x | 0 <= x < |gs[1..]| :: gs[1..][x] == gs[x + 1];
      SegmentsAreChunks(gs[1..], behind);
      ItemsAreChunks(gs[0].items, behind, false);
      assert IsWord(gs[0].times);
    }
  }

  lemma WordsAreChunks(gs: seq<Group>, c: Coefficient, scale: Text)
    requires AreGroups(gs) && IsCoefficient(c, gs != []) && IsWord(scale)
    ensures AreChunks(GroupWords(gs) + CoefficientWords(c) + [scale])
  {
    hide WordOf, IsNumeral, Fits, SegmentsFit, IsGroup;
    GroupsAreChunks(gs);
    SegmentsAreChunks(c.segments, gs != []);
    ItemsAreChunks(c.last, gs != [], false);
  }

  /** The run over complete groups and the coefficient behind them. */
  lemma GroupsAndCoefficient(gs: seq<Group>, c: Coefficient, scale: Text) returns (s: State)
    requires AreGroups(gs) && IsCoefficient(c, gs != []) && IsWord(scale)
    ensures var ws := GroupWords(gs) + CoefficientWords(c) + [scale];
            var text := Join(ws);
            Reads(text, Tokens(text), ws) && |Tokens(text)| == |ws|
            && RunAt(text, Tokens(text), 0) == Run(text, Tokens(text), |ws| - 1, s)
    ensures At(s, gs != [], ReadSum(gs), SegmentsWorth(c.segments), Plus(Absent, c.last), SomeCount(gs) || IsMeant(c))
  {
    hide Lex, Run, Join, IsGroup, ReadsAt, SomeCount, NounsOf, ReadSum, TailTaken, MagnitudeOf, Base, WordOf, Reads,
      IsCoefficient, IsMeant, SegmentsWorth, Plus, IsNumeral;
    var ws, k := GroupWords(gs) + CoefficientWords(c) + [scale], 2 * |gs|;
    var text := Join(ws);
    var toks := Tokens(text);
    WordsAreChunks(gs, c, scale);
    JoinReads(ws);
    ReadsAsPart(text, toks, ws);
    assert ws[0..k] == GroupWords(gs) && ws[k..k + |CoefficientWords(c)|] == CoefficientWords(c);
    NothingSummed();
    var s1 := GroupsRun(text, toks, ws, 0, Fresh(toks[0].end), gs);
    s := CoefficientRun(text, toks, ws, k, s1, c, gs != [], ReadSum(gs), SomeCount(gs));
  }

  lemma NothingSummed()
    ensures AreGroups([]) && ReadSum([]) == 0.0 && !SomeCount([])
  {}

  lemma NothingLess(gs: seq<Group>)
    requires AreGroups(gs)
    ensures ReadSum(gs) >= 0.0
  {
    hide ReadSum, IsGroup;
    NothingSummed();
    if gs != [] { SumPositive(gs); }
  }

  lemma {:induction false} SegmentsNonNegative(gs: seq<Segment>)
    ensures SegmentsWorth(gs) >= 0.0
  {
    hide Tally, Counts, WordOf;
    if gs != [] { SegmentsNonNegative(gs[1..]); }
  }

  /** A coefficient with a scale word behind it, alone or behind complete groups, is worth the sum of its
      segments: an amount over the whole text, unless nothing in it is more than zero. */
  lemma CoefficientRead(gs: seq<Group>, c: Coefficient, scale: Text)
    requires AreGroups(gs) && IsCoefficient(c, gs != []) && IsWord(scale) && WordFor(scale).Scale?
    ensures var text := Join(GroupWords(gs) + CoefficientWords(c) + [scale]);
            var v := ReadSum(gs) + Scaled(CoefficientWorth(c), WordFor(scale).magnitude);
            Amounts(text)
            == if SomeCount(gs) || IsMeant(c) then [Match(RoundHalfUp(v), text, 0, |text|)] else []
  {
    hide Lex, Run, Step, Join, IsGroup, ReadsAt, SomeCount, ReadSum, WordOf, Reads, IsCoefficient, IsMeant,
      SegmentsWorth, Tally, IsNumeral, CoefficientWords, GroupWords, Scaled, GrandTotal, RoundHalfUp, At, RunAt;
    var ws := GroupWords(gs) + CoefficientWords(c) + [scale];
    var text, k := Join(ws), |ws| - 1;
    var toks := Tokens(text);
    var s := GroupsAndCoefficient(gs, c, scale);
    ReadsHere(text, toks, ws, k);
    var s' := ScaleCloses(text, toks, ws, k, s, gs != [], ReadSum(gs), c, SomeCount(gs) || IsMeant(c));
    RunUnfolds(text, toks, k, s);
    RunUnfolds(text, toks, k + 1, s');
    NothingLess(gs);
    SegmentsNonNegative(c.segments);
    ScaledLarge(CoefficientWorth(c), WordFor(scale).magnitude);
    if SomeCount(gs) || IsMeant(c) { WholeText(text, toks, ws, s'); } else { AllZero(text, toks, s'); }
  }

  // ----- "nửa" ----------------------------------------------------------------------------------

  lemma HalfCounts(h: Text)
    requires IsWord(h) && WordFor(h).Half?
    ensures Worth(h) == 0.5 && !IsNumeral(h)
  {
    hide WordOf, BodyLen;
    assert In(h[0], Letters);
  }

  /** What stands before "nửa". */
  function Before(n: Option<Text>): seq<Text> { if n.Some? then [n.value] else [] }

  lemma HalfCoefficient(n: Option<Text>, h: Text, behind: bool) returns (c: Coefficient)
    requires IsWord(h) && WordFor(h).Half? && (n.Some? ==> IsNumeral(n.value) && !behind)
    ensures IsCoefficient(c, behind) && CoefficientWords(c) == Before(n) + [h] && IsMeant(c)
    ensures CoefficientWorth(c) == (if n.Some? then ValueOf(n.value) else 0.0) + 0.5
  {
    hide WordOf, IsNumeral, ValueOf, CoefficientWords, Worth;
    HalfCounts(h);
    HalfItems(n, h, behind);
    c := Coefficient([], Before(n) + [h]);
    NoSegments(c);
  }

  lemma HalfItems(n: Option<Text>, h: Text, behind: bool)
    requires IsWord(h) && WordFor(h).Half? && !IsNumeral(h) && Worth(h) == 0.5
    requires n.Some? ==> IsNumeral(n.value) && !behind
    ensures Fits(Before(n) + [h], behind, false)
    ensures Tally(Before(n) + [h]) == (if n.Some? then ValueOf(n.value) else 0.0) + 0.5
  {
    hide WordOf, IsNumeral, ValueOf;
    var items := Before(n) + [h];
    assert [h][1..] == [] && Tally([]) == 0.0 && Tally([h]) == Worth(h) + Tally([]);
    assert Fits([h], behind, true) && Fits([h], behind, false);
    if n.Some? {
      assert items[1..] == [h] && items[0] == n.value && Worth(n.value) == ValueOf(n.value);
      assert Tally(items) == Worth(items[0]) + Tally(items[1..]);
    } else {
      assert items == [h];
    }
  }

  lemma NoSegments(c: Coefficient)
    requires c.segments == []
    ensures CoefficientWords(c) == c.last && CoefficientWorth(c) == Tally(c.last)
  {
    hide Tally;
    assert [] + c.last == c.last;
  }

  /** "nửa" adds one half to the number of the scale word behind it: "nửa triệu" is 500 000, "5 nửa triệu"
      5 500 000; and behind complete groups, "2 triệu nửa nghìn" is 2 000 500. */
  lemma HalfOfScale(gs: seq<Group>, n: Option<Text>, h: Text, scale: Text)
    requires AreGroups(gs) && IsWord(h) && WordFor(h).Half? && IsWord(scale) && WordFor(scale).Scale?
    requires n.Some? ==> IsNumeral(n.value) && gs == []
    ensures var text := Join(GroupWords(gs) + (Before(n) + [h]) + [scale]);
            var v := (if n.Some? then ValueOf(n.value) else 0.0) + 0.5;
            Amounts(text)
            == [Match(RoundHalfUp(ReadSum(gs) + v * Base(WordFor(scale).magnitude)), text, 0, |text|)]
  {
    hide WordOf, IsNumeral, ValueOf, Amounts, Join, GroupWords, IsCoefficient, CoefficientWords, IsMeant, Base,
      SomeCount, RoundHalfUp, ReadSum, IsGroup, Tally, SegmentsWorth;
    var c := HalfCoefficient(n, h, gs != []);
    CoefficientRead(gs, c, scale);
  }

  /** Half of each scale. */
  lemma HalfAlone(h: Text, scale: Text)
    requires IsWord(h) && WordFor(h).Half? && IsWord(scale) && WordFor(scale).Scale?
    ensures var text := Join([h, scale]);
            Amounts(text) == [Match(Unit(WordFor(scale).magnitude) / 2, text, 0, |text|)]
  {
    hide WordOf, IsNumeral, Amounts, Join, Base, RoundHalfUp, Unit;
    HalfOfScale([], None, h, scale);
    assert GroupWords([]) + (Before(None) + [h]) + [scale] == [h, scale];
    NothingSummed();
    HalfUnit(WordFor(scale).magnitude);
  }

  lemma HalfUnit(m: Magnitude)
    ensures RoundHalfUp(0.0 + (0.0 + 0.5) * Base(m)) == Unit(m) / 2
  {
    match m {
      case Thousand => HalfWhole(500, 1000.0);
      case Myriad => HalfWhole(5000, 10000.0);
      case Million => HalfWhole(500000, 1000000.0);
      case Billion => HalfWhole(500000000, 1000000000.0);
    }
  }

  lemma HalfWhole(n: int, base: real)
    requires base == (2 * n) as real
    ensures RoundHalfUp(0.0 + (0.0 + 0.5) * base) == n
  {
    RoundWhole(n);
    assert (0.0 + 0.5) * base == n as real;
  }
}
