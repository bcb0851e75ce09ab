/** Amounts spoken in words: "một trăm hai mươi lăm triệu ba trăm nghìn".

    The parser hears every canonical spelling as one amount over the whole text. What it hears is
    the sum of the groups, except for a coefficient of the form "x trăm …" behind an earlier scale:
    there "x trăm" may be taken as hundreds of that scale. `HeardSum` says exactly what is heard, and
    `HeardRight` exactly when it is what was meant. */
module Spoken {
  import opened Text
  import opened Vocabulary
  import opened Lexer
  import opened Machine
  import opened OpenTail
  import opened Words
  import opened DigitGroups
  import opened Tails
  import opened SpokenTails

  // ----- spelling -------------------------------------------------------------------------------

  function One(d: nat): Word
    requires d < 10
  {
    Ones(d, false)
  }

  /** The unit behind a ten: "mốt" behind "mươi", "lăm" for five, nothing for zero. */
  function UnitWords(tens: nat, unit: nat): seq<Word>
    requires unit < 10
  {
    if unit == 0 then [] else if unit == 5 || (unit == 1 && tens > 1) then [Ones(unit, true)] else [One(unit)]
  }

  function BelowHundred(c: nat): (ws: seq<Word>)
    requires 0 < c < 100
    ensures ws != []
  {
    if c < 10 then [One(c)]
    else (if c < 20 then [Tens(true)] else [One(c / 10), Tens(true)]) + UnitWords(c / 10, c % 10)
  }

  /** The canonical spelling of a coefficient. */
  function Spell(c: nat): (ws: seq<Word>)
    requires 0 < c < 1000
    ensures ws != []
  {
    if c < 100 then BelowHundred(c)
    else [One(c / 100), Hundred] + RestWords(c % 100)
  }

  function RestWords(r: nat): seq<Word>
    requires r < 100
  {
    if r == 0 then [] else if r < 10 then [Filler, One(r)] else BelowHundred(r)
  }

  datatype SpokenGroup = SpokenGroup(count: nat, scale: Word)

  predicate IsSpoken(g: SpokenGroup) { 0 < g.count < 1000 && g.scale.Scale? }

  predicate AreSpoken(gs: seq<SpokenGroup>) { forall k | 0 <= k < |gs| :: IsSpoken(gs[k]) }

  function Spelling(gs: seq<SpokenGroup>): seq<Word>
    requires AreSpoken(gs)
  {
    if gs == [] then [] else Spell(gs[0].count) + [gs[0].scale] + Spelling(gs[1..])
  }

  /** What the groups mean. */
  function Meant(gs: seq<SpokenGroup>): nat
    requires AreSpoken(gs)
  {
    if gs == [] then 0 else gs[0].count * Unit(gs[0].scale.magnitude) + Meant(gs[1..])
  }

  // ----- hearing --------------------------------------------------------------------------------

  /** What a coefficient finds before it: the last scale, and the slang scales of the amount. */
  datatype Context = Context(last: Option<Magnitude>, slang: set<Noun>)

  function Behind(ctx: Context, g: SpokenGroup): Context
    requires IsSpoken(g)
  {
    Context(Some(g.scale.magnitude), if g.scale.noun.Some? then ctx.slang + {g.scale.noun.value} else ctx.slang)
  }

  /** "x trăm" in the spelling of `c` is not followed by a word that scales: `c` is neither a round
      hundred nor goes on with "mười". */
  predicate Snags(c: nat) { c >= 100 && c % 100 != 0 && !(10 <= c % 100 < 20) }

  /** The hundreds of `c` are taken as hundreds of the last scale: always for "năm trăm", else only
      behind a scale of a million or more without slang. */
  predicate Misheard(ctx: Context, c: nat) {
    ctx.last.Some? && Snags(c) && (c / 100 == 5 || (Unit(ctx.last.value) >= 1000000 && ctx.slang == {}))
  }

  function Heard(ctx: Context, c: nat): nat {
    if Misheard(ctx, c) then Tenths(c / 100, ctx.last.value) + c % 100 else c
  }

  function HeardSum(ctx: Context, gs: seq<SpokenGroup>): nat
    requires AreSpoken(gs)
    decreases |gs|
  {
    if gs == [] then 0
    else Heard(ctx, gs[0].count) * Unit(gs[0].scale.magnitude) + HeardSum(Behind(ctx, gs[0]), gs[1..])
  }

  const START: Context := Context(None, {})

  /** A coefficient is heard as meant: it is not misheard, or the last scale is a thousand, whose
      hundreds are plain hundreds. */
  predicate Clear(ctx: Context, c: nat) { Misheard(ctx, c) ==> ctx.last == Some(Thousand) }

  predicate AllClear(ctx: Context, gs: seq<SpokenGroup>)
    requires AreSpoken(gs)
    decreases |gs|
  {
    gs == [] || (Clear(ctx, gs[0].count) && AllClear(Behind(ctx, gs[0]), gs[1..]))
  }

  lemma TenthsMore(h: nat, m: Magnitude)
    requires h > 0
    ensures Tenths(h, m) >= 100 * h
    ensures Tenths(h, m) == 100 * h <==> m == Thousand
  {
    match m {
      case Thousand =>
      case Myriad =>
      case Million =>
      case Billion =>
    }
  }

  lemma HeardMore(ctx: Context, c: nat)
    ensures Heard(ctx, c) >= c
    ensures Heard(ctx, c) == c <==> Clear(ctx, c)
  {
    hide Tenths, Unit;
    if Misheard(ctx, c) { TenthsMore(c / 100, ctx.last.value); }
  }

  lemma MoreUnits(a: nat, b: nat, m: Magnitude)
    requires a >= b
    ensures a * Unit(m) >= b * Unit(m)
    ensures a * Unit(m) == b * Unit(m) <==> a == b
  {
    match m {
      case Thousand =>
      case Myriad =>
      case Million =>
      case Billion =>
    }
  }

  /** The amount heard is never less than the amount meant, and is the amount meant exactly when
      every coefficient is clear. */
  lemma {:induction false} HeardRight(ctx: Context, gs: seq<SpokenGroup>)
    requires AreSpoken(gs)
    ensures HeardSum(ctx, gs) >= Meant(gs)
    ensures HeardSum(ctx, gs) == Meant(gs) <==> AllClear(ctx, gs)
    decreases |gs|
  {
    hide Heard, Clear, Unit;
    if gs != [] {
      HeardMore(ctx, gs[0].count);
      MoreUnits(Heard(ctx, gs[0].count), gs[0].count, gs[0].scale.magnitude);
      HeardRight(Behind(ctx, gs[0]), gs[1..]);
    }
  }

  // ----- runs over spoken words -----------------------------------------------------------------

  /** The tokens from `k` on are these words. */
  predicate SpeaksAt(toks: seq<Tok>, k: nat, ws: seq<Word>) {
    k + |ws| <= |toks| && forall y | k <= y < k + |ws| :: toks[y].Word? && toks[y].word == ws[y - k]
  }

  /** A big scale word stands at `k`. */
  predicate ScaleAt(toks: seq<Tok>, k: nat) { k < |toks| && toks[k].Word? && toks[k].word.Scale? }

  function Section(s: State): real { s.section + OrZero(s.current) }

  /** From `s` to `s'` the section has grown by `n`, and nothing else that counts has changed. */
  predicate Adds(s: State, s': State, n: nat) {
    Section(s') == Section(s) + n as real
    && s'.total == s.total && s'.lastScale == s.lastScale && s'.seenBig == s.seenBig && s'.slang == s.slang
    && Unflagged(s') && s'.hasNumber && s'.hasNonzero
  }

  /** A numeral in front of a word that scales it is added to the section. */
  lemma OneRuns(text: Text, toks: seq<Tok>, k: nat, s: State, w: Word) returns (s': State)
    requires SpeaksAt(toks, k, [w]) && w.Ones? && w.digit > 0 && s.current.Absent? && Unflagged(s)
    requires IsScaleTok(Peek(toks, k + 1))
    requires AfterScale(s) && ClosingHundred(toks, k + 1) ==> !(IsSpokenTail(w) && TakesDigits(s)) && !IsNam(w)
    ensures Run(text, toks, k, s) == Run(text, toks, k + 1, s')
    ensures Adds(s, s', w.digit) && s'.current == Is(w.digit as real) && s'.section == s.section
  {
    hide Run, HundredsOf, ClosingHundred;
    assert toks[k].word == w;
    RunUnfolds(text, toks, k, s);
    s' := Step(text, toks, k, s).state;
  }

  /** A ten or a hundred multiplies the numeral before it, or stands for itself. */
  lemma MultiplierRuns(text: Text, toks: seq<Tok>, k: nat, s: State, w: Word, x: nat) returns (s': State)
    requires SpeaksAt(toks, k, [w]) && (w.Tens? || w.Hundred?) && Unflagged(s)
    requires OrOne(s.current) == x as real
    ensures Run(text, toks, k, s) == Run(text, toks, k + 1, s')
    ensures s'.current.Absent? && s'.section == s.section + (x * if w.Tens? then 10 else 100) as real
    ensures s'.total == s.total && s'.lastScale == s.lastScale && s'.seenBig == s.seenBig && s'.slang == s.slang
    ensures Unflagged(s') && s'.hasNumber && s'.hasNonzero
  {
    hide Run;
    assert toks[k].word == w;
    RunUnfolds(text, toks, k, s);
    s' := Step(text, toks, k, s).state;
  }

  lemma SpeaksSplit(toks: seq<Tok>, k: nat, a: seq<Word>, b: seq<Word>)
    requires SpeaksAt(toks, k, a + b)
    ensures SpeaksAt(toks, k, a) && SpeaksAt(toks, k + |a|, b)
  {
    assert forall x | 0 <= x < |a| :: (a + b)[x] == a[x];
    assert forall x | 0 <= x < |b| :: (a + b)[|a| + x] == b[x];
    forall y | k + |a| <= y < k + |a| + |b| ensures toks[y].Word? && toks[y].word == b[y - k - |a|] {
      assert toks[y].word == (a + b)[y - k];
    }
  }

  lemma NextScale(toks: seq<Tok>, k: nat)
    requires ScaleAt(toks, k)
    ensures IsScaleTok(Peek(toks, k)) && !ClosingHundred(toks, k)
  {}

  lemma UnitRuns(text: Text, toks: seq<Tok>, k: nat, s: State, tens: nat, unit: nat) returns (s': State)
    requires unit < 10 && SpeaksAt(toks, k, UnitWords(tens, unit)) && ScaleAt(toks, k + |UnitWords(tens, unit)|)
    requires s.current.Absent? && Unflagged(s) && s.hasNumber && s.hasNonzero
    ensures Run(text, toks, k, s) == Run(text, toks, k + |UnitWords(tens, unit)|, s') && Adds(s, s', unit)
  {
    hide Run, SpeaksAt;
    s' := s;
    if unit > 0 {
      NextScale(toks, k + 1);
      s' := OneRuns(text, toks, k, s, UnitWords(tens, unit)[0]);
    }
  }

  lemma TensRuns(text: Text, toks: seq<Tok>, k: nat, s: State, tens: nat) returns (s': State)
    requires 0 < tens < 10 && s.current.Absent? && Unflagged(s)
    requires SpeaksAt(toks, k, if tens == 1 then [Tens(true)] else [One(tens), Tens(true)])
    ensures Run(text, toks, k, s) == Run(text, toks, k + if tens == 1 then 1 else 2, s')
    ensures Adds(s, s', 10 * tens) && s'.current.Absent?
  {
    hide Run;
    if tens == 1 {
      s' := MultiplierRuns(text, toks, k, s, Tens(true), 1);
    } else {
      assert toks[k + 1].word == Tens(true);
      var s1 := OneRuns(text, toks, k, s, One(tens));
      s' := MultiplierRuns(text, toks, k + 1, s1, Tens(true), tens);
    }
  }

  lemma BelowHundredRuns(text: Text, toks: seq<Tok>, k: nat, s: State, c: nat) returns (s': State)
    requires 0 < c < 100 && SpeaksAt(toks, k, BelowHundred(c)) && ScaleAt(toks, k + |BelowHundred(c)|)
    requires s.current.Absent? && Unflagged(s)
    ensures Run(text, toks, k, s) == Run(text, toks, k + |BelowHundred(c)|, s') && Adds(s, s', c)
  {
    hide Run, SpeaksAt, UnitWords;
    if c < 10 {
      NextScale(toks, k + 1);
      s' := OneRuns(text, toks, k, s, One(c));
    } else {
      var a := if c < 20 then [Tens(true)] else [One(c / 10), Tens(true)];
      SpeaksSplit(toks, k, a, UnitWords(c / 10, c % 10));
      var s1 := TensRuns(text, toks, k, s, c / 10);
      s' := UnitRuns(text, toks, k + |a|, s1, c / 10, c % 10);
    }
  }

  // ----- hundreds -------------------------------------------------------------------------------

  /** The context of a state between groups. */
  predicate InContext(s: State, ctx: Context) {
    Ready(s) && s.slang == ctx.slang && (s.seenBig <==> ctx.last.Some?)
    && (ctx.last.Some? ==> s.lastScale == Is(Base(ctx.last.value)))
  }

  lemma MishearingState(s: State, ctx: Context, c: nat)
    requires InContext(s, ctx) && 100 <= c < 1000
    ensures Misheard(ctx, c)
            <==> s.seenBig && Snags(c)
                 && ((IsSpokenTail(One(c / 100)) && TakesDigits(s)) || IsNam(One(c / 100)))
  {
    if ctx.last.Some? { BigUnit(ctx.last.value); }
    hide Base, Unit;
  }

  /** Behind "x trăm" the canonical spelling shows whether the hundred closes. */
  lemma HundredClosing(toks: seq<Tok>, k: nat, c: nat)
    requires 100 <= c < 1000 && SpeaksAt(toks, k, Spell(c)) && ScaleAt(toks, k + |Spell(c)|)
    ensures IsHundredTok(Peek(toks, k + 1)) && IsScaleTok(Peek(toks, k + 1))
    ensures ClosingHundred(toks, k + 1) <==> Snags(c)
    ensures SpeaksAt(toks, k, [One(c / 100)]) && SpeaksAt(toks, k + 1, [Hundred])
    ensures SpeaksAt(toks, k + 2, RestWords(c % 100)) && ScaleAt(toks, k + 2 + |RestWords(c % 100)|)
  {
    var r := c % 100;
    SpeaksSplit(toks, k, [One(c / 100), Hundred], RestWords(r));
    assert toks[k].word == One(c / 100) && toks[k + 1].word == Hundred;
    assert r > 0 ==> toks[k + 2].word == RestWords(r)[0];
    hide SpeaksAt;
    if r >= 20 { assert RestWords(r)[0] == One(r / 10); }
  }

  lemma RestRuns(text: Text, toks: seq<Tok>, k: nat, s: State, r: nat) returns (s': State)
    requires r < 100 && SpeaksAt(toks, k, RestWords(r)) && ScaleAt(toks, k + |RestWords(r)|)
    requires s.current.Absent? && Unflagged(s) && s.hasNumber && s.hasNonzero
    ensures Run(text, toks, k, s) == Run(text, toks, k + |RestWords(r)|, s') && Adds(s, s', r)
  {
    hide Run, BelowHundred;
    if r == 0 {
      s' := s;
    } else if r < 10 {
      SpeaksSplit(toks, k, [Filler], [One(r)]);
      assert toks[k].word == Filler;
      var s1 := s.(end := toks[k].end);
      RunUnfolds(text, toks, k, s);
      assert Step(text, toks, k, s) == Go(s1, 1);
      NextScale(toks, k + 2);
      s' := OneRuns(text, toks, k + 1, s1, One(r));
    } else {
      s' := BelowHundredRuns(text, toks, k, s, r);
    }
  }

  /** The state behind "x trăm", taken or not. */
  lemma HundredsRun(text: Text, toks: seq<Tok>, k: nat, s: State, ctx: Context, c: nat) returns (s': State)
    requires 100 <= c < 1000 && SpeaksAt(toks, k, Spell(c)) && ScaleAt(toks, k + |Spell(c)|) && InContext(s, ctx)
    ensures Run(text, toks, k, s) == Run(text, toks, k + 2, s')
    ensures Adds(s, s', if Misheard(ctx, c) then Tenths(c / 100, ctx.last.value) else 100 * (c / 100))
    ensures s'.current.Absent?
  {
    hide Run, ClosingHundred, SpeaksAt, ScaleAt, Spell, Base, HundredsOf, Tenths, Unit, RestWords, Snags, Misheard;
    HundredClosing(toks, k, c);
    MishearingState(s, ctx, c);
    if Misheard(ctx, c) {
      s' := TakenRun(text, toks, k, s, One(c / 100));
      HundredsUnit(c / 100, ctx.last.value);
    } else {
      var s1 := OneRuns(text, toks, k, s, One(c / 100));
      s' := MultiplierRuns(text, toks, k + 1, s1, Hundred, c / 100);
    }
  }

  lemma TakenRun(text: Text, toks: seq<Tok>, k: nat, s: State, w: Word) returns (s': State)
    requires SpeaksAt(toks, k, [w]) && w.Ones? && Ready(s) && s.seenBig
    requires (IsSpokenTail(w) && TakesDigits(s)) || IsNam(w)
    requires IsHundredTok(Peek(toks, k + 1)) && ClosingHundred(toks, k + 1)
    ensures Run(text, toks, k, s) == Run(text, toks, k + 2, s')
    ensures s'.section == HundredsOf(w.digit as real, s.lastScale.Or(0.0)) && s'.current.Absent?
    ensures s'.total == s.total && s'.lastScale == s.lastScale && s'.seenBig && s'.slang == s.slang
    ensures Unflagged(s') && s'.hasNumber && s'.hasNonzero
  {
    hide Run, HundredsOf, ClosingHundred;
    assert toks[k].word == w;
    RunUnfolds(text, toks, k, s);
    s' := Step(text, toks, k, s).state;
  }

  // ----- groups and whole texts -----------------------------------------------------------------

  lemma AddsThen(s: State, s1: State, s2: State, a: nat, b: nat)
    requires Adds(s, s1, a) && Adds(s1, s2, b)
    ensures Adds(s, s2, a + b)
  {}

  lemma CoefficientRuns(text: Text, toks: seq<Tok>, k: nat, s: State, ctx: Context, c: nat) returns (s': State)
    requires 0 < c < 1000 && SpeaksAt(toks, k, Spell(c)) && ScaleAt(toks, k + |Spell(c)|) && InContext(s, ctx)
    ensures Run(text, toks, k, s) == Run(text, toks, k + |Spell(c)|, s') && Adds(s, s', Heard(ctx, c))
  {
    hide Run, SpeaksAt, ScaleAt, Adds, Tenths, BelowHundred, RestWords, Snags, Unit;
    if c < 100 {
      assert !Misheard(ctx, c) by { SmallIsClear(ctx, c); }
      s' := BelowHundredRuns(text, toks, k, s, c);
    } else {
      HundredClosing(toks, k, c);
      var s1 := HundredsRun(text, toks, k, s, ctx, c);
      var h := if Misheard(ctx, c) then Tenths(c / 100, ctx.last.value) else 100 * (c / 100);
      AddsReady(s, s1, h);
      s' := RestRuns(text, toks, k + 2, s1, c % 100);
      AddsThen(s, s1, s', h, c % 100);
    }
  }

  lemma SmallIsClear(ctx: Context, c: nat)
    requires c < 100
    ensures !Misheard(ctx, c)
  {}

  lemma AddsReady(s: State, s': State, n: nat)
    requires Adds(s, s', n)
    ensures Unflagged(s') && s'.hasNumber && s'.hasNonzero
  {}

  lemma HeardPositive(ctx: Context, c: nat)
    requires c > 0
    ensures Heard(ctx, c) > 0
  {
    HeardMore(ctx, c);
  }

  /** One spoken group adds what is heard of its coefficient, in its unit. */
  lemma SpokenGroupRuns(text: Text, toks: seq<Tok>, k: nat, s: State, ctx: Context, g: SpokenGroup) returns (s': State)
    requires IsSpoken(g) && SpeaksAt(toks, k, Spell(g.count) + [g.scale]) && InContext(s, ctx)
    ensures Run(text, toks, k, s) == Run(text, toks, k + |Spell(g.count)| + 1, s')
    ensures InContext(s', Behind(ctx, g)) && s'.hasNumber && s'.hasNonzero
    ensures s'.total == s.total + (Heard(ctx, g.count) * Unit(g.scale.magnitude)) as real
  {
    hide Run, Spell, Heard, Base, Scaled, Unit;
    var n := Heard(ctx, g.count);
    SpeaksSplit(toks, k, Spell(g.count), [g.scale]);
    var at := k + |Spell(g.count)|;
    assert toks[at].word == g.scale;
    var s1 := CoefficientRuns(text, toks, k, s, ctx, g.count);
    RunUnfolds(text, toks, at, s1);
    s' := Multiply(s1, g.scale, toks[at].end);
    HeardPositive(ctx, g.count);
    UnitOf(n, g.scale.magnitude);
  }

  lemma {:induction false} SpellingRuns(
    text: Text, toks: seq<Tok>, k: nat, s: State, ctx: Context, gs: seq<SpokenGroup>)
    returns (s': State)
    requires AreSpoken(gs) && SpeaksAt(toks, k, Spelling(gs)) && InContext(s, ctx)
    ensures Run(text, toks, k, s) == Run(text, toks, k + |Spelling(gs)|, s')
    ensures Ready(s') && s'.total == s.total + HeardSum(ctx, gs) as real
    ensures gs != [] ==> s'.seenBig && s'.hasNumber && s'.hasNonzero
    ensures gs == [] ==> s' == s
    decreases |gs|
  {
    hide Run, SpeaksAt, Spell, Heard, Unit, Base;
    s' := s;
    if gs != [] {
      var ctx1, a, b := Behind(ctx, gs[0]), Spell(gs[0].count) + [gs[0].scale], Spelling(gs[1..]);
      assert Spelling(gs) == a + b;
      SpeaksSplit(toks, k, a, b);
      var s1 := SpokenGroupRuns(text, toks, k, s, ctx, gs[0]);
      s' := SpellingRuns(text, toks, k + |a|, s1, ctx1, gs[1..]);
    }
  }

  /** The written words `ws` are these words of the vocabulary, in any spelling and case. */
  predicate Says(ws: seq<Text>, spoken: seq<Word>) {
    |ws| == |spoken| && forall k | 0 <= k < |ws| :: IsWord(ws[k]) && WordFor(ws[k]) == spoken[k]
  }

  lemma SaysSpeaks(text: Text, toks: seq<Tok>, ws: seq<Text>, spoken: seq<Word>)
    requires Reads(text, toks, ws) && Says(ws, spoken)
    ensures SpeaksAt(toks, 0, spoken) && |toks| == |spoken|
  {
    hide WordOf, StandsFree;
    forall y | 0 <= y < |spoken| ensures toks[y].Word? && toks[y].word == spoken[y] {
      assert ReadsAt(text, toks, ws, y) && In(ws[y][0], Letters);
    }
  }

  lemma {:induction false} HeardSumPositive(ctx: Context, gs: seq<SpokenGroup>)
    requires AreSpoken(gs) && gs != []
    ensures HeardSum(ctx, gs) > 0
  {
    hide Heard;
    HeardPositive(ctx, gs[0].count);
  }

  /** Spoken round trip: any list of groups, spelled canonically and separated by spaces, is one
      amount over the whole text, and its value is what is heard. */
  lemma SpokenRoundTrip(gs: seq<SpokenGroup>, ws: seq<Text>)
    requires gs != [] && AreSpoken(gs) && Says(ws, Spelling(gs))
    ensures ws != [] && Amounts(Join(ws)) == [Match(HeardSum(START, gs), Join(ws), 0, |Join(ws)|)]
  {
    hide Lex, Run, Reads, Join, Amounts, WordOf, Spelling, HeardSum, SpeaksAt;
    assert ws != [] by { SpellingNonempty(gs); }
    assert AreChunks(ws);
    JoinReads(ws);
    var text := Join(ws);
    var toks := Tokens(text);
    SaysSpeaks(text, toks, ws, Spelling(gs));
    var f := Fresh(toks[0].end);
    var s := SpellingRuns(text, toks, 0, f, START, gs);
    RunUnfolds(text, toks, |toks|, s);
    HeardSumPositive(START, gs);
    AmountIs(text, toks, ws, s, HeardSum(START, gs));
  }

  lemma SpellingNonempty(gs: seq<SpokenGroup>)
    requires gs != [] && AreSpoken(gs)
    ensures Spelling(gs) != []
  {
    hide Spell;
  }

  /** The parser gets a spoken amount right exactly when no coefficient is misheard; otherwise it
      emits too much. */
  lemma SpokenAmountRight(gs: seq<SpokenGroup>, ws: seq<Text>)
    requires gs != [] && AreSpoken(gs) && Says(ws, Spelling(gs))
    ensures ws != [] && |Amounts(Join(ws))| == 1
    ensures Amounts(Join(ws))[0].value >= Meant(gs)
    ensures Amounts(Join(ws))[0].value == Meant(gs) <==> AllClear(START, gs)
  {
    hide Amounts, Join, WordOf, Spelling, HeardSum, Meant, AllClear;
    SpokenRoundTrip(gs, ws);
    HeardRight(START, gs);
  }
}
