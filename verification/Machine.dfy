/** The accumulator machine of `find_amounts`: one step per token, runs, verdicts and the scan.

    `State` holds the local variables of one run.  `Step` is the body of the inner loop, `Run` the
    inner loop, `Judge` the verdict on a finished run, and `Scan` the outer loop. */
module Machine {
  import opened Text
  import opened Vocabulary
  import opened Lexer

  datatype State = State(
    total: real,
    section: real,
    current: Quantity,
    fromDigits: bool,
    lastScale: Quantity,
    seenBig: bool,
    hasNumber: bool,
    slang: set<Noun>,
    hasNonzero: bool,
    ambiguousTail: bool,
    suspicious: bool,
    digits: nat,
    end: nat)

  /** What one turn of the inner loop does: leave the loop, or consume `width` tokens. */
  datatype Action = Stop(state: State) | Go(state: State, width: nat)

  datatype Match = Match(value: int, raw: Text, start: nat, end: nat)

  function Fresh(end: nat): State {
    State(0.0, 0.0, Absent, false, Absent, false, false, {}, false, false, false, 0, end)
  }

  // ----- looking at neighbouring tokens ---------------------------------------------------------

  function Peek(toks: seq<Tok>, j: nat): Option<Tok> { if j < |toks| then Some(toks[j]) else None }

  predicate IsHundredTok(t: Option<Tok>) { t.Some? && t.value.Word? && t.value.word.Hundred? }

  predicate IsScaleTok(t: Option<Tok>) { t.Some? && t.value.Word? && IsScaleWord(t.value.word) }

  /** Nothing, or a token that is neither number nor word: the amount may end here. */
  predicate IsEdge(t: Option<Tok>) { t.None? || t.value.Other? }

  /** "trăm" at `j`, itself not multiplied by a further scale word. */
  predicate ClosingHundred(toks: seq<Tok>, j: nat) {
    IsHundredTok(Peek(toks, j)) && !IsScaleTok(Peek(toks, j + 1))
  }

  /** The tail of a scale shorthand ends the text or is followed by a closing "trăm". */
  predicate TailConsumable(toks: seq<Tok>, j: nat) {
    Peek(toks, j).None? || ClosingHundred(toks, j)
  }

  /** `Decimal` zero for an absent `current`. */
  function OrZero(c: Quantity): real { c.Or(0.0) }

  function OrOne(c: Quantity): real { c.Or(1.0) }

  /** `digit` hundreds of the unit below `scale`: five hundreds of a million are 500 000. */
  function HundredsOf(digit: real, scale: real): real { digit * (scale / 10.0) }

  /** A section multiplied by its scale; an empty section counts as one. */
  function Scaled(section: real, m: Magnitude): real { (if section != 0.0 then section else 1.0) * Base(m) }

  // ----- one step -------------------------------------------------------------------------------

  predicate AfterScale(s: State) { s.seenBig && s.current.Absent? }

  predicate BigEnough(s: State) { s.lastScale.Is? && s.lastScale.value >= 1000000.0 }

  /** Take `digit` as the hundreds of the last scale: "2 triệu 5", "một triệu hai trăm". */
  function TakeHundreds(toks: seq<Tok>, j: nat, s: State, digit: real): Action
    requires j < |toks|
  {
    var nxt := Peek(toks, j + 1);
    Go(s.(section := s.section + HundredsOf(digit, s.lastScale.Or(0.0)),
          hasNonzero := true,
          hasNumber := true,
          end := if IsHundredTok(nxt) then nxt.value.end else toks[j].end),
       if IsHundredTok(nxt) then 2 else 1)
  }

  predicate DigitShorthand(toks: seq<Tok>, j: nat, s: State)
    requires j < |toks| && toks[j].Num?
  {
    var t := toks[j];
    AfterScale(s) && |t.text| == 1 && All(t.text, Digits) && t.value > 0.0
    && BigEnough(s) && s.slang == {} && !s.ambiguousTail && TailConsumable(toks, j + 1)
  }

  predicate SpokenShorthand(toks: seq<Tok>, j: nat, s: State)
    requires j < |toks| && toks[j].Word? && toks[j].word.Ones?
  {
    AfterScale(s) && IsSpokenTail(toks[j].word)
    && BigEnough(s) && s.slang == {} && TailConsumable(toks, j + 1)
  }

  predicate NamShorthand(toks: seq<Tok>, j: nat, s: State)
    requires j < |toks| && toks[j].Word? && toks[j].word.Ones?
  {
    AfterScale(s) && IsNam(toks[j].word) && ClosingHundred(toks, j + 1)
  }

  /** A digit group joins a digit-only `current`: "1 500 000". */
  predicate JoinsGroup(s: State, t: Tok)
    requires t.Num? && s.current.Is?
  {
    s.fromDigits && s.current.value == s.current.value.Floor as real
    && |t.text| == 3 && All(t.text, Digits)
  }

  /** A number word written directly against the digits before it: "2024năm". */
  predicate GluedWord(t: Tok, nxt: Option<Tok>) {
    nxt.Some? && nxt.value.Word? && nxt.value.start == t.end && JoinsDigits(nxt.value.word)
  }

  function Quit(s: State, nxt: Option<Tok>): Action { Stop(s.(ambiguousTail := IsEdge(nxt))) }

  /** What a number token turns out to be: a broken shorthand ("2tr50"), the hundreds of the last
      scale, a number that does not belong to the amount, the start of a coefficient, or one more
      group of a space-separated number. */
  datatype Reading = Broken | Hundreds | Loose | First | NextGroup

  function ReadingOf(text: Text, toks: seq<Tok>, j: nat, s: State): (r: Reading)
    requires j < |toks| && toks[j].Num?
    ensures r.Hundreds? ==> DigitShorthand(toks, j, s)
    ensures r.NextGroup? ==> s.current.Is? && JoinsGroup(s, toks[j])
    ensures r.First? ==> s.current.Absent?
  {
    if ShorthandAhead(From(text, toks[j].end)) then Broken
    else if DigitShorthand(toks, j, s) then Hundreds
    else if AfterScale(s) && !IsScaleTok(Peek(toks, j + 1)) then Loose
    else if s.current.Absent? then First
    else if JoinsGroup(s, toks[j]) then NextGroup
    else Loose
  }

  function StepNum(text: Text, toks: seq<Tok>, j: nat, s: State): Action
    requires j < |toks| && toks[j].Num?
  {
    var t := toks[j];
    var nxt := Peek(toks, j + 1);
    match ReadingOf(text, toks, j, s)
    case Broken => Stop(s.(suspicious := true))
    case Hundreds => TakeHundreds(toks, j, s, t.value)
    case Loose => Quit(s, nxt)
    case First =>
      Count(t, nxt, s.(current := Is(t.value), fromDigits := t.text != [] && All(t.text, Digits)))
    case NextGroup => Count(t, nxt, s.(current := Is(s.current.value * 1000.0 + t.value)))
  }

  function DigitCount(s: Text): nat {
    if s == [] then 0 else (if s[0].Dig? then 1 else 0) + DigitCount(s[1..])
  }

  /** The bookkeeping after a number token has gone into `current`. */
  function Count(t: Tok, nxt: Option<Tok>, s: State): Action
    requires t.Num?
  {
    if (if t.implied.Is? then IsScaleTok(nxt) else GluedWord(t, nxt)) then Stop(s.(suspicious := true))
    else
      Go(s.(digits := s.digits + DigitCount(t.text),
            hasNonzero := s.hasNonzero || t.value != 0.0,
            seenBig := s.seenBig || t.implied.Is?,
            lastScale := if t.implied.Is? then t.implied else s.lastScale,
            hasNumber := true,
            end := t.end),
         1)
  }

  function StepOnes(toks: seq<Tok>, j: nat, s: State): Action
    requires j < |toks| && toks[j].Word? && toks[j].word.Ones?
  {
    var t := toks[j];
    var v := t.word.digit as real;
    var nxt := Peek(toks, j + 1);
    if SpokenShorthand(toks, j, s) || NamShorthand(toks, j, s) then TakeHundreds(toks, j, s, v)
    else if AfterScale(s) && !IsScaleTok(nxt) then Quit(s, nxt)
    else
      Go(s.(current := Is(OrZero(s.current) + v),
            fromDigits := false,
            hasNonzero := s.hasNonzero || v != 0.0,
            hasNumber := true,
            end := t.end),
         1)
  }

  /** The state after a number word other than a numeral 0..9, which ends at `end`. */
  function Multiply(s: State, w: Word, end: nat): State
    requires IsNumberWord(w) && !w.Ones?
  {
    match w
    case Filler => s.(end := end)
    case Tens(_) =>
      s.(section := s.section + OrOne(s.current) * 10.0, current := Absent,
         hasNonzero := true, hasNumber := true, end := end)
    case Hundred =>
      s.(section := s.section + OrOne(s.current) * 100.0, current := Absent,
         hasNonzero := true, hasNumber := true, end := end)
    case Scale(m, noun) =>
      s.(slang := if noun.Some? then s.slang + {noun.value} else s.slang, current := Absent,
         total := s.total + Scaled(s.section + OrZero(s.current), m), section := 0.0,
         lastScale := Is(Base(m)), seenBig := true, hasNumber := true, end := end)
    case Half =>
      s.(current := Is(OrZero(s.current) + 0.5), fromDigits := false,
         hasNonzero := true, hasNumber := true, end := end)
    case Halves =>
      s.(total := s.total + OrOne(s.lastScale) / 2.0, hasNonzero := true, hasNumber := true, end := end)
  }

  function Step(text: Text, toks: seq<Tok>, j: nat, s: State): (a: Action)
    requires j < |toks|
    ensures a.Go? ==> 0 < a.width && j + a.width <= |toks|
  {
    var t := toks[j];
    if t.Num? then StepNum(text, toks, j, s)
    else if t.Word? && t.word.Ones? then StepOnes(toks, j, s)
    else if t.Word? && IsNumberWord(t.word) then Go(Multiply(s, t.word, t.end), 1)
    else Stop(s)
  }

  // ----- a run, its verdict, and the scan -------------------------------------------------------

  /** How a run ends: its state, and the token it ends before. */
  datatype Outcome = Outcome(state: State, next: nat)

  /** The state in which a run that stands at token `j` ends, and the token it ends before. */
  function Run(text: Text, toks: seq<Tok>, j: nat, s: State): (r: Outcome)
    requires j <= |toks|
    ensures j <= r.next <= |toks|
    decreases |toks| - j
  {
    if j == |toks| then Outcome(s, j)
    else
      match Step(text, toks, j, s)
      case Stop(s') => Outcome(s', j)
      case Go(s', width) => Run(text, toks, j + width, s')
  }

  lemma RunUnfolds(text: Text, toks: seq<Tok>, j: nat, s: State)
    requires j <= |toks|
    ensures Run(text, toks, j, s)
         == if j == |toks| then Outcome(s, j)
            else match Step(text, toks, j, s)
                 case Stop(s') => Outcome(s', j)
                 case Go(s', width) => Run(text, toks, j + width, s')
  {}

  predicate StartsRun(t: Tok) { t.Num? || (t.Word? && IsNumberWord(t.word)) }

  /** `_is_valid` */
  predicate IsValid(total: real, seenBig: bool, hasNonzero: bool, digits: nat, hasSuffix: bool) {
    total > 0.0 && hasNonzero && (seenBig || digits >= 4 || hasSuffix)
  }

  /** `_CURRENCY_SUFFIX_RE` matches at the head of `s`. */
  predicate CurrencyAhead(s: Text) {
    var r := s[PrefixLen(s, Spaces)..];
    var w := PrefixLen(r, Letters);
    IsCurrencyWord(Lower(r[..w])) || (r != [] && r[0] == CURRENCY_SIGN && (|r| > 1 ==> !r[1].Let?))
  }

  predicate IsDigitText(raw: Text) { raw != [] && All(raw, Digits) }

  predicate IsPhoneShape(raw: Text) { IsDigitText(raw) && raw[0] == Dig(0) && 9 <= |raw| <= 11 }

  predicate IsYearShape(raw: Text) { IsDigitText(raw) && |raw| == 4 && 1900 <= NatOf(raw) <= 2099 }

  predicate IsIdentifierTok(t: Option<Tok>) {
    t.Some? && t.value.Word? && t.value.word.Plain? && t.value.word.identifier
  }

  /** The word after the run names an object that a slang scale of the run could count. */
  predicate IsObjectTok(t: Option<Tok>, slang: set<Noun>) {
    t.Some? && t.value.Word? && t.value.word.Plain? && t.value.word.objectOf.Some?
    && t.value.word.objectOf.value in slang
  }

  /** `_looks_like_identifier` */
  predicate LooksLikeIdentifier(raw: Text, seenBig: bool, hasSuffix: bool, prev: Option<Tok>,
                                next: Option<Tok>, slang: set<Noun>)
  {
    || IsPhoneShape(raw)
    || (!seenBig && !hasSuffix && IsYearShape(raw))
    || (!seenBig && !hasSuffix && IsIdentifierTok(prev))
    || IsObjectTok(next, slang)
  }

  /** `quantize(Decimal("1"), rounding=ROUND_HALF_UP)` of a positive amount. */
  function RoundHalfUp(x: real): int { (x + 0.5).Floor }

  function GrandTotal(s: State): real { s.total + s.section + OrZero(s.current) }

  function Prev(toks: seq<Tok>, i: nat): Option<Tok> { if i > 0 then Peek(toks, i - 1) else None }

  /** The amount a run from token `i` to token `j` yields, if it is accepted. */
  function Judge(text: Text, toks: seq<Tok>, i: nat, j: nat, s: State): Option<Match>
    requires i < |toks|
  {
    var raw := Slice(text, toks[i].start, s.end);
    var hasSuffix := CurrencyAhead(From(text, s.end));
    if s.hasNumber && !s.ambiguousTail && !s.suspicious
       && !LooksLikeIdentifier(raw, s.seenBig, hasSuffix, Prev(toks, i), Peek(toks, j), s.slang)
       && IsValid(GrandTotal(s), s.seenBig, s.hasNonzero, s.digits, hasSuffix)
    then Some(Match(RoundHalfUp(GrandTotal(s)), raw, toks[i].start, s.end))
    else None
  }

  function Listed(m: Option<Match>): seq<Match> { if m.Some? then [m.value] else [] }

  /** The run that starts at token `i`. */
  function RunAt(text: Text, toks: seq<Tok>, i: nat): (r: Outcome)
    requires i < |toks|
    ensures i <= r.next <= |toks|
  {
    Run(text, toks, i, Fresh(toks[i].end))
  }

  function NextStart(i: nat, j: nat): nat { if j > i then j else i + 1 }

  /** The amounts found from token `i` on. */
  function Scan(text: Text, toks: seq<Tok>, i: nat): seq<Match>
    requires i <= |toks|
    decreases |toks| - i
  {
    if i == |toks| then []
    else if !StartsRun(toks[i]) then Scan(text, toks, i + 1)
    else
      var Outcome(s, j) := RunAt(text, toks, i);
      Listed(Judge(text, toks, i, j, s)) + Scan(text, toks, NextStart(i, j))
  }

  lemma ScanUnfolds(text: Text, toks: seq<Tok>, i: nat)
    requires i < |toks|
    ensures !StartsRun(toks[i]) ==> Scan(text, toks, i) == Scan(text, toks, i + 1)
    ensures StartsRun(toks[i]) ==>
              var Outcome(s, j) := RunAt(text, toks, i);
              Scan(text, toks, i) == Listed(Judge(text, toks, i, j, s)) + Scan(text, toks, NextStart(i, j))
  {
    hide RunAt, Judge;
  }

  lemma ScanEnd(text: Text, toks: seq<Tok>)
    ensures Scan(text, toks, |toks|) == []
  {}

  /** The amounts of a text: what `find_amounts` returns. */
  function Amounts(text: Text): seq<Match> { Scan(text, Tokens(text), 0) }

  /** Their values. */
  function ValuesOf(ms: seq<Match>): (vs: seq<int>)
    ensures |vs| == |ms|
  {
    seq(|ms|, k requires 0 <= k < |ms| => ms[k].value)
  }

  function Valued(text: Text): seq<int> { ValuesOf(Amounts(text)) }

  lemma ValuedOne(text: Text, v: int)
    requires Amounts(text) == [Match(v, text, 0, |text|)]
    ensures Valued(text) == [v]
  {}

  lemma ValuesJoin(a: seq<Match>, b: seq<Match>)
    ensures ValuesOf(a + b) == ValuesOf(a) + ValuesOf(b)
  {}
}
