/** `find_amounts` itself: nested loops over mutable locals, proved to compute `Amounts`.

    The locals of one run are kept in one record variable `s`; the body of the inner loop is split
    by the kind of token it reads. */
module FindAmounts {
  import opened Text
  import opened Vocabulary
  import opened Lexer
  import opened Machine

  /** The bookkeeping after a number token has gone into `current`. */
  method CountNum(t: Tok, nxt: Option<Tok>, s0: State) returns (s: State, more: bool)
    requires t.Num?
    requires s0.seenBig ==> s0.lastScale.Is?
    ensures s.seenBig ==> s.lastScale.Is?
    ensures Count(t, nxt, s0) == if more then Go(s, 1) else Stop(s)
  {
    hide DigitCount, GluedWord;
    if t.implied.Is? {
      if IsScaleTok(nxt) {
        return s0.(suspicious := true), false;
      }
    } else if GluedWord(t, nxt) {
      return s0.(suspicious := true), false;
    }
    s := s0.(digits := s0.digits + DigitCount(t.text), hasNonzero := s0.hasNonzero || t.value != 0.0,
             hasNumber := true, end := t.end);
    if t.implied.Is? {
      s := s.(seenBig := true, lastScale := t.implied);
    }
    return s, true;
  }

  /** The tests on a number token in the order of the program. */
  lemma ReadingUnfolds(text: Text, toks: seq<Tok>, j: nat, s: State)
    requires j < |toks| && toks[j].Num?
    ensures var t, nxt := toks[j], Peek(toks, j + 1);
            var consumable := nxt.None? || (IsHundredTok(nxt) && !IsScaleTok(Peek(toks, j + 2)));
            ReadingOf(text, toks, j, s)
            == if ShorthandAhead(From(text, t.end)) then Broken
               else if s.seenBig && s.current.Absent? && |t.text| == 1 && All(t.text, Digits) && t.value > 0.0
                       && s.lastScale.Is? && s.lastScale.value >= 1000000.0
                       && s.slang == {} && !s.ambiguousTail && consumable then Hundreds
               else if s.seenBig && s.current.Absent? && !IsScaleTok(nxt) then Loose
               else if s.current.Absent? then First
               else if s.fromDigits && s.current.value == s.current.value.Floor as real
                       && |t.text| == 3 && All(t.text, Digits) then NextGroup
               else Loose
  {
    hide ShorthandAhead, From, All, IsScaleTok, IsHundredTok;
  }

  /** A number token. `more` says that the inner loop goes on, from token `next`. */
  method ReadNum(text: Text, toks: seq<Tok>, j: nat, s0: State) returns (s: State, next: nat, more: bool)
    requires j < |toks| && toks[j].Num?
    requires s0.seenBig ==> s0.lastScale.Is?
    ensures s.seenBig ==> s.lastScale.Is?
    ensures more ==> next > j
    ensures StepNum(text, toks, j, s0) == if more then Go(s, next - j) else Stop(s)
  {
    hide ReadingOf, Count, HundredsOf, ShorthandAhead, IsEdge, All, From, Peek, IsScaleTok;
    ReadingUnfolds(text, toks, j, s0);
    s := s0;
    var t := toks[j];
    if ShorthandAhead(From(text, t.end)) {
      return s.(suspicious := true), j, false;
    }
    var nxt := Peek(toks, j + 1);
    if s.seenBig && s.current.Absent? {
      var nxtIsHundred := IsHundredTok(nxt);
      var hundredIsScaled := nxtIsHundred && IsScaleTok(Peek(toks, j + 2));
      var tailConsumable := nxt.None? || (nxtIsHundred && !hundredIsScaled);
      if |t.text| == 1 && All(t.text, Digits) && t.value > 0.0
         && s.lastScale.Is? && s.lastScale.value >= 1000000.0
         && s.slang == {} && !s.ambiguousTail && tailConsumable {
        s := s.(section := s.section + HundredsOf(t.value, s.lastScale.value), hasNonzero := true,
                hasNumber := true, end := if nxtIsHundred then nxt.value.end else t.end);
        return s, if nxtIsHundred then j + 2 else j + 1, true;
      }
      if !IsScaleTok(nxt) {
        return s.(ambiguousTail := IsEdge(nxt)), j, false;
      }
    }
    if s.current.Absent? {
      s := s.(current := Is(t.value), fromDigits := t.text != [] && All(t.text, Digits));
    } else if s.fromDigits && s.current.value == s.current.value.Floor as real
              && |t.text| == 3 && All(t.text, Digits) {
      s := s.(current := Is(s.current.value * 1000.0 + t.value));
    } else {
      return s.(ambiguousTail := IsEdge(nxt)), j, false;
    }
    s, more := CountNum(t, nxt, s);
    next := if more then j + 1 else j;
  }

  /** A numeral word 0..9. The division of the last scale in the "năm trăm" branch is unguarded. */
  method ReadOnes(toks: seq<Tok>, j: nat, s0: State) returns (s: State, next: nat, more: bool)
    requires j < |toks| && toks[j].Word? && toks[j].word.Ones?
    requires s0.seenBig ==> s0.lastScale.Is?
    ensures s.seenBig ==> s.lastScale.Is?
    ensures more ==> next > j
    ensures StepOnes(toks, j, s0) == if more then Go(s, next - j) else Stop(s)
  {
    hide HundredsOf;
    s, next, more := s0, j, false;
    var t := toks[j];
    var v := t.word.digit as real;
    if s.seenBig && s.current.Absent? {
      var nxt := Peek(toks, j + 1);
      var nxtIsHundred := IsHundredTok(nxt);
      var hundredIsScaled := nxtIsHundred && IsScaleTok(Peek(toks, j + 2));
      var tailConsumable := nxt.None? || (nxtIsHundred && !hundredIsScaled);
      if IsSpokenTail(t.word) && s.lastScale.Is? && s.lastScale.value >= 1000000.0
         && s.slang == {} && tailConsumable {
        s := s.(section := s.section + HundredsOf(v, s.lastScale.value), hasNonzero := true,
                hasNumber := true, end := if nxtIsHundred then nxt.value.end else t.end);
        next, more := if nxtIsHundred then j + 2 else j + 1, true;
        return;
      }
      if IsNam(t.word) && nxtIsHundred && !hundredIsScaled {
        s := s.(section := s.section + HundredsOf(v, s.lastScale.value), hasNonzero := true,
                hasNumber := true, end := nxt.value.end);
        next, more := j + 2, true;
        return;
      }
      if !IsScaleTok(nxt) {
        s := s.(ambiguousTail := IsEdge(nxt));
        return;
      }
    }
    s := s.(current := Is(OrZero(s.current) + v), fromDigits := false,
            hasNonzero := s.hasNonzero || v != 0.0, hasNumber := true, end := t.end);
    next, more := j + 1, true;
  }

  /** Any other number word. */
  method ReadWord(w: Word, end: nat, s0: State) returns (s: State)
    requires IsNumberWord(w) && !w.Ones?
    requires s0.seenBig ==> s0.lastScale.Is?
    ensures s.seenBig ==> s.lastScale.Is?
    ensures s == Multiply(s0, w, end)
  {
    match w {
      case Filler =>
        return s0.(end := end);
      case Tens(_) =>
        return s0.(section := s0.section + OrOne(s0.current) * 10.0, current := Absent,
                 hasNonzero := true, hasNumber := true, end := end);
      case Hundred =>
        return s0.(section := s0.section + OrOne(s0.current) * 100.0, current := Absent,
                 hasNonzero := true, hasNumber := true, end := end);
      case Scale(m, noun) =>
        var section := s0.section + OrZero(s0.current);
        return s0.(slang := if noun.Some? then s0.slang + {noun.value} else s0.slang, current := Absent,
                 total := s0.total + Scaled(section, m), section := 0.0,
                 lastScale := Is(Base(m)), seenBig := true, hasNumber := true, end := end);
      case Half =>
        return s0.(current := Is(OrZero(s0.current) + 0.5), fromDigits := false,
                 hasNonzero := true, hasNumber := true, end := end);
      case Halves =>
        return s0.(total := s0.total + OrOne(s0.lastScale) / 2.0,
                 hasNonzero := true, hasNumber := true, end := end);
    }
  }

  /** The inner loop: reads one run from token `i` on. */
  method ReadRun(text: Text, toks: seq<Tok>, i: nat) returns (s: State, j: nat)
    requires i < |toks|
    ensures Outcome(s, j) == RunAt(text, toks, i)
  {
    hide Run, StepNum, StepOnes, Multiply;
    s := State(0.0, 0.0, Absent, false, Absent, false, false, {}, false, false, false, 0, toks[i].end);
    j := i;
    while j < |toks|
      invariant i <= j <= |toks|
      invariant s.seenBig ==> s.lastScale.Is?
      invariant Run(text, toks, j, s) == RunAt(text, toks, i)
    {
      RunUnfolds(text, toks, j, s);
      var t := toks[j];
      if t.Num? {
        var next, more;
        s, next, more := ReadNum(text, toks, j, s);
        if !more { return; }
        j := next;
        continue;
      }
      if t.Word? {
        if t.word.Ones? {
          var next, more;
          s, next, more := ReadOnes(toks, j, s);
          if !more { return; }
          j := next;
          continue;
        }
        if IsNumberWord(t.word) {
          s := ReadWord(t.word, t.end, s);
          j := j + 1;
          continue;
        }
      }
      return;
    }
    RunUnfolds(text, toks, j, s);
  }

  lemma JudgeUnfolds(text: Text, toks: seq<Tok>, i: nat, j: nat, s: State)
    requires i < |toks|
    ensures var total, raw := s.total + s.section + OrZero(s.current), Slice(text, toks[i].start, s.end);
            var hasSuffix := CurrencyAhead(From(text, s.end));
            var rejected := LooksLikeIdentifier(raw, s.seenBig, hasSuffix, Prev(toks, i), Peek(toks, j), s.slang);
            Judge(text, toks, i, j, s)
            == if s.hasNumber && !s.ambiguousTail && !s.suspicious && !rejected
                  && IsValid(total, s.seenBig, s.hasNonzero, s.digits, hasSuffix)
               then Some(Match(RoundHalfUp(total), raw, toks[i].start, s.end)) else None
  {
    hide CurrencyAhead, LooksLikeIdentifier, IsValid, Slice, From, RoundHalfUp;
  }

  /** The outer loop: it starts a run at every number and number word that no run before it consumed. */
  method Find(text: Text) returns (matches: seq<Match>)
    ensures matches == Amounts(text)
  {
    hide RunAt, Judge, CurrencyAhead, LooksLikeIdentifier, IsValid, Lex, Scan, Slice, From, StartsRun, RoundHalfUp;
    matches := [];
    if text == [] {
      LexEmpty(text, false, 0);
      ScanEnd(text, []);
      return;
    }
    var toks := Tokenize(text);
    var i := 0;
    while i < |toks|
      invariant i <= |toks|
      invariant matches + Scan(text, toks, i) == Amounts(text)
    {
      ScanUnfolds(text, toks, i);
      var first := toks[i];
      if !StartsRun(first) {
        i := i + 1;
        continue;
      }
      var s, j := ReadRun(text, toks, i);
      JudgeUnfolds(text, toks, i, j, s);
      if s.hasNumber && !s.ambiguousTail && !s.suspicious {
        var total := s.total + s.section + OrZero(s.current);
        var raw := Slice(text, first.start, s.end);
        var hasSuffix := CurrencyAhead(From(text, s.end));
        var rejected := LooksLikeIdentifier(raw, s.seenBig, hasSuffix, Prev(toks, i), Peek(toks, j), s.slang);
        if !rejected && IsValid(total, s.seenBig, s.hasNonzero, s.digits, hasSuffix) {
          matches := matches + [Match(RoundHalfUp(total), raw, first.start, s.end)];
        }
      }
      i := if j > i then j else i + 1;
    }
    ScanEnd(text, toks);
  }
}
