/** The three ways to write a large number in digits: plain, grouped by separators, and grouped by
    spaces. */
module NumberForms {
  import opened Text
  import opened Vocabulary
  import opened Lexer
  import opened Machine
  import opened OpenTail
  import opened Words
  import opened Accepting

  /** The last three digits, with leading zeros. */
  function Triple(r: nat): (s: Text)
    requires r < 1000
    ensures |s| == 3 && All(s, Digits)
  {
    [Dig(r / 100), Dig(r / 10 % 10), Dig(r % 10)]
  }

  /** `n` in groups of three digits: "1.500.000" or "1,500,000". */
  function Grouped(n: nat, sep: Ch): (s: Text)
    ensures s != []
  {
    if n < 1000 then Decimal(n) else Grouped(n / 1000, sep) + [sep] + Triple(n % 1000)
  }

  /** The groups of "1 500 000" as words. */
  function Spaced(n: nat): (ws: seq<Text>)
    ensures ws != []
  {
    if n < 1000 then [Decimal(n)] else Spaced(n / 1000) + [Triple(n % 1000)]
  }

  // ----- plain ----------------------------------------------------------------------------------

  /** A run of digits is money from four digits on, unless it is zero or has the shape of a phone number
      or of a year. */
  lemma PlainDigits(w: Text)
    requires w != [] && All(w, Digits)
    ensures var phone, year := w[0] == Dig(0) && 9 <= |w| <= 11, |w| == 4 && 1900 <= NatOf(w) <= 2099;
            Amounts(w) == if |w| >= 4 && NatOf(w) > 0 && !phone && !year then [Match(NatOf(w), w, 0, |w|)] else []
  {
    hide Amounts, NatOf, ValueOf, IsNumeral, DigitCount;
    DigitsNumeral(w);
    DigitCountAll(w);
    PlainNumeral(w);
    RoundWhole(NatOf(w));
  }

  /** For a canonical number the year is the only shape. */
  lemma PlainNumber(n: nat)
    ensures Amounts(Decimal(n)) == if IsBareAmount(n) then [Match(n, Decimal(n), 0, |Decimal(n)|)] else []
  {
    hide Amounts, IsBare, IsBareAmount, IsNumeral, ValueOf;
    DecimalNumeral(n);
    BareDecimal(n);
    PlainNumeral(Decimal(n));
    RoundWhole(n);
  }

  // ----- grouped by separators ------------------------------------------------------------------

  lemma LastDigits(n: nat)
    ensures n / 10 / 10 / 10 == n / 1000
    ensures n % 1000 % 10 == n % 10 && n % 1000 / 10 % 10 == n / 10 % 10 && n % 1000 / 100 == n / 10 / 10 % 10
  {}

  lemma DecimalSplit(n: nat)
    requires n >= 1000
    ensures Decimal(n) == Decimal(n / 1000) + Triple(n % 1000)
  {
    var a := n / 10;
    var b := a / 10;
    LastDigits(n);
    assert Decimal(n) == Decimal(a) + [Dig(n % 10)];
    assert Decimal(a) == Decimal(b) + [Dig(a % 10)];
    assert Decimal(b) == Decimal(b / 10) + [Dig(b % 10)];
  }

  lemma GroupsUnfold(s: Text)
    requires |s| >= 4
    ensures GroupsLen(s) == if IsSep(s[0]) && PrefixLen(s[1..], Digits) == 3 then 4 + GroupsLen(s[4..]) else 0
  {}

  lemma {:induction false} GroupsAppend(x: Text, sep: Ch, t: Text)
    requires GroupsLen(x) == |x| && IsSep(sep) && |t| == 3 && All(t, Digits)
    ensures GroupsLen(x + ([sep] + t)) == |x| + 4
    decreases |x|
  {
    hide GroupsLen, PrefixLen;
    var g := [sep] + t;
    EmptyGroups();
    GroupsUnfold(x + g);
    if x == [] {
      assert x + g == g && g[1..] == t && g[4..] == [];
      PrefixIs(t, Digits, 3);
    } else {
      GroupsUnfold(x);
      assert (x + g)[1..] == x[1..] + g && (x + g)[4..] == x[4..] + g;
      PrefixOf(x[1..], g, Digits);
      GroupsAppend(x[4..], sep, t);
    }
  }

  lemma {:induction false} StripAppend(a: Text, b: Text)
    ensures StripSeps(a + b) == StripSeps(a) + StripSeps(b)
    ensures DigitCount(a + b) == DigitCount(a) + DigitCount(b)
    decreases |a|
  {
    if a == [] {
      assert a + b == b;
    } else {
      assert (a + b)[1..] == a[1..] + b;
      StripAppend(a[1..], b);
    }
  }

  lemma {:induction false} StripDigits(s: Text)
    requires All(s, Digits)
    ensures StripSeps(s) == s
  {
    if s != [] {
      assert In(s[0], Digits);
      StripDigits(s[1..]);
      assert s == [s[0]] + s[1..];
    }
  }

  /** The shape of a grouped number: a head of up to three digits, then groups to the end. */
  lemma {:induction false} GroupedShape(n: nat, sep: Ch)
    requires n >= 1000 && IsSep(sep)
    ensures var s, d := Grouped(n, sep), PrefixLen(Grouped(n, sep), Digits);
            0 < d <= 3 && d < |s| && GroupsLen(s[d..]) == |s| - d > 0
    decreases n
  {
    hide GroupsLen;
    var p, g := Grouped(n / 1000, sep), [sep] + Triple(n % 1000);
    var s := Grouped(n, sep);
    assert s == p + g;
    PrefixOf(p, g, Digits);
    var d := PrefixLen(p, Digits);
    assert s[d..] == p[d..] + g;
    if n / 1000 < 1000 {
      DecimalLength(n / 1000);
      PrefixIs(p, Digits, |p|);
      assert p[d..] == [];
      EmptyGroups();
    } else {
      GroupedShape(n / 1000, sep);
    }
    GroupsAppend(p[d..], sep, Triple(n % 1000));
  }

  lemma EmptyGroups()
    ensures GroupsLen([]) == 0
  {}

  lemma GroupCons(p: Text, sep: Ch, t: Text)
    requires IsSep(sep) && All(t, Digits)
    ensures StripSeps(p + [sep] + t) == StripSeps(p) + t && DigitCount(p + [sep] + t) == DigitCount(p) + |t|
  {
    hide DigitCount, StripSeps;
    SepStrips(sep);
    StripAppend(p + [sep], t);
    StripAppend(p, [sep]);
    StripDigits(t);
    DigitCountAll(t);
  }

  lemma {:induction false} GroupedDigits(n: nat, sep: Ch)
    requires IsSep(sep)
    ensures StripSeps(Grouped(n, sep)) == Decimal(n)
    ensures DigitCount(Grouped(n, sep)) == |Decimal(n)|
    decreases n
  {
    hide DigitCount, StripSeps, Decimal, Triple;
    if n < 1000 {
      StripDigits(Decimal(n));
      DigitCountAll(Decimal(n));
    } else {
      GroupedDigits(n / 1000, sep);
      GroupCons(Grouped(n / 1000, sep), sep, Triple(n % 1000));
      DecimalSplit(n);
    }
  }

  lemma SepStrips(sep: Ch)
    requires IsSep(sep)
    ensures StripSeps([sep]) == [] && DigitCount([sep]) == 0
  {
    assert [sep][1..] == [];
  }

  lemma GroupedReads(n: nat, sep: Ch)
    requires n >= 1000 && IsSep(sep)
    ensures IsNumeral(Grouped(n, sep)) && ValueOf(Grouped(n, sep)) == n as real && !IsDigitText(Grouped(n, sep))
  {
    hide StripSeps, GroupsLen, NatOf, PrefixLen, Grouped;
    var s := Grouped(n, sep);
    GroupedShape(n, sep);
    GroupedDigits(n, sep);
    NatOfDecimal(n);
    var d := PrefixLen(s, Digits);
    assert IsSep(s[d..][0]) by { GroupsOpen(s[d..]); }
    assert s[d] == s[d..][0] && !In(s[d], Digits);
    assert WholeLen(s) == |s|;
    assert s[|s|..] == [] && s[..|s|] == s;
  }

  lemma GroupsOpen(s: Text)
    requires GroupsLen(s) > 0
    ensures s != [] && IsSep(s[0])
  {}

  /** A number grouped by separators is read as that number. */
  lemma GroupedNumber(n: nat, sep: Ch)
    requires n >= 1000 && IsSep(sep)
    ensures Amounts(Grouped(n, sep)) == [Match(n, Grouped(n, sep), 0, |Grouped(n, sep)|)]
  {
    hide Grouped, IsDigitText, DigitCount, Amounts, IsNumeral, ValueOf;
    GroupedReads(n, sep);
    GroupedDigits(n, sep);
    DecimalLength(n);
    NoShape(Grouped(n, sep));
    PlainNumeral(Grouped(n, sep));
    RoundWhole(n);
  }

  // ----- decimals -------------------------------------------------------------------------------

  function WithFraction(n: nat, sep: Ch, f: Text): Text { Decimal(n) + [sep] + f }

  /** A separator and `f` are a decimal part, and not one more group of three. */
  predicate IsDecimalPart(n: nat, sep: Ch, f: Text) {
    IsSep(sep) && f != [] && All(f, Digits) && (|f| == 3 ==> n >= 1000)
  }

  lemma FractionHead(n: nat, sep: Ch, f: Text)
    requires IsDecimalPart(n, sep, f)
    ensures var s, d := WithFraction(n, sep, f), |Decimal(n)|;
            PrefixLen(s, Digits) == d && s[0].Dig? && s[..d] == Decimal(n) && s[d..] == [sep] + f && !IsDigitText(s)
  {
    hide Decimal;
    var s, d := WithFraction(n, sep, f), |Decimal(n)|;
    assert forall k | 0 <= k < d :: s[k] == Decimal(n)[k];
    assert In(Decimal(n)[0], Digits) && s[d] == sep && !In(sep, Digits);
    PrefixIs(s, Digits, d);
  }

  lemma FractionTail(n: nat, sep: Ch, f: Text)
    requires IsDecimalPart(n, sep, f)
    ensures |Decimal(n)| > 3 || GroupsLen([sep] + f) == 0
    ensures FractionLen([sep] + f) == 1 + |f|
  {
    hide Decimal;
    DecimalLength(n);
    assert ([sep] + f)[1..] == f && In(f[0], Digits);
    PrefixIs(f, Digits, |f|);
  }

  lemma FractionShape(n: nat, sep: Ch, f: Text)
    requires IsDecimalPart(n, sep, f)
    ensures var s, d := WithFraction(n, sep, f), |Decimal(n)|;
            PrefixLen(s, Digits) == d == WholeLen(s) && IsNumeral(s)
            && s[..d] == Decimal(n) && s[d..] == [sep] + f && (d > 3 || GroupsLen(s[d..]) == 0) && !IsDigitText(s)
  {
    FractionHead(n, sep, f);
    FractionTail(n, sep, f);
    hide Decimal, PrefixLen, GroupsLen, FractionLen, IsDigitText;
  }

  lemma FractionReads(n: nat, sep: Ch, f: Text)
    requires IsDecimalPart(n, sep, f)
    ensures ValueOf(WithFraction(n, sep, f)) == n as real + FractionOf(f)
  {
    hide Decimal, NatOf, FractionOf, PrefixLen, GroupsLen, WholeLen, StripSeps, BodyLen;
    FractionShape(n, sep, f);
    NatOfDecimal(n);
    var s, d := WithFraction(n, sep, f), |Decimal(n)|;
    assert s[d + 1..] == f && s[d..][1..] == f;
  }

  /** A decimal number is an amount if it has four digits or more and is not zero; it is rounded half
      up, to nothing if it is below one half. */
  lemma DecimalNumber(n: nat, sep: Ch, f: Text)
    requires IsDecimalPart(n, sep, f)
    ensures var s, v := WithFraction(n, sep, f), n as real + FractionOf(f);
            Amounts(s)
            == if v > 0.0 && |Decimal(n)| + |f| >= 4 then [Match(RoundHalfUp(v), s, 0, |s|)] else []
  {
    hide Amounts, IsDigitText, FractionOf, Decimal, DigitCount, StripSeps, RoundHalfUp, GroupsLen, WholeLen,
      PrefixLen, ValueOf, IsNumeral;
    FractionShape(n, sep, f);
    FractionReads(n, sep, f);
    FractionDigits(n, sep, f);
    hide WithFraction, IsPhoneShape, IsYearShape;
    NoShape(WithFraction(n, sep, f));
    PlainNumeral(WithFraction(n, sep, f));
  }

  lemma NoShape(w: Text)
    requires !IsDigitText(w)
    ensures !IsPhoneShape(w) && !IsYearShape(w)
  {}

  lemma FractionDigits(n: nat, sep: Ch, f: Text)
    requires IsDecimalPart(n, sep, f)
    ensures DigitCount(WithFraction(n, sep, f)) == |Decimal(n)| + |f|
  {
    hide Decimal, DigitCount, StripSeps;
    DigitCountAll(Decimal(n));
    GroupCons(Decimal(n), sep, f);
  }

  // ----- groups with a decimal part -------------------------------------------------------------

  lemma {:induction false} GroupsStop(x: Text, r: Text)
    requires GroupsLen(x) == |x| && GroupsLen(r) == 0 && (r != [] ==> !r[0].Dig?)
    ensures GroupsLen(x + r) == |x|
    decreases |x|
  {
    hide GroupsLen, PrefixLen;
    if x == [] {
      assert x + r == r;
    } else {
      GroupsFour(x);
      GroupsUnfold(x);
      GroupsUnfold(x + r);
      assert (x + r)[1..] == x[1..] + r && (x + r)[4..] == x[4..] + r;
      assert r != [] ==> !In(r[0], Digits);
      if PrefixLen(x[1..], Digits) == 3 { PrefixOf(x[1..], r, Digits); }
      GroupsStop(x[4..], r);
    }
  }

  lemma GroupsFour(x: Text)
    requires x != [] && GroupsLen(x) == |x|
    ensures |x| >= 4
  {}

  lemma FractionAlone(sep: Ch, f: Text)
    requires IsSep(sep) && f != [] && All(f, Digits) && |f| != 3
    ensures var r := [sep] + f; GroupsLen(r) == 0 && FractionLen(r) == |r| && IsFraction(r) && r[1..] == f && !r[0].Dig?
  {
    var r := [sep] + f;
    assert r[1..] == f && In(f[0], Digits) && r[1] == f[0];
    PrefixIs(f, Digits, |f|);
  }

  /** A decimal part behind groups counts: "1.234,5" is 1234.5. */
  lemma GroupedDecimal(n: nat, sep: Ch, point: Ch, f: Text)
    requires n >= 1000 && IsSep(sep) && IsSep(point) && f != [] && All(f, Digits) && |f| != 3
    ensures var s := Grouped(n, sep) + ([point] + f); IsNumeral(s) && ValueOf(s) == n as real + FractionOf(f)
  {
    hide StripSeps, GroupsLen, NatOf, PrefixLen, Grouped, FractionLen, FractionOf, IsFraction, All;
    var p, r := Grouped(n, sep), [point] + f;
    var s, d := p + r, PrefixLen(p, Digits);
    GroupedShape(n, sep);
    GroupedDigits(n, sep);
    NatOfDecimal(n);
    FractionAlone(point, f);
    PrefixOf(p, r, Digits);
    assert s[d..] == p[d..] + r;
    GroupsStop(p[d..], r);
    assert WholeLen(s) == |p|;
    assert s[|p|..] == r && s[..|p|] == p && s[|p| + 1..] == f;
    assert s[0] == p[0];
    assert In(p[0], Digits);
  }

  /** The point and the comma separate groups, and each may be the decimal mark behind the other. */
  lemma PointAndComma(n: nat, f: Text)
    requires n >= 1000 && f != [] && All(f, Digits) && |f| != 3
    ensures var english, local := Grouped(n, Sym(',')) + ([Sym('.')] + f), Grouped(n, Sym('.')) + ([Sym(',')] + f);
            var v := RoundHalfUp(n as real + FractionOf(f));
            Amounts(english) == [Match(v, english, 0, |english|)] && Amounts(local) == [Match(v, local, 0, |local|)]
  {
    hide Amounts, RoundHalfUp, FractionOf, Grouped, All;
    GroupedDecimalFound(n, Sym(','), Sym('.'), f);
    GroupedDecimalFound(n, Sym('.'), Sym(','), f);
  }

  lemma GroupedDecimalFound(n: nat, sep: Ch, point: Ch, f: Text)
    requires n >= 1000 && IsSep(sep) && IsSep(point) && f != [] && All(f, Digits) && |f| != 3
    ensures var s := Grouped(n, sep) + ([point] + f);
            Amounts(s) == [Match(RoundHalfUp(n as real + FractionOf(f)), s, 0, |s|)]
  {
    hide Amounts, RoundHalfUp, FractionOf, Grouped, All, DigitCount, ValueOf, IsNumeral, StripSeps, Decimal;
    var s := Grouped(n, sep) + ([point] + f);
    GroupedDecimal(n, sep, point, f);
    GroupedDigits(n, sep);
    GroupCons(Grouped(n, sep), point, f);
    assert s == Grouped(n, sep) + [point] + f;
    DecimalLength(n);
    HoldsMark(Grouped(n, sep), point, f);
    NoShape(s);
    PlainNumeral(s);
  }

  lemma HoldsMark(a: Text, point: Ch, f: Text)
    requires IsSep(point)
    ensures !IsDigitText(a + ([point] + f))
  {
    var s := a + ([point] + f);
    assert s[|a|] == point && !In(s[|a|], Digits);
  }

  // ----- grouped by spaces ----------------------------------------------------------------------

  /** The groups written without the spaces. */
  function Unspaced(ws: seq<Text>): Text { if ws == [] then [] else Unspaced(ws[..|ws| - 1]) + ws[|ws| - 1] }

  predicate IsTriple(w: Text) { |w| == 3 && All(w, Digits) }

  predicate AreNumerals(ws: seq<Text>) { forall k | 0 <= k < |ws| :: IsNumeral(ws[k]) }

  /** The words from `i` to `j` are one number: a numeral, or digits and then groups of three digits. */
  predicate IsBlock(ws: seq<Text>, i: nat, j: nat) {
    i < j <= |ws| && (i + 1 < j ==> All(ws[i], Digits)) && forall k | i < k < j :: IsTriple(ws[k])
  }

  /** What they are worth, by Horner's rule. */
  function BlockValue(ws: seq<Text>, i: nat, j: nat): (v: real)
    requires i < j <= |ws|
    ensures v >= 0.0
    decreases j - i
  {
    if j == i + 1 then ValueOf(ws[i]) else BlockValue(ws, i, j - 1) * 1000.0 + ValueOf(ws[j - 1])
  }

  function BlockDigits(ws: seq<Text>, i: nat, j: nat): nat
    requires i < j <= |ws|
    decreases j - i
  {
    if j == i + 1 then DigitCount(ws[i]) else BlockDigits(ws, i, j - 1) + 3
  }

  lemma NatOfTriple(a: Text, t: Text)
    requires |t| == 3 && All(t, Digits)
    ensures NatOf(a + t) == NatOf(a) * 1000 + NatOf(t)
  {
    var s := a + t;
    assert s[..|s| - 1] == a + t[..2] && (a + t[..2])[..|a| + 1] == a + t[..1] && (a + t[..1])[..|a|] == a;
    assert t[..2][..1] == t[..1] && t[..1][..0] == [];
    assert NatOf(t[..1]) == t[0].digit && NatOf(t[..2]) == 10 * NatOf(t[..1]) + t[1].digit;
    assert NatOf(a + t[..1]) == 10 * NatOf(a) + t[0].digit;
    assert NatOf(a + t[..2]) == 10 * NatOf(a + t[..1]) + t[1].digit;
  }

  /** A three-digit group behind a digit-only number is appended to it. */
  lemma GroupJoins(text: Text, toks: seq<Tok>, ws: seq<Text>, k: nat, s: State)
    requires k < |toks| == |ws| && ReadsAt(text, toks, ws, k) && IsTriple(ws[k])
    requires s.current.Is? && s.current.value == s.current.value.Floor as real && s.fromDigits && Unflagged(s)
    ensures var v := ValueOf(ws[k]);
            Step(text, toks, k, s)
            == Go(s.(current := Is(s.current.value * 1000.0 + v), digits := s.digits + 3,
                     hasNonzero := s.hasNonzero || v != 0.0, hasNumber := true, end := toks[k].end), 1)
  {
    DigitsNumeral(ws[k]);
    hide ShorthandAhead, GluedWord, ValueOf, DigitCount, StandsFree, WordOf, From, BodyLen, NatOf;
    FreeOfGlue(text, toks, ws, k);
    DigitCountAll(ws[k]);
    assert ReadingOf(text, toks, k, s) == NextGroup;
    hide ReadingOf;
  }

  /** The state of a run that has read the block from `i` to `j` and nothing else. */
  predicate HasRead(s: State, ws: seq<Text>, i: nat, j: nat)
    requires i < j <= |ws|
  {
    s.current == Is(BlockValue(ws, i, j)) && s.fromDigits == All(ws[i], Digits) && s.total == 0.0 && s.section == 0.0
    && !s.seenBig && s.slang == {} && Unflagged(s) && s.hasNumber
    && (s.hasNonzero <==> BlockValue(ws, i, j) != 0.0) && s.digits == BlockDigits(ws, i, j)
  }

  lemma HeadRead(text: Text, toks: seq<Tok>, ws: seq<Text>, i: nat) returns (s: State)
    requires Reads(text, toks, ws) && i < |ws| && IsNumeral(ws[i])
    ensures i < |toks| == |ws| && RunAt(text, toks, i) == Run(text, toks, i + 1, s)
    ensures HasRead(s, ws, i, i + 1) && s.end == toks[i].end
  {
    hide Run, Step, ReadsAt, ValueOf, BodyLen, DigitCount;
    ReadsHere(text, toks, ws, i);
    var f := Fresh(toks[i].end);
    NumberBegins(text, toks, ws, i, f);
    RunUnfolds(text, toks, i, f);
    s := Began(f, ws[i], toks[i].end);
  }

  /** The groups of a block are whole numbers. */
  lemma {:induction false} BlockWhole(ws: seq<Text>, i: nat, j: nat)
    requires IsBlock(ws, i, j) && ws[i] != [] && All(ws[i], Digits)
    ensures BlockValue(ws, i, j) == NatOf(Unspaced(ws[i..j])) as real && BlockDigits(ws, i, j) == |Unspaced(ws[i..j])|
    decreases j - i
  {
    hide NatOf, ValueOf, DigitCount, BodyLen;
    var front := ws[i..j][..j - i - 1];
    assert ws[i..j][j - i - 1] == ws[j - 1];
    assert Unspaced(ws[i..j]) == Unspaced(front) + ws[j - 1];
    if j == i + 1 {
      assert front == [] && [] + ws[i] == ws[i];
      DigitsNumeral(ws[i]);
      DigitCountAll(ws[i]);
    } else {
      assert front == ws[i..j - 1];
      BlockWhole(ws, i, j - 1);
      DigitsNumeral(ws[j - 1]);
      NatOfTriple(Unspaced(front), ws[j - 1]);
    }
  }

  lemma GroupRead(text: Text, toks: seq<Tok>, ws: seq<Text>, i: nat, j: nat, s: State) returns (s': State)
    requires Reads(text, toks, ws) && IsBlock(ws, i, j + 1) && i < j && ws[i] != [] && HasRead(s, ws, i, j)
    ensures |toks| == |ws| && Run(text, toks, j, s) == Run(text, toks, j + 1, s')
    ensures HasRead(s', ws, i, j + 1) && s'.end == toks[j].end
  {
    hide Run, Step, ReadsAt, NatOf, ValueOf;
    ReadsHere(text, toks, ws, j);
    BlockWhole(ws, i, j);
    GroupJoins(text, toks, ws, j, s);
    RunUnfolds(text, toks, j, s);
    s' := Step(text, toks, j, s).state;
  }

  /** Horner's rule over the groups. */
  lemma {:induction false} BlockRun(text: Text, toks: seq<Tok>, ws: seq<Text>, i: nat, j: nat) returns (s: State)
    requires Reads(text, toks, ws) && IsBlock(ws, i, j) && IsNumeral(ws[i])
    ensures j <= |toks| == |ws| && RunAt(text, toks, i) == Run(text, toks, j, s)
    ensures HasRead(s, ws, i, j) && s.end == toks[j - 1].end
    decreases j
  {
    hide Run, RunAt, Reads, HasRead, BodyLen;
    if j == i + 1 {
      s := HeadRead(text, toks, ws, i);
    } else {
      var s1 := BlockRun(text, toks, ws, i, j - 1);
      s := GroupRead(text, toks, ws, i, j - 1, s1);
    }
  }

  lemma BlankInside(ws: seq<Text>)
    requires |ws| >= 2
    ensures !IsDigitText(Join(ws))
  {
    assert Join(ws)[|ws[0]|] == BLANK;
    assert !In(BLANK, Digits);
  }

  /** Digits in space-separated groups are read as one number, leading zeros or not; so is a phone
      number written in groups. */
  lemma SpacedDigits(ws: seq<Text>)
    requires |ws| >= 2 && IsBlock(ws, 0, |ws|) && ws[0] != []
    ensures var text, n := Join(ws), NatOf(Unspaced(ws));
            Amounts(text) == if n > 0 then [Match(n, text, 0, |text|)] else []
  {
    hide Lex, Run, Step, Scan, Join, ReadsAt, CurrencyAhead, From, IsDigitText, NatOf, IsBlock, Unspaced,
      IsNumeral, ValueOf;
    BlockNumerals(ws);
    JoinReads(ws);
    var text := Join(ws);
    var toks := Tokens(text);
    ReadsHere(text, toks, ws, 0);
    var s := BlockRun(text, toks, ws, 0, |ws|);
    BlockWhole(ws, 0, |ws|);
    assert ws[0..|ws|] == ws;
    RunUnfolds(text, toks, |toks|, s);
    BlockLength(ws, 0, |ws|);
    BlankInside(ws);
    NothingAhead(text);
    RoundWhole(NatOf(Unspaced(ws)));
    assert Slice(text, 0, |text|) == text;
    ConsumedStarts(text, toks, 0);
    ScanUnfolds(text, toks, 0);
    ScanEnd(text, toks);
  }

  lemma BlockNumerals(ws: seq<Text>)
    requires |ws| >= 2 && IsBlock(ws, 0, |ws|) && ws[0] != []
    ensures AreNumerals(ws) && AreChunks(ws) && All(ws[0], Digits)
  {
    hide BodyLen, NatOf, ValueOf;
    forall k | 0 <= k < |ws| ensures IsNumeral(ws[k]) { DigitsNumeral(ws[k]); }
  }

  lemma {:induction false} BlockLength(ws: seq<Text>, i: nat, j: nat)
    requires IsBlock(ws, i, j) && ws[i] != [] && All(ws[i], Digits)
    ensures BlockDigits(ws, i, j) == |ws[i]| + 3 * (j - i - 1)
    decreases j - i
  {
    if j == i + 1 { DigitCountAll(ws[i]); } else { BlockLength(ws, i, j - 1); }
  }

  lemma {:induction false} SpacedUnspaced(n: nat)
    ensures Spaced(n)[0] != [] && IsBlock(Spaced(n), 0, |Spaced(n)|) && Unspaced(Spaced(n)) == Decimal(n)
    ensures All(Spaced(n)[0], Digits)
    ensures n >= 1000 ==> |Spaced(n)| >= 2
    decreases n
  {
    hide Decimal, Triple;
    var ws := Spaced(n);
    if n >= 1000 {
      SpacedUnspaced(n / 1000);
      DecimalSplit(n);
      assert ws[..|ws| - 1] == Spaced(n / 1000);
    } else {
      assert ws[..0] == [] && [] + Decimal(n) == Decimal(n);
    }
  }

  /** A number in space-separated groups of three digits is read as that number. */
  lemma SpacedNumber(n: nat)
    requires n >= 1000
    ensures Amounts(Join(Spaced(n))) == [Match(n, Join(Spaced(n)), 0, |Join(Spaced(n))|)]
  {
    hide Amounts, Join, Spaced, Decimal, IsBlock, Unspaced;
    SpacedUnspaced(n);
    NatOfDecimal(n);
    SpacedDigits(Spaced(n));
  }

  /** The renderings of a large number agree: grouped by either separator or by spaces it is that
      number, and so it is in plain digits unless it looks like a year. */
  lemma RenderingsAgree(n: nat, sep: Ch)
    requires n >= 1000 && IsSep(sep)
    ensures |Amounts(Grouped(n, sep))| == |Amounts(Join(Spaced(n)))| == 1
    ensures Amounts(Grouped(n, sep))[0].value == Amounts(Join(Spaced(n)))[0].value == n
    ensures 1900 <= n <= 2099 <==> Amounts(Decimal(n)) == []
    ensures !(1900 <= n <= 2099) ==> |Amounts(Decimal(n))| == 1 && Amounts(Decimal(n))[0].value == n
  {
    hide Amounts, Grouped, Spaced, Join, Decimal;
    GroupedNumber(n, sep);
    SpacedNumber(n);
    PlainNumber(n);
  }
}
