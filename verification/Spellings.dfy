/** The spellings of the money words and what each of them is worth. */
module Spellings {
  import opened Text
  import opened Vocabulary
  import opened Lexer
  import opened Machine
  import opened Words
  import opened Composition
  import opened DigitGroups
  import opened Tails
  import opened SpokenTails
  import opened LeadingWords
  import opened Followers
  import opened Coefficients
  import opened Announced

  /** What a scale word stands for; 0 for every other word. */
  function ScaleIn(low: string): nat {
    if low == "nghìn" || low == "nghin" || low == "ngàn" || low == "ngan" || low == "k" then 1000
    else if low == "vạn" || low == "van" then 10000
    else if low == "triệu" || low == "trieu" || low == "tr" then 1000000
    else if low == "củ" || low == "trẹo" || low == "chai" then 1000000
    else if low == "tỷ" || low == "tỉ" then 1000000000
    else 0
  }

  /** How many halves of a scale a word in front of it counts; `None` for a word that counts none. */
  function HalvesIn(low: string): Option<nat> {
    if low == "nửa" then Some(1)
    else if low == "một" || low == "mốt" then Some(2)
    else if low == "hai" then Some(4)
    else if low == "ba" then Some(6)
    else if low == "bốn" || low == "tư" then Some(8)
    else if low == "năm" || low == "lăm" then Some(10)
    else if low == "sáu" then Some(12)
    else if low == "bảy" then Some(14)
    else if low == "tám" then Some(16)
    else if low == "chín" then Some(18)
    else if low == "mười" || low == "mươi" || low == "chục" then Some(20)
    else if low == "trăm" then Some(200)
    else if low == "không" || low == "linh" || low == "lẻ" || low == "lẽ" then Some(0)
    else None
  }

  /** The hundreds that a numeral behind a scale of a million or more stands for; 0 if it may not. */
  function TailIn(low: string): nat {
    if low == "một" then 1
    else if low == "hai" then 2
    else if low == "ba" then 3
    else if low == "bốn" then 4
    else if low == "sáu" then 6
    else if low == "bảy" then 7
    else if low == "tám" then 8
    else if low == "chín" then 9
    else 0
  }

  /** What a slang scale also is. */
  function NounIn(low: string): Option<Noun> {
    if low == "củ" then Some(Tuber) else if low == "chai" then Some(Bottle) else None
  }

  // ----- the word lists -------------------------------------------------------------------------

  lemma ScaleListed(low: string)
    requires low in BIG_SCALES
    ensures ScaleIn(low) > 0 && BIG_SCALES[low].Scale?
    ensures Unit(BIG_SCALES[low].magnitude) == ScaleIn(low) && BIG_SCALES[low].noun == NounIn(low)
  {}

  lemma ScaleIsListed(low: string)
    requires ScaleIn(low) > 0
    ensures low in BIG_SCALES
  {}

  lemma ScaleIsNoNumeral(low: string)
    requires ScaleIn(low) > 0
    ensures low !in ONES
  {
    hide ONES;
    if ScaleIn(low) > 10000 { LargeIsNoNumeral(low); } else { SmallIsNoNumeral(low); }
  }

  lemma LargeIsNoNumeral(low: string)
    requires ScaleIn(low) > 10000
    ensures low !in ONES
  {}

  lemma SmallIsNoNumeral(low: string)
    requires 0 < ScaleIn(low) <= 10000
    ensures low !in ONES
  {}

  lemma ScaleIsNoOther(low: string)
    requires low in BIG_SCALES
    ensures low !in TENS && low !in FILLERS && low != "trăm" && low != "rưỡi" && low != "nửa"
  {}

  lemma NumeralListed(low: string)
    requires low in ONES
    ensures ONES[low].Ones? && HalvesIn(low) == Some(2 * ONES[low].digit)
  {}

  lemma NumeralTail(low: string)
    requires low in ONES
    ensures ONES[low].Ones? && TailIn(low) == if IsSpokenTail(ONES[low]) then ONES[low].digit else 0
  {}

  lemma TensListed(low: string)
    requires low in TENS
    ensures low !in ONES && TENS[low].Tens? && HalvesIn(low) == Some(20)
  {}

  lemma FillerListed(low: string)
    requires low in FILLERS
    ensures low !in ONES && low !in TENS && low != "trăm" && HalvesIn(low) == Some(0)
  {}

  lemma OtherListed(low: string)
    requires low == "trăm" || low == "nửa"
    ensures low !in ONES && low !in TENS && low !in FILLERS
    ensures HalvesIn(low) == Some(if low == "nửa" then 1 else 200)
  {}

  lemma CountIsListed(low: string)
    requires HalvesIn(low).Some?
    ensures low in ONES || low in TENS || low in FILLERS || low == "trăm" || low == "nửa"
  {}

  lemma ScaleSpelled(low: string)
    ensures WordOf(low).Scale? <==> ScaleIn(low) > 0
    ensures WordOf(low).Scale? ==> Unit(WordOf(low).magnitude) == ScaleIn(low) && WordOf(low).noun == NounIn(low)
  {
    hide ONES, TENS, BIG_SCALES, FILLERS, ScaleIn, Unit;
    if low in BIG_SCALES {
      ScaleListed(low);
      ScaleIsNoNumeral(low);
      ScaleIsNoOther(low);
    } else {
      if ScaleIn(low) > 0 { ScaleIsListed(low); }
      if low in ONES { NumeralListed(low); }
      if low in TENS { TensListed(low); }
    }
  }

  /** The word of a spelling that counts. */
  lemma CountSpelled(low: string)
    requires HalvesIn(low).Some?
    ensures var w, h := WordOf(low), HalvesIn(low).value;
            (w.Ones? && h == 2 * w.digit && TailIn(low) == if IsSpokenTail(w) then w.digit else 0)
            || (w.Filler? && h == 0) || (w.Half? && h == 1) || (w.Tens? && h == 20) || (w.Hundred? && h == 200)
  {
    hide ONES, TENS, BIG_SCALES, FILLERS, HalvesIn, TailIn, IsSpokenTail;
    CountIsListed(low);
    if low in ONES {
      NumeralListed(low);
      NumeralTail(low);
    } else if low in TENS {
      TensListed(low);
    } else if low in FILLERS {
      FillerListed(low);
    } else {
      OtherListed(low);
    }
  }

  lemma OnlyTheseCount(low: string)
    requires WordOf(low).Ones? || WordOf(low).Tens? || WordOf(low).Hundred? || WordOf(low).Filler? || WordOf(low).Half?
    ensures HalvesIn(low).Some?
  {
    hide ONES, TENS, BIG_SCALES, FILLERS, HalvesIn;
    if low in ONES { NumeralListed(low); }
    if low in TENS { TensListed(low); }
    if low in FILLERS { FillerListed(low); }
    if low == "trăm" || low == "nửa" { OtherListed(low); }
    if low in BIG_SCALES { ScaleListed(low); }
  }

  // ----- what they are worth --------------------------------------------------------------------

  /** How often a scale counts behind a number: a zero counts as one. */
  function Counted(v: real): real { if v == 0.0 then 1.0 else v }

  function Multiple(v: real, unit: nat): real { v * (unit as real) }

  lemma WorthScaled(v: real, m: Magnitude)
    ensures Scaled(v, m) == Multiple(Counted(v), Unit(m))
  {
    match m {
      case Thousand =>
      case Myriad =>
      case Million =>
      case Billion =>
    }
  }

  /** A numeral with a scale word in any of its spellings. */
  lemma NumberWithScale(n: Text, w: Text)
    requires IsNumeral(n) && ValueOf(n) != 0.0 && IsWord(w) && ScaleIn(Lower(w)) > 0
    ensures var text := Join([n, w]);
            Amounts(text) == [Match(RoundHalfUp(Multiple(ValueOf(n), ScaleIn(Lower(w)))), text, 0, |text|)]
  {
    hide WordOf, Amounts, Join, Scaled, ValueOf, IsNumeral, RoundHalfUp, ScaleIn, Unit, Multiple;
    ScaleSpelled(Lower(w));
    WorthScaled(ValueOf(n), WordFor(w).magnitude);
    OneGroup(n, w);
  }

  /** The coefficient that is one word. */
  lemma WordCoefficient(u: Text) returns (c: Coefficient)
    requires IsWord(u) && HalvesIn(Lower(u)).Some?
    ensures IsCoefficient(c, false) && CoefficientWords(c) == [u]
    ensures var h := HalvesIn(Lower(u)).value;
            (IsMeant(c) <==> h > 0) && CoefficientWorth(c) == h as real / 2.0
  {
    hide WordOf, HalvesIn, BodyLen, TailIn, IsSpokenTail;
    CountSpelled(Lower(u));
    assert In(u[0], Letters);
    var w := WordFor(u);
    if w.Tens? || w.Hundred? {
      c := Coefficient([Segment([], u)], []);
      TimesAlone(u);
    } else {
      c := Coefficient([], [u]);
      ItemAlone(u);
      NoSegments(c);
    }
  }

  lemma TimesAlone(u: Text)
    requires IsWord(u) && (WordFor(u).Tens? || WordFor(u).Hundred?)
    ensures var c := Coefficient([Segment([], u)], []);
            IsCoefficient(c, false) && CoefficientWords(c) == [u] && IsMeant(c)
            && CoefficientWorth(c) == if WordFor(u).Hundred? then 100.0 else 10.0
  {
    hide WordOf;
    var g := Segment([], u);
    assert [g][1..] == [] && SegmentsWorth([]) == 0.0 && SegmentWords([]) == [] && Tally([]) == 0.0;
    assert SegmentsWorth([g]) == SegmentWorth(g) + SegmentsWorth([]);
    assert SegmentWords([g]) == [] + [u] + [];
  }

  lemma ItemAlone(u: Text)
    requires IsWord(u) && !IsNumeral(u) && (WordFor(u).Ones? || WordFor(u).Half? || WordFor(u).Filler?)
    ensures Fits([u], false, false) && Tally([u]) == Worth(u)
  {
    hide WordOf, BodyLen, Worth;
    assert [u][1..] == [] && Tally([]) == 0.0;
  }

  /** A word in front of a scale word, in any of their spellings. */
  lemma WordWithScale(u: Text, w: Text)
    requires IsWord(u) && HalvesIn(Lower(u)).Some? && IsWord(w) && ScaleIn(Lower(w)) > 0
    ensures var text, h := Join([u, w]), HalvesIn(Lower(u)).value;
            Amounts(text) == if h > 0 then [Match(h * ScaleIn(Lower(w)) / 2, text, 0, |text|)] else []
  {
    hide WordOf, Amounts, Join, Scaled, ValueOf, IsNumeral, RoundHalfUp, ScaleIn, Unit, HalvesIn, CoefficientWords,
      IsCoefficient, IsMeant;
    var h := HalvesIn(Lower(u)).value;
    ScaleSpelled(Lower(w));
    var c := WordCoefficient(u);
    CoefficientRead([], c, w);
    NothingSummed();
    assert GroupWords([]) + [u] + [w] == [u, w];
    if h > 0 { HalvesWorth(h, WordFor(w).magnitude); }
  }

  lemma HalvesWorth(h: nat, m: Magnitude)
    requires h > 0
    ensures RoundHalfUp(0.0 + Scaled(h as real / 2.0, m)) == h * Unit(m) / 2
  {
    match m {
      case Thousand => HalvesWhole(h, 1000, m);
      case Myriad => HalvesWhole(h, 10000, m);
      case Million => HalvesWhole(h, 1000000, m);
      case Billion => HalvesWhole(h, 1000000000, m);
    }
  }

  lemma HalvesWhole(h: nat, unit: nat, m: Magnitude)
    requires h > 0 && unit % 2 == 0 && Base(m) == unit as real && Unit(m) == unit
    ensures RoundHalfUp(0.0 + Scaled(h as real / 2.0, m)) == h * Unit(m) / 2
  {
    var k := unit / 2;
    assert unit == 2 * k;
    assert h * unit / 2 == h * k by { assert h * unit == 2 * (h * k); }
    assert h as real / 2.0 * (unit as real) == (h * k) as real;
    assert RoundHalfUp((h * k) as real) == h * k;
  }

  // ----- what may stand behind them -------------------------------------------------------------

  lemma OneGroupOf(n: Text, w: Text)
    requires IsNumeral(n) && IsWord(w) && ScaleIn(Lower(w)) > 0
    ensures var gs := [Group(n, w)];
            AreGroups(gs) && GroupWords(gs) == [n, w] && ReadSum(gs) == Multiple(Counted(ValueOf(n)), ScaleIn(Lower(w)))
            && (SomeCount(gs) <==> ValueOf(n) != 0.0) && LastUnit(gs) == ScaleIn(Lower(w))
            && NounsOf(gs) == (if NounIn(Lower(w)).Some? then {NounIn(Lower(w)).value} else {})
            && (Abbreviates(gs) <==> ScaleIn(Lower(w)) >= 1000000 && NounIn(Lower(w)).None?)
  {
    hide WordOf, Scaled, Multiple, ValueOf, IsNumeral, ScaleIn, NounIn, Unit, NounsOf, GroupWords, ReadSum, SomeCount;
    ScaleSpelled(Lower(w));
    var g := Group(n, w);
    OneGroupSum(g);
    OneNounOf(g);
    WorthScaled(ValueOf(n), WordFor(w).magnitude);
  }

  lemma OneNounOf(g: Group)
    requires IsGroup(g)
    ensures AreGroups([g]) && NounsOf([g]) == if WordFor(g.scale).noun.Some? then {WordFor(g.scale).noun.value} else {}
  {
    hide IsNumeral, WordOf;
    assert [g][0] == g && [g][1..] == [];
    NoNouns();
  }

  /** A numeral behind the scale, in any spelling: one of eight stands for hundreds of the scale, if that is
      a million or more and no slang; any other makes the amount ambiguous, and nothing is found. */
  lemma NumeralBehindScale(n: Text, w: Text, u: Text)
    requires IsNumeral(n) && IsWord(w) && ScaleIn(Lower(w)) > 0
    requires IsWord(u) && WordFor(u).Ones?
    ensures var text, d, scale := Join([n, w] + [u]), TailIn(Lower(u)), ScaleIn(Lower(w));
            var v := RoundHalfUp(Multiple(Counted(ValueOf(n)), scale) + (d * (scale / 10)) as real);
            Amounts(text)
            == if d > 0 && scale >= 1000000 && NounIn(Lower(w)).None? then [Match(v, text, 0, |text|)] else []
  {
    hide WordOf, Scaled, Multiple, ValueOf, IsNumeral, ScaleIn, NounIn, Unit, NounsOf, GroupWords, ReadSum,
      SomeCount, Amounts, Join, RoundHalfUp, HalvesIn, TailIn, Abbreviates, IsGroup, IsSpokenTail, WithTenths;
    var gs := [Group(n, w)];
    OneGroupOf(n, w);
    TailSpelled(Lower(u));
    TrailingNumeral(gs, u);
    TailWorth(gs, WordFor(u).digit);
  }

  lemma TailSpelled(low: string)
    requires WordOf(low).Ones?
    ensures TailIn(low) == if IsSpokenTail(WordOf(low)) then WordOf(low).digit else 0
    ensures TailIn(low) > 0 <==> IsSpokenTail(WordOf(low))
  {
    hide WordOf, TailIn, HalvesIn;
    OnlyTheseCount(low);
    CountSpelled(low);
  }

  lemma TailWorth(gs: seq<Group>, d: nat)
    requires gs != [] && AreGroups(gs)
    ensures WithTenths(gs, d) == RoundHalfUp(ReadSum(gs) + (d * (LastUnit(gs) / 10)) as real)
  {
    hide IsGroup, ReadSum, RoundHalfUp, Unit, MagnitudeOf;
  }

  lemma NamSpelled(low: string)
    requires WordOf(low).Ones?
    ensures IsNam(WordOf(low)) <==> low == "năm"
  {
    hide BIG_SCALES, TENS, FILLERS, ONES;
    if low in BIG_SCALES { ScaleListed(low); }
    if low in TENS { TensListed(low); }
    if low in ONES { NamListed(low); }
  }

  lemma NamListed(low: string)
    requires low in ONES
    ensures IsNam(ONES[low]) <==> low == "năm"
  {}

  lemma DigitSpelled(low: string)
    requires WordOf(low).Ones?
    ensures HalvesIn(low) == Some(2 * WordOf(low).digit)
  {
    hide WordOf, TailIn, HalvesIn;
    OnlyTheseCount(low);
    CountSpelled(low);
  }

  /** A numeral with "trăm" behind the scale: hundreds of the scale for the eight, where the scale allows it,
      and for "năm" behind every scale; plain hundreds for the others. */
  lemma HundredsBehindScale(n: Text, w: Text, u: Text, hundred: Text)
    requires IsNumeral(n) && IsWord(w) && ScaleIn(Lower(w)) > 0
    requires IsWord(u) && WordFor(u).Ones? && IsWord(hundred) && HalvesIn(Lower(hundred)) == Some(200)
    ensures var text, scale, h := Join([n, w] + [u, hundred]), ScaleIn(Lower(w)), HalvesIn(Lower(u));
            h.Some?
            && var d := h.value / 2;
               var high := (TailIn(Lower(u)) > 0 && scale >= 1000000 && NounIn(Lower(w)).None?) || Lower(u) == "năm";
               var more := if high then d * (scale / 10) else d * 100;
               Amounts(text)
               == [Match(RoundHalfUp(Multiple(Counted(ValueOf(n)), scale) + more as real), text, 0, |text|)]
  {
    hide WordOf, Scaled, Multiple, ValueOf, IsNumeral, ScaleIn, NounIn, Unit, NounsOf, GroupWords, ReadSum,
      SomeCount, Amounts, Join, RoundHalfUp, HalvesIn, TailIn, Abbreviates, IsGroup, IsSpokenTail, WithTenths, IsNam;
    var gs := [Group(n, w)];
    OneGroupOf(n, w);
    TailSpelled(Lower(u));
    NamSpelled(Lower(u));
    DigitSpelled(Lower(u));
    CountSpelled(Lower(hundred));
    NumeralOfHundreds(gs, u, hundred);
    TailWorth(gs, WordFor(u).digit);
    PlainWorth(gs, WordFor(u).digit);
  }

  lemma PlainWorth(gs: seq<Group>, d: nat)
    requires AreGroups(gs)
    ensures WithHundreds(gs, d as real) == RoundHalfUp(ReadSum(gs) + (d * 100) as real)
  {
    hide IsGroup, ReadSum, RoundHalfUp;
    assert d as real * 100.0 == (d * 100) as real;
  }

  lemma RuoiIsHalves()
    ensures WordOf("rưỡi").Halves?
  {}

  /** "rưỡi" adds half of the scale. */
  lemma HalfBehindScale(n: Text, w: Text, u: Text)
    requires IsNumeral(n) && IsWord(w) && ScaleIn(Lower(w)) > 0 && IsWord(u) && Lower(u) == "rưỡi"
    ensures var text, scale := Join([n, w] + [u]), ScaleIn(Lower(w));
            var v := RoundHalfUp(Multiple(Counted(ValueOf(n)), scale) + (scale / 2) as real);
            Amounts(text) == [Match(v, text, 0, |text|)]
  {
    hide WordOf, Scaled, Multiple, ValueOf, IsNumeral, ScaleIn, NounIn, Unit, NounsOf, GroupWords, ReadSum,
      SomeCount, Amounts, Join, RoundHalfUp, Abbreviates, IsGroup;
    OneGroupOf(n, w);
    RuoiIsHalves();
    HalfTail([Group(n, w)], u);
  }

  /** What "củ" counts when it is a tuber. */
  predicate NamesTuber(low: string) {
    low == "cải" || low == "hành" || low == "gừng" || low == "ớt" || low == "khoai" || low == "sắn" || low == "mì"
    || low == "mía" || low == "tỏi" || low == "nghệ" || low == "sả" || low == "riềng" || low == "sen"
    || low == "ấu" || low == "dong" || low == "năng" || low == "từ" || low == "chuối" || low == "đậu"
    || low == "lạc"
  }

  /** What "chai" counts when it is a bottle. */
  predicate NamesBottle(low: string) {
    low == "nước" || low == "dầu" || low == "bia" || low == "mắm" || low == "tương" || low == "rượu"
    || low == "sữa" || low == "xăng" || low == "dấm" || low == "mật" || low == "thuốc" || low == "coca"
    || low == "sting"
  }

  lemma TubersListed(low: string)
    ensures low in TUBERS <==> NamesTuber(low)
  {}

  lemma BottlesListed(low: string)
    ensures low in BOTTLED <==> NamesBottle(low)
    ensures NamesBottle(low) ==> low !in TUBERS
  {}

  lemma ObjectSpelled(low: string)
    requires WordOf(low).Plain?
    ensures WordOf(low).objectOf
         == if NamesTuber(low) then Some(Tuber) else if NamesBottle(low) then Some(Bottle) else None
    ensures NamesBottle(low) ==> !NamesTuber(low)
  {
    hide ONES, TENS, BIG_SCALES, FILLERS, TUBERS, BOTTLED, NamesTuber, NamesBottle;
    TubersListed(low);
    BottlesListed(low);
    if low in ONES { NumeralListed(low); }
    if low in TENS { TensListed(low); }
    if low in BIG_SCALES { ScaleListed(low); }
  }

  /** A plain word behind a numeral and a scale: only behind "củ" a tuber and behind "chai" a bottle make the
      scale a thing that is counted ("5 củ cải", "2 chai nước"). */
  lemma ThingBehindScale(n: Text, w: Text, p: Text)
    requires IsNumeral(n) && ValueOf(n) != 0.0 && IsWord(w) && ScaleIn(Lower(w)) > 0
    requires IsWord(p) && WordFor(p).Plain?
    ensures var thing := (Lower(w) == "củ" && NamesTuber(Lower(p))) || (Lower(w) == "chai" && NamesBottle(Lower(p)));
            var a := Join([n, w]);
            Amounts(Join([n, w] + [p]))
            == if thing then [] else [Match(RoundHalfUp(Multiple(ValueOf(n), ScaleIn(Lower(w)))), a, 0, |a|)]
  {
    hide WordOf, Scaled, Multiple, ValueOf, IsNumeral, ScaleIn, Unit, NounsOf, GroupWords, ReadSum, SomeCount,
      Amounts, Join, RoundHalfUp, Abbreviates, IsGroup, Lower, NamesTuber, NamesBottle;
    var gs := [Group(n, w)];
    OneGroupOf(n, w);
    ObjectSpelled(Lower(p));
    WordBehindGroups(gs, p);
    assert Counted(ValueOf(n)) == ValueOf(n);
  }

  /** "5 củ cải" and "2 chai nước" are no amounts, "5 củ nước" is one. */
  lemma RootsAndBottles(n: Text)
    requires IsNumeral(n) && ValueOf(n) != 0.0
    ensures Amounts(Join([n, Written("củ")] + [Written("cải")])) == []
    ensures Amounts(Join([n, Written("chai")] + [Written("nước")])) == []
    ensures Amounts(Join([n, Written("củ")] + [Written("nước")])) != []
  {
    hide WordOf, Amounts, Join, IsNumeral, ValueOf, RoundHalfUp;
    LowerWritten("củ");
    LowerWritten("cải");
    LowerWritten("chai");
    LowerWritten("nước");
    CaiIsPlain();
    NuocIsPlain();
    ThingBehindScale(n, Written("củ"), Written("cải"));
    ThingBehindScale(n, Written("chai"), Written("nước"));
    ThingBehindScale(n, Written("củ"), Written("nước"));
  }

  lemma CaiIsPlain()
    ensures WordOf("cải").Plain?
  {}

  lemma NuocIsPlain()
    ensures WordOf("nước").Plain?
  {}

  /** The words behind which a number is a code, a count or an address. */
  predicate IsCodeWord(low: string) {
    low == "nhà" || low == "số" || low == "lượng" || low == "mã" || low == "đường" || low == "ngõ" || low == "hẻm"
    || low == "cổng" || low == "phòng" || low == "sđt" || low == "điện" || low == "thoại" || low == "sim"
  }

  lemma NumberOfThing(w: Text, n: Text)
    requires IsWord(w) && IsCodeWord(Lower(w)) && IsNumeral(n)
    ensures Amounts(Join([w, n])) == []
  {
    hide WordOf, Amounts, Join, IsNumeral, IsCodeWord;
    CodeWordListed(Lower(w));
    IdentifierGuards(w, n);
  }

  /** All other plain words leave the amounts behind them alone: "mỗi đơn 5000". */
  lemma NumberOfOther(w: Text, t: Text)
    requires IsWord(w) && WordFor(w).Plain? && !IsCodeWord(Lower(w))
    ensures Amounts(w + [BLANK] + t) == ShiftMatches(Amounts(t), |w| + 1)
  {
    hide WordOf, Amounts, IsCodeWord, RestsOnDigits;
    OnlyCodeWords(Lower(w));
    PlainInFront(w, t);
  }

  lemma OnlyCodeWords(low: string)
    requires WordOf(low).Plain? && !IsCodeWord(low)
    ensures !WordOf(low).identifier
  {
    hide ONES, TENS, BIG_SCALES, FILLERS, ID_CONTEXT_WORDS, IsCodeWord;
    IdentifiersListed(low);
    if low in ONES { NumeralListed(low); }
    if low in TENS { TensListed(low); }
    if low in BIG_SCALES { ScaleListed(low); }
  }

  lemma IdentifiersListed(low: string)
    ensures low in ID_CONTEXT_WORDS <==> IsCodeWord(low)
  {}

  lemma CodeWordListed(low: string)
    requires IsCodeWord(low)
    ensures WordOf(low).Plain? && WordOf(low).identifier
  {
    hide ONES, TENS, BIG_SCALES, FILLERS, ID_CONTEXT_WORDS, IsCodeWord;
    CodeIsNoNumeral(low);
    CodeIsNoScale(low);
    CodeIsNoOther(low);
  }

  lemma CodeIsNoNumeral(low: string)
    requires IsCodeWord(low)
    ensures low !in ONES
  {}

  lemma CodeIsNoScale(low: string)
    requires IsCodeWord(low)
    ensures low !in BIG_SCALES
  {}

  lemma CodeIsNoOther(low: string)
    requires IsCodeWord(low)
    ensures low !in TENS && low !in FILLERS && low != "trăm" && low != "rưỡi" && low != "nửa" && low in ID_CONTEXT_WORDS
  {}
}
