/** Which words count as a name behind a title, and so make the title go. */
module KinshipNames {
  import opened Text
  import opened Vocabulary
  import opened Words
  import opened Kinship
  import opened KinshipTwice

  /** The particles and function words that are never names. */
  predicate IsParticle(low: string) {
    low == "ơi" || low == "à" || low == "ạ" || low == "vâng" || low == "dạ" || low == "ừ" || low == "thì"
    || low == "là" || low == "có" || low == "không" || low == "chưa" || low == "đã" || low == "vừa" || low == "mới"
    || low == "sẽ" || low == "đang" || low == "rồi" || low == "của" || low == "cho" || low == "và" || low == "với"
    || low == "này" || low == "đó" || low == "kia" || low == "gì" || low == "sao" || low == "ai" || low == "nào"
    || low == "bao" || low == "nhiêu" || low == "mấy" || low == "hết" || low == "cả" || low == "ở" || low == "tại"
    || low == "đi" || low == "đến" || low == "về" || low == "lên" || low == "ra" || low == "vào"
  }

  /** The verbs and nouns of the trade. */
  predicate IsTradeWord(low: string) {
    low == "trả" || low == "thanh" || low == "toán" || low == "thu" || low == "nợ" || low == "ghi" || low == "bán"
    || low == "chịu" || low == "mua" || low == "nhập" || low == "xuất" || low == "giao" || low == "lấy"
    || low == "đặt" || low == "hỏi" || low == "tiền" || low == "hàng" || low == "cám" || low == "kho"
    || low == "đơn" || low == "giá" || low == "công" || low == "tồn" || low == "kiểm" || low == "còn"
    || low == "trừ" || low == "cọc" || low == "ứng" || low == "trước" || low == "bù" || low == "cấn"
    || low == "gửi" || low == "chốt" || low == "tạo" || low == "xem" || low == "tra" || low == "muốn"
    || low == "cần" || low == "được" || low == "bị" || low == "phải" || low == "nên"
  }

  /** The words behind which a title stays: the words of an amount other than the numerals, "mười" and
      "linh"; the numeral "không"; the particles and the words of the trade. */
  predicate IsNoName(w: Text) {
    var low := Lower(w);
    match WordFor(w)
    case Ones(digit, _) => digit == 0
    case Tens(_) => low != "mười"
    case Filler => low != "linh"
    case Plain(_, _) => IsParticle(low) || IsTradeWord(low)
    case _ => true
  }

  // ----- the word lists against each other ------------------------------------------------------

  lemma ScalesAreNoTitles(low: string)
    requires low in BIG_SCALES
    ensures low !in KINSHIP_TITLES
  {
    hide BIG_SCALES, KINSHIP_TITLES;
    ScaleLetters(low);
    if low in KINSHIP_TITLES { TitleHead(low); }
  }

  lemma ScaleLetters(low: string)
    requires low in BIG_SCALES
    ensures low != ""
            && (low[0] == 'n' || low[0] == 'k' || low[0] == 'v' || (low[0] == 't' && |low| > 1 && low[1] != 'h')
                || low == "củ" || low == "chai")
  {}

  lemma TitleHead(low: string)
    requires low in KINSHIP_TITLES
    ensures low != "" && low[0] != 'n' && low[0] != 'k' && low[0] != 'v'
    ensures low[0] == 't' && |low| > 1 ==> low[1] == 'h'
    ensures low != "củ" && low != "chai"
  {}

  lemma ScalesAreNoNicknames(low: string)
    requires low in BIG_SCALES
    ensures low !in NICKNAMES && low != "linh"
  {}

  lemma SmallWords(low: string)
    requires low in TENS || low == "trăm" || low in FILLERS || low == "rưỡi" || low == "nửa"
    ensures low !in KINSHIP_TITLES && (low in NICKNAMES <==> low == "mười") && (low == "mười" ==> low !in FILLERS)
    ensures low == "linh" ==> low !in TENS
  {}

  lemma OnesWords(low: string)
    requires low in ONES
    ensures low == "không" || low in NICKNAMES || low == "một" || low == "bốn"
    ensures ONES[low].Ones? && (ONES[low].digit == 0 <==> low == "không") && low != "linh"
  {}

  lemma NicknamesAreNumerals(low: string)
    requires low in NICKNAMES
    ensures low in ONES || low in TENS
  {}

  lemma KhongIsNoName()
    ensures "không" !in NICKNAMES && "không" !in KINSHIP_TITLES && "không" in NON_NAME_WORDS
  {
    hide TRADE_WORDS;
  }

  lemma MotAndBon(low: string)
    requires low == "một" || low == "bốn"
    ensures !IsQuantityWord(low) && low !in NON_NAME_WORDS
  {
    hide BIG_SCALES, TENS, NON_NAME_WORDS, FILLERS, PARTICLES, TRADE_WORDS;
    NoScales(low);
    NoParticles(low);
    NoTradeWords(low);
    NonNames(low);
  }

  lemma NonNames(low: string)
    ensures low in NON_NAME_WORDS <==> low in PARTICLES || low in TRADE_WORDS
  {
    hide PARTICLES, TRADE_WORDS;
  }

  lemma NoScales(low: string)
    requires low == "một" || low == "bốn"
    ensures low !in BIG_SCALES && low !in TENS && low !in FILLERS
  {}

  lemma NoParticles(low: string)
    requires low == "một" || low == "bốn"
    ensures low !in PARTICLES
  {}

  lemma NoTradeWords(low: string)
    requires low == "một" || low == "bốn"
    ensures low !in TRADE_WORDS
  {}

  lemma ListedIsNoPlain(low: string)
    ensures WordOf(low).Plain? ==> low !in ONES && !IsQuantityWord(low)
    ensures low in ONES ==> WordOf(low) == ONES[low] && ONES[low].Ones?
    ensures WordOf(low).Ones? ==> low in ONES
    ensures WordOf(low).Tens? ==> low in TENS
    ensures WordOf(low).Filler? ==> low in FILLERS
    ensures WordOf(low).Scale? ==> low in BIG_SCALES
    ensures WordOf(low).Hundred? ==> low == "trăm"
    ensures WordOf(low).Halves? ==> low == "rưỡi"
    ensures WordOf(low).Half? ==> low == "nửa"
  {}

  lemma ParticlesListed(low: string)
    ensures low in PARTICLES <==> IsParticle(low)
  {}

  lemma TradeListed(low: string)
    ensures low in TRADE_WORDS <==> IsTradeWord(low)
  {}

  lemma ParticlesAreNoTitles(low: string)
    requires IsParticle(low)
    ensures low !in KINSHIP_TITLES
  {}

  lemma TradeIsNoTitle(low: string)
    requires IsTradeWord(low)
    ensures low !in KINSHIP_TITLES
  {
    hide KINSHIP_TITLES, IsTradeWord;
    if |low| == 3 { ThreeLettersNoTitle(low); } else { OtherLengthNoTitle(low); }
  }

  lemma ThreeLettersNoTitle(low: string)
    requires IsTradeWord(low) && |low| == 3
    ensures low !in KINSHIP_TITLES
  {
    hide KINSHIP_TITLES;
    if low in KINSHIP_TITLES { ThreeLetterTitles(low); }
  }

  lemma ThreeLetterTitles(low: string)
    requires low in KINSHIP_TITLES && |low| == 3
    ensures low in ["anh", "chị", "chú", "bác", "ông", "cậu", "con"]
  {}

  lemma OtherLengthNoTitle(low: string)
    requires IsTradeWord(low) && |low| != 3
    ensures low !in KINSHIP_TITLES
  {}

  lemma FunctionWords(low: string)
    ensures low in NON_NAME_WORDS <==> IsParticle(low) || IsTradeWord(low)
    ensures low in NON_NAME_WORDS ==> low !in KINSHIP_TITLES
  {
    hide NON_NAME_WORDS, PARTICLES, TRADE_WORDS, KINSHIP_TITLES, IsParticle, IsTradeWord;
    NonNames(low);
    ParticlesListed(low);
    TradeListed(low);
    if IsParticle(low) { ParticlesAreNoTitles(low); }
    if IsTradeWord(low) { TradeIsNoTitle(low); }
  }

  lemma NameOrNot(w: Text)
    ensures LooksLikeName(w) <==> !IsNoName(w)
  {
    hide ONES, TENS, BIG_SCALES, FILLERS, NICKNAMES, KINSHIP_TITLES, NON_NAME_WORDS, WordOf,
      IsParticle, IsTradeWord;
    var low := Lower(w);
    ListedIsNoPlain(low);
    match WordFor(w)
    case Ones(_, _) =>
      OnesWords(low);
      KhongIsNoName();
      if low == "một" || low == "bốn" { MotAndBon(low); }
    case Scale(_, _) =>
      ScalesAreNoTitles(low);
      ScalesAreNoNicknames(low);
    case Plain(_, _) =>
      FunctionWords(low);
      if low in NICKNAMES { NicknamesAreNumerals(low); }
    case _ =>
      SmallWords(low);
  }

  // ----- the law --------------------------------------------------------------------------------

  /** A title at the head of a sentence stays, and the sentence as it is, exactly if the word behind it
      is no name; otherwise it goes, and perhaps others with it. */
  lemma TitleGoes(ws: seq<Text>, gs: seq<Text>)
    requires IsSentence(ws, gs) && |ws| > 1 && IsTitle(ws[0])
    ensures var once := Strip(SetOut(ws, gs));
            if IsNoName(ws[1]) then once == Stripped(SetOut(ws, gs), [])
            else once.titles != [] && once.titles[0] == ws[0]
  {
    hide Strip, SetOut, Narrow, LooksLikeName, IsNoName, IsTitle;
    NameOrNot(ws[1]);
    SentenceStripped(ws, gs);
  }

  /** The titles of the documentation, each of which goes before a name. */
  const SPOKEN_TITLES: seq<string> := [
    "anh", "chị", "em", "cô", "chú", "bác", "ông", "bà", "cậu", "dì", "mợ", "thím", "dượng", "bố", "ba", "má", "mẹ",
    "con", "cháu", "cụ", "thầy"
  ]

  lemma SpokenAreTitles(k: nat)
    requires k < |SPOKEN_TITLES|
    ensures SPOKEN_TITLES[k] in KINSHIP_TITLES
  {}

  lemma TitlesAreSpoken(low: string)
    requires low in KINSHIP_TITLES
    ensures low in SPOKEN_TITLES
  {}

  /** A title in any case before a last word that is a name and no title of its own: the name is left. */
  lemma OneTitle(t: Text, g: Text, w: Text)
    requires IsSentence([t, w], [g]) && Lower(t) in SPOKEN_TITLES
    ensures Strip(t + g + w) == if IsNoName(w) then Stripped(t + g + w, []) else Stripped(w, [t])
  {
    hide Strip, Narrow, LooksLikeName, IsNoName, KINSHIP_TITLES, SPOKEN_TITLES;
    var k :| 0 <= k < |SPOKEN_TITLES| && SPOKEN_TITLES[k] == Lower(t);
    SpokenAreTitles(k);
    NameOrNot(w);
    SentenceStripped([t, w], [g]);
    assert [t, w][1..] == [w] && [t, w][..1] == [t] && [g][1..] == [] && Narrow([]) == [];
    SpacedOne([w], []);
    SpacedMore([t, w], [g]);
  }

  /** Only the titles of the documentation go: any other first word keeps the sentence as it is. */
  lemma OnlySpokenTitles(ws: seq<Text>, gs: seq<Text>)
    requires IsSentence(ws, gs) && Lower(ws[0]) !in SPOKEN_TITLES
    ensures Strip(SetOut(ws, gs)) == Stripped(SetOut(ws, gs), [])
  {
    hide Strip, SetOut, Narrow, LooksLikeName, KINSHIP_TITLES, SPOKEN_TITLES;
    if IsTitle(ws[0]) { TitlesAreSpoken(Lower(ws[0])); }
    SentenceStripped(ws, gs);
  }

  // ----- examples -------------------------------------------------------------------------------

  /** "ba trăm nghìn" keeps its "ba"; so does "ba mươi nghìn". */
  lemma AmountKeepsBa(second: string)
    requires second == "trăm" || second == "mươi" || second == "nghìn" || second == "rưỡi" || second == "lẻ"
    ensures var ws := [Written("ba"), Written(second), Written("nghìn")];
            Strip(SetOut(ws, [[BLANK], [BLANK]])) == Stripped(SetOut(ws, [[BLANK], [BLANK]]), [])
  {
    hide Strip, SetOut, WordOf, KINSHIP_TITLES;
    LowerWritten("ba");
    LowerWritten(second);
    LowerWritten("nghìn");
    BaIsTitle();
    AmountWord(second);
    BlankGaps();
    TitleGoes([Written("ba"), Written(second), Written("nghìn")], [[BLANK], [BLANK]]);
  }

  lemma BaIsTitle()
    ensures "ba" in KINSHIP_TITLES
  {}

  lemma AmountWord(low: string)
    requires low == "trăm" || low == "mươi" || low == "nghìn" || low == "rưỡi" || low == "lẻ"
    ensures var w := WordOf(low);
            w.Hundred? || w.Scale? || w.Halves? || (w.Tens? && low != "mười") || (w.Filler? && low != "linh")
    ensures low != ""
  {}

  /** "Con Linh" and "Thím Mười" lose the title: there "linh" and "mười" are names. */
  lemma NamesOfAmounts(t: Text, second: string)
    requires t != [] && All(t, Letters) && Lower(t) in SPOKEN_TITLES && (second == "linh" || second == "mười")
    ensures Strip(t + [BLANK] + Written(second)) == Stripped(Written(second), [t])
  {
    hide Strip, WordOf, SPOKEN_TITLES;
    LowerWritten(second);
    LinhAndMuoi();
    BlankGaps();
    OneTitle(t, [BLANK], Written(second));
  }

  /** "Cô ơi cho hỏi" and "ba ghi nợ" stay as they are: a particle or a word of the trade is no name. */
  lemma ParticlesAreNoNames(ws: seq<Text>, gs: seq<Text>)
    requires IsSentence(ws, gs) && |ws| > 1 && (Lower(ws[1]) == "ơi" || Lower(ws[1]) == "ghi")
    ensures Strip(SetOut(ws, gs)) == Stripped(SetOut(ws, gs), [])
  {
    hide Strip, SetOut, WordOf, Narrow, LooksLikeName, KINSHIP_TITLES, NON_NAME_WORDS;
    OiAndGhi(Lower(ws[1]));
    SentenceStripped(ws, gs);
    if IsTitle(ws[0]) { TitleGoes(ws, gs); }
  }

  lemma OiAndGhi(low: string)
    requires low == "ơi" || low == "ghi"
    ensures WordOf(low).Plain? && (IsParticle(low) || IsTradeWord(low))
  {
    hide WordOf;
    OiAndGhiPlain(low);
  }

  lemma OiAndGhiPlain(low: string)
    requires low == "ơi" || low == "ghi"
    ensures WordOf(low).Plain?
  {}

  lemma LinhAndMuoi()
    ensures WordOf("linh").Filler? && WordOf("mười").Tens?
  {}
}
