/** The vocative stripper (`strip_kinship`): titles in front of a name are removed from the start of
    an utterance, and nowhere else. */
module Kinship {
  import opened Text
  import opened Vocabulary
  import opened Words

  const KINSHIP_TITLES: set<string> := {
    "anh", "chị", "em", "cô", "chú", "bác", "ông", "bà", "cậu", "dì", "mợ", "thím", "dượng", "bố", "ba", "má", "mẹ",
    "con", "cháu", "cụ", "thầy"
  }

  const NICKNAMES: set<string> := {
    "hai", "ba", "tư", "năm", "sáu", "bảy", "tám", "chín", "mười", "mốt", "lăm"
  }

  const PARTICLES: set<string> := {
    "ơi", "à", "ạ", "vâng", "dạ", "ừ", "thì", "là", "có", "không", "chưa", "đã", "vừa", "mới", "sẽ", "đang", "rồi",
    "của", "cho", "và", "với", "này", "đó", "kia", "gì", "sao", "ai", "nào", "bao", "nhiêu", "mấy", "hết", "cả", "ở",
    "tại", "đi", "đến", "về", "lên", "ra", "vào"
  }

  const TRADE_WORDS: set<string> := {
    "trả", "thanh", "toán", "thu", "nợ", "ghi", "bán", "chịu", "mua", "nhập", "xuất", "giao", "lấy", "đặt", "hỏi",
    "tiền", "hàng", "cám", "kho", "đơn", "giá", "công", "tồn", "kiểm", "còn", "trừ", "cọc", "ứng", "trước", "bù",
    "cấn", "gửi", "chốt", "tạo", "xem", "tra", "muốn", "cần", "được", "bị", "phải", "nên"
  }

  const NON_NAME_WORDS: set<string> := PARTICLES + TRADE_WORDS

  /** `_NOT_A_NAME` */
  predicate IsQuantityWord(low: string) {
    low in BIG_SCALES || low in TENS || low == "trăm" || low in FILLERS || low == "rưỡi" || low == "nửa"
  }

  /** `_looks_like_name` */
  predicate LooksLikeName(w: Text) {
    var low := Lower(w);
    if low in NICKNAMES then true
    else if low in KINSHIP_TITLES then true
    else if IsQuantityWord(low) then low == "linh"
    else low !in NON_NAME_WORDS
  }

  predicate IsTitle(w: Text) { Lower(w) in KINSHIP_TITLES }

  // ----- tokens ---------------------------------------------------------------------------------

  /** A run of letters or a run of digits, with its place in the text. */
  datatype Piece = Piece(text: Text, start: nat, end: nat)

  function RunClass(c: Ch): Class { if c.Let? then Letters else Digits }

  predicate IsAlnum(c: Ch) { c.Let? || c.Dig? }

  /** The pieces of a text from position `pos` on, where `s` is what is left of it. */
  function PiecesFrom(s: Text, pos: nat): seq<Piece>
    decreases |s|
  {
    if s == [] then []
    else if IsAlnum(s[0]) then
      var n := PrefixLen(s, RunClass(s[0]));
      [Piece(s[..n], pos, pos + n)] + PiecesFrom(s[n..], pos + n)
    else PiecesFrom(s[1..], pos + 1)
  }

  function Pieces(text: Text): seq<Piece> { PiecesFrom(text, 0) }

  // ----- which titles go ------------------------------------------------------------------------

  /** The first piece is a title that continues the cluster which ends at `frontier`, before a name. */
  predicate Qualifies(ps: seq<Piece>, frontier: nat)
    requires ps != []
  {
    IsTitle(ps[0].text) && ps[0].start <= frontier + 1
    && |ps| > 1 && !All(ps[1].text, Digits) && LooksLikeName(ps[1].text)
  }

  /** The pieces that the scan of the whole utterance removes, from the first of `ps` on. */
  function Removed(ps: seq<Piece>, frontier: nat): seq<Piece> {
    if ps == [] then []
    else if Qualifies(ps, frontier) then [ps[0]] + Removed(ps[1..], ps[0].end)
    else Removed(ps[1..], frontier)
  }

  /** The unbroken cluster of titles at the head of `ps`. */
  function Cluster(ps: seq<Piece>, frontier: nat): (cs: seq<Piece>)
    ensures |cs| <= |ps| && cs == ps[..|cs|]
    ensures cs != [] ==> |cs| < |ps|
  {
    if ps != [] && Qualifies(ps, frontier) then [ps[0]] + Cluster(ps[1..], ps[0].end) else []
  }

  // ----- the text without them ------------------------------------------------------------------

  /** The text from `prev` on, without the given pieces. */
  function CutOut(text: Text, prev: nat, gone: seq<Piece>): Text
    decreases |gone|
  {
    if gone == [] then Slice(text, prev, |text|)
    else Slice(text, prev, gone[0].start) + CutOut(text, gone[0].end, gone[1..])
  }

  /** Runs of two or more whitespace characters become one space. */
  function Collapse(s: Text): Text
    decreases |s|
  {
    if s == [] then []
    else
      var n := PrefixLen(s, Spaces);
      if n >= 2 then [BLANK] + Collapse(s[n..]) else [s[0]] + Collapse(s[1..])
  }

  function TrimRight(s: Text): Text {
    if s != [] && s[|s| - 1].Space? then TrimRight(s[..|s| - 1]) else s
  }

  function Trim(s: Text): Text { TrimRight(s[PrefixLen(s, Spaces)..]) }

  function TextsOf(ps: seq<Piece>): (ts: seq<Text>)
    ensures |ts| == |ps|
  {
    seq(|ps|, k requires 0 <= k < |ps| => ps[k].text)
  }

  /** What `strip_kinship` returns: the utterance without the titles, and the titles. */
  datatype Stripped = Stripped(text: Text, titles: seq<Text>)

  function Strip(text: Text): Stripped {
    var gone := Removed(Pieces(text), 0);
    if gone == [] then Stripped(text, []) else Stripped(Trim(Collapse(CutOut(text, 0, gone))), TextsOf(gone))
  }

  /** The scan over all the tokens of the utterance. */
  method FindTitles(tokens: seq<Piece>) returns (removals: seq<Piece>, titles: seq<Text>)
    ensures removals == Removed(tokens, 0)
    ensures titles == TextsOf(removals)
  {
    hide IsTitle, LooksLikeName, All;
    removals, titles := [], [];
    var frontier, idx := 0, 0;
    while idx < |tokens|
      invariant idx <= |tokens|
      invariant removals + Removed(tokens[idx..], frontier) == Removed(tokens, 0)
      invariant titles == TextsOf(removals)
    {
      var token := tokens[idx];
      idx := idx + 1;
      if !IsTitle(token.text) {
        continue;
      }
      if token.start > frontier + 1 {
        continue;
      }
      if idx == |tokens| || All(tokens[idx].text, Digits) {
        continue;
      }
      if !LooksLikeName(tokens[idx].text) {
        continue;
      }
      removals := removals + [token];
      titles := titles + [token.text];
      frontier := token.end;
    }
  }

  method Splice(text: Text, removals: seq<Piece>) returns (joined: Text)
    ensures joined == CutOut(text, 0, removals)
  {
    hide Slice;
    joined := [];
    var prev, k := 0, 0;
    while k < |removals|
      invariant k <= |removals|
      invariant joined + CutOut(text, prev, removals[k..]) == CutOut(text, 0, removals)
    {
      joined := joined + Slice(text, prev, removals[k].start);
      prev := removals[k].end;
      k := k + 1;
    }
    joined := joined + Slice(text, prev, |text|);
  }

  /** `strip_kinship` */
  method StripKinship(text: Text) returns (cleaned: Text, titles: seq<Text>)
    ensures Stripped(cleaned, titles) == Strip(text)
  {
    hide Removed, PiecesFrom, Collapse, Trim, CutOut;
    if text == [] {
      NothingGone(text);
      return text, [];
    }
    var removals;
    removals, titles := FindTitles(Pieces(text));
    if removals == [] {
      return text, [];
    }
    var joined := Splice(text, removals);
    cleaned := Trim(Collapse(joined));
  }

  lemma NothingGone(text: Text)
    requires text == []
    ensures Removed(Pieces(text), 0) == []
  {}

  // ----- the scan is the leading cluster --------------------------------------------------------

  /** Titles are words, not numbers. */
  lemma TitlesAreWords(w: Text)
    requires w != [] && All(w, Digits)
    ensures !IsTitle(w)
  {
    assert In(w[0], Digits);
    var low := Lower(w);
    assert low[0] <= '9';
    if low in KINSHIP_TITLES { TitleLetters(low); }
  }

  lemma TitleLetters(low: string)
    requires low in KINSHIP_TITLES
    ensures low != "" && low[0] > '9'
  {}

  lemma PiecesUnfold(s: Text, pos: nat)
    requires s != []
    ensures IsAlnum(s[0]) ==>
              var n := PrefixLen(s, RunClass(s[0]));
              n > 0 && PiecesFrom(s, pos) == [Piece(s[..n], pos, pos + n)] + PiecesFrom(s[n..], pos + n)
    ensures !IsAlnum(s[0]) ==> PiecesFrom(s, pos) == PiecesFrom(s[1..], pos + 1)
  {}

  /** Nothing more than one character behind the frontier is removed. */
  lemma {:induction false} FarStays(s: Text, pos: nat, frontier: nat)
    requires pos > frontier + 1
    ensures Removed(PiecesFrom(s, pos), frontier) == []
    decreases |s|
  {
    hide IsTitle, LooksLikeName, PiecesFrom;
    if s == [] {
      assert PiecesFrom(s, pos) == [] by { NoPieces(s, pos); }
    } else {
      PiecesUnfold(s, pos);
      if IsAlnum(s[0]) {
        var n := PrefixLen(s, RunClass(s[0]));
        FarStays(s[n..], pos + n, frontier);
      } else {
        FarStays(s[1..], pos + 1, frontier);
      }
    }
  }

  lemma NoPieces(s: Text, pos: nat)
    requires s == []
    ensures PiecesFrom(s, pos) == []
  {}

  /** A title behind which a digit is glued does not qualify. */
  lemma GluedTitle(s: Text, pos: nat, n: nat, frontier: nat)
    requires s != [] && IsAlnum(s[0]) && n == PrefixLen(s, RunClass(s[0])) && n < |s| && IsAlnum(s[n])
    ensures !Qualifies(PiecesFrom(s, pos), frontier)
  {
    hide IsTitle, LooksLikeName, PiecesFrom;
    PiecesUnfold(s, pos);
    if s[0].Dig? {
      TitlesAreWords(s[..n]);
    } else {
      PiecesUnfold(s[n..], pos + n);
    }
  }

  /** Behind the frontier, the scan removes exactly the cluster that follows it. */
  lemma {:induction false} ScanIsCluster(s: Text, pos: nat, frontier: nat)
    requires pos >= frontier
    requires pos == frontier && s != [] && IsAlnum(s[0]) ==> PrefixLen(s, RunClass(s[0])) > 1
    ensures Removed(PiecesFrom(s, pos), frontier) == Cluster(PiecesFrom(s, pos), frontier)
    decreases |s|
  {
    hide IsTitle, LooksLikeName, PiecesFrom, Qualifies;
    if s == [] {
      NoPieces(s, pos);
    } else {
      PiecesUnfold(s, pos);
      if IsAlnum(s[0]) {
        var n := PrefixLen(s, RunClass(s[0]));
        if Qualifies(PiecesFrom(s, pos), frontier) {
          if n < |s| && IsAlnum(s[n]) { GluedTitle(s, pos, n, frontier); }
          ScanIsCluster(s[n..], pos + n, pos + n);
        } else {
          FarStays(s[n..], pos + n, frontier);
        }
      } else {
        ScanIsCluster(s[1..], pos + 1, frontier);
      }
    }
  }

  /** The text opens with a single digit and, glued to it, a letter: "1anh Nam". */
  predicate OpensGlued(text: Text) { |text| > 1 && text[0].Dig? && text[1].Let? }

  /** Leading-cluster refinement: the scan of the whole utterance removes the cluster of titles at its
      head; only behind one digit glued to the text does it start at the second piece. */
  lemma OnlyTheHead(text: Text)
    ensures OpensGlued(text) ==> |Pieces(text)| > 1 && Removed(Pieces(text), 0) == Cluster(Pieces(text)[1..], 0)
    ensures !OpensGlued(text) ==> Removed(Pieces(text), 0) == Cluster(Pieces(text), 0)
  {
    hide IsTitle, LooksLikeName, PiecesFrom;
    if OpensGlued(text) {
      PiecesUnfold(text, 0);
      PrefixIs(text, Digits, 1);
      TitlesAreWords(text[..1]);
      PiecesUnfold(text[1..], 1);
      ScanIsCluster(text[1..], 1, 0);
    } else if text != [] && IsAlnum(text[0]) && PrefixLen(text, RunClass(text[0])) == 1 {
      PiecesUnfold(text, 0);
      var rest := text[1..];
      if Qualifies(Pieces(text), 0) {
        if |text| > 1 && IsAlnum(text[1]) { GluedTitle(text, 0, 1, 0); }
        ScanIsCluster(rest, 1, 1);
      } else {
        LetterThenDigit(text);
      }
    } else {
      ScanIsCluster(text, 0, 0);
    }
  }

  /** Behind a first piece of one character nothing is removed, if a digit or a gap follows it. */
  lemma LetterThenDigit(text: Text)
    requires text != [] && IsAlnum(text[0]) && PrefixLen(text, RunClass(text[0])) == 1 && !OpensGlued(text)
    ensures Removed(PiecesFrom(text[1..], 1), 0) == []
  {
    hide IsTitle, LooksLikeName, PiecesFrom;
    var rest := text[1..];
    if rest == [] {
      NoPieces(rest, 1);
    } else {
      PiecesUnfold(rest, 1);
      if IsAlnum(rest[0]) {
        assert !In(text[1], RunClass(text[0])) && rest[0].Dig?;
        var n := PrefixLen(rest, Digits);
        TitlesAreWords(rest[..n]);
        FarStays(rest[n..], 1 + n, 0);
      } else {
        FarStays(rest[1..], 2, 0);
      }
    }
  }
}
