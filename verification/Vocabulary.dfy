/** The word lists of the money parser.

    The evaluator never looks at the letters of a word, only at which list holds it, so a word is
    classified once.  `WordOf` is that look-up on the lower-cased word. */
module Vocabulary {
  import opened Text

  datatype Option<+T> = None | Some(value: T)

  /** A decimal that may be missing. */
  datatype Quantity = Absent | Is(value: real) {
    function Or(default: real): real { if Absent? then default else value }
  }

  /** The four values a big scale word can stand for. */
  datatype Magnitude = Thousand | Myriad | Million | Billion

  function Base(m: Magnitude): real {
    match m
    case Thousand => 1000.0
    case Myriad => 10000.0
    case Million => 1000000.0
    case Billion => 1000000000.0
  }

  /** What a slang scale word is when it is not a scale: a tuber ("củ") or a bottle ("chai"). */
  datatype Noun = Tuber | Bottle

  /** A word as the evaluator sees it.
      - `Ones`: a numeral 0..9; `variant` marks "mốt", "tư" and "lăm".
      - `Tens`: "mười", "mươi", "chục"; the last does not join to digits.
      - `Scale`: a big scale word, with the noun it also is, if any.
      - `Plain`: every other word; `identifier` words announce a code or an address, and
        `objectOf` is the slang scale whose noun reading the word confirms. */
  datatype Word =
    | Ones(digit: Digit, variant: bool)
    | Tens(joins: bool)
    | Hundred
    | Filler
    | Halves
    | Half
    | Scale(magnitude: Magnitude, noun: Option<Noun>)
    | Plain(identifier: bool, objectOf: Option<Noun>)

  /** `NUMBER_WORDS` */
  predicate IsNumberWord(w: Word) { !w.Plain? }

  /** `_SCALE_WORDS` */
  predicate IsScaleWord(w: Word) { w.Tens? || w.Hundred? || w.Scale? }

  /** `_SUSPICIOUS_AFTER_DIGITS` */
  predicate JoinsDigits(w: Word) {
    w.Ones? || (w.Tens? && w.joins) || w.Hundred? || w.Filler? || w.Halves? || w.Half?
  }

  /** The numerals that may stand alone for the hundreds of a scale: "một triệu hai". */
  predicate IsSpokenTail(w: Word) { w.Ones? && !w.variant && w.digit != 0 && w.digit != 5 }

  /** "năm": five, but also a name. */
  predicate IsNam(w: Word) { w == Ones(5, false) }

  const ONES: map<string, Word> := map[
    "không" := Ones(0, false),
    "một" := Ones(1, false), "mốt" := Ones(1, true),
    "hai" := Ones(2, false),
    "ba" := Ones(3, false),
    "bốn" := Ones(4, false), "tư" := Ones(4, true),
    "năm" := Ones(5, false), "lăm" := Ones(5, true),
    "sáu" := Ones(6, false),
    "bảy" := Ones(7, false),
    "tám" := Ones(8, false),
    "chín" := Ones(9, false)
  ]

  const TENS: map<string, Word> := map["mười" := Tens(true), "mươi" := Tens(true), "chục" := Tens(false)]

  const FILLERS: set<string> := {"linh", "lẻ", "lẽ"}

  const BIG_SCALES: map<string, Word> := map[
    "nghìn" := Scale(Thousand, None), "nghin" := Scale(Thousand, None),
    "ngàn" := Scale(Thousand, None), "ngan" := Scale(Thousand, None),
    "k" := Scale(Thousand, None),
    "vạn" := Scale(Myriad, None), "van" := Scale(Myriad, None),
    "triệu" := Scale(Million, None), "trieu" := Scale(Million, None),
    "tr" := Scale(Million, None),
    "củ" := Scale(Million, Some(Tuber)),
    "trẹo" := Scale(Million, None),
    "chai" := Scale(Million, Some(Bottle)),
    "tỷ" := Scale(Billion, None), "tỉ" := Scale(Billion, None)
  ]

  const ID_CONTEXT_WORDS: set<string> := {
    "nhà", "số", "lượng", "mã", "đường", "ngõ", "hẻm", "cổng", "phòng", "sđt", "điện", "thoại", "sim"
  }

  const TUBERS: set<string> := {
    "cải", "hành", "gừng", "ớt", "khoai", "sắn", "mì", "mía", "tỏi", "nghệ", "sả", "riềng", "sen",
    "ấu", "dong", "năng", "từ", "chuối", "đậu", "lạc"
  }

  const BOTTLED: set<string> := {
    "nước", "dầu", "bia", "mắm", "tương", "rượu", "sữa", "xăng", "dấm", "mật", "thuốc", "coca", "sting"
  }

  /** The scale words that may be written against a number ("10tr"). */
  const GLUED_SCALES: set<string> := {
    "nghìn", "nghin", "ngàn", "ngan", "triệu", "trieu", "tỷ", "tỉ", "tr", "k", "vạn", "van"
  }

  /** The currency suffixes made of letters; the sign ₫ is the other one. */
  const CURRENCY_WORDS: set<string> := {"vnđ", "vnd", "đồng", "đ"}

  const CURRENCY_SIGN: Ch := Sym('₫')

  function WordOf(lower: string): Word {
    if lower in ONES then ONES[lower]
    else if lower in TENS then TENS[lower]
    else if lower == "trăm" then Hundred
    else if lower in FILLERS then Filler
    else if lower == "rưỡi" then Halves
    else if lower == "nửa" then Half
    else if lower in BIG_SCALES then BIG_SCALES[lower]
    else Plain(lower in ID_CONTEXT_WORDS,
               if lower in TUBERS then Some(Tuber) else if lower in BOTTLED then Some(Bottle) else None)
  }

  predicate IsCurrencyWord(lower: string) { lower in CURRENCY_WORDS }

  predicate IsGluedScale(lower: string) { lower in GLUED_SCALES }
}
