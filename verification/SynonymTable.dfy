/** The dictionary itself: it meets what the rewriting theorem asks of a table, its phrases stand longest
    first, and so the longest phrase wins wherever several stand at the same place. */
module SynonymTable {
  import opened Text
  import opened Phrases
  import opened Synonyms
  import opened SynonymFacts

  // ----- the longest phrase wins ----------------------------------------------------------------

  /** Of two phrases at the same place, one continues the other. */
  lemma {:induction false} Nested(us: seq<string>, ws: seq<string>, s: Text)
    requires us != [] && ws != [] && |us| <= |ws|
    requires ReachOf(us, s).Hit? && ReachOf(ws, s).Hit?
    ensures us == ws[..|us|] && ReachOf(us, s).len <= ReachOf(ws, s).len
    decreases |us|
  {
    hide ReachOf;
    var m := PrefixLen(s, WordChars);
    FirstWord(us, s);
    FirstWord(ws, s);
    RunLength(us[0], s, m);
    RunLength(ws[0], s, m);
    assert us[0] == ws[0] by {
      forall k | 0 <= k < m ensures us[0][k] == ws[0][k] { assert s[k].letter == us[0][k]; }
    }
    ReachLen(us, s);
    ReachLen(ws, s);
    if |us| > 1 {
      var rest := s[m..][PrefixLen(s[m..], Spaces)..];
      Nested(us[1..], ws[1..], rest);
      assert us == [us[0]] + us[1..] && ws[..|us|] == [ws[0]] + ws[1..][..|us| - 1];
    }
  }

  predicate LongestFirst(ts: seq<Term>)
    requires AreTerms(ts)
  {
    forall i, j | 0 <= i < j < |ts| :: |Phrase(ts[i].words)| >= |Phrase(ts[j].words)|
  }

  lemma {:induction false} Shorter(us: seq<string>, ws: seq<string>)
    requires us != [] && |us| < |ws| && us == ws[..|us|]
    ensures |Phrase(us)| < |Phrase(ws)|
  {
    if |us| > 1 {
      assert us[1..] == ws[1..][..|us| - 1];
      Shorter(us[1..], ws[1..]);
    }
  }

  lemma {:induction false} TakenIsLongest(ts: seq<Term>, s: Text, u: Term)
    requires AreTerms(ts) && LongestFirst(ts) && u in ts && IsTerm(u) && ReachOf(u.words, s).Hit?
    ensures var t := FirstAt(ts, s); t.Some? && |Phrase(u.words)| <= |Phrase(t.value.words)|
    decreases |ts|
  {
    hide ReachOf, Phrase;
    assert IsTerm(ts[0]);
    if ReachOf(ts[0].words, s).Hit? {
      var j :| 0 <= j < |ts| && ts[j] == u;
    } else {
      TakenIsLongest(ts[1..], s, u);
    }
  }

  /** Every other phrase at the same place is the beginning of the one that is taken. */
  lemma LongestWins(ts: seq<Term>, s: Text, u: Term)
    requires AreTerms(ts) && LongestFirst(ts) && u in ts && IsTerm(u) && ReachOf(u.words, s).Hit?
    ensures var t := TermAt(ts, s, false);
            t.Some? && |u.words| <= |t.value.words| && u.words == t.value.words[..|u.words|]
            && ReachOf(u.words, s).len <= ReachOf(t.value.words, s).len
  {
    hide ReachOf, Phrase, FirstAt;
    TakenIsLongest(ts, s, u);
    var t := FirstAt(ts, s).value;
    if |u.words| > |t.words| {
      Nested(t.words, u.words, s);
      Shorter(t.words, u.words);
    } else {
      Nested(u.words, t.words, s);
    }
  }

  // ----- the table ------------------------------------------------------------------------------

  /** A part of the table: sound, longest first, with phrases between `lo` and `hi` characters. */
  predicate IsPart(ts: seq<Term>, hi: nat, lo: nat) {
    IsSound(ts, LABELS) && LongestFirst(ts)
    && forall k | 0 <= k < |ts| :: lo <= |Phrase(ts[k].words)| <= hi
  }

  lemma Parts(a: seq<Term>, b: seq<Term>, hi: nat, mid: nat, lo: nat)
    requires IsPart(a, hi, mid) && IsPart(b, mid, lo) && lo <= mid <= hi
    ensures IsPart(a + b, hi, lo)
  {
    hide Phrase, IsSoundTerm, IsTerm;
    forall k | 0 <= k < |a + b| ensures IsTerm((a + b)[k]) {
      assert k < |a| || (a + b)[k] == b[k - |a|];
    }
  }

  /** A short word is no label. */
  lemma NoLabel(w: string)
    requires |w| <= 5 && (|w| == 4 ==> w[0] != 's')
    ensures w !in LABELS
  {}

  predicate IsEntry(t: Term, len: nat) {
    IsSoundTerm(t, LABELS) && |Phrase(t.words)| == len
  }

  lemma OneWord(w: string, intent: string)
    requires IsPlainWord(w) && intent != "" && intent in LABELS && (w in LABELS ==> intent == w)
    ensures IsEntry(Term([w], intent), |w|)
  {}

  lemma TwoWords(v: string, w: string, intent: string)
    requires IsPlainWord(v) && |v| <= 5 && (|v| == 4 ==> v[0] != 's')
    requires IsPlainWord(w) && |w| <= 5 && (|w| == 4 ==> w[0] != 's')
    requires intent != "" && intent in LABELS
    ensures IsEntry(Term([v, w], intent), |v| + 1 + |w|)
  {
    hide LABELS;
    NoLabel(v);
    NoLabel(w);
    assert [v, w][1..] == [w] && Phrase([v, w]) == v + " " + w;
    var t := Term([v, w], intent);
    assert forall k | 0 <= k < |t.words| :: t.words[k] == v || t.words[k] == w;
  }

  lemma ThreeWords(u: string, v: string, w: string, intent: string)
    requires IsPlainWord(u) && |u| <= 5 && (|u| == 4 ==> u[0] != 's')
    requires IsPlainWord(v) && |v| <= 5 && (|v| == 4 ==> v[0] != 's')
    requires IsPlainWord(w) && |w| <= 5 && (|w| == 4 ==> w[0] != 's')
    requires intent != "" && intent in LABELS
    ensures IsEntry(Term([u, v, w], intent), |u| + 1 + |v| + 1 + |w|)
  {
    hide LABELS;
    NoLabel(u);
    NoLabel(v);
    NoLabel(w);
    assert [u, v, w][1..] == [v, w] && [v, w][1..] == [w];
    assert Phrase([v, w]) == v + " " + w;
    assert Phrase([u, v, w]) == u + " " + Phrase([v, w]);
    var t := Term([u, v, w], intent);
    assert forall k | 0 <= k < |t.words| :: t.words[k] == u || t.words[k] == v || t.words[k] == w;
  }

  lemma PartOf(ts: seq<Term>, lens: seq<nat>, hi: nat, lo: nat)
    requires |ts| == |lens| && forall k | 0 <= k < |ts| :: IsEntry(ts[k], lens[k]) && lo <= lens[k] <= hi
    requires forall i, j | 0 <= i < j < |lens| :: lens[i] >= lens[j]
    ensures IsPart(ts, hi, lo)
  {
    hide LABELS, Phrase;
    assert forall k | 0 <= k < |ts| :: IsEntry(ts[k], lens[k]) && IsTerm(ts[k]);
  }

  lemma Entries1a()
    ensures IsEntry(TERMS_1[0], 13)
    ensures IsEntry(TERMS_1[1], 13)
    ensures IsEntry(TERMS_1[2], 13)
    ensures IsEntry(TERMS_1[3], 13)
    ensures IsEntry(TERMS_1[4], 12)
  {
    hide IsEntry;
    ThreeWords("thu", "tiền", "hàng", "payment");
    ThreeWords("thanh", "toán", "nợ", "payment");
    ThreeWords("trả", "tiền", "hàng", "payment");
    ThreeWords("giá", "bao", "nhiêu", "unit_price");
    ThreeWords("nợ", "bao", "nhiêu", "receivable");
  }

  lemma Entries1b()
    ensures IsEntry(TERMS_1[5], 11)
    ensures IsEntry(TERMS_1[6], 11)
    ensures IsEntry(TERMS_1[7], 10)
    ensures IsEntry(TERMS_1[8], 10)
    ensures IsEntry(TERMS_1[9], 9)
  {
    hide IsEntry;
    OneWord("outstanding", "receivable");
    TwoWords("sales", "order", "sale");
    TwoWords("thanh", "toán", "payment");
    TwoWords("unit", "price", "unit_price");
    TwoWords("nhập", "hàng", "purchase");
  }

  lemma Part1()
    ensures IsPart(TERMS_1, 13, 9)
  {
    hide IsEntry, IsPart;
    Entries1a();
    Entries1b();
    PartOf(TERMS_1, [13, 13, 13, 13, 12, 11, 11, 10, 10, 9], 13, 9);
  }

  lemma Entries2a()
    ensures IsEntry(TERMS_2[0], 9)
    ensures IsEntry(TERMS_2[1], 9)
    ensures IsEntry(TERMS_2[2], 9)
    ensures IsEntry(TERMS_2[3], 9)
    ensures IsEntry(TERMS_2[4], 8)
  {
    hide IsEntry;
    TwoWords("giao", "hàng", "delivery");
    TwoWords("xuất", "hàng", "delivery");
    TwoWords("ứng", "trước", "advance_payment");
    TwoWords("trả", "trước", "advance_payment");
    TwoWords("thu", "tiền", "payment");
  }

  lemma Entries2b()
    ensures IsEntry(TERMS_2[5], 8)
    ensures IsEntry(TERMS_2[6], 8)
    ensures IsEntry(TERMS_2[7], 8)
    ensures IsEntry(TERMS_2[8], 8)
    ensures IsEntry(TERMS_2[9], 8)
  {
    hide IsEntry;
    TwoWords("trả", "tiền", "payment");
    TwoWords("bán", "chịu", "credit_sale");
    OneWord("residual", "receivable");
    TwoWords("mua", "hàng", "purchase");
    TwoWords("lấy", "hàng", "purchase");
  }

  lemma Part2()
    ensures IsPart(TERMS_2, 9, 8)
  {
    hide IsEntry, IsPart;
    Entries2a();
    Entries2b();
    PartOf(TERMS_2, [9, 9, 9, 9, 8, 8, 8, 8, 8, 8], 9, 8);
  }

  lemma Entries3a()
    ensures IsEntry(TERMS_3[0], 8)
    ensures IsEntry(TERMS_3[1], 8)
    ensures IsEntry(TERMS_3[2], 8)
    ensures IsEntry(TERMS_3[3], 8)
    ensures IsEntry(TERMS_3[4], 8)
  {
    hide IsEntry;
    TwoWords("nhập", "kho", "purchase");
    OneWord("purchase", "purchase");
    TwoWords("xuất", "kho", "delivery");
    TwoWords("gửi", "hàng", "delivery");
    TwoWords("giao", "đơn", "delivery");
  }

  lemma Entries3b()
    ensures IsEntry(TERMS_3[5], 8)
    ensures IsEntry(TERMS_3[6], 8)
    ensures IsEntry(TERMS_3[7], 8)
    ensures IsEntry(TERMS_3[8], 8)
    ensures IsEntry(TERMS_3[9], 7)
  {
    hide IsEntry;
    OneWord("delivery", "delivery");
    TwoWords("chốt", "đơn", "sale");
    TwoWords("kiểm", "kho", "stock_level");
    TwoWords("còn", "hàng", "stock_level");
    TwoWords("trả", "hết", "payment");
  }

  lemma Part3()
    ensures IsPart(TERMS_3, 8, 7)
  {
    hide IsEntry, IsPart;
    Entries3a();
    Entries3b();
    PartOf(TERMS_3, [8, 8, 8, 8, 8, 8, 8, 8, 8, 7], 8, 7);
  }

  lemma Entries4a()
    ensures IsEntry(TERMS_4[0], 7)
    ensures IsEntry(TERMS_4[1], 7)
    ensures IsEntry(TERMS_4[2], 7)
    ensures IsEntry(TERMS_4[3], 7)
    ensures IsEntry(TERMS_4[4], 7)
  {
    hide IsEntry;
    OneWord("payment", "payment");
    TwoWords("công", "nợ", "receivable");
    TwoWords("mua", "vào", "purchase");
    TwoWords("tạo", "đơn", "sales_order");
    TwoWords("lên", "đơn", "sales_order");
  }

  lemma Entries4b()
    ensures IsEntry(TERMS_4[5], 7)
    ensures IsEntry(TERMS_4[6], 7)
    ensures IsEntry(TERMS_4[7], 7)
    ensures IsEntry(TERMS_4[8], 7)
    ensures IsEntry(TERMS_4[9], 7)
  {
    hide IsEntry;
    TwoWords("tồn", "kho", "stock_level");
    TwoWords("còn", "tồn", "stock_level");
    TwoWords("hỏi", "giá", "unit_price");
    TwoWords("xem", "giá", "unit_price");
    TwoWords("đơn", "giá", "unit_price");
  }

  lemma Part4()
    ensures IsPart(TERMS_4, 7, 7)
  {
    hide IsEntry, IsPart;
    Entries4a();
    Entries4b();
    PartOf(TERMS_4, [7, 7, 7, 7, 7, 7, 7, 7, 7, 7], 7, 7);
  }

  lemma Entries5a()
    ensures IsEntry(TERMS_5[0], 7)
    ensures IsEntry(TERMS_5[1], 7)
    ensures IsEntry(TERMS_5[2], 7)
    ensures IsEntry(TERMS_5[3], 7)
    ensures IsEntry(TERMS_5[4], 7)
  {
    hide IsEntry;
    TwoWords("giá", "bán", "unit_price");
    TwoWords("đặt", "cọc", "advance_payment");
    TwoWords("tạm", "ứng", "advance_payment");
    OneWord("advance", "advance_payment");
    TwoWords("cấn", "trừ", "offset");
  }

  lemma Entries5b()
    ensures IsEntry(TERMS_5[5], 6)
    ensures IsEntry(TERMS_5[6], 6)
    ensures IsEntry(TERMS_5[7], 6)
    ensures IsEntry(TERMS_5[8], 6)
    ensures IsEntry(TERMS_5[9], 6)
  {
    hide IsEntry;
    TwoWords("trả", "nợ", "payment");
    TwoWords("thu", "nợ", "payment");
    TwoWords("ghi", "nợ", "credit_sale");
    TwoWords("cho", "nợ", "credit_sale");
    TwoWords("bán", "nợ", "credit_sale");
  }

  lemma Part5()
    ensures IsPart(TERMS_5, 7, 6)
  {
    hide IsEntry, IsPart;
    Entries5a();
    Entries5b();
    PartOf(TERMS_5, [7, 7, 7, 7, 7, 6, 6, 6, 6, 6], 7, 6);
  }

  lemma Entries6a()
    ensures IsEntry(TERMS_6[0], 6)
    ensures IsEntry(TERMS_6[1], 6)
    ensures IsEntry(TERMS_6[2], 6)
    ensures IsEntry(TERMS_6[3], 6)
    ensures IsEntry(TERMS_6[4], 6)
  {
    hide IsEntry;
    OneWord("credit", "credit_sale");
    TwoWords("còn", "nợ", "receivable");
    TwoWords("bán", "lẻ", "sale");
    TwoWords("bù", "trừ", "offset");
    TwoWords("trừ", "nợ", "offset");
  }

  lemma Entries6b()
    ensures IsEntry(TERMS_6[5], 6)
    ensures IsEntry(TERMS_6[6], 5)
    ensures IsEntry(TERMS_6[7], 5)
    ensures IsEntry(TERMS_6[8], 5)
    ensures IsEntry(TERMS_6[9], 4)
  {
    hide IsEntry;
    OneWord("offset", "offset");
    TwoWords("dư", "nợ", "receivable");
    TwoWords("nợ", "cũ", "receivable");
    OneWord("stock", "stock_level");
    OneWord("sale", "sale");
  }

  lemma Part6()
    ensures IsPart(TERMS_6, 6, 4)
  {
    hide IsEntry, IsPart;
    Entries6a();
    Entries6b();
    PartOf(TERMS_6, [6, 6, 6, 6, 6, 6, 5, 5, 5, 4], 6, 4);
  }

  /** The dictionary is sound and its phrases stand longest first. */
  lemma TableIsSound()
    ensures IsSound(TERMS, LABELS) && LongestFirst(TERMS)
  {
    hide IsPart;
    Part1(); Part2(); Part3(); Part4(); Part5(); Part6();
    Parts(TERMS_1, TERMS_2, 13, 9, 8);
    Parts(TERMS_1 + TERMS_2, TERMS_3, 13, 8, 7);
    Parts(TERMS_1 + TERMS_2 + TERMS_3, TERMS_4, 13, 7, 7);
    Parts(TERMS_1 + TERMS_2 + TERMS_3 + TERMS_4, TERMS_5, 13, 7, 6);
    Parts(TERMS_1 + TERMS_2 + TERMS_3 + TERMS_4 + TERMS_5, TERMS_6, 13, 6, 4);
    AllParts();
  }

  lemma AllParts()
    requires IsPart(TERMS, 13, 4)
    ensures IsSound(TERMS, LABELS) && LongestFirst(TERMS)
  {
    hide TERMS;
  }

  /** `map_synonyms` with the real dictionary is idempotent. */
  lemma MappingTwice(text: Text)
    ensures AreTerms(TERMS)
    ensures var once := MapWith(TERMS, text).text; MapWith(TERMS, once).text == once
  {
    hide TERMS;
    TableIsSound();
    MapTwice(TERMS, LABELS, text);
  }
}
