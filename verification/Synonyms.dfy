/** The domain synonym mapper (`map_synonyms`): phrases of a fixed dictionary are rewritten to their
    intent label. */
module Synonyms {
  import opened Text
  import opened Vocabulary
  import opened Phrases

  // `_ORDERED_TERMS`: the phrases of all groups, longest first.

  const TERMS_1: seq<Term> := [
    Term(["thu", "tiền", "hàng"], "payment"),
    Term(["thanh", "toán", "nợ"], "payment"),
    Term(["trả", "tiền", "hàng"], "payment"),
    Term(["giá", "bao", "nhiêu"], "unit_price"),
    Term(["nợ", "bao", "nhiêu"], "receivable"),
    Term(["outstanding"], "receivable"),
    Term(["sales", "order"], "sale"),
    Term(["thanh", "toán"], "payment"),
    Term(["unit", "price"], "unit_price"),
    Term(["nhập", "hàng"], "purchase")
  ]

  const TERMS_2: seq<Term> := [
    Term(["giao", "hàng"], "delivery"),
    Term(["xuất", "hàng"], "delivery"),
    Term(["ứng", "trước"], "advance_payment"),
    Term(["trả", "trước"], "advance_payment"),
    Term(["thu", "tiền"], "payment"),
    Term(["trả", "tiền"], "payment"),
    Term(["bán", "chịu"], "credit_sale"),
    Term(["residual"], "receivable"),
    Term(["mua", "hàng"], "purchase"),
    Term(["lấy", "hàng"], "purchase")
  ]

  const TERMS_3: seq<Term> := [
    Term(["nhập", "kho"], "purchase"),
    Term(["purchase"], "purchase"),
    Term(["xuất", "kho"], "delivery"),
    Term(["gửi", "hàng"], "delivery"),
    Term(["giao", "đơn"], "delivery"),
    Term(["delivery"], "delivery"),
    Term(["chốt", "đơn"], "sale"),
    Term(["kiểm", "kho"], "stock_level"),
    Term(["còn", "hàng"], "stock_level"),
    Term(["trả", "hết"], "payment")
  ]

  const TERMS_4: seq<Term> := [
    Term(["payment"], "payment"),
    Term(["công", "nợ"], "receivable"),
    Term(["mua", "vào"], "purchase"),
    Term(["tạo", "đơn"], "sales_order"),
    Term(["lên", "đơn"], "sales_order"),
    Term(["tồn", "kho"], "stock_level"),
    Term(["còn", "tồn"], "stock_level"),
    Term(["hỏi", "giá"], "unit_price"),
    Term(["xem", "giá"], "unit_price"),
    Term(["đơn", "giá"], "unit_price")
  ]

  const TERMS_5: seq<Term> := [
    Term(["giá", "bán"], "unit_price"),
    Term(["đặt", "cọc"], "advance_payment"),
    Term(["tạm", "ứng"], "advance_payment"),
    Term(["advance"], "advance_payment"),
    Term(["cấn", "trừ"], "offset"),
    Term(["trả", "nợ"], "payment"),
    Term(["thu", "nợ"], "payment"),
    Term(["ghi", "nợ"], "credit_sale"),
    Term(["cho", "nợ"], "credit_sale"),
    Term(["bán", "nợ"], "credit_sale")
  ]

  const TERMS_6: seq<Term> := [
    Term(["credit"], "credit_sale"),
    Term(["còn", "nợ"], "receivable"),
    Term(["bán", "lẻ"], "sale"),
    Term(["bù", "trừ"], "offset"),
    Term(["trừ", "nợ"], "offset"),
    Term(["offset"], "offset"),
    Term(["dư", "nợ"], "receivable"),
    Term(["nợ", "cũ"], "receivable"),
    Term(["stock"], "stock_level"),
    Term(["sale"], "sale")
  ]

  const TERMS: seq<Term> := TERMS_1 + TERMS_2 + TERMS_3 + TERMS_4 + TERMS_5 + TERMS_6

  const LABELS: set<string> := {
    "payment", "credit_sale", "receivable", "purchase", "delivery", "sale",
    "sales_order", "stock_level", "unit_price", "advance_payment", "offset"
  }

  // ----- rewriting ------------------------------------------------------------------------------

  /** A label as text: letters and underscores. */
  function LabelText(intent: string): (s: Text)
    ensures |s| == |intent|
  {
    seq(|intent|, k requires 0 <= k < |intent| => if intent[k] == '_' then Under else Let(intent[k], false))
  }

  /** A phrase found in the text. */
  datatype Found = Found(start: nat, end: nat, intent: string)

  /** The term that the search takes at the head of `s`. */
  function TermAt(ts: seq<Term>, s: Text, afterWord: bool): (t: Option<Term>)
    requires AreTerms(ts)
    ensures t.Some? ==> t.value in ts && IsTerm(t.value) && ReachOf(t.value.words, s).Hit?
  {
    if afterWord then None else FirstAt(ts, s)
  }

  /** The phrases found from position `pos` on, leftmost first, where `s` is what is left of the text
      and `afterWord` says that a word character stands before it. */
  function FoundFrom(ts: seq<Term>, s: Text, afterWord: bool, pos: nat): seq<Found>
    requires AreTerms(ts)
    decreases |s|
  {
    if s == [] then []
    else
      var t := TermAt(ts, s, afterWord);
      if t.Some? then
        var n := ReachOf(t.value.words, s).len;
        [Found(pos, pos + n, t.value.intent)] + FoundFrom(ts, s[n..], true, pos + n)
      else FoundFrom(ts, s[1..], IsWordChar(s[0]), pos + 1)
  }

  /** The text from `prev` on with the phrases found replaced by their labels. */
  function Spliced(text: Text, prev: nat, found: seq<Found>): Text
    decreases |found|
  {
    if found == [] then Slice(text, prev, |text|)
    else Slice(text, prev, found[0].start) + LabelText(found[0].intent) + Spliced(text, found[0].end, found[1..])
  }

  /** The texts and the intents of the phrases found. */
  datatype SynonymMatch = SynonymMatch(term: Text, canonical: string)

  function Reported(text: Text, found: seq<Found>): (ms: seq<SynonymMatch>)
    ensures |ms| == |found|
  {
    seq(|found|, k requires 0 <= k < |found| =>
      SynonymMatch(Slice(text, found[k].start, found[k].end), found[k].intent))
  }

  /** What `map_synonyms` returns: the rewritten text and the phrases it found. */
  datatype Mapped = Mapped(text: Text, matches: seq<SynonymMatch>)

  function MapWith(ts: seq<Term>, text: Text): Mapped
    requires AreTerms(ts)
  {
    var found := FoundFrom(ts, text, false, 0);
    if found == [] then Mapped(text, []) else Mapped(Spliced(text, 0, found), Reported(text, found))
  }

  lemma FoundUnfolds(ts: seq<Term>, s: Text, afterWord: bool, pos: nat)
    requires AreTerms(ts) && s != []
    ensures var t := TermAt(ts, s, afterWord);
            t.Some? ==>
              var n := ReachOf(t.value.words, s).len;
              0 < n <= |s| && s[n - 1].Let?
              && FoundFrom(ts, s, afterWord, pos)
              == [Found(pos, pos + n, t.value.intent)] + FoundFrom(ts, s[n..], true, pos + n)
    ensures TermAt(ts, s, afterWord).None? ==>
              FoundFrom(ts, s, afterWord, pos) == FoundFrom(ts, s[1..], IsWordChar(s[0]), pos + 1)
  {
    hide ReachOf, TermAt;
    var t := TermAt(ts, s, afterWord);
    if t.Some? { EndsInLetter(t.value, s); }
  }

  lemma FoundStep(ts: seq<Term>, text: Text, p: nat)
    requires AreTerms(ts) && p < |text|
    ensures var t := TermAt(ts, text[p..], AfterWord(text, p));
            t.Some? ==>
              var e := p + ReachOf(t.value.words, text[p..]).len;
              p < e <= |text|
              && FoundFrom(ts, text[p..], AfterWord(text, p), p)
              == [Found(p, e, t.value.intent)] + FoundFrom(ts, text[e..], AfterWord(text, e), e)
    ensures TermAt(ts, text[p..], AfterWord(text, p)).None? ==>
              FoundFrom(ts, text[p..], AfterWord(text, p), p)
              == FoundFrom(ts, text[p + 1..], AfterWord(text, p + 1), p + 1)
  {
    hide FoundFrom, ReachOf, TermAt;
    var s := text[p..];
    var t := TermAt(ts, s, AfterWord(text, p));
    FoundUnfolds(ts, s, AfterWord(text, p), p);
    if t.Some? {
      var n := ReachOf(t.value.words, s).len;
      assert s[n..] == text[p + n..] && s[n - 1] == text[p + n - 1];
    } else {
      assert s[1..] == text[p + 1..] && s[0] == text[p];
    }
  }

  /** The search loop: it jumps behind every match, and looks the text of the match up in the
      dictionary. A match that overlaps the last one or is not in the dictionary would be skipped. */
  method FindPhrases(ts: seq<Term>, text: Text) returns (found: seq<Found>)
    requires AreTerms(ts)
    ensures found == FoundFrom(ts, text, false, 0)
  {
    hide FoundFrom, TermAt, ReachOf, AfterWord, Lookup, Normal;
    found := [];
    var p, lastEnd := 0, 0;
    assert text[0..] == text;
    StartsFresh(text);
    while p < |text|
      invariant lastEnd <= p <= |text|
      invariant found + FoundFrom(ts, text[p..], AfterWord(text, p), p) == FoundFrom(ts, text, false, 0)
    {
      FoundStep(ts, text, p);
      var t := TermAt(ts, text[p..], AfterWord(text, p));
      if t.None? {
        p := p + 1;
        continue;
      }
      var start, end := p, p + ReachOf(t.value.words, text[p..]).len;
      p := end;
      MatchKnown(ts, text, start, end);
      if start < lastEnd {
        continue;
      }
      var canonical := Lookup(ts, Normal(text[start..end]));
      if canonical.None? {
        continue;
      }
      found := found + [Found(start, end, canonical.value)];
      lastEnd := end;
    }
    FoundNothing(ts, text[p..], AfterWord(text, p), p);
  }

  lemma MatchKnown(ts: seq<Term>, text: Text, start: nat, end: nat)
    requires AreTerms(ts) && start <= end <= |text|
    requires var t := TermAt(ts, text[start..], AfterWord(text, start));
             t.Some? && end == start + ReachOf(t.value.words, text[start..]).len
    ensures Lookup(ts, Normal(text[start..end])) == Some(TermAt(ts, text[start..], AfterWord(text, start)).value.intent)
  {
    hide ReachOf, Lookup, Normal, FirstAt;
    LookupFinds(ts, text[start..]);
    assert text[start..][..end - start] == text[start..end];
  }

  lemma FoundNothing(ts: seq<Term>, s: Text, afterWord: bool, pos: nat)
    requires AreTerms(ts) && s == []
    ensures FoundFrom(ts, s, afterWord, pos) == []
  {}

  /** The splicing loop. */
  method SpliceLabels(text: Text, found: seq<Found>) returns (joined: Text)
    ensures joined == Spliced(text, 0, found)
  {
    hide Slice, LabelText;
    joined := [];
    var prev, k := 0, 0;
    while k < |found|
      invariant k <= |found|
      invariant joined + Spliced(text, prev, found[k..]) == Spliced(text, 0, found)
    {
      joined := joined + Slice(text, prev, found[k].start) + LabelText(found[k].intent);
      prev := found[k].end;
      k := k + 1;
    }
    joined := joined + Slice(text, prev, |text|);
  }

  /** `map_synonyms` */
  method MapSynonyms(ts: seq<Term>, text: Text) returns (cleaned: Text, matches: seq<SynonymMatch>)
    requires AreTerms(ts)
    ensures Mapped(cleaned, matches) == MapWith(ts, text)
  {
    hide FoundFrom, Spliced;
    if text == [] {
      FoundNothing(ts, text, false, 0);
      return text, [];
    }
    var found := FindPhrases(ts, text);
    if found == [] {
      return text, [];
    }
    cleaned := SpliceLabels(text, found);
    matches := Reported(text, found);
  }
}
