/** The dictionary as it is grouped: for every label the phrases that mean it. The table that is
    searched, which lists them longest first, holds exactly these, each under its own label. */
module SynonymGroups {
  import opened Phrases
  import opened Synonyms

  const PAYMENT: set<seq<string>> := {
    ["thu", "tiền", "hàng"], ["thanh", "toán", "nợ"], ["trả", "tiền", "hàng"], ["thu", "tiền"], ["thanh", "toán"],
    ["trả", "tiền"], ["trả", "nợ"], ["trả", "hết"], ["thu", "nợ"], ["payment"]
  }

  const CREDIT_SALE: set<seq<string>> := {["ghi", "nợ"], ["bán", "chịu"], ["cho", "nợ"], ["bán", "nợ"], ["credit"]}

  const RECEIVABLE: set<seq<string>> := {
    ["công", "nợ"], ["còn", "nợ"], ["nợ", "bao", "nhiêu"], ["dư", "nợ"], ["nợ", "cũ"], ["residual"], ["outstanding"]
  }

  const PURCHASE: set<seq<string>> := {
    ["nhập", "hàng"], ["mua", "hàng"], ["lấy", "hàng"], ["nhập", "kho"], ["mua", "vào"], ["purchase"]
  }

  const DELIVERY: set<seq<string>> := {
    ["xuất", "kho"], ["giao", "hàng"], ["gửi", "hàng"], ["xuất", "hàng"], ["giao", "đơn"], ["delivery"]
  }

  const SALE: set<seq<string>> := {["chốt", "đơn"], ["bán", "lẻ"], ["sales", "order"], ["sale"]}

  const SALES_ORDER: set<seq<string>> := {["tạo", "đơn"], ["lên", "đơn"]}

  const STOCK_LEVEL: set<seq<string>> := {
    ["kiểm", "kho"], ["tồn", "kho"], ["còn", "tồn"], ["còn", "hàng"], ["stock"]
  }

  const UNIT_PRICE: set<seq<string>> := {
    ["hỏi", "giá"], ["xem", "giá"], ["đơn", "giá"], ["giá", "bán"], ["giá", "bao", "nhiêu"], ["unit", "price"]
  }

  const ADVANCE_PAYMENT: set<seq<string>> := {
    ["đặt", "cọc"], ["ứng", "trước"], ["tạm", "ứng"], ["trả", "trước"], ["advance"]
  }

  const OFFSET: set<seq<string>> := {["cấn", "trừ"], ["bù", "trừ"], ["trừ", "nợ"], ["offset"]}

  function PhrasesOf(intent: string): set<seq<string>> {
    if intent == "payment" then PAYMENT
    else if intent == "credit_sale" then CREDIT_SALE
    else if intent == "receivable" then RECEIVABLE
    else if intent == "purchase" then PURCHASE
    else if intent == "delivery" then DELIVERY
    else if intent == "sale" then SALE
    else if intent == "sales_order" then SALES_ORDER
    else if intent == "stock_level" then STOCK_LEVEL
    else if intent == "unit_price" then UNIT_PRICE
    else if intent == "advance_payment" then ADVANCE_PAYMENT
    else if intent == "offset" then OFFSET
    else {}
  }
  lemma Grouped1(k: nat)
    requires k < |TERMS_1|
    ensures TERMS_1[k].words in PhrasesOf(TERMS_1[k].intent)
  {}

  lemma Grouped2(k: nat)
    requires k < |TERMS_2|
    ensures TERMS_2[k].words in PhrasesOf(TERMS_2[k].intent)
  {}

  lemma Grouped3(k: nat)
    requires k < |TERMS_3|
    ensures TERMS_3[k].words in PhrasesOf(TERMS_3[k].intent)
  {}

  lemma Grouped4(k: nat)
    requires k < |TERMS_4|
    ensures TERMS_4[k].words in PhrasesOf(TERMS_4[k].intent)
  {}

  lemma Grouped5(k: nat)
    requires k < |TERMS_5|
    ensures TERMS_5[k].words in PhrasesOf(TERMS_5[k].intent)
  {}

  lemma Grouped6(k: nat)
    requires k < |TERMS_6|
    ensures TERMS_6[k].words in PhrasesOf(TERMS_6[k].intent)
  {}

  predicate InSomePart(t: Term) {
    t in TERMS_1 || t in TERMS_2 || t in TERMS_3 || t in TERMS_4 || t in TERMS_5 || t in TERMS_6
  }

  lemma PartsMakeTable(t: Term)
    ensures InSomePart(t) <==> t in TERMS
  {
    hide TERMS_1, TERMS_2, TERMS_3, TERMS_4, TERMS_5, TERMS_6;
  }

  lemma Listed1(ws: seq<string>)
    ensures ws in PAYMENT ==> InSomePart(Term(ws, "payment"))
    ensures ws in CREDIT_SALE ==> InSomePart(Term(ws, "credit_sale"))
  {}

  lemma Listed2(ws: seq<string>)
    ensures ws in RECEIVABLE ==> InSomePart(Term(ws, "receivable"))
    ensures ws in PURCHASE ==> InSomePart(Term(ws, "purchase"))
    ensures ws in SALE ==> InSomePart(Term(ws, "sale"))
  {}

  lemma Listed3(ws: seq<string>)
    ensures ws in DELIVERY ==> InSomePart(Term(ws, "delivery"))
    ensures ws in SALES_ORDER ==> InSomePart(Term(ws, "sales_order"))
    ensures ws in STOCK_LEVEL ==> InSomePart(Term(ws, "stock_level"))
  {}

  lemma Listed4(ws: seq<string>)
    ensures ws in UNIT_PRICE ==> InSomePart(Term(ws, "unit_price"))
    ensures ws in ADVANCE_PAYMENT ==> InSomePart(Term(ws, "advance_payment"))
    ensures ws in OFFSET ==> InSomePart(Term(ws, "offset"))
  {}

  /** The table holds the phrases of the groups, each under the label of its group, and no others. */
  lemma TableIsGroups(t: Term)
    ensures t in TERMS <==> t.words in PhrasesOf(t.intent)
  {
    hide TERMS, TERMS_1, TERMS_2, TERMS_3, TERMS_4, TERMS_5, TERMS_6, InSomePart, PAYMENT, CREDIT_SALE, RECEIVABLE,
      PURCHASE, DELIVERY, SALE, SALES_ORDER, STOCK_LEVEL, UNIT_PRICE, ADVANCE_PAYMENT, OFFSET;
    PartsMakeTable(t);
    if t.words in PhrasesOf(t.intent) {
      Listed1(t.words);
      Listed2(t.words);
      Listed3(t.words);
      Listed4(t.words);
    } else if t in TERMS {
      PartsGrouped(t);
    }
  }

  lemma PartsGrouped(t: Term)
    requires InSomePart(t)
    ensures t.words in PhrasesOf(t.intent)
  {
    hide TERMS_1, TERMS_2, TERMS_3, TERMS_4, TERMS_5, TERMS_6, PhrasesOf;
    if k :| 0 <= k < |TERMS_1| && TERMS_1[k] == t { Grouped1(k); }
    if k :| 0 <= k < |TERMS_2| && TERMS_2[k] == t { Grouped2(k); }
    if k :| 0 <= k < |TERMS_3| && TERMS_3[k] == t { Grouped3(k); }
    if k :| 0 <= k < |TERMS_4| && TERMS_4[k] == t { Grouped4(k); }
    if k :| 0 <= k < |TERMS_5| && TERMS_5[k] == t { Grouped5(k); }
    if k :| 0 <= k < |TERMS_6| && TERMS_6[k] == t { Grouped6(k); }
  }

  // ----- no phrase has two labels ---------------------------------------------------------------

  lemma OnlyCreditSaleSalesOrder(ws: seq<string>, intent: string)
    requires ws in PhrasesOf(intent)
    ensures ws in CREDIT_SALE ==> intent == "credit_sale"
    ensures ws in SALES_ORDER ==> intent == "sales_order"
  {}

  lemma OnlyReceivable(ws: seq<string>, intent: string)
    requires ws in PhrasesOf(intent)
    ensures ws in RECEIVABLE ==> intent == "receivable"
  {}

  lemma OnlyPurchase(ws: seq<string>, intent: string)
    requires ws in PhrasesOf(intent)
    ensures ws in PURCHASE ==> intent == "purchase"
  {}

  lemma OnlyDelivery(ws: seq<string>, intent: string)
    requires ws in PhrasesOf(intent)
    ensures ws in DELIVERY ==> intent == "delivery"
  {}

  lemma OnlySaleStockLevel(ws: seq<string>, intent: string)
    requires ws in PhrasesOf(intent)
    ensures ws in SALE ==> intent == "sale"
    ensures ws in STOCK_LEVEL ==> intent == "stock_level"
  {}

  lemma OnlyUnitPrice(ws: seq<string>, intent: string)
    requires ws in PhrasesOf(intent)
    ensures ws in UNIT_PRICE ==> intent == "unit_price"
  {}

  lemma OnlyAdvancePayment(ws: seq<string>, intent: string)
    requires ws in PhrasesOf(intent)
    ensures ws in ADVANCE_PAYMENT ==> intent == "advance_payment"
  {}

  lemma OnlyOffset(ws: seq<string>, intent: string)
    requires ws in PhrasesOf(intent)
    ensures ws in OFFSET ==> intent == "offset"
  {}

  /** No phrase means two things. */
  lemma OneMeaning(ws: seq<string>, intent: string, other: string)
    requires ws in PhrasesOf(intent) && ws in PhrasesOf(other)
    ensures intent == other
  {
    hide PAYMENT, CREDIT_SALE, RECEIVABLE, PURCHASE, DELIVERY, SALE, SALES_ORDER, STOCK_LEVEL, UNIT_PRICE,
      ADVANCE_PAYMENT, OFFSET;
    OtherMeaning(ws, intent, other);
    OtherMeaning(ws, other, intent);
  }

  lemma OtherMeaning(ws: seq<string>, intent: string, other: string)
    requires ws in PhrasesOf(intent) && ws in PhrasesOf(other)
    ensures intent == "payment" || intent == other
  {
    hide PAYMENT, CREDIT_SALE, RECEIVABLE, PURCHASE, DELIVERY, SALE, SALES_ORDER, STOCK_LEVEL, UNIT_PRICE,
      ADVANCE_PAYMENT, OFFSET;
    OnlyCreditSaleSalesOrder(ws, other);
    OnlyReceivable(ws, other);
    OnlyPurchase(ws, other);
    OnlyDelivery(ws, other);
    OnlySaleStockLevel(ws, other);
    OnlyUnitPrice(ws, other);
    OnlyAdvancePayment(ws, other);
    OnlyOffset(ws, other);
  }
}
