/** The tokenizer of the money parser (`_TOKEN_RE`, `_parse_num_text`, `_tokenize`).

    Every alternative of the token pattern ends in a lookaround that forbids stopping inside a run
    of digits or letters, so each alternative is a scan over whole runs and the pattern's
    backtracking never changes the outcome. */
module Lexer {
  import opened Text
  import opened Vocabulary

  datatype Tok =
    | Num(text: Text, start: nat, end: nat, value: real, implied: Quantity)
    | Word(text: Text, start: nat, end: nat, word: Word)
    | Other(text: Text, start: nat, end: nat)

  // ----- `_NUM_BODY`: digits, 3-digit groups, a decimal part -----------------------------------

  /** The length of the longest sequence of separator-plus-exactly-three-digits groups. */
  function GroupsLen(s: Text): (n: nat)
    ensures n <= |s| && n % 4 == 0
  {
    if s != [] && IsSep(s[0]) && PrefixLen(s[1..], Digits) == 3 then 4 + GroupsLen(s[4..]) else 0
  }

  /** The length of a decimal part: a separator and at least one digit. */
  function FractionLen(s: Text): (n: nat)
    ensures n <= |s|
  {
    if |s| >= 2 && IsSep(s[0]) && s[1].Dig? then 1 + PrefixLen(s[1..], Digits) else 0
  }

  /** The end of the digits and 3-digit groups that open `s`. */
  function WholeLen(s: Text): (n: nat)
    ensures PrefixLen(s, Digits) <= n <= |s|
  {
    var d := PrefixLen(s, Digits);
    if d <= 3 then d + GroupsLen(s[d..]) else d
  }

  function BodyLen(s: Text): (n: nat)
    ensures PrefixLen(s, Digits) <= n <= |s|
  {
    WholeLen(s) + FractionLen(s[WholeLen(s)..])
  }

  // ----- `_parse_num_text` ----------------------------------------------------------------------

  function StripSeps(s: Text): Text {
    if s == [] then [] else (if IsSep(s[0]) then [] else [s[0]]) + StripSeps(s[1..])
  }

  /** `digits` read as the part of a decimal after its point. */
  function FractionOf(digits: Text): (r: real)
    ensures r >= 0.0
  {
    NatOf(digits) as real / Pow10(|digits|)
  }

  /** A separator and one or more digits, and nothing else. */
  predicate IsFraction(s: Text) { |s| >= 2 && IsSep(s[0]) && All(s[1..], Digits) }

  /** `_GROUPED_RE`: one to three digits, at least one 3-digit group, perhaps a decimal part. */
  predicate IsGrouped(s: Text) {
    var d := PrefixLen(s, Digits);
    1 <= d <= 3 && GroupsLen(s[d..]) > 0 && (WholeLen(s) == |s| || IsFraction(s[WholeLen(s)..]))
  }

  /** The value of a numeral, or `Absent` where Python's `Decimal` would refuse the text. */
  function ParseNumText(s: Text): (q: Quantity)
    ensures q.Or(0.0) >= 0.0
  {
    var d := PrefixLen(s, Digits);
    var w := WholeLen(s);
    if IsGrouped(s) then
      Is(NatOf(StripSeps(s[..w])) as real + if w < |s| then FractionOf(s[w + 1..]) else 0.0)
    else if 0 < d == |s| then Is(NatOf(s) as real)
    else if 0 < d && IsFraction(s[d..]) then Is(NatOf(s[..d]) as real + FractionOf(s[d + 1..]))
    else Absent
  }

  // ----- the token pattern ----------------------------------------------------------------------

  /** The length of the scale letters "k" or "tr" that open `s`; 0 if there are none. */
  function ShortScale(s: Text): (n: nat)
    ensures n <= |s|
  {
    if |s| >= 1 && s[0].Let? && s[0].letter == 'k' then 1
    else if |s| >= 2 && s[0].Let? && s[0].letter == 't' && s[1].Let? && s[1].letter == 'r' then 2
    else 0
  }

  /** `(?:[tT][rR]|[kK])\d` matches at the head of `s`. */
  predicate ShorthandAhead(s: Text) {
    var m := ShortScale(s);
    m > 0 && m < |s| && s[m].Dig?
  }

  /** The length of a shorthand such as "1k5" or "2tr5" at the head of `s`; 0 if there is none. */
  function ShorthandLen(s: Text): (n: nat)
    ensures n <= |s|
    ensures n > 0 ==> n >= PrefixLen(s, Digits) + 2
  {
    var d := PrefixLen(s, Digits);
    var m := ShortScale(s[d..]);
    if ShorthandAhead(s[d..]) && (d + m + 1 < |s| ==> !s[d + m + 1].Dig?) then d + m + 1 else 0
  }

  /** The length of a scale word that is a whole run of word characters at the head of `s`. */
  function GluedLen(s: Text): (n: nat)
    ensures n <= |s|
  {
    var w := PrefixLen(s, WordChars);
    if w > 0 && PrefixLen(s, Letters) == w && IsGluedScale(Lower(s[..w])) then w else 0
  }

  function Shorthand(s: Text, pos: nat): Tok
    requires ShorthandLen(s) > 0
  {
    var d := PrefixLen(s, Digits);
    var n := ShorthandLen(s);
    var base := if ShortScale(s[d..]) == 1 then Base(Thousand) else Base(Million);
    Num(s[..n], pos, pos + n,
        NatOf(s[..d]) as real * base + s[n - 1].digit as real * (base / 10.0), Is(base))
  }

  function NumTok(s: Text, pos: nat): Tok {
    Num(s, pos, pos + |s|, ParseNumText(s).Or(0.0), Absent)
  }

  function WordTok(s: Text, pos: nat): Tok { Word(s, pos, pos + |s|, WordOf(Lower(s))) }

  /** Tokens cut from the head of a text, and how much of the text they take. */
  datatype Cut = Cut(toks: seq<Tok>, len: nat)

  /** The tokens and the length of the match at the head of `s`; `afterWord` says that the
      character before `s` is a word character. */
  function Munch(s: Text, afterWord: bool, pos: nat): (r: Cut)
    requires s != [] && !s[0].Space?
    ensures 0 < r.len <= |s|
  {
    if s[0].Dig? && !afterWord then MunchNumber(s, pos)
    else if s[0].Let? then MunchWord(s, pos)
    else Cut([Other(s[..1], pos, pos + 1)], 1)
  }

  /** A shorthand, a number with a scale word glued to it, or a number, in this order. */
  function MunchNumber(s: Text, pos: nat): (r: Cut)
    requires s != [] && s[0].Dig?
    ensures 0 < r.len <= |s|
  {
    var b := BodyLen(s);
    var g := GluedLen(s[b..]);
    if ShorthandLen(s) > 0 then Cut([Shorthand(s, pos)], ShorthandLen(s))
    else if g > 0 then Cut([NumTok(s[..b], pos)] + [WordTok(s[b..][..g], pos + b)], b + g)
    else Cut([NumTok(s[..b], pos)], b)
  }

  function MunchWord(s: Text, pos: nat): (r: Cut)
    requires s != [] && s[0].Let?
    ensures 0 < r.len <= |s|
  {
    var n := PrefixLen(s, Letters);
    Cut([WordTok(s[..n], pos)], n)
  }

  /** The tokens of a text from position `pos` on, where `s` is what is left of it. */
  function Lex(s: Text, afterWord: bool, pos: nat): seq<Tok>
    decreases |s|
  {
    if s == [] then []
    else if s[0].Space? then Lex(s[1..], false, pos + 1)
    else
      var Cut(toks, n) := Munch(s, afterWord, pos);
      toks + Lex(s[n..], IsWordChar(s[n - 1]), pos + n)
  }

  function Tokens(text: Text): seq<Tok> { Lex(text, false, 0) }

  lemma LexStep(text: Text, p: nat)
    requires p < |text|
    ensures text[p].Space? ==>
              Lex(text[p..], AfterWord(text, p), p) == Lex(text[p + 1..], AfterWord(text, p + 1), p + 1)
    ensures !text[p].Space? ==>
              var Cut(toks, n) := Munch(text[p..], AfterWord(text, p), p);
              p + n <= |text|
              && Lex(text[p..], AfterWord(text, p), p) == toks + Lex(text[p + n..], AfterWord(text, p + n), p + n)
  {
    hide Munch;
    if text[p].Space? {
      assert text[p..][1..] == text[p + 1..];
    } else {
      var n := Munch(text[p..], AfterWord(text, p), p).len;
      assert text[p..][n..] == text[p + n..];
    }
  }

  /** `_tokenize` */
  method Tokenize(text: Text) returns (out: seq<Tok>)
    ensures out == Tokens(text)
  {
    hide Munch, Lex, AfterWord;
    out := [];
    var p := 0;
    assert text[0..] == text;
    assert Lex(text[0..], AfterWord(text, 0), 0) == Tokens(text) by { StartsFresh(text); }
    while p < |text|
      invariant p <= |text|
      invariant out + Lex(text[p..], AfterWord(text, p), p) == Tokens(text)
    {
      LexStep(text, p);
      if text[p].Space? {
        p := p + 1;
      } else {
        var Cut(toks, n) := Munch(text[p..], AfterWord(text, p), p);
        ghost var rest := Lex(text[p + n..], AfterWord(text, p + n), p + n);
        assert out + (toks + rest) == (out + toks) + rest;
        out := out + toks;
        p := p + n;
      }
    }
    LexEmpty(text[p..], AfterWord(text, p), p);
  }

  lemma LexEmpty(s: Text, afterWord: bool, pos: nat)
    requires s == []
    ensures Lex(s, afterWord, pos) == []
  {}
}
