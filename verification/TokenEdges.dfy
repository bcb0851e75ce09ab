/** Where tokens may begin and end: no number starts behind a word character or ends before a digit, and
    words are whole runs of letters. */
module TokenEdges {
  import opened Text
  import opened Vocabulary
  import opened Lexer
  import opened Lexing

  /** A digit, a letter or an underscore stands before position `p`. */
  predicate BehindWord(text: Text, p: nat)
    requires p <= |text|
  {
    p > 0 && (text[p - 1].Dig? || text[p - 1].Let? || text[p - 1].Under?)
  }

  /** What stands right before and right behind a token. */
  predicate EdgesClear(text: Text, t: Tok) {
    t.start < t.end <= |text|
    && match t
       case Num(_, _, _, _, _) => !BehindWord(text, t.start) && (t.end < |text| ==> !text[t.end].Dig?)
       case Word(_, _, _, _) =>
         (t.start > 0 ==> !text[t.start - 1].Let?) && (t.end < |text| ==> !text[t.end].Let?)
       case Other(_, _, _) =>
         t.end == t.start + 1 && !text[t.start].Let? && (text[t.start].Dig? ==> BehindWord(text, t.start))
  }

  // ----- numerals -------------------------------------------------------------------------------

  lemma {:induction false} GroupEdges(s: Text)
    ensures var g := GroupsLen(s); g > 0 ==> s[g - 1].Dig? && (g < |s| ==> !s[g].Dig?)
    decreases |s|
  {
    var g := GroupsLen(s);
    if g > 0 {
      GroupEdges(s[4..]);
      assert In(s[1..][2], Digits) && s[3] == s[1..][2];
      if g == 4 {
        assert 4 < |s| ==> s[1..][3] == s[4];
      } else {
        assert s[4..][g - 5] == s[g - 1] && (g < |s| ==> s[4..][g - 4] == s[g]);
      }
    }
  }

  lemma WholeEdges(s: Text)
    requires s != [] && s[0].Dig?
    ensures var w := WholeLen(s); w > 0 && s[w - 1].Dig? && (w < |s| ==> !s[w].Dig?)
  {
    var d := PrefixLen(s, Digits);
    assert In(s[d - 1], Digits) && (d < |s| ==> !In(s[d], Digits));
    hide GroupsLen;
    if d <= 3 && GroupsLen(s[d..]) > 0 {
      var g := GroupsLen(s[d..]);
      GroupEdges(s[d..]);
      assert s[d..][g - 1] == s[d + g - 1] && (d + g < |s| ==> s[d..][g] == s[d + g]);
    }
  }

  lemma BodyEdges(s: Text)
    requires s != [] && s[0].Dig?
    ensures var b := BodyLen(s); b > 0 && s[b - 1].Dig? && (b < |s| ==> !s[b].Dig?)
  {
    hide WholeLen;
    WholeEdges(s);
    var w := WholeLen(s);
    var f := FractionLen(s[w..]);
    if f > 0 {
      var r := s[w..][1..];
      assert In(r[f - 2], Digits) && (f - 1 < |r| ==> !In(r[f - 1], Digits));
      assert r[f - 2] == s[w + f - 1] && (w + f < |s| ==> r[f - 1] == s[w + f]);
    }
  }

  // ----- tokens ---------------------------------------------------------------------------------

  /** At `p` no letter stands between letters. */
  predicate NoLetterSplit(text: Text, p: nat) {
    p <= |text| && (0 < p < |text| && text[p - 1].Let? ==> !text[p].Let?)
  }

  predicate MunchedClear(text: Text, p: nat, c: Cut) {
    NoLetterSplit(text, p + c.len) && forall t | t in c.toks :: EdgesClear(text, t)
  }

  lemma ShortEdges(s: Text)
    requires s != [] && s[0].Dig? && ShorthandLen(s) > 0
    ensures var n := ShorthandLen(s); s[n - 1].Dig? && (n < |s| ==> !s[n].Dig?)
  {
    SolidShorthand(s);
  }

  lemma NumberMunched(text: Text, p: nat)
    requires p < |text| && text[p].Dig? && !AfterWord(text, p)
    ensures MunchedClear(text, p, MunchNumber(text[p..], p))
  {
    hide ShorthandLen, BodyLen, GluedLen, Lexer.Shorthand, NumTok, WordTok, AfterWord, EdgesClear, NoLetterSplit;
    var s := text[p..];
    var b := BodyLen(s);
    if ShorthandLen(s) > 0 {
      ShortMunched(text, p);
    } else {
      BodyMunched(text, p);
      if GluedLen(s[b..]) > 0 { WordGlued(text, p, b); }
    }
  }

  lemma ShortMunched(text: Text, p: nat)
    requires p < |text| && text[p].Dig? && !AfterWord(text, p) && ShorthandLen(text[p..]) > 0
    ensures var s := text[p..];
            EdgesClear(text, Lexer.Shorthand(s, p)) && NoLetterSplit(text, p + ShorthandLen(s))
  {
    hide ShorthandLen, Lexer.Shorthand;
    var s := text[p..];
    var n := ShorthandLen(s);
    ShortEdges(s);
    ShorthandSpans(s, p);
    assert s[n - 1] == text[p + n - 1] && (n < |s| ==> s[n] == text[p + n]);
  }

  lemma BodyMunched(text: Text, p: nat)
    requires p < |text| && text[p].Dig? && !AfterWord(text, p)
    ensures var s := text[p..];
            0 < BodyLen(s) && EdgesClear(text, NumTok(s[..BodyLen(s)], p)) && NoLetterSplit(text, p + BodyLen(s))
            && text[p + BodyLen(s) - 1].Dig?
  {
    hide BodyLen, ParseNumText;
    var s := text[p..];
    var b := BodyLen(s);
    BodyEdges(s);
    assert s[b - 1] == text[p + b - 1] && (b < |s| ==> s[b] == text[p + b]);
  }

  lemma WordGlued(text: Text, p: nat, b: nat)
    requires 0 < b && p + b <= |text| && text[p + b - 1].Dig? && GluedLen(text[p..][b..]) > 0
    ensures var w := text[p..][b..];
            EdgesClear(text, WordTok(w[..GluedLen(w)], p + b)) && NoLetterSplit(text, p + b + GluedLen(w))
  {
    hide GluedLen, WordOf;
    var w := text[p..][b..];
    var g := GluedLen(w);
    GluedEdges(w);
    assert w[g - 1] == text[p + b + g - 1] && (g < |w| ==> w[g] == text[p + b + g]);
  }

  lemma ShorthandSpans(s: Text, pos: nat)
    requires ShorthandLen(s) > 0
    ensures var t := Lexer.Shorthand(s, pos); t.Num? && t.start == pos && t.end == pos + ShorthandLen(s)
  {
    hide ShorthandLen, NatOf, ShortScale, PrefixLen;
  }

  lemma GluedEdges(w: Text)
    requires GluedLen(w) > 0
    ensures var g := GluedLen(w); w[g - 1].Let? && (g < |w| ==> !w[g].Let?)
  {
    hide IsGluedScale;
    var g := GluedLen(w);
    assert In(w[g - 1], Letters) && (g < |w| ==> !In(w[g], WordChars));
  }

  lemma WordMunched(text: Text, p: nat)
    requires p < |text| && text[p].Let? && NoLetterSplit(text, p)
    ensures MunchedClear(text, p, MunchWord(text[p..], p))
  {
    hide WordOf;
    var s := text[p..];
    var n := PrefixLen(s, Letters);
    assert In(s[n - 1], Letters) && (n < |s| ==> !In(s[n], Letters));
    assert s[n - 1] == text[p + n - 1] && (n < |s| ==> s[n] == text[p + n]);
  }

  lemma {:induction false} EdgesFrom(text: Text, p: nat)
    requires NoLetterSplit(text, p)
    ensures forall t | t in Lex(text[p..], AfterWord(text, p), p) :: EdgesClear(text, t)
    decreases |text| - p
  {
    hide Lex, MunchNumber, MunchWord, EdgesClear;
    if p == |text| {
      LexEmpty(text[p..], AfterWord(text, p), p);
    } else {
      LexStep(text, p);
      if text[p].Space? {
        EdgesFrom(text, p + 1);
      } else {
        if text[p].Dig? && !AfterWord(text, p) {
          NumberMunched(text, p);
        } else if text[p].Let? {
          WordMunched(text, p);
        } else {
          OtherMunched(text, p);
        }
        EdgesFrom(text, p + Munch(text[p..], AfterWord(text, p), p).len);
      }
    }
  }

  lemma OtherMunched(text: Text, p: nat)
    requires p < |text| && !text[p].Let? && (text[p].Dig? ==> AfterWord(text, p))
    ensures MunchedClear(text, p, Cut([Other(text[p..][..1], p, p + 1)], 1))
  {}

  /** The tokens of every text have clear edges: "SP5000" holds no number, and no digit, letter or mark is
      read as anything but the whole it belongs to. */
  lemma TokensClear(text: Text)
    ensures forall t | t in Tokens(text) :: EdgesClear(text, t)
  {
    hide Lex, EdgesClear;
    assert text[0..] == text;
    StartsFresh(text);
    EdgesFrom(text, 0);
  }
}
