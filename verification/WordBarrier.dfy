/** A plain word separates: what stands behind it is not seen from before it, and what stands before it does
    not touch what is behind. */
module WordBarrier {
  import opened Text
  import opened Vocabulary
  import opened Lexer
  import opened Lexing
  import opened Machine
  import opened Composition
  import opened Barrier
  import opened Words
  import opened SpokenTails
  import opened Announced

  /** `a`, a blank and the word `p`. */
  function Up(a: Text, p: Text): Text { a + [BLANK] + p }

  function WordHere(a: Text, p: Text): Tok { Word(p, |a| + 1, |a| + 1 + |p|, WordFor(p)) }

  predicate IsPlainWordText(p: Text) { IsWord(p) && WordFor(p).Plain? }

  lemma UpTokens(a: Text, p: Text)
    requires IsWord(p)
    ensures Tokens(Up(a, p)) == Tokens(a) + [WordHere(a, p)]
  {
    hide Lex, WordOf, ValueOf;
    assert In(p[0], Letters);
    ChunkLex(p);
    TokensAcrossSpace(a, BLANK, p);
    assert ShiftAll([ChunkTok(p, 0)], |a| + 1) == [WordHere(a, p)];
  }

  lemma BothTokens(a: Text, p: Text, b: Text)
    requires IsWord(p)
    ensures Tokens(Up(a, p) + [BLANK] + b)
         == Tokens(a) + [WordHere(a, p)] + ShiftAll(Tokens(b), |a| + 1 + |p| + 1)
  {
    hide Lex, WordHere;
    UpTokens(a, p);
    TokensAcrossSpace(Up(a, p), BLANK, b);
  }

  lemma BlankDetached(b: Text)
    ensures Detached([BLANK] + b)
  {}

  /** The currency suffix behind a place before the word is not seen beyond the word. */
  lemma CurrencyWithin(u: Text, p: Text, b: Text)
    requires IsWord(p)
    ensures CurrencyAhead(u + p + ([BLANK] + b)) == CurrencyAhead(u + p)
  {
    hide IsCurrencyWord;
    var s, t := u + p, [BLANK] + b;
    assert In(p[|p| - 1], Letters) && s[|s| - 1] == p[|p| - 1];
    PrefixOf(s, t, Spaces);
    var n := PrefixLen(s, Spaces);
    var q := s[n..];
    assert (s + t)[n..] == q + t && q[|q| - 1] == s[|s| - 1];
    PrefixOf(q, t, Letters);
    var w := PrefixLen(q, Letters);
    assert (q + t)[..w] == q[..w];
  }

  lemma BeforeWord(a: Text, p: Text, b: Text, e: nat)
    requires IsWord(p) && e <= |a|
    ensures var v, w := Up(a, p), Up(a, p) + [BLANK] + b;
            CurrencyAhead(From(w, e)) == CurrencyAhead(From(v, e))
            && ShorthandAhead(From(w, e)) == ShorthandAhead(From(v, e))
  {
    hide CurrencyAhead, ShorthandAhead, IsWord, Detached;
    var u := a[e..] + [BLANK];
    assert Up(a, p)[e..] == u + p;
    assert (Up(a, p) + [BLANK] + b)[e..] == u + p + ([BLANK] + b);
    CurrencyWithin(u, p, b);
    BlankDetached(b);
    ScaleLettersOf(u + p, [BLANK] + b);
  }

  lemma WordSameStep(a: Text, p: Text, b: Text, more: seq<Tok>, x: nat)
    requires IsPlainWordText(p) && x < |Tokens(a)|
    ensures SameStep(View(Up(a, p), Tokens(a) + [WordHere(a, p)]),
                     View(Up(a, p) + [BLANK] + b, Tokens(a) + [WordHere(a, p)] + more), x, 0, 0)
  {
    hide Lex, ShorthandAhead, IsScaleTok, WellCut, Solid, From, CurrencyAhead, WordOf, IsWord;
    TokensLossless(a);
    BeforeWord(a, p, b, Tokens(a)[x].end);
  }

  lemma SameBefore(a: Text, p: Text, b: Text)
    requires IsPlainWordText(p)
    ensures var v, w := View(Up(a, p), Tokens(Up(a, p))), View(Up(a, p) + [BLANK] + b, Tokens(Up(a, p) + [BLANK] + b));
            Repeats(v, w, |Tokens(a)|, 0, 0)
  {
    hide Lex, SameStep, CurrencyAhead, WellCut, Solid, Slice, From, WordOf, IsWord, Up;
    UpTokens(a, p);
    BothTokens(a, p, b);
    TokensLossless(a);
    TokensLossless(Up(a, p));
    var toks, more := Tokens(a), ShiftAll(Tokens(b), |a| + 1 + |p| + 1);
    var v, w := View(Up(a, p), Tokens(Up(a, p))), View(Up(a, p) + [BLANK] + b, Tokens(Up(a, p) + [BLANK] + b));
    var n := |toks|;
    forall x | 0 <= x < n ensures SameStep(v, w, x, 0, 0) {
      WordSameStep(a, p, b, more, x);
    }
    forall x | 0 <= x < n
      ensures CurrencyAhead(From(w.text, v.toks[x].end)) == CurrencyAhead(From(v.text, v.toks[x].end))
    {
      BeforeWord(a, p, b, toks[x].end);
    }
    forall x, y | 0 <= x <= y < n
      ensures Slice(w.text, v.toks[x].start, v.toks[y].end) == Slice(v.text, v.toks[x].start, v.toks[y].end)
    {
      assert v.toks[x].start <= v.toks[y].end <= |Up(a, p)|;
      assert Up(a, p) + [BLANK] + b == Up(a, p) + ([BLANK] + b);
      SliceWithin(Up(a, p), [BLANK] + b, v.toks[x].start, v.toks[y].end);
    }
    assert !StartsRun(v.toks[n]) && w.toks[n] == Shift(v.toks[n], 0);
  }

  /** The amounts before the word, and the search from the word on. */
  lemma ScanToWord(a: Text, p: Text, b: Text)
    requires IsPlainWordText(p)
    ensures var text := Up(a, p) + [BLANK] + b;
            |Tokens(a)| <= |Tokens(text)|
            && Scan(text, Tokens(text), 0) == Amounts(Up(a, p)) + Scan(text, Tokens(text), |Tokens(a)|)
  {
    hide Lex, Scan, Up, Repeats, WordOf, IsWord;
    SameBefore(a, p, b);
    UpTokens(a, p);
    BothTokens(a, p, b);
    var v, w := View(Up(a, p), Tokens(Up(a, p))), View(Up(a, p) + [BLANK] + b, Tokens(Up(a, p) + [BLANK] + b));
    ScanSame(v, w, |Tokens(a)|, 0, 0, 0);
    ShiftByZero(Amounts(Up(a, p)));
  }

  /** A plain word is a barrier: of "a p b" the amounts are those of "a p", then those of "p b". */
  lemma WordSeparates(a: Text, p: Text, b: Text)
    requires IsPlainWordText(p)
    ensures Amounts(a + [BLANK] + p + [BLANK] + b)
         == Amounts(a + [BLANK] + p) + ShiftMatches(Amounts(p + [BLANK] + b), |a| + 1)
  {
    hide Lex, Scan, WordOf, ShiftMatches, WellCut, Solid, InOrder, ValueOf;
    var n, text, rest := |Tokens(a)|, Up(a, p) + [BLANK] + b, p + [BLANK] + b;
    ScanToWord(a, p, b);
    TokensAcrossSpace(a, BLANK, rest);
    assert text == a + [BLANK] + rest && |a + [BLANK]| == |a| + 1;
    UpTokens(a, p);
    BothTokens(a, p, b);
    TokensLossless(rest);
    RestTokens(p, b);
    ScanUnfolds(rest, Tokens(rest), 0);
    ScanUnfolds(text, Tokens(text), n);
    ScanBehind(a + [BLANK], Tokens(a), View(rest, Tokens(rest)), View(text, Tokens(text)), 1);
  }

  lemma RestTokens(p: Text, b: Text)
    requires IsPlainWordText(p)
    ensures Tokens(p + [BLANK] + b) != [] && Tokens(p + [BLANK] + b)[0] == ChunkTok(p, 0) && !StartsRun(ChunkTok(p, 0))
  {
    hide Lex, WordOf, ValueOf;
    ChunkLex(p);
    TokensAcrossSpace(p, BLANK, b);
    PlainStarts(p);
  }

  /** So the amounts of "a p b" are those of "a p" and those of "b", but for a first amount of "b" that rests
      on its digits alone where the word announces an identifier. */
  lemma WordBetween(a: Text, p: Text, b: Text)
    requires IsPlainWordText(p)
    ensures Amounts(a + [BLANK] + p + [BLANK] + b)
         == Amounts(a + [BLANK] + p) + ShiftMatches(KeptBehind(p, b), |a| + 1 + |p| + 1)
  {
    hide Amounts, KeptBehind, WordOf;
    WordSeparates(a, p, b);
    PlainInFront(p, b);
    var kept := KeptBehind(p, b);
    assert ShiftMatches(ShiftMatches(kept, |p| + 1), |a| + 1) == ShiftMatches(kept, |a| + 1 + |p| + 1);
  }
}
