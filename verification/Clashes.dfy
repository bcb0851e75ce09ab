/** A number that is written into a word, or a shorthand with a scale behind it, takes the amount in front of
    it away: "2 triệu 2tr5 nghìn", "2 triệu 50mươi nghìn", "1000 500năm". */
module Clashes {
  import opened Text
  import opened Vocabulary
  import opened Lexer
  import opened Lexing
  import opened Machine
  import opened Composition
  import opened Barrier
  import opened Words
  import opened Accepting
  import opened DigitGroups
  import opened NumberForms
  import opened Refusals
  import opened Followers

  /** The word is glued to the number in front of it, and is none that may be. */
  predicate GluedBehind(t: Tok, y: Tok) { t.Num? && y.Word? && y.start == t.end && NeverGlued(y.text) }

  /** The tokens open with a number that clashes with the multiplying word behind it. A single digit is left
      out: with a glued "trăm" it may still stand for hundreds. */
  predicate OpensClash(ts: seq<Tok>) {
    |ts| > 1 && ts[0].Num? && Multiplies(ts[1]) && |ts[0].text| > 1
    && (ts[0].implied.Is? || GluedBehind(ts[0], ts[1]))
  }

  lemma NeverGluedJoins(w: Text)
    requires NeverGlued(w)
    ensures JoinsDigits(WordFor(w))
  {
    hide WordOf;
    if WordFor(w).Tens? { TensThatJoin(Lower(w)); }
  }

  lemma ClashStops(text: Text, toks: seq<Tok>, k: nat, s: State)
    requires k + 1 < |toks| && OpensClash(toks[k..]) && s.current.Absent?
    requires !toks[k].implied.Is? ==> toks[k + 1].Word? && toks[k + 1].word == WordFor(toks[k + 1].text)
    ensures var a := Step(text, toks, k, s); a.Stop? && a.state.suspicious
  {
    hide ShorthandAhead, From, WordOf, NeverGlued, JoinsDigits, BigEnough, TailConsumable;
    assert toks[k..][0] == toks[k] && toks[k..][1] == toks[k + 1];
    if !toks[k].implied.Is? { NeverGluedJoins(toks[k + 1].text); }
  }

  lemma SuspiciousRefused(text: Text, toks: seq<Tok>, i: nat, j: nat, s: State)
    requires i < |toks| && s.suspicious
    ensures Judge(text, toks, i, j, s).None?
  {}

  lemma ClashShifted(t: Text, d: nat)
    requires OpensClash(Tokens(t))
    ensures OpensClash(ShiftAll(Tokens(t), d))
    ensures var y := Shift(Tokens(t)[1], d); y.Word? && y.word == WordFor(y.text)
  {
    hide Lex, NeverGlued, WordOf, Solid, ParseNumText;
    TokensLossless(t);
    assert Tokens(t)[1] in Tokens(t);
  }

  /** A clash behind groups refuses the groups with it; the rest is read by itself. */
  lemma ClashBehindGroups(gs: seq<Group>, t: Text)
    requires gs != [] && AreGroups(gs) && OpensClash(Tokens(t))
    ensures var a := Join(GroupWords(gs)); Amounts(a + [BLANK] + t) == ShiftMatches(Amounts(t), |a| + 1)
  {
    hide Lex, Run, RunAt, Scan, Judge, Join, IsGroup, SomeCount, NounsOf, ReadSum, OpensClash, ShiftMatches,
      IsIdentifierTok, GroupWords, WordOf;
    var a, k := Join(GroupWords(gs)), 2 * |gs|;
    var text, toks := a + [BLANK] + t, Joined(a, t);
    TokensAcrossSpace(a, BLANK, t);
    var s := GroupsFirst(gs, t);
    ClashShifted(t, |a| + 1);
    assert toks[k..] == ShiftAll(Tokens(t), |a| + 1);
    ClashOpen(Tokens(t));
    ClashStops(text, toks, k, s);
    RunUnfolds(text, toks, k, s);
    SuspiciousRefused(text, toks, 0, k, Step(text, toks, k, s).state);
    ConsumedStarts(text, toks, 0);
    ScanUnfolds(text, toks, 0);
    BehindPrefix(a + [BLANK], Tokens(a), t);
    assert (a + [BLANK]) + t == text;
  }

  lemma ClashOpen(ts: seq<Tok>)
    requires OpensClash(ts)
    ensures |ts| > 1
  {}

  // ----- behind digits --------------------------------------------------------------------------

  /** The tokens open with three digits with a word written against them. */
  predicate OpensGluedTriple(ts: seq<Tok>) { |ts| > 1 && GluedBehind(ts[0], ts[1]) && IsTriple(ts[0].text) }

  lemma TripleStops(text: Text, toks: seq<Tok>, k: nat, s: State)
    requires k + 1 < |toks| && GluedBehind(toks[k], toks[k + 1]) && IsTriple(toks[k].text)
    requires toks[k + 1].word == WordFor(toks[k + 1].text) && toks[k].implied.Absent?
    requires s.current.Is? && s.fromDigits && s.current.value == s.current.value.Floor as real
    ensures var a := Step(text, toks, k, s); a.Stop? && a.state.suspicious
  {
    hide ShorthandAhead, From, WordOf, NeverGlued, JoinsDigits, BigEnough, TailConsumable;
    NeverGluedJoins(toks[k + 1].text);
  }

  lemma TripleShifted(t: Text, d: nat)
    requires OpensGluedTriple(Tokens(t))
    ensures var x, y := Shift(Tokens(t)[0], d), Shift(Tokens(t)[1], d);
            GluedBehind(x, y) && IsTriple(x.text) && y.word == WordFor(y.text) && x.implied.Absent?
  {
    hide Lex, NeverGlued, WordOf, Solid, ParseNumText;
    TokensLossless(t);
    assert Tokens(t)[0] in Tokens(t) && Tokens(t)[1] in Tokens(t);
  }

  lemma DigitsFirst(n: Text, t: Text) returns (s: State)
    requires n != [] && All(n, Digits)
    ensures var text, toks := n + [BLANK] + t, Joined(n, t);
            |Tokens(n)| == 1 && RunAt(text, toks, 0) == Run(text, toks, 1, s)
            && s == Began(Fresh(|n|), n, |n|) && Tokens(n)[0].Num?
  {
    hide Lex, WordOf, ReadsAt, Run, Step, ValueOf, IsNumeral, DigitCount, All;
    DigitsNumeral(n);
    var ws := [n];
    JoinReads(ws);
    ReadsEnds(n, Tokens(n), ws);
    var text, toks := n + [BLANK] + t, Joined(n, t);
    var vs := Padded(ws, |toks|);
    PartRead(n, t, ws, vs);
    assert vs[..1][0] == n;
    ReadsHere(n, Tokens(n), ws, 0);
    NumberAt(n, Tokens(n), ws);
    var f := Fresh(toks[0].end);
    NumberBegins(text, toks, vs, 0, f);
    s := Began(f, n, toks[0].end);
    RunUnfolds(text, toks, 0, f);
  }

  lemma NumberAt(n: Text, toks: seq<Tok>, ws: seq<Text>)
    requires ws == [n] && |toks| == 1 && ReadsAt(n, toks, ws, 0) && IsNumeral(n)
    ensures toks[0].Num?
  {
    hide WordOf, StandsFree, ValueOf, BodyLen;
  }

  /** Three digits with a word written against them refuse the digits in front of them too. */
  lemma ClashBehindDigits(n: Text, t: Text)
    requires n != [] && All(n, Digits) && OpensGluedTriple(Tokens(t))
    ensures Amounts(n + [BLANK] + t) == ShiftMatches(Amounts(t), |n| + 1)
  {
    hide Lex, Run, RunAt, Scan, Judge, ShiftMatches, WordOf, ValueOf, IsTriple, NeverGlued, NatOf, DigitCount;
    var text, toks := n + [BLANK] + t, Joined(n, t);
    TokensAcrossSpace(n, BLANK, t);
    var s := DigitsFirst(n, t);
    DigitsNumeral(n);
    hide All;
    TripleShifted(t, |n| + 1);
    assert toks[1] == Shift(Tokens(t)[0], |n| + 1) && toks[2] == Shift(Tokens(t)[1], |n| + 1);
    TripleStops(text, toks, 1, s);
    RunUnfolds(text, toks, 1, s);
    SuspiciousRefused(text, toks, 0, 1, Step(text, toks, 1, s).state);
    ConsumedStarts(text, toks, 0);
    ScanUnfolds(text, toks, 0);
    BehindPrefix(n + [BLANK], Tokens(n), t);
    assert (n + [BLANK]) + t == text;
  }
}
