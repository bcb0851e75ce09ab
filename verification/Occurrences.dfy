/** A phrase of the dictionary is found exactly where its words stand, in any case and with any
    whitespace, and what is reported and what is left of a text make up the text again. */
module Occurrences {
  import opened Text
  import opened Phrases
  import opened Synonyms
  import opened SynonymFacts
  import opened SynonymTable
  import opened SynonymGroups
  import opened Words

  /** Nothing but letters and whitespace. */
  predicate IsSpoken(s: Text) { forall k | 0 <= k < |s| :: s[k].Space? || (s[k].Let? && s[k].letter != ' ') }

  /** A digit, a letter or an underscore. */
  predicate GoesOn(c: Ch) { c.Dig? || c.Let? || c.Under? }

  /** The first `n` characters of `s` are the phrase, in any case and with any whitespace between its
      words, and no word goes on behind them. */
  predicate Stands(ws: seq<string>, s: Text, n: nat)
    requires ws != []
  {
    n <= |s| && IsSpoken(s[..n]) && Normal(s[..n]) == Phrase(ws) && (n < |s| ==> !GoesOn(s[n]))
  }

  predicate ArePlain(ws: seq<string>) { ws != [] && forall k | 0 <= k < |ws| :: IsPlainWord(ws[k]) }

  lemma BoundaryIs(s: Text, n: nat)
    requires n <= |s|
    ensures IsBoundary(s[n..]) <==> (n < |s| ==> !GoesOn(s[n]))
  {
    if n < |s| { assert s[n..][0] == s[n]; }
  }

  lemma NormalUnfolds(s: Text)
    requires s != []
    ensures Normal(s)
         == if s[0].Space? then " " + Normal(s[PrefixLen(s, Spaces)..]) else [LowerCh(s[0])] + Normal(s[1..])
  {}

  lemma NormalIsSome(s: Text)
    requires s != []
    ensures Normal(s) != ""
  {
    NormalUnfolds(s);
    hide Normal;
  }

  /** A spoken text whose normal form opens with a word opens with that word. */
  lemma {:induction false} NormalOpens(w: string, s: Text, rest: string)
    requires IsSpoken(s) && ' ' !in w && Normal(s) == w + rest && (rest != "" ==> rest[0] == ' ')
    ensures |w| <= |s| && Opens(w, s) && Normal(s[|w|..]) == rest && IsSpoken(s[|w|..])
    decreases |w|
  {
    hide Normal;
    if w == "" {
      assert s[0..] == s && w + rest == rest;
    } else {
      if s == [] { NormalNothing(); }
      NormalUnfolds(s);
      assert Normal(s)[0] == w[0];
      assert s[0].Let?;
      assert Normal(s)[1..] == w[1..] + rest == Normal(s[1..]);
      NormalOpens(w[1..], s[1..], rest);
      assert s[1..][|w| - 1..] == s[|w|..];
      assert forall k | 1 <= k < |w| :: s[1..][k - 1] == s[k] && w[1..][k - 1] == w[k];
    }
  }

  lemma NormalSpace(s: Text, rest: string)
    requires IsSpoken(s) && Normal(s) == " " + rest && rest != "" && rest[0] != ' '
    ensures var g := PrefixLen(s, Spaces); 0 < g < |s| && Normal(s[g..]) == rest && IsSpoken(s[g..])
  {
    hide Normal;
    if s == [] { NormalNothing(); }
    NormalUnfolds(s);
    assert Normal(s)[0] == ' ';
    assert s[0].Space?;
    var g := PrefixLen(s, Spaces);
    var t := Normal(s[g..]);
    assert (" " + t)[1..] == t && (" " + rest)[1..] == rest;
    if g == |s| {
      assert s[g..] == [];
      NormalNothing();
    }
  }

  lemma PhraseOpens(ws: seq<string>)
    requires ArePlain(ws)
    ensures Phrase(ws) != "" && Phrase(ws)[0] != ' '
  {
    hide Phrase;
    PhraseUnfolds(ws);
    assert IsPlainWord(ws[0]);
    assert ws[0][0] in ws[0];
  }

  lemma {:induction false} ReachUnfolds(ws: seq<string>, s: Text)
    requires ws != []
    ensures ReachOf(ws, s)
         == if !Opens(ws[0], s) then Miss
            else
              var n := |ws[0]|;
              var gap := PrefixLen(s[n..], Spaces);
              if |ws| == 1 then (if IsBoundary(s[n..]) then Hit(n) else Miss)
              else if gap == 0 then Miss
              else match ReachOf(ws[1..], s[n + gap..]) case Miss => Miss case Hit(m) => Hit(n + gap + m)
  {
    hide Opens, IsBoundary, PrefixLen;
  }

  lemma {:induction false} StandingIsFound(ws: seq<string>, s: Text, n: nat)
    requires ArePlain(ws) && Stands(ws, s, n)
    ensures ReachOf(ws, s) == Hit(n)
    decreases |ws|
  {
    hide ReachOf, Stands, IsBoundary, Opens, PrefixLen, IsPlainWord;
    ReachUnfolds(ws, s);
    if |ws| == 1 {
      OneWordStands(ws, s, n);
    } else {
      var g := WordsStand(ws, s, n);
      assert forall k | 1 <= k < |ws| :: ws[1..][k - 1] == ws[k];
      StandingIsFound(ws[1..], s[|ws[0]| + g..], n - |ws[0]| - g);
    }
  }

  lemma OneWordStands(ws: seq<string>, s: Text, n: nat)
    requires ArePlain(ws) && Stands(ws, s, n) && |ws| == 1
    ensures n == |ws[0]| <= |s| && Opens(ws[0], s) && IsBoundary(s[n..])
  {
    hide Normal, Phrase, IsBoundary, Opens, IsSpoken, GoesOn;
    var p, w := s[..n], ws[0];
    BoundaryIs(s, n);
    PhraseUnfolds(ws);
    assert IsPlainWord(w) && Normal(p) == w + "";
    NormalOpens(w, p, "");
    if p[|w|..] != [] { NormalIsSome(p[|w|..]); }
    OpensLonger(w, p, s);
  }

  /** Behind its first word a phrase of several words goes on with whitespace and the phrase of the rest. */
  lemma WordsStand(ws: seq<string>, s: Text, n: nat) returns (g: nat)
    requires ArePlain(ws) && Stands(ws, s, n) && |ws| > 1
    ensures |ws[0]| + g <= n <= |s| && Opens(ws[0], s) && 0 < g == PrefixLen(s[|ws[0]|..], Spaces)
    ensures Stands(ws[1..], s[|ws[0]| + g..], n - |ws[0]| - g)
  {
    hide Normal, Phrase, IsBoundary, Opens, PrefixLen, IsSpoken, GoesOn;
    var p, w, rest := s[..n], ws[0], Phrase(ws[1..]);
    PhraseUnfolds(ws);
    assert IsPlainWord(w);
    NormalOpens(w, p, " " + rest);
    OpensLonger(w, p, s);
    assert ArePlain(ws[1..]) by { assert forall k | 1 <= k < |ws| :: ws[1..][k - 1] == ws[k]; }
    PhraseOpens(ws[1..]);
    var q := p[|w|..];
    NormalSpace(q, rest);
    g := PrefixLen(q, Spaces);
    assert s[|w|..] == q + s[n..];
    PrefixOf(q, s[n..], Spaces);
    var later, m := s[|w| + g..], n - |w| - g;
    assert later[..m] == q[g..];
    assert m < |later| ==> later[m] == s[n];
  }

  lemma OpensLonger(w: string, p: Text, s: Text)
    requires Opens(w, p) && |p| <= |s| && p == s[..|p|]
    ensures Opens(w, s)
  {}

  lemma {:induction false} FoundIsSpoken(ws: seq<string>, s: Text)
    requires ArePlain(ws) && ReachOf(ws, s).Hit?
    ensures IsSpoken(s[..ReachOf(ws, s).len])
    decreases |ws|
  {
    hide ReachOf;
    assert IsPlainWord(ws[0]);
    FirstWord(ws, s);
    ReachLen(ws, s);
    var n, e := |ws[0]|, ReachOf(ws, s).len;
    assert forall k | 0 <= k < n :: s[k].letter == ws[0][k] && ws[0][k] in ws[0];
    if |ws| > 1 {
      var g := PrefixLen(s[n..], Spaces);
      var rest := s[n..][g..];
      FoundIsSpoken(ws[1..], rest);
      forall k | n <= k < e ensures s[k].Space? || (s[k].Let? && s[k].letter != ' ') {
        if k < n + g { assert In(s[n..][k - n], Spaces); } else { assert s[k] == rest[..e - n - g][k - n - g]; }
      }
    }
  }

  /** The pattern of a phrase matches exactly where the phrase stands. */
  lemma StandsExactly(ws: seq<string>, s: Text, n: nat)
    requires ArePlain(ws)
    ensures ReachOf(ws, s) == Hit(n) <==> Stands(ws, s, n)
  {
    hide ReachOf, Normal, Phrase, IsBoundary, IsSpoken;
    if ReachOf(ws, s) == Hit(n) {
      BoundaryIs(s, n);
      FoundIsSpoken(ws, s);
      LookupHits(ws, s);
      EndsAtBoundary(ws, s);
    } else if Stands(ws, s, n) {
      StandingIsFound(ws, s, n);
    }
  }

  // ----- where phrases are found ----------------------------------------------------------------

  lemma TermIsPlain(t: Term)
    requires IsTerm(t)
    ensures ArePlain(t.words)
  {}

  /** A phrase that stands at `p`, behind no word character, lies at the start of a phrase found, which is
      at least as long, or inside one that starts before it. */
  lemma {:induction false} EveryOccurrence(ts: seq<Term>, text: Text, q: nat, p: nat, u: Term, n: nat)
    returns (f: Found)
    requires AreTerms(ts) && LongestFirst(ts) && u in ts && IsTerm(u) && q <= p < |text|
    requires !AfterWord(text, p) && Stands(u.words, text[p..], n)
    ensures f in FoundFrom(ts, text[q..], AfterWord(text, q), q)
    ensures f.start <= p < f.end && (f.start == p ==> p + n <= f.end)
    decreases p - q
  {
    hide FoundFrom, ReachOf, TermAt, Stands, LongestFirst, AfterWord, IsTerm;
    FoundStep(ts, text, q);
    var t := TermAt(ts, text[q..], AfterWord(text, q));
    if q == p {
      TermIsPlain(u);
      StandsExactly(u.words, text[p..], n);
      LongestWins(ts, text[p..], u);
      f := Found(p, p + ReachOf(t.value.words, text[p..]).len, t.value.intent);
    } else if t.Some? {
      TermIsPlain(t.value);
      var e := q + ReachOf(t.value.words, text[q..]).len;
      if e <= p { f := EveryOccurrence(ts, text, e, p, u, n); } else { f := Found(q, e, t.value.intent); }
    } else {
      f := EveryOccurrence(ts, text, q + 1, p, u, n);
    }
  }

  /** What is found is a phrase of the table, with its label, and behind no word character. */
  predicate IsPhraseAt(ts: seq<Term>, text: Text, f: Found)
    requires AreTerms(ts)
  {
    f.start < f.end <= |text| && (f.start > 0 ==> !GoesOn(text[f.start - 1]))
    && exists t | t in ts && IsTerm(t) :: t.intent == f.intent && Stands(t.words, text[f.start..], f.end - f.start)
  }

  lemma {:induction false} OnlyOccurrences(ts: seq<Term>, text: Text, q: nat)
    requires AreTerms(ts) && q <= |text|
    ensures forall f | f in FoundFrom(ts, text[q..], AfterWord(text, q), q) :: IsPhraseAt(ts, text, f)
    decreases |text| - q
  {
    hide FoundFrom, ReachOf, Stands, IsTerm, FirstAt;
    if q == |text| {
      FoundNothing(ts, text[q..], AfterWord(text, q), q);
    } else {
      FoundStep(ts, text, q);
      var t := TermAt(ts, text[q..], AfterWord(text, q));
      if t.Some? {
        TermIsPlain(t.value);
        var n := ReachOf(t.value.words, text[q..]).len;
        StandsExactly(t.value.words, text[q..], n);
        assert IsPhraseAt(ts, text, Found(q, q + n, t.value.intent));
        OnlyOccurrences(ts, text, q + n);
      } else {
        OnlyOccurrences(ts, text, q + 1);
      }
    }
  }

  // ----- a phrase by itself ---------------------------------------------------------------------

  /** A phrase of the dictionary in any case, with any whitespace between its words: the label of its
      group takes its place. */
  lemma PhraseAlone(ws: seq<string>, intent: string, text: Text)
    requires ws in PhrasesOf(intent) && ws != [] && Stands(ws, text, |text|)
    ensures AreTerms(TERMS) && MapWith(TERMS, text) == Mapped(LabelText(intent), [SynonymMatch(text, intent)])
  {
    hide TERMS, ReachOf, Stands, IsTerm, LongestFirst, FoundFrom, PhrasesOf, TermAt, LabelText, LABELS;
    TableIsSound();
    var u := Term(ws, intent);
    TableIsGroups(u);
    assert IsTerm(u) by { assert IsSoundTerm(u, LABELS); }
    TermIsPlain(u);
    StandsExactly(ws, text, |text|);
    LongestWins(TERMS, text, u);
    var t := TermAt(TERMS, text, false).value;
    TermIsPlain(t);
    StandsExactly(t.words, text, |text|);
    SamePhrase(ws, t.words, text);
    TableIsGroups(t);
    OneMeaning(ws, intent, t.intent);
    FoundUnfolds(TERMS, text, false, 0);
    assert text[|text|..] == [] && Slice(text, 0, |text|) == text;
    assert Slice(text, 0, 0) == [] == Slice(text, |text|, |text|);
    FoundNothing(TERMS, text[|text|..], true, |text|);
    var f := Found(0, |text|, intent);
    assert Reported(text, [f]) == [SynonymMatch(text, intent)];
    assert Spliced(text, |text|, [f][1..]) == [];
  }

  lemma SamePhrase(us: seq<string>, ws: seq<string>, text: Text)
    requires ArePlain(us) && ArePlain(ws) && Stands(us, text, |text|) && Stands(ws, text, |text|)
    ensures us == ws
  {
    hide Normal, Phrase;
    KeysDiffer(us, ws);
  }

  // ----- case -----------------------------------------------------------------------------------

  /** The same text but for the case of its letters. */
  predicate Recased(s: Text, t: Text) {
    |s| == |t| && forall k | 0 <= k < |s| :: s[k] == t[k] || (s[k].Let? && t[k].Let? && s[k].letter == t[k].letter)
  }

  lemma RecasedTail(s: Text, t: Text, n: nat)
    requires Recased(s, t) && n <= |s|
    ensures Recased(s[n..], t[n..]) && IsBoundary(s[n..]) == IsBoundary(t[n..])
    ensures PrefixLen(s[n..], Spaces) == PrefixLen(t[n..], Spaces)
  {
    var g := PrefixLen(s[n..], Spaces);
    assert forall k | 0 <= k < |s| - n :: s[n..][k] == s[n + k] && t[n..][k] == t[n + k];
    PrefixIs(t[n..], Spaces, g);
  }

  lemma {:induction false} RecasedReach(ws: seq<string>, s: Text, t: Text)
    requires ws != [] && Recased(s, t)
    ensures ReachOf(ws, s) == ReachOf(ws, t)
    decreases |ws|
  {
    hide ReachOf, IsBoundary, PrefixLen, Recased;
    ReachUnfolds(ws, s);
    ReachUnfolds(ws, t);
    RecasedOpens(ws[0], s, t);
    if Opens(ws[0], s) {
      var n := |ws[0]|;
      RecasedTail(s, t, n);
      var g := PrefixLen(s[n..], Spaces);
      RecasedTail(s, t, n + g);
      if |ws| > 1 { RecasedReach(ws[1..], s[n + g..], t[n + g..]); }
    }
  }

  lemma RecasedOpens(w: string, s: Text, t: Text)
    requires Recased(s, t)
    ensures |s| == |t| && Opens(w, s) == Opens(w, t)
  {}

  lemma {:induction false} RecasedFirst(ts: seq<Term>, s: Text, t: Text)
    requires AreTerms(ts) && Recased(s, t)
    ensures FirstAt(ts, s) == FirstAt(ts, t)
    decreases |ts|
  {
    hide ReachOf, Recased;
    if ts != [] {
      assert IsTerm(ts[0]);
      RecasedReach(ts[0].words, s, t);
      RecasedFirst(ts[1..], s, t);
    }
  }

  /** Changing the case of letters changes nothing that is found. */
  lemma {:induction false} CaseDoesNotMatter(ts: seq<Term>, s: Text, t: Text, afterWord: bool, pos: nat)
    requires AreTerms(ts) && Recased(s, t)
    ensures FoundFrom(ts, s, afterWord, pos) == FoundFrom(ts, t, afterWord, pos)
    decreases |s|
  {
    hide ReachOf, FoundFrom, FirstAt, IsTerm, AreTerms;
    if s == [] {
      FoundNothing(ts, s, afterWord, pos);
      FoundNothing(ts, t, afterWord, pos);
    } else {
      FoundUnfolds(ts, s, afterWord, pos);
      FoundUnfolds(ts, t, afterWord, pos);
      RecasedFirst(ts, s, t);
      var u := TermAt(ts, s, afterWord);
      if u.Some? {
        TermIsPlain(u.value);
        RecasedReach(u.value.words, s, t);
        var n := ReachOf(u.value.words, s).len;
        RecasedTail(s, t, n);
        CaseDoesNotMatter(ts, s[n..], t[n..], true, pos + n);
      } else {
        RecasedTail(s, t, 1);
        assert IsWordChar(s[0]) == IsWordChar(t[0]);
        CaseDoesNotMatter(ts, s[1..], t[1..], IsWordChar(s[0]), pos + 1);
      }
    }
  }

  // ----- the text in pieces ---------------------------------------------------------------------

  /** A label is spelled out with letters in lower case, and with underscores. */
  lemma LabelReads(intent: string, k: nat)
    requires k < |intent|
    ensures LowerCh(LabelText(intent)[k]) == intent[k]
    ensures if intent[k] == '_' then LabelText(intent)[k].Under? else LabelText(intent)[k] == Let(intent[k], false)
  {}

  predicate InRow(text: Text, prev: nat, found: seq<Found>)
    decreases |found|
  {
    if found == [] then prev <= |text|
    else prev <= found[0].start <= found[0].end <= |text| && InRow(text, found[0].end, found[1..])
  }

  /** The text between the phrases found. */
  function Between(text: Text, prev: nat, found: seq<Found>): (gs: seq<Text>)
    ensures |gs| == |found| + 1
    decreases |found|
  {
    if found == [] then [Slice(text, prev, |text|)]
    else [Slice(text, prev, found[0].start)] + Between(text, found[0].end, found[1..])
  }

  function Terms(ms: seq<SynonymMatch>): (ts: seq<Text>)
    ensures |ts| == |ms|
  {
    seq(|ms|, k requires 0 <= k < |ms| => ms[k].term)
  }

  function LabelsOf(ms: seq<SynonymMatch>): (ls: seq<Text>)
    ensures |ls| == |ms|
  {
    seq(|ms|, k requires 0 <= k < |ms| => LabelText(ms[k].canonical))
  }

  lemma {:induction false} FoundInRow(ts: seq<Term>, text: Text, q: nat, prev: nat)
    requires AreTerms(ts) && prev <= q <= |text|
    ensures InRow(text, prev, FoundFrom(ts, text[q..], AfterWord(text, q), q))
    decreases |text| - q
  {
    hide FoundFrom, ReachOf, TermAt, AfterWord;
    if q == |text| {
      FoundNothing(ts, text[q..], AfterWord(text, q), q);
    } else {
      FoundStep(ts, text, q);
      var t := TermAt(ts, text[q..], AfterWord(text, q));
      if t.Some? {
        var e := q + ReachOf(t.value.words, text[q..]).len;
        FoundInRow(ts, text, e, e);
      } else {
        FoundInRow(ts, text, q + 1, prev);
      }
    }
  }

  lemma {:induction false} PiecedFrom(text: Text, prev: nat, found: seq<Found>)
    requires InRow(text, prev, found)
    ensures SetOut(Between(text, prev, found), Terms(Reported(text, found))) == Slice(text, prev, |text|)
    ensures SetOut(Between(text, prev, found), LabelsOf(Reported(text, found))) == Spliced(text, prev, found)
    decreases |found|
  {
    hide LabelText;
    if found != [] {
      var f, rest := found[0], found[1..];
      PiecedFrom(text, f.end, rest);
      assert Terms(Reported(text, found))[1..] == Terms(Reported(text, rest));
      assert LabelsOf(Reported(text, found))[1..] == LabelsOf(Reported(text, rest));
      assert Between(text, prev, found)[1..] == Between(text, f.end, rest);
      assert text[prev..] == text[prev..f.start] + text[f.start..f.end] + text[f.end..];
    }
  }

  /** Every phrase that is reported is one of the table, as it stands in the text, under its own label. */
  predicate IsReport(ts: seq<Term>, m: SynonymMatch)
    requires AreTerms(ts)
  {
    exists t | t in ts && IsTerm(t) :: t.intent == m.canonical && Stands(t.words, m.term, |m.term|)
  }

  lemma ReportIs(ts: seq<Term>, text: Text, f: Found)
    requires AreTerms(ts) && IsPhraseAt(ts, text, f)
    ensures IsReport(ts, SynonymMatch(Slice(text, f.start, f.end), f.intent))
  {
    hide IsSpoken, Normal, Phrase, AfterWord, IsPlainWord;
    var t :| t in ts && IsTerm(t) && t.intent == f.intent && Stands(t.words, text[f.start..], f.end - f.start);
    var raw := Slice(text, f.start, f.end);
    assert text[f.start..][..f.end - f.start] == raw && raw[..|raw|] == raw && raw[|raw|..] == [];
    assert Stands(t.words, raw, |raw|);
  }

  /** The phrases reported, with the text between them, are the text; with their labels in their places
      they are the text that is returned. */
  lemma TextInPieces(ts: seq<Term>, text: Text) returns (gs: seq<Text>)
    requires AreTerms(ts)
    ensures var m := MapWith(ts, text);
            |gs| == |m.matches| + 1 && SetOut(gs, Terms(m.matches)) == text && SetOut(gs, LabelsOf(m.matches)) == m.text
    ensures forall m | m in MapWith(ts, text).matches :: IsReport(ts, m)
  {
    hide FoundFrom, SetOut, Between, Spliced, IsPhraseAt, IsReport, LabelText;
    var found := FoundFrom(ts, text, false, 0);
    assert text[0..] == text;
    StartsFresh(text);
    FoundInRow(ts, text, 0, 0);
    OnlyOccurrences(ts, text, 0);
    PiecedFrom(text, 0, found);
    gs := Between(text, 0, found);
    assert Slice(text, 0, |text|) == text;
    if found == [] { NothingMapped(text, gs); }
    forall m | m in MapWith(ts, text).matches ensures IsReport(ts, m) {
      var k :| 0 <= k < |found| && m == Reported(text, found)[k];
      assert found[k] in found;
      ReportIs(ts, text, found[k]);
    }
  }

  lemma NothingMapped(text: Text, gs: seq<Text>)
    requires gs == Between(text, 0, [])
    ensures SetOut(gs, []) == text && Terms([]) == [] && LabelsOf([]) == []
  {}
}
