/** Rewriting synonyms twice changes nothing more than rewriting them once. */
module SynonymFacts {
  import opened Text
  import opened Phrases
  import opened Synonyms

  /** The rewritten text, character by character. */
  function Rewrite(ts: seq<Term>, s: Text, afterWord: bool): Text
    requires AreTerms(ts)
    decreases |s|
  {
    if s == [] then []
    else
      var t := TermAt(ts, s, afterWord);
      if t.Some? then LabelText(t.value.intent) + Rewrite(ts, s[ReachOf(t.value.words, s).len..], true)
      else [s[0]] + Rewrite(ts, s[1..], IsWordChar(s[0]))
  }

  lemma RewriteUnfolds(ts: seq<Term>, s: Text, afterWord: bool)
    requires AreTerms(ts) && s != []
    ensures var t := TermAt(ts, s, afterWord);
            t.Some? ==>
              var n := ReachOf(t.value.words, s).len;
              0 < n <= |s| && s[n - 1].Let? && IsBoundary(s[n..])
              && Rewrite(ts, s, afterWord) == LabelText(t.value.intent) + Rewrite(ts, s[n..], true)
    ensures TermAt(ts, s, afterWord).None? ==>
              Rewrite(ts, s, afterWord) == [s[0]] + Rewrite(ts, s[1..], IsWordChar(s[0]))
  {
    hide ReachOf, TermAt;
    var t := TermAt(ts, s, afterWord);
    if t.Some? {
      EndsInLetter(t.value, s);
      EndsAtBoundary(t.value.words, s);
    }
  }

  lemma {:induction false} EndsAtBoundary(ws: seq<string>, s: Text)
    requires ws != [] && ReachOf(ws, s).Hit?
    ensures IsBoundary(s[ReachOf(ws, s).len..])
    decreases |ws|
  {
    if |ws| > 1 {
      var n := |ws[0]|;
      var gap := PrefixLen(s[n..], Spaces);
      EndsAtBoundary(ws[1..], s[n + gap..]);
      assert s[n + gap..][ReachOf(ws[1..], s[n + gap..]).len..] == s[ReachOf(ws, s).len..];
    }
  }

  // ----- splicing is rewriting ------------------------------------------------------------------

  lemma {:induction false} FoundLater(ts: seq<Term>, s: Text, afterWord: bool, pos: nat)
    requires AreTerms(ts)
    ensures forall f | f in FoundFrom(ts, s, afterWord, pos) :: pos <= f.start < f.end <= pos + |s|
    decreases |s|
  {
    hide TermAt, ReachOf, FoundFrom;
    if s == [] {
      FoundNothing(ts, s, afterWord, pos);
    } else {
      FoundUnfolds(ts, s, afterWord, pos);
      var t := TermAt(ts, s, afterWord);
      if t.Some? {
        var n := ReachOf(t.value.words, s).len;
        FoundLater(ts, s[n..], true, pos + n);
      } else {
        FoundLater(ts, s[1..], IsWordChar(s[0]), pos + 1);
      }
    }
  }

  lemma SplicedLater(text: Text, p: nat, found: seq<Found>)
    requires p < |text| && (found != [] ==> p < found[0].start <= |text|)
    ensures Spliced(text, p, found) == [text[p]] + Spliced(text, p + 1, found)
  {
    hide LabelText;
    if found == [] {
      assert text[p..|text|] == [text[p]] + text[p + 1..|text|];
    } else {
      assert text[p..found[0].start] == [text[p]] + text[p + 1..found[0].start];
    }
  }

  /** The two loops, which collect matches and then splice, rewrite the text character by character. */
  lemma {:induction false} SplicedIsRewrite(ts: seq<Term>, text: Text, p: nat, afterWord: bool)
    requires AreTerms(ts) && p <= |text|
    ensures Spliced(text, p, FoundFrom(ts, text[p..], afterWord, p)) == Rewrite(ts, text[p..], afterWord)
    decreases |text| - p
  {
    hide TermAt, ReachOf, FoundFrom, Rewrite, Spliced, LabelText;
    var s := text[p..];
    if p == |text| {
      FoundNothing(ts, s, afterWord, p);
      NothingSpliced(ts, text, afterWord);
    } else {
      FoundUnfolds(ts, s, afterWord, p);
      RewriteUnfolds(ts, s, afterWord);
      var t := TermAt(ts, s, afterWord);
      if t.Some? {
        var n := ReachOf(t.value.words, s).len;
        assert s[n..] == text[p + n..];
        SplicedIsRewrite(ts, text, p + n, true);
        SplicedCons(text, p, Found(p, p + n, t.value.intent), FoundFrom(ts, text[p + n..], true, p + n));
      } else {
        assert s[1..] == text[p + 1..];
        FoundLater(ts, s[1..], IsWordChar(s[0]), p + 1);
        SplicedIsRewrite(ts, text, p + 1, IsWordChar(s[0]));
        SplicedLater(text, p, FoundFrom(ts, s, afterWord, p));
      }
    }
  }

  lemma NothingSpliced(ts: seq<Term>, text: Text, afterWord: bool)
    requires AreTerms(ts)
    ensures Spliced(text, |text|, []) == Rewrite(ts, text[|text|..], afterWord) == []
  {}

  lemma SplicedCons(text: Text, p: nat, f: Found, rest: seq<Found>)
    requires f.start == p <= |text|
    ensures Spliced(text, p, [f] + rest) == LabelText(f.intent) + Spliced(text, f.end, rest)
  {
    hide LabelText;
    assert ([f] + rest)[1..] == rest;
    assert Slice(text, p, p) == [];
  }

  // ----- what a sound table is ------------------------------------------------------------------

  /** The facts about a table that the theorem rests on: every phrase means one of the labels, and a
      word that is itself a label stands for nothing but itself. */
  predicate IsSoundTerm(t: Term, labels: set<string>) {
    IsTerm(t) && t.intent in labels && t.intent != ""
    && forall k | 0 <= k < |t.words| && t.words[k] in labels :: |t.words| == 1 && t.intent == t.words[0]
  }

  predicate IsSound(ts: seq<Term>, labels: set<string>) {
    AreTerms(ts) && forall t | t in ts :: IsSoundTerm(t, labels)
  }

  // ----- words and labels -----------------------------------------------------------------------

  /** A word that ends at a boundary ends where the run of word characters ends. */
  lemma RunLength(w: string, s: Text, m: nat)
    requires Opens(w, s) && IsBoundary(s[|w|..])
    requires m <= |s| && IsBoundary(s[m..]) && forall k | 0 <= k < m :: IsWordChar(s[k])
    ensures |w| == m
  {
    assert |w| < |s| ==> s[|w|..][0] == s[|w|];
    assert m < |s| ==> s[m..][0] == s[m];
  }

  /** A word that fills a label up to a boundary is the label. */
  lemma LabelRun(w: string, l: string, r: Text)
    requires IsBoundary(r) && Opens(w, LabelText(l) + r)
    requires IsBoundary((LabelText(l) + r)[|w|..])
    ensures w == l
  {
    var s := LabelText(l) + r;
    assert s[|l|..] == r;
    RunLength(w, s, |l|);
    forall k | 0 <= k < |w| ensures w[k] == l[k] {
      assert s[k] == LabelText(l)[k];
    }
  }

  /** No phrase starts with a character that is not a letter. */
  lemma NeedsLetter(ts: seq<Term>, s: Text, afterWord: bool)
    requires AreTerms(ts) && s != [] && !s[0].Let?
    ensures TermAt(ts, s, afterWord).None?
  {
    hide FirstAt;
    forall t | t in ts && IsTerm(t) ensures ReachOf(t.words, s).Miss? {
      assert t.words[0] != "";
    }
  }

  // ----- what rewriting copies ------------------------------------------------------------------

  /** A run of word characters is copied if no phrase is taken at its head. */
  lemma {:induction false} Copied(ts: seq<Term>, s: Text, afterWord: bool, m: nat)
    requires AreTerms(ts) && 0 < m <= |s| && forall k | 0 <= k < m :: IsWordChar(s[k])
    requires TermAt(ts, s, afterWord).None?
    ensures Rewrite(ts, s, afterWord) == s[..m] + Rewrite(ts, s[m..], true)
    decreases m
  {
    hide Rewrite, FirstAt;
    RewriteUnfolds(ts, s, afterWord);
    if m > 1 {
      Copied(ts, s[1..], true, m - 1);
      assert s[1..][m - 1..] == s[m..];
      assert s[..m] == [s[0]] + s[1..][..m - 1];
    }
  }

  /** Behind a word, a boundary stays a boundary. */
  lemma BoundaryKept(ts: seq<Term>, s: Text)
    requires AreTerms(ts) && IsBoundary(s)
    ensures IsBoundary(Rewrite(ts, s, true))
    ensures s != [] ==> Rewrite(ts, s, true) == [s[0]] + Rewrite(ts, s[1..], false)
  {
    hide Rewrite;
    if s == [] {
      assert Rewrite(ts, s, true) == [] by { RewriteNothing(ts, true); }
    } else {
      RewriteUnfolds(ts, s, true);
    }
  }

  lemma RewriteNothing(ts: seq<Term>, afterWord: bool)
    requires AreTerms(ts)
    ensures Rewrite(ts, [], afterWord) == []
  {}

  /** Rewriting does not make whitespace. */
  lemma NoNewSpace(ts: seq<Term>, labels: set<string>, s: Text)
    requires IsSound(ts, labels) && s != [] && !s[0].Space?
    ensures var r := Rewrite(ts, s, false); r != [] && !r[0].Space?
  {
    hide Rewrite, TermAt;
    RewriteUnfolds(ts, s, false);
    var t := TermAt(ts, s, false);
    if t.Some? { assert IsSoundTerm(t.value, labels) && !LabelText(t.value.intent)[0].Space?; }
  }

  /** Whitespace is copied. */
  lemma {:induction false} SpacesKept(ts: seq<Term>, labels: set<string>, s: Text, afterWord: bool)
    requires IsSound(ts, labels) && s != [] && s[0].Space?
    ensures var g := PrefixLen(s, Spaces);
            0 < g && Rewrite(ts, s, afterWord) == s[..g] + Rewrite(ts, s[g..], false)
            && PrefixLen(Rewrite(ts, s, afterWord), Spaces) == g
    decreases |s|
  {
    hide Rewrite, TermAt, IsSoundTerm;
    NeedsLetter(ts, s, afterWord);
    RewriteUnfolds(ts, s, afterWord);
    var rest := s[1..];
    var r := Rewrite(ts, rest, false);
    if rest == [] {
      RewriteNothing(ts, false);
    } else if rest[0].Space? {
      SpacesKept(ts, labels, rest, false);
      assert rest[PrefixLen(rest, Spaces)..] == s[PrefixLen(s, Spaces)..];
    } else {
      NoNewSpace(ts, labels, rest);
    }
    assert ([s[0]] + r)[1..] == r;
  }

  // ----- rewriting makes no new phrase ----------------------------------------------------------

  /** One word of a phrase in the rewritten text is that word in the text, up to the same boundary. */
  lemma WordReflects(ts: seq<Term>, s: Text, w: string)
    requires AreTerms(ts) && TermAt(ts, s, false).None? && w != ""
    requires Opens(w, Rewrite(ts, s, false)) && IsBoundary(Rewrite(ts, s, false)[|w|..])
    ensures Opens(w, s) && |w| <= |s| && IsBoundary(s[|w|..])
    ensures Rewrite(ts, s, false)[|w|..] == Rewrite(ts, s[|w|..], true)
  {
    hide Rewrite, TermAt;
    var out := Rewrite(ts, s, false);
    RewriteNothing(ts, false);
    RewriteUnfolds(ts, s, false);
    assert out[0].Let? && out[0] == s[0];
    var m := PrefixLen(s, WordChars);
    Copied(ts, s, false, m);
    var r := Rewrite(ts, s[m..], true);
    BoundaryKept(ts, s[m..]);
    assert out == s[..m] + r && out[m..] == r;
    forall k | 0 <= k < m ensures s[k] == out[k] {}
    RunLength(w, out, m);
  }

  /** A phrase is its first word, whitespace, and the phrase of its other words. */
  lemma ReachSplits(ws: seq<string>, s: Text)
    requires ws != []
    ensures ReachOf(ws, s).Hit? <==>
              Opens(ws[0], s) && |ws[0]| <= |s|
              && var rest := s[|ws[0]|..];
                 if |ws| == 1 then IsBoundary(rest)
                 else
                   var g := PrefixLen(rest, Spaces);
                   0 < g && ReachOf(ws[1..], rest[g..]).Hit?
  {
    hide IsBoundary, PrefixLen, Opens;
    if Opens(ws[0], s) && |ws[0]| <= |s| {
      if |ws| > 1 {
        var rest := s[|ws[0]|..];
        var g := PrefixLen(rest, Spaces);
        assert rest[g..] == s[|ws[0]| + g..];
        match ReachOf(ws[1..], s[|ws[0]| + g..])
        case Miss =>
        case Hit(m) =>
      }
    }
  }

  /** A phrase whose words are no labels stands in the rewritten text only where it stood before. */
  lemma {:induction false} Reflect(ts: seq<Term>, labels: set<string>, ws: seq<string>, s: Text)
    requires IsSound(ts, labels) && ws != [] && forall k | 0 <= k < |ws| :: ws[k] != ""
    requires forall k | 1 <= k < |ws| :: ws[k] !in labels
    requires TermAt(ts, s, false).Some? ==> ws[0] !in labels
    requires ReachOf(ws, Rewrite(ts, s, false)).Hit?
    ensures ReachOf(ws, s).Hit?
    decreases |ws|
  {
    hide Rewrite, TermAt, Opens, IsBoundary, LabelText, ReachOf, IsSoundTerm;
    var out := Rewrite(ts, s, false);
    FirstWord(ws, out);
    ReachSplits(ws, out);
    NoLabelThere(ts, labels, s, ws[0]);
    WordReflects(ts, s, ws[0]);
    if |ws| > 1 {
      var n := |ws[0]|;
      var rest := s[n..];
      GapReflects(ts, labels, rest, out[n..]);
      var g := PrefixLen(rest, Spaces);
      assert out[n + g..] == out[n..][g..] && s[n + g..] == rest[g..];
      Reflect(ts, labels, ws[1..], s[n + g..]);
    }
    ReachSplits(ws, s);
  }

  /** Where a phrase was replaced, the rewritten text opens with no word but a label. */
  lemma NoLabelThere(ts: seq<Term>, labels: set<string>, s: Text, w: string)
    requires IsSound(ts, labels) && w != ""
    requires Opens(w, Rewrite(ts, s, false)) && IsBoundary(Rewrite(ts, s, false)[|w|..])
    ensures TermAt(ts, s, false).Some? ==> w in labels && w == TermAt(ts, s, false).value.intent
  {
    hide Rewrite, TermAt, ReachOf, Opens, LabelText;
    RewriteNothing(ts, false);
    var t := TermAt(ts, s, false);
    if t.Some? {
      StandsSomewhere(ts, s);
      RewriteUnfolds(ts, s, false);
      var r := Rewrite(ts, s[ReachOf(t.value.words, s).len..], true);
      BoundaryKept(ts, s[ReachOf(t.value.words, s).len..]);
      LabelRun(w, t.value.intent, r);
      assert IsSoundTerm(t.value, labels);
    }
  }

  lemma StandsSomewhere(ts: seq<Term>, s: Text)
    requires AreTerms(ts) && TermAt(ts, s, false).Some?
    ensures s != []
  {
    EndsInLetter(TermAt(ts, s, false).value, s);
  }

  /** The whitespace behind a word is whitespace of the text. */
  lemma GapReflects(ts: seq<Term>, labels: set<string>, rest: Text, out: Text)
    requires IsSound(ts, labels) && out == Rewrite(ts, rest, true) && PrefixLen(out, Spaces) > 0
    ensures var g := PrefixLen(rest, Spaces);
            0 < g && g == PrefixLen(out, Spaces) && out[g..] == Rewrite(ts, rest[g..], false)
  {
    hide Rewrite, FirstAt, IsSoundTerm;
    RewriteNothing(ts, true);
    RewriteUnfolds(ts, rest, true);
    assert out[0].Space? && out[0] == rest[0];
    SpacesKept(ts, labels, rest, true);
  }

  // ----- idempotence ----------------------------------------------------------------------------

  /** Rewriting the rewritten text changes nothing. */
  lemma {:induction false} RewriteTwice(ts: seq<Term>, labels: set<string>, s: Text, afterWord: bool)
    requires IsSound(ts, labels)
    ensures Rewrite(ts, Rewrite(ts, s, afterWord), afterWord) == Rewrite(ts, s, afterWord)
    decreases |s|
  {
    hide Rewrite, TermAt, ReachOf, LabelText;
    if s == [] {
      RewriteNothing(ts, afterWord);
    } else {
      RewriteUnfolds(ts, s, afterWord);
      var t := TermAt(ts, s, afterWord);
      if t.Some? {
        var rest := s[ReachOf(t.value.words, s).len..];
        assert IsSoundTerm(t.value, labels);
        RewriteTwice(ts, labels, rest, true);
        BoundaryKept(ts, rest);
        LabelStays(ts, labels, t.value.intent, Rewrite(ts, rest, true), afterWord);
      } else {
        var r := Rewrite(ts, s[1..], IsWordChar(s[0]));
        RewriteTwice(ts, labels, s[1..], IsWordChar(s[0]));
        NoneAgain(ts, labels, s, afterWord);
        RewriteUnfolds(ts, [s[0]] + r, afterWord);
        assert ([s[0]] + r)[1..] == r;
      }
    }
  }

  /** Where no phrase was taken, none can be taken in the rewritten text. */
  lemma NoneAgain(ts: seq<Term>, labels: set<string>, s: Text, afterWord: bool)
    requires IsSound(ts, labels) && s != [] && TermAt(ts, s, afterWord).None?
    ensures TermAt(ts, Rewrite(ts, s, afterWord), afterWord).None?
  {
    hide Rewrite, ReachOf, FirstAt;
    if !afterWord {
      var out := Rewrite(ts, s, false);
      forall u | u in ts && IsTerm(u) ensures ReachOf(u.words, out).Miss? {
        if ReachOf(u.words, out).Hit? {
          assert IsSoundTerm(u, labels);
          Reflect(ts, labels, u.words, s);
        }
      }
    }
  }

  /** A label is rewritten to itself. */
  lemma LabelStays(ts: seq<Term>, labels: set<string>, l: string, r: Text, afterWord: bool)
    requires IsSound(ts, labels) && l in labels && l != "" && IsBoundary(r)
    ensures Rewrite(ts, LabelText(l) + r, afterWord) == LabelText(l) + Rewrite(ts, r, true)
  {
    hide Rewrite, TermAt, Opens, IsBoundary;
    var out := LabelText(l) + r;
    var u := TermAt(ts, out, afterWord);
    assert out[|l|..] == r;
    if u.Some? {
      FirstWord(u.value.words, out);
      LabelRun(u.value.words[0], l, r);
      assert IsSoundTerm(u.value, labels);
      assert u.value.words == [l];
      RewriteUnfolds(ts, out, afterWord);
    } else {
      Copied(ts, out, afterWord, |l|);
      assert out[..|l|] == LabelText(l);
    }
  }

  /** Mapping the synonyms of a mapped text gives the mapped text. */
  lemma MapTwice(ts: seq<Term>, labels: set<string>, text: Text)
    requires IsSound(ts, labels)
    ensures var once := MapWith(ts, text).text; MapWith(ts, once).text == once
  {
    hide Rewrite, FoundFrom, Spliced;
    var once := MapWith(ts, text).text;
    MapIsRewrite(ts, text);
    MapIsRewrite(ts, once);
    RewriteTwice(ts, labels, text, false);
  }

  /** The mapped text is the text rewritten character by character. */
  lemma MapIsRewrite(ts: seq<Term>, text: Text)
    requires AreTerms(ts)
    ensures MapWith(ts, text).text == Rewrite(ts, text, false)
  {
    hide Rewrite, FoundFrom;
    assert text[0..] == text && Slice(text, 0, |text|) == text;
    SplicedIsRewrite(ts, text, 0, false);
  }
}
