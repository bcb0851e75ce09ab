/** The phrases of the synonym dictionary: how one stands in a text, and how the dictionary finds it
    again from the text that matched. */
module Phrases {
  import opened Text
  import opened Vocabulary

  /** A phrase as its words, and the canonical label it means. */
  datatype Term = Term(words: seq<string>, intent: string)

  // ----- the pattern ----------------------------------------------------------------------------

  /** How far a phrase reaches from the head of a text, if it is there. */
  datatype Reach = Miss | Hit(len: nat)

  /** `s` opens with the word `w`, in any case. */
  predicate Opens(w: string, s: Text) {
    |w| <= |s| && forall k | 0 <= k < |w| :: s[k].Let? && s[k].letter == w[k]
  }

  predicate IsBoundary(s: Text) { s == [] || !IsWordChar(s[0]) }

  /** The words one after the other with whitespace between them, and no word character behind. */
  function ReachOf(ws: seq<string>, s: Text): (r: Reach)
    requires ws != []
    ensures r.Hit? ==> |ws[0]| <= r.len <= |s|
  {
    if !Opens(ws[0], s) then Miss
    else
      var n := |ws[0]|;
      var gap := PrefixLen(s[n..], Spaces);
      if |ws| == 1 then (if IsBoundary(s[n..]) then Hit(n) else Miss)
      else if gap == 0 then Miss
      else
        match ReachOf(ws[1..], s[n + gap..])
        case Miss => Miss
        case Hit(m) => Hit(n + gap + m)
  }

  /** A word of a phrase: not empty, and without blanks. */
  predicate IsPlainWord(w: string) { w != "" && ' ' !in w }

  predicate IsTerm(t: Term) { t.words != [] && forall k | 0 <= k < |t.words| :: IsPlainWord(t.words[k]) }

  predicate AreTerms(ts: seq<Term>) { forall k | 0 <= k < |ts| :: IsTerm(ts[k]) }

  /** The first term of the list that stands at the head of `s`: the regular expression takes the
      first alternative that matches. */
  function FirstAt(ts: seq<Term>, s: Text): (t: Option<Term>)
    requires AreTerms(ts)
    ensures t.Some? ==> t.value in ts && IsTerm(t.value) && ReachOf(t.value.words, s).Hit?
    ensures t.None? ==> forall u | u in ts :: IsTerm(u) && ReachOf(u.words, s).Miss?
  {
    if ts == [] then None
    else
      assert IsTerm(ts[0]);
      if ReachOf(ts[0].words, s).Hit? then Some(ts[0]) else FirstAt(ts[1..], s)
  }

  /** A phrase ends in a letter. */
  lemma {:induction false} EndsInLetter(t: Term, s: Text)
    requires IsTerm(t) && ReachOf(t.words, s).Hit?
    ensures var n := ReachOf(t.words, s).len; 0 < n <= |s| && s[n - 1].Let?
    decreases |t.words|
  {
    var n := |t.words[0]|;
    if |t.words| > 1 {
      var gap := PrefixLen(s[n..], Spaces);
      var rest := Term(t.words[1..], t.intent);
      EndsInLetter(rest, s[n + gap..]);
      var m := ReachOf(rest.words, s[n + gap..]).len;
      assert s[n + gap..][m - 1] == s[n + gap + m - 1];
    }
  }

  /** A phrase that is there ends its first word at a boundary. */
  lemma FirstWord(ws: seq<string>, s: Text)
    requires ws != [] && ReachOf(ws, s).Hit?
    ensures Opens(ws[0], s) && IsBoundary(s[|ws[0]|..])
  {
    hide Opens;
    var r := s[|ws[0]|..];
    if |ws| > 1 { assert r[0].Space?; }
  }

  // ----- the key of a phrase --------------------------------------------------------------------

  /** The words with single spaces between them: the key of the dictionary. */
  function Phrase(ws: seq<string>): string
    requires ws != []
  {
    if |ws| == 1 then ws[0] else ws[0] + " " + Phrase(ws[1..])
  }

  /** The text in lower case with every run of whitespace turned into one space. */
  function Normal(s: Text): string
    decreases |s|
  {
    if s == [] then ""
    else if s[0].Space? then " " + Normal(s[PrefixLen(s, Spaces)..])
    else [LowerCh(s[0])] + Normal(s[1..])
  }

  lemma NormalNothing()
    ensures Normal([]) == ""
  {}

  lemma {:induction false} NormalWord(w: string, s: Text)
    requires Opens(w, s)
    ensures Normal(s) == w + Normal(s[|w|..])
    decreases |w|
  {
    hide PrefixLen;
    if w == "" {
      assert s[0..] == s;
    } else {
      assert s[0].Let?;
      NormalWord(w[1..], s[1..]);
      assert s[1..][|w| - 1..] == s[|w|..];
      assert w == [w[0]] + w[1..];
    }
  }

  lemma NormalGap(gap: Text, rest: Text)
    requires gap != [] && All(gap, Spaces) && (rest != [] ==> !rest[0].Space?)
    ensures Normal(gap + rest) == " " + Normal(rest)
  {
    var s := gap + rest;
    assert s[0] == gap[0];
    assert |gap| < |s| ==> s[|gap|] == rest[0];
    PrefixIs(s, Spaces, |gap|);
    assert s[|gap|..] == rest;
  }

  lemma ReachLen(ws: seq<string>, s: Text)
    requires ws != [] && ReachOf(ws, s).Hit?
    ensures var n := |ws[0]|;
            if |ws| == 1 then ReachOf(ws, s).len == n
            else
              var g := PrefixLen(s[n..], Spaces);
              var later := ReachOf(ws[1..], s[n..][g..]);
              0 < g && later.Hit? && ReachOf(ws, s).len == n + g + later.len
  {
    hide Opens, IsBoundary, PrefixLen;
    if |ws| > 1 {
      var n := |ws[0]|;
      var g := PrefixLen(s[n..], Spaces);
      assert s[n..][g..] == s[n + g..];
    }
  }

  /** The text of a match, in lower case and with its whitespace collapsed, is the phrase: the lookup in
      the dictionary never misses. */
  lemma {:induction false} LookupHits(ws: seq<string>, s: Text)
    requires ws != [] && ReachOf(ws, s).Hit?
    ensures Normal(s[..ReachOf(ws, s).len]) == Phrase(ws)
    decreases |ws|
  {
    hide Normal, IsBoundary, ReachOf;
    FirstWord(ws, s);
    ReachLen(ws, s);
    var n := |ws[0]|;
    var e := ReachOf(ws, s).len;
    assert Opens(ws[0], s[..e]);
    NormalWord(ws[0], s[..e]);
    if |ws| == 1 {
      assert s[..e][n..] == [];
      NormalNothing();
    } else {
      var g := PrefixLen(s[n..], Spaces);
      var rest := s[n..][g..];
      var m := ReachOf(ws[1..], rest).len;
      LookupHits(ws[1..], rest);
      assert rest != [] ==> rest[0] == s[n..][g];
      assert s[..e][n..] == s[n..][..g] + rest[..m];
      NormalGap(s[n..][..g], rest[..m]);
    }
  }

  // ----- the dictionary -------------------------------------------------------------------------

  /** What the dictionary gives for a key. */
  function Lookup(ts: seq<Term>, key: string): Option<string>
    requires AreTerms(ts)
  {
    if ts == [] then None
    else
      assert IsTerm(ts[0]);
      if Phrase(ts[0].words) == key then Some(ts[0].intent) else Lookup(ts[1..], key)
  }

  lemma PhraseUnfolds(ws: seq<string>)
    requires ws != []
    ensures |ws| == 1 ==> Phrase(ws) == ws[0]
    ensures |ws| > 1 ==> Phrase(ws) == ws[0] + (" " + Phrase(ws[1..]))
  {
    if |ws| > 1 { assert ws[0] + " " + Phrase(ws[1..]) == ws[0] + (" " + Phrase(ws[1..])); }
  }

  /** The first word of a phrase ends at its first blank. */
  lemma FirstBlank(ws: seq<string>, k: nat)
    requires ws != [] && ' ' !in ws[0] && k <= |ws[0]|
    ensures |ws[0]| <= |Phrase(ws)| && Phrase(ws)[..|ws[0]|] == ws[0]
    ensures k < |ws[0]| ==> Phrase(ws)[k] != ' '
    ensures |ws| == 1 ==> |Phrase(ws)| == |ws[0]|
    ensures |ws| > 1 ==>
              |ws[0]| < |Phrase(ws)| && Phrase(ws)[|ws[0]|] == ' ' && Phrase(ws)[|ws[0]| + 1..] == Phrase(ws[1..])
  {
    hide Phrase;
    PhraseUnfolds(ws);
    if k < |ws[0]| { assert Phrase(ws)[k] == ws[0][k]; }
  }

  /** Different phrases have different keys. */
  lemma {:induction false} KeysDiffer(us: seq<string>, ws: seq<string>)
    requires us != [] && ws != [] && Phrase(us) == Phrase(ws)
    requires forall k | 0 <= k < |us| :: IsPlainWord(us[k])
    requires forall k | 0 <= k < |ws| :: IsPlainWord(ws[k])
    ensures us == ws
    decreases |us|
  {
    hide Phrase;
    assert IsPlainWord(us[0]) && IsPlainWord(ws[0]);
    FirstBlank(us, if |us[0]| < |ws[0]| then |us[0]| else |ws[0]|);
    FirstBlank(us, if |ws[0]| <= |us[0]| then |ws[0]| else 0);
    FirstBlank(ws, if |us[0]| <= |ws[0]| then |us[0]| else 0);
    assert |us[0]| == |ws[0]|;
    assert us[0] == ws[0];
    if |us| > 1 {
      KeysDiffer(us[1..], ws[1..]);
      assert us == [us[0]] + us[1..] && ws == [ws[0]] + ws[1..];
    }
  }

  /** The dictionary gives the label of the phrase that matched: looked up in lower case and with its
      whitespace collapsed, the text of a match is never missed, and never taken for another phrase. */
  lemma {:induction false} LookupFinds(ts: seq<Term>, s: Text)
    requires AreTerms(ts) && FirstAt(ts, s).Some?
    ensures var t := FirstAt(ts, s).value; Lookup(ts, Normal(s[..ReachOf(t.words, s).len])) == Some(t.intent)
    decreases |ts|
  {
    hide ReachOf, Phrase, Normal;
    var t := FirstAt(ts, s).value;
    LookupHits(t.words, s);
    assert IsTerm(ts[0]);
    if ReachOf(ts[0].words, s).Miss? {
      LookupFinds(ts[1..], s);
      if Phrase(ts[0].words) == Phrase(t.words) { KeysDiffer(ts[0].words, t.words); }
    }
  }
}
