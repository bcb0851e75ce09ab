/** Texts as sequences of classified characters, and the scanners the regular expressions need.

    A character carries the class Python's `re` gives it: a decimal digit (`\d`), a letter
    (`[^\W\d_]`), whitespace (`\s`), the underscore, or any other symbol.  A letter is a lower-case
    letter together with a flag for its case, so that lower-casing is a total function. */
module Text {

  type Digit = d: nat | d < 10

  datatype Ch =
    | Dig(digit: Digit)
    | Let(letter: char, upper: bool)
    | Space(space: char)
    | Under
    | Sym(symbol: char)

  type Text = seq<Ch>

  datatype Class = Digits | Letters | WordChars | Spaces

  predicate In(c: Ch, cls: Class) {
    match cls
    case Digits => c.Dig?
    case Letters => c.Let?
    case WordChars => c.Dig? || c.Let? || c.Under?
    case Spaces => c.Space?
  }

  predicate IsWordChar(c: Ch) { In(c, WordChars) }

  /** A word character stands before position `p`: what the lookbehind `(?<!\w)` forbids. */
  predicate AfterWord(text: Text, p: nat)
    requires p <= |text|
  {
    p > 0 && IsWordChar(text[p - 1])
  }

  lemma StartsFresh(text: Text)
    ensures !AfterWord(text, 0)
  {}

  predicate IsSep(c: Ch) { c == Sym('.') || c == Sym(',') }

  predicate All(s: Text, cls: Class) { forall k | 0 <= k < |s| :: In(s[k], cls) }

  /** The length of the longest prefix of `s` made of characters of one class. */
  function PrefixLen(s: Text, cls: Class): (n: nat)
    ensures n <= |s|
    ensures forall k | 0 <= k < n :: In(s[k], cls)
    ensures n < |s| ==> !In(s[n], cls)
  {
    if s != [] && In(s[0], cls) then 1 + PrefixLen(s[1..], cls) else 0
  }

  lemma PrefixIs(s: Text, cls: Class, n: nat)
    requires n <= |s|
    requires forall k | 0 <= k < n :: In(s[k], cls)
    requires n < |s| ==> !In(s[n], cls)
    ensures PrefixLen(s, cls) == n
  {}

  /** A scan of a text that starts inside `a` and ends before the end of `a` sees only `a`. */
  lemma PrefixOf(a: Text, r: Text, cls: Class)
    requires PrefixLen(a, cls) < |a| || r == [] || !In(r[0], cls)
    ensures PrefixLen(a + r, cls) == PrefixLen(a, cls)
  {
    var n := PrefixLen(a, cls);
    var s := a + r;
    assert forall k | 0 <= k < n :: s[k] == a[k];
    PrefixIs(s, cls, n);
  }

  /** Python's `text[p:]` and `text[a:b]`, which clamp their bounds. */
  function From(s: Text, p: nat): Text { if p <= |s| then s[p..] else [] }

  function Slice(s: Text, a: nat, b: nat): Text {
    var hi := if b <= |s| then b else |s|;
    if a <= hi then s[a..hi] else []
  }

  function LowerCh(c: Ch): char {
    match c
    case Dig(d) => '0' + d as char
    case Let(l, _) => l
    case Space(c) => c
    case Under => '_'
    case Sym(c) => c
  }

  function Lower(s: Text): (w: string)
    ensures |w| == |s|
  {
    seq(|s|, i requires 0 <= i < |s| => LowerCh(s[i]))
  }

  /** A lower-case word as text. */
  function Written(w: string): (s: Text)
    ensures |s| == |w|
  {
    seq(|w|, i requires 0 <= i < |w| => Let(w[i], false))
  }

  lemma LowerWritten(w: string)
    ensures All(Written(w), Letters) && Lower(Written(w)) == w
  {}

  // ----- decimal numerals ---------------------------------------------------------------------

  /** The number a run of digits denotes, most significant digit first. */
  function NatOf(s: Text): nat {
    if s == [] then 0
    else 10 * NatOf(s[..|s| - 1]) + if s[|s| - 1].Dig? then s[|s| - 1].digit else 0
  }

  /** The canonical decimal numeral of `n`. */
  function Decimal(n: nat): (s: Text)
    ensures s != [] && All(s, Digits)
    ensures n < 10 ==> |s| == 1
    ensures 10 <= n ==> |s| == 1 + |Decimal(n / 10)|
  {
    if n < 10 then [Dig(n)] else Decimal(n / 10) + [Dig(n % 10)]
  }

  lemma {:induction false} NatOfDecimal(n: nat)
    ensures NatOf(Decimal(n)) == n
  {
    if n >= 10 {
      NatOfDecimal(n / 10);
      assert Decimal(n)[..|Decimal(n)| - 1] == Decimal(n / 10);
    } else {
      assert Decimal(n)[..0] == [];
    }
  }

  /** How many digits `Decimal` writes, as far as the shape guards look. */
  lemma DecimalLength(n: nat)
    ensures |Decimal(n)| <= 2 <==> n < 100
    ensures |Decimal(n)| <= 3 <==> n < 1000
    ensures |Decimal(n)| == 4 <==> 1000 <= n < 10000
    ensures Decimal(n)[0] == Dig(0) <==> n == 0
  {
    DecimalLead(n);
    if n >= 10 { if n / 10 >= 10 { if n / 100 >= 10 { if n / 1000 >= 10 {} } } }
  }

  lemma {:induction false} DecimalLead(n: nat)
    ensures Decimal(n)[0] == Dig(0) <==> n == 0
  {
    if n >= 10 { DecimalLead(n / 10); }
  }

  /** `10^k`, the denominator of a `k`-digit decimal fraction. */
  function Pow10(k: nat): (p: real)
    ensures p >= 1.0
  {
    if k == 0 then 1.0 else 10.0 * Pow10(k - 1)
  }
}
