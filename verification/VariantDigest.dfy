/**
 The text under the variant hash, and when two variants share it.

 hashUniqueProviderConfiguration writes type, id, and then per resource or selector placeholder the length and text of the
 expression and of each matched coordinate, a selector's count before them, all without separators.
 */
module VariantDigest {
  import opened Basics
  import opened ProviderVariants

  // ---------------------------------------------------------------- the text

  function Decimal(n: nat): string {
    if n < 10 then [DigitOf(n)] else Decimal(n / 10) + [DigitOf(n % 10)]
  }

  function DigitOf(d: nat): (c: char)
    requires d < 10
    ensures Digit(c)
  {
    '0' + d as char
  }

  function Sized(s: string): string {
    Decimal(|s|) + s
  }

  function SizedAll(ss: seq<string>): string {
    if ss == [] then [] else Sized(ss[0]) + SizedAll(ss[1..])
  }

  function MatchText(m: Match): string {
    match m case One(coordinate) => Sized(coordinate) case Many(coordinates) => Decimal(|coordinates|) + SizedAll(coordinates)
  }

  function MatchesText(ms: seq<(string, Match)>): string {
    if ms == [] then [] else Sized(ms[0].0) + (MatchText(ms[0].1) + MatchesText(ms[1..]))
  }

  /** Type and id side by side. */
  function Head(v: Variant): string {
    v.providerType + v.id
  }

  function Encoded(v: Variant): string {
    Head(v) + MatchesText(v.matches)
  }

  // ---------------------------------------------------------------- unique decoding

  /** A placeholder's text: from a dollar sign to the first closing brace. */
  predicate KeyOk(k: string) {
    |k| > 0 && k[0] == '$' && k[|k| - 1] == '}' && forall i :: 0 <= i < |k| - 1 ==> k[i] != '}'
  }

  function Commas(s: string): nat {
    if s == [] then 0 else (if s[0] == ',' then 1 else 0) + Commas(s[1..])
  }

  /** A coordinate's text, "type=..,class=..,id=..": no digit in front, two commas and no dollar sign. */
  predicate CoordinateOk(c: string) {
    |c| > 0 && !Digit(c[0]) && '$' !in c && Commas(c) == 2
  }

  predicate MatchOk(m: Match) {
    match m case One(coordinate) => CoordinateOk(coordinate) case Many(coordinates) => forall c :: c in coordinates ==> CoordinateOk(c)
  }

  predicate MatchesOk(ms: seq<(string, Match)>) {
    forall i :: 0 <= i < |ms| ==> KeyOk(ms[i].0) && MatchOk(ms[i].1)
  }

  predicate VariantOk(v: Variant) {
    '$' !in Head(v) && MatchesOk(v.matches)
  }

  /** An expression is a resource or a selector placeholder wherever it occurs. */
  predicate SameKinds(ms: seq<(string, Match)>, ms': seq<(string, Match)>) {
    forall i, j :: 0 <= i < |ms| && 0 <= j < |ms'| && ms[i].0 == ms'[j].0 ==> (ms[i].1.One? <==> ms'[j].1.One?)
  }

  function NumberOf(s: string): int {
    if s == [] then 0 else NumberOf(s[..|s| - 1]) * 10 + (s[|s| - 1] as int - '0' as int)
  }

  lemma {:induction false} DecimalDigits(n: nat)
    ensures Decimal(n) != [] && forall i :: 0 <= i < |Decimal(n)| ==> Digit(Decimal(n)[i])
  {
    if n >= 10 { DecimalDigits(n / 10); }
  }

  lemma {:induction false} NumberOfDecimal(n: nat)
    ensures NumberOf(Decimal(n)) == n
  {
    if n < 10 {
      assert [DigitOf(n)][..0] == [];
    } else {
      NumberOfDecimal(n / 10);
      var front := Decimal(n / 10);
      assert Decimal(n)[..|Decimal(n)| - 1] == front;
    }
  }

  lemma DecimalInjective(m: nat, n: nat)
    requires Decimal(m) == Decimal(n)
    ensures m == n
  {
    NumberOfDecimal(m);
    NumberOfDecimal(n);
  }

  lemma Cut(a: string, b: string, a': string, b': string)
    requires a + b == a' + b' && |a| == |a'|
    ensures a == a' && b == b'
  {
    assert a == (a + b)[..|a|] == (a' + b')[..|a|] == a';
    assert b == (a + b)[|a|..] == (a' + b')[|a|..] == b';
  }

  /** A decimal number ends at the first character that is no digit. */
  lemma DigitsEnd(m: nat, x: string, n: nat, y: string)
    requires Decimal(m) + x == Decimal(n) + y
    requires x != [] && !Digit(x[0]) && y != [] && !Digit(y[0])
    ensures m == n && x == y
  {
    var a, b := Decimal(m), Decimal(n);
    DecimalDigits(m);
    DecimalDigits(n);
    assert (a + x)[|a|] == x[0] && (b + y)[|b|] == y[0];
    Cut(a, x, b, y);
    DecimalInjective(m, n);
  }

  /** A sized coordinate is read back, whatever follows. */
  lemma SizedCut(c: string, x: string, d: string, y: string)
    requires CoordinateOk(c) && CoordinateOk(d) && Sized(c) + x == Sized(d) + y
    ensures c == d && x == y
  {
    assert Sized(c) + x == Decimal(|c|) + (c + x) && Sized(d) + y == Decimal(|d|) + (d + y);
    DigitsEnd(|c|, c + x, |d|, d + y);
    Cut(c, x, d, y);
  }

  lemma {:induction false} SizedAllCut(cs: seq<string>, ds: seq<string>)
    requires |cs| == |ds| && SizedAll(cs) == SizedAll(ds)
    requires (forall c :: c in cs ==> CoordinateOk(c)) && (forall d :: d in ds ==> CoordinateOk(d))
    ensures cs == ds
    decreases |cs|
  {
    if cs != [] {
      assert cs[0] in cs && ds[0] in ds;
      SizedCut(cs[0], SizedAll(cs[1..]), ds[0], SizedAll(ds[1..]));
      SizedAllCut(cs[1..], ds[1..]);
    }
  }

  lemma {:induction false} CommasConcat(a: string, b: string)
    ensures Commas(a + b) == Commas(a) + Commas(b)
    decreases |a|
  {
    if a == [] { assert a + b == b; }
    else { assert (a + b)[1..] == a[1..] + b; CommasConcat(a[1..], b); }
  }

  lemma {:induction false} NoCommas(s: string)
    requires forall i :: 0 <= i < |s| ==> Digit(s[i])
    ensures Commas(s) == 0
    decreases |s|
  {
    if s != [] { NoCommas(s[1..]); }
  }

  /** The commas count the coordinates. */
  lemma {:induction false} CommasOfAll(cs: seq<string>)
    requires forall c :: c in cs ==> CoordinateOk(c)
    ensures Commas(SizedAll(cs)) == 2 * |cs|
    decreases |cs|
  {
    if cs != [] {
      assert cs[0] in cs;
      CommasConcat(Sized(cs[0]), SizedAll(cs[1..]));
      CommasConcat(Decimal(|cs[0]|), cs[0]);
      DecimalDigits(|cs[0]|);
      NoCommas(Decimal(|cs[0]|));
      CommasOfAll(cs[1..]);
    }
  }

  lemma MatchTextInjective(m: Match, n: Match)
    requires MatchOk(m) && MatchOk(n) && (m.One? <==> n.One?) && MatchText(m) == MatchText(n)
    ensures m == n
  {
    if m.One? {
      assert Sized(m.coordinate) + [] == Sized(n.coordinate) + [];
      SizedCut(m.coordinate, [], n.coordinate, []);
    } else {
      var cs, ds := m.coordinates, n.coordinates;
      CommasConcat(Decimal(|cs|), SizedAll(cs));
      CommasConcat(Decimal(|ds|), SizedAll(ds));
      DecimalDigits(|cs|);
      DecimalDigits(|ds|);
      NoCommas(Decimal(|cs|));
      NoCommas(Decimal(|ds|));
      CommasOfAll(cs);
      CommasOfAll(ds);
      assert |cs| == |ds|;
      Cut(Decimal(|cs|), SizedAll(cs), Decimal(|ds|), SizedAll(ds));
      SizedAllCut(cs, ds);
    }
  }

  lemma NoDollarInDecimal(n: nat)
    ensures '$' !in Decimal(n)
  {
    DecimalDigits(n);
  }

  lemma {:induction false} NoDollarInAll(cs: seq<string>)
    requires forall c :: c in cs ==> CoordinateOk(c)
    ensures '$' !in SizedAll(cs)
    decreases |cs|
  {
    if cs != [] {
      assert cs[0] in cs;
      NoDollarInDecimal(|cs[0]|);
      NoDollarInAll(cs[1..]);
    }
  }

  lemma NoDollarInMatch(m: Match)
    requires MatchOk(m)
    ensures '$' !in MatchText(m)
  {
    match m
    case One(coordinate) => NoDollarInDecimal(|coordinate|);
    case Many(coordinates) => NoDollarInDecimal(|coordinates|); NoDollarInAll(coordinates);
  }

  /** The first dollar sign starts the first expression, and its length tells how much before it is length. */
  lemma FirstKey(t: string, k: string, x: string, t': string, k': string, x': string)
    requires '$' !in t && '$' !in t' && KeyOk(k) && KeyOk(k') && t + (Sized(k) + x) == t' + (Sized(k') + x')
    ensures t == t' && k == k' && x == x'
  {
    var p, p' := t + Decimal(|k|), t' + Decimal(|k'|);
    NoDollarInDecimal(|k|);
    NoDollarInDecimal(|k'|);
    assert p + (k + x) == t + (Sized(k) + x) && p' + (k' + x') == t' + (Sized(k') + x');
    SameDollar(p, k + x, p', k' + x');
    SameBrace(k, x, k', x');
    Cut(t, Decimal(|k|), t', Decimal(|k'|));
  }

  lemma SameDollar(p: string, y: string, p': string, y': string)
    requires '$' !in p && '$' !in p' && y != [] && y' != [] && y[0] == '$' && y'[0] == '$' && p + y == p' + y'
    ensures p == p' && y == y'
  {
    assert (p + y)[|p|] == '$' && (p' + y')[|p'|] == '$';
    Cut(p, y, p', y');
  }

  lemma SameBrace(k: string, x: string, k': string, x': string)
    requires KeyOk(k) && KeyOk(k') && k + x == k' + x'
    ensures k == k' && x == x'
  {
    assert (k + x)[|k| - 1] == '}' && (k' + x')[|k'| - 1] == '}';
    Cut(k, x, k', x');
  }

  /** The text is read back: what stands before the first placeholder, and all matches. */
  lemma {:induction false} TextDecodes(t: string, ms: seq<(string, Match)>, t': string, ms': seq<(string, Match)>)
    requires '$' !in t && '$' !in t' && MatchesOk(ms) && MatchesOk(ms') && SameKinds(ms, ms')
    requires t + MatchesText(ms) == t' + MatchesText(ms')
    ensures t == t' && ms == ms'
    decreases |ms|
  {
    if ms == [] {
      if ms' != [] { DollarIn(t', ms'); assert false; }
      assert t + [] == t && t' + [] == t';
    } else if ms' == [] {
      DollarIn(t, ms);
      assert false;
    } else {
      var m, m' := ms[0].1, ms'[0].1;
      FirstKey(t, ms[0].0, MatchText(m) + MatchesText(ms[1..]), t', ms'[0].0, MatchText(m') + MatchesText(ms'[1..]));
      NoDollarInMatch(m);
      NoDollarInMatch(m');
      TextDecodes(MatchText(m), ms[1..], MatchText(m'), ms'[1..]);
      MatchTextInjective(m, m');
      assert ms == [ms[0]] + ms[1..] && ms' == [ms'[0]] + ms'[1..];
    }
  }

  lemma DollarIn(t: string, ms: seq<(string, Match)>)
    requires ms != [] && MatchesOk(ms)
    ensures '$' in t + MatchesText(ms)
  {
    var k := ms[0].0;
    assert k[0] in k && k[0] in Sized(k);
  }

  /** Two variants share their text if and only if they agree on all matches and on type and id written side by side. */
  lemma SameEncodingIff(v: Variant, w: Variant)
    requires VariantOk(v) && VariantOk(w) && SameKinds(v.matches, w.matches)
    ensures Encoded(v) == Encoded(w) <==> Head(v) == Head(w) && v.matches == w.matches
  {
    if Encoded(v) == Encoded(w) { TextDecodes(Head(v), v.matches, Head(w), w.matches); }
  }

  /** Type and id are written alike for two different pairs exactly if one type continues into the other's id. */
  lemma SameTextIff(t: string, i: string, t': string, i': string)
    ensures t + i == t' + i' && (t, i) != (t', i') <==>
              exists x: string :: x != [] && ((t == t' + x && i' == x + i) || (t' == t + x && i == x + i'))
  {
    if t + i == t' + i' && (t, i) != (t', i') {
      if |t| >= |t'| { SplitText(t, i, t', i'); } else { SplitText(t', i', t, i); }
    }
    if x: string :| x != [] && ((t == t' + x && i' == x + i) || (t' == t + x && i == x + i')) {
      if t == t' + x && i' == x + i { assert t + i == t' + (x + i); assert |t| > |t'|; }
      else { assert t' + i' == t + (x + i'); assert |t'| > |t|; }
    }
  }

  lemma SplitText(t: string, i: string, t': string, i': string)
    requires t + i == t' + i' && (t, i) != (t', i') && |t| >= |t'|
    ensures exists x: string :: x != [] && t == t' + x && i' == x + i
  {
    var x := t[|t'|..];
    assert t' == (t' + i')[..|t'|] == (t + i)[..|t'|] == t[..|t'|];
    assert t == t' + x;
    assert i' == (t' + i')[|t'|..] == (t + i)[|t'|..] == x + i;
    assert x == [] ==> t == t' && i == i';
  }

  /** The type of one continues into the id of the other. */
  ghost predicate Overlap(v: Variant, w: Variant) {
    exists x: string :: x != [] &&
      ((v.providerType == w.providerType + x && w.id == x + v.id) || (w.providerType == v.providerType + x && v.id == x + w.id))
  }

  /** Two different variants share their text if and only if they have the same matches and the type of one continues into the id of the other. */
  lemma CollisionIff(v: Variant, w: Variant)
    requires VariantOk(v) && VariantOk(w) && SameKinds(v.matches, w.matches)
    ensures Encoded(v) == Encoded(w) && v != w <==> v.matches == w.matches && Overlap(v, w)
  {
    SameEncodingIff(v, w);
    SameTextIff(v.providerType, v.id, w.providerType, w.id);
    hide Encoded, VariantOk, SameKinds;
  }

  /** Beyond those texts the encoding is ambiguous: an id with a dollar sign may spell out a placeholder of its own. */
  lemma DollarInIdCollides(t: string, i: string, k: string, m: Match)
    ensures Encoded(Variant(t, i, [(k, m)])) == Encoded(Variant(t, i + Sized(k) + MatchText(m), []))
  {
    hide Sized, MatchText;
    assert [(k, m)][1..] == [];
    assert MatchText(m) + [] == MatchText(m);
    assert MatchesText([(k, m)]) == Sized(k) + MatchText(m);
    Regroup(t, i, Sized(k), MatchText(m));
  }

  lemma Regroup(a: string, b: string, c: string, d: string)
    ensures (a + b) + (c + d) == (a + (b + c + d)) + []
  {
  }
}
