/**
 * String operations the views rely on from JavaScript: `String.prototype.repeat`,
 * `includes`, `parseInt` on decimal text, decimal rendering of integers, and
 * `toFixed(2)` of an amount held in cents.
 */
module Text {

  import opened Support

  /** `c.repeat(n)` */
  function Repeat(c: char, n: nat): (s: string)
    ensures |s| == n
    ensures forall i :: 0 <= i < n ==> s[i] == c
  {
    if n == 0 then "" else [c] + Repeat(c, n - 1)
  }

  predicate StartsWith(s: string, w: string) {
    |w| <= |s| && s[..|w|] == w
  }

  /** `s.includes(w)`, written as the left-to-right scan it performs. */
  predicate Contains(s: string, w: string)
    decreases |s|
  {
    StartsWith(s, w) || (|s| > 0 && Contains(s[1..], w))
  }

  /** A word found in a prefix is found in any extension of it. */
  lemma {:induction false} ContainsPrefix(a: string, b: string, w: string)
    requires Contains(a, w)
    ensures Contains(a + b, w)
  {
    if StartsWith(a, w) {
      assert (a + b)[..|w|] == a[..|w|];
    } else {
      assert (a + b)[1..] == a[1..] + b;
      ContainsPrefix(a[1..], b, w);
    }
  }

  lemma StartsWithAt(s: string, w: string)
    ensures StartsWith(s, w) ==> forall a :: 0 <= a < |w| ==> s[a] == w[a]
  {
    if StartsWith(s, w) {
      forall a | 0 <= a < |w| ensures s[a] == w[a] {
        assert s[..|w|][a] == s[a];
      }
    }
  }

  /** A word with a letter that does not occur in s is not found in s. */
  lemma {:induction false} NotContainsLetter(s: string, w: string, a: nat)
    requires a < |w| && w[a] !in s
    ensures !Contains(s, w)
  {
    if |s| > 0 {
      StartsWithAt(s, w);
      assert forall k :: 0 <= k < |s| - 1 ==> s[1..][k] == s[k + 1];
      NotContainsLetter(s[1..], w, a);
    }
  }

  /**
   * A word of three letters or more is not found in s when no three
   * consecutive letters of s spell its first three.
   */
  lemma {:induction false} NotContainsTrigram(s: string, w: string)
    requires |w| >= 3
    requires forall i :: 0 <= i && i + 3 <= |s| ==> s[i] != w[0] || s[i + 1] != w[1] || s[i + 2] != w[2]
    ensures !Contains(s, w)
  {
    if |s| > 0 {
      StartsWithAt(s, w);
      assert |w| <= |s| ==> s[0] != w[0] || s[1] != w[1] || s[2] != w[2];
      forall i | 0 <= i && i + 3 <= |s[1..]|
        ensures s[1..][i] != w[0] || s[1..][i + 1] != w[1] || s[1..][i + 2] != w[2]
      {
        assert s[1..][i] == s[i + 1];
      }
      NotContainsTrigram(s[1..], w);
    }
  }

  /** A word is found in s when it occurs at position i. */
  lemma {:induction false} ContainsAt(s: string, w: string, i: nat)
    requires i + |w| <= |s| && s[i..i + |w|] == w
    ensures Contains(s, w)
  {
    if i == 0 {
      assert s[..|w|] == s[0..0 + |w|];
    } else {
      assert s[1..][i - 1..i - 1 + |w|] == s[i..i + |w|];
      ContainsAt(s[1..], w, i - 1);
    }
  }

  predicate IsDigit(c: char) {
    '0' <= c <= '9'
  }

  function DigitChar(d: nat): char
    requires d < 10
  {
    "0123456789"[d]
  }

  /** The decimal text of a natural number, as `String(n)` writes it. */
  function Show(n: nat): (s: string)
    ensures |s| > 0
    ensures forall i :: 0 <= i < |s| ==> IsDigit(s[i])
  {
    if n < 10 then [DigitChar(n)] else Show(n / 10) + [DigitChar(n % 10)]
  }

  /** Length of the longest prefix of decimal digits. */
  function DigitPrefix(s: string): (k: nat)
    ensures k <= |s|
    ensures forall i :: 0 <= i < k ==> IsDigit(s[i])
    ensures k < |s| ==> !IsDigit(s[k])
  {
    if s == [] || !IsDigit(s[0]) then 0 else 1 + DigitPrefix(s[1..])
  }

  /** The value of a string of decimal digits. */
  function DigitsValue(ds: string): nat
    requires forall i :: 0 <= i < |ds| ==> IsDigit(ds[i])
  {
    if ds == [] then 0
    else assert IsDigit(ds[|ds| - 1]); 10 * DigitsValue(ds[..|ds| - 1]) + (ds[|ds| - 1] as int - '0' as int)
  }

  /**
   * `parseInt(s)` on text that starts with decimal digits: the value of the
   * longest digit prefix; no digits at all is NaN, here None.
   */
  function ParseInt(s: string): (r: Option<nat>)
    ensures r.Some? <==> |s| > 0 && IsDigit(s[0])
  {
    var k := DigitPrefix(s);
    if k == 0 then None else Some(DigitsValue(s[..k]))
  }

  /** Decimal rendering and parsing are inverse: `parseInt(String(n)) == n`. */
  lemma {:induction false} ParseShow(n: nat)
    ensures ParseInt(Show(n)) == Some(n)
  {
    ShowValue(n);
    DigitPrefixAll(Show(n));
    assert Show(n)[..|Show(n)|] == Show(n);
  }

  lemma {:induction false} ShowValue(n: nat)
    ensures DigitsValue(Show(n)) == n
  {
    if n >= 10 {
      var s := Show(n);
      assert s[..|s| - 1] == Show(n / 10);
      ShowValue(n / 10);
    } else {
      assert "0123456789"[n] as int - '0' as int == n;
    }
  }

  lemma {:induction false} DigitPrefixAll(s: string)
    requires forall i :: 0 <= i < |s| ==> IsDigit(s[i])
    ensures DigitPrefix(s) == |s|
  {
    if s != [] {
      DigitPrefixAll(s[1..]);
    }
  }

  /**
   * `(c / 100).toFixed(2)` for an amount of c cents: the sign, the whole
   * units, a point and exactly two digits of cents.
   */
  function FormatCents(c: int): (s: string)
    ensures |s| >= 4
    ensures s[|s| - 3] == '.' && IsDigit(s[|s| - 2]) && IsDigit(s[|s| - 1])
    ensures s[0] == '-' <==> c < 0
  {
    var m: nat := if c < 0 then -c else c;
    var r := m % 100;
    (if c < 0 then "-" else "") + Show(m / 100) + "." + [DigitChar(r / 10), DigitChar(r % 10)]
  }

  /** Digits, a point and two more digits, read back as a number of cents; anything else is None. */
  function ReadUnsignedCents(body: string): Option<nat> {
    if |body| < 4 || body[|body| - 3] != '.' then None
    else if !AllDigits(body[..|body| - 3]) || !AllDigits(body[|body| - 2..]) then None
    else Some(100 * DigitsValue(body[..|body| - 3]) + DigitsValue(body[|body| - 2..]))
  }

  predicate AllDigits(ds: string) {
    forall i :: 0 <= i < |ds| ==> IsDigit(ds[i])
  }

  /** Reading an amount back from its text: an optional "-", then `ReadUnsignedCents`. */
  function ReadCents(s: string): Option<int> {
    if |s| > 0 && s[0] == '-' then
      match ReadUnsignedCents(s[1..])
      case Some(v) => Some(-(v as int))
      case None => None
    else
      match ReadUnsignedCents(s)
      case Some(v) => Some(v)
      case None => None
  }

  lemma DigitCharValue(d: nat)
    requires d < 10
    ensures IsDigit(DigitChar(d)) && DigitChar(d) as int - '0' as int == d
  {
    assert "0123456789"[d] as int - '0' as int == d;
  }

  lemma TwoDigitsValue(hi: nat, lo: nat)
    requires hi < 10 && lo < 10
    ensures AllDigits([DigitChar(hi), DigitChar(lo)])
    ensures DigitsValue([DigitChar(hi), DigitChar(lo)]) == 10 * hi + lo
  {
    var ds := [DigitChar(hi), DigitChar(lo)];
    DigitCharValue(hi);
    DigitCharValue(lo);
    assert ds[..1] == [DigitChar(hi)] && ds[..1][..0] == [];
    assert DigitsValue(ds[..1]) == hi;
    assert DigitsValue(ds) == 10 * DigitsValue(ds[..1]) + lo;
  }

  lemma SplitHundred(m: nat)
    ensures m % 100 < 100 && 100 * (m / 100) + m % 100 == m
  {
  }

  lemma SplitTen(r: nat)
    requires r < 100
    ensures r / 10 < 10 && r % 10 < 10 && 10 * (r / 10) + r % 10 == r
  {
  }

  /** Digits, a point and two digits read back as the number they spell. */
  lemma ReadParts(whole: string, cents: string)
    requires whole != [] && AllDigits(whole) && |cents| == 2 && AllDigits(cents)
    ensures ReadUnsignedCents(whole + "." + cents) == Some(100 * DigitsValue(whole) + DigitsValue(cents))
  {
    var body := whole + "." + cents;
    var n := |body|;
    assert n == |whole| + 3 && n >= 4 && body[n - 3] == '.';
    var w, d := body[..n - 3], body[n - 2..];
    assert w == whole;
    assert d == cents;
    assert AllDigits(w) && AllDigits(d);
    assert DigitsValue(w) == DigitsValue(whole) && DigitsValue(d) == DigitsValue(cents);
  }

  /** A leading "-" negates what the rest reads as; a text starting otherwise reads unsigned. */
  lemma ReadSigned(negative: bool, body: string, v: nat)
    requires body != [] && body[0] != '-'
    requires ReadUnsignedCents(body) == Some(v)
    ensures ReadCents((if negative then "-" else "") + body) == Some(if negative then -(v as int) else v as int)
  {
    if negative {
      assert ("-" + body)[1..] == body;
    } else {
      assert "" + body == body;
    }
  }

  /** The parts `FormatCents` joins: the sign, the whole units and the two digits of cents. */
  lemma FormatParts(c: int) returns (m: nat, whole: string, cents: string)
    ensures m == (if c < 0 then -c else c)
    ensures whole == Show(m / 100) && DigitsValue(whole) == m / 100
    ensures |cents| == 2 && AllDigits(cents) && DigitsValue(cents) == m % 100
    ensures FormatCents(c) == (if c < 0 then "-" else "") + (whole + "." + cents)
  {
    m := if c < 0 then -c else c;
    var r := m % 100;
    SplitTen(r);
    whole, cents := Show(m / 100), [DigitChar(r / 10), DigitChar(r % 10)];
    TwoDigitsValue(r / 10, r % 10);
    ShowValue(m / 100);
  }

  /** Cents written by `FormatCents` read back as the same amount: the text determines the total. */
  lemma ReadFormatCents(c: int)
    ensures ReadCents(FormatCents(c)) == Some(c)
  {
    var m, whole, cents := FormatParts(c);
    SplitHundred(m);
    ReadParts(whole, cents);
    assert (whole + "." + cents)[0] == whole[0];
    ReadSigned(c < 0, whole + "." + cents, m);
  }
}
