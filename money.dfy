/** Money as an integer number of cents: the text `toFixed(2)` writes for an
    amount, and the amount `parseFloat` reads from a text. */
module Money {
  import opened Text
  import opened JsValue
  import opened Wrappers

  /** The longest prefix of `s` made of decimal digits. */
  function LeadingDigits(s: string): (r: string)
    ensures AllDigits(r) && StartsWith(s, r)
    ensures |r| < |s| ==> !IsDigit(s[|r|])
  {
    if s != [] && IsDigit(s[0]) then [s[0]] + LeadingDigits(s[1..]) else ""
  }

  lemma {:induction false} LeadingDigitsStopsAt(a: string, b: string)
    requires AllDigits(a)
    requires b == [] || !IsDigit(b[0])
    ensures LeadingDigits(a + b) == a
  {
    if a != [] {
      assert (a + b)[1..] == a[1..] + b;
      LeadingDigitsStopsAt(a[1..], b);
    }
  }

  /** Cents denoted by the digits after the decimal point: the first two, the
      rest cut off. */
  function FractionCents(f: string): (r: nat)
    requires AllDigits(f)
    ensures r < 100
  {
    (if |f| >= 1 then DigitOf(f[0]) * 10 else 0) + (if |f| >= 2 then DigitOf(f[1]) else 0)
  }

  /** The exponent at the start of `s`: 'e' or 'E', an optional sign and at
      least one digit, read as far as the digits go. */
  function ExponentPrefix(s: string): Option<int> {
    if s == [] || (s[0] != 'e' && s[0] != 'E') then None
    else
      var signed := |s| > 1 && (s[1] == '-' || s[1] == '+');
      var ds := LeadingDigits(s[if signed then 2 else 1..]);
      if ds == [] then None
      else
        var k: int := DigitsValue(ds);
        Some(if signed && s[1] == '-' then -k else k)
  }

  /** The fraction digits after a leading point of `after`, if it has one,
      and the text that follows them. */
  function ReadFraction(after: string): (r: (string, string))
    ensures AllDigits(r.0)
  {
    if after != [] && after[0] == '.' then
      var f := LeadingDigits(after[1..]);
      (f, after[1 + |f|..])
    else ("", after)
  }

  /** The cents that the digits `whole.frac` times `10^k` denote, cut toward
      zero. */
  function ExponentCents(whole: string, frac: string, k: int): (r: int)
    requires AllDigits(whole) && AllDigits(frac)
    ensures r >= 0
  {
    AllDigitsAppend(whole, frac);
    Scaled(Decimal(false, DigitsValue(whole + frac), |frac|, k), 2)
  }

  /** `parseFloat` of an unsigned text: digits [. digits] [exponent], read as
      far as that form goes; NaN when there is no digit before the exponent. */
  function ParseUnsignedCents(body: string): (r: Value)
    ensures r.Num? || r.NaN?
    ensures r.Num? ==> r.n >= 0
  {
    var whole := LeadingDigits(body);
    var fr := ReadFraction(body[|whole|..]);
    if whole == [] && fr.0 == [] then NaN
    else match ExponentPrefix(fr.1)
      case None => Num(DigitsValue(whole) * 100 + FractionCents(fr.0))
      case Some(k) => Num(ExponentCents(whole, fr.0, k))
  }

  function Negate(v: Value): Value {
    if v.Num? then Num(-v.n) else v
  }

  /** `parseFloat(s)` in cents: leading white space is skipped, then the longest
      prefix of the form [sign] digits [. digits] [exponent] is read; NaN when
      no digit comes before the exponent. Digits beyond the second decimal are
      cut off. */
  function ParseFloatCents(s: string): (r: Value)
    ensures r.Num? || r.NaN?
  {
    var t := TrimStart(s);
    if t != [] && t[0] == '-' then Negate(ParseUnsignedCents(t[1..]))
    else if t != [] && t[0] == '+' then ParseUnsignedCents(t[1..])
    else ParseUnsignedCents(t)
  }

  /** A text that starts with neither white space, a sign, a point nor a
      digit is not a number. */
  lemma NoNumberPrefix(s: string)
    requires s != [] && !IsWhite(s[0]) && !IsDigit(s[0])
    requires s[0] != '-' && s[0] != '+' && s[0] != '.'
    ensures ParseFloatCents(s) == NaN
  {
    assert TrimStart(s) == s;
    assert LeadingDigits(s) == "";
  }

  /** The two-digit text of a number of cents below 100. */
  function TwoDigits(c: nat): (r: string)
    requires c < 100
    ensures |r| == 2 && AllDigits(r) && FractionCents(r) == c
  {
    [DigitChar(c / 10), DigitChar(c % 10)]
  }

  /** An amount of `c` cents written with two decimals, the decimal point
      written as `sep`. */
  function CentsText(c: int, sep: char): (r: string)
  {
    (if c < 0 then "-" else "") + UnsignedCentsText(if c < 0 then -c else c, sep)
  }

  /** The whole units, `sep`, then the two digits of the cents. */
  function UnsignedCentsText(m: nat, sep: char): string {
    NatToString(m / 100) + [sep] + TwoDigits(m % 100)
  }

  lemma {:induction false} ParseUnsignedDecimal(w: string, d: string)
    requires AllDigits(w) && |d| == 2 && AllDigits(d)
    ensures ParseUnsignedCents(w + "." + d) == Num(DigitsValue(w) * 100 + FractionCents(d))
  {
    var body := w + ("." + d);
    assert w + "." + d == body;
    LeadingDigitsStopsAt(w, "." + d);
    assert body[|w|..] == "." + d;
    assert ("." + d)[1..] == d;
    LeadingDigitsStopsAt(d, "");
    assert d + "" == d;
  }

  /** A text that starts with a digit is read without sign. */
  lemma ParseUnsignedStart(body: string)
    requires body != [] && IsDigit(body[0])
    ensures ParseFloatCents(body) == ParseUnsignedCents(body)
  {
    assert TrimStart(body) == body;
  }

  /** A text that starts with '-' and then a digit is read negated. */
  lemma ParseNegativeStart(body: string)
    requires body != [] && IsDigit(body[0])
    ensures ParseFloatCents("-" + body) == Negate(ParseUnsignedCents(body))
  {
    var neg := "-" + body;
    assert TrimStart(neg) == neg;
    assert neg[1..] == body;
  }

  /** The unsigned text starts with a digit and reads back as `m`. */
  lemma UnsignedCentsRead(m: nat)
    ensures var body := UnsignedCentsText(m, '.');
      body != [] && IsDigit(body[0]) && ParseUnsignedCents(body) == Num(m)
  {
    var w := NatToString(m / 100);
    var d := TwoDigits(m % 100);
    NatToStringRoundTrip(m / 100);
    ParseUnsignedDecimal(w, d);
    var body := UnsignedCentsText(m, '.');
    assert body == w + "." + d;
    assert DigitsValue(w) == m / 100 && FractionCents(d) == m % 100;
    assert (m / 100) * 100 + m % 100 == m;
    assert body[0] == w[0];
  }

  /** Digits followed by an exponent, "3e2" say, read as the digits times
      that power of ten: 300 reais, 30000 cents. */
  lemma ParseExponentText(w: string, k: nat)
    requires w != [] && AllDigits(w)
    ensures ParseFloatCents(w + "e" + NatToString(k)) == Num(DigitsValue(w) * Pow10(k + 2))
  {
    var after := "e" + NatToString(k);
    var body := w + after;
    assert w + "e" + NatToString(k) == body;
    ParseUnsignedStart(body);
    LeadingDigitsStopsAt(w, after);
    assert body[|w|..] == after;
    assert ReadFraction(after) == ("", after);
    ExponentOfText(k);
    ExponentCentsWhole(w, k);
  }

  /** "e" and the digits of `k` are the exponent `k`. */
  lemma ExponentOfText(k: nat)
    ensures ExponentPrefix("e" + NatToString(k)) == Some(k as int)
  {
    var ks := NatToString(k);
    var after := "e" + ks;
    assert after[1..] == ks && after[1] == ks[0];
    LeadingDigitsStopsAt(ks, "");
    assert ks + "" == ks;
    NatToStringRoundTrip(k);
  }

  /** Whole digits times `10^k` are that many hundred cents times `10^k`. */
  lemma ExponentCentsWhole(w: string, k: nat)
    requires AllDigits(w)
    ensures ExponentCents(w, "", k) == DigitsValue(w) * Pow10(k + 2)
  {
    assert w + "" == w;
  }

  /** `parseFloat` reads back exactly the amount `toFixed(2)` wrote. */
  lemma ParseCentsText(c: int)
    ensures ParseFloatCents(CentsText(c, '.')) == Num(c)
  {
    var m: nat := if c < 0 then -c else c;
    var body := UnsignedCentsText(m, '.');
    UnsignedCentsRead(m);
    if c >= 0 {
      assert CentsText(c, '.') == "" + body == body;
      ParseUnsignedStart(body);
    } else {
      assert CentsText(c, '.') == "-" + body;
      ParseNegativeStart(body);
    }
  }
}
