/** String primitives of the JavaScript runtime that the components rely on:
    character classes, `replace` with a character class, `slice`, `trim`,
    `toUpperCase`/`toLowerCase`, `includes`, `startsWith`, `join`, and the
    decimal text of an integer. Case mapping covers the letters of the Basic
    Latin and Latin-1 ranges. */
module Text {

  predicate IsDigit(c: char) { '0' <= c <= '9' }

  /** The characters matched by `\s` and removed by `trim`: tab, vertical tab,
      form feed, the byte-order mark, the space separators (space, no-break
      space, ogham space mark, the spaces U+2000 to U+200A, narrow no-break
      space, medium mathematical space, ideographic space) and the line
      terminators (line feed, carriage return, line and paragraph separators). */
  predicate IsWhite(c: char) {
    c == ' ' || c == '\t' || c == '\n' || c == '\r' || c == '\U{000B}' || c == '\U{000C}'
    || c == '\U{00A0}' || c == '\U{FEFF}' || c == '\U{2028}' || c == '\U{2029}'
    || c == '\U{1680}' || ('\U{2000}' <= c <= '\U{200A}') || c == '\U{202F}' || c == '\U{205F}'
    || c == '\U{3000}'
  }

  predicate AllDigits(s: string) { forall i :: 0 <= i < |s| ==> IsDigit(s[i]) }

  /** The characters of `s` that `keep` accepts, in order. */
  function Select(s: string, keep: char -> bool): (r: string)
    ensures |r| <= |s|
    ensures forall i :: 0 <= i < |r| ==> keep(r[i])
  {
    if s == [] then [] else (if keep(s[0]) then [s[0]] else []) + Select(s[1..], keep)
  }

  lemma {:induction false} SelectAppend(a: string, b: string, keep: char -> bool)
    ensures Select(a + b, keep) == Select(a, keep) + Select(b, keep)
  {
    if a != [] {
      var h: string := if keep(a[0]) then [a[0]] else [];
      assert (a + b)[0] == a[0] && (a + b)[1..] == a[1..] + b;
      SelectAppend(a[1..], b, keep);
      calc {
        Select(a + b, keep);
        h + Select(a[1..] + b, keep);
        h + (Select(a[1..], keep) + Select(b, keep));
        (h + Select(a[1..], keep)) + Select(b, keep);
        Select(a, keep) + Select(b, keep);
      }
    } else {
      assert a + b == b;
    }
  }

  /** Selecting from a string whose characters are all kept changes nothing. */
  lemma {:induction false} SelectAllKept(s: string, keep: char -> bool)
    requires forall i :: 0 <= i < |s| ==> keep(s[i])
    ensures Select(s, keep) == s
  {
    if s != [] { SelectAllKept(s[1..], keep); }
  }

  /** Every character selected comes from `s`. */
  lemma {:induction false} SelectFrom(s: string, keep: char -> bool)
    ensures forall i :: 0 <= i < |Select(s, keep)| ==> Select(s, keep)[i] in s
  {
    if s != [] {
      SelectFrom(s[1..], keep);
      var h: string := if keep(s[0]) then [s[0]] else [];
      assert Select(s, keep) == h + Select(s[1..], keep);
      forall i | 0 <= i < |Select(s, keep)| ensures Select(s, keep)[i] in s {
        if i >= |h| { assert Select(s, keep)[i] == Select(s[1..], keep)[i - |h|]; }
      }
    }
  }

  /** Selecting first with a wider test and then with a narrower one is
      selecting with the narrower one. */
  lemma {:induction false} SelectSelect(s: string, keep: char -> bool, p: char -> bool)
    requires forall c :: p(c) ==> keep(c)
    ensures Select(Select(s, keep), p) == Select(s, p)
  {
    if s != [] {
      var h: string := if keep(s[0]) then [s[0]] else [];
      SelectSelect(s[1..], keep, p);
      SelectAppend(h, Select(s[1..], keep), p);
      assert Select(h, p) == if p(s[0]) then [s[0]] else [];
    }
  }

  /** Mapping one character to another, neither of them selected, does not
      change what is selected. */
  lemma {:induction false} SelectMapChar(s: string, c: char, d: char, p: char -> bool)
    requires !p(c) && !p(d)
    ensures Select(MapChar(s, c, d), p) == Select(s, p)
  {
    if s != [] {
      var m := MapChar(s, c, d);
      assert m[1..] == MapChar(s[1..], c, d);
      SelectMapChar(s[1..], c, d, p);
    }
  }

  /** The digits of `s`, in order. */
  function KeepDigits(s: string): (r: string)
    ensures AllDigits(r) && |r| <= |s|
  {
    Select(s, IsDigit)
  }

  lemma KeepDigitsOfDigits(s: string)
    requires AllDigits(s)
    ensures KeepDigits(s) == s
  {
    SelectAllKept(s, IsDigit);
  }

  /** The first `n` characters of `s`, or all of them when there are fewer. */
  function Take(s: string, n: nat): (r: string)
    ensures |r| == if |s| <= n then |s| else n
    ensures r == s[..|r|]
  {
    if |s| <= n then s else s[..n]
  }

  /** `s` with every `c` replaced by `d`. */
  function MapChar(s: string, c: char, d: char): (r: string)
    ensures |r| == |s|
    ensures forall i :: 0 <= i < |s| ==> r[i] == if s[i] == c then d else s[i]
  {
    seq(|s|, i requires 0 <= i < |s| => if s[i] == c then d else s[i])
  }

  /** `toUpperCase` of one character: a to z, à to ö and ø to þ move up by 32,
      ÿ becomes Ÿ and µ becomes the Greek capital mu. */
  function UpperChar(c: char): char {
    if 'a' <= c <= 'z' || '\U{00E0}' <= c <= '\U{00F6}' || '\U{00F8}' <= c <= '\U{00FE}' then (c as int - 32) as char
    else if c == '\U{00FF}' then '\U{0178}'
    else if c == '\U{00B5}' then '\U{039C}'
    else c
  }

  /** `toLowerCase` of one character: A to Z, À to Ö and Ø to Þ move down by 32. */
  function LowerChar(c: char): char {
    if 'A' <= c <= 'Z' || '\U{00C0}' <= c <= '\U{00D6}' || '\U{00D8}' <= c <= '\U{00DE}' then (c as int + 32) as char
    else c
  }

  /** `toUpperCase()`, character by character */
  function Upper(s: string): (r: string)
    ensures |r| == |s| && forall i :: 0 <= i < |s| ==> r[i] == UpperChar(s[i])
  {
    seq(|s|, i requires 0 <= i < |s| => UpperChar(s[i]))
  }

  /** `toLowerCase()`, character by character */
  function Lower(s: string): (r: string)
    ensures |r| == |s| && forall i :: 0 <= i < |s| ==> r[i] == LowerChar(s[i])
  {
    seq(|s|, i requires 0 <= i < |s| => LowerChar(s[i]))
  }

  function TrimStart(s: string): (r: string)
    ensures r == [] || !IsWhite(r[0])
    ensures |r| <= |s|
    ensures forall i :: 0 <= i < |s| - |r| ==> IsWhite(s[i])
  {
    if s != [] && IsWhite(s[0]) then TrimStart(s[1..]) else s
  }

  /** `TrimStart` only cuts from the front. */
  lemma {:induction false} TrimStartSlice(s: string)
    ensures TrimStart(s) == s[|s| - |TrimStart(s)|..]
  {
    if s != [] && IsWhite(s[0]) {
      TrimStartSlice(s[1..]);
    }
  }

  function TrimEnd(s: string): (r: string)
    ensures r == [] || !IsWhite(r[|r| - 1])
    ensures |r| <= |s|
    ensures forall i :: |r| <= i < |s| ==> IsWhite(s[i])
  {
    if s != [] && IsWhite(s[|s| - 1]) then TrimEnd(s[..|s| - 1]) else s
  }

  /** `TrimEnd` only cuts from the back. */
  lemma {:induction false} TrimEndSlice(s: string)
    ensures TrimEnd(s) == s[..|TrimEnd(s)|]
  {
    if s != [] && IsWhite(s[|s| - 1]) {
      TrimEndSlice(s[..|s| - 1]);
    }
  }

  /** `trim()`: the result neither starts nor ends with white space, and only
      white space was cut from either end. */
  function Trim(s: string): (r: string)
    ensures r == [] || (!IsWhite(r[0]) && !IsWhite(r[|r| - 1]))
  {
    var t := TrimStart(s);
    TrimEndSlice(t);
    TrimEnd(t)
  }

  /** Only white space is cut: the trimmed text is a slice of the text. */
  lemma TrimIsSlice(s: string)
    ensures exists a, b :: 0 <= a <= b <= |s| && Trim(s) == s[a..b]
  {
    var t := TrimStart(s);
    var r := TrimEnd(t);
    TrimStartSlice(s);
    TrimEndSlice(t);
    assert r == s[|s| - |t|..|s| - |t| + |r|];
  }

  lemma TrimNoWhiteEnds(s: string)
    requires s == [] || (!IsWhite(s[0]) && !IsWhite(s[|s| - 1]))
    ensures Trim(s) == s
  {
  }

  /** `p` is a prefix of `s` (`s.startsWith(p)`). */
  predicate StartsWith(s: string, p: string) { |p| <= |s| && s[..|p|] == p }

  /** `sub` occurs in `s`. */
  predicate Contains(s: string, sub: string)
    decreases |s|
  {
    StartsWith(s, sub) || (s != [] && Contains(s[1..], sub))
  }

  /** The parts joined with `sep` between each two. */
  function Join(parts: seq<string>, sep: string): string {
    if parts == [] then "" else if |parts| == 1 then parts[0] else parts[0] + sep + Join(parts[1..], sep)
  }

  /** Replaces the first occurrence of the text `pat` by `rep`. */
  function ReplaceFirst(s: string, pat: string, rep: string): string
    requires pat != []
  {
    if |s| < |pat| then s
    else if s[..|pat|] == pat then rep + s[|pat|..]
    else [s[0]] + ReplaceFirst(s[1..], pat, rep)
  }

  /** Replacing a character that does not occur changes nothing. */
  lemma {:induction false} ReplaceFirstAbsent(s: string, c: char, d: string)
    requires c !in s
    ensures ReplaceFirst(s, [c], d) == s
  {
    if s != [] {
      assert s[1..] + [] == s[1..];
      ReplaceFirstAbsent(s[1..], c, d);
    }
  }

  lemma {:induction false} ReplaceFirstCharAfter(a: string, c: char, b: string, d: string)
    requires c !in a
    ensures ReplaceFirst(a + [c] + b, [c], d) == a + d + b
  {
    if a != [] {
      assert (a + [c] + b)[1..] == a[1..] + [c] + b;
      ReplaceFirstCharAfter(a[1..], c, b, d);
    } else {
      assert (a + [c] + b)[1..] == b;
    }
  }

  function DigitChar(d: nat): char
    requires d < 10
  {
    ('0' as int + d) as char
  }

  function DigitOf(c: char): nat
    requires IsDigit(c)
  {
    c as int - '0' as int
  }

  /** Decimal text of a natural number, as `n.toString()` writes it. */
  function NatToString(n: nat): (r: string)
    ensures |r| >= 1 && AllDigits(r)
    ensures r[0] == '0' ==> n == 0 && r == "0"
  {
    if n < 10 then [DigitChar(n)] else NatToString(n / 10) + [DigitChar(n % 10)]
  }

  /** The number a string of decimal digits denotes. */
  function DigitsValue(s: string): nat
    requires AllDigits(s)
  {
    if s == [] then 0 else DigitsValue(s[..|s| - 1]) * 10 + DigitOf(s[|s| - 1])
  }

  lemma {:induction false} NatToStringRoundTrip(n: nat)
    ensures DigitsValue(NatToString(n)) == n
  {
    if n >= 10 {
      NatToStringRoundTrip(n / 10);
      var r := NatToString(n);
      assert r[..|r| - 1] == NatToString(n / 10);
    }
  }

  /** Leading zeros do not change the value of a digit string. */
  lemma {:induction false} DigitsValueLeadingZero(s: string)
    requires AllDigits(s)
    ensures DigitsValue("0" + s) == DigitsValue(s)
    decreases |s|
  {
    if s != [] {
      assert ("0" + s)[..|"0" + s| - 1] == "0" + s[..|s| - 1];
      DigitsValueLeadingZero(s[..|s| - 1]);
    }
  }

  function Pow10(k: nat): (r: nat)
    ensures r >= 1
  {
    if k == 0 then 1 else 10 * Pow10(k - 1)
  }

  lemma {:induction false} Pow10Add(a: nat, b: nat)
    ensures Pow10(a + b) == Pow10(a) * Pow10(b)
  {
    if b > 0 {
      Pow10Add(a, b - 1);
      assert Pow10(a + b) == 10 * Pow10(a + b - 1);
    }
  }

  lemma AllDigitsAppend(a: string, b: string)
    requires AllDigits(a) && AllDigits(b)
    ensures AllDigits(a + b)
  {
    forall i | 0 <= i < |a + b| ensures IsDigit((a + b)[i]) {
      if i < |a| { assert (a + b)[i] == a[i]; } else { assert (a + b)[i] == b[i - |a|]; }
    }
  }

  /** Appending digits shifts the value of the front by their count. */
  lemma {:induction false} DigitsValueAppend(a: string, b: string)
    requires AllDigits(a) && AllDigits(b)
    ensures AllDigits(a + b) && DigitsValue(a + b) == DigitsValue(a) * Pow10(|b|) + DigitsValue(b)
    decreases |b|
  {
    AllDigitsAppend(a, b);
    if b == [] {
      assert a + b == a;
    } else {
      var front := b[..|b| - 1];
      var last := DigitOf(b[|b| - 1]);
      assert (a + b)[..|a + b| - 1] == a + front;
      assert (a + b)[|a + b| - 1] == b[|b| - 1];
      DigitsValueAppend(a, front);
      var x, p, y := DigitsValue(a), Pow10(|front|), DigitsValue(front);
      assert DigitsValue(a + b) == (x * p + y) * 10 + last;
      assert Pow10(|b|) == 10 * p;
      assert DigitsValue(b) == y * 10 + last;
      ShiftUp(x, p, y);
    }
  }

  lemma ShiftUp(x: int, p: int, y: int)
    ensures (x * p + y) * 10 == x * (10 * p) + y * 10
  {
    calc {
      (x * p + y) * 10;
      (x * p) * 10 + y * 10;
      x * (p * 10) + y * 10;
    }
  }

  /** `k` digits denote less than `10^k`. */
  lemma {:induction false} DigitsValueBound(s: string)
    requires AllDigits(s)
    ensures DigitsValue(s) < Pow10(|s|)
  {
    if s != [] {
      DigitsValueBound(s[..|s| - 1]);
    }
  }

  /** `m` divided by `10^k`, cut toward zero. */
  function ShiftDown(m: nat, k: nat): nat {
    if k == 0 then m else ShiftDown(m / 10, k - 1)
  }

  /** Dividing `w * 10^k + f`, with `f < 10^k`, by `10^k` leaves `w`. */
  lemma {:induction false} ShiftDownDigits(w: nat, f: nat, k: nat)
    requires f < Pow10(k)
    ensures ShiftDown(w * Pow10(k) + f, k) == w
  {
    if k > 0 {
      var p := Pow10(k - 1);
      assert Pow10(k) == 10 * p;
      assert f / 10 < p;
      assert w * Pow10(k) + f == (w * p) * 10 + f;
      assert ((w * p) * 10 + f) / 10 == w * p + f / 10;
      ShiftDownDigits(w, f / 10, k - 1);
    }
  }

  /** Decimal text of an integer, with a leading '-' when negative. */
  function IntToString(i: int): (r: string)
    ensures |r| >= 1
  {
    if i < 0 then "-" + NatToString(-i) else NatToString(i)
  }
}
