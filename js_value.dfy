/** The dynamically typed values the components read from backend payloads,
    navigation state and `any`-typed arguments, with the JavaScript operators
    the code applies to them: property access, `??`, `||`, `&&`, truthiness,
    `String(v)` and `Number(v)`.

    Numbers are integers in the unit of the field that holds them (cents for
    money, whole units for ids and quantities); NaN is its own constructor. */
module JsValue {
  import opened Text
  import opened Wrappers

  datatype Value =
    | Undefined
    | Null
    | Bool(b: bool)
    | Num(n: int)
    | NaN
    | Str(s: string)
    | Arr(elems: seq<Value>)
    | Obj(fields: map<string, Value>)

  predicate IsNullish(v: Value) { v.Undefined? || v.Null? }

  /** JavaScript truthiness: everything except undefined, null, false, 0, NaN and ''. */
  predicate Truthy(v: Value) {
    match v
    case Undefined => false
    case Null => false
    case Bool(b) => b
    case Num(n) => n != 0
    case NaN => false
    case Str(s) => s != ""
    case Arr(_) => true
    case Obj(_) => true
  }

  /** `a` unless it is null or undefined, else `b`. */
  function Coalesce(a: Value, b: Value): Value {
    if IsNullish(a) then b else a
  }

  /** `a` when it is truthy, else `b`. */
  function Or(a: Value, b: Value): Value {
    if Truthy(a) then a else b
  }

  /** `a && b` */
  function And(a: Value, b: Value): Value {
    if Truthy(a) then b else a
  }

  /** `v[key]`: an own field of an object, undefined otherwise. */
  function Get(v: Value, key: string): Value {
    if v.Obj? && key in v.fields then v.fields[key] else Undefined
  }

  /** What `for (const c of s)` visits on a text: its characters, each a
      text of one character. */
  function Characters(s: string): (r: seq<Value>)
    ensures |r| == |s| && forall i :: 0 <= i < |s| ==> r[i] == Str([s[i]])
  {
    if s == [] then [] else [Str([s[0]])] + Characters(s[1..])
  }

  /** `String(v)`; an array is written as its elements joined by ',', with
      null and undefined elements written as ''. */
  function ToText(v: Value): string
    decreases v
  {
    match v
    case Undefined => "undefined"
    case Null => "null"
    case Bool(b) => if b then "true" else "false"
    case Num(n) => IntToString(n)
    case NaN => "NaN"
    case Str(s) => s
    case Arr(es) => Join(seq(|es|, i requires 0 <= i < |es| => if IsNullish(es[i]) then "" else ToText(es[i])), ",")
    case Obj(_) => "[object Object]"
  }

  /** An optionally signed run of decimal digits. */
  predicate IsIntLiteral(t: string) {
    if t != [] && (t[0] == '-' || t[0] == '+') then t[1..] != [] && AllDigits(t[1..])
    else t != [] && AllDigits(t)
  }

  function IntLiteralValue(t: string): int
    requires IsIntLiteral(t)
  {
    if t[0] == '-' then 0 - DigitsValue(t[1..]) else if t[0] == '+' then DigitsValue(t[1..]) else DigitsValue(t)
  }

  /** The first index of `s` holding `c`, or `|s|` when there is none. */
  function IndexOfChar(s: string, c: char): (r: nat)
    ensures r <= |s| && (r < |s| ==> s[r] == c)
    ensures forall i :: 0 <= i < r ==> s[i] != c
  {
    if s == [] || s[0] == c then 0 else 1 + IndexOfChar(s[1..], c)
  }

  /** The first index of `s` holding an exponent mark `e` or `E`, or `|s|`. */
  function IndexOfExp(s: string): (r: nat)
    ensures r <= |s| && (r < |s| ==> s[r] == 'e' || s[r] == 'E')
    ensures forall i :: 0 <= i < r ==> s[i] != 'e' && s[i] != 'E'
  {
    if s == [] || s[0] == 'e' || s[0] == 'E' then 0 else 1 + IndexOfExp(s[1..])
  }

  /** A decimal literal: its sign, the value of all its digits taken as one
      integer, the number of digits after the point, and its exponent. It
      denotes `mantissa * 10^(exponent - scale)`, negated when `negative`. */
  datatype Decimal = Decimal(negative: bool, mantissa: nat, scale: nat, exponent: int)

  /** The decimal literal `t` spells, if it is one: an optional sign, digits
      with at most one point and at least one digit, then optionally an
      exponent mark and an integer literal. */
  function ParseDecimal(t: string): Option<Decimal> {
    if t != [] && (t[0] == '-' || t[0] == '+') then ParseUnsigned(t[1..], t[0] == '-') else ParseUnsigned(t, false)
  }

  /** The literal after its sign: the digits and point, then the exponent. */
  function ParseUnsigned(body: string, negative: bool): Option<Decimal> {
    var e := IndexOfExp(body);
    if e == |body| then WithExponent(ParseDigits(body), negative, 0)
    else if IsIntLiteral(body[e + 1..]) then WithExponent(ParseDigits(body[..e]), negative, IntLiteralValue(body[e + 1..]))
    else None
  }

  function WithExponent(m: Option<Decimal>, negative: bool, exponent: int): Option<Decimal> {
    if m.None? then None else Some(m.value.(negative := negative, exponent := exponent))
  }

  /** Digits with at most one point, at least one digit in all. */
  function ParseDigits(digits: string): Option<Decimal> {
    var p := IndexOfChar(digits, '.');
    if p == |digits| then PointDigits(digits, "") else PointDigits(digits[..p], digits[p + 1..])
  }

  /** The digits before and after the point. */
  function PointDigits(whole: string, fraction: string): (r: Option<Decimal>)
    ensures r.Some? <==> AllDigits(whole) && AllDigits(fraction) && |whole| + |fraction| > 0
  {
    if AllDigits(whole) && AllDigits(fraction) && |whole| + |fraction| > 0 then
      AllDigitsAppend(whole, fraction);
      Some(Decimal(false, DigitsValue(whole + fraction), |fraction|, 0))
    else None
  }

  /** The value of `d` times `10^places`, cut toward zero to an integer. */
  function Scaled(d: Decimal, places: nat): int {
    var shift := d.exponent + places - d.scale;
    var magnitude := if shift >= 0 then d.mantissa * Pow10(shift) else ShiftDown(d.mantissa, -shift);
    if d.negative then -magnitude else magnitude
  }

  /** The number a text without white space at either end reads as, in units
      of `10^-places`: 0 when it is empty, the value of a decimal literal,
      anything else NaN. */
  function LiteralNumber(t: string, places: nat): (r: Value)
    ensures r.Num? || r.NaN?
  {
    if t == "" then Num(0)
    else
      match ParseDecimal(t)
      case Some(d) => Num(Scaled(d, places))
      case None => NaN
  }

  /** `Number(s)` for a string, in units of `10^-places`: white space around
      the text is ignored, the empty text is 0, a decimal literal is its
      value, anything else NaN. Leading white space is skipped here,
      trailing white space by `NumberAfterLead`. */
  function StringToNumber(s: string, places: nat): (r: Value)
    ensures r.Num? || r.NaN?
  {
    if s != [] && IsWhite(s[0]) then StringToNumber(s[1..], places) else NumberAfterLead(s, places)
  }

  function NumberAfterLead(t: string, places: nat): (r: Value)
    ensures r.Num? || r.NaN?
  {
    if t != [] && IsWhite(t[|t| - 1]) then NumberAfterLead(t[..|t| - 1], places) else LiteralNumber(t, places)
  }

  lemma {:induction false} NumberAfterLeadTrimmed(t: string, places: nat)
    ensures NumberAfterLead(t, places) == LiteralNumber(TrimEnd(t), places)
  {
    if t != [] && IsWhite(t[|t| - 1]) {
      NumberAfterLeadTrimmed(t[..|t| - 1], places);
    }
  }

  /** The number of a text is the number of the text trimmed. */
  lemma {:induction false} StringToNumberTrimmed(s: string, places: nat)
    ensures StringToNumber(s, places) == LiteralNumber(Trim(s), places)
  {
    if s != [] && IsWhite(s[0]) {
      StringToNumberTrimmed(s[1..], places);
    } else {
      NumberAfterLeadTrimmed(s, places);
    }
  }

  /** `Number(v)` where `v` counts whole units (a quantity, an id): always a
      number or NaN. */
  function ToNumber(v: Value): (r: Value)
    ensures r.Num? || r.NaN?
  {
    match v
    case Undefined => NaN
    case Null => Num(0)
    case Bool(b) => Num(if b then 1 else 0)
    case Num(_) => v
    case NaN => NaN
    case Str(s) => StringToNumber(s, 0)
    case Arr(_) => StringToNumber(ToText(v), 0)
    case Obj(_) => NaN
  }

  /** `Number(v)` where `v` is an amount of money, in cents: a number is
      already in cents, `true` is one real, a text is read as a decimal
      amount of reais. */
  function ToAmount(v: Value): (r: Value)
    ensures r.Num? || r.NaN?
  {
    match v
    case Undefined => NaN
    case Null => Num(0)
    case Bool(b) => Num(if b then 100 else 0)
    case Num(_) => v
    case NaN => NaN
    case Str(s) => StringToNumber(s, 2)
    case Arr(_) => StringToNumber(ToText(v), 2)
    case Obj(_) => NaN
  }

  /** A count read as a number, or `d` when that is 0 or NaN. */
  function NumberOr(v: Value, d: int): int {
    var x := ToNumber(v);
    if x.Num? && x.n != 0 then x.n else d
  }

  /** An amount read in cents, or `d` when that is 0 or NaN. */
  function AmountOr(v: Value, d: int): int {
    var x := ToAmount(v);
    if x.Num? && x.n != 0 then x.n else d
  }

  /** A text of digits has no point and no exponent mark. */
  lemma DigitsHaveNoMarks(w: string)
    requires AllDigits(w)
    ensures IndexOfExp(w) == |w| && IndexOfChar(w, '.') == |w|
  {
    assert forall i :: 0 <= i < |w| ==> w[i] != 'e' && w[i] != 'E' && w[i] != '.' by {
      forall i | 0 <= i < |w| ensures w[i] != 'e' && w[i] != 'E' && w[i] != '.' {
        assert IsDigit(w[i]);
      }
    }
  }

  /** A run of digits is a literal with scale and exponent 0. */
  lemma ParseDigitRun(w: string, negative: bool)
    requires AllDigits(w) && w != []
    ensures ParseUnsigned(w, negative) == Some(Decimal(negative, DigitsValue(w), 0, 0))
  {
    DigitsHaveNoMarks(w);
    assert w + "" == w;
  }

  /** Where the point and the exponent mark sit in `whole.fraction`. */
  lemma PointTextMarks(whole: string, fraction: string)
    requires AllDigits(whole) && AllDigits(fraction)
    ensures var t := whole + "." + fraction;
      IndexOfExp(t) == |t| && IndexOfChar(t, '.') == |whole|
      && t[..|whole|] == whole && t[|whole| + 1..] == fraction
  {
    var t := whole + "." + fraction;
    assert forall i :: 0 <= i < |t| ==> t[i] != 'e' && t[i] != 'E' by {
      forall i | 0 <= i < |t| ensures t[i] != 'e' && t[i] != 'E' {
        if i < |whole| { assert t[i] == whole[i]; }
        else if i > |whole| { assert t[i] == fraction[i - |whole| - 1]; }
      }
    }
    assert forall i :: 0 <= i < |whole| ==> t[i] != '.' by {
      forall i | 0 <= i < |whole| ensures t[i] != '.' {
        assert t[i] == whole[i];
      }
    }
    assert t[|whole|] == '.';
    assert t[..|whole|] == whole;
    assert t[|whole| + 1..] == fraction;
  }

  /** `whole.fraction` parses to its digits with the fraction's length as scale. */
  lemma ParsePointText(whole: string, fraction: string)
    requires AllDigits(whole) && AllDigits(fraction) && |whole| + |fraction| > 0
    ensures AllDigits(whole + fraction)
    ensures ParseUnsigned(whole + "." + fraction, false)
      == Some(Decimal(false, DigitsValue(whole + fraction), |fraction|, 0))
  {
    var t := whole + "." + fraction;
    PointTextMarks(whole, fraction);
    AllDigitsAppend(whole, fraction);
    assert t[..|t|] == t;
    assert ParseDigits(t) == PointDigits(whole, fraction);
  }

  /** `whole.fraction` has neither a sign nor white space at its ends. */
  lemma PointTextEnds(whole: string, fraction: string)
    requires AllDigits(whole) && AllDigits(fraction)
    ensures var t := whole + "." + fraction;
      Trim(t) == t && t[0] != '-' && t[0] != '+'
  {
    var t := whole + "." + fraction;
    assert t[0] == (if whole == [] then '.' else whole[0]);
    assert t[|t| - 1] == (if fraction == [] then '.' else fraction[|fraction| - 1]);
    TrimNoWhiteEnds(t);
  }

  /** The number `whole.fraction` reads as, in units of `10^-places`. */
  lemma PointTextNumber(whole: string, fraction: string, places: nat)
    requires AllDigits(whole) && AllDigits(fraction) && |whole| + |fraction| > 0
    ensures AllDigits(whole + fraction)
    ensures StringToNumber(whole + "." + fraction, places)
      == Num(Scaled(Decimal(false, DigitsValue(whole + fraction), |fraction|, 0), places))
  {
    var t := whole + "." + fraction;
    PointTextEnds(whole, fraction);
    ParsePointText(whole, fraction);
    StringToNumberTrimmed(t, places);
  }

  /** The decimal text of an integer is trimmed already and parses to its
      digits with scale and exponent 0. */
  lemma IntegerTextParse(n: int)
    ensures var t := IntToString(n);
      Trim(t) == t && ParseDecimal(t) == Some(Decimal(n < 0, if n < 0 then -n else n, 0, 0))
  {
    var m: nat := if n < 0 then -n else n;
    var w := NatToString(m);
    var t := IntToString(n);
    NatToStringRoundTrip(m);
    ParseDigitRun(w, n < 0);
    if n < 0 {
      assert t == "-" + w && t[1..] == w;
    } else {
      assert t == w && (w[0] != '-' && w[0] != '+');
    }
    assert t[0] == '-' || IsDigit(t[0]);
    assert IsDigit(t[|t| - 1]);
    TrimNoWhiteEnds(t);
  }

  /** The decimal text of an integer reads back as that integer, as a count,
      and as that many reais, as an amount. */
  lemma IntegerTextRead(n: int)
    ensures ToNumber(Str(IntToString(n))) == Num(n)
    ensures ToAmount(Str(IntToString(n))) == Num(100 * n)
  {
    var t := IntToString(n);
    var d := Decimal(n < 0, if n < 0 then -n else n, 0, 0);
    IntegerTextParse(n);
    StringToNumberTrimmed(t, 0);
    StringToNumberTrimmed(t, 2);
    assert Pow10(0) == 1 && Pow10(2) == 100;
    assert Scaled(d, 0) == n;
    assert Scaled(d, 2) == 100 * n;
  }

  /** A text `whole.fraction` with at most two decimals reads as its exact
      number of cents: "12.5" and "12.50" are 1250, ".5" is 50. */
  lemma DecimalTextAmount(whole: string, fraction: string)
    requires AllDigits(whole) && AllDigits(fraction) && |whole| + |fraction| > 0 && |fraction| <= 2
    ensures ToAmount(Str(whole + "." + fraction))
      == Num(DigitsValue(whole) * 100 + DigitsValue(fraction) * Pow10(2 - |fraction|))
  {
    PointTextNumber(whole, fraction, 2);
    ScaledCents(whole, fraction);
  }

  /** The arithmetic of `DecimalTextAmount`: at most two decimals scale to
      whole cents. */
  lemma ScaledCents(whole: string, fraction: string)
    requires AllDigits(whole) && AllDigits(fraction) && |fraction| <= 2
    ensures Scaled(Decimal(false, DigitsValue(whole + fraction), |fraction|, 0), 2)
      == DigitsValue(whole) * 100 + DigitsValue(fraction) * Pow10(2 - |fraction|)
  {
    DigitsValueAppend(whole, fraction);
    var d := Decimal(false, DigitsValue(whole + fraction), |fraction|, 0);
    ScaledUp(d, 2);
    var x, f := DigitsValue(whole), DigitsValue(fraction);
    assert Pow10(0) == 1 && Pow10(1) == 10 && Pow10(2) == 100;
    if |fraction| == 0 {
      assert d.mantissa == x * 1 + f;
      assert Scaled(d, 2) == d.mantissa * 100;
    } else if |fraction| == 1 {
      assert d.mantissa == x * 10 + f;
      assert Scaled(d, 2) == d.mantissa * 10;
    } else {
      assert d.mantissa == x * 100 + f;
      assert Scaled(d, 2) == d.mantissa * 1;
    }
  }

  /** A literal whose value, scaled, is whole is scaled exactly. */
  lemma ScaledUp(d: Decimal, places: nat)
    requires !d.negative && d.exponent + places - d.scale >= 0
    ensures Scaled(d, places) == d.mantissa * Pow10(d.exponent + places - d.scale)
  {
  }

  /** Otherwise the digits past the scaled point are cut off. */
  lemma ScaledDown(d: Decimal, places: nat)
    requires !d.negative && d.exponent + places - d.scale < 0
    ensures Scaled(d, places) == ShiftDown(d.mantissa, d.scale - d.exponent - places)
  {
  }

  /** Where the exponent mark sits in `w e x`. */
  lemma ExponentTextMarks(w: string, x: string)
    requires AllDigits(w) && AllDigits(x) && w != [] && x != []
    ensures var t := w + "e" + x;
      IndexOfExp(t) == |w| && t[..|w|] == w && t[|w| + 1..] == x
      && Trim(t) == t && t[0] != '-' && t[0] != '+'
  {
    var t := w + "e" + x;
    assert forall i :: 0 <= i < |w| ==> t[i] != 'e' && t[i] != 'E' by {
      forall i | 0 <= i < |w| ensures t[i] != 'e' && t[i] != 'E' {
        assert t[i] == w[i];
      }
    }
    assert t[|w|] == 'e';
    assert t[..|w|] == w && t[|w| + 1..] == x;
    assert t[0] == w[0] && t[|t| - 1] == x[|x| - 1];
    TrimNoWhiteEnds(t);
  }

  /** `w e k` parses to the digits of `w` with exponent `k`. */
  lemma ExponentTextParse(w: string, k: nat)
    requires AllDigits(w) && w != []
    ensures var t := w + "e" + NatToString(k);
      Trim(t) == t && ParseDecimal(t) == Some(Decimal(false, DigitsValue(w), 0, k))
  {
    var x := NatToString(k);
    var t := w + "e" + x;
    ExponentTextMarks(w, x);
    NatToStringRoundTrip(k);
    assert IsIntLiteral(x) && IntLiteralValue(x) == k;
    DigitsHaveNoMarks(w);
    assert w + "" == w;
    assert ParseDigits(w) == PointDigits(w, "");
    assert ParseUnsigned(t, false) == WithExponent(ParseDigits(w), false, k);
  }

  /** Digits, an exponent mark and a natural number: "1e3" is 1000 reais. */
  lemma ExponentTextAmount(w: string, k: nat)
    requires AllDigits(w) && w != []
    ensures ToAmount(Str(w + "e" + NatToString(k))) == Num(DigitsValue(w) * Pow10(k + 2))
  {
    var t := w + "e" + NatToString(k);
    var d := Decimal(false, DigitsValue(w), 0, k);
    ExponentTextParse(w, k);
    StringToNumberTrimmed(t, 2);
    assert ToAmount(Str(t)) == StringToNumber(t, 2) == Num(Scaled(d, 2));
    ScaledExponent(DigitsValue(w), k);
  }

  lemma ScaledExponent(m: nat, k: nat)
    ensures Scaled(Decimal(false, m, 0, k), 2) == m * Pow10(k + 2)
  {
    ScaledUp(Decimal(false, m, 0, k), 2);
  }

  /** A count written with decimals reads as its whole part: "2.0" is 2. */
  lemma DecimalTextCount(whole: string, fraction: string)
    requires AllDigits(whole) && AllDigits(fraction) && |whole| + |fraction| > 0
    ensures ToNumber(Str(whole + "." + fraction)) == Num(DigitsValue(whole))
  {
    PointTextNumber(whole, fraction, 0);
    ScaledWhole(whole, fraction);
  }

  /** The arithmetic of `DecimalTextCount`: scaling to no decimals drops the fraction. */
  lemma ScaledWhole(whole: string, fraction: string)
    requires AllDigits(whole) && AllDigits(fraction)
    ensures Scaled(Decimal(false, DigitsValue(whole + fraction), |fraction|, 0), 0) == DigitsValue(whole)
  {
    DigitsValueAppend(whole, fraction);
    DigitsValueBound(fraction);
    if |fraction| == 0 {
      assert whole + fraction == whole;
      ScaledUp(Decimal(false, DigitsValue(whole), 0, 0), 0);
      assert Pow10(0) == 1;
    } else {
      ScaledWholeShift(DigitsValue(whole), DigitsValue(fraction), |fraction|);
    }
  }

  lemma ScaledWholeShift(x: nat, f: nat, n: nat)
    requires n > 0 && f < Pow10(n)
    ensures Scaled(Decimal(false, x * Pow10(n) + f, n, 0), 0) == x
  {
    var d := Decimal(false, x * Pow10(n) + f, n, 0);
    ScaledDown(d, 0);
    assert Scaled(d, 0) == ShiftDown(x * Pow10(n) + f, n);
    ShiftDownDigits(x, f, n);
  }

  /** The values of the fields named `keys` of `v`, in order. */
  function Fields(v: Value, keys: seq<string>): (r: seq<Value>)
    ensures |r| == |keys| && forall i :: 0 <= i < |keys| ==> r[i] == Get(v, keys[i])
  {
    seq(|keys|, i requires 0 <= i < |keys| => Get(v, keys[i]))
  }

  /** The first field of `v` named in `keys` that is neither null nor
      undefined, else `last`. */
  function FirstField(v: Value, keys: seq<string>, last: Value): (r: Value)
    ensures !IsNullish(last) ==> !IsNullish(r)
  {
    if keys == [] then last else Coalesce(Get(v, keys[0]), FirstField(v, keys[1..], last))
  }

  /** With two fields, `FirstField` is the first of them that is set, else
      `last`. */
  lemma FirstFieldPair(v: Value, a: string, b: string, last: Value)
    ensures FirstField(v, [a, b], last) == Coalesce(Get(v, a), Coalesce(Get(v, b), last))
  {
    assert [a, b][1..] == [b] && [b][1..] == [];
    assert FirstField(v, [b], last) == Coalesce(Get(v, b), last);
  }

  /** `FirstField` returns the first field that is set. */
  lemma {:induction false} FirstFieldIsFirstSet(v: Value, keys: seq<string>, last: Value, k: nat)
    requires k < |keys| && !IsNullish(Get(v, keys[k]))
    requires forall j :: 0 <= j < k ==> IsNullish(Get(v, keys[j]))
    ensures FirstField(v, keys, last) == Get(v, keys[k])
  {
    if k > 0 {
      FirstFieldIsFirstSet(v, keys[1..], last, k - 1);
    }
  }

  /** `FirstField` returns `last` exactly when no field is set, and otherwise
      a value that is set. */
  lemma {:induction false} FirstFieldNoneSet(v: Value, keys: seq<string>, last: Value)
    ensures (forall j :: 0 <= j < |keys| ==> IsNullish(Get(v, keys[j]))) ==> FirstField(v, keys, last) == last
    ensures (exists j :: 0 <= j < |keys| && !IsNullish(Get(v, keys[j]))) ==> !IsNullish(FirstField(v, keys, last))
  {
    if keys != [] {
      FirstFieldNoneSet(v, keys[1..], last);
      if forall j :: 0 <= j < |keys| ==> IsNullish(Get(v, keys[j])) {
        assert forall j :: 0 <= j < |keys| - 1 ==> IsNullish(Get(v, keys[1..][j])) by {
          forall j | 0 <= j < |keys| - 1 ensures IsNullish(Get(v, keys[1..][j])) {
            assert keys[1..][j] == keys[j + 1];
          }
        }
      }
      if exists j :: 0 <= j < |keys| && !IsNullish(Get(v, keys[j])) {
        var j :| 0 <= j < |keys| && !IsNullish(Get(v, keys[j]));
        if j > 0 { assert keys[1..][j - 1] == keys[j]; }
      }
    }
  }
}
