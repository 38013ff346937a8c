/** The manager's "add item" modal: the price field is cleaned as it is
    typed (thousands grouped with '.' while no decimal separator is present),
    and on submit the price text is read back as a number and the item is
    emitted when a name, a category and a positive price are present.
    Amounts are in cents. */
module AddItemModal {
  import opened Text
  import opened JsValue
  import opened Wrappers
  import Money
  import Lists

  predicate PriceChar(c: char) { IsDigit(c) || c == '.' || c == ',' }
  predicate NotDot(c: char) { c != '.' }
  predicate NotComma(c: char) { c != ',' }
  predicate NotWhite(c: char) { !IsWhite(c) }
  predicate SubmitChar(c: char) { IsDigit(c) || c == '.' || c == '-' }
  predicate IsPoint(c: char) { c == '.' }
  predicate IsComma(c: char) { c == ',' }

  /** The typed text already holds a decimal separator, a '.' or a ','. */
  predicate HasSep(v: string) { '.' in v || ',' in v }

  /** The typed text with every character other than a digit, '.' or ','
      removed. */
  function PriceText(value: string): (r: string)
    ensures forall i :: 0 <= i < |r| ==> PriceChar(r[i])
    ensures !HasSep(r) ==> AllDigits(r)
  {
    Select(value, PriceChar)
  }

  /** A text of digits without its leading zeros, keeping the last digit when
      every digit is a zero. */
  function StripZeros(v: string): (r: string)
    requires AllDigits(v)
    ensures AllDigits(r) && (r == "" <==> v == "")
    ensures DigitsValue(r) == DigitsValue(v)
  {
    if |v| >= 2 && v[0] == '0' && IsDigit(v[1]) then
      assert v == "0" + v[1..];
      DigitsValueLeadingZero(v[1..]);
      StripZeros(v[1..])
    else v
  }

  /** The thousands grouping of the field: a '.' before every group of
      three digits counted from the right. Every '.' is followed by exactly
      three digits up to the next '.' or the end, and the first group holds
      one to three digits. */
  function Group(d: string): (r: string)
    requires AllDigits(d)
    ensures |r| >= |d| && (d == "" <==> r == "")
    ensures forall i :: 0 <= i < |r| ==> r[i] == '.' || IsDigit(r[i])
    decreases |d|
  {
    if |d| <= 3 then d
    else Group(d[..|d| - 3]) + "." + d[|d| - 3..]
  }

  /** Dots exactly at the positions a multiple of 4 from the end, and a
      first group that is not empty. */
  predicate GroupedShape(r: string) {
    (forall i :: 0 <= i < |r| ==> (r[i] == '.' <==> (|r| - i) % 4 == 0)) && |r| % 4 != 0
  }

  lemma DigitsShape(d: string)
    requires AllDigits(d) && 1 <= |d| <= 3
    ensures GroupedShape(d)
  {
    forall i | 0 <= i < |d| ensures d[i] == '.' <==> (|d| - i) % 4 == 0 {
      assert IsDigit(d[i]);
    }
  }

  lemma ModFour(x: int)
    ensures (x + 4) % 4 == x % 4
  {
  }

  /** One more group of three digits keeps the shape. */
  lemma GroupedShapeStep(g: string, t: string)
    requires GroupedShape(g) && AllDigits(t) && |t| == 3
    ensures GroupedShape(g + "." + t)
  {
    var r := g + "." + t;
    assert |r| == |g| + 4;
    ModFour(|g|);
    forall i | 0 <= i < |r| ensures r[i] == '.' <==> (|r| - i) % 4 == 0 {
      if i < |g| {
        assert r[i] == g[i];
        ModFour(|g| - i);
      } else if i > |g| {
        assert r[i] == t[i - |g| - 1];
        assert IsDigit(t[i - |g| - 1]);
      }
    }
  }

  /** The dots of `Group(d)` sit exactly at the positions a multiple of 4
      from the end, and the first group is not empty. */
  lemma {:induction false} GroupShape(d: string)
    requires AllDigits(d) && d != ""
    ensures forall i :: 0 <= i < |Group(d)| ==> (Group(d)[i] == '.' <==> (|Group(d)| - i) % 4 == 0)
    ensures |Group(d)| % 4 != 0 && |Group(d)| - |Group(d)| / 4 == |d|
    decreases |d|
  {
    if |d| <= 3 {
      DigitsShape(d);
    } else {
      var h := d[..|d| - 3];
      var t := d[|d| - 3..];
      assert AllDigits(h) && AllDigits(t);
      var g := Group(h);
      GroupShape(h);
      assert Group(d) == g + "." + t;
      GroupedShapeStep(g, t);
    }
  }

  /** Digits have no dot to remove. */
  lemma DigitsKeptUngrouped(s: string)
    requires AllDigits(s)
    ensures Select(s, NotDot) == s
  {
    assert forall i :: 0 <= i < |s| ==> NotDot(s[i]);
    SelectAllKept(s, NotDot);
  }

  /** Removing the dots of `g` + '.' + digits. */
  lemma UngroupStep(g: string, h: string, t: string)
    requires Select(g, NotDot) == h && AllDigits(t)
    ensures Select(g + "." + t, NotDot) == h + t
  {
    DigitsKeptUngrouped(t);
    SelectAppend(g + ".", t, NotDot);
    SelectAppend(g, ".", NotDot);
    assert Select(".", NotDot) == "";
  }

  /** Removing the dots of a grouped number gives the digits back. */
  lemma {:induction false} UngroupGroup(d: string)
    requires AllDigits(d)
    ensures Select(Group(d), NotDot) == d
    decreases |d|
  {
    if |d| <= 3 {
      DigitsKeptUngrouped(d);
    } else {
      var h := d[..|d| - 3];
      var t := d[|d| - 3..];
      assert AllDigits(h) && AllDigits(t);
      assert Group(d) == Group(h) + "." + t;
      UngroupGroup(h);
      UngroupStep(Group(h), h, t);
      assert h + t == d;
    }
  }

  /** `onPriceInput`: the new text of the price field for the text `value`. */
  function PriceInput(value: string): (r: string)
    ensures !HasSep(PriceText(value)) && PriceText(value) == "" ==> r == ""
    ensures !HasSep(PriceText(value)) && PriceText(value) != "" ==>
      r == Group(NatToString(DigitsValue(PriceText(value))))
    ensures HasSep(PriceText(value)) ==> r == Select(PriceText(value), NotDot)
  {
    var v := PriceText(value);
    if !HasSep(v) then
      var v2 := StripZeros(v);
      SelectAllKept(v2, NotDot);
      SelectAllKept(v2, NotComma);
      var digits := Select(Select(v2, NotDot), NotComma);
      if |digits| == 0 then "" else Group(NatToString(DigitsValue(digits)))
    else
      var w := Select(Select(v, NotDot), NotWhite);
      SelectDotsOfPriceText(v);
      NoWhiteKept(Select(v, NotDot));
      MapCharAbsent(w, '.', ',');
      MapChar(w, '.', ',')
  }

  /** Text with no white space keeps all its characters under `NotWhite`. */
  lemma NoWhiteKept(s: string)
    requires forall i :: 0 <= i < |s| ==> PriceChar(s[i])
    ensures Select(s, NotWhite) == s
  {
    SelectAllKept(s, NotWhite);
  }

  /** The dot-free characters of the price text: digits and commas. */
  lemma SelectDotsOfPriceText(v: string)
    requires forall i :: 0 <= i < |v| ==> PriceChar(v[i])
    ensures forall i :: 0 <= i < |Select(v, NotDot)| ==> IsDigit(Select(v, NotDot)[i]) || Select(v, NotDot)[i] == ','
  {
    SelectFrom(v, NotDot);
  }

  lemma MapCharAbsent(s: string, c: char, d: char)
    requires c !in s
    ensures MapChar(s, c, d) == s
  {
  }

  /** Without a separator, the field shows the number typed, leading zeros
      dropped, and removing its dots gives that number's decimal text. */
  lemma PriceInputGrouped(value: string)
    requires !HasSep(PriceText(value)) && PriceText(value) != ""
    ensures Select(PriceInput(value), NotDot) == NatToString(DigitsValue(PriceText(value)))
    ensures (PriceInput(value) != "" && PriceInput(value)[0] != '0') || PriceInput(value) == "0"
  {
    UngroupGroup(NatToString(DigitsValue(PriceText(value))));
  }

  /** With a separator, commas stay, dots go, and nothing else changes: the
      white-space removal and the dot-to-comma replacement that follow have
      nothing left to act on. */
  lemma PriceInputDecimal(value: string)
    requires HasSep(PriceText(value))
    ensures '.' !in PriceInput(value)
    ensures forall i :: 0 <= i < |PriceInput(value)| ==> IsDigit(PriceInput(value)[i]) || PriceInput(value)[i] == ','
  {
    SelectDotsOfPriceText(PriceText(value));
  }

  /** A grouped amount typed into again is read as a decimal, so the
      grouping dots are dropped rather than rebuilt. */
  lemma {:induction false} RegroupedInputUngroups(w: string)
    requires AllDigits(w) && |w| > 3
    ensures PriceInput(Group(w)) == w
  {
    var g := Group(w);
    GroupShape(w);
    assert g[|g| - 4] == '.';
    SelectAllKept(g, PriceChar);
    UngroupGroup(w);
  }

  /** The text with every currency mark "R$" removed, in either case. */
  function RemoveCurrency(s: string): (r: string)
    ensures '$' !in s ==> r == s
  {
    if |s| >= 2 && (s[0] == 'R' || s[0] == 'r') && s[1] == '$' then RemoveCurrency(s[2..])
    else if s == [] then []
    else [s[0]] + RemoveCurrency(s[1..])
  }

  /** Removing the currency marks drops characters and nothing else: what is
      left keeps its order, every digit and every comma. */
  lemma RemoveCurrencyKeeps(s: string)
    ensures Lists.SubseqOf(RemoveCurrency(s), s)
    ensures Select(RemoveCurrency(s), IsDigit) == Select(s, IsDigit)
    ensures Select(RemoveCurrency(s), IsComma) == Select(s, IsComma)
  {
    RemoveCurrencySubseq(s);
    RemoveCurrencySelect(s, IsDigit);
    RemoveCurrencySelect(s, IsComma);
  }

  lemma {:induction false} RemoveCurrencySubseq(s: string)
    ensures Lists.SubseqOf(RemoveCurrency(s), s)
  {
    if |s| >= 2 && (s[0] == 'R' || s[0] == 'r') && s[1] == '$' {
      RemoveCurrencySubseq(s[2..]);
      assert s[1..][1..] == s[2..];
      assert Lists.SubseqOf(RemoveCurrency(s), s[1..]);
    } else if s != [] {
      RemoveCurrencySubseq(s[1..]);
      assert ([s[0]] + RemoveCurrency(s[1..]))[1..] == RemoveCurrency(s[1..]);
    }
  }

  /** A selection that takes none of 'R', 'r' and '$' sees no difference. */
  lemma {:induction false} RemoveCurrencySelect(s: string, p: char -> bool)
    requires !p('R') && !p('r') && !p('$')
    ensures Select(RemoveCurrency(s), p) == Select(s, p)
  {
    if |s| >= 2 && (s[0] == 'R' || s[0] == 'r') && s[1] == '$' {
      RemoveCurrencySelect(s[2..], p);
      assert s[1..][1..] == s[2..];
      assert Select(s, p) == Select(s[1..], p) == Select(s[2..], p);
    } else if s != [] {
      RemoveCurrencySelect(s[1..], p);
      assert ([s[0]] + RemoveCurrency(s[1..]))[1..] == RemoveCurrency(s[1..]);
    }
  }

  /** The price text normalised for `parseFloat` on submit. */
  function SubmitText(s: string): (r: string)
    ensures forall i :: 0 <= i < |r| ==> SubmitChar(r[i])
  {
    var t := Select(Select(RemoveCurrency(s), NotWhite), NotDot);
    Select(MapChar(t, ',', '.'), SubmitChar)
  }

  /** Normalising for submit keeps every digit of `s` in its order, and each
      decimal comma becomes the one kind of point left. */
  lemma SubmitTextKeeps(s: string)
    ensures Select(SubmitText(s), IsDigit) == Select(s, IsDigit)
    ensures |Select(SubmitText(s), IsPoint)| == |Select(s, IsComma)|
  {
    var x := RemoveCurrency(s);
    var a := Select(x, NotWhite);
    var t := Select(a, NotDot);
    RemoveCurrencyKeeps(s);
    DropWhiteKeeps(x);
    DropDotsKeeps(a);
    CommasBecomePoints(t);
    SelectMapChar(t, ',', '.', IsDigit);
    SubmitCharsKeep(MapChar(t, ',', '.'));
  }

  lemma DropWhiteKeeps(x: string)
    ensures Select(Select(x, NotWhite), IsDigit) == Select(x, IsDigit)
    ensures Select(Select(x, NotWhite), IsComma) == Select(x, IsComma)
  {
    SelectSelect(x, NotWhite, IsDigit);
    SelectSelect(x, NotWhite, IsComma);
  }

  lemma DropDotsKeeps(a: string)
    ensures Select(Select(a, NotDot), IsDigit) == Select(a, IsDigit)
    ensures Select(Select(a, NotDot), IsComma) == Select(a, IsComma)
  {
    SelectSelect(a, NotDot, IsDigit);
    SelectSelect(a, NotDot, IsComma);
  }

  lemma SubmitCharsKeep(m: string)
    ensures Select(Select(m, SubmitChar), IsDigit) == Select(m, IsDigit)
    ensures Select(Select(m, SubmitChar), IsPoint) == Select(m, IsPoint)
  {
    SelectSelect(m, SubmitChar, IsDigit);
    SelectSelect(m, SubmitChar, IsPoint);
  }

  /** Without points in `t`, the points after mapping ',' to '.' are its commas. */
  lemma {:induction false} CommasBecomePoints(t: string)
    requires forall i :: 0 <= i < |t| ==> NotDot(t[i])
    ensures |Select(MapChar(t, ',', '.'), IsPoint)| == |Select(t, IsComma)|
  {
    if t != [] {
      var m := MapChar(t, ',', '.');
      assert m[1..] == MapChar(t[1..], ',', '.');
      CommasBecomePoints(t[1..]);
    }
  }

  /** The price the form emits: a number as it is, a text read as a decimal
      amount (0 when that is NaN), and 0 for anything else. */
  function PriceNum(raw: Value): (r: Value)
    ensures raw.Str? ==> r == Num(AmountOr(Money.ParseFloatCents(SubmitText(raw.s)), 0))
    ensures !raw.Str? && !raw.Num? && !raw.NaN? ==> r == Num(0)
    ensures raw.Num? || raw.NaN? ==> r == raw
  {
    if raw.Num? || raw.NaN? then raw
    else if raw.Str? then Num(AmountOr(Money.ParseFloatCents(SubmitText(raw.s)), 0))
    else Num(0)
  }

  /** `priceNum <= 0` */
  predicate PriceBlocked(p: Value) { p.Num? && p.n <= 0 }

  /** The form; every field may be unset. */
  datatype Draft = Draft(
    id: Value, nome: Value, preco: Value, categoria: Value,
    descricao: Value, urlImage: Value, tag: Value)

  /** The item handed to the parent. */
  datatype Emitted = Emitted(
    id: Value, urlImage: Value, nome: Value, preco: Value, categoria: Value,
    tag: Value, descricao: Value)

  /** `onSubmit`: the item emitted, or `None` when the name is empty, the
      category is unset or the price is not above 0. */
  function Submitted(d: Draft): (r: Option<Emitted>)
    ensures r.Some? <==> Truthy(d.nome) && !IsNullish(d.categoria) && !PriceBlocked(PriceNum(d.preco))
    ensures r.Some? ==> r.value.preco == PriceNum(d.preco) && r.value.nome == d.nome && r.value.categoria == d.categoria
    ensures r.Some? ==> r.value.tag == d.tag && r.value.descricao == d.descricao
    ensures r.Some? ==> r.value.id == (if Truthy(d.id) then d.id else Num(0))
    ensures r.Some? ==> r.value.urlImage == (if Truthy(d.urlImage) then d.urlImage else Str(""))
  {
    if !Truthy(d.nome) || IsNullish(d.categoria) then None
    else
      var p := PriceNum(d.preco);
      if p.Num? && p.n <= 0 then None
      else Some(Emitted(Or(d.id, Num(0)), Or(d.urlImage, Str("")), d.nome, p, d.categoria, d.tag, d.descricao))
  }

  /** A price given as text is emitted only as a positive number. */
  lemma SubmittedTextPrice(d: Draft)
    requires d.preco.Str? && Submitted(d).Some?
    ensures Submitted(d).value.preco.Num? && Submitted(d).value.preco.n > 0
  {
  }

  /** `parseFloat` of digits, a point and two digits. */
  lemma ParseDecimal(w: string, dd: string)
    requires AllDigits(w) && w != "" && AllDigits(dd) && |dd| == 2
    ensures Money.ParseFloatCents(w + "." + dd) == Num(DigitsValue(w) * 100 + Money.FractionCents(dd))
  {
    Money.ParseUnsignedDecimal(w, dd);
    var s := w + "." + dd;
    assert s[0] == w[0] && IsDigit(s[0]) && !IsWhite(s[0]);
    assert TrimStart(s) == s;
  }

  lemma RemoveCurrencyMark(t: string)
    ensures RemoveCurrency("R$" + t) == RemoveCurrency(t)
  {
    var s := "R$" + t;
    assert s[0] == 'R' && s[1] == '$' && s[2..] == t;
  }

  lemma NoCurrencyMark(g: string, dd: string)
    requires forall i :: 0 <= i < |g| ==> g[i] == '.' || IsDigit(g[i])
    requires AllDigits(dd)
    ensures '$' !in " " + g + "," + dd
  {
    var tail := " " + g + "," + dd;
    forall i | 0 <= i < |tail| ensures tail[i] != '$' {
      if 1 <= i < 1 + |g| { assert tail[i] == g[i - 1]; }
      else if i > 1 + |g| { assert tail[i] == dd[i - 2 - |g|]; }
    }
  }

  /** Cutting a leading `R$` from a text without a dollar sign leaves the rest. */
  lemma RemoveCurrencyLeading(t: string)
    requires '$' !in t
    ensures RemoveCurrency("R$" + t) == t
  {
    RemoveCurrencyMark(t);
  }

  lemma FieldTextSplit(g: string, dd: string)
    ensures "R$ " + g + "," + dd == "R$" + (" " + g + "," + dd)
  {
  }

  /** The steps of `SubmitText` on `R$ ` + grouped digits + `,` + two digits. */
  lemma CurrencyStep(g: string, dd: string)
    requires forall i :: 0 <= i < |g| ==> g[i] == '.' || IsDigit(g[i])
    requires AllDigits(dd)
    ensures RemoveCurrency("R$ " + g + "," + dd) == " " + g + "," + dd
  {
    NoCurrencyMark(g, dd);
    RemoveCurrencyLeading(" " + g + "," + dd);
    FieldTextSplit(g, dd);
  }

  lemma WhiteStep(g: string, dd: string)
    requires forall i :: 0 <= i < |g| ==> g[i] == '.' || IsDigit(g[i])
    requires AllDigits(dd)
    ensures Select(" " + g + "," + dd, NotWhite) == g + "," + dd
  {
    var rest := g + "," + dd;
    assert " " + g + "," + dd == " " + rest;
    SelectAppend(" ", rest, NotWhite);
    assert Select(" ", NotWhite) == "";
    forall i | 0 <= i < |rest| ensures NotWhite(rest[i]) {
      if i < |g| { assert rest[i] == g[i]; }
      else if i > |g| { assert rest[i] == dd[i - |g| - 1]; }
    }
    SelectAllKept(rest, NotWhite);
  }

  /** Appending text without dots commutes with removing the dots. */
  lemma DotsRemovedAppend(g: string, w: string, t: string)
    requires Select(g, NotDot) == w
    requires forall i :: 0 <= i < |t| ==> NotDot(t[i])
    ensures Select(g + t, NotDot) == w + t
  {
    SelectAllKept(t, NotDot);
    SelectAppend(g, t, NotDot);
  }

  lemma CommaDigits(dd: string)
    requires AllDigits(dd)
    ensures forall i :: 0 <= i < |"," + dd| ==> NotDot(("," + dd)[i])
  {
    var t := "," + dd;
    forall i | 0 <= i < |t| ensures NotDot(t[i]) {
      if i > 0 { assert t[i] == dd[i - 1]; }
    }
  }

  lemma DotStep(w: string, dd: string)
    requires AllDigits(w) && AllDigits(dd)
    ensures Select(Group(w) + "," + dd, NotDot) == w + "," + dd
  {
    var g := Group(w);
    UngroupGroup(w);
    CommaDigits(dd);
    DotsRemovedAppend(g, w, "," + dd);
    assert g + "," + dd == g + ("," + dd);
    assert w + "," + dd == w + ("," + dd);
  }

  lemma CommaStep(w: string, dd: string)
    requires AllDigits(w) && AllDigits(dd)
    ensures MapChar(w + "," + dd, ',', '.') == w + "." + dd
  {
    var t := w + "," + dd;
    var m := MapChar(t, ',', '.');
    forall i | 0 <= i < |m| ensures m[i] == (w + "." + dd)[i] {
      if i < |w| { assert t[i] == w[i]; }
      else if i > |w| { assert t[i] == dd[i - |w| - 1]; }
    }
  }

  /** The field as the blur handler shows an amount: `R$ ` + grouped digits + `,` + two digits. */
  function FieldText(w: string, dd: string): string
    requires AllDigits(w)
  {
    "R$ " + Group(w) + "," + dd
  }

  /** The submit normalisation turns such a text into digits, a point and
      the two decimals. */
  lemma {:induction false} SubmitTextFormatted(w: string, dd: string)
    requires AllDigits(w) && AllDigits(dd)
    ensures SubmitText(FieldText(w, dd)) == w + "." + dd
  {
    var g := Group(w);
    var m := w + "." + dd;
    CurrencyStep(g, dd);
    WhiteStep(g, dd);
    DotStep(w, dd);
    CommaStep(w, dd);
    assert forall i :: 0 <= i < |m| ==> SubmitChar(m[i]);
    SelectAllKept(m, SubmitChar);
  }

  /** A text that normalises to digits, a point and two digits is read as that amount. */
  lemma ReadsDecimal(s: string, w: string, dd: string)
    requires AllDigits(w) && w != "" && AllDigits(dd) && |dd| == 2
    requires SubmitText(s) == w + "." + dd
    ensures PriceNum(Str(s)) == Num(DigitsValue(w) * 100 + Money.FractionCents(dd))
  {
    ParseDecimal(w, dd);
  }

  /** Submit reads back the amount the field shows, `R$ 4.450,00` style: the
      currency mark, the grouping dots and the decimal comma are undone. */
  lemma SubmitReadsDigits(w: string, dd: string)
    requires AllDigits(w) && w != "" && AllDigits(dd) && |dd| == 2
    ensures PriceNum(Str(FieldText(w, dd))) == Num(DigitsValue(w) * 100 + Money.FractionCents(dd))
  {
    SubmitTextFormatted(w, dd);
    ReadsDecimal(FieldText(w, dd), w, dd);
  }

  lemma SubmitReadsFormatted(w: string, c: nat)
    requires AllDigits(w) && w != "" && c < 100
    ensures PriceNum(Str(FieldText(w, Money.TwoDigits(c)))) == Num(DigitsValue(w) * 100 + c)
  {
    SubmitReadsDigits(w, Money.TwoDigits(c));
  }

  class Modal {
    var newItem: Draft

    /** The empty form, with category 'Pizza'. */
    constructor ()
      ensures newItem == Draft(Undefined, Str(""), Str(""), Str("Pizza"), Str(""), Str(""), Undefined)
    {
      newItem := Draft(Undefined, Str(""), Str(""), Str("Pizza"), Str(""), Str(""), Undefined);
    }

    /** `onPriceInput` with the field's text `value`. */
    method OnPriceInput(value: string)
      modifies this
      ensures newItem == old(newItem).(preco := Str(PriceInput(value)))
    {
      newItem := newItem.(preco := Str(PriceInput(value)));
    }

    /** `onSubmit`: what is emitted, if anything; the form is left as it is. */
    method OnSubmit() returns (emitted: Option<Emitted>)
      ensures emitted == Submitted(newItem)
    {
      if !Truthy(newItem.nome) || IsNullish(newItem.categoria) {
        return None;
      }
      var priceNum := PriceNum(newItem.preco);
      if priceNum.Num? && priceNum.n <= 0 {
        return None;
      }
      emitted := Some(Emitted(Or(newItem.id, Num(0)), Or(newItem.urlImage, Str("")), newItem.nome, priceNum,
        newItem.categoria, newItem.tag, newItem.descricao));
    }
  }
}
