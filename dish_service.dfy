/** The conversions between the back end's dish record and the menu item the
    manager screens edit: the price travels as a number of cents one way and
    as the text `R$ 49,90` the other. */
module DishService {
  import opened Text
  import opened JsValue
  import opened Wrappers
  import Money

  /** A JavaScript number: a number of cents, or NaN. */
  type NumberValue = v: Value | v.Num? || v.NaN? witness NaN

  /** The back end's record; `price` is declared a number. */
  datatype Dish = Dish(
    id: Value, urlImage: Option<string>, name: string, price: NumberValue,
    category: string, tag: Option<string>, description: Option<string>)

  /** The front end's record, with the price as text. */
  datatype MenuItem = MenuItem(
    id: Value, urlImage: Option<string>, nome: string, preco: string,
    categoria: string, tag: Option<string>, descricao: Option<string>)

  /** A price in cents written with two decimals and a point; NaN is written
      "NaN". */
  function Fixed2(price: NumberValue): string {
    if price.Num? then Money.CentsText(price.n, '.') else "NaN"
  }

  /** The menu's price label: "R$ " and the price with two decimals and a
      decimal comma. */
  function PriceLabel(price: NumberValue): (r: string)
    ensures price.Num? ==> r == "R$ " + Money.CentsText(price.n, ',')
    ensures price.NaN? ==> r == "R$ NaN"
  {
    var fixed := Fixed2(price);
    if price.Num? then PointToComma(price.n); "R$ " + ReplaceFirst(fixed, ".", ",")
    else ReplaceFirstAbsent(fixed, '.', ","); "R$ " + ReplaceFirst(fixed, ".", ",")
  }

  /** `mapDishToMenuItem` */
  function ToMenuItem(dish: Dish): (r: MenuItem)
    ensures r.id == (if Truthy(dish.id) then dish.id else Num(0))
    ensures r.nome == dish.name && r.categoria == dish.category && r.descricao == dish.description
    ensures r.tag == dish.tag && r.urlImage == dish.urlImage
    ensures dish.price.Num? ==> r.preco == "R$ " + Money.CentsText(dish.price.n, ',')
  {
    MenuItem(Or(dish.id, Num(0)), dish.urlImage, dish.name, PriceLabel(dish.price),
      dish.category, dish.tag, dish.description)
  }

  /** The price a label reads as, in cents: the first "R$" is dropped, the
      first comma becomes a point, and the trimmed text is read as a decimal
      prefix. */
  function ParsePrice(preco: string): (r: NumberValue)
  {
    Money.ParseFloatCents(Trim(ReplaceFirst(ReplaceFirst(preco, "R$", ""), ",", ".")))
  }

  /** `mapMenuItemToDish` */
  function ToDish(item: MenuItem): (r: Dish)
    ensures r.id == item.id && r.name == item.nome && r.category == item.categoria
    ensures r.description == item.descricao && r.tag == item.tag && r.urlImage == item.urlImage
    ensures r.price == ParsePrice(item.preco)
  {
    Dish(item.id, item.urlImage, item.nome, ParsePrice(item.preco), item.categoria, item.tag, item.descricao)
  }

  /** The first '.' of `toFixed(2)` is the decimal point. */
  lemma PointToComma(c: int)
    ensures ReplaceFirst(Money.CentsText(c, '.'), ".", ",") == Money.CentsText(c, ',')
  {
    var a, d := WholePart(c);
    ReplaceFirstCharAfter(a, '.', d, ",");
    assert Money.CentsText(c, ',') == a + "," + d;
  }

  /** The sign and whole part of `toFixed(2)`, which hold no separator. */
  lemma WholePart(c: int) returns (a: string, d: string)
    ensures forall sep: char :: Money.CentsText(c, sep) == a + [sep] + d
    ensures '.' !in a && ',' !in a && ' ' !in a && |d| == 2 && AllDigits(d)
    ensures a != [] && (a[0] == '-' || IsDigit(a[0]))
  {
    var m: nat := if c < 0 then -c else c;
    var w := NatToString(m / 100);
    a := (if c < 0 then "-" else "") + w;
    d := Money.TwoDigits(m % 100);
    assert forall i :: 0 <= i < |w| ==> IsDigit(w[i]);
    if c < 0 { assert a == "-" + w; } else { assert a == w; }
  }

  lemma CommaToPoint(c: int)
    ensures ReplaceFirst(" " + Money.CentsText(c, ','), ",", ".") == " " + Money.CentsText(c, '.')
  {
    var a, d := WholePart(c);
    assert ',' !in " " + a;
    ReplaceFirstCharAfter(" " + a, ',', d, ".");
    assert " " + Money.CentsText(c, ',') == " " + a + [','] + d;
    assert " " + Money.CentsText(c, '.') == " " + a + "." + d;
  }

  lemma TrimAfterSpace(x: string)
    requires x != [] && !IsWhite(x[0]) && !IsWhite(x[|x| - 1])
    ensures Trim(" " + x) == x
  {
    assert (" " + x)[1..] == x;
    assert TrimStart(" " + x) == x;
  }

  lemma TrimFixed(c: int)
    ensures Trim(" " + Money.CentsText(c, '.')) == Money.CentsText(c, '.')
  {
    var a, d := WholePart(c);
    var fixed := Money.CentsText(c, '.');
    assert fixed == a + ['.'] + d;
    assert fixed[0] == a[0] && fixed[|fixed| - 1] == d[1];
    TrimAfterSpace(fixed);
  }

  /** The price text is read back as the amount it was written from. */
  lemma ParsePriceLabel(c: int)
    ensures ParsePrice("R$ " + Money.CentsText(c, ',')) == Num(c)
  {
    var text := "R$ " + Money.CentsText(c, ',');
    assert text[..2] == "R$" && text[2..] == " " + Money.CentsText(c, ',');
    assert ReplaceFirst(text, "R$", "") == " " + Money.CentsText(c, ',');
    CommaToPoint(c);
    TrimFixed(c);
    Money.ParseCentsText(c);
  }

  /** A price text that starts with `R$` is read from what follows. */
  lemma ParsePriceAfterSign(x: string)
    ensures ParsePrice("R$" + x) == Money.ParseFloatCents(Trim(ReplaceFirst(x, ",", ".")))
  {
    var text := "R$" + x;
    assert text[..2] == "R$" && text[2..] == x;
    assert ReplaceFirst(text, "R$", "") == "" + x == x;
  }

  /** A label whose text is one word that is no number reads as NaN. The word
      "Infinity", which names a number, is excluded. */
  lemma ParseWordLabel(w: string)
    requires w != [] && !IsWhite(w[0]) && !IsWhite(w[|w| - 1]) && ',' !in w
    requires !IsDigit(w[0]) && w[0] != '-' && w[0] != '+' && w[0] != '.'
    requires !StartsWith(w, "Infinity")
    ensures ParsePrice("R$ " + w) == NaN
  {
    var rest := " " + w;
    assert "R$ " + w == "R$" + rest;
    ParsePriceAfterSign(rest);
    assert ',' !in rest;
    ReplaceFirstAbsent(rest, ',', ".");
    TrimAfterSpace(w);
    Money.NoNumberPrefix(w);
  }

  /** A label in exponent form, "R$ 1e3" say, reads as the digits times that
      power of ten in reais: 1000 reais, 100000 cents. */
  lemma ParseExponentLabel(w: string, k: nat)
    requires w != [] && AllDigits(w)
    ensures ParsePrice("R$ " + w + "e" + NatToString(k)) == Num(DigitsValue(w) * Pow10(k + 2))
  {
    var t := w + "e" + NatToString(k);
    var rest := " " + t;
    assert "R$ " + w + "e" + NatToString(k) == "R$" + rest;
    ParsePriceAfterSign(rest);
    ExponentTextPlain(w, k);
    assert ',' !in rest;
    ReplaceFirstAbsent(rest, ',', ".");
    TrimAfterSpace(t);
    Money.ParseExponentText(w, k);
  }

  /** An exponent text has no comma and starts and ends with a digit. */
  lemma ExponentTextPlain(w: string, k: nat)
    requires w != [] && AllDigits(w)
    ensures var t := w + "e" + NatToString(k);
      ',' !in t && IsDigit(t[0]) && IsDigit(t[|t| - 1]) && !IsWhite(t[0]) && !IsWhite(t[|t| - 1])
  {
    var ks := NatToString(k);
    var t := w + "e" + ks;
    forall i | 0 <= i < |t| ensures t[i] != ',' {
      if i < |w| { assert t[i] == w[i]; }
      else if i > |w| { assert t[i] == ks[i - |w| - 1]; }
    }
    assert t[0] == w[0] && t[|t| - 1] == ks[|ks| - 1];
  }

  /** `NaN` survives the trip as `NaN`. */
  lemma ParseNaNLabel()
    ensures ParsePrice("R$ NaN") == NaN
  {
    assert "R$ NaN" == "R$ " + "NaN";
    ParseWordLabel("NaN");
  }

  /** Round trip from the back end: a dish with an id survives the trip to a
      menu item and back unchanged. */
  lemma DishRoundTrip(dish: Dish)
    requires Truthy(dish.id)
    ensures ToDish(ToMenuItem(dish)) == dish
  {
    if dish.price.Num? {
      ParsePriceLabel(dish.price.n);
    } else {
      ParseNaNLabel();
    }
  }

  /** Round trip from the front end: an item whose price text is in the
      `R$ 49,90` form and that has an id survives the trip to a dish and back. */
  lemma MenuItemRoundTrip(item: MenuItem, c: int)
    requires Truthy(item.id) && item.preco == "R$ " + Money.CentsText(c, ',')
    ensures ToMenuItem(ToDish(item)) == item
  {
    ParsePriceLabel(c);
  }

  /** A dish without an id becomes item 0. */
  lemma MissingIdIsZero(dish: Dish)
    requires dish.id.Undefined? || dish.id == Num(0)
    ensures ToMenuItem(dish).id == Num(0)
  {
  }
}
