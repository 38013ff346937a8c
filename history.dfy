/** The customer's favourites and history screen: the price label of a
    listed item, the cart count, and ordering an item again. */
module History {
  import opened Text
  import opened JsValue
  import Money
  import DishService
  import CartService

  const PriceKeys: seq<string> := ["preco", "price", "precoStr"]

  /** `displayPrice(item)` */
  function DisplayPrice(item: Value): string {
    if !Truthy(item) then "" else LabelOf(FirstField(item, PriceKeys, Null))
  }

  /** The label `displayPrice` makes of the price field it found. */
  function LabelOf(p: Value): string {
    if IsNullish(p) then ""
    else if p.Num? || p.NaN? then DishService.PriceLabel(p)
    else TextLabel(ToText(p))
  }

  /** The label of a text price: trimmed, and prefixed with `R$ ` unless it
      already starts with `R$`. */
  function TextLabel(t: string): string {
    var s := Trim(t);
    if StartsWith(s, "R$") then s else "R$ " + s
  }

  /** No item or no price shows nothing; a number shows `R$ ` and its cents
      with a decimal comma. */
  lemma DisplayPriceCases(item: Value)
    ensures !Truthy(item) || IsNullish(FirstField(item, PriceKeys, Null)) ==> DisplayPrice(item) == ""
    ensures Truthy(item) && FirstField(item, PriceKeys, Null).Num? ==>
      DisplayPrice(item) == "R$ " + Money.CentsText(FirstField(item, PriceKeys, Null).n, ',')
  {
  }

  /** A text price is trimmed, and prefixed with `R$ ` unless it already starts with `R$`. */
  lemma DisplayTextPrice(item: Value)
    requires Truthy(item) && FirstField(item, PriceKeys, Null).Str?
    ensures var s := Trim(FirstField(item, PriceKeys, Null).s);
      DisplayPrice(item) == if StartsWith(s, "R$") then s else "R$ " + s
  {
    var p := FirstField(item, PriceKeys, Null);
    assert LabelOf(p) == TextLabel(p.s);
  }

  /** The item whose price is the text `s`. */
  function PricedAs(s: string): Value { Obj(map["preco" := Str(s)]) }

  lemma PricedAsPrice(s: string)
    ensures FirstField(PricedAs(s), PriceKeys, Null) == Str(s)
  {
    FirstFieldIsFirstSet(PricedAs(s), PriceKeys, Null, 0);
  }

  /** The label of an item priced with the text `s`. */
  lemma DisplayOfText(s: string)
    ensures var t := Trim(s);
      DisplayPrice(PricedAs(s)) == if StartsWith(t, "R$") then t else "R$ " + t
  {
    var item := PricedAs(s);
    PricedAsPrice(s);
    assert Truthy(item);
    DisplayTextPrice(item);
  }

  /** The label of a number starts with `R$` and ends with a digit. */
  lemma NumberLabelShape(c: int)
    ensures var out := "R$ " + Money.CentsText(c, ',');
      StartsWith(out, "R$") && IsDigit(out[|out| - 1])
  {
    var a, d := DishService.WholePart(c);
    var out := "R$ " + Money.CentsText(c, ',');
    assert out == "R$ " + a + [','] + d;
    assert out[|out| - 1] == d[1];
    assert out[..2] == "R$";
  }

  /** Prefixing a trimmed, non-blank text gives a label shown as it is. */
  lemma PrefixedShape(s: string)
    requires s != [] && !IsWhite(s[|s| - 1])
    ensures StartsWith("R$ " + s, "R$") && !IsWhite(("R$ " + s)[|"R$ " + s| - 1])
  {
    assert ("R$ " + s)[..2] == "R$";
    assert ("R$ " + s)[|"R$ " + s| - 1] == s[|s| - 1];
  }

  /** Showing a shown label again leaves it as it is, except for the two
      labels of a missing or blank price. */
  lemma DisplayPriceIdempotent(item: Value)
    requires DisplayPrice(item) != "" && DisplayPrice(item) != "R$ "
    ensures DisplayPrice(PricedAs(DisplayPrice(item))) == DisplayPrice(item)
  {
    assert Truthy(item);
    LabelIdempotent(FirstField(item, PriceKeys, Null));
    DisplayOfPriced(DisplayPrice(item));
  }

  /** The item priced with the text `s` is labelled as the price `s` is. */
  lemma DisplayOfPriced(s: string)
    ensures DisplayPrice(PricedAs(s)) == LabelOf(Str(s))
  {
    PricedAsPrice(s);
    assert Truthy(PricedAs(s));
  }

  /** A label other than the two of a missing or blank price, read back as
      a text price, gives itself. */
  lemma LabelIdempotent(p: Value)
    requires LabelOf(p) != "" && LabelOf(p) != "R$ "
    ensures LabelOf(Str(LabelOf(p))) == LabelOf(p)
  {
    LabelShape(p);
    TextShownAsIs(LabelOf(p));
  }

  /** A text price that starts with `R$` and has no white space at either
      end is shown as it is. */
  lemma TextShownAsIs(out: string)
    requires StartsWith(out, "R$") && !IsWhite(out[|out| - 1])
    ensures LabelOf(Str(out)) == out
  {
    assert out[0] == out[..2][0] == 'R';
    TrimNoWhiteEnds(out);
    assert ToText(Str(out)) == out;
  }

  lemma LabelShape(p: Value)
    requires LabelOf(p) != "" && LabelOf(p) != "R$ "
    ensures StartsWith(LabelOf(p), "R$")
    ensures var out := LabelOf(p); !IsWhite(out[|out| - 1])
  {
    if p.Num? {
      NumLabelShape(p);
    } else if p.NaN? {
      NaNLabelShape(p);
    } else {
      TextValueLabelShape(p);
    }
  }

  lemma NumLabelShape(p: Value)
    requires p.Num?
    ensures StartsWith(LabelOf(p), "R$")
    ensures var out := LabelOf(p); !IsWhite(out[|out| - 1])
  {
    assert LabelOf(p) == "R$ " + Money.CentsText(p.n, ',');
    NumberLabelShape(p.n);
  }

  lemma NaNLabelShape(p: Value)
    requires p.NaN?
    ensures StartsWith(LabelOf(p), "R$")
    ensures var out := LabelOf(p); !IsWhite(out[|out| - 1])
  {
    var out := LabelOf(p);
    assert out == "R$ NaN";
    assert out[..2] == "R$" && out[|out| - 1] == 'N';
  }

  lemma TextValueLabelShape(p: Value)
    requires !IsNullish(p) && !p.Num? && !p.NaN? && LabelOf(p) != "R$ "
    ensures StartsWith(LabelOf(p), "R$")
    ensures var out := LabelOf(p); !IsWhite(out[|out| - 1])
  {
    assert LabelOf(p) == TextLabel(ToText(p));
    TextLabelShape(ToText(p));
  }

  lemma TextLabelShape(t: string)
    requires TextLabel(t) != "R$ "
    ensures StartsWith(TextLabel(t), "R$")
    ensures var out := TextLabel(t); !IsWhite(out[|out| - 1])
  {
    var s := Trim(t);
    if !StartsWith(s, "R$") {
      PrefixedShape(s);
    }
  }

  lemma TrimBlank()
    ensures Trim("   ") == ""
  {
    assert "   "[1..] == "  " && "  "[1..] == " " && " "[1..] == "";
  }

  lemma TrimPrefixOnly()
    ensures Trim("R$ ") == "R$"
  {
    var t := "R$ ";
    assert !IsWhite(t[0]) && IsWhite(t[2]) && !IsWhite(t[1]);
    assert TrimStart(t) == t;
    assert t[..2] == "R$";
    assert TrimEnd(t) == TrimEnd(t[..2]);
  }

  /** A blank price shows `R$ `, which shows again as `R$`. */
  lemma BlankPriceNotIdempotent()
    ensures DisplayPrice(PricedAs("   ")) == "R$ "
    ensures DisplayPrice(PricedAs("R$ ")) == "R$"
  {
    DisplayOfText("   ");
    TrimBlank();
    assert !StartsWith("", "R$");
    DisplayOfText("R$ ");
    TrimPrefixOnly();
    assert StartsWith("R$", "R$");
  }

  /** The item with its quantity set to 1; only the fields of an object are
      copied. */
  function WithQuantityOne(item: Value): (r: Value)
    ensures Get(r, "quantidade") == Num(1)
    ensures item.Obj? ==> forall k :: k in item.fields && k != "quantidade" ==> Get(r, k) == item.fields[k]
    ensures r.Obj? && r.fields.Keys == (if item.Obj? then item.fields.Keys else {}) + {"quantidade"}
  {
    Obj((if item.Obj? then item.fields else map[])["quantidade" := Num(1)])
  }

  /** Ordering again adds one to the cart when the item carries no
      `quantity` field of its own, which the cart reads before `quantidade`. */
  lemma ReorderAddsOne(item: Value)
    requires IsNullish(Get(item, "quantity"))
    ensures CartService.Normalize(WithQuantityOne(item)).quantity == 1
  {
    var r := WithQuantityOne(item);
    assert Get(r, "quantity") == Get(item, "quantity");
    FirstFieldIsFirstSet(r, ["quantity", "quantidade"], Num(1), 1);
  }

  class Historico {
    const carrinho: CartService.CarrinhoService

    constructor (carrinho: CartService.CarrinhoService)
      ensures this.carrinho == carrinho
    {
      this.carrinho := carrinho;
    }

    /** `cartCount` */
    method CartCount() returns (n: nat)
      ensures n == |carrinho.items|
    {
      var lines := carrinho.Listar();
      n := |lines|;
    }

    /** `reorderToCart` */
    method ReorderToCart(item: Value)
      requires carrinho.Valid()
      modifies carrinho
      ensures carrinho.Valid()
      ensures carrinho.items == CartService.Added(old(carrinho.items), WithQuantityOne(item))
    {
      carrinho.Adicionar(WithQuantityOne(item));
    }
  }
}
