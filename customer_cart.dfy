/** The customer's cart screen: each line's subtotal is its price times its
    quantity and the total is the sum of the subtotals; changing a quantity
    to zero or less removes every line with that name. Prices are in cents. */
module CustomerCart {
  import opened Wrappers
  import opened Lists

  datatype CartItem = CartItem(
    nome: string, descricao: string, preco: int, urlImagem: Option<string>,
    quantidade: int, subtotal: int)

  /** What a line costs: `preco * quantidade`. */
  function Amount(it: CartItem): int { it.preco * it.quantidade }

  /** The sum of the amounts of all lines. */
  function Total(items: seq<CartItem>): int {
    if items == [] then 0 else Total(items[..|items| - 1]) + Amount(items[|items| - 1])
  }

  /** The sum of the stored subtotals, which is what `valorTotal` adds up. */
  function SubtotalSum(items: seq<CartItem>): int {
    if items == [] then 0 else SubtotalSum(items[..|items| - 1]) + items[|items| - 1].subtotal
  }

  /** Every stored subtotal is up to date. */
  predicate Settled(items: seq<CartItem>) {
    forall i :: 0 <= i < |items| ==> items[i].subtotal == Amount(items[i])
  }

  /** The lines with each subtotal set to the line's price times its quantity. */
  function WithSubtotals(items: seq<CartItem>): (r: seq<CartItem>)
    ensures |r| == |items| && Settled(r)
    ensures forall i :: 0 <= i < |r| ==> r[i] == items[i].(subtotal := Amount(items[i]))
  {
    seq(|items|, i requires 0 <= i < |items| => items[i].(subtotal := Amount(items[i])))
  }

  /** Once the subtotals are up to date their sum is the total of the amounts. */
  lemma {:induction false} SettledSum(items: seq<CartItem>)
    requires Settled(items)
    ensures SubtotalSum(items) == Total(items)
  {
    if items != [] {
      SettledSum(items[..|items| - 1]);
    }
  }

  /** Recomputing the subtotals of settled lines changes nothing. */
  lemma WithSubtotalsSettled(items: seq<CartItem>)
    requires Settled(items)
    ensures WithSubtotals(items) == items
  {
  }

  /** The lines whose name is not `nome`. */
  function WithoutName(items: seq<CartItem>, nome: string): (r: seq<CartItem>)
    ensures forall i :: 0 <= i < |r| ==> r[i].nome != nome && r[i] in items
    ensures forall i :: 0 <= i < |items| && items[i].nome != nome ==> items[i] in r
  {
    Filter(items, (x: CartItem) => x.nome != nome)
  }

  /** Each line with another name is kept as often as it occurs. */
  lemma WithoutNameCount(items: seq<CartItem>, nome: string)
    ensures forall x :: multiset(WithoutName(items, nome))[x] == if x.nome != nome then multiset(items)[x] else 0
  {
    FilterCount(items, (x: CartItem) => x.nome != nome);
  }

  /** Dropping the lines named `nome` keeps the other lines in their order. */
  lemma WithoutNameKeepsOrder(items: seq<CartItem>, nome: string)
    ensures SubseqOf(WithoutName(items, nome), items)
  {
    FilterIsSubseq(items, (x: CartItem) => x.nome != nome);
  }

  /** A line that the filter drops may be changed first without effect. */
  lemma {:induction false} WithoutNameUpdate(items: seq<CartItem>, i: nat, y: CartItem)
    requires i < |items| && items[i].nome == y.nome
    ensures WithoutName(items[i := y], y.nome) == WithoutName(items, y.nome)
  {
    if i > 0 {
      assert items[i := y][1..] == items[1..][i - 1 := y];
      WithoutNameUpdate(items[1..], i - 1, y);
    } else {
      assert items[i := y][1..] == items[1..];
    }
  }

  /** The lines after line `i`'s quantity changes by `delta`, with line `i`
      and every other line of that name removed when the quantity falls to 0
      or below; the subtotals are not yet recomputed. */
  function AfterDelta(items: seq<CartItem>, i: nat, delta: int): seq<CartItem>
    requires i < |items|
  {
    var q := items[i].quantidade + delta;
    var bumped := items[i := items[i].(quantidade := q)];
    if q <= 0 then WithoutName(bumped, items[i].nome) else bumped
  }

  /** A quantity still above 0 is set on that line only. */
  lemma AfterDeltaPositive(items: seq<CartItem>, i: nat, delta: int)
    requires i < |items| && items[i].quantidade + delta > 0
    ensures |AfterDelta(items, i, delta)| == |items|
    ensures AfterDelta(items, i, delta)[i] == items[i].(quantidade := items[i].quantidade + delta)
    ensures forall k :: 0 <= k < |items| && k != i ==> AfterDelta(items, i, delta)[k] == items[k]
  {
  }

  /** A quantity of 0 or less removes every line with that name and keeps
      all the others. */
  lemma AfterDeltaRemoves(items: seq<CartItem>, i: nat, delta: int)
    requires i < |items| && items[i].quantidade + delta <= 0
    ensures AfterDelta(items, i, delta) == WithoutName(items, items[i].nome)
    ensures forall k :: 0 <= k < |AfterDelta(items, i, delta)| ==> AfterDelta(items, i, delta)[k].nome != items[i].nome
  {
    WithoutNameUpdate(items, i, items[i].(quantidade := items[i].quantidade + delta));
  }

  /** The sample lines the screen starts with. */
  function SampleCart(): seq<CartItem> {
    [ CartItem("Pizza Mussarela", "Queijo, molho especial", 4990, Some("https://placehold.co/200x200/fecaca/9f1239?text=Mussarela"), 1, 4990),
      CartItem("Pizza Pepperoni", "Pepperoni crocante", 4990, Some("https://placehold.co/200x200/fecaca/9f1239?text=Pepperoni"), 2, 9980),
      CartItem("Bebida Refri", "Lata 350ml", 600, None, 4, 2400) ]
  }

  /** The sample cart totals R$ 173,70. */
  lemma SampleCartTotal()
    ensures Total(SampleCart()) == 17370
  {
    var s := SampleCart();
    assert Total(s[..1]) == 4990 by { assert s[..1][..0] == []; }
    assert Total(s[..2]) == 4990 + 9980 by { assert s[..2][..1] == s[..1]; }
    assert s[..|s| - 1] == s[..2];
  }

  class Carrinho {
    var itensCarrinho: seq<CartItem>
    var valorTotal: int

    /** The total shown is the sum of the up-to-date subtotals. */
    predicate Valid()
      reads this
    {
      Settled(itensCarrinho) && valorTotal == SubtotalSum(itensCarrinho)
    }

    /** `ngOnInit`: the sample lines, then `calcularTotais`. */
    constructor ()
      ensures Valid() && itensCarrinho == SampleCart() && valorTotal == 17370
    {
      itensCarrinho := SampleCart();
      valorTotal := 0;
      new;
      CalcularTotais();
      WithSubtotalsSettled(SampleCart());
      SettledSum(itensCarrinho);
      SampleCartTotal();
    }

    /** `calcularTotais`: refreshes every subtotal and sums them. */
    method CalcularTotais()
      modifies this
      ensures itensCarrinho == WithSubtotals(old(itensCarrinho))
      ensures valorTotal == SubtotalSum(itensCarrinho) && Valid()
    {
      var items := itensCarrinho;
      var done: seq<CartItem> := [];
      var acc := 0;
      var k := 0;
      while k < |items|
        invariant 0 <= k <= |items| && |done| == k
        invariant forall j :: 0 <= j < k ==> done[j] == items[j].(subtotal := Amount(items[j]))
        invariant acc == SubtotalSum(done)
      {
        var item := items[k].(subtotal := items[k].preco * items[k].quantidade);
        assert (done + [item])[..|done + [item]| - 1] == done;
        acc := acc + item.subtotal;
        done := done + [item];
        k := k + 1;
      }
      itensCarrinho := done;
      valorTotal := acc;
    }

    /** `atualizarQuantidade` on line `i`. */
    method AtualizarQuantidade(i: nat, delta: int)
      requires i < |itensCarrinho|
      modifies this
      ensures itensCarrinho == WithSubtotals(AfterDelta(old(itensCarrinho), i, delta))
      ensures Valid() && valorTotal == Total(itensCarrinho)
    {
      ghost var before := itensCarrinho;
      var item := itensCarrinho[i];
      var q := item.quantidade + delta;
      itensCarrinho := itensCarrinho[i := item.(quantidade := q)];
      if q <= 0 {
        itensCarrinho := WithoutName(itensCarrinho, item.nome);
      }
      assert itensCarrinho == AfterDelta(before, i, delta);
      CalcularTotais();
      SettledSum(itensCarrinho);
    }
  }
}
