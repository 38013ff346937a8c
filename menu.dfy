/** The customer's menu screen: the items of the selected category are shown,
    and adding an item marks it as in the cart and appends it to the simple
    cart service. Prices are in cents. */
module Menu {
  import opened Wrappers
  import opened Lists

  /** A menu item; only `inCart` is ever changed, and in place. */
  class ItemMenu {
    const id: int
    const nome: string
    const descricao: string
    const preco: int
    const categoria: string
    const img: Option<string>
    var inCart: bool

    constructor (id: int, nome: string, descricao: string, preco: int, categoria: string, img: Option<string>)
      ensures this.id == id && this.nome == nome && this.descricao == descricao
      ensures this.preco == preco && this.categoria == categoria && this.img == img && !inCart
    {
      this.id := id;
      this.nome := nome;
      this.descricao := descricao;
      this.preco := preco;
      this.categoria := categoria;
      this.img := img;
      inCart := false;
    }
  }

  /** The cart service of the customer screens: it only appends and lists. */
  class SimpleCart {
    var items: seq<ItemMenu>

    constructor ()
      ensures items == []
    {
      items := [];
    }

    /** `adicionar` */
    method Adicionar(item: ItemMenu)
      modifies this
      ensures items == old(items) + [item]
    {
      items := items + [item];
    }

    /** `listar` */
    method Listar() returns (r: seq<ItemMenu>)
      ensures r == items
    {
      r := items;
    }
  }

  /** The menu items of the category `categoria`, in order. */
  function ByCategory(items: seq<ItemMenu>, categoria: string): (r: seq<ItemMenu>)
    ensures forall i :: 0 <= i < |r| ==> r[i] in items && r[i].categoria == categoria
    ensures forall i :: 0 <= i < |items| && items[i].categoria == categoria ==> items[i] in r
  {
    Filter(items, (x: ItemMenu) => x.categoria == categoria)
  }

  /** An item of the category is shown as many times as it is listed, and
      nothing is shown more often than it is listed. */
  lemma ByCategoryCount(items: seq<ItemMenu>, categoria: string)
    ensures multiset(ByCategory(items, categoria)) <= multiset(items)
    ensures forall i :: 0 <= i < |items| && items[i].categoria == categoria ==>
      multiset(ByCategory(items, categoria))[items[i]] == multiset(items)[items[i]]
  {
    FilterCount(items, (x: ItemMenu) => x.categoria == categoria);
  }

  /** The items shown keep the order of the full list. */
  lemma ByCategoryKeepsOrder(items: seq<ItemMenu>, categoria: string)
    ensures SubseqOf(ByCategory(items, categoria), items)
  {
    FilterIsSubseq(items, (x: ItemMenu) => x.categoria == categoria);
  }

  /** When every item is of the category, all of them are shown. */
  lemma ByCategoryAll(items: seq<ItemMenu>, categoria: string)
    requires forall i :: 0 <= i < |items| ==> items[i].categoria == categoria
    ensures ByCategory(items, categoria) == items
  {
    FilterAllPass(items, (x: ItemMenu) => x.categoria == categoria);
  }

  /** Selecting the same category twice shows the same items. */
  lemma ByCategoryIdempotent(items: seq<ItemMenu>, categoria: string)
    ensures ByCategory(ByCategory(items, categoria), categoria) == ByCategory(items, categoria)
  {
    FilterIdempotent(items, (x: ItemMenu) => x.categoria == categoria);
  }

  const Categorias: seq<string> := ["Pizzas", "Doces", "Bebidas"]

  class MenuScreen {
    var categoriaSelecionada: string
    var allItems: seq<ItemMenu>
    var itensMenu: seq<ItemMenu>
    const cart: SimpleCart

    constructor (cart: SimpleCart)
      ensures this.cart == cart && categoriaSelecionada == "Pizzas"
      ensures allItems == [] && itensMenu == []
    {
      this.cart := cart;
      categoriaSelecionada := "Pizzas";
      allItems := [];
      itensMenu := [];
    }

    /** `ngOnInit`: three sample pizzas, then the selected category. */
    method NgOnInit()
      modifies this
      ensures |allItems| == 3 && categoriaSelecionada == old(categoriaSelecionada)
      ensures allItems[0].id == 1 && allItems[1].id == 2 && allItems[2].id == 3
      ensures forall i :: 0 <= i < |allItems| ==> fresh(allItems[i]) && allItems[i].categoria == "Pizzas" && !allItems[i].inCart
      ensures itensMenu == ByCategory(allItems, categoriaSelecionada)
      ensures categoriaSelecionada == "Pizzas" ==> itensMenu == allItems
    {
      var a := new ItemMenu(1, "Mussarela", "Queijo, molho especial", 4990, "Pizzas",
        Some("https://placehold.co/240x180/fecaca/9f1239?text=Mussarela"));
      var b := new ItemMenu(2, "Pepperoni", "Pepperoni crocante", 5490, "Pizzas",
        Some("https://placehold.co/240x180/fecaca/9f1239?text=Pepperoni"));
      var c := new ItemMenu(3, "Portuguesa", "Ovo, presunto e cebola", 5990, "Pizzas",
        Some("https://placehold.co/240x180/fecaca/9f1239?text=Portuguesa"));
      allItems := [a, b, c];
      FiltrarPorCategoria(categoriaSelecionada);
      if categoriaSelecionada == "Pizzas" {
        ByCategoryAll(allItems, "Pizzas");
      }
    }

    /** `filtrarPorCategoria` */
    method FiltrarPorCategoria(categoria: string)
      modifies this
      ensures categoriaSelecionada == categoria && allItems == old(allItems)
      ensures itensMenu == ByCategory(allItems, categoria)
    {
      categoriaSelecionada := categoria;
      itensMenu := ByCategory(allItems, categoria);
    }

    /** `adicionarAoCarrinho`: the item itself is marked, so the mark shows
        wherever the item is listed. */
    method AdicionarAoCarrinho(item: ItemMenu)
      modifies item, cart
      ensures item.inCart
      ensures cart.items == old(cart.items) + [item]
      ensures |cart.items| == |old(cart.items)| + 1
    {
      item.inCart := true;
      cart.Adicionar(item);
    }

    /** `contadorCarrinho` */
    method ContadorCarrinho() returns (n: nat)
      ensures n == |cart.items|
    {
      var items := cart.Listar();
      n := |items|;
    }
  }
}
