/** The manager's menu overview: the list of menu items, a text and category
    filter over it, and the add, edit and remove modals. */
module MenuOverview {
  import opened Text
  import opened Lists
  import opened Wrappers

  /** A menu item; an absent optional field is `None`. */
  datatype MenuItem = MenuItem(
    id: int,
    foto: Option<string>,
    nome: string,
    preco: string,
    categoria: string,
    tag: Option<string>,
    descricao: Option<string>)

  const AllCategory: string := "Todas"

  /** The filter buttons. */
  const AllCategories: seq<string> := ["Todas", "Pizza", "Doce", "Bebida"]

  /** The search term as the filter uses it: trimmed, then lowercased. */
  function NormalTerm(searchTerm: string): string { Lower(Trim(searchTerm)) }

  /** The text test: a blank term passes everything, else the lowercased name
      or category must contain the term. */
  predicate TextOk(item: MenuItem, term: string) {
    term == "" || Contains(Lower(item.nome), term) || Contains(Lower(item.categoria), term)
  }

  /** The category test: `Todas` passes everything. */
  predicate CategoryOk(item: MenuItem, category: string) {
    category == AllCategory || item.categoria == category
  }

  /** Whether an item passes both tests, for a term already trimmed and lowercased. */
  predicate Shown(item: MenuItem, term: string, category: string) {
    TextOk(item, term) && CategoryOk(item, category)
  }

  /** The items the overview shows for a normalised term and a category, in order. */
  function Shows(items: seq<MenuItem>, term: string, category: string): seq<MenuItem> {
    if items == [] then []
    else
      var rest := Shows(items[1..], term, category);
      if Shown(items[0], term, category) then [items[0]] + rest else rest
  }

  /** The shown items keep their order, all pass both tests, and every item
      that passes both tests is shown. */
  lemma {:induction false} ShowsSpec(items: seq<MenuItem>, term: string, category: string)
    ensures var r := Shows(items, term, category);
      && SubseqOf(r, items)
      && (forall i :: 0 <= i < |r| ==> Shown(r[i], term, category))
      && (forall i :: 0 <= i < |items| && Shown(items[i], term, category) ==> items[i] in r)
  {
    if items != [] {
      ShowsSpec(items[1..], term, category);
      assert forall i :: 1 <= i < |items| ==> items[i] == items[1..][i - 1];
    }
  }

  lemma {:induction false} FilterIsShows(items: seq<MenuItem>, p: MenuItem -> bool, term: string, category: string)
    requires forall x :: p(x) == Shown(x, term, category)
    ensures Filter(items, p) == Shows(items, term, category)
  {
    if items != [] { FilterIsShows(items[1..], p, term, category); }
  }

  /** Lowercasing covers accented capitals: searching "água" finds an item
      whose name starts with "Água". */
  lemma AccentedTermFinds(item: MenuItem)
    requires StartsWith(item.nome, "\U{00C1}gua")
    ensures Shown(item, NormalTerm("\U{00E1}gua"), AllCategory)
  {
    var term := "\U{00E1}gua";
    TrimNoWhiteEnds(term);
    var low := Lower(term);
    assert low[0] == term[0] && low[1] == term[1] && low[2] == term[2] && low[3] == term[3];
    assert low == term;
    var name := Lower(item.nome);
    assert item.nome[0] == '\U{00C1}' && item.nome[1] == 'g' && item.nome[2] == 'u' && item.nome[3] == 'a';
    assert name[0] == term[0] && name[1] == term[1] && name[2] == term[2] && name[3] == term[3];
    assert name[..4] == term;
    assert Contains(name, term);
  }

  /** With a blank term and `Todas`, everything is shown. */
  lemma {:induction false} ShowsAll(items: seq<MenuItem>)
    ensures Shows(items, "", AllCategory) == items
  {
    if items != [] { ShowsAll(items[1..]); }
  }

  /** The text test the filter applies for a non-blank term. */
  function TextTest(term: string): MenuItem -> bool {
    (item: MenuItem) => Contains(Lower(item.nome), term) || Contains(Lower(item.categoria), term)
  }

  /** The category test the filter applies for a category other than `Todas`. */
  function CategoryTest(category: string): MenuItem -> bool {
    (item: MenuItem) => item.categoria == category
  }

  /** Filtering by the text test when the term is not blank, then by the
      category test when the category is not `Todas`, shows `Shows`. */
  lemma CombinedFilter(items: seq<MenuItem>, term: string, category: string)
    ensures var afterText := if term != "" then Filter(items, TextTest(term)) else items;
      (if category != AllCategory then Filter(afterText, CategoryTest(category)) else afterText)
        == Shows(items, term, category)
  {
    var textTest := TextTest(term);
    var categoryTest := CategoryTest(category);
    if term != "" && category != AllCategory {
      var both := (item: MenuItem) => textTest(item) && categoryTest(item);
      FilterThenFilter(items, textTest, categoryTest, both);
      FilterIsShows(items, both, term, category);
    } else if term != "" {
      FilterIsShows(items, textTest, term, category);
    } else if category != AllCategory {
      FilterIsShows(items, categoryTest, term, category);
    } else {
      ShowsAll(items);
    }
  }

  /** The body of `applyCombinedFilter`: the text test first, when the term is
      not blank, then the category test, when the category is not `Todas`. */
  method FilterMenu(items: seq<MenuItem>, term: string, category: string) returns (shown: seq<MenuItem>)
    ensures shown == Shows(items, term, category)
  {
    shown := items;
    if term != "" {
      shown := Filter(shown, TextTest(term));
    }
    if category != AllCategory {
      shown := Filter(shown, CategoryTest(category));
    }
    CombinedFilter(items, term, category);
  }

  /** The item merged with its update: the required fields come from the update, an
      optional field from the update when it has one, else from `old`. */
  function Merge(old_: MenuItem, update: MenuItem): (r: MenuItem)
    ensures r.id == update.id && r.nome == update.nome && r.preco == update.preco && r.categoria == update.categoria
    ensures r.foto == (if update.foto.Some? then update.foto else old_.foto)
    ensures r.tag == (if update.tag.Some? then update.tag else old_.tag)
    ensures r.descricao == (if update.descricao.Some? then update.descricao else old_.descricao)
  {
    update.(
      foto := if update.foto.Some? then update.foto else old_.foto,
      tag := if update.tag.Some? then update.tag else old_.tag,
      descricao := if update.descricao.Some? then update.descricao else old_.descricao)
  }

  /** Merging an update twice is merging it once, and merging an item into
      itself leaves it as it is. */
  lemma MergeIdempotent(a: MenuItem, u: MenuItem)
    ensures Merge(Merge(a, u), u) == Merge(a, u)
    ensures Merge(a, a) == a
  {
  }

  /** Whether an item has the id `id`. */
  function HasId(id: int): MenuItem -> bool {
    (i: MenuItem) => i.id == id
  }

  /** The items after `onItemUpdated`. */
  function Updated(items: seq<MenuItem>, selected: Option<MenuItem>, update: MenuItem): (r: seq<MenuItem>)
    ensures |r| == |items|
    ensures selected.None? || IndexWhere(items, HasId(selected.value.id)) == -1 ==> r == items
    ensures selected.Some? && IndexWhere(items, HasId(selected.value.id)) >= 0 ==>
      var k := IndexWhere(items, HasId(selected.value.id));
      r[k] == Merge(items[k], update) && forall j :: 0 <= j < |items| && j != k ==> r[j] == items[j]
  {
    if selected.None? then items
    else
      var k := IndexWhere(items, HasId(selected.value.id));
      if k == -1 then items else items[k := Merge(items[k], update)]
  }

  /** The items after `onRemoveConfirmed`. */
  function Removed(items: seq<MenuItem>, selected: Option<MenuItem>): (r: seq<MenuItem>)
    ensures selected.None? ==> r == items
    ensures selected.Some? ==>
      SubseqOf(r, items)
      && (forall i :: 0 <= i < |r| ==> r[i].id != selected.value.id)
      && (forall i :: 0 <= i < |items| && items[i].id != selected.value.id ==> items[i] in r)
    ensures selected.Some? ==> forall x :: multiset(r)[x] == if x.id != selected.value.id then multiset(items)[x] else 0
  {
    if selected.None? then items
    else
      FilterIsSubseq(items, (i: MenuItem) => i.id != selected.value.id);
      FilterCount(items, (i: MenuItem) => i.id != selected.value.id);
      Filter(items, (i: MenuItem) => i.id != selected.value.id)
  }

  /** Removing the selected item twice is removing it once. */
  lemma RemovedIdempotent(items: seq<MenuItem>, selected: Option<MenuItem>)
    ensures Removed(Removed(items, selected), selected) == Removed(items, selected)
  {
    if selected.Some? {
      FilterIdempotent(items, (i: MenuItem) => i.id != selected.value.id);
    }
  }

  function SampleMenu(): seq<MenuItem> {
    [ MenuItem(1, Some("pizza_sq.jpg"), "Pizza Mussarela", "R$ 49,90", "Pizza", Some("Mussarela"), Some("Descrição da Pizza Mussarela.")),
      MenuItem(2, Some("pizza_sq.jpg"), "Pizza Pepperoni", "R$ 49,90", "Pizza", Some("Pepperoni"), Some("Descrição da Pizza Pepperoni.")),
      MenuItem(3, Some("coca_sq.jpg"), "Coca", "R$ 8,00", "Bebida", Some("Coca"), Some("Bebida refrescante de 350ml.")),
      MenuItem(4, Some("chocolate_sq.jpg"), "Pizza Chocolate", "R$ 56,00", "Doce", Some("Chocolate"), Some("Pizza doce com chocolate e frutas.")) ]
  }

  class Overview {
    var menuItems: seq<MenuItem>
    var filteredItems: seq<MenuItem>
    var searchTerm: string
    var selectedCategory: string
    var isAddItemModalOpen: bool
    var isEditItemModalOpen: bool
    var isRemovePopupOpen: bool
    var selectedItem: Option<MenuItem>

    /** The shown list is the filter of the menu under the current term and category. */
    predicate Consistent()
      reads this
    {
      filteredItems == Shows(menuItems, NormalTerm(searchTerm), selectedCategory)
    }

    constructor ()
      ensures menuItems == SampleMenu() && filteredItems == menuItems
      ensures searchTerm == "" && selectedCategory == AllCategory
      ensures !isAddItemModalOpen && !isEditItemModalOpen && !isRemovePopupOpen && selectedItem.None?
    {
      var sample := SampleMenu();
      menuItems := sample;
      filteredItems := sample;
      searchTerm := "";
      selectedCategory := AllCategory;
      isAddItemModalOpen, isEditItemModalOpen, isRemovePopupOpen := false, false, false;
      selectedItem := None;
    }

    /** `ngOnInit`: the filter is applied once; with a blank term and `Todas`
        the shown list is the whole menu. */
    method NgOnInit()
      modifies this
      ensures Consistent()
      ensures NormalTerm(searchTerm) == "" && selectedCategory == AllCategory ==> filteredItems == menuItems
      ensures menuItems == old(menuItems) && searchTerm == old(searchTerm) && selectedCategory == old(selectedCategory)
      ensures isAddItemModalOpen == old(isAddItemModalOpen) && isEditItemModalOpen == old(isEditItemModalOpen)
      ensures isRemovePopupOpen == old(isRemovePopupOpen) && selectedItem == old(selectedItem)
    {
      ApplyCombinedFilter();
      if NormalTerm(searchTerm) == "" && selectedCategory == AllCategory {
        ShowsAll(menuItems);
      }
    }

    /** Recomputes the shown list: the text test first, then the category test. */
    method ApplyCombinedFilter()
      modifies this
      ensures filteredItems == Shows(menuItems, NormalTerm(searchTerm), selectedCategory)
      ensures menuItems == old(menuItems) && searchTerm == old(searchTerm) && selectedCategory == old(selectedCategory)
      ensures isAddItemModalOpen == old(isAddItemModalOpen) && isEditItemModalOpen == old(isEditItemModalOpen)
      ensures isRemovePopupOpen == old(isRemovePopupOpen) && selectedItem == old(selectedItem)
    {
      var term := NormalTerm(searchTerm);
      filteredItems := FilterMenu(menuItems, term, selectedCategory);
    }

    method ApplyCategoryFilter(category: string)
      modifies this
      ensures selectedCategory == category
      ensures filteredItems == Shows(menuItems, NormalTerm(searchTerm), category)
      ensures menuItems == old(menuItems) && searchTerm == old(searchTerm)
      ensures isAddItemModalOpen == old(isAddItemModalOpen) && isEditItemModalOpen == old(isEditItemModalOpen)
      ensures isRemovePopupOpen == old(isRemovePopupOpen) && selectedItem == old(selectedItem)
    {
      selectedCategory := category;
      ApplyCombinedFilter();
    }

    method OpenAddItemModal()
      modifies this
      ensures isAddItemModalOpen
      ensures menuItems == old(menuItems) && filteredItems == old(filteredItems) && searchTerm == old(searchTerm)
      ensures selectedCategory == old(selectedCategory) && isEditItemModalOpen == old(isEditItemModalOpen)
      ensures isRemovePopupOpen == old(isRemovePopupOpen) && selectedItem == old(selectedItem)
    {
      isAddItemModalOpen := true;
    }

    method OpenEditItem(item: MenuItem)
      modifies this
      ensures selectedItem == Some(item) && isEditItemModalOpen
      ensures menuItems == old(menuItems) && filteredItems == old(filteredItems) && searchTerm == old(searchTerm)
      ensures selectedCategory == old(selectedCategory) && isAddItemModalOpen == old(isAddItemModalOpen)
      ensures isRemovePopupOpen == old(isRemovePopupOpen)
    {
      selectedItem := Some(item);
      isEditItemModalOpen := true;
    }

    method OpenRemoveConfirm(item: MenuItem)
      modifies this
      ensures selectedItem == Some(item) && isRemovePopupOpen
      ensures menuItems == old(menuItems) && filteredItems == old(filteredItems) && searchTerm == old(searchTerm)
      ensures selectedCategory == old(selectedCategory) && isAddItemModalOpen == old(isAddItemModalOpen)
      ensures isEditItemModalOpen == old(isEditItemModalOpen)
    {
      selectedItem := Some(item);
      isRemovePopupOpen := true;
    }

    /** Closes every modal, drops the selection and re-applies the filter. */
    method CloseModal()
      modifies this
      ensures !isAddItemModalOpen && !isEditItemModalOpen && !isRemovePopupOpen && selectedItem.None?
      ensures menuItems == old(menuItems) && searchTerm == old(searchTerm) && selectedCategory == old(selectedCategory)
      ensures Consistent()
    {
      isAddItemModalOpen := false;
      isEditItemModalOpen := false;
      isRemovePopupOpen := false;
      selectedItem := None;
      ApplyCombinedFilter();
    }

    /** Puts the new item first, with the clock reading `now` as its id. */
    method OnItemAdded(newItem: MenuItem, now: int)
      modifies this
      ensures menuItems == [newItem.(id := now)] + old(menuItems)
      ensures !isAddItemModalOpen && !isEditItemModalOpen && !isRemovePopupOpen && selectedItem.None?
      ensures searchTerm == old(searchTerm) && selectedCategory == old(selectedCategory)
      ensures Consistent()
    {
      menuItems := [newItem.(id := now)] + menuItems;
      CloseModal();
    }

    method OnItemUpdated(update: MenuItem)
      modifies this
      ensures menuItems == Updated(old(menuItems), old(selectedItem), update)
      ensures !isAddItemModalOpen && !isEditItemModalOpen && !isRemovePopupOpen && selectedItem.None?
      ensures searchTerm == old(searchTerm) && selectedCategory == old(selectedCategory)
      ensures Consistent()
    {
      if selectedItem.Some? {
        var index := IndexWhere(menuItems, HasId(selectedItem.value.id));
        if index != -1 {
          menuItems := menuItems[index := Merge(menuItems[index], update)];
        }
      }
      CloseModal();
    }

    method OnRemoveConfirmed()
      modifies this
      ensures menuItems == Removed(old(menuItems), old(selectedItem))
      ensures !isAddItemModalOpen && !isEditItemModalOpen && !isRemovePopupOpen && selectedItem.None?
      ensures searchTerm == old(searchTerm) && selectedCategory == old(selectedCategory)
      ensures Consistent()
    {
      if selectedItem.Some? {
        var id := selectedItem.value.id;
        menuItems := Filter(menuItems, (i: MenuItem) => i.id != id);
      }
      CloseModal();
    }
  }
}
