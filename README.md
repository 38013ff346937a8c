# Comanda Digital front end — a verified model of its core rules

Comanda Digital is an Angular front end for a pizzeria. It has screens for the
customer, the kitchen, the courier and the manager. This project models the
in-memory logic of those screens and services in Dafny:

- the kitchen's kanban board, with its "next status" button, drag and drop,
  search filter and elapsed-time label;
- the courier's lists of available, carried, accepted and delivered orders,
  and the mapping of backend order payloads onto them;
- the keyed collections: the shared cart, favourites, recent searches, the
  manager's menu list, the customer's cart screen and the customer's menu;
- the two order-status-to-progress-step mappings;
- the order-total rules that add state shipping only when the backend lacks it;
- the CPF and CEP masks, the price typing and submit rules of the
  add-item form, the dish price text, and the history screen's price label.

JavaScript's dynamic values are modelled by one datatype, `JsValue.Value`. It
has cases `Undefined`, `Null`, `Bool`, `Num`, `NaN`, `Str`, `Arr` and `Obj`.
Beside it there are functions for `??`, `||`, truthiness, `String(v)`,
`Number(v)` and field lookup. All money is in integer cents. `Number` of a
text reads a decimal literal: an optional sign, digits with an optional
point, and an optional exponent. It has two readings. `ToNumber` reads a
count, so "2" is 2. `ToAmount` reads an amount in reais into cents, so "30"
is 3000 and "12.50" is 1250, the same unit the cart uses for a price text.
A number already held in a `Num` is in the field's own unit and is kept.
The model's `parseFloat` (`Money.ParseFloatCents`) reads the longest prefix
made of a sign, digits, an optional point and fraction, and an optional
exponent, keeps two decimals of the amount and truncates the rest.
`toFixed(2)` writes cents with two decimals (`Money.CentsText`).

Objects whose fields the source updates are classes with those fields. Pure
computations are functions, and each operation is proved against a
specification function. Clocks and server replies are parameters: `nowMs`,
`now`, `confirmed`, `ack`, `response`, `res`. The date parser is the
parameter `parseDate`. The `OrderStatus` enumeration keys are a parameter
`enumKeys`.

## Model

| member | source | states |
|---|---|---|
| JsValue.StringToNumberTrimmed | src/app/tela-cliente/pedido-aprovado/pedido-aprovado.component.ts:35 | `Number(t)` of a text is the number of the trimmed text: 0 when empty, the scaled value of a decimal literal (sign, digits, optional point and fraction, optional exponent), NaN otherwise |
| JsValue.IntegerTextRead | src/app/tela-cliente/rastreio/rastreio.component.ts:79-80 | the text of an integer n reads as the count n and as the amount of n reais, 100·n cents |
| JsValue.DecimalTextAmount | src/app/tela-cliente/rastreio/rastreio.component.ts:79 | a text "w.f" with at most two decimals reads as w reais and f cents, scaled by the number of decimals ("12.5" is 1250) |
| JsValue.DecimalTextCount | src/app/tela-cliente/rastreio/rastreio.component.ts:80 | a count written "w.f" reads as its whole part w |
| JsValue.ExponentTextAmount | src/app/tela-cliente/rastreio/rastreio.component.ts:79 | a text "w e k" reads as w·10^k reais |
| JsValue.Characters | src/app/tela-cliente/pedido-aprovado/pedido-aprovado.component.ts:41 | iterating a text visits each of its characters, as a one-character text, in order |
| JsValue.FirstFieldIsFirstSet | src/app/tela-cliente/rastreio/rastreio.component.ts:80 | an `a ?? b ?? … ?? d` chain over fields yields the first field that is neither null nor undefined |
| JsValue.FirstFieldNoneSet | src/app/tela-cliente/rastreio/rastreio.component.ts:80 | the chain yields the default when no field is set, and a value that is set when some field is |
| KitchenBoard.IndexOfOrder | src/app/modulo-cozinha/painel/painel.component.ts:240 | `findIndex` by order number: the first index holding it, or -1 when no card has it |
| KitchenBoard.FindIndex | src/app/modulo-cozinha/painel/painel.component.ts:240 | the loop returns exactly the index `IndexOfOrder` specifies |
| KitchenBoard.AdvanceMovesFirstMatch | src/app/modulo-cozinha/painel/painel.component.ts:240-285 | the button acts on the first column searched (to prepare, in preparation, ready) that holds the order: it removes that card from there at its index and appends it, restamped with the next status, at the end of the next column; the other columns are unchanged |
| KitchenBoard.AdvanceWithoutMatch | src/app/modulo-cozinha/painel/painel.component.ts:271-286 | an order found only among the delivered cards, or on no card, leaves all four columns unchanged |
| KitchenBoard.AdvanceKeepsCards | src/app/modulo-cozinha/painel/painel.component.ts:243-283 | the button keeps the number of cards and the multiset of order numbers on the board |
| KitchenBoard.AdvanceKeepsFiled | src/app/modulo-cozinha/painel/painel.component.ts:243-283 | if every card's status matches its column before the press, it still does after |
| KitchenBoard.Painel.MoveOrderToNextStatus | src/app/modulo-cozinha/painel/painel.component.ts:231-286 | the four column fields become the board `Advance` describes; the search text is kept |
| KitchenBoard.StatusForListId | src/app/modulo-cozinha/painel/painel.component.ts:192-199 | a status is assigned exactly for the four drop-list ids |
| KitchenBoard.ListId | src/app/modulo-cozinha/painel/painel.component.ts:193-197 | each column's own list id assigns that column's status |
| KitchenBoard.DroppedColumns | src/app/modulo-cozinha/painel/painel.component.ts:176-202 | within a column a drop is `moveItemInArray`; across columns it removes the card at `previousIndex` and inserts it at `currentIndex`, restamped only when the target id is known; other columns are unchanged |
| KitchenBoard.DropWithinColumn | src/app/modulo-cozinha/painel/painel.component.ts:178-181 | a drop within one column keeps that column's multiset, puts the dragged card at `currentIndex` and changes no other column |
| KitchenBoard.DropAcrossColumns | src/app/modulo-cozinha/painel/painel.component.ts:184-202 | across columns the card leaves its column and sits at `currentIndex` of the target; it gets the target's status when the id is known and is unchanged otherwise |
| KitchenBoard.DropKeepsCards | src/app/modulo-cozinha/painel/painel.component.ts:176-202 | a drop keeps the number of cards and the multiset of order numbers |
| KitchenBoard.DropKeepsFiled | src/app/modulo-cozinha/painel/painel.component.ts:176-202 | dropping onto a column's own list keeps every card's status matching its column |
| KitchenBoard.Painel.Drop | src/app/modulo-cozinha/painel/painel.component.ts:176-210 | the column fields become the board `Dropped` describes; the search text is kept |
| KitchenBoard.FilterOrders | src/app/modulo-cozinha/painel/painel.component.ts:126-142 | an empty trimmed lower-cased query returns the list; otherwise the result is a subsequence of the list in which each card whose number text, lower-cased table or some lower-cased item name contains the query occurs as often as in the list, and no other card occurs |
| KitchenBoard.GetTimeElapsed | src/app/modulo-cozinha/painel/painel.component.ts:149-169 | every label starts with "há " |
| KitchenBoard.ElapsedSeconds | src/app/modulo-cozinha/painel/painel.component.ts:156-157 | under 60 s the label is "há alguns segundos" |
| KitchenBoard.ElapsedMinutes | src/app/modulo-cozinha/painel/painel.component.ts:160-162 | between m and m+1 minutes, under an hour, the label is "há m minuto", with "s" only for m > 1 |
| KitchenBoard.ElapsedHours | src/app/modulo-cozinha/painel/painel.component.ts:165-167 | between h and h+1 hours the label is "há h hora", with "s" only for h > 1 |
| KitchenBoard.SampleBoard | src/app/modulo-cozinha/painel/painel.component.ts:58-76 | the five sample cards each sit in the column that matches their status |
| KitchenBoard.Painel.constructor | src/app/modulo-cozinha/painel/painel.component.ts:58-86 | the board starts with the sample cards and an empty search text |
| Courier.Copy | src/app/motoboy/motoboy.component.ts:42-51 | the copy keeps the id and both addresses, takes the given status, and has items and a non-nullish display number, date and address |
| Courier.CopyDefaults | src/app/motoboy/motoboy.component.ts:44-49 | display number defaults to "Pedido Nº <id>", date to "", address to the client address and then "", items to [] |
| Courier.CopyOfCopy | src/app/motoboy/motoboy.component.ts:42-51 | copying a copy equals copying the original with the last status |
| Courier.WithoutOrder | src/app/motoboy/motoboy.component.ts:41 | the orders with another id, in their order; every such order is kept |
| Courier.WithoutOrderCount | src/app/motoboy/motoboy.component.ts:41 | each order with another id is kept exactly as often as it occurs, and the others not at all |
| Courier.WithoutId | src/app/motoboy/motoboy.component.ts:76 | the ids other than `id`, in their order; `id` no longer occurs |
| Courier.WithoutIdCount | src/app/motoboy/motoboy.component.ts:76 | each other id is kept exactly as often as it occurs |
| Courier.WithStatus | src/app/motoboy/motoboy.component.ts:63 | same length and ids; only the orders with that id take the new status |
| Courier.TrackedAfterAccept | src/app/motoboy/motoboy.component.ts:52-53 | accepting keeps the carried orders and the accepted ids naming the same orders |
| Courier.TrackedAfterRemove | src/app/motoboy/motoboy.component.ts:74-76 | removing an id from both lists keeps them naming the same orders |
| Courier.TrackedAfterRestatus | src/app/motoboy/motoboy.component.ts:63 | changing statuses keeps them naming the same orders |
| Courier.Motoboy.AcceptOrder | src/app/motoboy/motoboy.component.ts:39-54 | removes every available order with that id, prepends an on-the-way copy to the carried orders, appends the id to the accepted ids, and changes nothing else |
| Courier.Motoboy.StartDelivery | src/app/motoboy/motoboy.component.ts:60-66 | no order: nothing changes; otherwise only carried orders with that id become on the way and the selection is cleared |
| Courier.Motoboy.FinishDelivery | src/app/motoboy/motoboy.component.ts:68-97 | when the backend confirms: the id leaves the carried orders and the accepted ids, and a delivered copy is prepended to the recent deliveries; when it fails, the lists are unchanged |
| Courier.Motoboy.ConfirmCancel | src/app/motoboy/motoboy.component.ts:103-122 | no target: only the modal closes; otherwise a pending copy is prepended to the available orders, the id leaves the carried orders and the accepted ids, and the target, modal and selection are cleared |
| Courier.Motoboy.ViewDetails | src/app/motoboy/motoboy.component.ts:56 | selects the order and changes nothing else |
| Courier.Motoboy.CloseDetails | src/app/motoboy/motoboy.component.ts:58 | clears the selection and changes nothing else |
| Courier.Motoboy.OpenCancel | src/app/motoboy/motoboy.component.ts:99 | sets the cancel target and shows the modal |
| Courier.Motoboy.CloseCancel | src/app/motoboy/motoboy.component.ts:101 | clears the cancel target and hides the modal |
| Courier.Motoboy.constructor | src/app/motoboy/motoboy.component.ts:21-30 | all lists empty, nothing selected, no cancel modal |
| Courier.LabelStatus | src/app/motoboy/motoboy.component.ts:167-170 | on the way exactly for OUT_FOR_DELIVERY, EN_ROUTE, ON_THE_WAY and DELIVERY; delivered exactly for DELIVERED, ENTREGUE and FINISHED; pending otherwise |
| Courier.StatusFromText | src/app/motoboy/motoboy.component.ts:163-170 | an enumeration key maps to its member; any other label maps as `LabelStatus` says |
| Courier.MapStatus | src/app/motoboy/motoboy.component.ts:161-171 | null, undefined, false, NaN and "" are pending; otherwise the upper-cased, trimmed text gives its enumeration member when it is a key, and on-the-way or delivered exactly when it is one of those labels |
| Courier.MapStatusMissing | src/app/motoboy/motoboy.component.ts:162 | null, undefined and "" are pending |
| Courier.MapStatusKeysAgree | src/app/motoboy/motoboy.component.ts:165-170 | with the enumeration's own keys the lookup gives what the labels give |
| Courier.StatusFromTextKeysAgree | src/app/motoboy/motoboy.component.ts:163-170 | with the enumeration's own keys the enumeration lookup and the label table agree on every text |
| Courier.MapStatusIgnoresCase | src/app/motoboy/motoboy.component.ts:163 | the status is read without regard to case: a text and its upper-case form map to the same status |
| Courier.MapItem | src/app/motoboy/motoboy.component.ts:140-144 | a null item throws; otherwise name, quantity and price are never nullish |
| Courier.MapItemFields | src/app/motoboy/motoboy.component.ts:141-143 | field by field: the name is `name`, else `dishName`, else the dish's name, else "Item"; the quantity is `quantity`, else `qty`, else 1; the price is `price`, else `unitPrice`, else 0 |
| Courier.MapItemDefaults | src/app/motoboy/motoboy.component.ts:141-143 | an item with none of the fields is ("Item", 1, 0) |
| Courier.MapItems | src/app/motoboy/motoboy.component.ts:140-144 | the items map one by one, and mapping succeeds exactly when no item is null |
| Courier.MapBackendToOrder | src/app/motoboy/motoboy.component.ts:138-159 | mapping fails exactly when the payload or one of its items is null; the status is `MapStatus` of the payload's; an items array maps item by item through `MapItems`, and a non-array items field gives []; both addresses are copied |
| Courier.MapBackendFields | src/app/motoboy/motoboy.component.ts:151-153 | the display number is the payload's, else "Pedido Nº <id>"; the date is `date`, else `createdAt`, else ""; the address is `address`, else `clientAddress`, else "" |
| Courier.MapBackendId | src/app/motoboy/motoboy.component.ts:139 | the id is `id`, else `orderId`, else 0 |
| Courier.MapOrders | src/app/motoboy/motoboy.component.ts:129 | every payload maps to the order at the same index; it fails exactly when one payload throws |
| Courier.AvailableAfterLoad | src/app/motoboy/motoboy.component.ts:124-136 | an error or a non-array reply leaves no available orders; an array maps one to one onto the orders; a payload that throws while mapping leaves the list unchanged |
| Courier.Motoboy.LoadAvailableOrders | src/app/motoboy/motoboy.component.ts:124-136 | the available orders become `AvailableAfterLoad`; nothing else changes |
| CartService.LinePrice | src/services/carrinho.service.ts:31-32 | a number is kept and NaN reads as 0 |
| CartService.Normalize | src/services/carrinho.service.ts:27-44 | the dish id is never nullish and the quantity never 0 |
| CartService.NormalizeDishId | src/services/carrinho.service.ts:28-44 | the dish id is `dishId`, else `id`, else the name |
| CartService.NormalizeQuantity | src/services/carrinho.service.ts:33 | a quantity that reads as 0 or NaN becomes 1; any other number is kept |
| CartService.IndexOfKey | src/services/carrinho.service.ts:46 | `find` by `String(dishId)`: the first line with the key, or -1 when none has it |
| CartService.FindKey | src/services/carrinho.service.ts:46 | the search loop returns exactly `IndexOfKey` |
| CartService.Images | src/services/carrinho.service.ts:62-67 | a new line copies exactly the truthy image fields |
| CartService.Added | src/services/carrinho.service.ts:38-71 | a falsy item changes nothing; otherwise the length is kept or one line is appended |
| CartService.AddedExisting | src/services/carrinho.service.ts:46-51 | a known key adds the normalised quantity to its line and changes no other line |
| CartService.AddedNew | src/services/carrinho.service.ts:54-68 | a new key appends exactly one line, at the end |
| CartService.AddedHasKey | src/services/carrinho.service.ts:46-68 | after adding, some line has the item's key |
| CartService.AddedKeepsUnique | src/services/carrinho.service.ts:46-68 | adding keeps the keys unique |
| CartService.WithoutKey | src/services/carrinho.service.ts:83 | the lines with another key, in order; each such line is kept exactly as often as it occurs, and the key's lines not at all |
| CartService.WithoutKeyKeepsUnique | src/services/carrinho.service.ts:83 | filtering keeps the keys unique |
| CartService.Removed | src/services/carrinho.service.ts:79-93 | a falsy item or one without a key changes nothing; otherwise every line with the key goes and the rest keep their order and their multiplicity |
| CartService.QuantitySet | src/services/carrinho.service.ts:102-131 | a falsy item, one without a key, or a key no line has changes nothing; a quantity of at most 0 leaves no line with the key and keeps the others in their order; a positive one keeps the length |
| CartService.QuantitySetPositive | src/services/carrinho.service.ts:105-116 | a positive quantity is set on the keyed line only |
| CartService.QuantitySetKeepsUnique | src/services/carrinho.service.ts:102-131 | setting a quantity keeps the keys unique |
| CartService.CarrinhoService.constructor | src/services/carrinho.service.ts:17-24 | the cart starts empty |
| CartService.CarrinhoService.Adicionar | src/services/carrinho.service.ts:38-71 | the lines become `Added`, and keys stay unique |
| CartService.CarrinhoService.Listar | src/services/carrinho.service.ts:74-76 | returns the current lines |
| CartService.CarrinhoService.Remover | src/services/carrinho.service.ts:79-93 | the lines become `Removed`, and keys stay unique |
| CartService.CarrinhoService.Clear | src/services/carrinho.service.ts:96-99 | the cart becomes empty |
| CartService.CarrinhoService.AtualizarQuantidade | src/services/carrinho.service.ts:102-131 | the lines become `QuantitySet`, and keys stay unique |
| Favorites.Keys | src/app/services/favorites.service.ts:27 | the `String(id)` of each favourite, in order |
| Favorites.IndexOfId | src/app/services/favorites.service.ts:34 | `findIndex` by `String(id)`: the first match, or -1 when the key is absent |
| Favorites.FindId | src/app/services/favorites.service.ts:34 | the search loop returns exactly `IndexOfId` |
| Favorites.ToggledKeys | src/app/services/favorites.service.ts:34-39 | a present key's entry is removed at its index; otherwise the key is appended |
| Favorites.ToggledShape | src/app/services/favorites.service.ts:30-39 | toggling leaves the list as it is, appends the item, or removes one entry |
| Favorites.ToggleFlips | src/app/services/favorites.service.ts:30-41 | toggling an item with an id flips whether that id is a favourite |
| Favorites.ToggleKeepsOthers | src/app/services/favorites.service.ts:30-41 | toggling leaves every other id's favourite state unchanged |
| Favorites.ToggleKeepsKey | src/app/services/favorites.service.ts:34-39 | a key other than the toggled one is present after the toggle exactly when it was before |
| Favorites.ToggleTwiceRestores | src/app/services/favorites.service.ts:34-38 | toggling an absent item twice restores the list |
| Favorites.ToggleKeepsUnique | src/app/services/favorites.service.ts:34-38 | toggling keeps the ids unique |
| Favorites.FavoritesService.constructor | src/app/services/favorites.service.ts:11-19 | the list starts empty |
| Favorites.FavoritesService.List | src/app/services/favorites.service.ts:21-23 | returns the current favourites |
| Favorites.FavoritesService.IsFavorite | src/app/services/favorites.service.ts:25-28 | false for a null or undefined id; otherwise true exactly when some entry's `String(id)` matches |
| Favorites.FavoritesService.Toggle | src/app/services/favorites.service.ts:30-42 | the list becomes `Toggled`, and ids stay unique |
| RecentSearches.Prefix | src/app/tela-cliente/busca/busca.component.ts:45 | `slice(0, n)`: the first min(n, length) entries |
| RecentSearches.PushRecent | src/app/tela-cliente/busca/busca.component.ts:45 | at most 10 entries; the term first and not repeated; the rest a subsequence of the old list; after the term come the first old entries other than the term, in order, as many as fit; unless the list is full, every old entry other than the term is kept |
| RecentSearches.PushRecentNoDuplicates | src/app/tela-cliente/busca/busca.component.ts:45 | a duplicate-free list stays duplicate-free |
| RecentSearches.PushRecentIdempotent | src/app/tela-cliente/busca/busca.component.ts:45 | pushing the same term twice equals pushing it once |
| RecentSearches.Busca.constructor | src/app/tela-cliente/busca/busca.component.ts:16-17 | the search text and the recent list start empty |
| RecentSearches.Busca.DoSearch | src/app/tela-cliente/busca/busca.component.ts:31-37 | a blank term does nothing; otherwise the trimmed term is pushed and navigated with |
| RecentSearches.Busca.SelectRecent | src/app/tela-cliente/busca/busca.component.ts:39-42 | sets the search text, then searches as `DoSearch` |
| MenuOverview.ShowsSpec | src/app/menu-gerente/overview/overview.component.ts:179-201 | the shown items keep their order and all pass the text test and the category test; every item that passes both is shown |
| MenuOverview.FilterIsShows | src/app/menu-gerente/overview/overview.component.ts:185-198 | the two filters applied in turn give `Shows` |
| MenuOverview.AccentedTermFinds | src/app/menu-gerente/overview/overview.component.ts:185-189 | the term "água" finds an item named "Água …", as lower-casing covers the accented capitals |
| MenuOverview.ShowsAll | src/app/menu-gerente/overview/overview.component.ts:185-200 | with an empty term and 'Todas' every item is shown |
| MenuOverview.Merge | src/app/menu-gerente/overview/overview.component.ts:165 | the spread takes the update's fields and keeps the old optional fields the update lacks |
| MenuOverview.MergeIdempotent | src/app/menu-gerente/overview/overview.component.ts:165 | merging the same update twice equals once, and merging an item into itself changes nothing |
| Lists.IndexWhere | src/app/menu-gerente/overview/overview.component.ts:163 | `findIndex`: the first index whose element passes the test, or -1 when none does |
| MenuOverview.Updated | src/app/menu-gerente/overview/overview.component.ts:161-169 | merges the update into the first item with the selected id; no selection or no match leaves the list unchanged |
| MenuOverview.Removed | src/app/menu-gerente/overview/overview.component.ts:173-178 | removes every item with the selected id and keeps the rest in order, each as often as it occurs; no selection changes nothing |
| MenuOverview.RemovedIdempotent | src/app/menu-gerente/overview/overview.component.ts:173-178 | removing twice equals removing once |
| MenuOverview.Overview.constructor | src/app/menu-gerente/overview/overview.component.ts:56-91 | the four sample items, copied as the shown list, an empty term, 'Todas', and no modal open or item selected |
| MenuOverview.Overview.NgOnInit | src/app/menu-gerente/overview/overview.component.ts:97-99 | applying the filter makes the shown list the filter of the menu; with a blank term and 'Todas' it is the whole menu |
| MenuOverview.CombinedFilter | src/app/menu-gerente/overview/overview.component.ts:179-201 | filtering by the text test for a non-blank term, then by the category for a category other than Todas, gives exactly `Shows` |
| MenuOverview.FilterMenu | src/app/menu-gerente/overview/overview.component.ts:180-199 | the filter steps applied in turn give `Shows` for the trimmed, lowercased term |
| MenuOverview.Overview.ApplyCombinedFilter | src/app/menu-gerente/overview/overview.component.ts:179-201 | the shown items become `Shows`; nothing else changes |
| MenuOverview.Overview.ApplyCategoryFilter | src/app/menu-gerente/overview/overview.component.ts:140-146 | selects the category and shows `Shows` for it |
| MenuOverview.Overview.OpenAddItemModal | src/app/menu-gerente/overview/overview.component.ts:106-108 | opens the add modal only |
| MenuOverview.Overview.OpenEditItem | src/app/menu-gerente/overview/overview.component.ts:112-115 | selects the item and opens the edit modal |
| MenuOverview.Overview.OpenRemoveConfirm | src/app/menu-gerente/overview/overview.component.ts:119-122 | selects the item and opens the remove popup |
| MenuOverview.Overview.CloseModal | src/app/menu-gerente/overview/overview.component.ts:126-132 | clears the three flags and the selection and re-applies the filter |
| MenuOverview.Overview.OnItemAdded | src/app/menu-gerente/overview/overview.component.ts:154-157 | puts the new item, with the time as its id, at the front, then closes the modals |
| MenuOverview.Overview.OnItemUpdated | src/app/menu-gerente/overview/overview.component.ts:161-169 | the list becomes `Updated`, then the modals close |
| MenuOverview.Overview.OnRemoveConfirmed | src/app/menu-gerente/overview/overview.component.ts:173-178 | the list becomes `Removed`, then the modals close |
| ClientProfile.FirstDigits | src/app/tela-cliente/cliente-perfil/cliente-perfil.component.ts:190 | only digits, at most n of them |
| ClientProfile.CpfMaskShape | src/app/tela-cliente/cliente-perfil/cliente-perfil.component.ts:189-202 | the mask written out by the number of digits kept: '.' after the 3rd and 6th and '-' after the 9th, only when those groups exist |
| ClientProfile.UnmaskFormatCpf | src/app/tela-cliente/cliente-perfil/cliente-perfil.component.ts:189-207 | unmasking a formatted CPF gives the first eleven digits |
| ClientProfile.FormatCpfIdempotent | src/app/tela-cliente/cliente-perfil/cliente-perfil.component.ts:189-202 | formatting a formatted CPF changes nothing |
| ClientProfile.FocusThenBlur | src/app/tela-cliente/cliente-perfil/cliente-perfil.component.ts:232-257 | focus then blur shows the formatted CPF |
| ClientProfile.UnmaskFormatCep | src/app/tela-cliente/cliente-perfil/cliente-perfil.component.ts:285-295 | unmasking a formatted CEP gives the first eight digits |
| ClientProfile.FormatCepShape | src/app/tela-cliente/cliente-perfil/cliente-perfil.component.ts:285-290 | at most nine characters, the dash at index 5 exactly when more than five digits are kept |
| ClientProfile.FormatCepIdempotent | src/app/tela-cliente/cliente-perfil/cliente-perfil.component.ts:285-290 | formatting a formatted CEP changes nothing |
| ClientProfile.AddressParts | src/app/tela-cliente/cliente-perfil/cliente-perfil.component.ts:35 | in order, the text of exactly the truthy fields among logradouro, bairro, localidade and uf |
| ClientProfile.AddressLinesAgree | src/app/tela-cliente/cliente-perfil/cliente-perfil.component.ts:266-271 | the filter-and-join line of a loaded client (line 35) and the push-and-join line of a postal-code lookup are the same |
| ClientProfile.CpfNumber | src/app/tela-cliente/cliente-perfil/cliente-perfil.component.ts:81-82 | null exactly when the unmasked CPF has no digits |
| ClientProfile.SavePayloadNames | src/app/tela-cliente/cliente-perfil/cliente-perfil.component.ts:81-144 | the payload's CPF number, names and aliases (only when truthy), and its id only when set |
| ClientProfile.SavePayloadAddress | src/app/tela-cliente/cliente-perfil/cliente-perfil.component.ts:81-144 | the payload's address: the found one, else cep and street when either is set, else none; the number goes with it |
| ClientProfile.Perfil.constructor | src/app/tela-cliente/cliente-perfil/cliente-perfil.component.ts:16-24 | an empty form, no found address, not saving |
| ClientProfile.Perfil.Salvar | src/app/tela-cliente/cliente-perfil/cliente-perfil.component.ts:69-147 | no save call when the CPF or the address is empty; otherwise saving starts with `SavePayload` |
| ClientProfile.Perfil.OnCepChange | src/app/tela-cliente/cliente-perfil/cliente-perfil.component.ts:259-262 | under eight digits nothing happens; otherwise the digits are looked up and the reply, when there is one, is handled by `OnCepFound` |
| ClientProfile.Perfil.OnCepFound | src/app/tela-cliente/cliente-perfil/cliente-perfil.component.ts:263-276 | a truthy reply fills the address line, the found address and the formatted CEP (`FilledForm`); a falsy one changes nothing |
| ClientProfile.Perfil.OnCpfFocus | src/app/tela-cliente/cliente-perfil/cliente-perfil.component.ts:232-247 | the CPF field shows its digits only |
| ClientProfile.Perfil.OnCpfBlur | src/app/tela-cliente/cliente-perfil/cliente-perfil.component.ts:250-257 | the CPF field shows the mask again |
| Rastreio.PayloadItems | src/app/tela-cliente/rastreio/rastreio.component.ts:75-77 | no payload or falsy items iterate nothing; an array iterates its elements; the iteration throws exactly for a truthy value that is neither an array nor a text |
| Rastreio.ComputeItemsTotal | src/app/tela-cliente/rastreio/rastreio.component.ts:74-84 | the loop sums price × quantity over the payload's items, as `ItemsTotal`, and fails where the source throws |
| Rastreio.ItemsSumAppend | src/app/tela-cliente/rastreio/rastreio.component.ts:77-82 | the sum over two lists fails when either fails, and is otherwise the sum of their sums |
| Rastreio.ItemsSumFails | src/app/tela-cliente/rastreio/rastreio.component.ts:77-82 | the sum fails, as reading a field of null throws, exactly when some item is nullish |
| Rastreio.TextPriceInReais | src/app/tela-cliente/rastreio/rastreio.component.ts:79 | a price text "30" is 3000 cents, the unit the cart gives it |
| Rastreio.ItemDefaults | src/app/tela-cliente/rastreio/rastreio.component.ts:79 | an item without a price field costs 0 |
| Rastreio.ItemQuantityDefault | src/app/tela-cliente/rastreio/rastreio.component.ts:80 | an item without a quantity field counts 1 |
| Rastreio.BaseTotal | src/app/tela-cliente/rastreio/rastreio.component.ts:94 | a nullish `total` gives the items' total, failing when it throws; any other total is read as an amount, NaN counting 0 |
| Rastreio.StatedTotalRead | src/app/tela-cliente/rastreio/rastreio.component.ts:94 | a numeric total is kept; one that is not a number gives 0; a text "w.f" gives w reais and f cents |
| Rastreio.DisplayTotal | src/app/tela-cliente/rastreio/rastreio.component.ts:86-97 | fails when the base total fails; state shipping, read as an amount, is added once, only when it is non-null and no fee field is non-null |
| Rastreio.OrZeroAmount | src/app/tela-cliente/rastreio/rastreio.component.ts:95 | falling back to 0 both before and after reading an amount gives the same amount as falling back only after |
| Rastreio.StoredZeroFeeCounts | src/app/tela-cliente/rastreio/rastreio.component.ts:89 | a stored fee of 0 counts as backend shipping |
| Rastreio.StepIndexOf | src/app/tela-cliente/rastreio/rastreio.component.ts:121-130 | 0..2; "" gives 0; 2 exactly for DELIVERED and FINISHED; 1 exactly for the four on-the-way labels |
| Rastreio.ActiveStepIndex | src/app/tela-cliente/rastreio/rastreio.component.ts:120-131 | always 0..2 |
| Rastreio.StepsSideBySide | src/app/tela-cliente/rastreio/rastreio.component.ts:120-131 | on an already normal status the two mappings agree except that -1 becomes 0 |
| Rastreio.ReceivedAndPendingDisagree | src/app/tela-cliente/rastreio/rastreio.component.ts:124 | RECEIVED and PENDING are -1 for the tracker and 0 here |
| Rastreio.LastUpdateText | src/app/tela-cliente/rastreio/rastreio.component.ts:139-141 | no time stamp gives null |
| Rastreio.LastUpdateBuckets | src/app/tela-cliente/rastreio/rastreio.component.ts:144-147 | under a minute "há poucos segundos", one minute "há 1 minuto", else "há N minutos" |
| Rastreio.LastUpdateInvalid | src/app/tela-cliente/rastreio/rastreio.component.ts:142-143 | an unparsable date gives null |
| Rastreio.OrderNumber | src/app/tela-cliente/rastreio/rastreio.component.ts:165-170 | null for no payload, and null exactly when the four id fields are all nullish |
| Rastreio.OrderNumberIsFirstSet | src/app/tela-cliente/rastreio/rastreio.component.ts:168-169 | the text of the first non-nullish id field |
| Rastreio.FormattedAddress | src/app/tela-cliente/rastreio/rastreio.component.ts:173-189 | "" without payload or address; a text address as it is; an object its joined parts with the complement in parentheses |
| Rastreio.Tracking.constructor | src/app/tela-cliente/rastreio/rastreio.component.ts:44-46 | holds the given order id and tracking payload, however the screen obtained them |
| Rastreio.Tracking.ConfirmDelivery | src/app/tela-cliente/rastreio/rastreio.component.ts:104-111 | without an order id nothing is asked; the status becomes DELIVERED only on a true acknowledgement |
| Rastreio.ConfirmedIsLastStep | src/app/tela-cliente/rastreio/rastreio.component.ts:109-127 | a confirmed delivery shows the last step |
| OrderTracker.DropSeps | src/app/tela-cliente/rastreio/order-tracker.component.ts:19 | drops the leading run of '-' and white space |
| OrderTracker.DropSepsRun | src/app/tela-cliente/rastreio/order-tracker.component.ts:19 | a leading run of separators is dropped up to the first other character |
| OrderTracker.CollapseHasNoSeps | src/app/tela-cliente/rastreio/order-tracker.component.ts:19 | after the replacement of separator runs by '_', no '-' or white space is left |
| OrderTracker.CollapseNoSeps | src/app/tela-cliente/rastreio/order-tracker.component.ts:19 | a text without separators is unchanged |
| OrderTracker.CollapseRun | src/app/tela-cliente/rastreio/order-tracker.component.ts:19 | a run of separators becomes one '_' |
| OrderTracker.Normalize | src/app/tela-cliente/rastreio/order-tracker.component.ts:18-19 | the normalised status holds no '-' or white space |
| OrderTracker.StepOf | src/app/tela-cliente/rastreio/order-tracker.component.ts:20-29 | -1..2; "" gives -1; 2, 1 and 0 exactly for the delivered, on-the-way and preparing labels; RECEIVED, DRAFT and PENDING give -1 |
| OrderTracker.ActiveIndex | src/app/tela-cliente/rastreio/order-tracker.component.ts:16-30 | always -1..2 |
| OrderTracker.FilledIsPrefix | src/app/tela-cliente/rastreio/order-tracker.component.ts:32-35 | if step i is filled, so is every earlier step |
| OrderTracker.FilledSteps | src/app/tela-cliente/rastreio/order-tracker.component.ts:32-35 | delivered fills all three steps; -1 fills none |
| OrderTracker.OnTheWaySpellings | src/app/tela-cliente/rastreio/order-tracker.component.ts:18-26 | 'on the way', 'on-the-way' and ' ON_THE_WAY ' all give 1 |
| PedidoAprovado.AddressLabelCases | src/app/tela-cliente/pedido-aprovado/pedido-aprovado.component.ts:27-29 | never empty; a falsy complement gives 'Casa'; a non-blank one gives it trimmed |
| PedidoAprovado.FirstNumeric | src/app/tela-cliente/pedido-aprovado/pedido-aprovado.component.ts:32-36 | none exactly when no candidate is non-null and numeric; a candidate is read as an amount in cents |
| PedidoAprovado.FirstNumericIsFirst | src/app/tela-cliente/pedido-aprovado/pedido-aprovado.component.ts:34-36 | the first numeric candidate, read as an amount in cents, is the total |
| PedidoAprovado.FirstNumericTotal | src/app/tela-cliente/pedido-aprovado/pedido-aprovado.component.ts:32-36 | the loop with `break` returns exactly `FirstNumeric` of total, price, amount and valor |
| PedidoAprovado.ItemsSumFails | src/app/tela-cliente/pedido-aprovado/pedido-aprovado.component.ts:40-47 | the sum fails, as reading a field of null throws, exactly when some item is nullish |
| PedidoAprovado.SumItems | src/app/tela-cliente/pedido-aprovado/pedido-aprovado.component.ts:39-48 | the loop returns exactly `ItemsSum` |
| PedidoAprovado.ComputeBaseTotal | src/app/tela-cliente/pedido-aprovado/pedido-aprovado.component.ts:31-49 | returns exactly `BaseTotal` |
| PedidoAprovado.WithStateFeeCases | src/app/tela-cliente/pedido-aprovado/pedido-aprovado.component.ts:51-54 | state shipping, read as an amount, is added once, only when it is non-null and the first non-nullish fee field is falsy |
| PedidoAprovado.ZeroFeeRulesDiffer | src/app/tela-cliente/pedido-aprovado/pedido-aprovado.component.ts:51-54 | a stored fee of 0 adds the state shipping here but not on the tracking screen |
| PedidoAprovado.ShippingOf | src/app/tela-cliente/pedido-aprovado/pedido-aprovado.component.ts:22 | nullish exactly when the state's shipping is, and otherwise that shipping read as an amount in cents |
| PedidoAprovado.ComputeShownTotal | src/app/tela-cliente/pedido-aprovado/pedido-aprovado.component.ts:24-58 | no order keeps the default; otherwise `ApprovedTotal` |
| PedidoAprovado.Approved.constructor | src/app/tela-cliente/pedido-aprovado/pedido-aprovado.component.ts:13-60 | the order and shipping from the navigation state, the label `ShownLabel`, the total `ApprovedTotal`, none (the 'R$0,00' default) without an order |
| PedidoAprovado.TrackingState | src/app/tela-cliente/pedido-aprovado/pedido-aprovado.component.ts:64-65 | holds the order, and the shipping exactly when it is non-null |
| PedidoAprovado.Approved.Rastrear | src/app/tela-cliente/pedido-aprovado/pedido-aprovado.component.ts:62-67 | the state handed to the tracking screen is `TrackingState` |
| CustomerCart.WithSubtotals | src/app/tela-cliente/carrinho/carrinho.component.ts:54-55 | each subtotal becomes price × quantity; nothing else changes |
| CustomerCart.SettledSum | src/app/tela-cliente/carrinho/carrinho.component.ts:54-57 | with up-to-date subtotals their sum is the sum of price × quantity |
| CustomerCart.WithSubtotalsSettled | src/app/tela-cliente/carrinho/carrinho.component.ts:54-55 | recomputing up-to-date subtotals changes nothing |
| CustomerCart.WithoutName | src/app/tela-cliente/carrinho/carrinho.component.ts:66 | the lines with another name; every such line is kept |
| CustomerCart.WithoutNameCount | src/app/tela-cliente/carrinho/carrinho.component.ts:66 | each line with another name is kept exactly as often as it occurs |
| CustomerCart.WithoutNameKeepsOrder | src/app/tela-cliente/carrinho/carrinho.component.ts:66 | the kept lines stay in order |
| CustomerCart.WithoutNameUpdate | src/app/tela-cliente/carrinho/carrinho.component.ts:62-66 | changing the quantity of a line does not change which other lines the removal keeps |
| CustomerCart.AfterDeltaPositive | src/app/tela-cliente/carrinho/carrinho.component.ts:62 | a quantity still above 0 is set on that line only |
| CustomerCart.AfterDeltaRemoves | src/app/tela-cliente/carrinho/carrinho.component.ts:62-67 | a quantity of 0 or less removes every line with that name and keeps the others |
| CustomerCart.SampleCartTotal | src/app/tela-cliente/carrinho/carrinho.component.ts:32-48 | the sample cart totals 17370 cents |
| CustomerCart.Carrinho.constructor | src/app/tela-cliente/carrinho/carrinho.component.ts:30-51 | the sample lines with a total of 17370 cents |
| CustomerCart.Carrinho.CalcularTotais | src/app/tela-cliente/carrinho/carrinho.component.ts:53-58 | every subtotal is refreshed and the total is their sum |
| CustomerCart.Carrinho.AtualizarQuantidade | src/app/tela-cliente/carrinho/carrinho.component.ts:61-70 | the lines after the delta and removal, with refreshed subtotals, and the total equals the sum of price × quantity |
| AddItemModal.PriceText | src/app/menu-gerente/add-item-modal/add-item-modal.component.ts:68 | only digits, '.' and ','; without separators only digits |
| AddItemModal.StripZeros | src/app/menu-gerente/add-item-modal/add-item-modal.component.ts:75 | keeps the value of the digits and is empty only for empty input |
| AddItemModal.Group | src/app/menu-gerente/add-item-modal/add-item-modal.component.ts:83 | digits and dots only, empty only for empty input |
| AddItemModal.GroupShape | src/app/menu-gerente/add-item-modal/add-item-modal.component.ts:83 | a dot falls exactly every fourth place from the right, so each group after the first has 3 digits |
| AddItemModal.UngroupGroup | src/app/menu-gerente/add-item-modal/add-item-modal.component.ts:83 | removing the dots gives the digits back |
| AddItemModal.PriceInput | src/app/menu-gerente/add-item-modal/add-item-modal.component.ts:65-92 | no digits gives ""; digits alone give the grouped canonical number; with a separator the '.' are dropped and the ',' kept |
| AddItemModal.PriceInputGrouped | src/app/menu-gerente/add-item-modal/add-item-modal.component.ts:77-84 | removing the dots gives the canonical decimal, with no leading zero |
| AddItemModal.PriceInputDecimal | src/app/menu-gerente/add-item-modal/add-item-modal.component.ts:85-90 | with a separator only digits and ',' remain |
| AddItemModal.RegroupedInputUngroups | src/app/menu-gerente/add-item-modal/add-item-modal.component.ts:72-90 | typing again into a grouped field of more than three digits shows the plain digits, since its dot counts as a separator |
| AddItemModal.RemoveCurrency | src/app/menu-gerente/add-item-modal/add-item-modal.component.ts:134 | a text without '$' is unchanged |
| AddItemModal.RemoveCurrencyMark | src/app/menu-gerente/add-item-modal/add-item-modal.component.ts:134 | a leading "R$" is removed |
| AddItemModal.RemoveCurrencyKeeps | src/app/menu-gerente/add-item-modal/add-item-modal.component.ts:134 | the result is a subsequence of the text with the same digits and the same commas |
| AddItemModal.SubmitText | src/app/menu-gerente/add-item-modal/add-item-modal.component.ts:134-138 | only digits, '.' and '-' remain |
| AddItemModal.SubmitTextKeeps | src/app/menu-gerente/add-item-modal/add-item-modal.component.ts:134-138 | the digits are those of the typed text in order, and there are as many points as the typed text had commas |
| AddItemModal.PriceNum | src/app/menu-gerente/add-item-modal/add-item-modal.component.ts:128-140 | a number is kept; a text is read after normalisation, NaN becoming 0; anything else is 0 |
| AddItemModal.Submitted | src/app/menu-gerente/add-item-modal/add-item-modal.component.ts:119-163 | emits exactly when the name is truthy, the category non-null and the price above 0; the item has the numeric price, id 0 when unset and image "" when unset |
| AddItemModal.SubmittedTextPrice | src/app/menu-gerente/add-item-modal/add-item-modal.component.ts:139-145 | an emitted text price is a positive number |
| AddItemModal.SubmitTextFormatted | src/app/menu-gerente/add-item-modal/add-item-modal.component.ts:134-138 | "R$ 1.234,56" normalises to "1234.56" |
| AddItemModal.SubmitReadsFormatted | src/app/menu-gerente/add-item-modal/add-item-modal.component.ts:128-139 | a price in the 'R$ X.xxx,yy' form is read as its cents |
| AddItemModal.Modal.constructor | src/app/menu-gerente/add-item-modal/add-item-modal.component.ts:34-42 | the draft starts with category 'Pizza' and empty texts |
| AddItemModal.Modal.OnPriceInput | src/app/menu-gerente/add-item-modal/add-item-modal.component.ts:65-92 | the price field becomes `PriceInput` of the typed value; nothing else changes |
| AddItemModal.Modal.OnSubmit | src/app/menu-gerente/add-item-modal/add-item-modal.component.ts:119-163 | emits exactly `Submitted` of the draft |
| DishService.PriceLabel | src/services/dish.service.ts:24 | "R$ " and the cents with two decimals and ',' as separator; NaN shows "R$ NaN" (the price is declared a number) |
| DishService.PointToComma | src/services/dish.service.ts:24 | the first '.' of `toFixed(2)` is the decimal point |
| DishService.WholePart | src/services/dish.service.ts:24 | `toFixed(2)` is a sign and whole part without separators, the separator, then two digits |
| DishService.ToMenuItem | src/services/dish.service.ts:18-28 | renames the fields, copies tag and image, id 0 when the id is falsy, and the price label |
| DishService.ToDish | src/services/dish.service.ts:32-43 | renames the fields back and parses the price, a number or NaN |
| DishService.ParsePriceLabel | src/services/dish.service.ts:24-38 | the price text reads back as the cents it was written from |
| DishService.ParseNaNLabel | src/services/dish.service.ts:24-38 | "R$ NaN" reads back as NaN |
| DishService.ParseExponentLabel | src/services/dish.service.ts:38 | a label in exponent form such as "R$ 1e3" reads as the digits times that power of ten in reais (100000 cents) |
| Money.ParseExponentText | src/services/dish.service.ts:38 | `parseFloat` of digits and an exponent is the digits times that power of ten |
| DishService.DishRoundTrip | src/services/dish.service.ts:18-43 | a dish with a truthy id survives the trip to a menu item and back |
| DishService.MenuItemRoundTrip | src/services/dish.service.ts:18-43 | an item with a truthy id and a price in the 'R$ I,CC' form survives the trip to a dish and back |
| DishService.MissingIdIsZero | src/services/dish.service.ts:20 | a missing or 0 id becomes 0 |
| Menu.ItemMenu.constructor | src/app/tela-cliente/menu/menu.component.ts:44-46 | a menu item, not yet in the cart |
| Menu.SimpleCart.constructor | src/app/tela-cliente/carrinho.service.ts:6-10 | the simple cart starts empty |
| Menu.SimpleCart.Adicionar | src/app/tela-cliente/carrinho.service.ts:12-15 | appends the item |
| Menu.SimpleCart.Listar | src/app/tela-cliente/carrinho.service.ts:18-20 | returns the items |
| Menu.ByCategory | src/app/tela-cliente/menu/menu.component.ts:56 | every shown item is in the list and has the category, and every such item is shown |
| Menu.ByCategoryCount | src/app/tela-cliente/menu/menu.component.ts:56 | an item of the category is shown as often as it is listed, and nothing more often |
| Menu.ByCategoryKeepsOrder | src/app/tela-cliente/menu/menu.component.ts:56 | the shown items keep the list's order |
| Menu.ByCategoryAll | src/app/tela-cliente/menu/menu.component.ts:56 | when every item has the category, all are shown |
| Menu.ByCategoryIdempotent | src/app/tela-cliente/menu/menu.component.ts:54-57 | filtering twice by the same category equals filtering once |
| Menu.MenuScreen.constructor | src/app/tela-cliente/menu/menu.component.ts:28-39 | 'Pizzas' selected, no items |
| Menu.MenuScreen.NgOnInit | src/app/tela-cliente/menu/menu.component.ts:41-51 | three fresh sample pizzas; with 'Pizzas' selected all are shown |
| Menu.MenuScreen.FiltrarPorCategoria | src/app/tela-cliente/menu/menu.component.ts:54-57 | selects the category and shows `ByCategory` of all items |
| Menu.MenuScreen.AdicionarAoCarrinho | src/app/tela-cliente/menu/menu.component.ts:65-68 | marks the item as in the cart and appends it, so the count grows by one |
| Menu.MenuScreen.ContadorCarrinho | src/app/tela-cliente/menu/menu.component.ts:71-74 | the number of items in the cart |
| History.DisplayPriceCases | src/app/tela-cliente/historico/historico.component.ts:40-50 | "" for a falsy item or no price; a number gives "R$ " and the cents with ',' |
| History.DisplayTextPrice | src/app/tela-cliente/historico/historico.component.ts:45-49 | a text is trimmed and kept when it starts with "R$", otherwise prefixed with "R$ " |
| History.DisplayPriceIdempotent | src/app/tela-cliente/historico/historico.component.ts:40-50 | a shown label, other than "" and "R$ ", shows again as itself |
| History.LabelIdempotent | src/app/tela-cliente/historico/historico.component.ts:40-50 | a label other than "" and "R$ ", read back as a text price, gives itself |
| History.BlankPriceNotIdempotent | src/app/tela-cliente/historico/historico.component.ts:45-49 | a blank price shows "R$ ", which shows again as "R$" |
| History.WithQuantityOne | src/app/tela-cliente/historico/historico.component.ts:37 | the spread item is an object with quantidade 1 that keeps the item's other fields and has no field besides those and quantidade |
| History.ReorderAddsOne | src/app/tela-cliente/historico/historico.component.ts:35-38 | reordering adds one when the item carries no `quantity` of its own |
| History.Historico.constructor | src/app/tela-cliente/historico/historico.component.ts:17-20 | holds the shared cart |
| History.Historico.CartCount | src/app/tela-cliente/historico/historico.component.ts:22-24 | the number of cart lines |
| History.Historico.ReorderToCart | src/app/tela-cliente/historico/historico.component.ts:35-38 | the cart becomes `Added` of the item with quantidade 1, and keys stay unique |

## Left out

- Network and storage: the HTTP calls, the WebSocket tracking service, the `localStorage` reads and writes (favourites, recent searches, the courier's recent deliveries, the client id fallback in `salvar`) and the observables that announce changes. Replies and acknowledgements are parameters.
- Timers and clocks: the one-second clock of the kitchen board, the `justUpdated` timeouts (`Restamp` sets the flag and never clears it), the CEP note timer and the focus timeout. The time is a parameter.
- Floating point and locale formatting: prices are integer cents, `parseFloat` and `Number` keep two decimals of an amount and truncate the rest, and `toLocaleString` / `Intl.NumberFormat` (`formatCurrency`, `formatPrice`) are not modelled, so `PedidoAprovado.Approved.displayTotal` holds cents rather than the formatted text.
- AddItemModal.PriceInput: `parseInt` of more than 15 digits loses precision in JavaScript; the model reads any number of digits exactly.
- Async enrichment of tracking items (`enrichItemsForView`, `itemsForView`) and the reading of the navigation state in the tracking screen.
- Presentation-only handlers: `onFileSelected`, `onCancel`, `formatPrice`, alerts, console output, `irParaCheckout`, `abrirDetalhe`, navigation, `toggleFav`, `callRider`, `getStatusColor`, `onLogoError`, `listenForOrders`, the key-down filters and the CPF lock toggle.
- The server reply handling in `salvar` and the client load in the profile constructor.
- The checkout screen and the edit-item modal.
- History.WithQuantityOne: spreading a non-object item (a text or an array spreads its indices) is modelled as spreading no fields.
- Rastreio.DisplayTotal: a throw is modelled as `None`; the screen's reaction to it (the template's error handling) is not modelled.
- JsValue.ToAmount: digits past the second decimal of an amount are cut off; "Infinity", hexadecimal, binary and octal texts read as NaN; an exponent too large for a double is not Infinity; an array holding a number of cents is read through the text of those cents, so it is 100 times too large.
- JsValue.ToNumber: a count written with decimals ("1.5") is cut to its whole part, where JavaScript keeps the fraction.
- JsValue.StringToNumberTrimmed: "Infinity" and the hexadecimal, binary and octal literals read as NaN.
- DishService.ToDish: `parseFloat` of a label such as "R$ Infinity" gives Infinity in JavaScript; the model has no infinite value and reads it as NaN, and an exponent too large for a double is read exactly.
- Text.UpperChar: 'ß' is not expanded to "SS", and letters outside Latin-1 keep their case; Text.LowerChar likewise maps only the Latin-1 capitals.
- KitchenBoard.FilterOrders: lower-casing covers ASCII and Latin-1 letters only, so a query in another script is compared without case folding.
- MenuOverview.ShowsSpec: the text test lower-cases ASCII and Latin-1 letters only.
- CustomerCart.Carrinho.AtualizarQuantidade: the source changes a line the caller passes by reference; the model takes the line's index, and lines are values, so a line listed twice is not aliased.
- Courier.Motoboy.StartDelivery: the source also sets the status of `selectedOrder`, which aliases one of the listed orders; the model keeps the selection as a value and only clears it.
- Courier.MapStatus: the enumeration's own file is not part of this model; its keys are the parameter `enumKeys`, and its members are the three the screen uses.
- History.DisplayPriceIdempotent: holds for every label except "" and "R$ "; `BlankPriceNotIdempotent` shows that "R$ " does not survive.
- The painel's CDK helpers clamp indices; the model requires them to be in range.
