/** The courier's screen: orders available for pickup, orders the courier has
    accepted and is carrying, the ids accepted on this device, and the recent
    deliveries; plus the mapping of backend order payloads onto that view. */
module Courier {
  import opened Text
  import opened JsValue
  import opened Lists
  import opened Wrappers

  /** The members of the `OrderStatus` enumeration the screen uses. */
  datatype OrderStatus = Pending | OnTheWay | Delivered

  datatype Item = Item(name: Value, quantity: Value, price: Value)

  /** An order as the screen holds it. Fields filled from backend payloads can
      hold any value, or be missing (`Undefined`); `items` is `None` when the
      field is missing. */
  datatype Order = Order(id: Value, displayNumber: Value, date: Value, address: Value,
                         restaurantAddress: Value, clientAddress: Value,
                         items: Option<seq<Item>>, status: OrderStatus)

  /** The label shown for an order without a display number. */
  function DefaultDisplayNumber(id: Value): string {
    "Pedido N\U{00BA} " + ToText(id)
  }

  /** The copy of `o` that accept, finish and cancel store: display number,
      date and address filled with their defaults, items defaulting to none,
      and the given status. */
  function Copy(o: Order, st: OrderStatus): (r: Order)
    ensures r.id == o.id && r.status == st && r.items.Some?
    ensures r.restaurantAddress == o.restaurantAddress && r.clientAddress == o.clientAddress
    ensures !IsNullish(r.displayNumber) && !IsNullish(r.date) && !IsNullish(r.address)
  {
    Order(o.id,
          Coalesce(o.displayNumber, Str(DefaultDisplayNumber(o.id))),
          Coalesce(o.date, Str("")),
          Coalesce(o.address, Coalesce(o.clientAddress, Str(""))),
          o.restaurantAddress, o.clientAddress,
          Some(if o.items.Some? then o.items.value else []),
          st)
  }

  /** Which default each field of a copy takes. */
  lemma CopyDefaults(o: Order, st: OrderStatus)
    ensures IsNullish(o.displayNumber) ==> Copy(o, st).displayNumber == Str(DefaultDisplayNumber(o.id))
    ensures IsNullish(o.date) ==> Copy(o, st).date == Str("")
    ensures IsNullish(o.address) && IsNullish(o.clientAddress) ==> Copy(o, st).address == Str("")
    ensures IsNullish(o.address) && !IsNullish(o.clientAddress) ==> Copy(o, st).address == o.clientAddress
    ensures !IsNullish(o.address) ==> Copy(o, st).address == o.address
    ensures o.items.None? ==> Copy(o, st).items == Some([])
  {
  }

  /** Copying a copy only changes the status: the defaults are filled once. */
  lemma CopyOfCopy(o: Order, a: OrderStatus, b: OrderStatus)
    ensures Copy(Copy(o, a), b) == Copy(o, b)
  {
  }

  /** The orders whose id differs from `id`, in order. */
  function WithoutOrder(s: seq<Order>, id: Value): (r: seq<Order>)
    ensures SubseqOf(r, s)
    ensures forall i :: 0 <= i < |r| ==> r[i].id != id
    ensures forall i :: 0 <= i < |s| && s[i].id != id ==> s[i] in r
  {
    FilterIsSubseq(s, (o: Order) => o.id != id);
    Filter(s, (o: Order) => o.id != id)
  }

  /** Each order with another id is kept as often as it occurs. */
  lemma WithoutOrderCount(s: seq<Order>, id: Value)
    ensures forall o :: multiset(WithoutOrder(s, id))[o] == if o.id != id then multiset(s)[o] else 0
  {
    FilterCount(s, (o: Order) => o.id != id);
  }

  /** The ids other than `id`, in order. */
  function WithoutId(s: seq<Value>, id: Value): (r: seq<Value>)
    ensures SubseqOf(r, s)
    ensures id !in r
    ensures forall i :: 0 <= i < |s| && s[i] != id ==> s[i] in r
  {
    FilterIsSubseq(s, x => x != id);
    Filter(s, x => x != id)
  }

  /** Each other id is kept as often as it occurs. */
  lemma WithoutIdCount(s: seq<Value>, id: Value)
    ensures forall x :: multiset(WithoutId(s, id))[x] == if x != id then multiset(s)[x] else 0
  {
    FilterCount(s, x => x != id);
  }

  /** The orders with every order of id `id` given the status `st`. */
  function WithStatus(s: seq<Order>, id: Value, st: OrderStatus): (r: seq<Order>)
    ensures |r| == |s|
    ensures forall i :: 0 <= i < |s| ==> r[i].id == s[i].id
    ensures forall i :: 0 <= i < |s| ==> (s[i].id == id ==> r[i] == s[i].(status := st)) && (s[i].id != id ==> r[i] == s[i])
  {
    seq(|s|, i requires 0 <= i < |s| => if s[i].id == id then s[i].(status := st) else s[i])
  }

  function RouteIds(s: seq<Order>): set<Value> {
    set i | 0 <= i < |s| :: s[i].id
  }

  function IdSet(s: seq<Value>): set<Value> {
    set i | 0 <= i < |s| :: s[i]
  }

  /** The orders carried and the ids accepted name the same orders. */
  predicate Tracked(inRoute: seq<Order>, accepted: seq<Value>) {
    RouteIds(inRoute) == IdSet(accepted)
  }

  lemma RouteIdsWithout(s: seq<Order>, id: Value)
    ensures RouteIds(WithoutOrder(s, id)) == RouteIds(s) - {id}
  {
    var r := WithoutOrder(s, id);
    forall x | x in RouteIds(s) - {id} ensures x in RouteIds(r) {
      var i :| 0 <= i < |s| && s[i].id == x;
      var j :| 0 <= j < |r| && r[j] == s[i];
    }
    forall x | x in RouteIds(r) ensures x in RouteIds(s) - {id} {
      var j :| 0 <= j < |r| && r[j].id == x;
      var i :| 0 <= i < |s| && s[i] == r[j];
    }
  }

  lemma IdSetWithout(s: seq<Value>, id: Value)
    ensures IdSet(WithoutId(s, id)) == IdSet(s) - {id}
  {
    var r := WithoutId(s, id);
    forall x | x in IdSet(s) - {id} ensures x in IdSet(r) {
      var i :| 0 <= i < |s| && s[i] == x;
      var j :| 0 <= j < |r| && r[j] == s[i];
    }
    forall x | x in IdSet(r) ensures x in IdSet(s) - {id} {
      var j :| 0 <= j < |r| && r[j] == x;
      var i :| 0 <= i < |s| && s[i] == r[j];
    }
  }

  /** Accepting an order keeps the carried orders and the accepted ids in step. */
  lemma TrackedAfterAccept(inRoute: seq<Order>, accepted: seq<Value>, o: Order)
    requires Tracked(inRoute, accepted)
    ensures Tracked([Copy(o, OnTheWay)] + inRoute, accepted + [o.id])
  {
    var r := [Copy(o, OnTheWay)] + inRoute;
    var a := accepted + [o.id];
    assert RouteIds(r) == RouteIds(inRoute) + {o.id} by {
      forall x | x in RouteIds(inRoute) ensures x in RouteIds(r) {
        var i :| 0 <= i < |inRoute| && inRoute[i].id == x;
        assert r[i + 1] == inRoute[i];
      }
      forall x | x in RouteIds(r) ensures x in RouteIds(inRoute) + {o.id} {
        var i :| 0 <= i < |r| && r[i].id == x;
        if i > 0 { assert r[i] == inRoute[i - 1]; }
      }
      assert r[0].id == o.id;
    }
    assert IdSet(a) == IdSet(accepted) + {o.id} by {
      forall x | x in IdSet(accepted) ensures x in IdSet(a) {
        var i :| 0 <= i < |accepted| && accepted[i] == x;
        assert a[i] == accepted[i];
      }
      assert a[|accepted|] == o.id;
    }
  }

  /** Removing an order from both lists keeps them in step. */
  lemma TrackedAfterRemove(inRoute: seq<Order>, accepted: seq<Value>, id: Value)
    requires Tracked(inRoute, accepted)
    ensures Tracked(WithoutOrder(inRoute, id), WithoutId(accepted, id))
  {
    RouteIdsWithout(inRoute, id);
    IdSetWithout(accepted, id);
  }

  /** Changing statuses does not change which orders are carried. */
  lemma TrackedAfterRestatus(inRoute: seq<Order>, accepted: seq<Value>, id: Value, st: OrderStatus)
    requires Tracked(inRoute, accepted)
    ensures Tracked(WithStatus(inRoute, id, st), accepted)
  {
    var r := WithStatus(inRoute, id, st);
    assert RouteIds(r) == RouteIds(inRoute) by {
      forall x | x in RouteIds(inRoute) ensures x in RouteIds(r) {
        var i :| 0 <= i < |inRoute| && inRoute[i].id == x;
        assert r[i].id == x;
      }
    }
  }

  /** The backend labels the screen reads as "on the way" and as "delivered". */
  const OnTheWayLabels: set<string> := {"OUT_FOR_DELIVERY", "EN_ROUTE", "ON_THE_WAY", "DELIVERY"}
  const DeliveredLabels: set<string> := {"DELIVERED", "ENTREGUE", "FINISHED"}

  /** The backend status as text, upper-cased and trimmed. */
  function StatusText(s: Value): string {
    Trim(Upper(ToText(s)))
  }

  /** The status for a label that is not an enumeration key. */
  function LabelStatus(raw: string): (r: OrderStatus)
    ensures r == OnTheWay <==> raw in OnTheWayLabels
    ensures r == Delivered <==> raw in DeliveredLabels
  {
    if raw == "READY" || raw == "PRONTO" then Pending
    else if raw in OnTheWayLabels then OnTheWay
    else if raw in DeliveredLabels then Delivered
    else Pending
  }

  /** The status for a normalised label: the enumeration member when the
      label is one of `enumKeys`, else by the label lists. */
  function StatusFromText(raw: string, enumKeys: map<string, OrderStatus>): (r: OrderStatus)
    ensures raw in enumKeys ==> r == enumKeys[raw]
    ensures raw !in enumKeys ==> (r == OnTheWay <==> raw in OnTheWayLabels) && (r == Delivered <==> raw in DeliveredLabels)
  {
    if raw in enumKeys then enumKeys[raw] else LabelStatus(raw)
  }

  /** The status for a backend status value. `enumKeys` holds the keys of the
      `OrderStatus` enumeration whose values are truthy, with their members. */
  function MapStatus(s: Value, enumKeys: map<string, OrderStatus>): (r: OrderStatus)
    ensures IsNullish(s) || s == Bool(false) || s == NaN || s == Str("") ==> r == Pending
    ensures (Truthy(s) || s == Num(0)) && StatusText(s) in enumKeys ==> r == enumKeys[StatusText(s)]
    ensures (Truthy(s) || s == Num(0)) && StatusText(s) !in enumKeys ==>
      (r == OnTheWay <==> StatusText(s) in OnTheWayLabels) && (r == Delivered <==> StatusText(s) in DeliveredLabels)
  {
    if !Truthy(s) && s != Num(0) then Pending else StatusFromText(StatusText(s), enumKeys)
  }

  /** The enumeration keyed by its own member names. */
  const CanonicalKeys: map<string, OrderStatus> := map["PENDING" := Pending, "ON_THE_WAY" := OnTheWay, "DELIVERED" := Delivered]

  /** When the enumeration's keys are the member names, the key lookup agrees
      with the label lists, so the result depends on the labels alone. */
  lemma StatusFromTextKeysAgree(raw: string)
    ensures StatusFromText(raw, CanonicalKeys) == StatusFromText(raw, map[])
  {
    if raw in CanonicalKeys {
      assert raw == "PENDING" || raw == "ON_THE_WAY" || raw == "DELIVERED";
    }
  }

  lemma MapStatusKeysAgree(s: Value)
    ensures MapStatus(s, CanonicalKeys) == MapStatus(s, map[])
  {
    StatusFromTextKeysAgree(StatusText(s));
  }

  lemma MapStatusMissing()
    ensures MapStatus(Null, CanonicalKeys) == Pending
    ensures MapStatus(Undefined, CanonicalKeys) == Pending
    ensures MapStatus(Str(""), CanonicalKeys) == Pending
  {
    assert !Truthy(Str(""));
  }

  /** Upper-casing twice is upper-casing once. */
  lemma UpperTwice(t: string)
    ensures Upper(Upper(t)) == Upper(t)
  {
    var u := Upper(t);
    assert forall i :: 0 <= i < |u| ==> Upper(u)[i] == u[i];
  }

  /** The status text is read without regard to case: a text and its
      upper-case form map to the same status. */
  lemma MapStatusIgnoresCase(t: string, enumKeys: map<string, OrderStatus>)
    ensures MapStatus(Str(t), enumKeys) == MapStatus(Str(Upper(t)), enumKeys)
  {
    UpperTwice(t);
    assert ToText(Str(t)) == t;
    assert ToText(Str(Upper(t))) == Upper(t);
  }

  /** One backend item; `None` when the item is null or undefined, which makes
      the property reads throw. */
  function MapItem(it: Value): (r: Option<Item>)
    ensures r.None? <==> IsNullish(it)
    ensures r.Some? ==> !IsNullish(r.value.name) && !IsNullish(r.value.quantity) && !IsNullish(r.value.price)
  {
    if IsNullish(it) then None
    else Some(Item(
      Coalesce(Get(it, "name"), Coalesce(Get(it, "dishName"), Coalesce(Get(Get(it, "dish"), "name"), Str("Item")))),
      FirstField(it, ["quantity", "qty"], Num(1)),
      FirstField(it, ["price", "unitPrice"], Num(0))))
  }

  /** An item with none of the fields set reads as one "Item" costing 0. */
  lemma MapItemDefaults(it: Value)
    requires it.Obj? && forall k :: k in {"name", "dishName", "dish", "quantity", "qty", "price", "unitPrice"} ==> k !in it.fields
    ensures MapItem(it) == Some(Item(Str("Item"), Num(1), Num(0)))
  {
    FirstFieldNoneSet(it, ["quantity", "qty"], Num(1));
    FirstFieldNoneSet(it, ["price", "unitPrice"], Num(0));
  }

  /** Each field of a mapped item on its own: the name is `name`, else
      `dishName`, else the dish's name, else "Item"; the quantity is
      `quantity`, else `qty`, else 1; the price is `price`, else `unitPrice`,
      else 0. */
  lemma MapItemFields(it: Value)
    requires MapItem(it).Some?
    ensures var m := MapItem(it).value;
      (!IsNullish(Get(it, "name")) ==> m.name == Get(it, "name"))
      && (IsNullish(Get(it, "name")) && !IsNullish(Get(it, "dishName")) ==> m.name == Get(it, "dishName"))
      && (IsNullish(Get(it, "name")) && IsNullish(Get(it, "dishName")) && !IsNullish(Get(Get(it, "dish"), "name")) ==> m.name == Get(Get(it, "dish"), "name"))
      && (IsNullish(Get(it, "name")) && IsNullish(Get(it, "dishName")) && IsNullish(Get(Get(it, "dish"), "name")) ==> m.name == Str("Item"))
      && (!IsNullish(Get(it, "quantity")) ==> m.quantity == Get(it, "quantity"))
      && (IsNullish(Get(it, "quantity")) && !IsNullish(Get(it, "qty")) ==> m.quantity == Get(it, "qty"))
      && (IsNullish(Get(it, "quantity")) && IsNullish(Get(it, "qty")) ==> m.quantity == Num(1))
      && (!IsNullish(Get(it, "price")) ==> m.price == Get(it, "price"))
      && (IsNullish(Get(it, "price")) && !IsNullish(Get(it, "unitPrice")) ==> m.price == Get(it, "unitPrice"))
      && (IsNullish(Get(it, "price")) && IsNullish(Get(it, "unitPrice")) ==> m.price == Num(0))
  {
    FirstFieldPair(it, "quantity", "qty", Num(1));
    FirstFieldPair(it, "price", "unitPrice", Num(0));
  }

  /** No item of `es` is null or undefined. */
  predicate ItemsReadable(es: seq<Value>) {
    forall i :: 0 <= i < |es| ==> !IsNullish(es[i])
  }

  lemma ItemsReadableCons(es: seq<Value>)
    requires es != []
    ensures ItemsReadable(es) <==> !IsNullish(es[0]) && ItemsReadable(es[1..])
  {
    if !IsNullish(es[0]) && ItemsReadable(es[1..]) {
      forall i | 1 <= i < |es| ensures !IsNullish(es[i]) {
        assert es[i] == es[1..][i - 1];
      }
    }
  }

  /** `mapped` is `es` mapped by `f`, which succeeds on every element. */
  predicate AllMapped<A, B(==)>(es: seq<A>, f: A -> Option<B>, mapped: seq<B>) {
    |mapped| == |es| && forall i :: 0 <= i < |es| ==> f(es[i]) == Some(mapped[i])
  }

  lemma AllMappedCons<A, B>(es: seq<A>, f: A -> Option<B>, x: B, rest: seq<B>)
    requires es != [] && f(es[0]) == Some(x) && AllMapped(es[1..], f, rest)
    ensures AllMapped(es, f, [x] + rest)
  {
    var r := [x] + rest;
    forall i | 1 <= i < |es| ensures f(es[i]) == Some(r[i]) {
      assert es[i] == es[1..][i - 1] && r[i] == rest[i - 1];
    }
  }

  /** The payload's items mapped one by one; `None` when some item throws. */
  function MapItems(es: seq<Value>): (r: Option<seq<Item>>)
    ensures r.Some? <==> ItemsReadable(es)
    ensures r.Some? ==> AllMapped(es, MapItem, r.value)
  {
    if es == [] then Some([])
    else
      var h := MapItem(es[0]);
      var t := MapItems(es[1..]);
      ItemsReadableCons(es);
      if h.None? || t.None? then None
      else
        AllMappedCons(es, MapItem, h.value, t.value);
        Some([h.value] + t.value)
  }

  /** Reading the backend order `r` throws: it is null or undefined, or one of
      its items is. */
  predicate Throws(r: Value) {
    IsNullish(r) || (Get(r, "items").Arr? && !ItemsReadable(Get(r, "items").elems))
  }

  /** The view of one backend order; `None` when reading it throws. */
  function MapBackendToOrder(r: Value, enumKeys: map<string, OrderStatus>): (o: Option<Order>)
    ensures o.None? <==> Throws(r)
    ensures o.Some? ==> o.value.status == MapStatus(Get(r, "status"), enumKeys)
    ensures o.Some? && !Get(r, "items").Arr? ==> o.value.items == Some([])
    ensures o.Some? && Get(r, "items").Arr? ==> o.value.items == MapItems(Get(r, "items").elems)
    ensures o.Some? ==> o.value.restaurantAddress == Get(r, "restaurantAddress") && o.value.clientAddress == Get(r, "clientAddress")
  {
    if IsNullish(r) then None
    else
      var id := FirstField(r, ["id", "orderId"], Num(0));
      var items := if Get(r, "items").Arr? then MapItems(Get(r, "items").elems) else Some([]);
      if items.None? then None
      else Some(Order(id,
                      Coalesce(Get(r, "displayNumber"), Str(DefaultDisplayNumber(id))),
                      FirstField(r, ["date", "createdAt"], Str("")),
                      FirstField(r, ["address", "clientAddress"], Str("")),
                      Get(r, "restaurantAddress"), Get(r, "clientAddress"),
                      items, MapStatus(Get(r, "status"), enumKeys)))
  }

  /** The id is `id`, else `orderId`, else 0. */
  lemma MapBackendId(r: Value, enumKeys: map<string, OrderStatus>)
    requires MapBackendToOrder(r, enumKeys).Some?
    ensures var id := MapBackendToOrder(r, enumKeys).value.id;
      (!IsNullish(Get(r, "id")) ==> id == Get(r, "id"))
      && (IsNullish(Get(r, "id")) && !IsNullish(Get(r, "orderId")) ==> id == Get(r, "orderId"))
      && (IsNullish(Get(r, "id")) && IsNullish(Get(r, "orderId")) ==> id == Num(0))
  {
    var keys := ["id", "orderId"];
    if !IsNullish(Get(r, "id")) {
      FirstFieldIsFirstSet(r, keys, Num(0), 0);
    } else if !IsNullish(Get(r, "orderId")) {
      FirstFieldIsFirstSet(r, keys, Num(0), 1);
    } else {
      FirstFieldNoneSet(r, keys, Num(0));
    }
  }

  /** The display number, date and address of a mapped order: each the first
      of its payload fields that is set, else its default. */
  lemma MapBackendFields(r: Value, enumKeys: map<string, OrderStatus>)
    requires MapBackendToOrder(r, enumKeys).Some?
    ensures var o := MapBackendToOrder(r, enumKeys).value;
      (!IsNullish(Get(r, "displayNumber")) ==> o.displayNumber == Get(r, "displayNumber"))
      && (IsNullish(Get(r, "displayNumber")) ==> o.displayNumber == Str(DefaultDisplayNumber(o.id)))
      && (!IsNullish(Get(r, "date")) ==> o.date == Get(r, "date"))
      && (IsNullish(Get(r, "date")) && !IsNullish(Get(r, "createdAt")) ==> o.date == Get(r, "createdAt"))
      && (IsNullish(Get(r, "date")) && IsNullish(Get(r, "createdAt")) ==> o.date == Str(""))
      && (!IsNullish(Get(r, "address")) ==> o.address == Get(r, "address"))
      && (IsNullish(Get(r, "address")) && !IsNullish(Get(r, "clientAddress")) ==> o.address == Get(r, "clientAddress"))
      && (IsNullish(Get(r, "address")) && IsNullish(Get(r, "clientAddress")) ==> o.address == Str(""))
  {
    FirstFieldPair(r, "date", "createdAt", Str(""));
    FirstFieldPair(r, "address", "clientAddress", Str(""));
  }

  /** No order of `es` throws while mapped. */
  predicate Mappable(es: seq<Value>) {
    forall i :: 0 <= i < |es| ==> !Throws(es[i])
  }

  lemma MappableCons(es: seq<Value>)
    requires es != []
    ensures Mappable(es) <==> !Throws(es[0]) && Mappable(es[1..])
  {
    if !Throws(es[0]) && Mappable(es[1..]) {
      forall i | 1 <= i < |es| ensures !Throws(es[i]) {
        assert es[i] == es[1..][i - 1];
      }
    }
  }

  /** The mapping of one backend order, as a function value. */
  function OrderMapper(enumKeys: map<string, OrderStatus>): Value -> Option<Order> {
    (r: Value) => MapBackendToOrder(r, enumKeys)
  }

  /** The backend's orders mapped one by one; `None` when some order throws. */
  function MapOrders(es: seq<Value>, enumKeys: map<string, OrderStatus>): (r: Option<seq<Order>>)
    ensures r.Some? <==> Mappable(es)
    ensures r.Some? ==> AllMapped(es, OrderMapper(enumKeys), r.value)
  {
    if es == [] then Some([])
    else
      var h := MapBackendToOrder(es[0], enumKeys);
      var t := MapOrders(es[1..], enumKeys);
      MappableCons(es);
      if h.None? || t.None? then None
      else
        AllMappedCons(es, OrderMapper(enumKeys), h.value, t.value);
        Some([h.value] + t.value)
  }

  /** The available orders after the backend answered `res` (`None` for an
      error), starting from `current`: an array is mapped, anything else or an
      error empties the list, and an order that throws while mapped leaves the
      list as it was. */
  function AvailableAfterLoad(current: seq<Order>, res: Option<Value>, enumKeys: map<string, OrderStatus>): (r: seq<Order>)
    ensures res.None? || !res.value.Arr? ==> r == []
    ensures res.Some? && res.value.Arr? && !Mappable(res.value.elems) ==> r == current
    ensures res.Some? && res.value.Arr? && Mappable(res.value.elems) ==> AllMapped(res.value.elems, OrderMapper(enumKeys), r)
  {
    if res.None? || !res.value.Arr? then []
    else
      var m := MapOrders(res.value.elems, enumKeys);
      if m.None? then current else m.value
  }

  /** The courier screen's state. */
  class Motoboy {
    var pedidosDisponiveis: seq<Order>
    var inRouteOrders: seq<Order>
    var acceptedOrders: seq<Value>
    var entregasRecentes: seq<Order>
    var selectedOrder: Option<Order>
    var showCancel: bool
    var cancelTarget: Option<Order>

    predicate Valid()
      reads this
    {
      Tracked(inRouteOrders, acceptedOrders)
    }

    constructor ()
      ensures Valid()
      ensures pedidosDisponiveis == [] && inRouteOrders == [] && acceptedOrders == [] && entregasRecentes == []
      ensures selectedOrder.None? && !showCancel && cancelTarget.None?
    {
      pedidosDisponiveis, inRouteOrders, acceptedOrders, entregasRecentes := [], [], [], [];
      selectedOrder, showCancel, cancelTarget := None, false, None;
    }

    /** Takes `order` off the available list and carries it. */
    method AcceptOrder(order: Order)
      requires Valid()
      modifies this
      ensures Valid()
      ensures pedidosDisponiveis == WithoutOrder(old(pedidosDisponiveis), order.id)
      ensures inRouteOrders == [Copy(order, OnTheWay)] + old(inRouteOrders)
      ensures acceptedOrders == old(acceptedOrders) + [order.id]
      ensures entregasRecentes == old(entregasRecentes) && selectedOrder == old(selectedOrder)
      ensures showCancel == old(showCancel) && cancelTarget == old(cancelTarget)
    {
      TrackedAfterAccept(inRouteOrders, acceptedOrders, order);
      pedidosDisponiveis := WithoutOrder(pedidosDisponiveis, order.id);
      inRouteOrders := [Copy(order, OnTheWay)] + inRouteOrders;
      acceptedOrders := acceptedOrders + [order.id];
    }

    method ViewDetails(order: Order)
      modifies this
      ensures selectedOrder == Some(order)
      ensures pedidosDisponiveis == old(pedidosDisponiveis) && inRouteOrders == old(inRouteOrders)
      ensures acceptedOrders == old(acceptedOrders) && entregasRecentes == old(entregasRecentes)
      ensures showCancel == old(showCancel) && cancelTarget == old(cancelTarget)
    {
      selectedOrder := Some(order);
    }

    method CloseDetails()
      modifies this
      ensures selectedOrder.None?
      ensures pedidosDisponiveis == old(pedidosDisponiveis) && inRouteOrders == old(inRouteOrders)
      ensures acceptedOrders == old(acceptedOrders) && entregasRecentes == old(entregasRecentes)
      ensures showCancel == old(showCancel) && cancelTarget == old(cancelTarget)
    {
      selectedOrder := None;
    }

    /** Marks the carried orders with `order`'s id as on the way and closes
        the details; nothing at all without an order. */
    method StartDelivery(order: Option<Order>)
      requires Valid()
      modifies this
      ensures Valid()
      ensures order.None? ==> selectedOrder == old(selectedOrder) && inRouteOrders == old(inRouteOrders)
      ensures order.Some? ==> selectedOrder.None? && inRouteOrders == WithStatus(old(inRouteOrders), order.value.id, OnTheWay)
      ensures pedidosDisponiveis == old(pedidosDisponiveis) && acceptedOrders == old(acceptedOrders)
      ensures entregasRecentes == old(entregasRecentes)
      ensures showCancel == old(showCancel) && cancelTarget == old(cancelTarget)
    {
      if order.None? {
        return;
      }
      TrackedAfterRestatus(inRouteOrders, acceptedOrders, order.value.id, OnTheWay);
      inRouteOrders := WithStatus(inRouteOrders, order.value.id, OnTheWay);
      CloseDetails();
    }

    /** Confirms `order`'s delivery; `confirmed` is whether the backend
        accepted the status update. */
    method FinishDelivery(order: Option<Order>, confirmed: bool)
      requires Valid()
      modifies this
      ensures Valid()
      ensures order.None? ==> selectedOrder == old(selectedOrder)
      ensures order.Some? ==> selectedOrder.None?
      ensures order.Some? && confirmed ==>
        inRouteOrders == WithoutOrder(old(inRouteOrders), order.value.id)
        && acceptedOrders == WithoutId(old(acceptedOrders), order.value.id)
        && entregasRecentes == [Copy(order.value, Delivered)] + old(entregasRecentes)
      ensures order.None? || !confirmed ==>
        inRouteOrders == old(inRouteOrders) && acceptedOrders == old(acceptedOrders)
        && entregasRecentes == old(entregasRecentes)
      ensures pedidosDisponiveis == old(pedidosDisponiveis)
      ensures showCancel == old(showCancel) && cancelTarget == old(cancelTarget)
    {
      if order.None? {
        return;
      }
      var o := order.value;
      if confirmed {
        TrackedAfterRemove(inRouteOrders, acceptedOrders, o.id);
        inRouteOrders := WithoutOrder(inRouteOrders, o.id);
        acceptedOrders := WithoutId(acceptedOrders, o.id);
        entregasRecentes := [Copy(o, Delivered)] + entregasRecentes;
      }
      CloseDetails();
    }

    method OpenCancel(order: Option<Order>)
      modifies this
      ensures cancelTarget == order && showCancel
      ensures pedidosDisponiveis == old(pedidosDisponiveis) && inRouteOrders == old(inRouteOrders)
      ensures acceptedOrders == old(acceptedOrders) && entregasRecentes == old(entregasRecentes)
      ensures selectedOrder == old(selectedOrder)
    {
      cancelTarget := order;
      showCancel := true;
    }

    method CloseCancel()
      modifies this
      ensures cancelTarget.None? && !showCancel
      ensures pedidosDisponiveis == old(pedidosDisponiveis) && inRouteOrders == old(inRouteOrders)
      ensures acceptedOrders == old(acceptedOrders) && entregasRecentes == old(entregasRecentes)
      ensures selectedOrder == old(selectedOrder)
    {
      cancelTarget := None;
      showCancel := false;
    }

    /** Gives the order chosen for cancelling back to the available list, as
        pending, and stops carrying it. */
    method ConfirmCancel()
      requires Valid()
      modifies this
      ensures Valid()
      ensures cancelTarget.None? && !showCancel
      ensures old(cancelTarget).None? ==>
        pedidosDisponiveis == old(pedidosDisponiveis) && inRouteOrders == old(inRouteOrders)
        && acceptedOrders == old(acceptedOrders) && selectedOrder == old(selectedOrder)
      ensures old(cancelTarget).Some? ==>
        pedidosDisponiveis == [Copy(old(cancelTarget).value, Pending)] + old(pedidosDisponiveis)
        && inRouteOrders == WithoutOrder(old(inRouteOrders), old(cancelTarget).value.id)
        && acceptedOrders == WithoutId(old(acceptedOrders), old(cancelTarget).value.id)
        && selectedOrder.None?
      ensures entregasRecentes == old(entregasRecentes)
    {
      if cancelTarget.None? {
        CloseCancel();
        return;
      }
      var t := cancelTarget.value;
      pedidosDisponiveis := [Copy(t, Pending)] + pedidosDisponiveis;
      TrackedAfterRemove(inRouteOrders, acceptedOrders, t.id);
      inRouteOrders := WithoutOrder(inRouteOrders, t.id);
      acceptedOrders := WithoutId(acceptedOrders, t.id);
      CloseCancel();
      CloseDetails();
    }

    /** Handles the backend's answer to the request for orders ready for
        pickup; `res` is `None` when the request failed. */
    method LoadAvailableOrders(res: Option<Value>, enumKeys: map<string, OrderStatus>)
      modifies this
      ensures pedidosDisponiveis == AvailableAfterLoad(old(pedidosDisponiveis), res, enumKeys)
      ensures inRouteOrders == old(inRouteOrders) && acceptedOrders == old(acceptedOrders)
      ensures entregasRecentes == old(entregasRecentes) && selectedOrder == old(selectedOrder)
      ensures showCancel == old(showCancel) && cancelTarget == old(cancelTarget)
    {
      if res.None? || !res.value.Arr? {
        pedidosDisponiveis := [];
        return;
      }
      var m := MapOrders(res.value.elems, enumKeys);
      if m.Some? {
        pedidosDisponiveis := m.value;
      }
    }
  }
}
