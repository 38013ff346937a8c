/** The customer's order tracking screen: the total shown (items, plus the
    shipping fee passed by the previous screen when the backend has none),
    the active step, the "last update" label, the order number, the address
    line and the delivery confirmation. The tracking payload is a JavaScript
    object (`Value`); `Null` stands for "no payload yet". */
module Rastreio {
  import opened Text
  import opened JsValue
  import opened Wrappers
  import OrderTracker

  /** The field `key` of `o`, undefined when `o` is null or undefined. */
  function OptGet(o: Value, key: string): Value {
    if IsNullish(o) then Undefined else Get(o, key)
  }

  const PriceKeys: seq<string> := ["price", "preco", "unitPrice", "valor"]
  const QuantityKeys: seq<string> := ["quantity", "qty", "qtd", "qty"]

  /** An item's price in cents: the first price field that is set, 0 when
      none is or when it reads as 0 or NaN. */
  function ItemPrice(x: Value): int { AmountOr(FirstField(x, PriceKeys, Num(0)), 0) }

  /** An item's quantity: the first quantity field that is set, else 1, and 0
      when it reads as 0 or NaN. */
  function ItemQuantity(x: Value): int { NumberOr(FirstField(x, QuantityKeys, Num(1)), 0) }

  /** The sum of price times quantity over `items`; `None` once an item is
      null or undefined, whose fields cannot be read. */
  function ItemsSum(items: seq<Value>): Option<int> {
    if items == [] then Some(0)
    else
      var front := ItemsSum(items[..|items| - 1]);
      var x := items[|items| - 1];
      if front.None? || IsNullish(x) then None else Some(front.value + ItemPrice(x) * ItemQuantity(x))
  }

  /** The sum over two lists is the sum of their sums, and fails when either does. */
  lemma {:induction false} ItemsSumAppend(a: seq<Value>, b: seq<Value>)
    ensures ItemsSum(a + b).None? <==> ItemsSum(a).None? || ItemsSum(b).None?
    ensures ItemsSum(a + b).Some? ==> ItemsSum(a + b).value == ItemsSum(a).value + ItemsSum(b).value
    decreases |b|
  {
    if b == [] {
      assert a + b == a;
    } else {
      assert (a + b)[..|a + b| - 1] == a + b[..|b| - 1];
      ItemsSumAppend(a, b[..|b| - 1]);
    }
  }

  /** The sum fails exactly when some item is null or undefined. */
  lemma {:induction false} ItemsSumFails(items: seq<Value>)
    ensures ItemsSum(items).None? <==> exists i :: 0 <= i < |items| && IsNullish(items[i])
  {
    if items != [] {
      var front := items[..|items| - 1];
      ItemsSumFails(front);
      if exists i :: 0 <= i < |front| && IsNullish(front[i]) {
        var i :| 0 <= i < |front| && IsNullish(front[i]);
        assert IsNullish(items[i]);
      }
      if exists i :: 0 <= i < |items| && IsNullish(items[i]) {
        var i :| 0 <= i < |items| && IsNullish(items[i]);
        if i < |front| { assert IsNullish(front[i]); }
      }
    }
  }

  /** An item without a price field counts 0. */
  lemma ItemDefaults(x: Value)
    requires forall k :: k in PriceKeys ==> IsNullish(Get(x, k))
    ensures ItemPrice(x) == 0
  {
    FirstFieldNoneSet(x, PriceKeys, Num(0));
  }

  /** An item without a quantity field counts once. */
  lemma ItemQuantityDefault(x: Value)
    requires forall k :: k in QuantityKeys ==> IsNullish(Get(x, k))
    ensures ItemQuantity(x) == 1
  {
    FirstFieldNoneSet(x, QuantityKeys, Num(1));
  }

  /** A price written as text is read in reais: `{price: "30"}` is 3000 cents,
      as the cart reads it. */
  lemma TextPriceInReais()
    ensures ItemPrice(Obj(map["price" := Str("30")])) == 3000
  {
    var x := Obj(map["price" := Str("30")]);
    FirstFieldIsFirstSet(x, PriceKeys, Num(0), 0);
    IntegerTextRead(30);
    assert IntToString(30) == "30" by { assert 30 / 10 == 3 && 30 % 10 == 0; }
  }

  /** What `for (const it of items)` visits, `items` being `rastreio.items`
      when the payload and its items are truthy, else `[]`: the elements of
      an array, the characters of a text; `None` for any other value, which
      is not iterable. */
  function PayloadItems(rastreio: Value): (r: Option<seq<Value>>)
    ensures !Truthy(rastreio) || !Truthy(Get(rastreio, "items")) ==> r == Some([])
    ensures Truthy(rastreio) && Get(rastreio, "items").Arr? ==> r == Some(Get(rastreio, "items").elems)
    ensures r.None? <==> Truthy(rastreio) && Truthy(Get(rastreio, "items")) && !Get(rastreio, "items").Arr? && !Get(rastreio, "items").Str?
  {
    var items := if Truthy(rastreio) && Truthy(Get(rastreio, "items")) then Get(rastreio, "items") else Arr([]);
    match items
    case Arr(es) => Some(es)
    case Str(s) => Some(Characters(s))
    case _ => None
  }

  /** `computeItemsTotal()`; `None` when it throws. */
  function ItemsTotal(rastreio: Value): Option<int> {
    if PayloadItems(rastreio).None? then None else ItemsSum(PayloadItems(rastreio).value)
  }

  /** `computeItemsTotal()`, computed as the screen does; `None` when it throws. */
  method ComputeItemsTotal(rastreio: Value) returns (total: Option<int>)
    ensures total == ItemsTotal(rastreio)
  {
    var items := PayloadItems(rastreio);
    if items.None? {
      return None;
    }
    var acc := 0;
    var k := 0;
    while k < |items.value|
      invariant 0 <= k <= |items.value|
      invariant ItemsSum(items.value[..k]) == Some(acc)
    {
      var x := items.value[k];
      assert items.value[..k + 1][..k] == items.value[..k];
      if IsNullish(x) {
        ItemsSumAppend(items.value[..k + 1], items.value[k + 1..]);
        assert items.value[..k + 1] + items.value[k + 1..] == items.value;
        return None;
      }
      var p := ItemPrice(x);
      var q := ItemQuantity(x);
      acc := acc + p * q;
      k := k + 1;
    }
    assert items.value[..k] == items.value;
    total := Some(acc);
  }

  const ShippingKeys: seq<string> := ["deliveryFee", "shipping", "frete", "shippingValue", "taxaEntrega"]

  /** `backendHasShipping()` */
  predicate BackendHasShipping(rastreio: Value) {
    Truthy(rastreio) && exists i :: 0 <= i < |ShippingKeys| && !IsNullish(Get(rastreio, ShippingKeys[i]))
  }

  /** The total before shipping, in cents: the payload's total when set, else
      the items' total, and 0 when that reads as 0 or NaN; `None` when
      computing the items' total throws. */
  function BaseTotal(rastreio: Value): (r: Option<int>)
    ensures IsNullish(OptGet(rastreio, "total")) ==> r == ItemsTotal(rastreio)
    ensures !IsNullish(OptGet(rastreio, "total")) ==> r == Some(AmountOr(OptGet(rastreio, "total"), 0))
  {
    var total := OptGet(rastreio, "total");
    if !IsNullish(total) then Some(AmountOr(total, 0))
    else
      var items := ItemsTotal(rastreio);
      if items.None? then None else Some(AmountOr(Num(items.value), 0))
  }

  /** A stated total is read in reais: a number is kept, a text such as
      "12.50" is 1250 cents, and anything that is not a number counts 0. */
  lemma StatedTotalRead(rastreio: Value, whole: string, fraction: string)
    requires !IsNullish(OptGet(rastreio, "total"))
    ensures OptGet(rastreio, "total").Num? ==> BaseTotal(rastreio) == Some(OptGet(rastreio, "total").n)
    ensures ToAmount(OptGet(rastreio, "total")).NaN? ==> BaseTotal(rastreio) == Some(0)
    ensures AllDigits(whole) && AllDigits(fraction) && |whole| + |fraction| > 0 && |fraction| <= 2 && OptGet(rastreio, "total") == Str(whole + "." + fraction) ==>
      BaseTotal(rastreio) == Some(DigitsValue(whole) * 100 + DigitsValue(fraction) * Pow10(2 - |fraction|))
  {
    if AllDigits(whole) && AllDigits(fraction) && |whole| + |fraction| > 0 && |fraction| <= 2 && OptGet(rastreio, "total") == Str(whole + "." + fraction) {
      DecimalTextAmount(whole, fraction);
    }
  }

  /** `displayTotal`; `shippingFromState` is the shipping fee read from the
      navigation state (`Null` when there was none); `None` when the getter
      throws. */
  function DisplayTotal(rastreio: Value, shippingFromState: Value): (r: Option<int>)
    ensures BaseTotal(rastreio).None? ==> r.None?
    ensures BaseTotal(rastreio).Some? && (IsNullish(shippingFromState) || BackendHasShipping(rastreio)) ==> r == BaseTotal(rastreio)
    ensures BaseTotal(rastreio).Some? && !IsNullish(shippingFromState) && !BackendHasShipping(rastreio) ==>
      r == Some(BaseTotal(rastreio).value + AmountOr(shippingFromState, 0))
  {
    var base := BaseTotal(rastreio);
    if base.None? then None
    else if !IsNullish(shippingFromState) && !BackendHasShipping(rastreio) then
      OrZeroAmount(shippingFromState);
      Some(base.value + AmountOr(Or(shippingFromState, Num(0)), 0))
    else base
  }

  /** Replacing a falsy amount by 0 before reading it changes nothing. */
  lemma OrZeroAmount(v: Value)
    ensures AmountOr(Or(v, Num(0)), 0) == AmountOr(v, 0)
  {
    if !Truthy(v) {
      match v
      case Str(s) => assert s == "" && Trim(s) == "";
      case _ =>
    }
  }

  /** A fee stored by the backend, even 0, stops the state fee from being added. */
  lemma StoredZeroFeeCounts(rastreio: Value, shippingFromState: Value)
    requires rastreio.Obj? && "deliveryFee" in rastreio.fields && rastreio.fields["deliveryFee"] == Num(0)
    ensures DisplayTotal(rastreio, shippingFromState) == BaseTotal(rastreio)
  {
    assert !IsNullish(Get(rastreio, ShippingKeys[0]));
  }

  /** The status text the step bar compares: uppercased, not trimmed. */
  function StepStatus(rastreio: Value): string {
    if Truthy(rastreio) && Truthy(Get(rastreio, "status")) then Upper(ToText(Get(rastreio, "status"))) else ""
  }

  const PreparingSteps: seq<string> := ["PENDING", "RECEIVED", "PREPARING", "READY"]

  /** The step a status text stands for on this screen. */
  function StepIndexOf(s: string): (r: int)
    ensures 0 <= r <= 2
    ensures s == "" ==> r == 0
    ensures r == 2 <==> s in OrderTracker.DeliveredStatuses
    ensures r == 1 <==> s in OrderTracker.OnTheWayStatuses
  {
    if s == "" then 0
    else if s in OrderTracker.DeliveredStatuses then 2
    else if s in OrderTracker.OnTheWayStatuses then 1
    else if s in PreparingSteps then 0
    else 0
  }

  /** `activeStepIndex()` */
  function ActiveStepIndex(rastreio: Value): (r: int)
    ensures 0 <= r <= 2
  {
    StepIndexOf(StepStatus(rastreio))
  }

  /** For a status already in the tracker's normal form, this screen shows
      the tracker's step, except that the tracker's "no step" (-1) is shown as
      the first step. */
  lemma StepsSideBySide(s: string)
    requires OrderTracker.Normalize(Str(s)) == Upper(s) && s != ""
    ensures ActiveStepIndex(Obj(map["status" := Str(s)])) ==
      if OrderTracker.ActiveIndex(Str(s)) < 0 then 0 else OrderTracker.ActiveIndex(Str(s))
  {
    StatusOfText(s);
    StepsAgree(Upper(s));
  }

  lemma StatusOfText(s: string)
    requires s != ""
    ensures StepStatus(Obj(map["status" := Str(s)])) == Upper(s)
  {
    var r := Obj(map["status" := Str(s)]);
    assert Get(r, "status") == Str(s);
    assert ToText(Str(s)) == s;
  }

  /** On a non-empty status text the two step functions agree, except for
      the tracker's -1. */
  lemma StepsAgree(u: string)
    requires u != ""
    ensures StepIndexOf(u) == if OrderTracker.StepOf(u) < 0 then 0 else OrderTracker.StepOf(u)
  {
  }

  /** RECEIVED and PENDING: no step filled on the tracker, the first step here. */
  lemma ReceivedAndPendingDisagree()
    ensures OrderTracker.StepOf("RECEIVED") == -1 && StepIndexOf("RECEIVED") == 0
    ensures OrderTracker.StepOf("PENDING") == -1 && StepIndexOf("PENDING") == 0
  {
    assert "RECEIVED" in OrderTracker.NoneStatuses && "PENDING" in OrderTracker.NoneStatuses;
  }

  /** The time `new Date(ts).getTime()` gives, `None` when it is NaN. A
      number is a time in milliseconds; a text is read by `parseDate`, which
      stands for the browser's date parser. */
  function TimeOf(ts: Value, parseDate: string -> Option<int>): Option<int> {
    match ts
    case Num(n) => Some(n)
    case Bool(b) => Some(if b then 1 else 0)
    case Null => Some(0)
    case Str(s) => parseDate(s)
    case Arr(_) => parseDate(ToText(ts))
    case _ => None
  }

  /** `lastUpdateText` at the clock reading `nowMs`; `None` is null. */
  function LastUpdateText(rastreio: Value, nowMs: int, parseDate: string -> Option<int>): (r: Option<string>)
    ensures !Truthy(Coalesce(OptGet(rastreio, "updatedAt"), OptGet(rastreio, "moment"))) ==> r.None?
  {
    var ts := Coalesce(Coalesce(OptGet(rastreio, "updatedAt"), OptGet(rastreio, "moment")), Null);
    if !Truthy(ts) then None
    else
      var t := TimeOf(ts, parseDate);
      if t.None? then None
      else
        var diffMin := (nowMs - t.value) / 60000;
        if diffMin <= 0 then Some("há poucos segundos")
        else if diffMin == 1 then Some("há 1 minuto")
        else Some("há " + IntToString(diffMin) + " minutos")
  }

  /** The label by elapsed time, for a payload whose `updatedAt` is a time in
      milliseconds. */
  lemma LastUpdateBuckets(t: int, nowMs: int, parseDate: string -> Option<int>)
    requires t != 0
    ensures var r := LastUpdateText(Obj(map["updatedAt" := Num(t)]), nowMs, parseDate);
      && (nowMs - t < 60000 ==> r == Some("há poucos segundos"))
      && (60000 <= nowMs - t < 120000 ==> r == Some("há 1 minuto"))
      && (nowMs - t >= 120000 ==> r == Some("há " + IntToString((nowMs - t) / 60000) + " minutos"))
  {
    var o := Obj(map["updatedAt" := Num(t)]);
    assert OptGet(o, "updatedAt") == Num(t);
  }

  /** A payload with an invalid time shows no label. */
  lemma LastUpdateInvalid(s: string, nowMs: int, parseDate: string -> Option<int>)
    requires s != "" && parseDate(s).None?
    ensures LastUpdateText(Obj(map["updatedAt" := Str(s)]), nowMs, parseDate).None?
  {
    var o := Obj(map["updatedAt" := Str(s)]);
    assert OptGet(o, "updatedAt") == Str(s);
  }

  const OrderNumberKeys: seq<string> := ["orderId", "id", "order_id", "orderIdString"]

  /** `orderNumber`; `None` is null. */
  function OrderNumber(rastreio: Value): (r: Option<string>)
    ensures !Truthy(rastreio) ==> r.None?
    ensures Truthy(rastreio) ==>
      (r.None? <==> forall i :: 0 <= i < |OrderNumberKeys| ==> IsNullish(Get(rastreio, OrderNumberKeys[i])))
  {
    if !Truthy(rastreio) then None
    else
      FirstFieldNoneSet(rastreio, OrderNumberKeys, Null);
      var id := FirstField(rastreio, OrderNumberKeys, Null);
      if IsNullish(id) then None else Some(ToText(id))
  }

  /** The order number is the text of the first of these fields that is set. */
  lemma OrderNumberIsFirstSet(rastreio: Value, k: nat)
    requires Truthy(rastreio) && k < |OrderNumberKeys| && !IsNullish(Get(rastreio, OrderNumberKeys[k]))
    requires forall j :: 0 <= j < k ==> IsNullish(Get(rastreio, OrderNumberKeys[j]))
    ensures OrderNumber(rastreio) == Some(ToText(Get(rastreio, OrderNumberKeys[k])))
  {
    FirstFieldIsFirstSet(rastreio, OrderNumberKeys, Null, k);
  }

  /** The parts with `text` appended when `v` is truthy. */
  function PushIf(parts: seq<string>, v: Value, text: string): seq<string> {
    if Truthy(v) then parts + [text] else parts
  }

  /** The parts of an address object: street (with its number), house
      number, district, city and state, each when truthy. */
  function AddressObjectParts(addr: Value): seq<string> {
    var street := Get(addr, "logradouro");
    var number := Get(addr, "number");
    var parts := PushIf([], street, ToText(street) + (if Truthy(number) then ", " + ToText(number) else ""));
    var parts := PushIf(parts, Get(addr, "addressNumber"), ToText(Get(addr, "addressNumber")));
    var parts := PushIf(parts, Get(addr, "bairro"), ToText(Get(addr, "bairro")));
    var parts := PushIf(parts, Get(addr, "localidade"), ToText(Get(addr, "localidade")));
    PushIf(parts, Get(addr, "uf"), ToText(Get(addr, "uf")))
  }

  /** The complement: the client's when the client is truthy and it is set,
      else the address's, else null. */
  function Complement(rastreio: Value, addr: Value): Value {
    Coalesce(Coalesce(And(Get(rastreio, "client"), Get(Get(rastreio, "client"), "complement")), Get(addr, "complement")), Null)
  }

  /** An address object written out: its joined parts, followed by the
      trimmed complement in parentheses when there is one. */
  function ObjectAddressLine(rastreio: Value, addr: Value): string {
    var base := Trim(Join(AddressObjectParts(addr), ", "));
    var complement := Complement(rastreio, addr);
    if Truthy(complement) then base + " (" + Trim(ToText(complement)) + ")" else base
  }

  /** `formattedAddress`: a text address verbatim, an address object written out. */
  function FormattedAddress(rastreio: Value): (r: string)
    ensures !Truthy(rastreio) ==> r == ""
    ensures Truthy(rastreio) ==>
      var addr := Coalesce(Get(rastreio, "address"), Get(rastreio, "address_snapshot"));
      && (!Truthy(addr) ==> r == "")
      && (addr.Str? ==> r == addr.s)
      && (addr.Obj? ==> r == ObjectAddressLine(rastreio, addr))
  {
    if !Truthy(rastreio) then ""
    else
      var addr := Coalesce(Coalesce(Get(rastreio, "address"), Get(rastreio, "address_snapshot")), Null);
      if !Truthy(addr) then ""
      else if addr.Str? then addr.s
      else ObjectAddressLine(rastreio, addr)
  }

  /** The tracking screen's state that `confirmDelivery` changes. */
  class Tracking {
    var orderId: Value
    var rastreio: Value

    constructor (orderId: Value, rastreio: Value)
      ensures this.orderId == orderId && this.rastreio == rastreio
    {
      this.orderId := orderId;
      this.rastreio := rastreio;
    }

    /** Asks the backend to confirm the delivery; `ack` is its answer.
        Returns whether it was asked. */
    method ConfirmDelivery(ack: bool) returns (asked: bool)
      modifies this
      ensures asked == Truthy(old(orderId))
      ensures orderId == old(orderId)
      ensures asked && ack && old(rastreio).Obj? ==>
        rastreio == Obj(old(rastreio).fields["status" := Str("DELIVERED")])
      ensures !(asked && ack && old(rastreio).Obj?) ==> rastreio == old(rastreio)
    {
      if !Truthy(orderId) {
        return false;
      }
      asked := true;
      if ack && rastreio.Obj? {
        rastreio := Obj(rastreio.fields["status" := Str("DELIVERED")]);
      }
    }
  }

  /** After a confirmed delivery the step bar shows the last step. */
  lemma ConfirmedIsLastStep(fields: map<string, Value>)
    ensures ActiveStepIndex(Obj(fields["status" := Str("DELIVERED")])) == 2
  {
    var u := Upper("DELIVERED");
    assert u[0] == 'D' && u[1] == 'E' && u[2] == 'L' && u[3] == 'I' && u[4] == 'V';
    assert u[5] == 'E' && u[6] == 'R' && u[7] == 'E' && u[8] == 'D';
    assert StepStatus(Obj(fields["status" := Str("DELIVERED")])) == "DELIVERED";
  }
}
