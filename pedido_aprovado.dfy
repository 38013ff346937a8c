/** The "order approved" screen: from the order passed in the navigation
    state it derives the address label and the total shown, adding the
    shipping fee from the state when the order carries no truthy fee, and it
    passes the order and the fee on to the tracking screen. */
module PedidoAprovado {
  import opened Text
  import opened JsValue
  import opened Wrappers
  import Rastreio

  const DefaultLabel: string := "Casa"

  /** The complement: the client's (from `client`, else `clientDTO`), else
      the order address's, else ''. */
  function Complement(order: Value): Value {
    var client := Coalesce(Coalesce(Get(order, "client"), Get(order, "clientDTO")), Null);
    var fromAddress := And(And(order, Get(order, "address")), Get(Get(order, "address"), "complement"));
    Coalesce(Coalesce(And(client, Get(client, "complement")), fromAddress), Str(""))
  }

  /** The address label: the trimmed complement when it is not blank, else
      `Casa`. */
  function AddressLabel(order: Value): string {
    var c := Complement(order);
    var t := Trim(ToText(Or(c, Str(""))));
    if |t| > 0 then Trim(ToText(c)) else DefaultLabel
  }

  /** The label is never empty: a falsy complement gives `Casa`, a non-blank
      one its trimmed text. */
  lemma AddressLabelCases(order: Value)
    ensures AddressLabel(order) != ""
    ensures !Truthy(Complement(order)) ==> AddressLabel(order) == DefaultLabel
    ensures Truthy(Complement(order)) && Trim(ToText(Complement(order))) != "" ==>
      AddressLabel(order) == Trim(ToText(Complement(order)))
  {
  }

  const TotalKeys: seq<string> := ["total", "price", "amount", "valor"]

  /** A candidate total is used when it is set and converts to a number. */
  predicate IsNumericTotal(t: Value) { !IsNullish(t) && ToAmount(t).Num? }

  /** The first candidate that is numeric, as an amount in cents. */
  function FirstNumeric(ts: seq<Value>): (r: Option<int>)
    ensures r.None? <==> forall i :: 0 <= i < |ts| ==> !IsNumericTotal(ts[i])
  {
    if ts == [] then None
    else if IsNumericTotal(ts[0]) then Some(ToAmount(ts[0]).n)
    else FirstNumeric(ts[1..])
  }

  /** `FirstNumeric` picks the first numeric candidate. */
  lemma {:induction false} FirstNumericIsFirst(ts: seq<Value>, k: nat)
    requires k < |ts| && IsNumericTotal(ts[k])
    requires forall j :: 0 <= j < k ==> !IsNumericTotal(ts[j])
    ensures FirstNumeric(ts) == Some(ToAmount(ts[k]).n)
  {
    if k > 0 {
      FirstNumericIsFirst(ts[1..], k - 1);
    }
  }

  /** The loop over `possibleTotals` that stops at the first numeric one. */
  method FirstNumericTotal(order: Value) returns (totalNum: Option<int>)
    ensures totalNum == FirstNumeric(Fields(order, TotalKeys))
  {
    var possibleTotals := Fields(order, TotalKeys);
    totalNum := None;
    var k := 0;
    while k < |possibleTotals|
      invariant 0 <= k <= |possibleTotals|
      invariant forall j :: 0 <= j < k ==> !IsNumericTotal(possibleTotals[j])
    {
      var t := possibleTotals[k];
      if !IsNullish(t) && !ToAmount(t).NaN? {
        totalNum := Some(ToAmount(t).n);
        assert IsNumericTotal(possibleTotals[k]);
        FirstNumericIsFirst(possibleTotals, k);
        break;
      }
      assert !IsNumericTotal(possibleTotals[k]);
      k := k + 1;
    }
  }

  const PriceKeys: seq<string> := ["price", "unitPrice", "preco", "valor"]
  const QuantityKeys: seq<string> := ["quantity", "qty", "quantidade"]

  /** One item's amount in cents: its price times its quantity, each 0 when
      it reads as 0 or NaN; `None` when the item is null or undefined, whose
      fields cannot be read. */
  function ItemAmount(it: Value): (r: Option<int>)
    ensures r.None? <==> IsNullish(it)
  {
    if IsNullish(it) then None
    else Some(AmountOr(FirstField(it, PriceKeys, Num(0)), 0) * NumberOr(FirstField(it, QuantityKeys, Num(1)), 0))
  }

  /** The running sum of some amounts, `None` once one of them is missing. */
  function SumAmounts(xs: seq<Option<int>>): Option<int> {
    if xs == [] then Some(0)
    else
      var front := SumAmounts(xs[..|xs| - 1]);
      var last := xs[|xs| - 1];
      if front.None? || last.None? then None else Some(front.value + last.value)
  }

  /** The amounts of the items, in order. */
  function Amounts(items: seq<Value>): (r: seq<Option<int>>)
    ensures |r| == |items| && forall i :: 0 <= i < |items| ==> r[i] == ItemAmount(items[i])
  {
    seq(|items|, i requires 0 <= i < |items| => ItemAmount(items[i]))
  }

  /** The sum of the item amounts, `None` when some item cannot be read. */
  function ItemsSum(items: seq<Value>): Option<int> {
    SumAmounts(Amounts(items))
  }

  lemma {:induction false} SumAmountsFails(xs: seq<Option<int>>)
    ensures SumAmounts(xs).None? <==> exists i :: 0 <= i < |xs| && xs[i].None?
  {
    if xs != [] {
      var front := xs[..|xs| - 1];
      SumAmountsFails(front);
      if exists i :: 0 <= i < |front| && front[i].None? {
        var i :| 0 <= i < |front| && front[i].None?;
        assert xs[i].None?;
      }
      if exists i :: 0 <= i < |xs| && xs[i].None? {
        var i :| 0 <= i < |xs| && xs[i].None?;
        if i < |front| { assert front[i].None?; }
      }
    }
  }

  /** The sum fails exactly when some item is null or undefined. */
  lemma ItemsSumFails(items: seq<Value>)
    ensures ItemsSum(items).None? <==> exists i :: 0 <= i < |items| && IsNullish(items[i])
  {
    var xs := Amounts(items);
    SumAmountsFails(xs);
    if exists i :: 0 <= i < |items| && IsNullish(items[i]) {
      var i :| 0 <= i < |items| && IsNullish(items[i]);
      assert xs[i].None?;
    }
    if exists i :: 0 <= i < |xs| && xs[i].None? {
      var i :| 0 <= i < |xs| && xs[i].None?;
      assert IsNullish(items[i]);
    }
  }

  /** One missing amount makes the sum fail. */
  lemma SumAmountsMissing(xs: seq<Option<int>>, k: int)
    requires 0 <= k < |xs| && xs[k].None?
    ensures SumAmounts(xs).None?
  {
    SumAmountsFails(xs);
  }

  /** Summing one more amount adds it. */
  lemma SumAmountsStep(xs: seq<Option<int>>, k: int, sum: int, x: int)
    requires 0 <= k < |xs| && SumAmounts(xs[..k]) == Some(sum) && xs[k] == Some(x)
    ensures SumAmounts(xs[..k + 1]) == Some(sum + x)
  {
    assert xs[..k + 1][..k] == xs[..k];
    assert xs[..k + 1][k] == xs[k];
  }

  /** What the loop over the order's items visits: the elements of an array,
      the characters of a text, nothing for a falsy value; `None` for any
      other value, which is not iterable. */
  function IteratedItems(order: Value): Option<seq<Value>> {
    var items := Or(Get(order, "items"), Arr([]));
    match items
    case Arr(es) => Some(es)
    case Str(s) => Some(Characters(s))
    case _ => None
  }

  /** The accumulation loop over the items. */
  method SumItems(items: seq<Value>) returns (acc: Option<int>)
    ensures acc == ItemsSum(items)
  {
    ghost var xs := Amounts(items);
    var sum := 0;
    var k := 0;
    while k < |items|
      invariant 0 <= k <= |items|
      invariant SumAmounts(xs[..k]) == Some(sum)
    {
      var it := items[k];
      if IsNullish(it) {
        assert xs[k].None?;
        SumAmountsMissing(xs, k);
        return None;
      }
      var amount := ItemAmount(it);
      assert xs[k] == amount;
      SumAmountsStep(xs, k, sum, amount.value);
      sum := sum + amount.value;
      k := k + 1;
    }
    assert xs[..k] == xs;
    return Some(sum);
  }

  /** The stated total, else the loop over the items. */
  method ComputeBaseTotal(order: Value) returns (totalNum: Option<int>)
    ensures totalNum == BaseTotal(order)
  {
    totalNum := FirstNumericTotal(order);
    if totalNum.None? {
      var items := IteratedItems(order);
      if items.Some? {
        totalNum := SumItems(items.value);
      }
    }
  }

  const ShippingKeys: seq<string> := ["deliveryFee", "shipping", "frete", "shippingValue", "taxaEntrega"]

  /** The first fee field of the order that is set is truthy. */
  predicate BackendHasShipping(order: Value) { Truthy(FirstField(order, ShippingKeys, Undefined)) }

  /** `totalNum` when the order states a total: the first numeric one of
      `total`, `price`, `amount` and `valor`. */
  function StatedTotal(order: Value): Option<int> {
    FirstNumeric(Fields(order, TotalKeys))
  }

  /** The total before the state's fee: the stated total, else the sum of the
      items; `None` when reading the items fails. */
  function BaseTotal(order: Value): Option<int> {
    if StatedTotal(order).Some? then StatedTotal(order)
    else if IteratedItems(order).None? then None
    else ItemsSum(IteratedItems(order).value)
  }

  /** The fee step applied to a base total. */
  function WithStateFee(total: Option<int>, order: Value, shippingFromState: Value): Option<int> {
    if total.None? then None
    else if !IsNullish(shippingFromState) && !BackendHasShipping(order) then Some(total.value + AmountOr(Or(shippingFromState, Num(0)), 0))
    else total
  }

  /** The total before formatting: the state's fee is added when the order
      has no truthy fee of its own; `None` leaves the initial text in place. */
  function ApprovedTotal(order: Value, shippingFromState: Value): Option<int> {
    WithStateFee(BaseTotal(order), order, shippingFromState)
  }

  /** The fee from the state is added once, 0 when it reads as 0 or NaN, and
      only when it is set and the order has no truthy fee of its own. */
  lemma WithStateFeeCases(total: Option<int>, order: Value, shippingFromState: Value)
    ensures total.None? ==> WithStateFee(total, order, shippingFromState).None?
    ensures total.Some? && !IsNullish(shippingFromState) && !BackendHasShipping(order) ==>
      WithStateFee(total, order, shippingFromState) == Some(total.value + AmountOr(shippingFromState, 0))
    ensures total.Some? && (IsNullish(shippingFromState) || BackendHasShipping(order)) ==>
      WithStateFee(total, order, shippingFromState) == total
  {
    Rastreio.OrZeroAmount(shippingFromState);
  }

  /** A fee of 0 stored with the order counts as no fee here, while the
      tracking screen counts it as a fee: with a total of 1000 and a fee of 500
      in the state, this screen shows 1500 and the tracking screen 1000. */
  lemma ZeroFeeRulesDiffer()
    ensures var order := Obj(map["total" := Num(1000), "deliveryFee" := Num(0)]);
      ApprovedTotal(order, Num(500)) == Some(1500)
      && Rastreio.DisplayTotal(order, Num(500)) == Some(1000)
  {
    var order := Obj(map["total" := Num(1000), "deliveryFee" := Num(0)]);
    FirstNumericIsFirst(Fields(order, TotalKeys), 0);
    assert BaseTotal(order) == Some(1000);
    FirstFieldIsFirstSet(order, ShippingKeys, Undefined, 0);
    WithStateFeeCases(BaseTotal(order), order, Num(500));
    Rastreio.StoredZeroFeeCounts(order, Num(500));
    assert Rastreio.OptGet(order, "total") == Num(1000);
  }

  /** The navigation state handed to the tracking screen. */
  function TrackingState(order: Value, shippingFromState: Value): (r: Value)
    ensures Get(r, "order") == order
    ensures IsNullish(shippingFromState) <==> Get(r, "shipping").Undefined?
    ensures !IsNullish(shippingFromState) ==> Get(r, "shipping") == shippingFromState
  {
    if IsNullish(shippingFromState) then Obj(map["order" := order])
    else Obj(map["order" := order, "shipping" := shippingFromState])
  }

  /** The state's order when it is truthy, else null. */
  function OrderOf(navState: Value): Value { Or(Get(navState, "order"), Null) }

  /** The state's fee: its shipping read in cents when it is set, else null. */
  function ShippingOf(navState: Value): (r: Value)
    ensures IsNullish(r) <==> IsNullish(Get(navState, "shipping"))
    ensures !IsNullish(Get(navState, "shipping")) ==> r == ToAmount(Get(navState, "shipping"))
  {
    if IsNullish(Get(navState, "shipping")) then Null else ToAmount(Get(navState, "shipping"))
  }

  /** The label shown for the order given: `Casa` when there is none. */
  function ShownLabel(order: Value): string {
    if Truthy(order) then AddressLabel(order) else DefaultLabel
  }

  /** The total shown for `order`: none without an order, which leaves the
      initial text in place. */
  function ShownTotal(order: Value, shippingFromState: Value): Option<int> {
    if Truthy(order) then ApprovedTotal(order, shippingFromState) else None
  }

  /** The base total, then the state's fee, computed as the screen does. */
  method ComputeShownTotal(order: Value, shippingFromState: Value) returns (shown: Option<int>)
    ensures shown == ShownTotal(order, shippingFromState)
  {
    shown := None;
    if Truthy(order) {
      var totalNum := ComputeBaseTotal(order);
      shown := WithStateFee(totalNum, order, shippingFromState);
    }
  }

  class Approved {
    var order: Value
    var displayAddressLabel: string
    /** The total shown, before currency formatting; `None` is the initial 'R$0,00'. */
    var displayTotal: Option<int>
    var shippingFromState: Value

    /** Reads the navigation state `navState` (`{}` when there is none). */
    constructor (navState: Value)
      ensures order == OrderOf(navState) && shippingFromState == ShippingOf(navState)
      ensures displayAddressLabel == ShownLabel(order)
      ensures displayTotal == ShownTotal(order, shippingFromState)
    {
      var o := OrderOf(navState);
      var shipping := ShippingOf(navState);
      var shown := ComputeShownTotal(o, shipping);
      order := o;
      shippingFromState := shipping;
      displayAddressLabel := ShownLabel(o);
      displayTotal := shown;
    }

    /** The navigation state `rastrear` passes on. */
    method Rastrear() returns (state: Value)
      ensures state == TrackingState(order, shippingFromState)
    {
      if !IsNullish(shippingFromState) {
        state := Obj(map["order" := order, "shipping" := shippingFromState]);
      } else {
        state := Obj(map["order" := order]);
      }
    }
  }
}
