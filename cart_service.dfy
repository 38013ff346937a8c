/** The shared shopping cart: lines keyed by the text of their dish id, a
    repeated dish adding to its line's quantity. Prices are in cents. */
module CartService {
  import opened Text
  import opened JsValue
  import opened Money
  import opened Lists

  /** A cart line; `images` holds the image fields copied from the added item. */
  datatype Line = Line(dishId: Value, id: Value, name: Value, price: int, quantity: int, images: map<string, Value>)

  /** An added item with its fields found under their alternative names. */
  datatype Normalized = Normalized(dishId: Value, id: Value, name: Value, price: int, quantity: int)

  /** The characters the price text keeps: digits, ',', '.' and '-'. */
  predicate IsPriceChar(c: char) { IsDigit(c) || c == ',' || c == '.' || c == '-' }

  /** The price of a line, in cents, from the raw price value: a number as it
      is; any other value read from its text with everything but digits, ',',
      '.' and '-' dropped and the first ',' read as the decimal point; 0 when
      that reads as no number. */
  function LinePrice(raw: Value): (r: int)
    ensures raw.Num? ==> r == raw.n
    ensures raw.NaN? ==> r == 0
  {
    if raw.Num? then raw.n
    else if raw.NaN? then 0
    else
      var p := ParseFloatCents(ReplaceFirst(Select(ToText(raw), IsPriceChar), ",", "."));
      if p.Num? then p.n else 0
  }

  /** `normalize`, then the fallback of a missing dish id to the id, then the name. */
  function Normalize(item: Value): (r: Normalized)
    ensures !IsNullish(r.dishId)
    ensures r.quantity != 0
  {
    var dishId := Coalesce(Get(item, "dishId"), Coalesce(Get(item, "id"), Null));
    var id := Coalesce(Get(item, "id"), dishId);
    var name := FirstField(item, ["name", "nome", "title"], Str(""));
    var price := LinePrice(FirstField(item, ["price", "preco", "valor"], Num(0)));
    var quantity := NumberOr(FirstField(item, ["quantity", "quantidade"], Num(1)), 1);
    Normalized(if IsNullish(dishId) then Coalesce(id, name) else dishId, id, name, price, quantity)
  }

  /** The dish id is `dishId`, else `id`, else the name. */
  lemma NormalizeDishId(item: Value)
    ensures !IsNullish(Get(item, "dishId")) ==> Normalize(item).dishId == Get(item, "dishId")
    ensures IsNullish(Get(item, "dishId")) && !IsNullish(Get(item, "id")) ==> Normalize(item).dishId == Get(item, "id")
    ensures IsNullish(Get(item, "dishId")) && IsNullish(Get(item, "id")) ==>
      Normalize(item).dishId == FirstField(item, ["name", "nome", "title"], Str(""))
  {
  }

  /** A quantity that reads as 0 or as no number becomes 1. */
  lemma NormalizeQuantity(item: Value)
    ensures var q := ToNumber(FirstField(item, ["quantity", "quantidade"], Num(1)));
      (q.NaN? || q == Num(0) ==> Normalize(item).quantity == 1)
      && (q.Num? && q.n != 0 ==> Normalize(item).quantity == q.n)
  {
  }

  /** The key lines are merged by: the text of the dish id. */
  function Key(l: Line): string { ToText(l.dishId) }

  /** No two lines share a key. */
  predicate UniqueKeys(lines: seq<Line>) {
    forall i, j :: 0 <= i < j < |lines| ==> Key(lines[i]) != Key(lines[j])
  }

  function IndexOfKey(lines: seq<Line>, key: string): (r: int)
    ensures -1 <= r < |lines|
    ensures r >= 0 ==> Key(lines[r]) == key && forall k :: 0 <= k < r ==> Key(lines[k]) != key
    ensures r == -1 ==> forall k :: 0 <= k < |lines| ==> Key(lines[k]) != key
  {
    if lines == [] then -1
    else if Key(lines[0]) == key then 0
    else var k := IndexOfKey(lines[1..], key); if k == -1 then -1 else k + 1
  }

  /** The image fields of `item` that are set, copied onto a new line. */
  function Images(item: Value): (r: map<string, Value>)
    ensures forall k :: k in r <==> k in {"image", "UrlImage", "urlImage", "urlImagem"} && Truthy(Get(item, k))
    ensures forall k :: k in r ==> r[k] == Get(item, k)
  {
    map k | k in {"image", "UrlImage", "urlImage", "urlImagem"} && Truthy(Get(item, k)) :: Get(item, k)
  }

  function NewLine(item: Value): Line {
    var n := Normalize(item);
    Line(n.dishId, n.id, n.name, n.price, n.quantity, Images(item))
  }

  /** The cart after `adicionar(item)`. */
  function Added(lines: seq<Line>, item: Value): (r: seq<Line>)
    ensures !Truthy(item) ==> r == lines
    ensures Truthy(item) ==> |r| == |lines| || r == lines + [NewLine(item)]
  {
    if !Truthy(item) then lines
    else MergeLine(lines, ToText(Normalize(item).dishId), Normalize(item).quantity, NewLine(item))
  }

  /** The lines after merging a quantity `q` under `key`: added to the line
      with that key, else `added` appended. */
  function MergeLine(lines: seq<Line>, key: string, q: int, added: Line): (r: seq<Line>)
    ensures |r| == |lines| || r == lines + [added]
  {
    var k := IndexOfKey(lines, key);
    if k >= 0 then lines[k := lines[k].(quantity := lines[k].quantity + q)]
    else lines + [added]
  }

  /** Adding an item whose key is already in the cart adds its quantity to that
      line and changes nothing else. */
  lemma AddedExisting(lines: seq<Line>, item: Value, k: nat)
    requires UniqueKeys(lines) && Truthy(item)
    requires k < |lines| && Key(lines[k]) == ToText(Normalize(item).dishId)
    ensures |Added(lines, item)| == |lines|
    ensures Added(lines, item)[k] == lines[k].(quantity := lines[k].quantity + Normalize(item).quantity)
    ensures forall j :: 0 <= j < |lines| && j != k ==> Added(lines, item)[j] == lines[j]
  {
    var n := Normalize(item);
    MergeLineExisting(lines, ToText(n.dishId), n.quantity, NewLine(item), k);
  }

  lemma MergeLineExisting(lines: seq<Line>, key: string, q: int, added: Line, k: nat)
    requires UniqueKeys(lines) && k < |lines| && Key(lines[k]) == key
    ensures MergeLine(lines, key, q, added) == lines[k := lines[k].(quantity := lines[k].quantity + q)]
  {
    IndexOfUniqueKey(lines, k);
  }

  /** With unique keys, a line's key is found at that line. */
  lemma {:induction false} IndexOfUniqueKey(lines: seq<Line>, k: nat)
    requires UniqueKeys(lines) && k < |lines|
    ensures IndexOfKey(lines, Key(lines[k])) == k
  {
    if k > 0 {
      assert Key(lines[0]) != Key(lines[k]);
      assert lines[1..][k - 1] == lines[k];
      IndexOfUniqueKey(lines[1..], k - 1);
    }
  }

  /** Adding an item with a new key appends exactly one line, at the end. */
  lemma AddedNew(lines: seq<Line>, item: Value)
    requires Truthy(item)
    requires forall j :: 0 <= j < |lines| ==> Key(lines[j]) != ToText(Normalize(item).dishId)
    ensures Added(lines, item) == lines + [NewLine(item)]
    ensures Key(NewLine(item)) == ToText(Normalize(item).dishId)
  {
  }

  /** After adding, some line has the item's key. */
  lemma AddedHasKey(lines: seq<Line>, item: Value)
    requires Truthy(item)
    ensures exists j :: 0 <= j < |Added(lines, item)| && Key(Added(lines, item)[j]) == ToText(Normalize(item).dishId)
  {
    var r := Added(lines, item);
    var k := IndexOfKey(lines, ToText(Normalize(item).dishId));
    if k >= 0 {
      assert Key(r[k]) == Key(lines[k]);
    } else {
      assert Key(r[|lines|]) == ToText(Normalize(item).dishId);
    }
  }

  /** Adding keeps the keys unique. */
  lemma AddedKeepsUnique(lines: seq<Line>, item: Value)
    requires UniqueKeys(lines)
    ensures UniqueKeys(Added(lines, item))
  {
    if Truthy(item) {
      var n := Normalize(item);
      assert Key(NewLine(item)) == ToText(n.dishId);
      MergeLineKeepsUnique(lines, ToText(n.dishId), n.quantity, NewLine(item));
    }
  }

  lemma MergeLineKeepsUnique(lines: seq<Line>, key: string, q: int, added: Line)
    requires UniqueKeys(lines) && Key(added) == key
    ensures UniqueKeys(MergeLine(lines, key, q, added))
  {
    var r := MergeLine(lines, key, q, added);
    var k := IndexOfKey(lines, key);
    if k >= 0 {
      forall i, j | 0 <= i < j < |r| ensures Key(r[i]) != Key(r[j]) {
        assert Key(r[i]) == Key(lines[i]) && Key(r[j]) == Key(lines[j]);
      }
    } else {
      assert Key(r[|lines|]) == key;
    }
  }

  /** The key `remover` and `atualizarQuantidade` look for, when the item names one. */
  function TargetKey(item: Value): Value {
    Coalesce(Get(item, "dishId"), Coalesce(Get(item, "id"), Null))
  }

  /** The lines whose key is not `key`. */
  function WithoutKey(lines: seq<Line>, key: string): (r: seq<Line>)
    ensures SubseqOf(r, lines)
    ensures forall i :: 0 <= i < |r| ==> Key(r[i]) != key
    ensures forall i :: 0 <= i < |lines| && Key(lines[i]) != key ==> lines[i] in r
    ensures forall l :: multiset(r)[l] == if Key(l) != key then multiset(lines)[l] else 0
  {
    FilterIsSubseq(lines, (l: Line) => Key(l) != key);
    FilterCount(lines, (l: Line) => Key(l) != key);
    Filter(lines, (l: Line) => Key(l) != key)
  }

  lemma WithoutKeyKeepsUnique(lines: seq<Line>, key: string)
    requires UniqueKeys(lines)
    ensures UniqueKeys(WithoutKey(lines, key))
  {
    var r := WithoutKey(lines, key);
    SubseqUnique(r, lines);
  }

  lemma {:induction false} SubseqUnique(r: seq<Line>, s: seq<Line>)
    requires SubseqOf(r, s) && UniqueKeys(s)
    ensures UniqueKeys(r)
    decreases |s|
  {
    if r != [] {
      if r[0] == s[0] && SubseqOf(r[1..], s[1..]) {
        SubseqUnique(r[1..], s[1..]);
        SubseqElements(r[1..], s[1..]);
        forall j | 0 < j < |r| ensures Key(r[0]) != Key(r[j]) {
          assert r[j] == r[1..][j - 1];
          var k :| 0 <= k < |s[1..]| && s[1..][k] == r[j];
          assert s[k + 1] == r[j];
        }
        forall i, j | 0 <= i < j < |r| ensures Key(r[i]) != Key(r[j]) {
          if i > 0 {
            assert r[i] == r[1..][i - 1] && r[j] == r[1..][j - 1];
          }
        }
      } else {
        SubseqUnique(r, s[1..]);
      }
    }
  }

  lemma {:induction false} SubseqElements<T>(r: seq<T>, s: seq<T>)
    requires SubseqOf(r, s)
    ensures forall i :: 0 <= i < |r| ==> exists k :: 0 <= k < |s| && s[k] == r[i]
    decreases |s|
  {
    if r != [] {
      if r[0] == s[0] && SubseqOf(r[1..], s[1..]) {
        SubseqElements(r[1..], s[1..]);
        forall i | 0 < i < |r| ensures exists k :: 0 <= k < |s| && s[k] == r[i] {
          assert r[i] == r[1..][i - 1];
          var k :| 0 <= k < |s[1..]| && s[1..][k] == r[1..][i - 1];
          assert s[k + 1] == r[i];
        }
        assert s[0] == r[0];
      } else {
        SubseqElements(r, s[1..]);
        forall i | 0 <= i < |r| ensures exists k :: 0 <= k < |s| && s[k] == r[i] {
          var k :| 0 <= k < |s[1..]| && s[1..][k] == r[i];
          assert s[k + 1] == r[i];
        }
      }
    }
  }

  /** The cart after `remover(item)`: every line with the item's key goes when
      the item names a key; otherwise nothing changes (the lines are private
      copies, so the search by reference never finds one). */
  function Removed(lines: seq<Line>, item: Value): (r: seq<Line>)
    ensures !Truthy(item) || IsNullish(TargetKey(item)) ==> r == lines
    ensures Truthy(item) && !IsNullish(TargetKey(item)) ==>
      SubseqOf(r, lines)
      && (forall i :: 0 <= i < |r| ==> Key(r[i]) != ToText(TargetKey(item)))
      && (forall i :: 0 <= i < |lines| && Key(lines[i]) != ToText(TargetKey(item)) ==> lines[i] in r)
      && (forall l :: multiset(r)[l] == if Key(l) != ToText(TargetKey(item)) then multiset(lines)[l] else 0)
  {
    if !Truthy(item) || IsNullish(TargetKey(item)) then lines
    else WithoutKey(lines, ToText(TargetKey(item)))
  }

  /** The cart after `atualizarQuantidade(item, quantidade)`: the line with the
      item's key is dropped for a quantity of at most 0 and otherwise takes
      that quantity; nothing changes when no line has the key. */
  function QuantitySet(lines: seq<Line>, item: Value, quantidade: int): (r: seq<Line>)
    ensures !Truthy(item) || IsNullish(TargetKey(item)) ==> r == lines
    ensures Truthy(item) && !IsNullish(TargetKey(item)) && quantidade <= 0 ==>
      (forall i :: 0 <= i < |r| ==> Key(r[i]) != ToText(TargetKey(item)))
      && (forall i :: 0 <= i < |lines| && Key(lines[i]) != ToText(TargetKey(item)) ==> lines[i] in r)
    ensures Truthy(item) && !IsNullish(TargetKey(item)) && IndexOfKey(lines, ToText(TargetKey(item))) == -1 ==> r == lines
    ensures quantidade <= 0 ==> SubseqOf(r, lines)
    ensures quantidade > 0 ==> |r| == |lines|
  {
    PrefixIsSubseq(lines, |lines|);
    assert lines[..|lines|] == lines;
    if !Truthy(item) || IsNullish(TargetKey(item)) then lines
    else
      var key := ToText(TargetKey(item));
      var k := IndexOfKey(lines, key);
      if k == -1 then lines
      else if quantidade <= 0 then WithoutKey(lines, key)
      else lines[k := lines[k].(quantity := quantidade)]
  }

  /** With a positive quantity only the line with the key changes, and only its
      quantity. */
  lemma QuantitySetPositive(lines: seq<Line>, item: Value, quantidade: int, k: nat)
    requires Truthy(item) && !IsNullish(TargetKey(item)) && quantidade > 0
    requires k < |lines| && Key(lines[k]) == ToText(TargetKey(item))
    requires UniqueKeys(lines)
    ensures |QuantitySet(lines, item, quantidade)| == |lines|
    ensures QuantitySet(lines, item, quantidade)[k].quantity == quantidade
    ensures QuantitySet(lines, item, quantidade)[k] == lines[k].(quantity := quantidade)
    ensures forall j :: 0 <= j < |lines| && j != k ==> QuantitySet(lines, item, quantidade)[j] == lines[j]
  {
    assert IndexOfKey(lines, ToText(TargetKey(item))) == k;
  }

  lemma QuantitySetKeepsUnique(lines: seq<Line>, item: Value, quantidade: int)
    requires UniqueKeys(lines)
    ensures UniqueKeys(QuantitySet(lines, item, quantidade))
  {
    if Truthy(item) && !IsNullish(TargetKey(item)) {
      var key := ToText(TargetKey(item));
      var k := IndexOfKey(lines, key);
      if k != -1 {
        if quantidade <= 0 {
          WithoutKeyKeepsUnique(lines, key);
        } else {
          var r := QuantitySet(lines, item, quantidade);
          forall i, j | 0 <= i < j < |r| ensures Key(r[i]) != Key(r[j]) {
            assert Key(r[i]) == Key(lines[i]) && Key(r[j]) == Key(lines[j]);
          }
        }
      }
    }
  }

  /** `findIndex` by key, as the service's `find` runs it. */
  method FindKey(lines: seq<Line>, key: string) returns (idx: int)
    ensures idx == IndexOfKey(lines, key)
  {
    var k := 0;
    while k < |lines|
      invariant 0 <= k <= |lines|
      invariant forall j :: 0 <= j < k ==> Key(lines[j]) != key
    {
      if Key(lines[k]) == key {
        return k;
      }
      k := k + 1;
    }
    return -1;
  }

  class CarrinhoService {
    var items: seq<Line>

    predicate Valid()
      reads this
    {
      UniqueKeys(items)
    }

    constructor ()
      ensures items == [] && Valid()
    {
      items := [];
    }

    method Adicionar(item: Value)
      requires Valid()
      modifies this
      ensures Valid()
      ensures items == Added(old(items), item)
    {
      AddedKeepsUnique(items, item);
      if Truthy(item) {
        var n := Normalize(item);
        MergeInto(ToText(n.dishId), n.quantity, NewLine(item));
      }
    }

    /** The body of `adicionar` once the item is normalised: the line with
        `key` gets `q` more, else `added` is pushed. */
    method MergeInto(key: string, q: int, added: Line)
      modifies this
      ensures items == MergeLine(old(items), key, q, added)
    {
      var k := FindKey(items, key);
      if k >= 0 {
        items := items[k := items[k].(quantity := items[k].quantity + q)];
      } else {
        items := items + [added];
      }
    }

    /** A copy of the lines. */
    method Listar() returns (r: seq<Line>)
      ensures r == items
    {
      r := items;
    }

    method Remover(item: Value)
      requires Valid()
      modifies this
      ensures Valid()
      ensures items == Removed(old(items), item)
    {
      if !Truthy(item) {
        return;
      }
      var target := TargetKey(item);
      if !IsNullish(target) {
        WithoutKeyKeepsUnique(items, ToText(target));
        items := WithoutKey(items, ToText(target));
      }
    }

    method Clear()
      modifies this
      ensures items == [] && Valid()
    {
      items := [];
    }

    method AtualizarQuantidade(item: Value, quantidade: int)
      requires Valid()
      modifies this
      ensures Valid()
      ensures items == QuantitySet(old(items), item, quantidade)
    {
      QuantitySetKeepsUnique(items, item, quantidade);
      if !Truthy(item) {
        return;
      }
      var target := TargetKey(item);
      if IsNullish(target) {
        return;
      }
      var k := FindKey(items, ToText(target));
      if k == -1 {
        return;
      }
      if quantidade <= 0 {
        items := WithoutKey(items, ToText(target));
        return;
      }
      items := items[k := items[k].(quantity := quantidade)];
    }
  }
}
