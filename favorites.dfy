/** The customer's favourite dishes, kept as the items themselves and
    identified by the text of their `id`. */
module Favorites {
  import opened JsValue
  import opened Lists

  /** The text an entry is identified by: its id written as text. */
  function IdText(entry: Value): string { ToText(Get(entry, "id")) }

  /** The id texts of the entries, in order. */
  function Keys(items: seq<Value>): (r: seq<string>)
    ensures |r| == |items| && forall i :: 0 <= i < |items| ==> r[i] == IdText(items[i])
  {
    seq(|items|, i requires 0 <= i < |items| => IdText(items[i]))
  }

  /** `isFavorite(id)` over the entries `items`. */
  predicate IsFavoriteIn(items: seq<Value>, id: Value) {
    !IsNullish(id) && ToText(id) in Keys(items)
  }

  /** No two entries share an id text. */
  predicate UniqueIds(items: seq<Value>) {
    Distinct(Keys(items))
  }

  function IndexOfId(items: seq<Value>, key: string): (r: int)
    ensures -1 <= r < |items|
    ensures r >= 0 ==> IdText(items[r]) == key && forall k :: 0 <= k < r ==> IdText(items[k]) != key
    ensures r == -1 ==> key !in Keys(items)
  {
    if items == [] then -1
    else if IdText(items[0]) == key then 0
    else var k := IndexOfId(items[1..], key); if k == -1 then -1 else k + 1
  }

  /** `toggle` acts only on a truthy item whose `id` is neither undefined nor null. */
  predicate Toggles(item: Value) {
    Truthy(item) && !IsNullish(Get(item, "id"))
  }

  /** The entries after `toggle(item)`: the first entry with the item's id
      text is removed if there is one, else the item is appended. */
  function Toggled(items: seq<Value>, item: Value): seq<Value> {
    if !Toggles(item) then items
    else
      var k := IndexOfId(items, IdText(item));
      if k >= 0 then RemoveAt(items, k) else items + [item]
  }

  lemma KeysRemoveAt(items: seq<Value>, k: nat)
    requires k < |items|
    ensures Keys(RemoveAt(items, k)) == RemoveAt(Keys(items), k)
  {
  }

  lemma KeysAppend(items: seq<Value>, x: Value)
    ensures Keys(items + [x]) == Keys(items) + [IdText(x)]
  {
  }

  /** The key sequence after a toggle that acts: the key removed, or appended. */
  lemma ToggledKeys(items: seq<Value>, item: Value)
    requires Toggles(item)
    ensures var k := IndexOfId(items, IdText(item));
      Keys(Toggled(items, item)) == if k >= 0 then RemoveAt(Keys(items), k) else Keys(items) + [IdText(item)]
  {
    var k := IndexOfId(items, IdText(item));
    if k >= 0 { KeysRemoveAt(items, k); } else { KeysAppend(items, item); }
  }

  /** Toggling an item flips whether its id is a favourite. */
  lemma ToggleFlips(items: seq<Value>, item: Value)
    requires UniqueIds(items) && Toggles(item)
    ensures IsFavoriteIn(Toggled(items, item), Get(item, "id")) == !IsFavoriteIn(items, Get(item, "id"))
  {
    var k := IndexOfId(items, IdText(item));
    ToggledKeys(items, item);
    if k >= 0 {
      assert Keys(items)[k] == IdText(item);
      DistinctRemoveAt(Keys(items), k);
    }
  }

  /** Toggling leaves the favourite status of every other id as it was. */
  lemma ToggleKeepsOthers(items: seq<Value>, item: Value, other: Value)
    requires Toggles(item) && ToText(other) != IdText(item)
    ensures IsFavoriteIn(Toggled(items, item), other) == IsFavoriteIn(items, other)
  {
    ToggleKeepsKey(items, item, ToText(other));
  }

  /** A key other than the toggled item's is present after the toggle exactly
      when it was present before. */
  lemma ToggleKeepsKey(items: seq<Value>, item: Value, key: string)
    requires Toggles(item) && key != IdText(item)
    ensures key in Keys(Toggled(items, item)) <==> key in Keys(items)
  {
    var k := IndexOfId(items, IdText(item));
    ToggledKeys(items, item);
    if k >= 0 {
      assert Keys(items)[k] == IdText(item);
      RemoveAtMembers(Keys(items), k, key);
    }
  }

  /** Toggling removes at most one entry or appends one at the end; the other
      entries stay in their order. */
  lemma ToggledShape(items: seq<Value>, item: Value)
    ensures Toggled(items, item) == items
         || Toggled(items, item) == items + [item]
         || exists k :: 0 <= k < |items| && Toggled(items, item) == RemoveAt(items, k)
  {
  }

  /** Toggling an item that is not a favourite twice restores the entries. */
  lemma ToggleTwiceRestores(items: seq<Value>, item: Value)
    requires !IsFavoriteIn(items, Get(item, "id"))
    ensures Toggled(Toggled(items, item), item) == items
  {
    if Toggles(item) {
      var r := items + [item];
      assert IndexOfId(r, IdText(item)) == |items| by {
        assert IdText(r[|items|]) == IdText(item);
        assert forall k :: 0 <= k < |items| ==> r[k] == items[k];
        assert forall k :: 0 <= k < |items| ==> Keys(items)[k] == IdText(items[k]);
      }
      assert RemoveAt(r, |items|) == items;
    }
  }

  /** Toggling keeps the ids unique. */
  lemma ToggleKeepsUnique(items: seq<Value>, item: Value)
    requires UniqueIds(items)
    ensures UniqueIds(Toggled(items, item))
  {
    if Toggles(item) {
      var k := IndexOfId(items, IdText(item));
      ToggledKeys(items, item);
      if k >= 0 {
        DistinctRemoveAt(Keys(items), k);
      } else {
        DistinctAppend(Keys(items), IdText(item));
      }
    }
  }

  /** `findIndex` by id text, as `toggle` runs it. */
  method FindId(items: seq<Value>, key: string) returns (idx: int)
    ensures idx == IndexOfId(items, key)
  {
    var k := 0;
    while k < |items|
      invariant 0 <= k <= |items|
      invariant forall j :: 0 <= j < k ==> IdText(items[j]) != key
    {
      if IdText(items[k]) == key {
        return k;
      }
      k := k + 1;
    }
    return -1;
  }

  class FavoritesService {
    var items: seq<Value>

    predicate Valid()
      reads this
    {
      UniqueIds(items)
    }

    constructor ()
      ensures items == [] && Valid()
    {
      items := [];
    }

    /** A copy of the entries. */
    method List() returns (r: seq<Value>)
      ensures r == items
    {
      r := items;
    }

    /** Whether some entry has the id text of `id`. */
    method IsFavorite(id: Value) returns (r: bool)
      ensures r == IsFavoriteIn(items, id)
      ensures IsNullish(id) ==> !r
    {
      if IsNullish(id) {
        return false;
      }
      var k := FindId(items, ToText(id));
      r := k >= 0;
    }

    method Toggle(item: Value)
      requires Valid()
      modifies this
      ensures Valid()
      ensures items == Toggled(old(items), item)
    {
      ToggleKeepsUnique(items, item);
      if Toggles(item) {
        var k := FindId(items, IdText(item));
        if k >= 0 {
          items := RemoveAt(items, k);
        } else {
          items := items + [item];
        }
      }
    }
  }
}
