/** The player's inventory: a list of item assets without duplicates, with
    add, remove and query, and a change notification after every actual
    change. Items are compared by reference, as `List.Contains` does for
    `ItemData` assets. */
module Inventory {

  /** An item asset; only its identity matters to the inventory. */
  class ItemData {
    const id: string
    const itemName: string

    constructor (id: string, itemName: string)
      ensures this.id == id && this.itemName == itemName
    {
      this.id := id;
      this.itemName := itemName;
    }
  }

  predicate NoDuplicates(s: seq<ItemData>) {
    forall i, j :: 0 <= i < j < |s| ==> s[i] != s[j]
  }

  /** The list after `AddItem`: the item is present afterwards, the old list
      is kept as a prefix in its order, and the list grows by one exactly when
      the item was absent (so adding a present item changes nothing). */
  function Added(items: seq<ItemData>, x: ItemData): (r: seq<ItemData>)
    ensures x in r
    ensures |items| <= |r| && r[..|items|] == items
    ensures |r| == |items| + (if x in items then 0 else 1)
    ensures x !in items ==> r[|items|] == x
  {
    if x in items then items else items + [x]
  }

  /** The position of the first occurrence of x. */
  function IndexOf(s: seq<ItemData>, x: ItemData): (i: nat)
    requires x in s
    ensures i < |s| && s[i] == x
    ensures forall j :: 0 <= j < i ==> s[j] != x
  {
    if s[0] == x then 0 else 1 + IndexOf(s[1..], x)
  }

  /** The list after `List.Remove`: the first occurrence of x is taken out. */
  function RemoveFirst(s: seq<ItemData>, x: ItemData): (r: seq<ItemData>)
    ensures x !in s ==> r == s
    ensures x in s ==> |r| == |s| - 1
  {
    if s == [] then []
    else if s[0] == x then s[1..]
    else [s[0]] + RemoveFirst(s[1..], x)
  }

  class InventoryManager {
    var items: seq<ItemData>
    /** How many times `OnInventoryChanged` has fired. */
    var changeEvents: nat

    ghost predicate Valid()
      reads this
    {
      NoDuplicates(items)
    }

    constructor ()
      ensures Valid() && items == [] && changeEvents == 0
    {
      items := [];
      changeEvents := 0;
    }

    method AddItem(item: ItemData)
      requires Valid()
      modifies this
      ensures Valid()
      ensures items == Added(old(items), item)
      ensures changeEvents == old(changeEvents) + (if item in old(items) then 0 else 1)
    {
      if item !in items {
        AddedKeepsNoDuplicates(items, item);
        items := items + [item];
        changeEvents := changeEvents + 1;
      }
    }

    method RemoveItem(item: ItemData)
      requires Valid()
      modifies this
      ensures Valid()
      ensures items == RemoveFirst(old(items), item)
      ensures changeEvents == old(changeEvents) + (if item in old(items) then 1 else 0)
    {
      if item in items {
        RemoveKeepsOrder(items, item);
        RemovedKeepsNoDuplicates(items, item);
        items := RemoveFirst(items, item);
        changeEvents := changeEvents + 1;
      }
    }

    /** `List.Contains`: some position holds this very item. */
    function HasItem(item: ItemData): (r: bool)
      reads this
      ensures r <==> exists i :: 0 <= i < |items| && items[i] == item
    {
      item in items
    }

    /** The live list, in insertion order: every entry is reported present
        by `HasItem`, and none appears twice. */
    function GetItems(): (r: seq<ItemData>)
      reads this
      ensures r == items
      ensures forall i :: 0 <= i < |r| ==> HasItem(r[i])
      ensures Valid() ==> NoDuplicates(r)
    {
      items
    }
  }

  /** Adding keeps the list free of duplicates and leaves the item present. */
  lemma AddedKeepsNoDuplicates(s: seq<ItemData>, x: ItemData)
    requires NoDuplicates(s)
    ensures NoDuplicates(Added(s, x)) && x in Added(s, x)
  {
  }

  /** Removing takes out exactly the first occurrence, keeping the relative
      order of every other item. */
  lemma {:induction false} RemoveKeepsOrder(s: seq<ItemData>, x: ItemData)
    requires x in s
    ensures RemoveFirst(s, x) == s[..IndexOf(s, x)] + s[IndexOf(s, x) + 1..]
  {
    if s[0] != x {
      RemoveKeepsOrder(s[1..], x);
      var i := IndexOf(s[1..], x);
      assert s[..i + 1] == [s[0]] + s[1..][..i];
      assert s[i + 2..] == s[1..][i + 1..];
    }
  }

  /** In a list without duplicates, removing an item leaves it absent and
      the list still without duplicates. */
  lemma {:induction false} RemovedKeepsNoDuplicates(s: seq<ItemData>, x: ItemData)
    requires NoDuplicates(s)
    ensures x !in RemoveFirst(s, x)
    ensures NoDuplicates(RemoveFirst(s, x))
  {
    if x in s {
      var r, i := RemoveFirst(s, x), IndexOf(s, x);
      RemoveKeepsOrder(s, x);
      forall k | 0 <= k < |r| ensures r[k] == s[if k < i then k else k + 1] {
        if k < i { assert r[k] == s[..i][k]; } else { assert r[k] == s[i + 1..][k - i]; }
      }
      forall k | 0 <= k < |r| ensures r[k] != x {
        var k' := if k < i then k else k + 1;
        assert r[k] == s[k'] && s[i] == x;
      }
      forall a, b | 0 <= a < b < |r| ensures r[a] != r[b] {
        var a', b' := if a < i then a else a + 1, if b < i then b else b + 1;
        assert r[a] == s[a'] && r[b] == s[b'];
      }
    }
  }

  /** Removing an item just added restores the list. */
  lemma {:induction false} RemoveUndoesAdd(s: seq<ItemData>, x: ItemData)
    requires x !in s
    ensures RemoveFirst(Added(s, x), x) == s
  {
    var t := s + [x];
    RemoveKeepsOrder(t, x);
    assert forall j :: 0 <= j < |s| ==> t[j] == s[j];
    assert t[..|s|] == s;
  }
}
