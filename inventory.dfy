/**
 * The item inventory: a dictionary from item name to how many are held.
 * Absent items count as zero, and a removal that reaches zero deletes
 * the key.
 */
module Inventory {
  import opened PyOps

  /** The items after `add(item, count)`. */
  function Added(items: map<string, int>, item: string, count: int): (r: map<string, int>)
    ensures item in r && GetOrZero(r, item) == GetOrZero(items, item) + count
    ensures r.Keys == items.Keys + {item}
    ensures forall k :: k in items && k != item ==> r[k] == items[k]
  {
    items[item := GetOrZero(items, item) + count]
  }

  /** Whether `remove(item, count)` succeeds: enough of the item is held. */
  predicate CanRemove(items: map<string, int>, item: string, count: int)
  {
    GetOrZero(items, item) >= count
  }

  /** The items after a successful `remove(item, count)`. */
  function Removed(items: map<string, int>, item: string, count: int): (r: map<string, int>)
    ensures GetOrZero(r, item) == GetOrZero(items, item) - count
    ensures item in r <==> GetOrZero(items, item) != count
    ensures forall k :: k != item ==> (k in r <==> k in items)
    ensures forall k :: k in items && k != item ==> r[k] == items[k]
  {
    var n := GetOrZero(items, item) - count;
    if n != 0 then items[item := n] else items - {item}
  }

  /** Removing what was just added restores an inventory that held a positive count or none. */
  lemma RemoveUndoesAdd(items: map<string, int>, item: string, count: int)
    requires item in items ==> items[item] > 0
    ensures CanRemove(Added(items, item, count), item, count)
    ensures Removed(Added(items, item, count), item, count) == items
  {
  }

  class InventoryManager {
    var items: map<string, int>

    constructor ()
      ensures items == map[]
    {
      items := map[];
    }

    method Add(item: string, count: int := 1)
      modifies this
      ensures items == Added(old(items), item, count)
    {
      items := items[item := GetOrZero(items, item) + count];
    }

    /** False, and nothing changes, when fewer than `count` are held. */
    method Remove(item: string, count: int := 1) returns (ok: bool)
      modifies this
      ensures ok == CanRemove(old(items), item, count)
      ensures items == if ok then Removed(old(items), item, count) else old(items)
    {
      var current := GetOrZero(items, item);
      if current < count {
        return false;
      }
      var n := current - count;
      if n != 0 {
        items := items[item := n];
      } else {
        items := items - {item};
      }
      return true;
    }

    function Has(item: string): bool
      reads this
    {
      item in items
    }

    function Count(item: string): int
      reads this
    {
      GetOrZero(items, item)
    }

    function ToDict(): map<string, int>
      reads this
    {
      items
    }

    method LoadFromDict(data: map<string, int>)
      modifies this
      ensures items == data
    {
      items := data;
    }
  }

  /** Saving and loading restores the items, whatever was done in between. */
  method SaveLoadScenario(inv: InventoryManager, item: string, count: int)
    modifies inv
    ensures inv.items == old(inv.items)
  {
    var saved := inv.ToDict();
    inv.Add(item, count);
    var _ := inv.Remove(item, 1);
    inv.LoadFromDict(saved);
  }

  /** Add a potion, two more, remove two, remove the last: the key is gone. */
  method InventoryScenario()
  {
    var inv := new InventoryManager();
    inv.Add("Potion", 1);
    assert inv.Has("Potion") && inv.Count("Potion") == 1;
    inv.Add("Potion", 2);
    assert inv.Count("Potion") == 3;
    var ok := inv.Remove("Potion", 2);
    assert ok && inv.Count("Potion") == 1;
    ok := inv.Remove("Potion", 1);
    assert ok && !inv.Has("Potion");
    ok := inv.Remove("Potion", 1);
    assert !ok && inv.Count("Potion") == 0;
  }
}
