/**
 * Crafting: named recipes (ingredient counts plus a result item) applied
 * to an inventory. A craft either consumes every ingredient and adds one
 * result item, or changes nothing.
 */
module Crafting {
  import opened Wrappers
  import opened PyOps
  import opened Inventory

  /** Every ingredient is held in at least the required amount. */
  predicate Sufficient(items: map<string, int>, req: map<string, int>)
  {
    forall k :: k in req ==> GetOrZero(items, k) >= req[k]
  }

  /** The items once the ingredients in `done` have each been removed. */
  function Spent(items: map<string, int>, req: map<string, int>, done: set<string>): (r: map<string, int>)
    requires done <= req.Keys
    ensures forall k :: k in done ==> GetOrZero(r, k) == GetOrZero(items, k) - req[k]
    ensures forall k :: k in done ==> (k in r <==> GetOrZero(items, k) != req[k])
    ensures forall k :: k !in done ==> (k in r <==> k in items)
    ensures forall k :: k !in done && k in items ==> r[k] == items[k]
  {
    map k | k in items.Keys + done && (k in done ==> GetOrZero(items, k) != req[k]) ::
      if k in done then GetOrZero(items, k) - req[k] else items[k]
  }

  /** Nothing spent yet: the items as they were. */
  lemma SpentNone(items: map<string, int>, req: map<string, int>)
    ensures Spent(items, req, {}) == items
  {
    var a := Spent(items, req, {});
    assert forall j :: j in a <==> j in items;
  }

  /** Removing one more ingredient extends the spent set by it. */
  lemma SpentStep(items: map<string, int>, req: map<string, int>, done: set<string>, k: string)
    requires done <= req.Keys && k in req && k !in done
    requires Sufficient(items, req)
    ensures CanRemove(Spent(items, req, done), k, req[k])
    ensures Removed(Spent(items, req, done), k, req[k]) == Spent(items, req, done + {k})
  {
    var a := Removed(Spent(items, req, done), k, req[k]);
    var b := Spent(items, req, done + {k});
    assert forall j :: j in a <==> j in b;
    assert forall j :: j in a ==> a[j] == b[j];
  }

  /** The inventory after a successful craft: ingredients spent, one result added. */
  function Crafted(items: map<string, int>, req: map<string, int>, result: string): map<string, int>
  {
    Added(Spent(items, req, req.Keys), result, 1)
  }

  /** A successful craft lowers each ingredient by its amount and raises the result by one. */
  lemma CraftedCounts(items: map<string, int>, req: map<string, int>, result: string, k: string)
    ensures GetOrZero(Crafted(items, req, result), result)
         == GetOrZero(items, result) - (if result in req then req[result] else 0) + 1
    ensures k in req && k != result ==> GetOrZero(Crafted(items, req, result), k) == GetOrZero(items, k) - req[k]
    ensures k !in req && k != result ==> GetOrZero(Crafted(items, req, result), k) == GetOrZero(items, k)
  {
  }

  /** The check loop of `craft`: is every ingredient there in sufficient amount? */
  method HasIngredients(req: map<string, int>, inv: InventoryManager) returns (ok: bool)
    ensures ok == Sufficient(inv.items, req)
  {
    var todo := req.Keys;
    while todo != {}
      invariant todo <= req.Keys
      invariant forall k :: k in req && k !in todo ==> GetOrZero(inv.items, k) >= req[k]
      decreases todo
    {
      var k :| k in todo;
      if inv.Count(k) < req[k] {
        return false;
      }
      todo := todo - {k};
    }
    return true;
  }

  /** The removal loop of `craft`, entered only once every ingredient is known to suffice. */
  method SpendAll(req: map<string, int>, inv: InventoryManager)
    requires Sufficient(inv.items, req)
    modifies inv
    ensures inv.items == Spent(old(inv.items), req, req.Keys)
  {
    ghost var start := inv.items;
    var todo := req.Keys;
    ghost var done: set<string> := {};
    SpentNone(start, req);
    while todo != {}
      invariant done !! todo && done + todo == req.Keys
      invariant inv.items == Spent(start, req, done)
      decreases todo
    {
      var k :| k in todo;
      SpentStep(start, req, done, k);
      var removed := inv.Remove(k, req[k]);
      todo := todo - {k};
      done := done + {k};
    }
    assert done == req.Keys;
  }

  class CraftingManager {
    var recipes: map<string, map<string, int>>
    var results: map<string, string>

    /** Every recipe has a result: `add_recipe` is the only writer of both. */
    ghost predicate Valid()
      reads this
    {
      recipes.Keys == results.Keys
    }

    constructor ()
      ensures Valid() && recipes == map[] && results == map[]
    {
      recipes := map[];
      results := map[];
    }

    method AddRecipe(name: string, ingredients: map<string, int>, result: string)
      requires Valid()
      modifies this
      ensures Valid()
      ensures recipes == old(recipes)[name := ingredients]
      ensures results == old(results)[name := result]
    {
      recipes := recipes[name := ingredients];
      results := results[name := result];
    }

    /**
     * `craft(name, inventory)`: None, with the inventory untouched, for an
     * unknown or empty recipe or when an ingredient is short; otherwise
     * the ingredients are removed, one result item is added and its name
     * is returned.
     */
    method Craft(name: string, inv: InventoryManager) returns (r: Option<string>)
      requires Valid()
      modifies inv
      ensures name !in recipes || recipes[name] == map[] ==> r == None
      ensures name in recipes && recipes[name] != map[] ==> (r.Some? <==> Sufficient(old(inv.items), recipes[name]))
      ensures r.None? ==> inv.items == old(inv.items)
      ensures r.Some? ==> name in results && r.value == results[name]
      ensures r.Some? ==> inv.items == Crafted(old(inv.items), recipes[name], results[name])
    {
      if name !in recipes || recipes[name] == map[] {
        return None;
      }
      var req := recipes[name];
      var enough := HasIngredients(req, inv);
      if !enough {
        return None;
      }
      SpendAll(req, inv);
      var result := results[name];
      inv.Add(result, 1);
      return Some(result);
    }
  }

  /** Two wood make a stick. */
  method CraftingScenario()
  {
    var inv := new InventoryManager();
    inv.Add("wood", 2);
    var cm := new CraftingManager();
    cm.AddRecipe("stick", map["wood" := 2], "stick");
    var crafted := cm.Craft("stick", inv);
    CraftedCounts(map["wood" := 2], map["wood" := 2], "stick", "wood");
    assert crafted == Some("stick");
    assert inv.Count("stick") == 1 && inv.Count("wood") == 0;
    crafted := cm.Craft("stick", inv);
    assert crafted == None;
  }
}
