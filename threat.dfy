/**
 * Threat tables for AI focus: a running threat total per actor, and the
 * actor with the highest total. Python's `max` keeps the first of equal
 * keys in insertion order, so the order in which actors first gained
 * threat is kept next to the totals.
 */
module Threat {
  import opened Wrappers
  import opened PyOps

  /** The position of the first largest total among `actors`. */
  function ArgMax(actors: seq<string>, table: map<string, int>): (i: nat)
    requires actors != [] && forall a :: a in actors ==> a in table
    ensures i < |actors|
    ensures forall j :: 0 <= j < |actors| ==> table[actors[j]] <= table[actors[i]]
    ensures forall j :: 0 <= j < i ==> table[actors[j]] < table[actors[i]]
  {
    if |actors| == 1 then 0
    else
      var p := actors[..|actors| - 1];
      var j := ArgMax(p, table);
      assert forall k :: 0 <= k < |p| ==> p[k] == actors[k];
      if table[actors[|actors| - 1]] > table[actors[j]] then |actors| - 1 else j
  }

  /** The actors in the order they first gained threat, each once, and exactly the keys of `table`. */
  ghost predicate Tracked(order: seq<string>, table: map<string, int>)
  {
    NoDup(order) && forall a :: a in order <==> a in table
  }

  /** The table after `add_threat(actor, amount)`. */
  function Added(table: map<string, int>, actor: string, amount: int): (r: map<string, int>)
    ensures r.Keys == table.Keys + {actor}
    ensures r[actor] == GetOrZero(table, actor) + amount
    ensures forall a :: a in table && a != actor ==> r[a] == table[a]
  {
    table[actor := GetOrZero(table, actor) + amount]
  }

  /** Threat accumulates: two additions for one actor add up. */
  lemma AddsAccumulate(table: map<string, int>, actor: string, a: int, b: int)
    ensures Added(Added(table, actor, a), actor, b) == Added(table, actor, a + b)
  {
  }

  /** `highest_threat()`: None iff the table is empty, else the first actor with a maximal total. */
  function Highest(order: seq<string>, table: map<string, int>): (r: Option<string>)
    requires Tracked(order, table)
    ensures r.None? <==> table == map[]
    ensures r.Some? ==> r.value in table && forall a :: a in table ==> table[a] <= table[r.value]
    ensures r.Some? ==> forall j :: 0 <= j < |order| && table[order[j]] == table[r.value] ==> IndexOf(order, r.value) <= j
  {
    if order == [] then
      assert forall a :: a !in table;
      None
    else
      var i := ArgMax(order, table);
      assert order[0] in table;
      assert forall a :: a in table ==> exists j :: 0 <= j < |order| && order[j] == a;
      IndexOfNoDup(order, i);
      Some(order[i])
  }

  class ThreatManager {
    var order: seq<string>
    var table: map<string, int>

    ghost predicate Valid()
      reads this
    {
      Tracked(order, table)
    }

    constructor ()
      ensures Valid() && table == map[]
    {
      order := [];
      table := map[];
    }

    /** Only that actor's total changes; a new actor goes to the end of the order. */
    method AddThreat(actor: string, amount: int)
      requires Valid()
      modifies this
      ensures Valid()
      ensures table == Added(old(table), actor, amount)
      ensures order == if actor in old(table) then old(order) else old(order) + [actor]
    {
      if actor !in table {
        order := order + [actor];
      }
      table := table[actor := GetOrZero(table, actor) + amount];
    }

    function HighestThreat(): Option<string>
      requires Valid()
      reads this
    {
      Highest(order, table)
    }
  }

  /** Of two actors with the same highest total, the one that gained threat first is chosen. */
  lemma FirstOfEqualTotalsWins()
    ensures Tracked(["p1", "p2"], map["p1" := 7, "p2" := 7])
    ensures Highest(["p1", "p2"], map["p1" := 7, "p2" := 7]) == Some("p1")
  {
    var order := ["p1", "p2"];
    var table := map["p1" := 7, "p2" := 7];
    assert NoDup(order);
    assert forall a :: a in order <==> a in table;
    var r := Highest(order, table);
    assert IndexOf(order, "p2") == 1;
    assert r.value == "p1";
  }

  /** p1 gains 5, p2 gains 10: p2 is the focus; no threat at all gives None. */
  method ThreatScenario()
  {
    var tm := new ThreatManager();
    assert tm.HighestThreat() == None;
    tm.AddThreat("p1", 5);
    tm.AddThreat("p2", 10);
    assert tm.table == map["p1" := 5, "p2" := 10];
    assert tm.HighestThreat() == Some("p2");
  }
}
