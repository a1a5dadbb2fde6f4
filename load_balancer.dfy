/**
 * Load balancing: the latest reported load per server, and the least
 * loaded server. Python dictionaries iterate in insertion order and
 * `min` keeps the first of equal keys, so the order in which servers
 * were first reported is kept next to the loads.
 */
module LoadBalancer {
  import opened Wrappers
  import opened PyOps

  /** The position of the first smallest load among `keys`. */
  function ArgMin(keys: seq<string>, loads: map<string, int>): (i: nat)
    requires keys != [] && forall k :: k in keys ==> k in loads
    ensures i < |keys|
    ensures forall j :: 0 <= j < |keys| ==> loads[keys[i]] <= loads[keys[j]]
    ensures forall j :: 0 <= j < i ==> loads[keys[j]] > loads[keys[i]]
  {
    if |keys| == 1 then 0
    else
      var p := keys[..|keys| - 1];
      var j := ArgMin(p, loads);
      assert forall k :: 0 <= k < |p| ==> p[k] == keys[k];
      if loads[keys[|keys| - 1]] < loads[keys[j]] then |keys| - 1 else j
  }

  /** The servers in the order they were first reported, each once, and exactly the keys of `loads`. */
  ghost predicate Tracked(order: seq<string>, loads: map<string, int>)
  {
    NoDup(order) && forall k :: k in order <==> k in loads
  }

  /** `best_server()`: None iff no load is recorded, else a recorded server with the smallest load. */
  function Best(order: seq<string>, loads: map<string, int>): (r: Option<string>)
    requires Tracked(order, loads)
    ensures r.None? <==> loads == map[]
    ensures r.Some? ==> r.value in loads && forall s :: s in loads ==> loads[r.value] <= loads[s]
    ensures r.Some? ==> forall j :: 0 <= j < |order| && loads[order[j]] == loads[r.value] ==> IndexOf(order, r.value) <= j
  {
    if order == [] then
      assert forall k :: k !in loads;
      None
    else
      var i := ArgMin(order, loads);
      assert order[0] in loads;
      assert forall s :: s in loads ==> exists j :: 0 <= j < |order| && order[j] == s;
      IndexOfNoDup(order, i);
      Some(order[i])
  }

  class LoadBalancerManager {
    var order: seq<string>
    var loads: map<string, int>

    ghost predicate Valid()
      reads this
    {
      Tracked(order, loads)
    }

    constructor ()
      ensures Valid() && loads == map[]
    {
      order := [];
      loads := map[];
    }

    /** Only that server's load changes; a new server goes to the end of the order. */
    method UpdateLoad(server: string, load: int)
      requires Valid()
      modifies this
      ensures Valid()
      ensures loads == old(loads)[server := load]
      ensures order == if server in old(loads) then old(order) else old(order) + [server]
    {
      if server !in loads {
        order := order + [server];
      }
      loads := loads[server := load];
    }

    function BestServer(): Option<string>
      requires Valid()
      reads this
    {
      Best(order, loads)
    }
  }

  /** With one server reported, it is the best one; of two equal loads the first reported wins. */
  method LoadBalancerScenario()
  {
    var lb := new LoadBalancerManager();
    assert lb.BestServer() == None;
    lb.UpdateLoad("s1", 5);
    assert lb.BestServer() == Some("s1");
    lb.UpdateLoad("s2", 3);
    lb.UpdateLoad("s3", 3);
    assert lb.order == ["s1", "s2", "s3"];
    assert lb.loads == map["s1" := 5, "s2" := 3, "s3" := 3];
    FirstOfEqualLoadsWins();
    assert lb.BestServer() == Some("s2");
  }

  /** Of two servers with the same smallest load, the one reported first is chosen. */
  lemma FirstOfEqualLoadsWins()
    ensures Tracked(["s1", "s2", "s3"], map["s1" := 5, "s2" := 3, "s3" := 3])
    ensures Best(["s1", "s2", "s3"], map["s1" := 5, "s2" := 3, "s3" := 3]) == Some("s2")
  {
    var order := ["s1", "s2", "s3"];
    var loads := map["s1" := 5, "s2" := 3, "s3" := 3];
    assert NoDup(order);
    assert forall k :: k in order <==> k in loads;
    var r := Best(order, loads);
    assert IndexOf(order, "s3") == 2;
    assert r.value == "s2";
  }
}
