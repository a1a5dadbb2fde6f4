/**
 * Timed spawns: objects scheduled for a time, handed out once that time
 * has come, in the order they were scheduled.
 */
module Spawn {

  datatype Spawn<T> = Spawn(time: int, obj: T)

  /** The entries due at `now` (`t <= now`), in schedule order. */
  function Due<T(!new)>(spawns: seq<Spawn<T>>, now: int): (r: seq<Spawn<T>>)
    ensures forall i :: 0 <= i < |r| ==> r[i].time <= now
    ensures |r| <= |spawns|
  {
    if spawns == [] then []
    else
      var last := spawns[|spawns| - 1];
      Due(spawns[..|spawns| - 1], now) + (if last.time <= now then [last] else [])
  }

  /** The entries still waiting at `now` (`t > now`), in schedule order. */
  function Pending<T(!new)>(spawns: seq<Spawn<T>>, now: int): (r: seq<Spawn<T>>)
    ensures forall i :: 0 <= i < |r| ==> r[i].time > now
    ensures |r| <= |spawns|
  {
    if spawns == [] then []
    else
      var last := spawns[|spawns| - 1];
      Pending(spawns[..|spawns| - 1], now) + (if last.time > now then [last] else [])
  }

  /** The objects of a list of entries. */
  function Objects<T>(entries: seq<Spawn<T>>): (r: seq<T>)
    ensures |r| == |entries|
    ensures forall i :: 0 <= i < |r| ==> r[i] == entries[i].obj
  {
    seq(|entries|, i requires 0 <= i < |entries| => entries[i].obj)
  }

  /** An entry is due exactly when it is scheduled at or before `now`, and pending otherwise. */
  lemma {:induction false} FilterMembers<T(!new)>(spawns: seq<Spawn<T>>, now: int)
    ensures forall e :: e in Due(spawns, now) <==> e in spawns && e.time <= now
    ensures forall e :: e in Pending(spawns, now) <==> e in spawns && e.time > now
  {
    if spawns != [] {
      var p := spawns[..|spawns| - 1];
      FilterMembers(p, now);
      assert spawns == p + [spawns[|spawns| - 1]];
    }
  }

  /** Due and pending entries together are the schedule: nothing lost, nothing doubled. */
  lemma {:induction false} DuePendingPartition<T(!new)>(spawns: seq<Spawn<T>>, now: int)
    ensures multiset(Due(spawns, now)) + multiset(Pending(spawns, now)) == multiset(spawns)
  {
    if spawns != [] {
      var p := spawns[..|spawns| - 1];
      DuePendingPartition(p, now);
      assert spawns == p + [spawns[|spawns| - 1]];
    }
  }

  /** Both filters distribute over concatenation, which is what keeps schedule order. */
  lemma {:induction false} FiltersAppend<T(!new)>(s: seq<Spawn<T>>, t: seq<Spawn<T>>, now: int)
    ensures Due(s + t, now) == Due(s, now) + Due(t, now)
    ensures Pending(s + t, now) == Pending(s, now) + Pending(t, now)
    decreases |t|
  {
    if t == [] {
      assert s + t == s;
    } else {
      var t' := t[..|t| - 1];
      assert (s + t)[..|s + t| - 1] == s + t';
      assert (s + t)[|s + t| - 1] == t[|t| - 1];
      FiltersAppend(s, t', now);
    }
  }

  /** Projecting a concatenation projects each part. */
  lemma ObjectsAppend<T>(a: seq<Spawn<T>>, b: seq<Spawn<T>>)
    ensures Objects(a + b) == Objects(a) + Objects(b)
  {
    assert forall i :: 0 <= i < |b| ==> (a + b)[|a| + i] == b[i];
  }

  /**
   * What `get_ready` hands out for a schedule extended by later entries:
   * the objects due among the earlier entries first, then those due among
   * the later ones.
   */
  lemma ReadyInScheduleOrder<T(!new)>(s: seq<Spawn<T>>, t: seq<Spawn<T>>, now: int)
    ensures Objects(Due(s + t, now)) == Objects(Due(s, now)) + Objects(Due(t, now))
  {
    FiltersAppend(s, t, now);
    ObjectsAppend(Due(s, now), Due(t, now));
  }

  /** A second hand-out at the same time finds nothing. */
  lemma {:induction false} PendingHasNothingDue<T(!new)>(spawns: seq<Spawn<T>>, now: int)
    ensures Due(Pending(spawns, now), now) == []
    ensures Pending(Pending(spawns, now), now) == Pending(spawns, now)
  {
    if spawns != [] {
      var p := spawns[..|spawns| - 1];
      var last := spawns[|spawns| - 1];
      PendingHasNothingDue(p, now);
      if last.time > now {
        FiltersAppend(Pending(p, now), [last], now);
        assert [last][..0] == [];
        assert Due([last], now) == [] && Pending([last], now) == [last];
      } else {
        assert Pending(spawns, now) == Pending(p, now) + [];
        assert Pending(p, now) + [] == Pending(p, now);
      }
    }
  }

  class SpawnManager<T(!new)> {
    var spawns: seq<Spawn<T>>

    constructor ()
      ensures spawns == []
    {
      spawns := [];
    }

    method Schedule(obj: T, time: int)
      modifies this
      ensures spawns == old(spawns) + [Spawn(time, obj)]
    {
      spawns := spawns + [Spawn(time, obj)];
    }

    /** `get_ready(now)`: hand out the due objects and keep the rest. */
    method GetReady(now: int) returns (ready: seq<T>)
      modifies this
      ensures ready == Objects(Due(old(spawns), now))
      ensures spawns == Pending(old(spawns), now)
    {
      ready := Objects(Due(spawns, now));
      spawns := Pending(spawns, now);
    }
  }

  /** An orc scheduled at 5 is not ready at 4 and is ready at 5. */
  method SpawnScenario()
  {
    var sm := new SpawnManager<string>();
    sm.Schedule("orc", 5);
    var r := sm.GetReady(4);
    assert r == [];
    r := sm.GetReady(5);
    assert r == ["orc"];
    assert sm.spawns == [];
  }
}
