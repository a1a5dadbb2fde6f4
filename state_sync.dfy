/**
 * StateSync (state_sync.py): the sender emits only the keys whose value
 * changed since its last snapshot, tagged with a counter under "seq"; the
 * receiver merges such deltas into its running snapshot.
 */
module StateSync {
  import opened Wrappers

  /** A JSON value. */
  datatype Value =
    | Null
    | Bool(b: bool)
    | Int(i: int)
    | Str(s: string)
    | List(items: seq<Value>)
    | Object(fields: map<string, Value>)

  type Snapshot = map<string, Value>

  const SeqKey: string := "seq"

  /** `d.get(k)`: None (Null) for a missing key. */
  function Lookup(m: Snapshot, k: string): Value {
    if k in m then m[k] else Null
  }

  /** The integer a number stands for: `True == 1` and `False == 0` in Python. */
  function AsNumber(v: Value): Option<int>
  {
    match v
    case Bool(b) => Some(if b then 1 else 0)
    case Int(i) => Some(i)
    case _ => None
  }

  /**
   * Python's `==` on these values: booleans and integers compare as
   * numbers, strings by content, lists element by element, dicts by
   * their keys and then value by value; values of other kinds differ.
   */
  function PyEq(a: Value, b: Value): bool
    decreases a
  {
    if AsNumber(a).Some? || AsNumber(b).Some? then AsNumber(a) == AsNumber(b)
    else match a
      case Null => b.Null?
      case Str(s) => b.Str? && b.s == s
      case List(xs) =>
        b.List? && |xs| == |b.items| && forall i :: 0 <= i < |xs| ==> PyEq(xs[i], b.items[i])
      case Object(fs) =>
        b.Object? && fs.Keys == b.fields.Keys && forall k :: k in fs ==> PyEq(fs[k], b.fields[k])
  }

  /** Every value equals itself. */
  lemma {:induction false} PyEqReflexive(v: Value)
    ensures PyEq(v, v)
    decreases v
  {
    match v
    case List(xs) =>
      forall i | 0 <= i < |xs| ensures PyEq(xs[i], xs[i]) {
        PyEqReflexive(xs[i]);
      }
    case Object(fs) =>
      forall k | k in fs ensures PyEq(fs[k], fs[k]) {
        PyEqReflexive(fs[k]);
      }
    case _ =>
  }

  /** Equality is symmetric. */
  lemma {:induction false} PyEqSymmetric(a: Value, b: Value)
    ensures PyEq(a, b) == PyEq(b, a)
    decreases a
  {
    match a
    case List(xs) =>
      if b.List? && |xs| == |b.items| {
        forall i | 0 <= i < |xs| ensures PyEq(xs[i], b.items[i]) == PyEq(b.items[i], xs[i]) {
          PyEqSymmetric(xs[i], b.items[i]);
        }
      }
    case Object(fs) =>
      if b.Object? && fs.Keys == b.fields.Keys {
        forall k | k in fs ensures PyEq(fs[k], b.fields[k]) == PyEq(b.fields[k], fs[k]) {
          PyEqSymmetric(fs[k], b.fields[k]);
        }
      }
    case _ =>
  }

  /** Python's `==` is looser than equality of the values: `True == 1`, `False == 0`, `[1] == [True]`. */
  lemma NumbersAndBooleansCompareEqual()
    ensures PyEq(Bool(true), Int(1)) && PyEq(Bool(false), Int(0))
    ensures PyEq(List([Int(1)]), List([Bool(true)]))
    ensures !PyEq(Int(0), Null) && !PyEq(Str("1"), Int(1))
  {
  }

  /** The delta `encode` returns: the keys of `state` whose value differs (Python `!=`) from `last.get(k)`, plus "seq". */
  function Diff(last: Snapshot, state: Snapshot, counter: int): Snapshot
  {
    (map k | k in state && !PyEq(Lookup(last, k), state[k]) :: state[k])[SeqKey := Int(counter)]
  }

  /** The receiver's snapshot after `apply`: the delta's keys other than "seq" overwrite, the rest stay. */
  function Merge(base: Snapshot, delta: Snapshot): Snapshot
  {
    map k | k in base.Keys + (delta.Keys - {SeqKey}) :: if k in delta && k != SeqKey then delta[k] else base[k]
  }

  /**
   * What a delta holds: "seq" with the counter, and every other key exactly
   * when the state's value differs, by Python's `!=`, from `last.get(k)`.
   */
  lemma DiffContents(last: Snapshot, state: Snapshot, counter: int)
    ensures Diff(last, state, counter)[SeqKey] == Int(counter)
    ensures forall k :: k != SeqKey ==>
      (k in Diff(last, state, counter) <==> k in state && !PyEq(Lookup(last, k), state[k]))
    ensures forall k :: k != SeqKey && k in Diff(last, state, counter) ==> Diff(last, state, counter)[k] == state[k]
  {
  }

  /** A value that Python considers unchanged is not sent: `{"hp": 1}` then `{"hp": True}` sends only "seq". */
  lemma EqualButDifferentNotSent()
    ensures Diff(map["hp" := Int(1)], map["hp" := Bool(true)], 2) == map[SeqKey := Int(2)]
  {
    var d := Diff(map["hp" := Int(1)], map["hp" := Bool(true)], 2);
    assert PyEq(Int(1), Bool(true));
    assert d.Keys == {SeqKey};
  }

  /** Merging overwrites exactly the delta's non-"seq" keys and keeps every other key of the base. */
  lemma MergeContents(base: Snapshot, delta: Snapshot)
    ensures forall k :: k != SeqKey && k in delta ==> k in Merge(base, delta) && Merge(base, delta)[k] == delta[k]
    ensures forall k :: (k !in delta || k == SeqKey) ==> (k in Merge(base, delta) <==> k in base)
    ensures forall k :: (k !in delta || k == SeqKey) && k in base ==> Merge(base, delta)[k] == base[k]
  {
  }

  /**
   * Applying the sender's delta onto the sender's previous snapshot rebuilds
   * its new snapshot, up to Python's `==`, provided no key was dropped, no
   * key is named "seq" and no new key holds None. Every key that was sent
   * arrives with exactly the sender's value.
   */
  lemma MergeDiffReconstructs(last: Snapshot, state: Snapshot, counter: int)
    requires last.Keys <= state.Keys
    requires SeqKey !in state
    requires forall k :: k in state && k !in last ==> state[k] != Null
    ensures Merge(last, Diff(last, state, counter)).Keys == state.Keys
    ensures forall k :: k in state ==> PyEq(Merge(last, Diff(last, state, counter))[k], state[k])
    ensures forall k :: k in state && !PyEq(Lookup(last, k), state[k]) ==> Merge(last, Diff(last, state, counter))[k] == state[k]
  {
    var d := Diff(last, state, counter);
    var merged := Merge(last, d);
    forall k | k in state ensures k in merged && PyEq(merged[k], state[k]) {
      if k in d {
        PyEqReflexive(state[k]);
      } else {
        assert k in last;
      }
    }
    assert merged.Keys == state.Keys;
  }

  /** A new key that holds None is never sent, so the receiver never learns it. */
  lemma NewNullKeyIsLost(last: Snapshot, state: Snapshot, counter: int, k: string)
    requires k in state && state[k] == Null && k !in last && k != SeqKey
    ensures k !in Diff(last, state, counter)
    ensures k !in Merge(last, Diff(last, state, counter))
  {
  }

  class StateSync {
    var lastState: Snapshot
    var counter: int

    constructor ()
      ensures lastState == map[] && counter == 0
    {
      lastState := map[];
      counter := 0;
    }

    /** `encode`: bump the counter, emit the changed keys, and remember the full state (not just the delta). */
    method Encode(state: Snapshot) returns (delta: Snapshot)
      modifies this
      ensures counter == old(counter) + 1
      ensures delta == Diff(old(lastState), state, counter)
      ensures lastState == state
    {
      counter := counter + 1;
      delta := (map k | k in state && !PyEq(Lookup(lastState, k), state[k]) :: state[k]);
      delta := delta[SeqKey := Int(counter)];
      lastState := state;
    }

    /** `apply`: take the delta's "seq" without any ordering check, merge its other keys, return a copy. */
    method Apply(delta: Snapshot) returns (result: Snapshot)
      modifies this
      ensures counter == if SeqKey in delta && delta[SeqKey].Int? then delta[SeqKey].i else old(counter)
      ensures lastState == Merge(old(lastState), delta)
      ensures result == lastState
    {
      if SeqKey in delta && delta[SeqKey].Int? {
        counter := delta[SeqKey].i;
      }
      var todo := delta.Keys;
      while todo != {}
        invariant todo <= delta.Keys
        invariant lastState == Merge(old(lastState), delta - todo)
        invariant counter == if SeqKey in delta && delta[SeqKey].Int? then delta[SeqKey].i else old(counter)
        decreases todo
      {
        var k :| k in todo;
        if k != SeqKey {
          lastState := lastState[k := delta[k]];
        }
        todo := todo - {k};
      }
      assert delta - {} == delta;
      result := lastState;
    }
  }

  /** The delta example: {x:1,y:2} then {x:1,y:3} yields {y:3,seq:2}. */
  method SyncScenario()
  {
    var sender := new StateSync();
    var first := sender.Encode(map["x" := Int(1), "y" := Int(2)]);
    DiffContents(map[], map["x" := Int(1), "y" := Int(2)], 1);
    assert first.Keys == {"x", "y", "seq"};
    assert first["x"] == Int(1) && first["y"] == Int(2) && first["seq"] == Int(1);
    var state2 := map["x" := Int(1), "y" := Int(3)];
    var second := sender.Encode(state2);
    DiffContents(map["x" := Int(1), "y" := Int(2)], state2, 2);
    assert "x" !in second;
    assert second.Keys == {"y", "seq"};
    assert second["y"] == Int(3) && second["seq"] == Int(2);
  }

  /** Applying {y:3,seq:2} onto {x:1,y:2} gives {x:1,y:3}. */
  method ApplyScenario()
  {
    var receiver := new StateSync();
    var s1 := receiver.Apply(map["x" := Int(1), "y" := Int(2)]);
    var diff := map["y" := Int(3), "seq" := Int(2)];
    var s2 := receiver.Apply(diff);
    MergeContents(s1, diff);
    assert s2.Keys == {"x", "y"};
    assert s2["x"] == Int(1) && s2["y"] == Int(3);
    assert receiver.counter == 2;
  }
}
