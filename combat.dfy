/**
 * Combat turn order: a list of participants served round-robin by an
 * ever-increasing turn counter.
 */
module Combat {
  import opened Wrappers
  import opened PyOps

  /** `list.remove(x)`: drop the first occurrence of `x`; a missing `x` changes nothing. */
  function RemoveFirst<T(==)>(s: seq<T>, x: T): (r: seq<T>)
    ensures x !in s ==> r == s
    ensures x in s ==> |r| == |s| - 1 && multiset(r) == multiset(s) - multiset{x}
  {
    if x in s then
      var i := IndexOf(s, x);
      assert i < |s| by {
        assert s[..|s|] == s;
      }
      assert s == s[..i] + [s[i]] + s[i + 1..];
      s[..i] + s[i + 1..]
    else s
  }

  /**
   * The order of the others is kept: everything before the first `x`
   * stays in place (and is not `x`), everything after it moves up by one.
   */
  lemma RemoveFirstKeepsOrder<T>(s: seq<T>, x: T)
    requires x in s
    ensures var i := IndexOf(s, x);
      i < |s| && x !in RemoveFirst(s, x)[..i] &&
      RemoveFirst(s, x)[..i] == s[..i] && RemoveFirst(s, x)[i..] == s[i + 1..]
  {
    assert s[..|s|] == s;
  }

  /**
   * The actors that `k` successive `next_actor` calls return when the
   * counter starts at `index`: each call serves `participants[index % n]`
   * and advances the counter by one.
   */
  function Turns<T>(participants: seq<T>, index: int, k: nat): (r: seq<T>)
    requires participants != []
    ensures |r| == k
    decreases k
  {
    if k == 0 then []
    else [participants[Mod(index, |participants|)]] + Turns(participants, index + 1, k - 1)
  }

  /** The `i`-th of `k` successive turns serves `participants[(index + i) % n]`. */
  lemma {:induction false} TurnsAt<T>(participants: seq<T>, index: int, k: nat)
    requires participants != []
    ensures forall i :: 0 <= i < k ==> Turns(participants, index, k)[i] == participants[Mod(index + i, |participants|)]
    decreases k
  {
    if k > 0 {
      TurnsAt(participants, index + 1, k - 1);
      var r := Turns(participants, index, k);
      forall i | 1 <= i < k
        ensures r[i] == participants[Mod(index + i, |participants|)]
      {
        assert r[i] == Turns(participants, index + 1, k - 1)[i - 1];
        assert index + 1 + (i - 1) == index + i;
      }
    }
  }

  /** Stepping the counter `i < n` places from `index` lands on `(index % n + i)`, wrapped once. */
  lemma ModStep(index: int, n: int, i: int)
    requires n > 0 && 0 <= i < n
    ensures Mod(index, n) + i < n ==> Mod(index + i, n) == Mod(index, n) + i
    ensures Mod(index, n) + i >= n ==> Mod(index + i, n) == Mod(index, n) + i - n
  {
    var q, m := index / n, Mod(index, n);
    assert index == q * n + m;
    if m + i < n {
      DivModUnique(index + i, n, q, m + i);
    } else {
      assert index + i == (q + 1) * n + (m + i - n);
      DivModUnique(index + i, n, q + 1, m + i - n);
    }
  }

  /**
   * One full round of `n` turns, from any counter value, is the list of
   * participants rotated to start at `index % n`: everyone is served once,
   * in list order.
   */
  lemma RoundIsRotation<T>(participants: seq<T>, index: int)
    requires participants != []
    ensures var m := Mod(index, |participants|);
      Turns(participants, index, |participants|) == participants[m..] + participants[..m]
  {
    var n := |participants|;
    var m := Mod(index, n);
    var r := Turns(participants, index, n);
    var rot := participants[m..] + participants[..m];
    TurnsAt(participants, index, n);
    forall i | 0 <= i < n
      ensures r[i] == rot[i]
    {
      ModStep(index, n, i);
      if m + i < n {
        assert rot[i] == participants[m..][i];
      } else {
        assert rot[i] == participants[..m][i - (n - m)];
      }
    }
    assert |r| == |rot|;
  }

  /** Whoever the counter points at now, participant `j` is served within one round, at turn `(j - index) % n`. */
  lemma EveryoneWithinARound<T>(participants: seq<T>, index: int, j: int)
    requires participants != [] && 0 <= j < |participants|
    ensures var n := |participants|;
      0 <= Mod(j - index, n) < n && Turns(participants, index, n)[Mod(j - index, n)] == participants[j]
  {
    var n := |participants|;
    var b := j - index;
    var k := Mod(b, n);
    assert b == (b / n) * n + k;
    assert index + k == (-(b / n)) * n + j;
    DivModUnique(index + k, n, -(b / n), j);
    TurnsAt(participants, index, n);
  }

  class CombatManager<T(==)> {
    var participants: seq<T>
    var index: int

    constructor ()
      ensures participants == [] && index == 0
    {
      participants := [];
      index := 0;
    }

    method Add(actor: T)
      modifies this`participants
      ensures participants == old(participants) + [actor]
    {
      participants := participants + [actor];
    }

    /** An absent actor changes nothing. */
    method Remove(actor: T)
      modifies this`participants
      ensures participants == RemoveFirst(old(participants), actor)
    {
      if actor in participants {
        participants := RemoveFirst(participants, actor);
      }
    }

    /** None iff nobody takes part; else `participants[index % n]`, and the counter advances. */
    method NextActor() returns (actor: Option<T>)
      modifies this`index
      ensures actor.None? <==> participants == []
      ensures actor.Some? ==> actor.value == participants[Mod(old(index), |participants|)] && index == old(index) + 1
      ensures actor.None? ==> index == old(index)
    {
      if participants == [] {
        return None;
      }
      actor := Some(participants[Mod(index, |participants|)]);
      index := index + 1;
    }
  }

  /** Three combatants come round in order, and the first again after the last. */
  method CombatScenario()
  {
    var cm := new CombatManager<string>();
    cm.Add("a");
    cm.Add("b");
    cm.Add("c");
    assert cm.participants == ["a", "b", "c"];
    var x := cm.NextActor();
    assert x == Some("a");
    x := cm.NextActor();
    assert x == Some("b");
    x := cm.NextActor();
    assert x == Some("c");
    x := cm.NextActor();
    assert x == Some("a");
    cm.Remove("b");
    assert cm.participants == ["a", "c"];
  }
}
