/**
 * Matchmaking: a first-come first-served queue of player ids without
 * duplicates, from which groups are taken off the front.
 */
module Matchmaking {
  import opened Wrappers
  import opened PyOps

  /** The queue after `join`: the player is appended unless already queued. */
  function Joined(queue: seq<string>, player: string): (r: seq<string>)
    ensures player in r
    ensures player in queue ==> r == queue
    ensures player !in queue ==> r == queue + [player]
    ensures NoDup(queue) ==> NoDup(r)
  {
    if player in queue then queue else queue + [player]
  }

  /**
   * `match(size)`: when `len(queue) >= size`, the group `queue[:size]` and
   * the rest `queue[size:]`, with Python's slice bounds; otherwise None.
   */
  function Split(queue: seq<string>, size: int): (r: Option<(seq<string>, seq<string>)>)
    ensures r.Some? <==> |queue| >= size
    ensures r.Some? ==> r.value.0 + r.value.1 == queue
    ensures r.Some? && size >= 0 ==> r.value.0 == queue[..size]
    ensures r.Some? && size < 0 ==> |r.value.1| == if -size < |queue| then -size else |queue|
  {
    if |queue| >= size then
      var k := SliceIndex(|queue|, size);
      assert queue[..k] + queue[k..] == queue;
      Some((queue[..k], queue[k..]))
    else None
  }

  /** Taking a group off the front keeps the rest duplicate-free and disjoint from the group. */
  lemma SplitKeepsNoDup(queue: seq<string>, size: int)
    requires NoDup(queue) && Split(queue, size).Some?
    ensures NoDup(Split(queue, size).value.1)
    ensures forall p :: p in Split(queue, size).value.0 ==> p !in Split(queue, size).value.1
  {
    var (group, rest) := Split(queue, size).value;
    forall i, j | 0 <= i < j < |rest| ensures rest[i] != rest[j] {
      assert rest[i] == queue[|group| + i] && rest[j] == queue[|group| + j];
    }
    forall i, j | 0 <= i < |group| && 0 <= j < |rest| ensures group[i] != rest[j] {
      assert group[i] == queue[i] && rest[j] == queue[|group| + j];
    }
  }

  class MatchmakingManager {
    var queue: seq<string>

    constructor ()
      ensures queue == []
    {
      queue := [];
    }

    method Join(player: string)
      modifies this
      ensures queue == Joined(old(queue), player)
    {
      if player !in queue {
        queue := queue + [player];
      }
    }

    /** The first `size` players, removed from the queue; None when too few are queued. */
    method Match(size: int := 2) returns (group: Option<seq<string>>)
      modifies this
      ensures var s := Split(old(queue), size);
        (group.Some? <==> s.Some?) &&
        (s.Some? ==> group.value == s.value.0 && queue == s.value.1) &&
        (s.None? ==> queue == old(queue))
    {
      if |queue| >= size {
        var k := SliceIndex(|queue|, size);
        group := Some(queue[..k]);
        queue := queue[k..];
      } else {
        group := None;
      }
    }
  }

  /** Two players join, and one match of two takes both. */
  method MatchmakingScenario()
  {
    var mm := new MatchmakingManager();
    mm.Join("p1");
    mm.Join("p2");
    mm.Join("p1");
    assert mm.queue == ["p1", "p2"];
    var g := mm.Match(2);
    assert ["p1", "p2"][..2] == ["p1", "p2"];
    assert g == Some(["p1", "p2"]) && mm.queue == [];
    g := mm.Match(2);
    assert g == None;
  }
}
