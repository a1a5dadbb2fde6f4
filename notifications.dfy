/**
 * Popup notifications: a first-in first-out queue of messages.
 */
module Notifications {
  import opened Wrappers

  /** `pop()`: the oldest message and the rest, or None and the queue unchanged when it is empty. */
  function Popped(queue: seq<string>): (r: (Option<string>, seq<string>))
    ensures r.0.None? <==> queue == []
    ensures r.0.Some? ==> r.0.value == queue[0] && [r.0.value] + r.1 == queue
    ensures r.0.None? ==> r.1 == queue
  {
    if queue == [] then (None, queue) else (Some(queue[0]), queue[1..])
  }

  /** The messages handed out by popping `n` times. */
  function PopMany(queue: seq<string>, n: nat): (r: seq<string>)
    ensures |r| == if n < |queue| then n else |queue|
  {
    var (m, rest) := Popped(queue);
    if n == 0 || m.None? then [] else [m.value] + PopMany(rest, n - 1)
  }

  /** First in, first out: popping as often as there are messages gives them in push order. */
  lemma {:induction false} PopsInPushOrder(queue: seq<string>)
    ensures PopMany(queue, |queue|) == queue
  {
    if queue != [] {
      PopsInPushOrder(queue[1..]);
    }
  }

  /** A push does not change what the earlier messages pop as. */
  lemma {:induction false} PushKeepsOrder(queue: seq<string>, m: string)
    ensures PopMany(queue + [m], |queue|) == queue
  {
    if queue != [] {
      assert (queue + [m])[1..] == queue[1..] + [m];
      PushKeepsOrder(queue[1..], m);
    }
  }

  class NotificationManager {
    var queue: seq<string>

    constructor ()
      ensures queue == []
    {
      queue := [];
    }

    method Push(message: string)
      modifies this
      ensures queue == old(queue) + [message]
    {
      queue := queue + [message];
    }

    method Pop() returns (m: Option<string>)
      modifies this
      ensures (m, queue) == Popped(old(queue))
    {
      if queue == [] {
        return None;
      }
      m := Some(queue[0]);
      queue := queue[1..];
    }
  }

  /** hi pushed, hi popped, then nothing. */
  method NotificationScenario()
  {
    var nm := new NotificationManager();
    nm.Push("hi");
    nm.Push("there");
    var m := nm.Pop();
    assert m == Some("hi");
    m := nm.Pop();
    assert m == Some("there");
    m := nm.Pop();
    assert m == None;
  }
}
