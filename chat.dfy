/**
 * The in-game chat box: a bounded history of (user, message) pairs,
 * newest last, and an open/closed flag.
 */
module Chat {
  import opened Wrappers
  import opened PyOps

  datatype Message = Message(user: string, text: string)

  /**
   * The history after `send`: the message is appended, and if the history
   * is then longer than `max`, the oldest entry (only one) is dropped.
   */
  function Window(msgs: seq<Message>, m: Message, max: int): (r: seq<Message>)
    ensures |msgs| < max ==> r == msgs + [m]
    ensures |msgs| >= max && msgs != [] ==> r == msgs[1..] + [m]
    ensures |msgs| >= max && msgs == [] ==> r == []
    ensures 0 <= max && |msgs| <= max ==> |r| <= max
  {
    var appended := msgs + [m];
    if |appended| > max then appended[1..] else appended
  }

  /** The history after sending each of `ms` in turn. */
  function SendAll(msgs: seq<Message>, ms: seq<Message>, max: int): seq<Message>
  {
    if ms == [] then msgs else Window(SendAll(msgs, ms[..|ms| - 1], max), ms[|ms| - 1], max)
  }

  /** The last `n` entries of `s`, or all of them when there are fewer. */
  function Last(s: seq<Message>, n: nat): (r: seq<Message>)
    ensures |r| == if |s| < n then |s| else n
  {
    if |s| < n then s else s[|s| - n..]
  }

  /** Sending one more message to the last `max` of `p` gives the last `max` of `p + [m]`. */
  lemma WindowOfLast(p: seq<Message>, m: Message, max: nat)
    ensures Window(Last(p, max), m, max) == Last(p + [m], max)
  {
    var w := Last(p, max);
    var ms := p + [m];
    if |p| >= max && max > 0 {
      assert w == p[|p| - max..];
      assert Window(w, m, max) == w[1..] + [m];
      assert w[1..] == p[|p| - max + 1..];
      assert ms[|ms| - max..] == p[|p| - max + 1..] + [m];
    }
  }

  /** From an empty box, the history is always the last `max` messages sent. */
  lemma {:induction false} SendAllKeepsLast(ms: seq<Message>, max: nat)
    ensures SendAll([], ms, max) == Last(ms, max)
  {
    if ms != [] {
      var p := ms[..|ms| - 1];
      SendAllKeepsLast(p, max);
      WindowOfLast(p, ms[|ms| - 1], max);
      assert ms == p + [ms[|ms| - 1]];
    }
  }

  /**
   * `history(limit)`: everything for None, else the Python slice
   * `messages[-limit:]`. A positive limit keeps the newest `limit`
   * entries, zero keeps them all, a negative one drops the oldest `-limit`.
   */
  function History(msgs: seq<Message>, limit: Option<int>): (r: seq<Message>)
    ensures limit.None? ==> r == msgs
    ensures limit.Some? && limit.value > 0 ==> r == Last(msgs, limit.value)
    ensures limit == Some(0) ==> r == msgs
    ensures limit.Some? && limit.value < 0 ==> r == msgs[if -limit.value < |msgs| then -limit.value else |msgs|..]
  {
    if limit.None? then msgs else msgs[SliceIndex(|msgs|, -limit.value)..]
  }

  class ChatManager {
    const maxMessages: int
    var messages: seq<Message>
    var open: bool

    constructor (maxMessages: int := 50)
      ensures this.maxMessages == maxMessages && messages == [] && !open
    {
      this.maxMessages := maxMessages;
      messages := [];
      open := false;
    }

    method Toggle()
      modifies this`open
      ensures open == !old(open)
    {
      open := !open;
    }

    method Show()
      modifies this`open
      ensures open
    {
      open := true;
    }

    method Hide()
      modifies this`open
      ensures !open
    {
      open := false;
    }

    method Send(user: string, text: string)
      modifies this`messages
      ensures messages == Window(old(messages), Message(user, text), maxMessages)
    {
      messages := messages + [Message(user, text)];
      if |messages| > maxMessages {
        messages := messages[1..];
      }
    }

    function GetHistory(limit: Option<int>): seq<Message>
      reads this
    {
      History(messages, limit)
    }

    method Clear()
      modifies this`messages
      ensures messages == []
    {
      messages := [];
    }
  }

  /** With room for two, the third message pushes out the first. */
  method ChatScenario()
  {
    var chat := new ChatManager(2);
    chat.Show();
    assert chat.open;
    chat.Send("a", "hi");
    chat.Send("b", "yo");
    chat.Send("c", "hey");
    assert chat.GetHistory(None) == [Message("b", "yo"), Message("c", "hey")];
    assert chat.GetHistory(Some(1)) == [Message("c", "hey")];
    chat.Hide();
    assert !chat.open;
  }
}
