/**
 * The current and previous game state (scene names); a revert swaps them.
 */
module GameState {
  import opened Wrappers

  /** `(state, previous)` after `revert`: swapped, or unchanged with no previous state. */
  function Reverted(state: string, previous: Option<string>): (r: (string, Option<string>))
    ensures previous.None? ==> r == (state, previous)
    ensures previous.Some? ==> r.0 == previous.value && r.1 == Some(state)
  {
    if previous.Some? then (previous.value, Some(state)) else (state, previous)
  }

  /** Reverting twice puts everything back. */
  lemma RevertTwice(state: string, previous: Option<string>)
    ensures var r := Reverted(state, previous); Reverted(r.0, r.1) == (state, previous)
  {
  }

  class GameStateManager {
    var state: string
    var previous: Option<string>

    constructor (initial: string := "splash")
      ensures state == initial && previous == None
    {
      state := initial;
      previous := None;
    }

    method Change(newState: string)
      modifies this
      ensures state == newState && previous == Some(old(state))
    {
      previous := Some(state);
      state := newState;
    }

    method Revert()
      modifies this
      ensures (state, previous) == Reverted(old(state), old(previous))
    {
      if previous.Some? {
        state, previous := previous.value, Some(state);
      }
    }
  }

  /** a, change to b, revert to a; revert again to b. */
  method GameStateScenario()
  {
    var mgr := new GameStateManager();
    assert mgr.state == "splash";
    mgr := new GameStateManager("a");
    mgr.Change("b");
    assert mgr.state == "b" && mgr.previous == Some("a");
    mgr.Revert();
    assert mgr.state == "a";
    mgr.Revert();
    assert mgr.state == "b";
  }
}
