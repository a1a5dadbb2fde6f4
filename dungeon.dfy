/**
 * Dungeon lockouts: per (player, dungeon) pair, the time at which the
 * player may enter that dungeon again.
 */
module Dungeon {

  /** `can_enter(player, dungeon, now)`: no lockout for the pair, or it has expired by `now`. */
  predicate CanEnter(lockouts: map<(string, string), int>, player: string, dungeon: string, now: int)
  {
    (player, dungeon) !in lockouts || now >= lockouts[(player, dungeon)]
  }

  /** Setting a lockout decides entry for that pair only: before `expires` it refuses, from then on it admits. */
  lemma LockoutDecides(lockouts: map<(string, string), int>, player: string, dungeon: string, expires: int, now: int)
    ensures CanEnter(lockouts[(player, dungeon) := expires], player, dungeon, now) <==> now >= expires
  {
  }

  /** Lockouts are independent: setting one pair's lockout does not change entry for any other pair. */
  lemma LockoutsIndependent(lockouts: map<(string, string), int>, player: string, dungeon: string, expires: int,
                            p: string, d: string, now: int)
    requires (p, d) != (player, dungeon)
    ensures CanEnter(lockouts[(player, dungeon) := expires], p, d, now) <==> CanEnter(lockouts, p, d, now)
  {
  }

  /** With no lockout recorded a player may always enter. */
  lemma NoLockoutAdmits(player: string, dungeon: string, now: int)
    ensures CanEnter(map[], player, dungeon, now)
  {
  }

  class DungeonManager {
    var lockouts: map<(string, string), int>

    constructor ()
      ensures lockouts == map[]
    {
      lockouts := map[];
    }

    /** The pair's lockout is overwritten; every other pair keeps its own. */
    method SetLockout(player: string, dungeon: string, expires: int)
      modifies this
      ensures lockouts == old(lockouts)[(player, dungeon) := expires]
    {
      lockouts := lockouts[(player, dungeon) := expires];
    }

    function CanEnterNow(player: string, dungeon: string, now: int): bool
      reads this
    {
      CanEnter(lockouts, player, dungeon, now)
    }
  }

  /** Locked out of d until 10: refused at 9, admitted at 11; another dungeon stays open. */
  method DungeonScenario()
  {
    var dm := new DungeonManager();
    dm.SetLockout("p", "d", 10);
    assert !dm.CanEnterNow("p", "d", 9);
    assert dm.CanEnterNow("p", "d", 11);
    assert dm.CanEnterNow("p", "e", 0);
  }
}
