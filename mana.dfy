/**
 * Mana: spending succeeds only when enough is available; regeneration
 * is capped at the maximum.
 */
module Mana {

  /** `use(amount)`: whether it succeeds and the mana afterwards. */
  function Used(mana: int, amount: int): (r: (bool, int))
    ensures r.0 <==> mana >= amount
    ensures r.0 ==> r.1 == mana - amount && r.1 >= 0
    ensures !r.0 ==> r.1 == mana
  {
    if mana >= amount then (true, mana - amount) else (false, mana)
  }

  /** `regen(amount)`: `min(max_mana, mana + amount)`. */
  function Regenerated(mana: int, maxMana: int, amount: int): (r: int)
    ensures r <= maxMana
    ensures r == mana + amount || (r == maxMana && mana + amount >= maxMana)
  {
    if mana + amount < maxMana then mana + amount else maxMana
  }

  /** With non-negative amounts mana stays within `[0, max_mana]`. */
  lemma StaysInRange(mana: int, maxMana: int, amount: int)
    requires 0 <= mana <= maxMana && amount >= 0
    ensures 0 <= Used(mana, amount).1 <= maxMana
    ensures 0 <= Regenerated(mana, maxMana, amount) <= maxMana
  {
  }

  class ManaManager {
    const maxMana: int
    var mana: int

    constructor (maxMana: int)
      ensures this.maxMana == maxMana && mana == maxMana
    {
      this.maxMana := maxMana;
      mana := maxMana;
    }

    method Use(amount: int) returns (ok: bool)
      modifies this`mana
      ensures (ok, mana) == Used(old(mana), amount)
    {
      if mana >= amount {
        mana := mana - amount;
        return true;
      }
      return false;
    }

    method Regen(amount: int) returns (m: int)
      modifies this`mana
      ensures mana == Regenerated(old(mana), maxMana, amount) && m == mana
    {
      mana := if mana + amount < maxMana then mana + amount else maxMana;
      return mana;
    }
  }

  /** 50 mana: spend 20, fail to spend 40, regenerate 10. */
  method ManaScenario()
  {
    var mgr := new ManaManager(50);
    var ok := mgr.Use(20);
    assert ok && mgr.mana == 30;
    ok := mgr.Use(40);
    assert !ok && mgr.mana == 30;
    var m := mgr.Regen(10);
    assert m == 40;
  }
}
