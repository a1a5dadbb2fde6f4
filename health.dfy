/**
 * Health: damage (halved when blocking, ignored when parrying) never
 * takes health below zero, and healing never goes above the maximum.
 */
module Health {

  /** The damage that lands: `amount // 2` (floor division) when blocking. */
  function Effective(amount: int, blocking: bool): (d: int)
    ensures blocking ==> 2 * d <= amount < 2 * d + 2
    ensures !blocking ==> d == amount
  {
    if blocking then amount / 2 else amount
  }

  /** Health after `take_damage`: unchanged when parrying, else `max(0, health - damage)`. */
  function Damaged(health: int, amount: int, blocking: bool, parrying: bool): (r: int)
    ensures parrying ==> r == health
    ensures !parrying ==> r >= 0
    ensures !parrying ==> r == health - Effective(amount, blocking) || (r == 0 && health - Effective(amount, blocking) <= 0)
  {
    if parrying then health
    else
      var left := health - Effective(amount, blocking);
      if left < 0 then 0 else left
  }

  /** Health after `heal`: `min(max_health, health + amount)`. */
  function Healed(health: int, maxHealth: int, amount: int): (r: int)
    ensures r <= maxHealth
    ensures r == health + amount || (r == maxHealth && health + amount >= maxHealth)
  {
    if health + amount < maxHealth then health + amount else maxHealth
  }

  /** Blocking a non-negative hit never leaves less health than taking it in full. */
  lemma BlockingNeverWorse(health: int, amount: int)
    requires amount >= 0
    ensures Damaged(health, amount, true, false) >= Damaged(health, amount, false, false)
  {
  }

  /** With non-negative amounts, health stays within `[0, max_health]`. */
  lemma StaysInRange(health: int, maxHealth: int, amount: int, blocking: bool, parrying: bool)
    requires 0 <= health <= maxHealth && amount >= 0
    ensures 0 <= Damaged(health, amount, blocking, parrying) <= maxHealth
    ensures 0 <= Healed(health, maxHealth, amount) <= maxHealth
  {
  }

  class HealthManager {
    const maxHealth: int
    var health: int

    constructor (maxHealth: int)
      ensures this.maxHealth == maxHealth && health == maxHealth
    {
      this.maxHealth := maxHealth;
      health := maxHealth;
    }

    method TakeDamage(amount: int, blocking: bool := false, parrying: bool := false) returns (h: int)
      modifies this`health
      ensures health == Damaged(old(health), amount, blocking, parrying) && h == health
    {
      if parrying {
        return health;
      }
      var a := amount;
      if blocking {
        a := a / 2;
      }
      health := if health - a < 0 then 0 else health - a;
      return health;
    }

    method Heal(amount: int) returns (h: int)
      modifies this`health
      ensures health == Healed(old(health), maxHealth, amount) && h == health
    {
      health := if health + amount < maxHealth then health + amount else maxHealth;
      return health;
    }
  }

  /** 100, hit for 30, heal 20, hit for 200: 70, 90, 0. */
  method HealthScenario()
  {
    var mgr := new HealthManager(100);
    var h := mgr.TakeDamage(30);
    assert h == 70;
    h := mgr.Heal(20);
    assert h == 90;
    h := mgr.TakeDamage(200);
    assert h == 0;
    h := mgr.Heal(500);
    assert h == 100;
    h := mgr.TakeDamage(31, blocking := true);
    assert h == 85;
    h := mgr.TakeDamage(50, parrying := true);
    assert h == 85;
  }
}
