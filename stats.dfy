/**
 * Character stats: base values plus temporary additive modifiers; an
 * unknown stat or modifier counts as 0.
 */
module Stats {
  import opened PyOps

  /** `get(stat)`: base plus modifier. */
  function Value(base: map<string, int>, mods: map<string, int>, stat: string): int
  {
    GetOrZero(base, stat) + GetOrZero(mods, stat)
  }

  /** The modifiers after `apply_modifier(stat, amount)`; `remove_modifier` applies `-amount`. */
  function Modified(mods: map<string, int>, stat: string, amount: int): (r: map<string, int>)
    ensures r.Keys == mods.Keys + {stat}
    ensures GetOrZero(r, stat) == GetOrZero(mods, stat) + amount
    ensures forall s :: s in mods && s != stat ==> r[s] == mods[s]
  {
    mods[stat := GetOrZero(mods, stat) + amount]
  }

  /** Modifiers accumulate: two changes to a stat add up, and other stats keep their value. */
  lemma ModifiersAccumulate(base: map<string, int>, mods: map<string, int>, stat: string, a: int, b: int, other: string)
    ensures Value(base, Modified(Modified(mods, stat, a), stat, b), stat) == Value(base, mods, stat) + a + b
    ensures other != stat ==> Value(base, Modified(mods, stat, a), other) == Value(base, mods, other)
  {
  }

  /** Removing what was applied gives every stat its value back. */
  lemma ApplyThenRemove(base: map<string, int>, mods: map<string, int>, stat: string, amount: int, s: string)
    ensures Value(base, Modified(Modified(mods, stat, amount), stat, -amount), s) == Value(base, mods, s)
  {
  }

  /** `to_dict`: every base stat with its current value, and nothing else. */
  function Snapshot(base: map<string, int>, mods: map<string, int>): (r: map<string, int>)
    ensures r.Keys == base.Keys
    ensures forall s :: s in r ==> r[s] == Value(base, mods, s)
  {
    map s | s in base :: Value(base, mods, s)
  }

  class StatsManager {
    var base: map<string, int>
    var mods: map<string, int>

    constructor (baseStats: map<string, int>)
      ensures base == baseStats
      ensures mods.Keys == baseStats.Keys && forall s :: s in mods ==> mods[s] == 0
    {
      base := baseStats;
      mods := map s | s in baseStats :: 0;
    }

    method ApplyModifier(stat: string, amount: int)
      modifies this`mods
      ensures mods == Modified(old(mods), stat, amount)
    {
      mods := mods[stat := GetOrZero(mods, stat) + amount];
    }

    method RemoveModifier(stat: string, amount: int)
      modifies this`mods
      ensures mods == Modified(old(mods), stat, -amount)
    {
      mods := mods[stat := GetOrZero(mods, stat) - amount];
    }

    function Get(stat: string): int
      reads this
    {
      Value(base, mods, stat)
    }

    function ToDict(): map<string, int>
      reads this
    {
      Snapshot(base, mods)
    }
  }

  /** str 10, +5 gives 15, -3 gives 12. */
  method StatsScenario()
  {
    var mgr := new StatsManager(map["str" := 10, "dex" := 5]);
    assert mgr.Get("str") == 10;
    mgr.ApplyModifier("str", 5);
    assert mgr.Get("str") == 15;
    mgr.RemoveModifier("str", 3);
    assert mgr.Get("str") == 12;
    assert mgr.ToDict()["dex"] == 5;
  }
}
