/**
 * Profession experience: accumulated xp per profession, with one level
 * per 100 xp. An unknown profession has 0 xp.
 */
module Profession {
  import opened PyOps

  /** `level_of(profession)`: the xp floor-divided by 100 (Python `//`). */
  function LevelOf(xp: map<string, int>, profession: string): (r: int)
    ensures r * 100 <= GetOrZero(xp, profession) < r * 100 + 100
  {
    GetOrZero(xp, profession) / 100
  }

  /** The xp table after `gain_xp(profession, amount)`. */
  function Gained(xp: map<string, int>, profession: string, amount: int): (r: map<string, int>)
    ensures GetOrZero(r, profession) == GetOrZero(xp, profession) + amount
    ensures forall p :: p != profession ==> GetOrZero(r, p) == GetOrZero(xp, p)
  {
    xp[profession := GetOrZero(xp, profession) + amount]
  }

  /** An unknown profession is at level 0. */
  lemma UnknownIsLevelZero(xp: map<string, int>, profession: string)
    requires profession !in xp
    ensures LevelOf(xp, profession) == 0
  {
  }

  /** Xp gains accumulate additively, and the level is that of the total. */
  lemma GainsAccumulate(xp: map<string, int>, profession: string, a: int, b: int)
    ensures GetOrZero(Gained(Gained(xp, profession, a), profession, b), profession) == GetOrZero(xp, profession) + a + b
    ensures LevelOf(Gained(Gained(xp, profession, a), profession, b), profession) == LevelOf(Gained(xp, profession, a + b), profession)
  {
  }

  /** The level is the unique `l` with `100 * l <= xp < 100 * (l + 1)`. */
  lemma LevelIsUnique(xp: map<string, int>, profession: string, l: int)
    requires l * 100 <= GetOrZero(xp, profession) < l * 100 + 100
    ensures LevelOf(xp, profession) == l
  {
    DivModUnique(GetOrZero(xp, profession), 100, l, GetOrZero(xp, profession) - l * 100);
  }

  class ProfessionManager {
    var xp: map<string, int>

    constructor ()
      ensures xp == map[]
    {
      xp := map[];
    }

    method GainXp(profession: string, amount: int)
      modifies this
      ensures xp == Gained(old(xp), profession, amount)
    {
      xp := xp[profession := GetOrZero(xp, profession) + amount];
    }

    function Level(profession: string): int
      reads this
    {
      LevelOf(xp, profession)
    }
  }

  /** 250 mining xp is level 2; an untouched profession is level 0. */
  method ProfessionScenario()
  {
    var pm := new ProfessionManager();
    pm.GainXp("mining", 250);
    assert pm.Level("mining") == 2;
    assert pm.Level("fishing") == 0;
  }
}
