/**
 * Experience and levelling: experience is added, and every full
 * `threshold` of it is converted into one level.
 */
module Experience {
  import opened PyOps

  /** Level, experience and whether a level-up happened, after one `add_xp`. */
  datatype Progress = Progress(level: int, xp: int, leveled: bool)

  /**
   * The outcome of `add_xp(amount)` from `level` and `xp`, in closed form.
   * The source's loop only terminates when `threshold > 0` or no level is
   * gained, hence the precondition.
   */
  function AfterXp(level: int, xp: int, threshold: int, amount: int): (r: Progress)
    requires threshold > 0 || xp + amount < threshold
    ensures r.level * threshold + r.xp == level * threshold + xp + amount
    ensures threshold > 0 ==> r.xp < threshold
    ensures r.leveled <==> r.level > level
    ensures !r.leveled ==> r.level == level && r.xp == xp + amount
    ensures r.leveled ==> 0 <= r.xp
  {
    var t := xp + amount;
    if t < threshold then Progress(level, t, false)
    else
      assert t == (t / threshold) * threshold + t % threshold;
      assert (level + t / threshold) * threshold == level * threshold + (t / threshold) * threshold;
      assert t / threshold >= 1;
      Progress(level + t / threshold, t % threshold, true)
  }

  class ExperienceManager {
    var level: int
    var xp: int
    var threshold: int

    constructor (level: int := 1, xp: int := 0, threshold: int := 100)
      ensures this.level == level && this.xp == xp && this.threshold == threshold
    {
      this.level := level;
      this.xp := xp;
      this.threshold := threshold;
    }

    /** `add_xp`: true iff at least one level was gained. */
    method AddXp(amount: int) returns (leveled: bool)
      requires threshold > 0 || xp + amount < threshold
      modifies this`level, this`xp
      ensures Progress(level, xp, leveled) == AfterXp(old(level), old(xp), threshold, amount)
    {
      xp := xp + amount;
      leveled := false;
      ghost var gained: int := 0;
      while xp >= threshold
        invariant threshold > 0 || xp < threshold
        invariant gained >= 0 && level == old(level) + gained
        invariant xp + gained * threshold == old(xp) + amount
        invariant leveled <==> gained > 0
        invariant leveled ==> xp >= 0
        decreases xp
      {
        xp := xp - threshold;
        level := level + 1;
        leveled := true;
        gained := gained + 1;
      }
      if leveled {
        DivModUnique(old(xp) + amount, threshold, gained, xp);
      }
    }
  }

  /** At 90/100, five more stay on level 1; ten more reach level 2 with 5 left over. */
  method ExperienceScenario()
  {
    var mgr := new ExperienceManager(xp := 90);
    var up := mgr.AddXp(5);
    assert !up && mgr.level == 1 && mgr.xp == 95;
    up := mgr.AddXp(10);
    assert up && mgr.level == 2 && mgr.xp == 5;
  }
}
