/**
 * Skills with cooldowns: a named skill fires its callback when at least
 * `cooldown` milliseconds have passed since it last fired.
 */
module Skills {
  import opened Wrappers

  /** Whether a skill last used at `lastUsed` may fire at `now`. */
  predicate Ready(lastUsed: int, cooldown: int, now: int)
  {
    now - lastUsed >= cooldown
  }

  /** A new skill starts at `last_used = -cooldown`, so its first use fires at any time `now >= 0`. */
  lemma FirstUseFires(cooldown: int, now: int)
    requires now >= 0
    ensures Ready(-cooldown, cooldown, now)
  {
  }

  /** After firing at `now`, the skill is refused until `now + cooldown`. */
  lemma CooldownBlocks(cooldown: int, now: int, later: int)
    ensures Ready(now, cooldown, later) <==> later >= now + cooldown
  {
  }

  /** A skill; the callback's extra arguments are not modelled. */
  class Skill<R> {
    const cooldown: int
    const execute: int -> R
    var lastUsed: int

    constructor (cooldown: int, execute: int -> R)
      ensures this.cooldown == cooldown && this.execute == execute && lastUsed == -cooldown
    {
      this.cooldown := cooldown;
      this.execute := execute;
      lastUsed := -cooldown;
    }
  }

  class SkillManager<R> {
    var skills: map<string, Skill<R>>

    /** Each name has its own skill object, so using one never touches another. */
    ghost predicate Valid()
      reads this
    {
      forall a, b :: a in skills && b in skills && a != b ==> skills[a] != skills[b]
    }

    constructor ()
      ensures Valid() && skills == map[]
    {
      skills := map[];
    }

    method Register(name: string, cooldown: int, callback: int -> R)
      requires Valid()
      modifies this
      ensures Valid()
      ensures name in skills && fresh(skills[name])
      ensures skills[name].cooldown == cooldown && skills[name].execute == callback && skills[name].lastUsed == -cooldown
      ensures skills == old(skills)[name := skills[name]]
    {
      var s := new Skill(cooldown, callback);
      skills := skills[name := s];
    }

    /**
     * `use(name, now)`: None for an unknown skill or one still cooling
     * down (which keeps its `last_used`); otherwise the skill fires, its
     * `last_used` becomes `now` and the callback's result is returned.
     */
    method Use(name: string, now: int) returns (r: Option<R>)
      requires Valid()
      modifies skills.Values
      ensures name !in skills ==> r == None
      ensures name in skills ==>
        var s := skills[name];
        (r.Some? <==> Ready(old(s.lastUsed), s.cooldown, now)) &&
        (r.Some? ==> r.value == s.execute(now) && s.lastUsed == now) &&
        (r.None? ==> s.lastUsed == old(s.lastUsed))
      ensures forall n :: n in skills && n != name ==> skills[n].lastUsed == old(skills[n].lastUsed)
    {
      if name !in skills {
        return None;
      }
      var s := skills[name];
      if now - s.lastUsed >= s.cooldown {
        s.lastUsed := now;
        return Some(s.execute(now));
      }
      return None;
    }
  }

  /** A 100 ms skill fires, is refused 50 ms later, and fires again 150 ms later. */
  method SkillScenario(now: int)
    requires now >= 0
  {
    var manager := new SkillManager<string>();
    manager.Register("special", 100, t => "ok");
    var r := manager.Use("special", now);
    assert r == Some("ok");
    r := manager.Use("special", now + 50);
    assert r == None;
    r := manager.Use("special", now + 150);
    assert r == Some("ok");
    r := manager.Use("other", now);
    assert r == None;
  }
}
