/**
 * Key bindings: a fixed table of default keys per action and the current
 * bindings, which start as a copy of the defaults.
 */
module Keybinds {
  import opened Wrappers

  /** `bindings.get(action, defaults.get(action))`. */
  function Lookup(bindings: map<string, int>, defaults: map<string, int>, action: string): (r: Option<int>)
    ensures action in bindings ==> r == Some(bindings[action])
    ensures action !in bindings && action in defaults ==> r == Some(defaults[action])
    ensures r.None? <==> action !in bindings && action !in defaults
  {
    if action in bindings then Some(bindings[action])
    else if action in defaults then Some(defaults[action])
    else None
  }

  /** The defaults with `data` written over them, as `load_from_dict` builds. */
  function Overlay(defaults: map<string, int>, data: map<string, int>): (r: map<string, int>)
    ensures r.Keys == defaults.Keys + data.Keys
    ensures forall a :: a in data ==> r[a] == data[a]
    ensures forall a :: a in defaults && a !in data ==> r[a] == defaults[a]
  {
    defaults + data
  }

  /** Loading the bindings of an earlier save forgets every action bound since, except defaults. */
  lemma OverlayForgets(defaults: map<string, int>, saved: map<string, int>, action: string)
    requires action !in defaults && action !in saved
    ensures Lookup(Overlay(defaults, saved), defaults, action) == None
  {
  }

  class KeybindManager {
    const defaults: map<string, int>
    var bindings: map<string, int>

    /** Every default action stays bound. */
    ghost predicate Valid()
      reads this
    {
      defaults.Keys <= bindings.Keys
    }

    constructor (defaults: map<string, int>)
      ensures Valid() && this.defaults == defaults && bindings == defaults
    {
      this.defaults := defaults;
      bindings := defaults;
    }

    function Get(action: string): Option<int>
      reads this
    {
      Lookup(bindings, defaults, action)
    }

    /** Only `action` changes. */
    method Set(action: string, key: int)
      requires Valid()
      modifies this`bindings
      ensures Valid()
      ensures bindings == old(bindings)[action := key]
      ensures Get(action) == Some(key)
      ensures forall a :: a != action ==> Get(a) == old(Get(a))
    {
      bindings := bindings[action := key];
    }

    method Reset()
      modifies this`bindings
      ensures Valid() && bindings == defaults
    {
      bindings := defaults;
    }

    function ToDict(): map<string, int>
      reads this
    {
      bindings
    }

    /** Start again from the defaults and write every entry of `data` over them. */
    method LoadFromDict(data: map<string, int>)
      modifies this`bindings
      ensures Valid()
      ensures bindings == Overlay(defaults, data)
    {
      bindings := defaults;
      var todo := data.Keys;
      while todo != {}
        invariant todo <= data.Keys
        invariant bindings == defaults + map a | a in data.Keys - todo :: data[a]
        decreases todo
      {
        var a :| a in todo;
        bindings := bindings[a := data[a]];
        todo := todo - {a};
      }
      assert (map a | a in data.Keys - todo :: data[a]) == data;
    }
  }

  /** Rebind jump, save, bind shoot, load the save: shoot is gone; reset restores jump. */
  method KeybindScenario()
  {
    var mgr := new KeybindManager(map["jump" := 32]);
    assert mgr.Get("jump") == Some(32);
    mgr.Set("jump", 10);
    assert mgr.Get("jump") == Some(10);
    var saved := mgr.ToDict();
    mgr.Set("shoot", 5);
    mgr.LoadFromDict(saved);
    assert "shoot" !in mgr.bindings;
    mgr.Reset();
    assert mgr.Get("jump") == Some(32);
  }
}
