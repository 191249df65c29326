/**
 * SingletonMonoBehaviour.cs for one component type T: the static
 * `_instance`, the lazy `Instance` getter and the register-or-destroy rule
 * of `Awake`.
 *
 * Unity's object world is abstracted to the set of live components of type
 * T (what FindObjectOfType can return), the set marked DontDestroyOnLoad,
 * and the set destroyed.
 */
module Singletons {
  /** A component of type T on some GameObject. */
  class Component {
    constructor ()
    {
    }
  }

  class Singleton {
    var instance: Component?
    var live: set<Component>
    var persistent: set<Component>
    var destroyed: set<Component>

    /** The registered instance is alive, and nothing alive has been destroyed. */
    ghost predicate Valid()
      reads this
    {
      && (instance != null ==> instance in live)
      && live !! destroyed
    }

    /** Start-up: nothing registered, the components placed in the scene are alive. */
    constructor (placed: set<Component>)
      ensures Valid()
      ensures instance == null && live == placed && persistent == {} && destroyed == {}
    {
      instance := null;
      live := placed;
      persistent := {};
      destroyed := {};
    }

    /**
     * `Awake`: the first component to wake registers itself and survives
     * scene loads; a different one destroys itself.  A registration, once
     * made, is never replaced.
     */
    method Awake(self: Component)
      requires Valid() && self in live
      modifies this
      ensures Valid()
      ensures old(instance) == null ==>
                instance == self && persistent == old(persistent) + {self}
                && live == old(live) && destroyed == old(destroyed)
      ensures old(instance) != null && old(instance) != self ==>
                instance == old(instance) && live == old(live) - {self}
                && destroyed == old(destroyed) + {self} && persistent == old(persistent)
      ensures old(instance) == self ==>
                instance == self && live == old(live) && destroyed == old(destroyed)
                && persistent == old(persistent)
    {
      if instance == null {
        instance := self;
        persistent := persistent + {self};
      } else if instance != self {
        live := live - {self};
        destroyed := destroyed + {self};
      }
    }

    /**
     * The `Instance` getter.  A registered instance is returned unchanged.
     * Otherwise a live component is found and registered; failing that, a new
     * GameObject gets the component, whose Awake (run by AddComponent)
     * registers it.
     */
    method Instance() returns (r: Component)
      requires Valid()
      modifies this
      ensures Valid()
      ensures instance == r && r in live
      ensures old(instance) != null ==>
                r == old(instance) && live == old(live) && persistent == old(persistent)
                && destroyed == old(destroyed)
      ensures old(instance) == null && old(live) != {} ==>
                r in old(live) && live == old(live) && persistent == old(persistent)
                && destroyed == old(destroyed)
      ensures old(instance) == null && old(live) == {} ==>
                fresh(r) && live == {r} && persistent == old(persistent) + {r}
                && destroyed == old(destroyed)
    {
      if instance == null {
        if live != {} {
          var found :| found in live;
          instance := found;
        } else {
          var created := new Component();
          live := live + {created};
          Awake(created);
          instance := created;
        }
      }
      r := instance;
    }

    /** Two lookups in a row give the same object. */
    method LookupIsStable() returns (first: Component, second: Component)
      requires Valid()
      modifies this
      ensures first == second
      ensures old(instance) != null ==> first == old(instance)
    {
      first := Instance();
      second := Instance();
    }
  }
}
