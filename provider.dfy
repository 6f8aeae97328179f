/** The process-wide `DialogsProvider` singleton of the Qt4 interface.

    The source keeps it in a static pointer `DialogsProvider::instance`;
    Dafny has no static mutable fields, so `InstanceSlot` is an object
    holding that one pointer, and the three static member functions are its
    methods. */
module Provider {

  /** The interface thread (`intf_thread_t`) a provider is bound to. Its
      contents belong to the rest of the player and are not modelled. */
  class IntfThread {
    constructor () {}
  }

  /** A dialogs provider; of its state only the interface it serves, and
      whether it has been deleted, matter here. */
  class DialogsProvider {
    const intf: IntfThread?
    var deleted: bool

    /** The private constructor. Of its callers only `GetInstanceFor` is modelled. */
    constructor (p_intf: IntfThread?)
      ensures intf == p_intf && !deleted
    {
      intf := p_intf;
      deleted := false;
    }
  }

  /** The static `instance` pointer. `created` records every provider made
      through `GetInstanceFor`; providers made in any other way are not
      tracked by it. */
  class InstanceSlot {
    var instance: DialogsProvider?
    ghost var created: set<DialogsProvider>

    /** The singleton guarantee: a non-null pointer refers to a live provider
        made through this slot, and every other provider it made is deleted,
        so at most one provider made through the slot is live at any time. */
    ghost predicate Valid()
      reads this, created
    {
      (instance != null ==> instance in created && !instance.deleted) &&
      forall q :: q in created && q != instance ==> q.deleted
    }

    /** Before any provider exists the pointer is null. */
    constructor ()
      ensures Valid()
      ensures instance == null && created == {}
    {
      instance := null;
      created := {};
    }

    /** `getInstance()`: the current provider, which its callers must have
        created (the source asserts it); reads the pointer and changes nothing.
        The provider it returns has not been deleted. */
    method GetInstance() returns (p: DialogsProvider)
      requires Valid()
      requires instance != null
      ensures p == instance
      ensures !p.deleted
    {
      p := instance;
    }

    /** `getInstance(p_intf)`: the first call creates a provider bound to
        `p_intf`; later calls return that same provider and ignore their
        argument. */
    method GetInstanceFor(p_intf: IntfThread?) returns (p: DialogsProvider)
      requires Valid()
      modifies this
      ensures Valid()
      ensures instance == p && !p.deleted
      ensures old(instance) == null ==> fresh(p) && p.intf == p_intf && created == old(created) + {p}
      ensures old(instance) != null ==> p == old(instance) && created == old(created)
    {
      if instance == null {
        instance := new DialogsProvider(p_intf);
        created := created + {instance};
      }
      p := instance;
    }

    /** `killInstance()`: deletes the provider if there is one and leaves the
        pointer null; with none it only sets null again, so a second call is
        harmless. Afterwards no provider made through this slot is live. */
    method KillInstance()
      requires Valid()
      modifies this, instance
      ensures Valid()
      ensures instance == null && created == old(created)
      ensures old(instance) != null ==> old(instance).deleted
      ensures forall q :: q in created ==> q.deleted
    {
      if instance != null {
        instance.deleted := true;
      }
      instance := null;
    }
  }

  /** First writer wins: after `getInstance(c1)` and `getInstance(c2)` on a
      fresh process, both calls and a later `getInstance()` give one and the
      same provider, bound to `c1`. */
  method FirstWriterWins(c1: IntfThread?, c2: IntfThread?)
    returns (first: DialogsProvider, second: DialogsProvider, current: DialogsProvider)
    ensures first == second && second == current
    ensures current.intf == c1
  {
    var slot := new InstanceSlot();
    first := slot.GetInstanceFor(c1);
    second := slot.GetInstanceFor(c2);
    current := slot.GetInstance();
  }

  /** Teardown is idempotent and final: `killInstance()` twice deletes the
      provider once and leaves the pointer null, and the next
      `getInstance(c2)` builds a new provider bound to `c2` rather than
      reviving the old one. */
  method KillTwiceThenRecreate(c1: IntfThread?, c2: IntfThread?)
    returns (before: DialogsProvider, after: DialogsProvider, cleared: bool)
    ensures cleared
    ensures before.deleted && !after.deleted
    ensures before != after
    ensures before.intf == c1 && after.intf == c2
  {
    var slot := new InstanceSlot();
    before := slot.GetInstanceFor(c1);
    slot.KillInstance();
    slot.KillInstance();
    cleared := slot.instance == null;
    after := slot.GetInstanceFor(c2);
  }
}
