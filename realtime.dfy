/**
 * The realtime change-notification service, reduced to a registry of live
 * channels: `channel(...).on(...).subscribe()` opens one and hands back a
 * handle, `removeChannel` closes it. Change events carry no payload that
 * the dashboard reads.
 */
module Realtime {

  class Realtime {
    /** Channels currently live. */
    var live: set<nat>
    /** The handle the next channel will receive. */
    var nextHandle: nat

    ghost predicate Valid()
      reads this
    {
      forall h :: h in live ==> h < nextHandle
    }

    constructor ()
      ensures Valid() && live == {}
    {
      live := {};
      nextHandle := 0;
    }

    /** Opens a channel; its handle is one not used before. */
    method Subscribe() returns (handle: nat)
      requires Valid()
      modifies this
      ensures Valid()
      ensures handle == old(nextHandle) && handle !in old(live)
      ensures live == old(live) + {handle}
    {
      handle := nextHandle;
      live := live + {handle};
      nextHandle := nextHandle + 1;
    }

    /** Closes a channel. */
    method RemoveChannel(handle: nat)
      requires Valid()
      modifies this
      ensures Valid()
      ensures live == old(live) - {handle}
      ensures nextHandle == old(nextHandle)
    {
      live := live - {handle};
    }
  }
}
