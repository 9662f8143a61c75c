/**
 * The browser's geolocation facility, reduced to what the student dashboard
 * relies on: `watchPosition` registers a continuous watch and hands back a
 * numeric handle, `clearWatch` releases it. Positions themselves arrive as
 * events (see StudentSide.PositionEvent); latitude and longitude are opaque.
 */
module Geolocation {

  /** A position fix, treated as an opaque pair of coordinates. */
  datatype Coords = Coords(lat: real, lng: real)

  /** The options object passed to `watchPosition`. */
  datatype WatchOptions = WatchOptions(enableHighAccuracy: bool, maximumAgeMs: nat, timeoutMs: nat)

  class Geolocation {
    /** False when `navigator.geolocation` is missing. */
    const supported: bool
    /** Watches still registered with the sensor, by handle. */
    var watches: map<nat, WatchOptions>
    /** The handle the next registration will receive. */
    var nextHandle: nat

    ghost predicate Valid()
      reads this
    {
      (forall h :: h in watches ==> h < nextHandle) &&
      (!supported ==> watches == map[])
    }

    constructor (supported: bool)
      ensures Valid() && this.supported == supported && watches == map[]
    {
      this.supported := supported;
      watches := map[];
      nextHandle := 0;
    }

    /** Registers a continuous watch; the handle is one not used before. */
    method WatchPosition(options: WatchOptions) returns (handle: nat)
      requires Valid() && supported
      modifies this
      ensures Valid()
      ensures handle !in old(watches)
      ensures watches == old(watches)[handle := options]
    {
      handle := nextHandle;
      watches := watches[handle := options];
      nextHandle := nextHandle + 1;
    }

    /** Releases a watch; clearing an unknown handle does nothing. */
    method ClearWatch(handle: nat)
      requires Valid()
      modifies this
      ensures Valid()
      ensures watches == old(watches) - {handle}
      ensures nextHandle == old(nextHandle)
    {
      watches := watches - {handle};
    }
  }
}
