/** The records the remote account API hands back on each poll, and the remote
    calls the daemon can issue. A device record is a mapping from keys to values;
    each key the daemon reads is modelled as a Field, which is Missing when the
    key is absent (reading it raises KeyError). */
module Devices {

  /** A key of a record: absent, or present with its value. */
  datatype Field<+T> = Missing | Has(value: T)

  /** The value under a device's "location" key. */
  datatype Location =
    | Null                  // the value None
    | Mapping(atHome: Field<bool>, stale: Field<bool>, otherKeys: bool)
      // a mapping; otherKeys says whether it holds keys besides atHome and stale

  /** Truthiness of a location value: None and the empty mapping are falsy. */
  predicate Truthy(loc: Location) {
    loc.Mapping? && (loc.atHome.Has? || loc.stale.Has? || loc.otherKeys)
  }

  /** A mobile device record. `tracking` is settings.geoTrackingEnabled; a missing
      "settings" key and a missing "geoTrackingEnabled" key both read as Missing. */
  datatype Device = Device(
    id: Field<string>,
    name: Field<string>,
    tracking: Field<bool>,
    location: Field<Location>)

  /** A device counts as present: geo-tracking is on, its location says it is at
      home, and that location is not stale. */
  predicate Present(d: Device) {
    && d.id.Has?
    && d.tracking == Has(true)
    && d.location.Has? && d.location.value.Mapping?
    && d.location.value.atHome == Has(true)
    && d.location.value.stale == Has(false)
  }

  /** The label of a presence value, as the account's mode and the log lines spell it. */
  function Label(atHome: bool): (s: string)
    ensures s == "HOME" || s == "AWAY"
    ensures s == "HOME" <==> atHome
  {
    if atHome then "HOME" else "AWAY"
  }

  /** Calls issued to the remote account. */
  datatype ApiCall = Login | SetHome | SetAway
}
