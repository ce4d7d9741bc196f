/** The factored presence decision of tado/tado.py: classifying one device,
    sweeping all devices of a poll, choosing the mode call, and deciding whether
    to log in again. */
module Tado {
  import opened Devices
  import opened Models

  /** One hour, in microseconds (the resolution of the source's timestamps). */
  const OneHour: int := 3_600_000_000

  /** Lines written to the logger. */
  datatype LogEntry =
    | NoLocationWarning(name: string)   // "No location info for device <name>"
    | DeviceInfoError                   // "Error while getting device info."

  /** What is_device_at_home yields: its answer, or the KeyError it raises. */
  datatype Verdict = Judged(atHome: bool) | KeyError

  /** The verdict on one device, with the no-location map and log lines after it. */
  datatype Classification = Classification(
    verdict: Verdict,
    noLocation: map<string, Device>,
    log: seq<LogEntry>)

  /** Every key is_device_at_home reads is there, given the ids already known to
      have no location (a device's name is read only on its first such sighting). */
  predicate Readable(noLocation: map<string, Device>, d: Device) {
    && d.id.Has? && d.location.Has?
    && if Truthy(d.location.value) then
         d.tracking.Has? &&
         (d.tracking.value ==> d.location.value.atHome.Has? && d.location.value.stale.Has?)
       else
         d.id.value in noLocation || d.name.Has?
  }

  /** The effect of is_device_at_home on a device, given the no-location map. */
  function Classify(noLocation: map<string, Device>, d: Device): (c: Classification)
    // It raises exactly when a key it reads is absent.
    ensures c.verdict == KeyError <==> !Readable(noLocation, d)
    // The answer is yes exactly for a present device.
    ensures c.verdict == Judged(true) <==> Present(d)
    // Tracking switched off: no, whatever atHome and stale hold or lack.
    ensures d.id.Has? && d.location.Has? && Truthy(d.location.value) && d.tracking == Has(false) ==>
              c.verdict == Judged(false)
    // No id or no location key: it raises before touching anything.
    ensures d.id.Missing? || d.location.Missing? ==> c == Classification(KeyError, noLocation, [])
    // A falsy location: the answer is no and the device is filed under its id; the
    // warning is written only when the id was not filed already.
    ensures d.id.Has? && d.location.Has? && !Truthy(d.location.value) && c.verdict != KeyError ==>
              && c.verdict == Judged(false)
              && c.noLocation == noLocation[d.id.value := d]
              && c.log == (if d.id.value in noLocation then [] else [NoLocationWarning(d.name.value)])
    ensures d.id.Has? && d.location.Has? && !Truthy(d.location.value) && c.verdict == KeyError ==>
              c.noLocation == noLocation && c.log == []
    // A truthy location: the id is dropped from the no-location map, and stays
    // dropped even when a KeyError follows.
    ensures d.id.Has? && d.location.Has? && Truthy(d.location.value) ==>
              c.noLocation == noLocation - {d.id.value} && c.log == []
  {
    if d.id.Missing? || d.location.Missing? then
      Classification(KeyError, noLocation, [])
    else
      var id := d.id.value;
      var loc := d.location.value;
      if !Truthy(loc) then
        if id in noLocation then
          Classification(Judged(false), noLocation[id := d], [])
        else if d.name.Missing? then
          Classification(KeyError, noLocation, [])
        else
          Classification(Judged(false), noLocation[id := d], [NoLocationWarning(d.name.value)])
      else
        var popped := noLocation - {id};
        if d.tracking.Missing? then
          Classification(KeyError, popped, [])
        else if !d.tracking.value then
          Classification(Judged(false), popped, [])
        else if loc.atHome.Missing? || loc.stale.Missing? then
          Classification(KeyError, popped, [])
        else
          Classification(Judged(loc.atHome.value && !loc.stale.value), popped, [])
  }

  /** is_device_at_home: classifies one device and updates the no-location map in place. */
  method IsDeviceAtHome(state: TadoState, device: Device) returns (verdict: Verdict, log: seq<LogEntry>)
    modifies state`devicesWithNoLocation
    ensures var c := Classify(old(state.devicesWithNoLocation), device);
            verdict == c.verdict && state.devicesWithNoLocation == c.noLocation && log == c.log
  {
    log := [];
    if device.id.Missing? {
      return KeyError, log;
    }
    var deviceId := device.id.value;
    if device.location.Missing? {
      return KeyError, log;
    }
    if !Truthy(device.location.value) {
      if deviceId !in state.devicesWithNoLocation {
        if device.name.Missing? {
          return KeyError, log;
        }
        log := [NoLocationWarning(device.name.value)];
      }
      state.devicesWithNoLocation := state.devicesWithNoLocation[deviceId := device];
      return Judged(false), log;
    } else {
      state.devicesWithNoLocation := state.devicesWithNoLocation - {deviceId};
    }
    if device.tracking.Missing? {
      return KeyError, log;
    }
    var trackingEnabled := device.tracking.value;
    var location := device.location.value;
    var atHome := false;
    var locationStale := false;
    if trackingEnabled {
      if location.atHome.Missing? {
        return KeyError, log;
      }
      atHome := location.atHome.value;
      if location.stale.Missing? {
        return KeyError, log;
      }
      locationStale := location.stale.value;
    }
    return Judged(atHome && trackingEnabled && !locationStale), log;
  }

  /** update_previous_device_state: remembers the device under its id; it raises
      KeyError when the record has no id. */
  method UpdatePreviousDeviceState(state: TadoState, device: Device) returns (raised: bool)
    modifies state`previousDeviceStates
    ensures raised <==> device.id.Missing?
    ensures !raised ==> state.previousDeviceStates == old(state.previousDeviceStates)[device.id.value := device]
    ensures raised ==> state.previousDeviceStates == old(state.previousDeviceStates)
    // No other entry changes.
    ensures forall i | i in old(state.previousDeviceStates) && device.id != Has(i) ::
              i in state.previousDeviceStates && state.previousDeviceStates[i] == old(state.previousDeviceStates)[i]
    ensures state.previousDeviceStates.Keys <= old(state.previousDeviceStates).Keys + (if raised then {} else {device.id.value})
  {
    if device.id.Missing? {
      return true;
    }
    var deviceId := device.id.value;
    state.previousDeviceStates := state.previousDeviceStates[deviceId := device];
    return false;
  }

  /** The state of is_home_occupied's loop: the devices found at home so far, the
      two maps, and the log. */
  datatype Poll = Poll(
    atHome: seq<Device>,
    noLocation: map<string, Device>,
    previous: map<string, Device>,
    log: seq<LogEntry>)

  /** One turn of is_home_occupied's loop. A device that raises KeyError is
      logged and leaves `previous` alone; any other is remembered under its id. */
  function Visit(p: Poll, d: Device): (q: Poll)
    // The device is collected exactly when it is present.
    ensures q.atHome == if Present(d) then p.atHome + [d] else p.atHome
    ensures q.noLocation == Classify(p.noLocation, d).noLocation
    // A KeyError is logged after the device's own lines and skips the update.
    ensures Classify(p.noLocation, d).verdict == KeyError ==>
              q.previous == p.previous && q.log == p.log + Classify(p.noLocation, d).log + [DeviceInfoError]
    ensures Classify(p.noLocation, d).verdict != KeyError ==>
              d.id.Has? && q.previous == p.previous[d.id.value := d] && q.log == p.log + Classify(p.noLocation, d).log
  {
    var c := Classify(p.noLocation, d);
    match c.verdict
    case KeyError =>
      Poll(p.atHome, c.noLocation, p.previous, p.log + c.log + [DeviceInfoError])
    case Judged(yes) =>
      Poll(if yes then p.atHome + [d] else p.atHome, c.noLocation, p.previous[d.id.value := d], p.log + c.log)
  }

  /** The loop of is_home_occupied run over `devices` from the given maps. */
  function Sweep(noLocation: map<string, Device>, previous: map<string, Device>, devices: seq<Device>): (p: Poll)
    decreases |devices|
    // Only devices of the poll are collected, and only present ones.
    ensures forall x | x in p.atHome :: x in devices && Present(x)
  {
    if devices == [] then Poll([], noLocation, previous, [])
    else Visit(Sweep(noLocation, previous, devices[..|devices| - 1]), devices[|devices| - 1])
  }

  /** is_home_occupied: someone is home exactly when some device is present; the
      devices that raise KeyError are skipped and the others still examined. */
  lemma {:induction false} SweepFindsPresent(noLocation: map<string, Device>, previous: map<string, Device>, devices: seq<Device>)
    ensures |Sweep(noLocation, previous, devices).atHome| > 0 <==> exists k | 0 <= k < |devices| :: Present(devices[k])
  {
    if devices != [] {
      var init := devices[..|devices| - 1];
      var last := devices[|devices| - 1];
      SweepFindsPresent(noLocation, previous, init);
      assert forall k | 0 <= k < |init| :: devices[k] == init[k];
      if exists k | 0 <= k < |devices| :: Present(devices[k]) {
        var k :| 0 <= k < |devices| && Present(devices[k]);
        if k < |init| {
          assert Present(init[k]);
        } else {
          assert last == devices[k];
        }
      }
    }
  }

  /** An id no device of the poll carries keeps its entries in both maps. */
  lemma {:induction false} SweepLeavesOthers(noLocation: map<string, Device>, previous: map<string, Device>, devices: seq<Device>, id: string)
    requires forall k | 0 <= k < |devices| :: devices[k].id != Has(id)
    ensures var p := Sweep(noLocation, previous, devices);
            && (id in p.previous <==> id in previous) && (id in previous ==> p.previous[id] == previous[id])
            && (id in p.noLocation <==> id in noLocation) && (id in noLocation ==> p.noLocation[id] == noLocation[id])
  {
    if devices != [] {
      SweepLeavesOthers(noLocation, previous, devices[..|devices| - 1], id);
    }
  }

  /** The last device of the poll with a given id decides that id's entries. When
      it raised no KeyError it is the record remembered under the id, and it is
      filed as having no location exactly when its location is falsy (so such a
      device sits in both maps). When it raised KeyError, the remembered record is
      the one from before it. Either way the no-location entry is the one that
      device left, even when a KeyError followed its removal. */
  lemma {:induction false} SweepRemembersLast(noLocation: map<string, Device>, previous: map<string, Device>, devices: seq<Device>, k: int)
    requires 0 <= k < |devices| && devices[k].id.Has?
    requires forall j | k < j < |devices| :: devices[j].id != devices[k].id
    ensures var before := Sweep(noLocation, previous, devices[..k]);
            var c := Classify(before.noLocation, devices[k]);
            var p := Sweep(noLocation, previous, devices);
            var id := devices[k].id.value;
            && (c.verdict != KeyError ==>
                  && id in p.previous && p.previous[id] == devices[k]
                  && (id in p.noLocation <==> !Truthy(devices[k].location.value)))
            && (c.verdict == KeyError ==>
                  (id in p.previous <==> id in before.previous) && (id in before.previous ==> p.previous[id] == before.previous[id]))
            && (id in p.noLocation <==> id in c.noLocation) && (id in c.noLocation ==> p.noLocation[id] == c.noLocation[id])
    decreases |devices|
  {
    var init := devices[..|devices| - 1];
    if k < |devices| - 1 {
      assert init[..k] == devices[..k];
      assert forall j | k < j < |init| :: init[j] == devices[j];
      SweepRemembersLast(noLocation, previous, init, k);
    } else {
      assert init == devices[..k];
    }
  }

  /** is_home_occupied: examines every device of the state in order, updates both
      maps in place, and reports whether any device was judged at home. */
  method IsHomeOccupied(state: TadoState) returns (occupied: bool, log: seq<LogEntry>)
    modifies state`devicesWithNoLocation, state`previousDeviceStates
    ensures var p := Sweep(old(state.devicesWithNoLocation), old(state.previousDeviceStates), state.mobileDevices);
            && state.devicesWithNoLocation == p.noLocation
            && state.previousDeviceStates == p.previous
            && log == p.log
    ensures occupied <==> exists k | 0 <= k < |state.mobileDevices| :: Present(state.mobileDevices[k])
  {
    var devicesAtHome: seq<Device> := [];
    log := [];
    var devices := state.mobileDevices;
    ghost var noLocation0, previous0 := state.devicesWithNoLocation, state.previousDeviceStates;
    for i := 0 to |devices|
      invariant state.mobileDevices == devices
      invariant Sweep(noLocation0, previous0, devices[..i])
                == Poll(devicesAtHome, state.devicesWithNoLocation, state.previousDeviceStates, log)
    {
      var device := devices[i];
      assert devices[..i + 1][..i] == devices[..i];
      var verdict, warnings := IsDeviceAtHome(state, device);
      log := log + warnings;
      if verdict == KeyError {
        log := log + [DeviceInfoError];
      } else {
        if verdict.atHome {
          devicesAtHome := devicesAtHome + [device];
        }
        var raised := UpdatePreviousDeviceState(state, device);
      }
    }
    assert devices[..|devices|] == devices;
    SweepFindsPresent(noLocation0, previous0, devices);
    occupied := |devicesAtHome| > 0;
  }

  /** update_home_state_if_required: the mode call to make, given the occupancy
      and the account's current status. */
  function UpdateHomeStateIfRequired(isHomeOccupied: bool, currentHomeStatus: string): (calls: seq<ApiCall>)
    ensures calls == [SetHome] <==> isHomeOccupied && currentHomeStatus == "AWAY"
    ensures calls == [SetAway] <==> !isHomeOccupied && currentHomeStatus == "HOME"
    // No call when the status already matches, or is neither label.
    ensures calls == [] <==> currentHomeStatus == Label(isHomeOccupied) || currentHomeStatus !in {"HOME", "AWAY"}
  {
    if isHomeOccupied && currentHomeStatus == "AWAY" then [SetHome]
    else if !isHomeOccupied && currentHomeStatus == "HOME" then [SetAway]
    else []
  }

  /** The account's status once the given calls have taken effect. */
  function StatusAfter(status: string, calls: seq<ApiCall>): string {
    if calls == [SetHome] then "HOME" else if calls == [SetAway] then "AWAY" else status
  }

  /** One mode call brings a HOME/AWAY status in line with the occupancy, and a
      second reconciliation with the same occupancy makes no call. */
  lemma ReconcileSettles(isHomeOccupied: bool, currentHomeStatus: string)
    ensures var after := StatusAfter(currentHomeStatus, UpdateHomeStateIfRequired(isHomeOccupied, currentHomeStatus));
            && (currentHomeStatus in {"HOME", "AWAY"} ==> after == Label(isHomeOccupied))
            && UpdateHomeStateIfRequired(isHomeOccupied, after) == []
  {
  }

  /** refresh_auth: logs in again (the call it makes) exactly when the last login
      is more than an hour before `now`; otherwise the current session is kept and
      no call is made. It only reads the state. */
  function RefreshAuth(state: TadoState, now: int): (calls: seq<ApiCall>)
    reads state
    ensures calls == [] || calls == [Login]
    ensures calls == [Login] <==> now - state.lastLogin > OneHour
  {
    if state.lastLogin + OneHour < now then [Login] else []
  }

  /** As written, refresh_auth never records the login it makes: once an hour
      has passed since last_login, every later poll logs in again. */
  lemma RefreshAuthLogsInOnEveryLaterPoll(state: TadoState, now: int, later: int)
    requires RefreshAuth(state, now) == [Login]
    requires now <= later
    ensures RefreshAuth(state, later) == [Login]
  {
  }

  /** refresh_auth as evidently intended: a login made is recorded as last_login,
      so the session counts as fresh for the next hour. */
  method RefreshAuthRecordingLogin(state: TadoState, now: int) returns (calls: seq<ApiCall>)
    modifies state`lastLogin
    ensures calls == old(RefreshAuth(state, now))
    ensures state.lastLogin == if calls == [Login] then now else old(state.lastLogin)
    ensures forall t | t <= now :: RefreshAuth(state, t) == []
    ensures calls == [Login] ==> forall t | t <= now + OneHour :: RefreshAuth(state, t) == []
  {
    calls := RefreshAuth(state, now);
    if calls == [Login] {
      state.lastLogin := now;
    }
  }
}
