/** One iteration of the polling loop of main.py, the older inline version of
    the presence decision: per-device presence, transition lines in the log file,
    the remembered device records, and the mode call. */
module PollLoop {
  import opened Devices
  import Tado

  /** Lines appended to the log file. */
  datatype LogLine =
    | WentFromTo(time: string, name: string, from: string, to: string)   // "'<name>' went from <from> to <to>."
    | DeviceError(time: string, device: Device)                          // a device's KeyError, with the record
    | StatusChanged(time: string, status: string)                        // "Status changed to <status>."
    | ErrorLog                                                           // the traceback of an aborted iteration

  /** How the handling of one device ends: normally, with a KeyError that is
      caught and logged, or with another exception (a None location indexed, a
      failed healthcheck request) that escapes and aborts the iteration. */
  datatype Ending = Normal | KeyErrorCaught | Aborted

  /** The effect of the loop body on one device. */
  datatype Check = Check(present: bool, lines: seq<LogLine>, stored: bool, ending: Ending)

  /** Lines 43-51 run without an exception: the keys they read are there, and a
      location that is read is a mapping. */
  predicate Readable(d: Device) {
    && d.id.Has? && d.tracking.Has? && d.name.Has?
    && (d.tracking.value ==>
          && d.location.Has? && d.location.value.Mapping?
          && d.location.value.atHome.Has? && d.location.value.stale.Has?)
  }

  /** The comparison with the remembered record is made: the id is known and
      tracking is on. */
  predicate Compared(previous: map<string, Device>, d: Device)
    requires Readable(d)
  {
    d.id.value in previous && d.tracking.value
  }

  /** The remembered record of a compared device holds a location mapping with atHome. */
  predicate Comparable(previous: map<string, Device>, d: Device)
    requires Readable(d)
  {
    Compared(previous, d) ==>
      var before := previous[d.id.value].location;
      before.Has? && before.value.Mapping? && before.value.atHome.Has?
  }

  /** The device's atHome differs from the remembered one. */
  predicate Moved(previous: map<string, Device>, d: Device)
    requires Readable(d)
  {
    && Compared(previous, d) && Comparable(previous, d)
    && previous[d.id.value].location.value.atHome.value != d.location.value.atHome.value
  }

  /** The loop body of lines 43-90 on one device, given the remembered records. */
  function CheckDevice(previous: map<string, Device>, d: Device, now: string, pingOk: bool): (c: Check)
    // The device counts towards is_home exactly when it is present, even if an
    // exception follows.
    ensures c.present <==> Present(d)
    // The device's record replaces the remembered one exactly when nothing
    // before line 80 raised.
    ensures c.stored <==> Readable(d) && Comparable(previous, d)
    // A transition line is written exactly when the device moved; it names the
    // remembered state first and the current one second.
    ensures (exists l | l in c.lines :: l.WentFromTo?) <==> Readable(d) && Moved(previous, d)
    ensures Readable(d) && Moved(previous, d) ==>
              var atHome := d.location.value.atHome.value;
              c.lines == [WentFromTo(now, d.name.value, Label(!atHome), Label(atHome))]
    // A device seen for the first time, or with tracking off, is never reported as moved.
    ensures d.id.Has? && (d.id.value !in previous || d.tracking != Has(true)) ==>
              forall l | l in c.lines :: !l.WentFromTo?
    // A caught KeyError writes one error line and keeps the remembered record.
    ensures c.ending == KeyErrorCaught ==> !c.stored && c.lines == [DeviceError(now, d)]
    // The handling ends normally exactly when the record was stored and the
    // healthcheck request succeeded; so a device that is neither stored nor
    // aborting ends in a caught KeyError, with its error line.
    ensures c.ending == Normal <==> c.stored && pingOk
    // Outside a caught KeyError the only line written is the transition line.
    ensures c.ending != KeyErrorCaught ==>
              c.lines == if Readable(d) && Moved(previous, d) then
                           [WentFromTo(now, d.name.value, Label(!d.location.value.atHome.value), Label(d.location.value.atHome.value))]
                         else []
    // The iteration is aborted when a None location is indexed, on the device or
    // on its remembered record, or when the healthcheck request fails.
    ensures c.ending == Aborted <==>
              || (d.id.Has? && d.tracking == Has(true) && d.location == Has(Null))
              || (Readable(d) && Compared(previous, d) && previous[d.id.value].location == Has(Null))
              || (c.stored && !pingOk)
  {
    if d.id.Missing? || d.tracking.Missing? then
      Check(false, [DeviceError(now, d)], false, KeyErrorCaught)
    else
      var id := d.id.value;
      var tracking := d.tracking.value;
      if tracking && d.location.Missing? then
        Check(false, [DeviceError(now, d)], false, KeyErrorCaught)
      else if tracking && d.location.value.Null? then
        Check(false, [], false, Aborted)
      else if tracking && (d.location.value.atHome.Missing? || d.location.value.stale.Missing?) then
        Check(false, [DeviceError(now, d)], false, KeyErrorCaught)
      else
        var atHome := tracking && d.location.value.atHome.value;
        var stale := tracking && d.location.value.stale.value;
        var present := atHome && tracking && !stale;
        if d.name.Missing? then
          Check(present, [DeviceError(now, d)], false, KeyErrorCaught)
        else if id in previous && tracking then
          var before := previous[id].location;
          if before.Missing? then
            Check(present, [DeviceError(now, d)], false, KeyErrorCaught)
          else if before.value.Null? then
            Check(present, [], false, Aborted)
          else if before.value.atHome.Missing? then
            Check(present, [DeviceError(now, d)], false, KeyErrorCaught)
          else
            var was := before.value.atHome.value;
            var lines := if atHome != was then [WentFromTo(now, d.name.value, Label(was), Label(atHome))] else [];
            assert atHome != was ==> lines[0] in lines;
            Check(present, lines, true, if pingOk then Normal else Aborted)
        else
          Check(present, [], true, if pingOk then Normal else Aborted)
  }

  /** The state of the per-device loop: the is_home flag, the remembered records,
      the lines written, and whether an exception escaped. */
  datatype Pass = Pass(isHome: bool, previous: map<string, Device>, lines: seq<LogLine>, aborted: bool)

  /** One turn of the per-device loop. */
  function Step(s: Pass, d: Device, now: string, pingOk: bool): (r: Pass)
    // is_home is set by a present device and never reset.
    ensures r.isHome <==> s.isHome || Present(d)
    // The log file is only appended to.
    ensures |s.lines| <= |r.lines| && r.lines[..|s.lines|] == s.lines
    // Only the entry under the device's own id can change.
    ensures forall i | i in s.previous && d.id != Has(i) :: i in r.previous && r.previous[i] == s.previous[i]
    ensures r.previous.Keys <= s.previous.Keys + (if d.id.Has? then {d.id.value} else {})
  {
    var c := CheckDevice(s.previous, d, now, pingOk);
    Pass(
      s.isHome || c.present,
      if c.stored then s.previous[d.id.value := d] else s.previous,
      s.lines + c.lines,
      c.ending == Aborted)
  }

  /** The per-device loop over `devices`: it stops at the first exception that escapes. */
  function Sweep(previous: map<string, Device>, devices: seq<Device>, now: string, pingOk: bool): (s: Pass)
    decreases |devices|
    // Only transition and device-error lines are written inside the loop.
    ensures forall l | l in s.lines :: l.WentFromTo? || l.DeviceError?
  {
    if devices == [] then Pass(false, previous, [], false)
    else
      var s := Sweep(previous, devices[..|devices| - 1], now, pingOk);
      if s.aborted then s else Step(s, devices[|devices| - 1], now, pingOk)
  }

  /** Once the loop has been aborted, the later devices change nothing. */
  lemma {:induction false} AbortIsFinal(previous: map<string, Device>, devices: seq<Device>, now: string, pingOk: bool, i: int)
    requires 0 <= i <= |devices|
    requires Sweep(previous, devices[..i], now, pingOk).aborted
    ensures Sweep(previous, devices, now, pingOk) == Sweep(previous, devices[..i], now, pingOk)
    decreases |devices|
  {
    if i < |devices| {
      var init := devices[..|devices| - 1];
      assert init[..i] == devices[..i];
      AbortIsFinal(previous, init, now, pingOk, i);
    } else {
      assert devices[..i] == devices;
    }
  }

  /** is_home starts false and is only ever set: once true after some devices,
      it is true after any longer prefix of the poll. */
  lemma {:induction false} IsHomeNeverReset(previous: map<string, Device>, devices: seq<Device>, now: string, pingOk: bool, i: int, j: int)
    requires 0 <= i <= j <= |devices|
    requires Sweep(previous, devices[..i], now, pingOk).isHome
    ensures Sweep(previous, devices[..j], now, pingOk).isHome
    decreases j
  {
    if i < j {
      IsHomeNeverReset(previous, devices, now, pingOk, i, j - 1);
      assert devices[..j][..j - 1] == devices[..j - 1];
    }
  }

  /** When the loop is not aborted, is_home ends true exactly when some device of
      the poll is present; even with aborts, it is only set by a present device. */
  lemma {:induction false} SweepIsHome(previous: map<string, Device>, devices: seq<Device>, now: string, pingOk: bool)
    ensures var s := Sweep(previous, devices, now, pingOk);
            && (s.isHome ==> exists k | 0 <= k < |devices| :: Present(devices[k]))
            && (!s.aborted ==> (s.isHome <==> exists k | 0 <= k < |devices| :: Present(devices[k])))
  {
    if devices != [] {
      var init := devices[..|devices| - 1];
      var last := devices[|devices| - 1];
      SweepIsHome(previous, init, now, pingOk);
      assert forall k | 0 <= k < |init| :: devices[k] == init[k];
      var s := Sweep(previous, init, now, pingOk);
      if s.isHome {
        var k :| 0 <= k < |init| && Present(init[k]);
        assert Present(devices[k]);
      }
      if Present(last) {
        assert Present(devices[|devices| - 1]);
      }
      if !s.aborted && exists k | 0 <= k < |devices| :: Present(devices[k]) {
        var k :| 0 <= k < |devices| && Present(devices[k]);
        if k < |init| {
          assert Present(init[k]);
        }
      }
    }
  }

  /** The last device of the poll with a given id decides what is remembered
      under it: its record when it was stored, otherwise what was remembered
      before it (a KeyError leaves the old entry intact). */
  lemma {:induction false} SweepRemembersLast(previous: map<string, Device>, devices: seq<Device>, now: string, pingOk: bool, k: int)
    requires 0 <= k < |devices| && devices[k].id.Has?
    requires forall j | k < j < |devices| :: devices[j].id != devices[k].id
    requires !Sweep(previous, devices[..k], now, pingOk).aborted
    ensures var before := Sweep(previous, devices[..k], now, pingOk).previous;
            var after := Sweep(previous, devices, now, pingOk).previous;
            var id := devices[k].id.value;
            if CheckDevice(before, devices[k], now, pingOk).stored then
              id in after && after[id] == devices[k]
            else
              (id in after <==> id in before) && (id in before ==> after[id] == before[id])
    decreases |devices|
  {
    var init := devices[..|devices| - 1];
    if k < |devices| - 1 {
      assert init[..k] == devices[..k];
      assert forall j | k < j < |init| :: init[j] == devices[j];
      SweepRemembersLast(previous, init, now, pingOk, k);
    } else {
      assert init == devices[..k];
    }
  }

  /** An id no device of the poll carries keeps its remembered record. */
  lemma {:induction false} SweepLeavesOthers(previous: map<string, Device>, devices: seq<Device>, now: string, pingOk: bool, id: string)
    requires forall k | 0 <= k < |devices| :: devices[k].id != Has(id)
    ensures var after := Sweep(previous, devices, now, pingOk).previous;
            (id in after <==> id in previous) && (id in previous ==> after[id] == previous[id])
  {
    if devices != [] {
      SweepLeavesOthers(previous, devices[..|devices| - 1], now, pingOk, id);
    }
  }

  /** The inline loop of main.py and is_home_occupied of tado/tado.py agree on
      occupancy whenever the inline loop is not aborted. */
  lemma AgreesWithTado(previous: map<string, Device>, noLocation: map<string, Device>, remembered: map<string, Device>,
                       devices: seq<Device>, now: string, pingOk: bool)
    requires !Sweep(previous, devices, now, pingOk).aborted
    ensures Sweep(previous, devices, now, pingOk).isHome <==> |Tado.Sweep(noLocation, remembered, devices).atHome| > 0
  {
    SweepIsHome(previous, devices, now, pingOk);
    Tado.SweepFindsPresent(noLocation, remembered, devices);
  }

  /** A tracked device whose location is None aborts the whole iteration when
      it is reached: no later device is handled and no mode call is made,
      whatever the other devices report. */
  lemma NullLocationAbortsIteration(previous: map<string, Device>, devices: seq<Device>, homeState: map<string, string>,
                                    now: string, pingOk: bool, callOk: bool, k: int)
    requires 0 <= k < |devices|
    requires devices[k].id.Has? && devices[k].tracking == Has(true) && devices[k].location == Has(Null)
    ensures var o := Iteration(previous, devices, homeState, now, pingOk, callOk);
            o.calls == [] && !o.completed && o.lines[|o.lines| - 1] == ErrorLog
  {
    var before := Sweep(previous, devices[..k], now, pingOk);
    if !before.aborted {
      assert devices[..k + 1][..k] == devices[..k];
      assert Sweep(previous, devices[..k + 1], now, pingOk).aborted;
      AbortIsFinal(previous, devices, now, pingOk, k + 1);
    } else {
      AbortIsFinal(previous, devices, now, pingOk, k);
    }
  }

  /** A failed healthcheck request (as when no healthcheck URL is given) aborts
      the iteration right after the first device whose record is stored: no
      later device is handled and no mode call is made. */
  lemma FailedHealthcheckAbortsIteration(previous: map<string, Device>, devices: seq<Device>, homeState: map<string, string>,
                                         now: string, callOk: bool, k: int)
    requires 0 <= k < |devices|
    requires !Sweep(previous, devices[..k], now, false).aborted
    requires CheckDevice(Sweep(previous, devices[..k], now, false).previous, devices[k], now, false).stored
    ensures var o := Iteration(previous, devices, homeState, now, false, callOk);
            o.calls == [] && !o.completed && o.lines[|o.lines| - 1] == ErrorLog
  {
    assert devices[..k + 1][..k] == devices[..k];
    AbortIsFinal(previous, devices, now, false, k + 1);
  }

  /** A record remembered with a None location (stored while tracking was off)
      makes the next tracked poll of that device abort the iteration before the
      record is replaced: no mode call is made and the same record is still
      remembered, so the next iteration in which that device is still tracked
      aborts in the same way (a poll with tracking off skips the comparison and
      replaces the record). */
  lemma NullRecordAbortsIteration(previous: map<string, Device>, devices: seq<Device>, homeState: map<string, string>,
                                  now: string, pingOk: bool, callOk: bool, k: int)
    requires 0 <= k < |devices| && Readable(devices[k]) && devices[k].tracking == Has(true)
    requires "presence" in homeState
    requires var before := Sweep(previous, devices[..k], now, pingOk);
             && !before.aborted && devices[k].id.value in before.previous
             && before.previous[devices[k].id.value].location == Has(Null)
    ensures var o := Iteration(previous, devices, homeState, now, pingOk, callOk);
            var before := Sweep(previous, devices[..k], now, pingOk);
            var id := devices[k].id.value;
            && o.calls == [] && !o.completed
            && id in o.previous && o.previous[id] == before.previous[id]
  {
    assert devices[..k + 1][..k] == devices[..k];
    AbortIsFinal(previous, devices, now, pingOk, k + 1);
  }

  /** A remembered record whose location lacks atHome (stored while tracking was
      off) is never replaced while the device is tracked: each such poll raises
      KeyError before line 80. */
  lemma RecordWithoutAtHomeIsKept(previous: map<string, Device>, d: Device, now: string, pingOk: bool)
    requires Readable(d) && d.tracking == Has(true) && d.id.value in previous
    requires previous[d.id.value].location.Has? && previous[d.id.value].location.value.Mapping?
    requires previous[d.id.value].location.value.atHome.Missing?
    ensures var c := CheckDevice(previous, d, now, pingOk);
            !c.stored && c.ending == KeyErrorCaught && c.lines == [DeviceError(now, d)]
  {
  }

  /** The effect of one iteration of the loop. */
  datatype Outcome = Outcome(previous: map<string, Device>, lines: seq<LogLine>, calls: seq<ApiCall>, completed: bool)

  /** Lines 31-99 (with the handler of lines 102-104) on one poll's devices and
      home state. `pingOk` says whether the healthcheck requests succeed and
      `callOk` whether a mode call succeeds. */
  function Iteration(previous: map<string, Device>, devices: seq<Device>, homeState: map<string, string>,
                     now: string, pingOk: bool, callOk: bool): (o: Outcome)
    // At most one mode call per iteration, and no other call.
    ensures o.calls == [] || o.calls == [SetHome] || o.calls == [SetAway]
    // No "presence" in the home state: the iteration aborts before any device.
    ensures "presence" !in homeState ==> o == Outcome(previous, [ErrorLog], [], false)
    ensures var s := Sweep(previous, devices, now, pingOk);
            && ("presence" in homeState ==> o.previous == s.previous)
            // set_home exactly when someone is home and the mode is AWAY; set_away
            // exactly when no one is and the mode is HOME; neither after an abort.
            && (o.calls == [SetHome] <==> "presence" in homeState && !s.aborted && s.isHome && homeState["presence"] == "AWAY")
            && (o.calls == [SetAway] <==> "presence" in homeState && !s.aborted && !s.isHome && homeState["presence"] == "HOME")
            // A successful call is followed by exactly one status line, naming the new mode.
            && (o.calls != [] && callOk ==> o.lines == s.lines + [StatusChanged(now, Label(s.isHome))])
            && (o.calls == [] ==> forall l | l in o.lines :: !l.StatusChanged?)
            // The loop's lines reach the log file first, whatever follows.
            && ("presence" in homeState ==> |s.lines| <= |o.lines| && o.lines[..|s.lines|] == s.lines)
            // An iteration that does not complete ends with the error log.
            && (!o.completed ==> o.lines == (if "presence" in homeState then s.lines else []) + [ErrorLog])
            && (o.completed && o.calls == [] ==> o.lines == s.lines)
            // The iteration completes exactly when nothing escaped.
            && (o.completed <==> "presence" in homeState && !s.aborted && (o.calls == [] || callOk))
  {
    if "presence" !in homeState then
      Outcome(previous, [ErrorLog], [], false)
    else
      var s := Sweep(previous, devices, now, pingOk);
      if s.aborted then
        Outcome(s.previous, s.lines + [ErrorLog], [], false)
      else
        var calls := Tado.UpdateHomeStateIfRequired(s.isHome, homeState["presence"]);
        if calls == [] then
          Outcome(s.previous, s.lines, [], true)
        else if callOk then
          Outcome(s.previous, s.lines + [StatusChanged(now, Label(s.isHome))], calls, true)
        else
          Outcome(s.previous, s.lines + [ErrorLog], calls, false)
  }

  /** The module-level state of main.py: the remembered device records, the log
      file, and the calls made to the account. */
  class Daemon {
    var previousDeviceStates: map<string, Device>
    var logFile: seq<LogLine>
    var calls: seq<ApiCall>

    constructor ()
      ensures previousDeviceStates == map[] && logFile == [] && calls == []
    {
      previousDeviceStates := map[];
      logFile := [];
      calls := [];
    }

    /** The body of lines 43-90 on one device: updates the remembered records
        and the log file in place, and says whether the device is present and how
        its handling ended. */
    method HandleDevice(device: Device, now: string, pingOk: bool) returns (present: bool, ending: Ending)
      modifies this`previousDeviceStates, this`logFile
      ensures var c := CheckDevice(old(previousDeviceStates), device, now, pingOk);
              && present == c.present && ending == c.ending
              && previousDeviceStates == (if c.stored then old(previousDeviceStates)[device.id.value := device] else old(previousDeviceStates))
              && logFile == old(logFile) + c.lines
    {
      present := false;
      if device.id.Missing? || device.tracking.Missing? {
        logFile := logFile + [DeviceError(now, device)];
        return present, KeyErrorCaught;
      }
      var deviceId := device.id.value;
      var trackingEnabled := device.tracking.value;
      var atHome := false;
      var locationStale := false;
      if trackingEnabled {
        if device.location.Missing? {
          logFile := logFile + [DeviceError(now, device)];
          return present, KeyErrorCaught;
        }
        var location := device.location.value;
        if location.Null? {
          return present, Aborted;
        }
        if location.atHome.Missing? {
          logFile := logFile + [DeviceError(now, device)];
          return present, KeyErrorCaught;
        }
        atHome := location.atHome.value;
        if location.stale.Missing? {
          logFile := logFile + [DeviceError(now, device)];
          return present, KeyErrorCaught;
        }
        locationStale := location.stale.value;
      }
      if atHome && trackingEnabled && !locationStale {
        present := true;
      }
      // Each branch of the status printout reads the device's name.
      if device.name.Missing? {
        logFile := logFile + [DeviceError(now, device)];
        return present, KeyErrorCaught;
      }
      var name := device.name.value;
      if deviceId in previousDeviceStates && trackingEnabled {
        var before := previousDeviceStates[deviceId].location;
        if before.Missing? {
          logFile := logFile + [DeviceError(now, device)];
          return present, KeyErrorCaught;
        }
        if before.value.Null? {
          return present, Aborted;
        }
        if before.value.atHome.Missing? {
          logFile := logFile + [DeviceError(now, device)];
          return present, KeyErrorCaught;
        }
        if atHome != before.value.atHome.value {
          var previousLocation := if before.value.atHome.value then "HOME" else "AWAY";
          var currentLocation := if atHome then "HOME" else "AWAY";
          logFile := logFile + [WentFromTo(now, name, previousLocation, currentLocation)];
        }
      }
      previousDeviceStates := previousDeviceStates[deviceId := device];
      if !pingOk {
        return present, Aborted;
      }
      return present, Normal;
    }

    /** The per-device loop of lines 38-90: is_home starts false and the
        devices are handled in order until an exception escapes. */
    method HandleDevices(mobileDevices: seq<Device>, now: string, pingOk: bool) returns (isHome: bool, aborted: bool)
      modifies this`previousDeviceStates, this`logFile
      ensures var s := Sweep(old(previousDeviceStates), mobileDevices, now, pingOk);
              && isHome == s.isHome && aborted == s.aborted
              && previousDeviceStates == s.previous
              && logFile == old(logFile) + s.lines
    {
      isHome := false;
      aborted := false;
      ghost var written: seq<LogLine> := [];
      var i := 0;
      while i < |mobileDevices| && !aborted
        invariant 0 <= i <= |mobileDevices|
        invariant logFile == old(logFile) + written
        invariant Sweep(old(previousDeviceStates), mobileDevices[..i], now, pingOk)
                  == Pass(isHome, previousDeviceStates, written, aborted)
      {
        assert mobileDevices[..i + 1][..i] == mobileDevices[..i];
        ghost var logged := logFile;
        var present, ending := HandleDevice(mobileDevices[i], now, pingOk);
        written := written + logFile[|logged|..];
        if present {
          isHome := true;
        }
        aborted := ending == Aborted;
        i := i + 1;
      }
      if aborted {
        AbortIsFinal(old(previousDeviceStates), mobileDevices, now, pingOk, i);
      } else {
        assert mobileDevices[..i] == mobileDevices;
      }
    }

    /** One iteration of the loop (lines 31-99, with the handler of lines 102-104). */
    method RunIteration(mobileDevices: seq<Device>, homeState: map<string, string>, now: string, pingOk: bool, callOk: bool)
      returns (completed: bool)
      modifies this
      ensures var o := Iteration(old(previousDeviceStates), mobileDevices, homeState, now, pingOk, callOk);
              && previousDeviceStates == o.previous
              && logFile == old(logFile) + o.lines
              && calls == old(calls) + o.calls
              && completed == o.completed
    {
      if "presence" !in homeState {
        logFile := logFile + [ErrorLog];
        return false;
      }
      var currentHomeState := homeState["presence"];
      var isHome, aborted := HandleDevices(mobileDevices, now, pingOk);
      if aborted {
        logFile := logFile + [ErrorLog];
        return false;
      }
      if isHome && currentHomeState == "AWAY" {
        calls := calls + [SetHome];
        if !callOk {
          logFile := logFile + [ErrorLog];
          return false;
        }
        logFile := logFile + [StatusChanged(now, "HOME")];
      } else if !isHome && currentHomeState == "HOME" {
        calls := calls + [SetAway];
        if !callOk {
          logFile := logFile + [ErrorLog];
          return false;
        }
        logFile := logFile + [StatusChanged(now, "AWAY")];
      }
      return true;
    }
  }
}
