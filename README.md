# Presence decision of the tado home/away daemon, in Dafny

The daemon polls a climate-control account for its mobile devices and its
home/away mode, decides whether anyone is at home, and switches the mode when
the two disagree. This project models that decision, in the two versions the
repository holds:

- `tado/tado.py` (module `Tado`): `is_device_at_home` classifies one device and
  files or unfiles it in the state's `devices_with_no_location` map;
  `update_previous_device_state` remembers a device record under its id;
  `is_home_occupied` loops over the state's devices, skipping those that raise
  `KeyError`; `update_home_state_if_required` chooses between `set_home`,
  `set_away` and no call; `refresh_auth` decides whether to log in again.
- `main.py` (module `PollLoop`): one iteration of the older inline loop, which
  also writes a "went from HOME to AWAY" line to the log file when a device's
  `atHome` differs from its remembered record, and a "Status changed to …" line
  for each mode call.
- `tado/models.py` (module `Models`): the `TadoState` record, a class whose
  maps the `Tado` operations update in place, and `TadoCredentials`
  (tado/models.py:14-16), a datatype of exactly a username and a password
  string, both required.

Module `Devices` holds the shapes shared by both versions. A device record is a
mapping; each key the code reads is a `Field`, `Missing` when absent (reading it
raises `KeyError`). A location is `None` (`Null`) or a mapping, which is falsy
when empty. `Present(d)` is the reference meaning of "at home": tracking on,
`atHome` true, `stale` false. Remote calls (`login`, `set_home`, `set_away`)
are `ApiCall` values; log lines are datatype values; "now" is a parameter: in
`Tado` an integer number of microseconds, in `PollLoop` the ISO-format time
string that the log lines carry.

Each operation that changes state is a method whose `ensures` ties the new
state to a pure function (`Classify`, `Sweep`, `CheckDevice`, `Iteration`), and
the properties the code promises are stated on those functions and in lemmas
about them.

Behaviours of the code worth noting:
- Devices with no location are remembered in `previous_device_states` as well,
  so the two maps are not disjoint (`Tado.SweepRemembersLast`).
- `refresh_auth` never updates `last_login` (see Findings).
- The remembered records are updated device by device inside the loop, not
  after it.
- In `main.py` a tracked device whose location is `None` does not just skip that
  device: indexing `None` raises `TypeError`, which escapes the per-device
  `KeyError` handler and aborts the whole iteration. So does a remembered
  record whose location is `None` (stored while tracking was off), which is then
  never replaced by a tracked poll, so every later poll of that device with
  tracking on aborts again, until a poll with tracking off replaces the record
  (`PollLoop.NullRecordAbortsIteration`). So does a failed healthcheck request,
  including the request made when no healthcheck URL was given
  (`PollLoop.FailedHealthcheckAbortsIteration`).
- `is_device_at_home` reads a device's name only on the first no-location
  sighting of its id, so a missing name raises `KeyError` only then.
- The default of `last_login` is evaluated once, when the class is defined.

## Model

| member | source | states |
|---|---|---|
| Models.TadoState.constructor | tado/models.py:6-11 | a record built from the defaults has no devices, an empty home state, both maps empty, and last_login equal to the instant the class was defined |
| Tado.Classify | tado/tado.py:68-84 | raises KeyError exactly when a key it reads is absent; answers yes exactly for a present device; with tracking off answers no without needing atHome or stale; a falsy location answers no, files the device under its id and warns only if the id was not filed yet; a truthy location unfiles the id even when a KeyError follows |
| Tado.IsDeviceAtHome | tado/tado.py:68-84 | returns the verdict of Classify and leaves the no-location map as Classify says, changing nothing else |
| Tado.UpdatePreviousDeviceState | tado/tado.py:87-92 | raises KeyError exactly when the record has no id; otherwise sets the entry for the device's id to the record and leaves every other entry as it was |
| Tado.IsHomeOccupied | tado/tado.py:95-110 | reports occupied exactly when some device of the state is present; both maps end as the loop specification says |
| Devices.Label | main.py:68-73 | true is labelled HOME and false AWAY; the contract restates this one-line labelling |
| Tado.Visit | tado/tado.py:99-108 | one turn of the loop: the device is collected exactly when present; a KeyError is logged and leaves previous_device_states alone; any other device is remembered under its id |
| Tado.Sweep | tado/tado.py:96-108 | the loop over the devices collects only devices of the poll that are present |
| Tado.SweepFindsPresent | tado/tado.py:95-110 | some device is collected exactly when some device of the poll is present, even with KeyError devices in the list; an empty list gives no |
| Tado.SweepLeavesOthers | tado/tado.py:98-108 | an id no device of the poll carries keeps its entries in both maps |
| Tado.SweepRemembersLast | tado/tado.py:98-108 | the last device with a given id decides that id's entries: without a KeyError it is remembered under the id and is in the no-location map exactly when its location is falsy, so such a device sits in both maps; with a KeyError the remembered record is the one from before it; the no-location entry is the one it left, also when a KeyError followed its removal |
| Tado.UpdateHomeStateIfRequired | tado/tado.py:113-119 | exactly one set_home when occupied and the status is AWAY; exactly one set_away when unoccupied and the status is HOME; no call when the status already matches or is any other string |
| Tado.ReconcileSettles | tado/tado.py:113-119 | after the chosen call a HOME/AWAY status matches the occupancy, and reconciling again makes no call |
| Tado.RefreshAuth | tado/tado.py:47-55 | logs in (one Login call) exactly when more than an hour has passed since last_login, otherwise makes no call and keeps the session; it only reads the state |
| Tado.RefreshAuthLogsInOnEveryLaterPoll | tado/tado.py:47-55 | as written, once a poll logs in, every later poll logs in too |
| Tado.RefreshAuthRecordingLogin | tado/tado.py:47-55 | corrected refresh: makes the same decision, records the login time, after which no poll within the next hour logs in |
| PollLoop.CheckDevice | main.py:43-90 | a device counts towards is_home exactly when present, even if an exception follows; its record replaces the remembered one exactly when nothing before line 80 raised; a transition line is written exactly when the id is known, tracking is on and atHome differs from the remembered record, labelled HOME/AWAY previous first; first sightings never produce one; a KeyError writes one error line and keeps the old record; handling ends normally exactly when the record was stored and the healthcheck succeeded, so a device that is not stored and does not abort ends in a caught KeyError; outside a caught KeyError the only line written is the transition line, so a quiet poll writes nothing; a None location or a failed healthcheck aborts |
| PollLoop.Step | main.py:41-90 | one turn of the loop: is_home becomes true exactly when it was or the device is present; the log is only appended to; only the entry under the device's own id can change |
| PollLoop.Sweep | main.py:41-90 | the per-device loop writes only transition and device-error lines |
| PollLoop.AbortIsFinal | main.py:41-90 | after an exception escapes the loop, later devices change nothing |
| PollLoop.IsHomeNeverReset | main.py:38-51 | is_home starts false and, once set, stays true for the rest of the loop |
| PollLoop.SweepIsHome | main.py:38-51 | is_home is only set by a present device, and when the loop is not aborted it ends true exactly when some device is present |
| PollLoop.SweepRemembersLast | main.py:80-90 | the last device with a given id decides its remembered record: that device when it was stored, otherwise the record from before it |
| PollLoop.SweepLeavesOthers | main.py:41-90 | an id no device of the poll carries keeps its remembered record |
| PollLoop.AgreesWithTado | main.py:43-50 | when not aborted, the inline loop and is_home_occupied agree on whether anyone is home |
| PollLoop.NullLocationAbortsIteration | main.py:45-46 | a tracked device with a None location aborts the iteration: no mode call, and the last log line is the error log |
| PollLoop.FailedHealthcheckAbortsIteration | main.py:80-83 | a failing healthcheck request aborts the iteration after the first stored device: no mode call, and the last log line is the error log |
| PollLoop.NullRecordAbortsIteration | main.py:60-66 | a remembered record with a None location makes a tracked poll of that device abort the iteration with no mode call, and the record stays remembered unchanged |
| PollLoop.RecordWithoutAtHomeIsKept | main.py:60-80 | a remembered record without atHome is never replaced by a poll with tracking on: each poll raises KeyError before the update |
| PollLoop.Iteration | main.py:36-99 | exactly one of no call, one set_home or one set_away; set_home exactly when someone is home, the mode is AWAY and nothing was aborted; set_away exactly when no one is home and the mode is HOME; a successful call adds exactly one status line naming the new mode; the loop's lines always reach the log file first; an iteration that does not complete ends with the error log; one that completes without a call writes only the loop's lines; no presence key aborts before any device |
| PollLoop.Daemon.constructor | main.py:27 | the remembered records start empty |
| PollLoop.Daemon.HandleDevice | main.py:43-90 | updates the remembered records and the log file in place as CheckDevice says |
| PollLoop.Daemon.HandleDevices | main.py:38-90 | runs the per-device loop in place, ending with is_home, the records and the log as Sweep says |
| PollLoop.Daemon.RunIteration | main.py:31-104 | one iteration changes the records, the log file and the calls made exactly as Iteration says |

## Left out

- The retry decorator: each wrapped remote call is one action that either succeeds or fails; its backoff and unbounded retries are not modelled.
- The remote client: fetching devices and the home state is replaced by parameters; `Tado(...)`, `get_devices` and `get_zones` at start-up, and failures of the fetches, are not modelled.
- Argument parsing and the validation of `TadoCredentials` by pydantic: the credentials are a plain record of two strings.
- Printed output, the text of log lines (they are datatype values) and writing exception files with timestamps and random names.
- `datetime.now()`, `sleep(30)` and the endless loop: one iteration is modelled, with the time as a parameter.
- Values of the wrong type (a non-mapping `settings`, a non-boolean `atHome`): only absent keys and a `None` location are modelled as failures.
- PollLoop.Daemon.HandleDevices: every healthcheck request of an iteration succeeds or fails alike (`pingOk`), because the network is not modelled per request.
- PollLoop.Daemon.RunIteration: a failing mode call is one outcome (`callOk`) rather than a modelled exception.
- Tado.RefreshAuth: returns the login call it makes instead of a client object; the session itself is not modelled.

## Findings

| source | as written | input that shows it | evidently intended | confidence | as-written member | corrected member |
|---|---|---|---|---|---|---|
| tado/tado.py:47-55 | a login made by refresh_auth is never recorded in last_login | last_login = T; polls at T + 1 hour + 1 µs and at T + 1 hour + 30 s both log in | record the login time so that logins happen at most once an hour | medium, not executed; the caller of refresh_auth is not part of this model and could record it | Tado.RefreshAuthLogsInOnEveryLaterPoll | Tado.RefreshAuthRecordingLogin |
| main.py:45-46 | the location is indexed without checking for None, so the TypeError aborts the iteration | a device with geoTrackingEnabled true and location None, mode HOME, no one home: no set_away | treat the device as not present and go on, as tado/tado.py:71-76 does | high, not executed | PollLoop.NullLocationAbortsIteration | Tado.Classify |
