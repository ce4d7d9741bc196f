/** The records of tado/models.py. */
module Models {
  import opened Devices

  /** Credentials for the remote account: both fields are required strings. */
  datatype TadoCredentials = TadoCredentials(username: string, password: string)

  /** The daemon's state record. The maps are updated in place by the
      operations of module Tado. */
  class TadoState {
    var mobileDevices: seq<Device>
    var homeState: map<string, string>
    var previousDeviceStates: map<string, Device>
    var devicesWithNoLocation: map<string, Device>
    /** Time of the last login, in microseconds. */
    var lastLogin: int

    /** A record built from the defaults. The default of last_login is evaluated
        once, when the class is defined, so every record built from the defaults
        carries that same instant, passed here as `definedAt`. */
    constructor (definedAt: int)
      ensures mobileDevices == []
      ensures homeState == map[]
      ensures previousDeviceStates == map[] && devicesWithNoLocation == map[]
      ensures lastLogin == definedAt
    {
      mobileDevices := [];
      homeState := map[];
      previousDeviceStates := map[];
      devicesWithNoLocation := map[];
      lastLogin := definedAt;
    }
  }
}
