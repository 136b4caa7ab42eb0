/** The parts of the phone the components observe and change: whether this
    app is an active device administrator, and whether WiFi is on. */
module Device {

  class DeviceState {
    var adminActive: bool
    var wifiOn: bool

    constructor (adminActive: bool, wifiOn: bool)
      ensures this.adminActive == adminActive && this.wifiOn == wifiOn
    {
      this.adminActive := adminActive;
      this.wifiOn := wifiOn;
    }

    /** The user accepting the system's "activate device admin" dialog. */
    method GrantAdmin()
      modifies this
      ensures adminActive && wifiOn == old(wifiOn)
    {
      adminActive := true;
    }

    /** DevicePolicyManager.removeActiveAdmin for this app's receiver. */
    method RemoveActiveAdmin()
      modifies this
      ensures !adminActive && wifiOn == old(wifiOn)
    {
      adminActive := false;
    }

    /** WifiManager.setWifiEnabled when the platform carries it out. */
    method SetWifiEnabled(on: bool)
      modifies this
      ensures wifiOn == on && adminActive == old(adminActive)
    {
      wifiOn := on;
    }
  }
}
