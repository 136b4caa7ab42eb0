/** The durable key/value store (Android SharedPreferences). A file maps keys
    to string or boolean values; the app opens files by name. */
module Store {

  datatype Value = Str(s: string) | Flag(b: bool)

  type Prefs = map<string, Value>

  /** All preference files of the app by name; a file never written is empty. */
  type Files = map<string, Prefs>

  /** The file that MainActivity, ServerPollingService,
      SecretCodeVerificationActivity and KnetsDeviceAdminReceiver open. */
  const MainFile := "knets_jr"

  function FileNamed(files: Files, name: string): Prefs {
    if name in files then files[name] else map[]
  }

  /** SharedPreferences.getString: the stored string, else `default`. */
  function GetString(p: Prefs, key: string, default: string): string {
    if key in p && p[key].Str? then p[key].s else default
  }

  /** SharedPreferences.getBoolean: the stored flag, else `default`. */
  function GetBoolean(p: Prefs, key: string, default: bool): bool {
    if key in p && p[key].Flag? then p[key].b else default
  }

  /** True when `p` and `q` hold the same entry (or none) under `key`. */
  predicate SameAt(p: Prefs, q: Prefs, key: string) {
    (key in p <==> key in q) && (key in p ==> p[key] == q[key])
  }

  /** One opened preference file; each `Put` is one `edit().putX().apply()`. */
  class SharedPreferences {
    const name: string
    var entries: Prefs

    constructor (name: string, entries: Prefs)
      ensures this.name == name && this.entries == entries
    {
      this.name := name;
      this.entries := entries;
    }

    method PutString(key: string, value: string)
      modifies this
      ensures entries == old(entries)[key := Str(value)]
    {
      entries := entries[key := Str(value)];
    }

    method PutBoolean(key: string, value: bool)
      modifies this
      ensures entries == old(entries)[key := Flag(value)]
    {
      entries := entries[key := Flag(value)];
    }
  }
}
