/** The device's key-value store (AsyncStorage), held in memory. */
module Storage {
  import opened Wrappers
  import opened Records

  /** The session keys: written at login, read by the home, profile and start screens. */
  const UserEmailKey: string := "userEmail"
  const UserNameKey: string := "userName"
  const UserDisabilityKey: string := "userDisability"
  const HasLoggedInKey: string := "hasLoggedIn"

  /** `getItem`: the value under `key`, if any. */
  function Lookup(items: map<string, Blob>, key: string): (r: Option<Blob>)
    ensures r.Some? <==> key in items
    ensures r.Some? ==> items[key] == r.value
  {
    if key in items then Some(items[key]) else None
  }

  /** A session value read as a string; a structured value under a session key reads as absent. */
  function ReadString(items: map<string, Blob>, key: string): (r: Option<string>)
    ensures r.Some? <==> key in items && items[key].Str?
    ensures r.Some? ==> items[key] == Str(r.value)
  {
    match Lookup(items, key)
    case Some(Str(s)) => Some(s)
    case _ => None
  }

  /** JavaScript truthiness of a `getItem` result: present and not the empty string. */
  predicate IsTruthy(v: Option<Blob>) {
    v.Some? && v.value != Str("")
  }

  class Store {
    var items: map<string, Blob>

    constructor ()
      ensures items == map[]
    {
      items := map[];
    }

    method SetItem(key: string, value: Blob)
      modifies this
      ensures items == old(items)[key := value]
    {
      items := items[key := value];
    }

    method RemoveItem(key: string)
      modifies this
      ensures items == old(items) - {key}
    {
      items := items - {key};
    }
  }
}
