/** The browser's session storage: string values under string keys. */
module Browser {
  import opened Wrappers

  const AuthTokenKey := "authToken"
  const UserIdKey := "userId"
  const UsernameKey := "username"
  const IsAdminKey := "isAdmin"

  /** The four keys that hold the signed-in identity. */
  const IdentityKeys: set<string> := {AuthTokenKey, UserIdKey, UsernameKey, IsAdminKey}

  class SessionStorage {
    var entries: map<string, string>

    constructor(initial: map<string, string>)
      ensures entries == initial
    {
      entries := initial;
    }

    /** `getItem(key)`: the stored string, or `null`. */
    function Get(key: string): (v: Option<string>)
      reads this
      ensures v.Some? <==> key in entries
      ensures v.Some? ==> v.value == entries[key]
    {
      if key in entries then Some(entries[key]) else None
    }

    /** `getItem(key)` is a non-empty string, i.e. truthy. */
    predicate Holds(key: string)
      reads this
    {
      key in entries && entries[key] != ""
    }

    method SetItem(key: string, value: string)
      modifies this
      ensures entries == old(entries)[key := value]
    {
      entries := entries[key := value];
    }

    method RemoveItem(key: string)
      modifies this
      ensures entries == old(entries) - {key}
    {
      entries := entries - {key};
    }

    /** Removes the four identity keys one after the other. */
    method ClearIdentity()
      modifies this
      ensures entries == old(entries) - IdentityKeys
      ensures forall k :: k in IdentityKeys ==> k !in entries
    {
      RemoveItem(AuthTokenKey);
      RemoveItem(UserIdKey);
      RemoveItem(UsernameKey);
      RemoveItem(IsAdminKey);
    }
  }
}
