/**
 * The browser's key/value stores (`localStorage`, `sessionStorage`) and the
 * records the portal keeps in them. Serialisation is not modelled: a stored
 * record reads back as the record that was written.
 */
module Storage {
  import opened Base

  /** A row returned by the admin-login procedure and kept under the 'admin' key. */
  datatype AdminUser = AdminUser(id: string, email: string, name: string)

  /** Who a managed session belongs to. */
  datatype UserType = ParentType | AdminType

  /** The record the session manager keeps under 'rajac_session'. */
  datatype ManagedSession = ManagedSession(
    userId: string, userType: UserType, createdAt: int, expiresAt: int, token: string)

  /** What `getItem` can hand back: text written by other code, or a record written by the portal. */
  datatype StoredValue =
    | Text(text: string)
    | AdminRecord(admin: AdminUser)
    | SessionRecord(session: ManagedSession)

  /** A value read from storage is truthy unless it is the empty string. */
  predicate Truthy(v: Option<StoredValue>) {
    v.Some? && v.value != Text("")
  }

  class KeyValueStore {
    var entries: map<string, StoredValue>

    constructor (initial: map<string, StoredValue>)
      ensures entries == initial
    {
      entries := initial;
    }

    /** `getItem`: the stored value, or null for a missing key. */
    function GetItem(key: string): (v: Option<StoredValue>)
      reads this
      ensures v.Some? <==> key in entries
      ensures v.Some? ==> v.value == entries[key]
    {
      if key in entries then Some(entries[key]) else None
    }

    /** `setItem`. */
    method SetItem(key: string, value: StoredValue)
      modifies this
      ensures entries == old(entries)[key := value]
    {
      entries := entries[key := value];
    }

    /** `removeItem`: deletes the key if present, anything else is kept. */
    method RemoveItem(key: string)
      modifies this
      ensures entries == old(entries) - {key}
    {
      entries := entries - {key};
    }
  }
}
