/** The browser's `localStorage`: a map from key to stored value, changed one `setItem` or
    `removeItem` at a time. Values are kept as the records they encode; JSON text is not modelled. */
module Browser {
  import opened Records

  /** What a key holds: a raw string (the session token), a user record (`sb-user`) or a list of
      reports (`reported_waste_items` and its two siblings). */
  datatype StoredValue =
    | Raw(text: string)
    | UserJson(user: User)
    | ItemsJson(items: seq<ReportedItem>)

  type Store = map<string, StoredValue>

  class LocalStorage {
    var items: Store

    constructor (initial: Store)
      ensures items == initial
    {
      items := initial;
    }

    /** `localStorage.setItem(key, value)`. */
    method SetItem(key: string, value: StoredValue)
      modifies this
      ensures items == old(items)[key := value]
    {
      items := items[key := value];
    }

    /** `localStorage.removeItem(key)`; removing an absent key changes nothing. */
    method RemoveItem(key: string)
      modifies this
      ensures items == old(items) - {key}
    {
      items := items - {key};
    }
  }
}
