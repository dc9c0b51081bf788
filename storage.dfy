/** The browser's `localStorage` as the front end uses it: string keys,
    string values. */
module Storage {
  import opened Wrappers

  const AccessToken := "access_token"
  const RefreshToken := "refresh_token"
  const AdminToken := "admin-token"
  const RememberedEmail := "remembered_email"

  class LocalStorage {
    var items: map<string, string>

    constructor(initial: map<string, string>)
      ensures items == initial
    {
      items := initial;
    }

    /** `getItem`: the stored value, or `null`. */
    function Get(key: string): (r: Option<string>)
      reads this
      ensures r.Some? <==> key in items
      ensures r.Some? ==> r.value == items[key]
    {
      if key in items then Some(items[key]) else None
    }

    /** `setItem`: only `key` changes. */
    method Set(key: string, value: string)
      modifies this
      ensures items == old(items)[key := value]
    {
      items := items[key := value];
    }

    /** `removeItem`: only `key` goes. */
    method Remove(key: string)
      modifies this
      ensures items == old(items) - {key}
    {
      items := items - {key};
    }
  }
}
