/**
 * The browser state the client shares between its parts: window.localStorage,
 * a map from key strings to value strings, and the current location.
 *
 * Three storage keys are in use and none of them is derived from another:
 * "user" (written by AuthProvider, read by loginApi.getUser and so by the request
 * interceptor), "authToken" (setAuthToken / getAuthToken / isAuthenticated) and
 * "token" (read by the route guards, written by nothing in this client).
 */
module WebStorage {
  import opened Wrappers

  const UserKey := "user"
  const AuthTokenKey := "authToken"
  const TokenKey := "token"

  /** Where the client goes when there is no session. */
  const LoginPath := "/auth/login"

  /** localStorage.getItem(key): the stored string, or null (None). */
  function Item(storage: map<string, string>, key: string): (r: Option<string>)
    ensures r.Some? <==> key in storage
    ensures r.Some? ==> storage[key] == r.value
  {
    if key in storage then Some(storage[key]) else None
  }

  class Browser {
    var storage: map<string, string>
    var location: string

    constructor (storage0: map<string, string>, location0: string)
      ensures storage == storage0 && location == location0
    {
      storage := storage0;
      location := location0;
    }

    /** localStorage.getItem */
    method GetItem(key: string) returns (r: Option<string>)
      ensures r == Item(storage, key)
    {
      r := if key in storage then Some(storage[key]) else None;
    }

    /** localStorage.setItem, with the value already converted to a string. */
    method SetItem(key: string, value: string)
      modifies this
      ensures storage == old(storage)[key := value] && location == old(location)
    {
      storage := storage[key := value];
    }

    /** localStorage.removeItem: removing an absent key is not an error. */
    method RemoveItem(key: string)
      modifies this
      ensures storage == old(storage) - {key} && location == old(location)
    {
      storage := storage - {key};
    }

    /** window.location.href = path, or a router navigation to path. */
    method Navigate(path: string)
      modifies this
      ensures location == path && storage == old(storage)
    {
      location := path;
    }
  }
}
