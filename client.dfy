/**
 * The browser the dashboard's pages run in: its `localStorage`, the router's
 * history and the cookie jar the `fetch` calls send and update.
 */
module Client {
  import opened Wrappers
  import opened Json
  import Http

  /** The key both pages keep the login record under. */
  const LoginInfoKey := "loginInfo"
  const LoginPath := "/login"
  const HomePath := "/"

  class Browser {
    /** `localStorage`: every value is a string. */
    var storage: map<string, string>
    /** The router's history; the last entry is the current location. */
    var history: seq<string>
    /** The cookies sent with `credentials: "include"`. */
    var cookies: map<string, string>

    ghost predicate Valid()
      reads this
    {
      |history| >= 1
    }

    function Location(): string
      reads this
      requires Valid()
    {
      history[|history| - 1]
    }

    constructor (start: string)
      ensures Valid() && history == [start] && storage == map[] && cookies == map[]
    {
      storage := map[];
      history := [start];
      cookies := map[];
    }

    /** `router.push(url)`: a new history entry. */
    method Push(url: string)
      requires Valid()
      modifies this`history
      ensures Valid() && history == old(history) + [url] && Location() == url
    {
      history := history + [url];
    }

    /** `router.replace(url)`: the current entry becomes `url`. */
    method Replace(url: string)
      requires Valid()
      modifies this`history
      ensures Valid() && history == old(history)[..|old(history)| - 1] + [url] && Location() == url
      ensures |history| == |old(history)|
    {
      history := history[..|history| - 1] + [url];
    }

    /** `localStorage.setItem(key, value)`. */
    method SetItem(key: string, value: string)
      modifies this`storage
      ensures storage == old(storage)[key := value]
    {
      storage := storage[key := value];
    }

    /** `localStorage.removeItem(key)`. */
    method RemoveItem(key: string)
      modifies this`storage
      ensures storage == old(storage) - {key} && key !in storage
    {
      storage := storage - {key};
    }

    /** A response's `Set-Cookie` header reaching the jar. */
    method Receive(header: Option<string>)
      modifies this`cookies
      ensures cookies == Http.ApplySetCookie(old(cookies), header)
    {
      cookies := Http.ApplySetCookie(cookies, header);
    }
  }

  /** `localStorage.getItem(key)`: the stored text, or `null`. */
  function GetItem(storage: map<string, string>, key: string): (r: Option<string>)
    ensures r.Some? <==> key in storage
    ensures r.Some? ==> r.value == storage[key]
  {
    if key in storage then Some(storage[key]) else None
  }
}
