/**
 * The browser state the session code reads and writes: `localStorage` as a
 * key-to-string map and the `jwt_token` cookie the route guard reads.
 */
module BrowserStorage {
  import opened Optional
  import opened DiaryTypes
  import Text

  /** The localStorage key and cookie name of the bearer token. */
  const TokenKey := "jwt_token"
  /** The localStorage key of the serialised user. */
  const UserKey := "user"

  /** `JSON.stringify(user)` for the User record (string escaping is not modelled). */
  function UserJson(u: User): string
  {
    "{\"id\":" + Text.IntToString(u.id) + ",\"username\":\"" + u.username +
    "\",\"email\":\"" + u.email + "\"}"
  }

  class Browser {
    /** `typeof window !== 'undefined'`: false while the page renders on the server. */
    const isClient: bool
    /** localStorage. */
    var local: map<string, string>
    /** The value of the `jwt_token` cookie while it is set and unexpired. */
    var cookie: Option<string>

    constructor(isClient: bool, local: map<string, string>, cookie: Option<string>)
      ensures this.isClient == isClient && this.local == local && this.cookie == cookie
    {
      this.isClient := isClient;
      this.local := local;
      this.cookie := cookie;
    }

    /** `localStorage.getItem(key)`. */
    function GetItem(key: string): (r: Option<string>)
      reads this
      ensures r.Some? <==> key in local
      ensures r.Some? ==> r.value == local[key]
    {
      if key in local then Some(local[key]) else None
    }

    /** `localStorage.setItem(key, value)`. */
    method SetItem(key: string, value: string)
      modifies this
      ensures local == old(local)[key := value] && cookie == old(cookie)
    {
      local := local[key := value];
    }

    /** `localStorage.removeItem(key)`. */
    method RemoveItem(key: string)
      modifies this
      ensures local == old(local) - {key} && cookie == old(cookie)
    {
      local := local - {key};
    }

    /** `document.cookie = 'jwt_token=<token>; path=/; max-age=86400; SameSite=Strict'`. */
    method SetTokenCookie(token: string)
      modifies this
      ensures cookie == Some(token) && local == old(local)
    {
      cookie := Some(token);
    }

    /** `document.cookie = 'jwt_token=; path=/; expires=Thu, 01 Jan 1970 00:00:01 GMT'`. */
    method ExpireTokenCookie()
      modifies this
      ensures cookie == None && local == old(local)
    {
      cookie := None;
    }
  }
}
