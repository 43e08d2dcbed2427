/**
 * The session store (app/context/AuthContext.tsx): the current user, the
 * startup check that restores it from localStorage, login and logout.
 */
module AuthContext {
  import opened Optional
  import opened DiaryTypes
  import opened BrowserStorage

  const LoginPage := "/login"

  /** Both a non-empty token and a non-empty saved user are in localStorage. */
  predicate HasSavedSession(local: map<string, string>)
  {
    TokenKey in local && local[TokenKey] != "" && UserKey in local && local[UserKey] != ""
  }

  class AuthProvider {
    var user: Option<User>
    var isLoading: bool

    constructor()
      ensures user == None && isLoading
    {
      user := None;
      isLoading := true;
    }

    /** `isAuthenticated: !!user`. */
    function IsAuthenticated(): (r: bool)
      reads this
      ensures r <==> user.Some?
    {
      user.Some?
    }

    /**
     * The startup check. `parse` is `JSON.parse` on the saved user, `None`
     * where it throws. A saved session restores the user and re-sets the
     * cookie; an unreadable one is wiped; without one the cookie is cleared.
     * Whatever happens, loading ends.
     */
    method CheckAuth(b: Browser, parse: string -> Option<User>)
      modifies this, b
      ensures !isLoading
      ensures !b.isClient ==> user == old(user) && b.local == old(b.local) && b.cookie == old(b.cookie)
      ensures b.isClient && HasSavedSession(old(b.local)) && parse(old(b.local)[UserKey]).Some? ==>
                && user == parse(old(b.local)[UserKey])
                && b.local == old(b.local) && b.cookie == Some(old(b.local)[TokenKey])
      ensures b.isClient && HasSavedSession(old(b.local)) && parse(old(b.local)[UserKey]).None? ==>
                user == old(user) && b.local == old(b.local) - {TokenKey, UserKey} && b.cookie == None
      ensures b.isClient && !HasSavedSession(old(b.local)) ==>
                user == old(user) && b.local == old(b.local) && b.cookie == None
    {
      if b.isClient {
        var token := b.GetItem(TokenKey);
        var saved := b.GetItem(UserKey);
        if token.Some? && token.value != "" && saved.Some? && saved.value != "" {
          b.SetTokenCookie(token.value);
          var parsed := parse(saved.value);
          if parsed.Some? {
            user := parsed;
          } else {
            // JSON.parse threw: the catch block wipes the session.
            b.RemoveItem(TokenKey);
            b.RemoveItem(UserKey);
            b.ExpireTokenCookie();
            assert b.local == old(b.local) - {TokenKey} - {UserKey};
          }
        } else if b.cookie.Some? {
          b.ExpireTokenCookie();
        }
      }
      isLoading := false;
    }

    /** `login`: stores the token and the serialised user, sets the cookie and the user. */
    method Login(b: Browser, token: JwtToken, u: User)
      modifies this, b
      ensures b.local == old(b.local)[TokenKey := token.accessToken][UserKey := UserJson(u)]
      ensures b.cookie == Some(token.accessToken)
      ensures user == Some(u) && isLoading == old(isLoading)
    {
      b.SetItem(TokenKey, token.accessToken);
      b.SetItem(UserKey, UserJson(u));
      b.SetTokenCookie(token.accessToken);
      user := Some(u);
    }

    /** `logout`: forgets the session and, in a browser, sends the page to the login page. */
    method Logout(b: Browser) returns (navigateTo: Option<string>)
      modifies this, b
      ensures b.local == old(b.local) - {TokenKey, UserKey} && b.cookie == None
      ensures user == None && isLoading == old(isLoading)
      ensures navigateTo == if b.isClient then Some(LoginPage) else None
    {
      b.RemoveItem(TokenKey);
      b.RemoveItem(UserKey);
      b.ExpireTokenCookie();
      assert b.local == old(b.local) - {TokenKey} - {UserKey};
      user := None;
      navigateTo := if b.isClient then Some(LoginPage) else None;
    }
  }

  /**
   * What `login` leaves in localStorage is a saved session the next startup
   * check restores, as long as the token is non-empty and JSON.parse reads
   * back what JSON.stringify wrote.
   */
  lemma LoginIsRestored(local: map<string, string>, token: string, u: User, parse: string -> Option<User>)
    requires token != ""
    requires parse(UserJson(u)) == Some(u)
    ensures var saved := local[TokenKey := token][UserKey := UserJson(u)];
            HasSavedSession(saved) && parse(saved[UserKey]) == Some(u) && saved[TokenKey] == token
  {
    assert UserJson(u)[0] == '{';
  }
}
