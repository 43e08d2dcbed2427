/**
 * The login form (app/components/auth/LoginForm.tsx): credential editing and
 * the handling of the login reply. The submit handler is split at its one
 * `await`: BeginSubmit runs before the request, FinishSubmit after it.
 */
module LoginForm {
  import opened Optional
  import opened DiaryTypes
  import opened BrowserStorage
  import Api
  import AuthContext

  const DiaryPage := "/diary"
  const DefaultLoginError := "Login failed"
  const AuthenticationFailed := "Authentication failed. Please check your credentials."

  /** The two inputs wired to `handleChange`, by their `name`. */
  datatype CredentialField = UsernameField | PasswordField

  function FieldValue(c: Credentials, f: CredentialField): string
  {
    match f
    case UsernameField => c.username
    case PasswordField => c.password
  }

  /** `{...prev, [name]: value}`: the named field takes the value, the other keeps its own. */
  function WithField(c: Credentials, f: CredentialField, value: string): (r: Credentials)
    ensures FieldValue(r, f) == value
    ensures forall g :: g != f ==> FieldValue(r, g) == FieldValue(c, g)
  {
    match f
    case UsernameField => c.(username := value)
    case PasswordField => c.(password := value)
  }

  /** The user record the form hands to the session store (the server sends none). */
  function SessionUser(username: string): User
  {
    User(1, username, username + "@example.com")
  }

  /** The error a rejected login shows: the server's message, or a fixed default. */
  function RejectionMessage(t: JwtToken): (m: string)
    ensures t.message != "" ==> m == t.message
    ensures t.message == "" ==> m == DefaultLoginError
    ensures m != ""
  {
    if t.message != "" then t.message else DefaultLoginError
  }

  class LoginForm {
    var credentials: Credentials
    var error: string
    var isLoading: bool

    constructor()
      ensures credentials == Credentials("", "") && error == "" && !isLoading
    {
      credentials := Credentials("", "");
      error := "";
      isLoading := false;
    }

    method HandleChange(f: CredentialField, value: string)
      modifies this
      ensures credentials == WithField(old(credentials), f, value)
      ensures error == old(error) && isLoading == old(isLoading)
    {
      credentials := WithField(credentials, f, value);
    }

    /**
     * Submit, up to the request: loading starts, the error is cleared, and the
     * credentials as they stand are the ones sent and later signed in, whatever
     * is typed while the request is pending.
     */
    method BeginSubmit() returns (submitted: Credentials)
      modifies this
      ensures isLoading && error == "" && credentials == old(credentials)
      ensures submitted == credentials
    {
      isLoading := true;
      error := "";
      submitted := credentials;
    }

    /**
     * Submit, after the request. A reply with `success` strictly false shows
     * its message; any other reply (also one without `success`) signs the
     * user in and navigates to the diary list; a failed request shows the
     * fixed authentication message. Loading ends on every path. The user
     * signed in is built from the `submitted` credentials, not from the inputs
     * as they read when the reply arrives.
     */
    method FinishSubmit(submitted: Credentials, reply: Api.Remote<JwtToken>, auth: AuthContext.AuthProvider, b: Browser)
      returns (navigateTo: Option<string>)
      modifies this, auth, b
      ensures !isLoading && credentials == old(credentials)
      ensures reply.Failed? ==>
                && error == AuthenticationFailed && navigateTo == None && auth.user == old(auth.user)
                && b.local == old(b.local) && b.cookie == old(b.cookie)
      ensures reply.Answered? && reply.body.success == Some(false) ==>
                && error == RejectionMessage(reply.body) && navigateTo == None && auth.user == old(auth.user)
                && (Api.CarriesToken(reply.body) ==>
                      b.local == old(b.local)[TokenKey := reply.body.accessToken] && b.cookie == Some(reply.body.accessToken))
                && (!Api.CarriesToken(reply.body) ==> b.local == old(b.local) && b.cookie == old(b.cookie))
      ensures reply.Answered? && reply.body.success != Some(false) ==>
                && error == old(error) && navigateTo == Some(DiaryPage)
                && auth.user == Some(SessionUser(submitted.username))
                && b.local == old(b.local)[TokenKey := reply.body.accessToken][UserKey := UserJson(SessionUser(submitted.username))]
                && b.cookie == Some(reply.body.accessToken)
    {
      navigateTo := None;
      var r := Api.Login(b, reply);
      match r {
        case Threw(_) =>
          error := AuthenticationFailed;
        case Returned(t) =>
          if t.success == Some(false) {
            error := RejectionMessage(t);
          } else {
            auth.Login(b, t, SessionUser(submitted.username));
            navigateTo := Some(DiaryPage);
          }
      }
      isLoading := false;
    }
  }

  /**
   * Submitting, then editing the username before the reply arrives: a
   * successful reply signs in the name that was submitted, not the edited one.
   */
  method EditWhilePending(form: LoginForm, edit: string, reply: Api.Remote<JwtToken>,
                          auth: AuthContext.AuthProvider, b: Browser)
    modifies form, auth, b
    ensures form.credentials == WithField(old(form.credentials), UsernameField, edit)
    ensures reply.Answered? && reply.body.success != Some(false) ==>
              auth.user == Some(SessionUser(old(form.credentials).username))
  {
    var submitted := form.BeginSubmit();
    form.HandleChange(UsernameField, edit);
    var _ := form.FinishSubmit(submitted, reply, auth, b);
  }
}
