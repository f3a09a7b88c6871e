/** The login exchange both settings pages perform on "Save & Login":
    `POST {mikaUrl without one final slash}/login` with the username and the
    password, and the classification of its outcome into a status line. */
module Login {
  import opened Wrappers
  import opened Strings
  import opened SettingsStore

  /** The JSON body of a successful login: `{token, expires_in}` (seconds). */
  datatype LoginBody = LoginBody(token: string, expiresIn: int)

  /** What `fetch` and `res.json()` do, as seen by the page. */
  datatype LoginOutcome =
    | Accepted(body: Option<LoginBody>)  // `res.ok`; `None`: `res.json()` rejects
    | Refused(status: nat)               // `!res.ok`
    | Unreachable                        // `fetch` rejects (DNS, refused connection, ...)

  /** The login request: its URL and the two fields of its JSON body, a
      field missing when the settings have none (`JSON.stringify` drops
      `undefined`). */
  datatype LoginRequest = LoginRequest(url: string, username: Option<Value>, password: Option<Value>)

  const LoginSuccessful := "Login successful!"
  const InvalidCredentials := "Login failed: Invalid credentials or server error."
  const NetworkError := "Login failed: Network error."

  /** The status line a login outcome leaves: success only for an ok
      response with a readable body, "invalid credentials" for every
      non-ok status whatever it is, "network error" for everything thrown. */
  function LoginStatus(o: LoginOutcome): (s: string)
    ensures s == LoginSuccessful <==> o.Accepted? && o.body.Some?
    ensures s == InvalidCredentials <==> o.Refused?
    ensures s == NetworkError <==> o.Unreachable? || (o.Accepted? && o.body.None?)
  {
    match o
    case Accepted(Some(_)) => LoginSuccessful
    case Accepted(None) => NetworkError
    case Refused(_) => InvalidCredentials
    case Unreachable => NetworkError
  }

  /** `${mikaUrl.replace(/\/$/, "")}/login`. */
  function LoginUrl(mikaUrl: string): (u: string)
    ensures EndsWithSlash(mikaUrl) ==> u == mikaUrl[..|mikaUrl| - 1] + "/login"
    ensures !EndsWithSlash(mikaUrl) ==> u == mikaUrl + "/login"
  {
    StripTrailingSlash(mikaUrl) + "/login"
  }

  /** The request a page sends for its current settings, or `None` when
      `settings.mikaUrl` is not a string, so that `.replace` throws a
      `TypeError` inside the `try` before anything is sent. */
  function LoginRequestFor(settings: Record): (req: Option<LoginRequest>)
    ensures req.Some? <==> MikaUrl in settings && settings[MikaUrl].Str?
    ensures req.Some? ==> req.value.url == LoginUrl(settings[MikaUrl].s)
    ensures req.Some? ==> req.value.username == Field(settings, Username)
    ensures req.Some? ==> req.value.password == Field(settings, Password)
  {
    if MikaUrl in settings && settings[MikaUrl].Str? then
      Some(LoginRequest(LoginUrl(settings[MikaUrl].s), Field(settings, Username), Field(settings, Password)))
    else
      None
  }
}
