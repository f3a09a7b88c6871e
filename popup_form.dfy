/** The toolbar popup: it replaces its settings wholesale with the sync
    record when there is one, and on "Save & Login" sends the login and,
    only after an ok response with a readable body, writes the current
    settings plus the token and its expiry to the sync area. */
module Popup {
  import opened Wrappers
  import opened SettingsStore
  import opened Login

  /** The expiry the popup stores: `Date.now() + expires_in * 1000`, in
      milliseconds, with `now` the clock reading. */
  function ExpiresAt(now: int, expiresIn: int): (t: int)
    ensures expiresIn > 0 ==> t > now
    ensures t - now == 1000 * expiresIn
  {
    now + expiresIn * 1000
  }

  /** `{...settings, mikaToken: data.token, mikaTokenExpires: ...}`: the
      settings with the two token fields set and every other field as it
      was, the password among them. */
  function TokenRecord(settings: Record, body: LoginBody, now: int): (r: Record)
    ensures r.Keys == settings.Keys + {MikaToken, MikaTokenExpires}
    ensures r[MikaToken] == Str(body.token)
    ensures r[MikaTokenExpires] == Num(ExpiresAt(now, body.expiresIn))
    ensures forall k :: k in settings && k != MikaToken && k != MikaTokenExpires ==> r[k] == settings[k]
  {
    settings[MikaToken := Str(body.token)][MikaTokenExpires := Num(ExpiresAt(now, body.expiresIn))]
  }

  class PopupForm {
    var settings: Record
    var saved: bool
    var loginStatus: Option<string>

    constructor ()
      ensures settings == DefaultSettings && !saved && loginStatus == None
    {
      settings := DefaultSettings;
      saved := false;
      loginStatus := None;
    }

    /** The mount effect: the stored sync record, if any, becomes the
        settings as it is, with no merge over the defaults. */
    method Load(sync: StorageArea)
      modifies this
      ensures settings == (if sync.Stored(StorageKey).Some? then sync.Stored(StorageKey).value else old(settings))
      ensures saved == old(saved) && loginStatus == old(loginStatus)
    {
      var stored := sync.Stored(StorageKey);
      if stored.Some? {
        settings := stored.value;
      }
    }

    /** `handleChange`: one field set to the typed text. */
    method Change(name: string, value: string)
      modifies this
      ensures settings == old(settings)[name := Str(value)]
      ensures saved == old(saved) && loginStatus == old(loginStatus)
    {
      settings := settings[name := Str(value)];
    }

    /** `handleSave` with the clock reading `now` and `login` the outcome
        of the login request if one is sent. Storage changes only after an
        ok response with a readable body; the success line is shown once
        the write's callback runs, which it does even when the write failed. */
    method HandleSave(sync: StorageArea, now: int, login: LoginOutcome) returns (req: Option<LoginRequest>)
      modifies this, sync
      ensures settings == old(settings)
      ensures req == LoginRequestFor(settings)
      ensures sync.lastError == old(sync.lastError)
      ensures var writes := req.Some? && login.Accepted? && login.body.Some?;
              && sync.items == (if writes && sync.lastError.None?
                                then old(sync.items)[StorageKey := TokenRecord(settings, login.body.value, now)]
                                else old(sync.items))
              && saved == (writes || old(saved))
      ensures loginStatus == Some(if req.Some? then LoginStatus(login) else NetworkError)
    {
      loginStatus := None;
      req := LoginRequestFor(settings);
      if req.None? {
        loginStatus := Some(NetworkError);
        return;
      }
      match login {
        case Refused(_) =>
          loginStatus := Some(InvalidCredentials);
        case Unreachable =>
          loginStatus := Some(NetworkError);
        case Accepted(None) =>
          loginStatus := Some(NetworkError);
        case Accepted(Some(body)) =>
          var _ := sync.Write(StorageKey, TokenRecord(settings, body, now));
          saved := true;
          loginStatus := Some(LoginSuccessful);
      }
    }
  }
}
