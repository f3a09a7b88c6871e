/** The options page: it loads the settings as defaults overridden by the
    sync record overridden by the local record, and on "Save & Login"
    validates the required fields, writes everything but the password to
    the sync area, then only the password to the local area, and only when
    both writes succeeded attempts the login. It never stores a token. */
module Options {
  import opened Wrappers
  import opened SettingsStore
  import opened Login

  const RequiredFieldsMissing := "Please fill in all required fields."
  const LoadFailed := "Failed to load settings: "
  const LoadSensitiveFailed := "Failed to load sensitive settings: "
  const SaveFailed := "Failed to save settings: "
  const SaveSensitiveFailed := "Failed to save sensitive settings: "

  /** `{...defaultSettings, ...syncSettings, ...localSettings}`, a missing
      record counting as `{}`: every field comes from the last layer that
      has it, so a local `password` wins over a synced one. */
  function Merge(sync: Option<Record>, local: Option<Record>): (r: Record)
    ensures r.Keys == DefaultSettings.Keys + sync.GetOr(map[]).Keys + local.GetOr(map[]).Keys
    ensures forall k :: k in r ==>
      r[k] == (if local.Some? && k in local.value then local.value[k]
               else if sync.Some? && k in sync.value then sync.value[k]
               else DefaultSettings[k])
  {
    DefaultSettings + sync.GetOr(map[]) + local.GetOr(map[])
  }

  /** `!settings.mikaUrl || !settings.metabaseUrl || !settings.username` is
      false; the password may be empty. */
  predicate RequiredFilled(s: Record)
  {
    FieldTruthy(s, MikaUrl) && FieldTruthy(s, MetabaseUrl) && FieldTruthy(s, Username)
  }

  /** `{...settings}` with `password` deleted: every other field, unchanged,
      including any token a popup login left in the loaded settings. */
  function SyncPart(s: Record): (r: Record)
    ensures Password !in r
    ensures forall k :: k in r <==> k in s && k != Password
    ensures forall k :: k in r ==> r[k] == s[k]
  {
    s - {Password}
  }

  /** `{password: settings.password}`: the password and nothing else
      (nothing at all when there is none, as `undefined` is not stored). */
  function LocalPart(s: Record): (r: Record)
    ensures r.Keys <= {Password}
    ensures Password in r <==> Password in s
    ensures Password in r ==> r[Password] == s[Password]
  {
    if Password in s then map[Password := s[Password]] else map[]
  }

  /** What was saved loads back as it was: merging the two written parts
      over the defaults gives the settings that were saved. */
  lemma SaveThenLoad(s: Record)
    requires DefaultSettings.Keys <= s.Keys
    ensures Merge(Some(SyncPart(s)), Some(LocalPart(s))) == s
  {
    var m := Merge(Some(SyncPart(s)), Some(LocalPart(s)));
    assert m.Keys == s.Keys;
    forall k | k in s ensures m[k] == s[k] {
    }
  }

  /** A save never creates a token: the token in what it writes to the
      sync area is whatever the sync area held when the page loaded
      (the local area holds only the password). */
  lemma SaveKeepsOnlyLoadedToken(sync0: Option<Record>, password: Value)
    ensures Field(SyncPart(Merge(sync0, Some(map[Password := password]))), MikaToken)
            == (if sync0.Some? then Field(sync0.value, MikaToken) else None)
  {
    var m := Merge(sync0, Some(map[Password := password]));
    assert MikaToken != Password;
    assert MikaToken !in DefaultSettings;
    if sync0.Some? && MikaToken in sync0.value {
      assert m[MikaToken] == sync0.value[MikaToken];
    }
  }

  class OptionsForm {
    var settings: Record
    var saved: bool
    var error: Option<string>
    var loginStatus: Option<string>

    /** The settings always have the four default fields: they start as
        the defaults and every layer or edit only adds or replaces. */
    ghost predicate Valid()
      reads this
    {
      DefaultSettings.Keys <= settings.Keys
    }

    constructor ()
      ensures Valid()
      ensures settings == DefaultSettings && !saved && error == None && loginStatus == None
    {
      settings := DefaultSettings;
      saved := false;
      error := None;
      loginStatus := None;
    }

    /** The mount effect: a failed read of either area sets an error and
        keeps the settings; otherwise the settings become the merge. */
    method Load(sync: StorageArea, local: StorageArea)
      requires Valid()
      modifies this
      ensures Valid()
      ensures saved == old(saved) && loginStatus == old(loginStatus)
      ensures var s, l := sync.Read(StorageKey), local.Read(StorageKey);
              && (s.Failure? ==> settings == old(settings) && error == Some(LoadFailed + s.error))
              && (s.Success? && l.Failure? ==> settings == old(settings) && error == Some(LoadSensitiveFailed + l.error))
              && (s.Success? && l.Success? ==> settings == Merge(s.value, l.value) && error == old(error))
    {
      var s := sync.Read(StorageKey);
      if s.Failure? {
        error := Some(LoadFailed + s.error);
        return;
      }
      var l := local.Read(StorageKey);
      if l.Failure? {
        error := Some(LoadSensitiveFailed + l.error);
        return;
      }
      settings := Merge(s.value, l.value);
    }

    /** `handleChange`: one field set to the typed text. */
    method Change(name: string, value: string)
      requires Valid()
      modifies this
      ensures Valid()
      ensures settings == old(settings)[name := Str(value)]
      ensures saved == old(saved) && error == old(error) && loginStatus == old(loginStatus)
    {
      settings := settings[name := Str(value)];
    }

    /** `handleSave`, with `login` the outcome of the login request if one
        is sent. Each stage runs only when the one before it succeeded;
        `req` is the login request, sent only after both writes. */
    method HandleSave(sync: StorageArea, local: StorageArea, login: LoginOutcome) returns (req: Option<LoginRequest>)
      requires Valid() && sync != local
      modifies this, sync, local
      ensures Valid() && settings == old(settings)
      ensures sync.lastError == old(sync.lastError) && local.lastError == old(local.lastError)
      // validation
      ensures !RequiredFilled(settings) ==>
                error == Some(RequiredFieldsMissing) && loginStatus == None && saved == old(saved)
                && sync.items == old(sync.items) && local.items == old(local.items) && req.None?
      // the sync write: everything but the password
      ensures RequiredFilled(settings) ==>
                sync.items == (if sync.lastError.None? then old(sync.items)[StorageKey := SyncPart(settings)]
                               else old(sync.items))
      ensures RequiredFilled(settings) && sync.lastError.Some? ==>
                error == Some(SaveFailed + sync.lastError.value) && loginStatus == None && saved == old(saved)
                && local.items == old(local.items) && req.None?
      // the local write: the password alone
      ensures RequiredFilled(settings) && sync.lastError.None? ==>
                local.items == (if local.lastError.None? then old(local.items)[StorageKey := LocalPart(settings)]
                                else old(local.items))
      ensures RequiredFilled(settings) && sync.lastError.None? && local.lastError.Some? ==>
                error == Some(SaveSensitiveFailed + local.lastError.value) && loginStatus == None
                && saved == old(saved) && req.None?
      // the login, after both writes
      ensures RequiredFilled(settings) && sync.lastError.None? && local.lastError.None? ==>
                error == None && saved && req == LoginRequestFor(settings)
                && loginStatus == Some(if req.Some? then LoginStatus(login) else NetworkError)
      ensures req.Some? ==> sync.items == old(sync.items)[StorageKey := SyncPart(settings)]
                            && local.items == old(local.items)[StorageKey := LocalPart(settings)]
      // what both writes stored loads back as the saved settings
      ensures RequiredFilled(settings) && sync.lastError.None? && local.lastError.None? ==>
                StorageKey in sync.items && StorageKey in local.items
                && Merge(Some(sync.items[StorageKey]), Some(local.items[StorageKey])) == settings
    {
      error := None;
      loginStatus := None;
      req := None;
      if !RequiredFilled(settings) {
        error := Some(RequiredFieldsMissing);
        return;
      }
      var syncErr := sync.Write(StorageKey, SyncPart(settings));
      if syncErr.Some? {
        error := Some(SaveFailed + syncErr.value);
        return;
      }
      var localErr := local.Write(StorageKey, LocalPart(settings));
      if localErr.Some? {
        error := Some(SaveSensitiveFailed + localErr.value);
        return;
      }
      SaveThenLoad(settings);
      saved := true;
      req := LoginRequestFor(settings);
      if req.Some? {
        loginStatus := Some(LoginStatus(login));
      } else {
        loginStatus := Some(NetworkError);
      }
    }
  }
}
