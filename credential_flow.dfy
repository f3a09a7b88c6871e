/** How the three pages share credentials through `chrome.storage`. The
    options page keeps the password in the local area and never stores a
    token; the popup writes the password and the token to the sync area;
    the chat widget reads only the sync area. The two scenarios below
    start from empty, working storage areas and follow one login from
    each settings page to the widget. */
module CredentialFlow {
  import opened Wrappers
  import opened Strings
  import opened SettingsStore
  import opened Login
  import opened ChatWidget
  import Options
  import Popup

  const DefaultMikaUrl := DefaultSettings[MikaUrl].s

  /** The settings an options-page save writes to the sync area after the
      user fills in the username and password over the defaults. */
  function OptionsSynced(username: string, password: string): (r: Record)
    ensures MikaToken !in r && MikaUrl in r && r[MikaUrl] == Str(DefaultMikaUrl)
  {
    Options.SyncPart(DefaultSettings[Username := Str(username)][Password := Str(password)])
  }

  /** The options page, fresh, with the username and password typed in and
      "Save & Login" pressed, on empty working storage areas: the sync area
      then holds exactly that record. */
  method OptionsSave(username: string, password: string, login: LoginOutcome) returns (sync: StorageArea)
    requires username != ""
    ensures fresh(sync)
    ensures sync.lastError.None? && sync.items == map[StorageKey := OptionsSynced(username, password)]
  {
    sync := new StorageArea(map[], None);
    var local := new StorageArea(map[], None);
    var form := new Options.OptionsForm();
    form.Change(Username, username);
    form.Change(Password, password);
    var s := form.settings;
    assert s == DefaultSettings[Username := Str(username)][Password := Str(password)];
    assert Options.RequiredFilled(s);
    var _ := form.HandleSave(sync, local, login);
  }

  /** From a fresh options page with the username and password typed over
      the defaults, on empty working storage: a login, whatever its
      outcome, leaves the chat locked. The widget finds the default backend
      URL in the sync area but no token, so no message typed afterwards is
      sent. (A save does write back a token it loaded from the sync area;
      see `Options.SaveKeepsOnlyLoadedToken`.) */
  method OptionsLoginThenChat(username: string, password: string, login: LoginOutcome, text: string)
    returns (backendUrl: Option<string>, token: Option<string>, sent: Option<PromptRequest>)
    requires username != ""
    ensures backendUrl == Some(DefaultMikaUrl)
    ensures token == None
    ensures sent == None
  {
    var sync := OptionsSave(username, password, login);
    var r := OptionsSynced(username, password);
    assert sync.Stored(StorageKey) == Some(r);
    assert DefaultMikaUrl[|DefaultMikaUrl| - 1] == '0';
    assert StripTrailingSlash(DefaultMikaUrl) == DefaultMikaUrl;
    assert FieldTruthy(r, MikaUrl) && r[MikaUrl].Str? && !FieldTruthy(r, MikaToken);

    var chat := new ChatSession();
    chat.LoadSettings(sync);
    backendUrl, token := chat.backendUrl, chat.token;
    assert token == None;
    chat.EditInput(text);
    assert !Dispatches(chat.input, chat.backendUrl, chat.token);
    sent := chat.Submit();
  }

  /** From a fresh popup with the username and password typed over the
      defaults, on empty working storage: a login answered with a
      non-empty token unlocks the chat. The widget sends a non-blank
      message to the default URL with that token. The same write puts the
      password in the sync area. */
  method PopupLoginThenChat(username: string, password: string, body: LoginBody, now: int, text: string)
    returns (backendUrl: Option<string>, token: Option<string>, syncedPassword: Option<Value>,
             sent: Option<PromptRequest>)
    requires body.token != ""
    ensures backendUrl == Some(DefaultMikaUrl)
    ensures token == Some(body.token)
    ensures syncedPassword == Some(Str(password))
    ensures sent.Some? <==> !AllSpace(text)
    ensures sent.Some? ==> sent.value.url == DefaultMikaUrl + "/ai/prompt"
                           && sent.value.authorization == "Bearer " + body.token
  {
    var sync := new StorageArea(map[], None);
    var popup := new Popup.PopupForm();
    popup.Change(Username, username);
    popup.Change(Password, password);
    var req := popup.HandleSave(sync, now, Accepted(Some(body)));
    assert req.Some?;
    var stored := sync.items[StorageKey];
    assert stored == Popup.TokenRecord(popup.settings, body, now);
    assert stored[MikaUrl] == Str(DefaultMikaUrl);
    syncedPassword := Field(stored, Password);
    assert DefaultMikaUrl[|DefaultMikaUrl| - 1] == '0';

    var chat := new ChatSession();
    chat.LoadSettings(sync);
    backendUrl, token := chat.backendUrl, chat.token;
    chat.EditInput(text);
    DispatchesIff(text, backendUrl, token);
    sent := chat.Submit();
  }
}
