# Mika for Metabase: a Dafny model

Mika is a browser extension plus a small Python backend. The extension has three parts:

- a chat widget injected into pages;
- an options page;
- a toolbar popup.

The widget sends the conversation to the backend's `POST /ai/prompt`. The endpoint runs an LLM agent, which has four tools: `generate_sql`, `create_card`, `list_metabase_databases` and `end_conversation`.

This project models the logic of those five source files and proves properties of it:

- **The chat widget** (`chat_widget.dfy`):
  - the message log;
  - the guard that decides whether a message is sent;
  - the request it sends;
  - the one assistant message each outcome of the request appends;
  - the settings it loads from the sync storage area;
  - the flattening of code-block children;
  - the `language-xxx` tag;
  - the Markdown error boundary.
- **The two settings pages** (`options_form.dfy`, `popup_form.dfy`, `login.dfy`):
  - how they load settings;
  - the fields they validate;
  - what they write to which `chrome.storage` area, and in which order;
  - the login request;
  - the status line each login outcome leaves.
- **Storage** (`settings_store.dfy`). Stored records are maps from field name to value, because the pages' object spreads keep unknown fields. Each storage area is a class with an `items` map and a `lastError` that stands for `chrome.runtime.lastError`.
- **How credentials travel between the pages** (`credential_flow.dfy`). There are two scenarios built from the page and widget methods. Each starts from a fresh page, with the username and password typed over the defaults, on empty working storage:
  - a login from the options page gives the widget no token;
  - a login from the popup gives the widget its token, and also puts the password in the sync area.
- **The backend handler** (`prompt_api.dfy`). `handle_prompt` takes the reply from the run, takes the SQL from the last `generate_sql` tool item, and returns a fixed error response on any exception.
- **The agent's tools** (`metabase_agent.dfy`):
  - the keyword rule of `generate_sql`;
  - the placeholder card;
  - the configuration guard, fetch, name extraction and formatting of `list_metabase_databases`;
  - `end_conversation`.
- **Helpers** (`strings.dfy`, `wrappers.dfy`). These write out the string operations of both runtimes:
  - JavaScript `trim` with its exact white-space set;
  - `replace(/\/$/, "")`;
  - decimal rendering of numbers;
  - `join`;
  - Python's `in` and `lower`.

Some inputs come from outside the code and are passed to the model as parameters:

- the outcome of each HTTP request;
- the clock reading (`Date.now()`);
- the environment variables `METABASE_URL` and `METABASE_TOKEN` (`None` when unset);
- the text of a Python exception;
- whether the Markdown renderer throws.

Two observations about the code as written (the model keeps both as they are):

- **The three pages disagree about where credentials live.**
  - The options page writes the password only to the local storage area, and never writes a token.
  - The popup writes the whole settings record to the sync area: password, token and expiry.
  - The widget reads only the sync area.

  So an options-page save never creates a token. It only writes back the token it loaded from the sync area (`Options.SaveKeepsOnlyLoadedToken`). The chat unlocks only once a popup login has put a token there. `CredentialFlow.OptionsLoginThenChat` and `CredentialFlow.PopupLoginThenChat` show both sides from empty storage.
- **The widget and the backend disagree on the request body.** The widget posts `{"messages": [...]}`. The backend's `PromptRequest` declares a single required field, `prompt` (`backend/app/main.py:13-14`). FastAPI's validation of that body lies outside the code modelled here, so `PromptApi.HandlePrompt` starts from a run that has already ended.

## Model

| member | source | states |
|---|---|---|
| Strings.IsSpace | extension/source/components/ChatWidget.tsx:69 | the characters `trim` removes: ECMAScript WhiteSpace (tab, vertical tab, form feed, space, no-break space, byte order mark, the space separators) and LineTerminator (line feed, carriage return, U+2028, U+2029) |
| Strings.TrimStart | extension/source/components/ChatWidget.tsx:69 | removes exactly the leading run of white-space characters |
| Strings.TrimEnd | extension/source/components/ChatWidget.tsx:69 | removes exactly the trailing run of white-space characters |
| Strings.Trim | extension/source/components/ChatWidget.tsx:69 | `s.trim()` is an infix of `s` with only white space cut from either side, and neither starts nor ends with white space |
| Strings.IsBlank | extension/source/components/ChatWidget.tsx:69 | `!s.trim()`: the trimmed string is empty |
| Strings.BlankIffAllSpace | extension/source/components/ChatWidget.tsx:69 | `!s.trim()` holds exactly when every character of `s` is ECMAScript white space or a line terminator |
| Strings.EndsWithSlash | extension/source/components/ChatWidget.tsx:60 | where `/\/$/` matches: the string is non-empty and its last character is `/` |
| Strings.StripTrailingSlash | extension/source/components/ChatWidget.tsx:60 | `replace(/\/$/, "")` removes one final `/` when there is one and changes nothing otherwise |
| Strings.StripRemovesOneSlashOnly | extension/source/components/ChatWidget.tsx:60 | a doubled final slash leaves one slash behind |
| Strings.NatToString | extension/source/components/ChatWidget.tsx:95 | the decimal text of a status code is non-empty, all digits, and has no leading zero |
| Strings.DecimalRoundTrip | extension/source/components/ChatWidget.tsx:95 | the decimal text of a number parses back to that number |
| Strings.IntToString | extension/source/components/ChatWidget.tsx:172 | `String(n)` of an integer of magnitude below 10^21 is its digits, with a `-` for negatives |
| Strings.Join | backend/app/agents/metabase_agent.py:44 | `sep.join(xs)` and `xs.join(sep)`: the strings in order with one separator between each neighbouring pair |
| Strings.JoinSnoc | backend/app/agents/metabase_agent.py:44 | joining one more name adds exactly one separator before it |
| Strings.JoinEmptySeparator | extension/source/components/ChatWidget.tsx:170 | `join('')` is plain concatenation in order |
| Strings.Contains | backend/app/agents/metabase_agent.py:55 | `sub in s`, searched from the left; its meaning is stated by `Strings.ContainsIffOccurs` |
| Strings.ContainsIffOccurs | backend/app/agents/metabase_agent.py:55 | Python's `sub in s` is true exactly when `sub` occurs at some position of `s` |
| Strings.LowerChar | backend/app/agents/metabase_agent.py:55 | upper-case ASCII letters map to their lower-case letter, other characters are unchanged |
| Strings.Lower | backend/app/agents/metabase_agent.py:55 | `s.lower()` on ASCII letters, character by character; its length and pointwise behaviour are stated by `Strings.LowerAt` |
| Strings.LowerAt | backend/app/agents/metabase_agent.py:55 | `lower()` keeps the length and lowers character by character |
| Strings.LowerIdempotent | backend/app/agents/metabase_agent.py:55 | lower-casing twice is lower-casing once |
| SettingsStore.DefaultSettings | extension/options.tsx:5-10 | the four defaults both pages start from: the local Mika and Metabase URLs and an empty username and password |
| SettingsStore.Truthy | extension/source/components/ChatWidget.tsx:59 | JavaScript truthiness of a stored value: a non-empty string or a non-zero number |
| SettingsStore.FieldTruthy | extension/source/components/ChatWidget.tsx:59 | `r.k` is truthy: the field is present and its value is truthy |
| SettingsStore.Field | extension/options.tsx:123 | reading `r.k` yields the value exactly when the field is present (absent is `undefined`) |
| SettingsStore.StorageArea.Read | extension/options.tsx:60-65 | a `get` reports the area's `lastError` when set, otherwise exactly the record stored under the key, if any |
| SettingsStore.StorageArea.Stored | extension/source/components/ChatWidget.tsx:57-58 | a caller that ignores `lastError` sees the stored record exactly when the read succeeded and the key is present |
| SettingsStore.StorageArea.Write | extension/options.tsx:104-108 | a `set` reports `lastError` to its callback and stores the record exactly when there is no error, changing no other key |
| Login.LoginStatus | extension/options.tsx:126-136 | "Login successful!" exactly for an ok response with a readable body, the invalid-credentials line exactly for a non-ok status, the network-error line exactly for a rejected fetch or an unreadable body |
| Login.LoginUrl | extension/options.tsx:120 | the login URL is the Mika URL without one final slash, followed by `/login` |
| Login.LoginRequestFor | extension/options.tsx:119-124 | a request is sent exactly when `mikaUrl` is a string; the body carries the username and password fields as stored, absent when missing |
| ChatWidget.RoleOf | extension/source/components/ChatWidget.tsx:85 | the role is `"user"` exactly for user messages and `"assistant"` exactly for assistant messages |
| ChatWidget.History | extension/source/components/ChatWidget.tsx:84-87 | the outbound history has the log's length and order, each role from its sender and each content its text |
| ChatWidget.HistoryAppend | extension/source/components/ChatWidget.tsx:84 | the history of a longer log extends the earlier history unchanged |
| ChatWidget.ReplyText | extension/source/components/ChatWidget.tsx:102 | a non-empty reply is shown as is, a missing or empty one as "(No response)", and the text is never empty |
| ChatWidget.KeptSql | extension/source/components/ChatWidget.tsx:102 | the SQL is kept, untrimmed, exactly when it has a character that is not white space |
| ChatWidget.AssistantReply | extension/source/components/ChatWidget.tsx:92-112 | per outcome: the reply and its SQL for a readable ok body, `Error: <status> <statusText>` for a non-ok status, the timeout text for an abort, the generic text otherwise; only a readable body carries SQL |
| ChatWidget.TimeoutIsDistinct | extension/source/components/ChatWidget.tsx:104-108 | among failures, the timeout text appears exactly for an aborted request |
| ChatWidget.ErrorTextCarriesStatus | extension/source/components/ChatWidget.tsx:95 | the HTTP error text holds the status code in decimal, which parses back to that code |
| ChatWidget.ExchangeAddsOneOfEach | extension/source/components/ChatWidget.tsx:70-112 | a dispatched exchange adds exactly one user and one assistant message, whatever the outcome |
| ChatWidget.Present | extension/source/components/ChatWidget.tsx:69 | the truthiness of `backendUrl` and `mikaToken`: set and not the empty string |
| ChatWidget.Dispatches | extension/source/components/ChatWidget.tsx:69 | the send guard passes: the trimmed input is non-empty, and the backend URL and the token are both set and non-empty |
| ChatWidget.DispatchesIff | extension/source/components/ChatWidget.tsx:69 | a message is sent exactly when the input is not all white space and both the backend URL and the token are non-empty |
| ChatWidget.TokenText | extension/source/components/ChatWidget.tsx:81 | a stored token enters the `Bearer` header as its string, or its decimal text when numeric |
| ChatWidget.ChatSession.constructor | extension/source/components/ChatWidget.tsx:41-46 | a fresh widget holds only the greeting, an empty input, no request in flight, and no URL or token |
| ChatWidget.ChatSession.LoadSettings | extension/source/components/ChatWidget.tsx:56-66 | a truthy string `mikaUrl` from the sync record becomes the URL without one final slash; a truthy non-string one throws and nothing more is set; a truthy `mikaToken` becomes the token; the local area is never read |
| ChatWidget.ChatSession.EditInput | extension/source/components/ChatWidget.tsx:278 | typing, allowed only while no request is in flight, sets the input and nothing else |
| ChatWidget.ChatSession.Submit | extension/source/components/ChatWidget.tsx:69-91 | a request is issued exactly when the guard passes, and then the user message is appended, the input cleared, `loading` set, and the request goes to `{url}/ai/prompt` with `Bearer {token}` and the whole history; otherwise nothing changes |
| ChatWidget.ChatSession.Settle | extension/source/components/ChatWidget.tsx:92-115 | the end of a request appends exactly the outcome's assistant message and clears `loading` |
| ChatWidget.ChatSession.SendMessage | extension/source/components/ChatWidget.tsx:68-116 | one whole `sendMessage`: nothing happens unless the guard passes; otherwise the log grows by the user message and one assistant reply, and exactly one assistant message is added |
| ChatWidget.JsString | extension/source/components/ChatWidget.tsx:172 | `String(c)` of a child value: strings as they are, integers in decimal, `true`/`false`, `null`, `undefined`, `[object Object]`, and arrays joined with `,` with `null`/`undefined` elements as `""` |
| ChatWidget.ElementText | extension/source/components/ChatWidget.tsx:170 | `join` renders `null` and `undefined` elements as `""` and every other element through `String()` |
| ChatWidget.ElementTexts | extension/source/components/ChatWidget.tsx:170 | the element texts of an array, one per element, in order |
| ChatWidget.FlattenChildren | extension/source/components/ChatWidget.tsx:165-173 | a string child as is, an array joined with `""`, `null`/`undefined` as `""`, anything else through `String()` |
| ChatWidget.FlattenStringArray | extension/source/components/ChatWidget.tsx:169-170 | an array of string children flattens to their concatenation |
| ChatWidget.FlattenVersusString | extension/source/components/ChatWidget.tsx:169-173 | flattening agrees with `String()` except on arrays, where only the separator differs |
| ChatWidget.NestedArrayKeepsCommas | extension/source/components/ChatWidget.tsx:170 | a nested array keeps the commas of its own conversion: `[["a","b"],"c"]` flattens to `a,bc` |
| ChatWidget.IsWordChar | extension/source/components/ChatWidget.tsx:164 | `\w`: an ASCII letter, digit or underscore |
| ChatWidget.TagAt | extension/source/components/ChatWidget.tsx:164 | `/language-(\w+)/` can match at a position: `language-` starts there and a word character follows it |
| ChatWidget.WordRun | extension/source/components/ChatWidget.tsx:164 | `\w+` takes the longest run of word characters |
| ChatWidget.TagFrom | extension/source/components/ChatWidget.tsx:164 | the search finds the leftmost `language-` followed by a word character, and nothing when there is none |
| ChatWidget.LanguageTag | extension/source/components/ChatWidget.tsx:164 | a tag exists exactly when the class name has `language-` followed by a word character; it is then the non-empty word run after the leftmost such occurrence |
| ChatWidget.CodeBlock | extension/source/components/ChatWidget.tsx:161-218 | a block is highlighted in its tagged language unless inline; inline code keeps its class, a non-string class counting as `""`; both show the flattened children |
| ChatWidget.MarkdownErrorBoundary.constructor | extension/source/components/ChatWidget.tsx:18-21 | the boundary starts without an error |
| ChatWidget.MarkdownErrorBoundary.Render | extension/source/components/ChatWidget.tsx:22-30 | once the children have thrown, this and every later render show the fallback text; otherwise the rendered Markdown |
| Options.Merge | extension/options.tsx:74-79 | every field comes from the last layer that has it (local over sync over defaults), and the keys are the union of the three layers |
| Options.RequiredFilled | extension/options.tsx:97 | the validation passes: `mikaUrl`, `metabaseUrl` and `username` are all truthy, while the password may be empty |
| Options.SyncPart | extension/options.tsx:102-103 | the sync record is every field but the password, unchanged |
| Options.LocalPart | extension/options.tsx:110 | the local record holds the password and nothing else |
| Options.SaveThenLoad | extension/options.tsx:102-110 | loading what a save wrote gives back the saved settings |
| Options.SaveKeepsOnlyLoadedToken | extension/options.tsx:102-104 | a save writes to the sync area the token held there when the page loaded, and never a new one |
| Options.OptionsForm.constructor | extension/options.tsx:53-56 | the page starts from the defaults, with no error and no status |
| Options.OptionsForm.Load | extension/options.tsx:58-87 | a failed sync read sets its error and keeps the settings; otherwise a failed local read sets its error and keeps the settings; otherwise the settings become the merge of the two |
| Options.OptionsForm.Change | extension/options.tsx:89-91 | an edit sets one field to the typed text |
| Options.OptionsForm.HandleSave | extension/options.tsx:93-139 | stage by stage: missing required fields stop with their error; a failed sync write stops with its error; a failed local write stops with its error; only after both writes is the login sent and its status shown; once both writes succeed, the two stored records merge back to the saved settings |
| Popup.ExpiresAt | extension/popup.tsx:93 | the expiry lies `expires_in` seconds after now, in milliseconds, and is later than now for a positive lifetime |
| Popup.TokenRecord | extension/popup.tsx:92-93 | the written record is the settings with the token and expiry fields set and every other field, the password among them, unchanged |
| Popup.PopupForm.constructor | extension/popup.tsx:54-56 | the popup starts from the defaults, not saved, with no status |
| Popup.PopupForm.Load | extension/popup.tsx:58-67 | a stored sync record replaces the settings as it is, with no merge over the defaults |
| Popup.PopupForm.Change | extension/popup.tsx:69-71 | an edit sets one field to the typed text |
| Popup.PopupForm.HandleSave | extension/popup.tsx:73-103 | the login is sent when `mikaUrl` is a string; the sync area is written only after an ok response with a readable body; the status line follows the outcome |
| CredentialFlow.OptionsSynced | extension/options.tsx:102-104 | the record an options save syncs for a typed username and password: the default Mika URL and no token |
| CredentialFlow.OptionsSave | extension/options.tsx:93-115 | a fresh options page saving onto empty working storage leaves exactly that record in the sync area |
| CredentialFlow.OptionsLoginThenChat | extension/options.tsx:93-139 | from a fresh page, with username and password typed over the defaults, on empty working storage: after an options-page login, whatever its outcome, the widget has the default backend URL but no token and sends nothing |
| CredentialFlow.PopupLoginThenChat | extension/popup.tsx:92-93 | from a fresh popup, with username and password typed over the defaults, on empty working storage: after a login answered with a non-empty token, the widget sends every non-blank message to the default URL with that token, and the sync area holds the password |
| PromptApi.ErrorResponse | backend/app/main.py:43-48 | the error reply is the fixed apology with empty SQL and viz type |
| PromptApi.IsGenerateSql | backend/app/main.py:39 | `hasattr(item, 'tool_name') and item.tool_name == 'generate_sql'`: the item has a tool name and it is `generate_sql` |
| PromptApi.LastGeneratedSql | backend/app/main.py:38-40 | the SQL the loop ends with: the output of the last `generate_sql` item, `""` when there is none |
| PromptApi.NoGeneratorMeansEmptySql | backend/app/main.py:35-40 | with no `generate_sql` item the SQL stays `""` |
| PromptApi.LastGeneratorWins | backend/app/main.py:38-40 | the SQL is the output of the last `generate_sql` item; items after it from other tools do not matter |
| PromptApi.ReplyOf | backend/app/main.py:36 | the reply is `final_output` when present, otherwise `str(result)` |
| PromptApi.HandlePrompt | backend/app/main.py:29-48 | a raise gives the error response; otherwise the reply of the run, the SQL of the last `generate_sql` item (none without `new_items`) and viz type `"bar"` |
| MetabaseAgent.GenerateSql | backend/app/agents/metabase_agent.py:50-57 | the payment-method query exactly when the lower-cased prompt contains "payment methods", otherwise the users query |
| MetabaseAgent.GenerateSqlIgnoresCase | backend/app/agents/metabase_agent.py:55 | a prompt and its lower-cased form get the same query |
| MetabaseAgent.KeywordInAnyCase | backend/app/agents/metabase_agent.py:55 | the keyword in any letter case, anywhere in the prompt, selects the payment-method query |
| MetabaseAgent.PyStr | backend/app/agents/metabase_agent.py:20 | an unset variable formats as `None` |
| MetabaseAgent.CreateMetabaseCard | backend/app/agents/metabase_agent.py:18-20 | the card has id 123, the URL `{METABASE_URL}/card/123` and the requested viz type |
| MetabaseAgent.CardDefaultsToBar | backend/app/agents/metabase_agent.py:18-20 | without a viz type the card is a bar chart, and the SQL never affects the card |
| MetabaseAgent.Configured | backend/app/agents/metabase_agent.py:29 | the guard `not METABASE_URL or not METABASE_TOKEN` is false: both are set and non-empty |
| MetabaseAgent.DbName | backend/app/agents/metabase_agent.py:43 | a dict yields its string `name`, or "(no name)" without one; anything else fails |
| MetabaseAgent.Names | backend/app/agents/metabase_agent.py:43 | the names succeed exactly when every database yields one, and are then one per database, in order |
| MetabaseAgent.DatabaseNames | backend/app/agents/metabase_agent.py:40-43 | the body must be a dict; a missing `data` gives no names; a `data` list gives its databases' names; an empty dict or string gives no names and a non-empty one fails; `null`, a boolean or a number fails |
| MetabaseAgent.FormatListing | backend/app/agents/metabase_agent.py:44 | the answer is "Databases: " followed by the names joined with ", " |
| MetabaseAgent.NamedDatabasesListed | backend/app/agents/metabase_agent.py:41-44 | a list of named databases yields exactly those names, in order |
| MetabaseAgent.NamedAnswerSucceeds | backend/app/agents/metabase_agent.py:39-44 | a 2xx answer whose `data` lists named databases succeeds with exactly those names, in order |
| MetabaseAgent.ListBody | backend/app/agents/metabase_agent.py:36-43 | a transport error and a status outside 200-299 fail with that error; a 2xx body that is not JSON fails with `InvalidJson`; a 2xx JSON body succeeds with its database names exactly when they can be read, and fails with `BadShape` otherwise |
| MetabaseAgent.ListMetabaseDatabases | backend/app/agents/metabase_agent.py:23-47 | unconfigured: the fixed message and no request; otherwise a GET of `/api/database` with the API key, answering the listing or the error prefix followed by the exception text |
| MetabaseAgent.EndConversation | backend/app/agents/metabase_agent.py:68-74 | the tool marks the conversation ended and answers "Conversation ended." |

## Left out

- `extension/content.tsx` mounts the widget into every page. That is DOM work and is not modelled; the widget itself is.
- Rendering, styling, scrolling, the auto-growing textarea, the open/close toggle, the copy buttons (clipboard), console output and Python logging are not modelled.
- The send button's disabled state (`ChatWidget.tsx:290`, `loading || !input.trim()`) is not modelled. It differs from the `sendMessage` guard: it does not test the URL or the token, and it also tests `loading`. A click on an enabled button still goes through the modelled guard, and `ChatWidget.ChatSession.Submit` sends nothing while `loading`.
- `ChatWidget.CodeBlock`: the `catch` fallback "[code block could not be rendered]" (`ChatWidget.tsx:219-222`) is not modelled. No `Child` value has a `String()` conversion that throws, so the model never takes that branch. An object with a throwing `toString` is not represented.
- The Enter-key handler only calls `sendMessage`, which is modelled.
- The 1.5-second timers are not modelled. They reset `saved`, and on the popup also the status line. Clocks are not part of the model.
- `fetch`, the `AbortController`, `resp.json()` and `httpx` are outcome parameters. The 40-second timer is the `Abort` outcome; the 10-second `httpx` timeout is a transport failure.
- React applies state updates asynchronously. The model applies them in program order. Overlapping sends cannot be expressed; the disabled textarea prevents them.
- `Runner.run`, the LLM, the agent definition (`metabase_agent.py:77-87`) and the choice of which tools to call are not modelled. The run's outcome is a parameter.
- `create_card` (`metabase_agent.py:60-65`) only delegates, and is modelled by `MetabaseAgent.CreateMetabaseCard`.
- The two health-check endpoints (`main.py:21-27`), which answer a constant, are not modelled.
- FastAPI's request validation is not modelled. This includes rejecting the widget's `{messages}` body against `PromptRequest`.
- `MetabaseAgent.ListMetabaseDatabases`: Python's exception texts are not modelled. The text that follows the error prefix is the `describe` parameter.
- `Strings.Lower`: only ASCII letters are lowered. Full Unicode case mapping is not modelled. The keyword "payment methods" is ASCII and no other character lowers into one of its letters, so the rule selects the same query.
- `ChatWidget.FetchOutcome`: a reply or SQL field that is present but not a string is not modelled (`ReplyBody` holds strings).
- `PromptApi.RunResult`: a `final_output` or item `output` that is not a string is not modelled; `RunResult` and `RunItem` hold strings. In the source, `PromptResponse(...)` at `main.py:42` sits inside the `try`. Such a value fails validation there and gets the error response.
- `Popup.TokenRecord`: a login body without `token` or `expires_in` is not modelled (`LoginBody` holds both).
- `Popup.ExpiresAt`: JavaScript numbers are floating point; the model uses unbounded integers for `expires_in` and the clock.
- `Strings.IntToString`: numbers are modelled as integers of magnitude below 10^21. JavaScript prints larger magnitudes in exponent form (`1e+21`), and non-integral numbers (`1.5`) are not represented.
- `ChatWidget.JsString`: a numeric child is modelled as an integer of magnitude below 10^21. Exponent forms and non-integral numbers are not represented.
- `ChatWidget.TokenText`: a numeric stored token is modelled as an integer of magnitude below 10^21, printed in decimal. Exponent forms and non-integral numbers are not represented.
- `SettingsStore.StorageArea`: storage quotas and the asynchrony of the callbacks are not modelled.
- No page or widget checks the stored token expiry. The model has nothing to check either.
