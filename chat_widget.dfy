/** The chat widget injected into the page: its message log and the
    `sendMessage` exchange with the backend, the settings it loads once on
    mount, and the pure pieces of its rendering (the role mapping of the
    outbound history, the reply and SQL normalisation, the flattening of
    code-block children, the `language-xxx` tag and the Markdown error
    boundary's fallback). */
module ChatWidget {
  import opened Wrappers
  import opened Strings
  import opened SettingsStore

  datatype Sender = User | Assistant

  /** One entry of the log; `sql` is the separate SQL block of a reply. */
  datatype ChatMessage = ChatMessage(sender: Sender, text: string, sql: Option<string>)

  /** The log a fresh widget starts with. */
  const Greeting := ChatMessage(Assistant, "Hi! I\U{2019}m Mika. Ask me anything about your Metabase data.", None)

  const NoResponse := "(No response)"
  const TimedOut := "Request timed out. Please try again."
  const SomethingWentWrong := "Sorry, something went wrong."

  // ---------------------------------------------------------------------
  // The outbound request

  /** One element of the request body's `messages` array. */
  datatype Outbound = Outbound(role: string, content: string)

  /** `m.sender === "user" ? "user" : "assistant"`. */
  function RoleOf(s: Sender): (role: string)
    ensures role == "user" <==> s == User
    ensures role == "assistant" <==> s == Assistant
  {
    match s
    case User => "user"
    case Assistant => assert "assistant"[0] != "user"[0]; "assistant"
  }

  /** The log as sent: the same length and order, each role the sender's
      and each content the message text (the SQL block is not sent). */
  function History(log: seq<ChatMessage>): (h: seq<Outbound>)
    ensures |h| == |log|
    ensures forall i :: 0 <= i < |log| ==> h[i].role == RoleOf(log[i].sender) && h[i].content == log[i].text
    decreases |log|
  {
    if log == [] then [] else [Outbound(RoleOf(log[0].sender), log[0].text)] + History(log[1..])
  }

  /** The history of a longer log is the history of its parts, one after
      the other: earlier turns are replayed verbatim. */
  lemma HistoryAppend(a: seq<ChatMessage>, b: seq<ChatMessage>)
    ensures History(a + b) == History(a) + History(b)
  {
    var h, ha, hb := History(a + b), History(a), History(b);
    forall i | 0 <= i < |a + b| ensures h[i] == (ha + hb)[i] {
      if i < |a| { assert (a + b)[i] == a[i]; } else { assert (a + b)[i] == b[i - |a|]; }
    }
  }

  /** `POST {backendUrl}/ai/prompt` with `Authorization: Bearer {token}`. */
  datatype PromptRequest = PromptRequest(url: string, authorization: string, messages: seq<Outbound>)

  /** The fields of the backend's JSON reply the widget reads. */
  datatype ReplyBody = ReplyBody(reply: Option<string>, sql: Option<string>)

  /** How the `fetch` of one prompt ends, as the widget sees it. */
  datatype FetchOutcome =
    | Ok(body: Option<ReplyBody>)            // `resp.ok`; `None`: `resp.json()` rejects
    | NotOk(status: nat, statusText: string) // `!resp.ok`
    | Abort                                  // the 40 s timer aborted the request
    | OtherExc                               // any other rejection

  // ---------------------------------------------------------------------
  // The assistant message appended for each outcome

  /** `data.reply || "(No response)"`. */
  function ReplyText(reply: Option<string>): (t: string)
    ensures reply.Some? && reply.value != "" ==> t == reply.value
    ensures reply.None? || reply.value == "" ==> t == NoResponse
    ensures t != ""
  {
    if reply.Some? && reply.value != "" then reply.value else NoResponse
  }

  /** `data.sql && data.sql.trim() ? data.sql : undefined`: the SQL is kept,
      untrimmed, exactly when it has a character that is not white space. */
  function KeptSql(sql: Option<string>): (r: Option<string>)
    ensures r.Some? <==> sql.Some? && !AllSpace(sql.value)
    ensures r.Some? ==> r == sql
  {
    if sql.Some? then
      BlankIffAllSpace(sql.value);
      if sql.value != "" && Trim(sql.value) != "" then sql else None
    else
      None
  }

  /** The one assistant message an outcome appends. */
  function AssistantReply(o: FetchOutcome): (m: ChatMessage)
    ensures m.sender == Assistant
    ensures o.Ok? && o.body.Some? ==> m.text == ReplyText(o.body.value.reply) && m.sql == KeptSql(o.body.value.sql)
    ensures !(o.Ok? && o.body.Some?) ==> m.sql == None
    ensures o.NotOk? ==> m.text == "Error: " + NatToString(o.status) + " " + o.statusText
    ensures o.Abort? ==> m.text == TimedOut
    ensures o.OtherExc? || (o.Ok? && o.body.None?) ==> m.text == SomethingWentWrong
  {
    match o
    case Ok(Some(b)) => ChatMessage(Assistant, ReplyText(b.reply), KeptSql(b.sql))
    case Ok(None) => ChatMessage(Assistant, SomethingWentWrong, None)
    case NotOk(status, statusText) => ChatMessage(Assistant, "Error: " + NatToString(status) + " " + statusText, None)
    case Abort => ChatMessage(Assistant, TimedOut, None)
    case OtherExc => ChatMessage(Assistant, SomethingWentWrong, None)
  }

  /** Among the failures, the timeout text appears for the timeout and for
      nothing else: a timeout is never reported as a generic failure. */
  lemma TimeoutIsDistinct(o: FetchOutcome)
    requires !(o.Ok? && o.body.Some?)
    ensures AssistantReply(o).text == TimedOut <==> o.Abort?
  {
    if o.NotOk? {
      assert AssistantReply(o).text[0] == 'E' != TimedOut[0];
    }
  }

  /** An HTTP error message carries the status code in decimal, so the code
      can be read back from the text. */
  lemma ErrorTextCarriesStatus(status: nat, statusText: string)
    ensures exists d :: AssistantReply(NotOk(status, statusText)).text == "Error: " + d + " " + statusText
                        && AllDigits(d) && ParseDecimal(d) == status
  {
    DecimalRoundTrip(status);
    var d := NatToString(status);
    assert AssistantReply(NotOk(status, statusText)).text == "Error: " + d + " " + statusText;
  }

  /** The number of messages in `log` sent by `s`. */
  function Count(log: seq<ChatMessage>, s: Sender): nat
    decreases |log|
  {
    if log == [] then 0 else (if log[|log| - 1].sender == s then 1 else 0) + Count(log[..|log| - 1], s)
  }

  /** A dispatched exchange adds exactly one user message and exactly one
      assistant message, whatever the outcome. */
  lemma ExchangeAddsOneOfEach(log: seq<ChatMessage>, text: string, o: FetchOutcome)
    ensures Count(log + [ChatMessage(User, text, None), AssistantReply(o)], User) == Count(log, User) + 1
    ensures Count(log + [ChatMessage(User, text, None), AssistantReply(o)], Assistant) == Count(log, Assistant) + 1
  {
    var u := ChatMessage(User, text, None);
    var l2 := log + [u, AssistantReply(o)];
    assert l2[..|l2| - 1] == log + [u];
    assert (log + [u])[..|log|] == log;
  }

  // ---------------------------------------------------------------------
  // The submit guard and the settings the widget loads

  /** `!v` is false for a state value that is a string or `null`: it is set
      and not `""`, i.e. `SettingsStore.Truthy(Str(v.value))`. The widget
      stores only values that passed `FieldTruthy`, so this is the same
      test again on the value it kept. */
  predicate Present(v: Option<string>)
  {
    v.Some? && v.value != ""
  }

  /** `!input.trim() || !backendUrl || !mikaToken` is false. */
  predicate Dispatches(input: string, backendUrl: Option<string>, token: Option<string>)
  {
    !IsBlank(input) && Present(backendUrl) && Present(token)
  }

  /** A whitespace-only input, or a missing URL or token, never dispatches;
      anything else does. */
  lemma DispatchesIff(input: string, backendUrl: Option<string>, token: Option<string>)
    ensures Dispatches(input, backendUrl, token) <==> !AllSpace(input) && Present(backendUrl) && Present(token)
  {
    BlankIffAllSpace(input);
  }

  /** A stored token as the widget uses it, in a template literal. */
  function TokenText(v: Value): (t: string)
    ensures v.Str? ==> t == v.s
    ensures v.Num? ==> t == IntToString(v.n)
  {
    match v
    case Str(s) => s
    case Num(n) => IntToString(n)
  }

  // ---------------------------------------------------------------------
  // The session state

  class ChatSession {
    var messages: seq<ChatMessage>
    var input: string
    var loading: bool
    var backendUrl: Option<string>
    var token: Option<string>

    /** While a request is in flight the input was just cleared and the
        textarea is disabled, so it stays empty. */
    ghost predicate Valid()
      reads this
    {
      loading ==> input == ""
    }

    constructor ()
      ensures Valid()
      ensures messages == [Greeting] && input == "" && !loading
      ensures backendUrl == None && token == None
    {
      messages := [Greeting];
      input := "";
      loading := false;
      backendUrl := None;
      token := None;
    }

    /** The mount effect: read the sync record; a truthy `mikaUrl` becomes
        the backend URL without one final slash (a non-string one throws in
        the callback, which then sets nothing more), and a truthy
        `mikaToken` becomes the token. The local area is never read. */
    method LoadSettings(sync: StorageArea)
      requires Valid()
      modifies this
      ensures Valid()
      ensures messages == old(messages) && input == old(input) && loading == old(loading)
      ensures var stored := sync.Stored(StorageKey);
              && (stored.None? ==> backendUrl == old(backendUrl) && token == old(token))
              && (stored.Some? ==>
                    var r := stored.value;
                    var throws := FieldTruthy(r, MikaUrl) && !r[MikaUrl].Str?;
                    && backendUrl == (if FieldTruthy(r, MikaUrl) && r[MikaUrl].Str?
                                      then Some(StripTrailingSlash(r[MikaUrl].s)) else old(backendUrl))
                    && token == (if !throws && FieldTruthy(r, MikaToken)
                                 then Some(TokenText(r[MikaToken])) else old(token)))
    {
      var stored := sync.Stored(StorageKey);
      if stored.Some? {
        var r := stored.value;
        if FieldTruthy(r, MikaUrl) {
          if !r[MikaUrl].Str? {
            return;
          }
          backendUrl := Some(StripTrailingSlash(r[MikaUrl].s));
        }
        if FieldTruthy(r, MikaToken) {
          token := Some(TokenText(r[MikaToken]));
        }
      }
    }

    /** Typing into the textarea, which is disabled while loading. */
    method EditInput(text: string)
      requires Valid() && !loading
      modifies this
      ensures Valid()
      ensures input == text
      ensures messages == old(messages) && loading == old(loading)
      ensures backendUrl == old(backendUrl) && token == old(token)
    {
      input := text;
    }

    /** The synchronous part of `sendMessage`, up to the `await fetch`:
        either nothing at all, or the user message appended, the input
        cleared, `loading` set and the request issued. */
    method Submit() returns (req: Option<PromptRequest>)
      requires Valid()
      modifies this
      ensures Valid()
      ensures req.Some? <==> Dispatches(old(input), old(backendUrl), old(token))
      ensures old(loading) ==> req.None?
      ensures req.None? ==> messages == old(messages) && input == old(input) && loading == old(loading)
      ensures req.Some? ==> messages == old(messages) + [ChatMessage(User, old(input), None)]
                            && input == "" && loading
      ensures req.Some? ==> req.value == PromptRequest(old(backendUrl).value + "/ai/prompt",
                                                       "Bearer " + old(token).value,
                                                       History(messages))
      ensures backendUrl == old(backendUrl) && token == old(token)
    {
      if !Dispatches(input, backendUrl, token) {
        return None;
      }
      var userMsg := ChatMessage(User, input, None);
      var body := History(messages + [userMsg]);
      messages := messages + [userMsg];
      input := "";
      loading := true;
      req := Some(PromptRequest(backendUrl.value + "/ai/prompt", "Bearer " + token.value, body));
    }

    /** The rest of `sendMessage` once the request has ended: exactly one
        assistant message for the outcome, then `finally` clears `loading`. */
    method Settle(o: FetchOutcome)
      requires Valid() && loading
      modifies this
      ensures Valid() && !loading
      ensures messages == old(messages) + [AssistantReply(o)]
      ensures input == old(input) && backendUrl == old(backendUrl) && token == old(token)
    {
      messages := messages + [AssistantReply(o)];
      loading := false;
    }

    /** One whole `sendMessage` call whose request ends with `o`. */
    method SendMessage(o: FetchOutcome) returns (req: Option<PromptRequest>)
      requires Valid()
      modifies this
      ensures Valid()
      ensures req.Some? <==> Dispatches(old(input), old(backendUrl), old(token))
      ensures req.None? ==> messages == old(messages) && input == old(input) && loading == old(loading)
      ensures req.Some? ==> messages == old(messages) + [ChatMessage(User, old(input), None), AssistantReply(o)]
                            && input == "" && !loading
      ensures req.Some? ==> req.value.messages == History(old(messages) + [ChatMessage(User, old(input), None)])
      ensures Count(messages, Assistant) == Count(old(messages), Assistant) + (if req.Some? then 1 else 0)
      ensures backendUrl == old(backendUrl) && token == old(token)
    {
      req := Submit();
      if req.Some? {
        Settle(o);
        assert messages == old(messages) + [ChatMessage(User, old(input), None), AssistantReply(o)];
        ExchangeAddsOneOfEach(old(messages), old(input), o);
      }
    }
  }

  // ---------------------------------------------------------------------
  // Code blocks

  /** What React may pass as a code block's `children`. */
  datatype Child =
    | CStr(s: string)
    | CNum(n: int)
    | CBool(b: bool)
    | CNull
    | CUndefined
    | CArr(items: seq<Child>)
    | CObject  // an element or any other object

  /** JavaScript's `String(c)`; an array converts as `join(",")`, with
      `null` and `undefined` elements as the empty string. */
  function JsString(c: Child): string
    decreases c
  {
    match c
    case CStr(s) => s
    case CNum(n) => IntToString(n)
    case CBool(b) => if b then "true" else "false"
    case CNull => "null"
    case CUndefined => "undefined"
    case CObject => "[object Object]"
    case CArr(items) =>
      Join(seq(|items|, i requires 0 <= i < |items| =>
             if items[i].CNull? || items[i].CUndefined? then "" else JsString(items[i])), ",")
  }

  /** How `Array.prototype.join` renders one element. */
  function ElementText(c: Child): (t: string)
    ensures c.CNull? || c.CUndefined? ==> t == ""
    ensures !(c.CNull? || c.CUndefined?) ==> t == JsString(c)
  {
    if c.CNull? || c.CUndefined? then "" else JsString(c)
  }

  function ElementTexts(items: seq<Child>): (ts: seq<string>)
    ensures |ts| == |items| && forall i :: 0 <= i < |items| ==> ts[i] == ElementText(items[i])
  {
    seq(|items|, i requires 0 <= i < |items| => ElementText(items[i]))
  }

  /** The defensive flattening of a code block's children: a string as it
      is, an array joined with `""`, `null`/`undefined` as `""`, anything
      else through `String()`. Defined on every value. */
  function FlattenChildren(c: Child): (code: string)
    ensures c.CStr? ==> code == c.s
    ensures c.CNull? || c.CUndefined? ==> code == ""
    ensures c.CArr? ==> code == Join(ElementTexts(c.items), "")
    ensures (c.CNum? || c.CBool? || c.CObject?) ==> code == JsString(c)
  {
    match c
    case CStr(s) => s
    case CArr(items) => Join(ElementTexts(items), "")
    case CNull => ""
    case CUndefined => ""
    case _ => JsString(c)
  }

  /** An array of string children flattens to their plain concatenation. */
  lemma FlattenStringArray(ss: seq<string>)
    ensures FlattenChildren(CArr(seq(|ss|, i requires 0 <= i < |ss| => CStr(ss[i])))) == Concat(ss)
  {
    var items := seq(|ss|, i requires 0 <= i < |ss| => CStr(ss[i]));
    assert ElementTexts(items) == ss;
    JoinEmptySeparator(ss);
  }

  /** Flattening and `String()` differ only on arrays, and there only in
      the separator. */
  lemma FlattenVersusString(c: Child)
    requires !c.CNull? && !c.CUndefined?
    ensures !c.CArr? ==> FlattenChildren(c) == JsString(c)
    ensures c.CArr? ==> FlattenChildren(c) == Join(ElementTexts(c.items), "")
                        && JsString(c) == Join(ElementTexts(c.items), ",")
  {
    if c.CArr? {
      assert ElementTexts(c.items) == seq(|c.items|, i requires 0 <= i < |c.items| =>
        if c.items[i].CNull? || c.items[i].CUndefined? then "" else JsString(c.items[i]));
    }
  }

  /** A nested array inside the children keeps the commas of its own
      `String()` conversion. */
  lemma NestedArrayKeepsCommas()
    ensures FlattenChildren(CArr([CArr([CStr("a"), CStr("b")]), CStr("c")])) == "a,bc"
  {
    var inner := CArr([CStr("a"), CStr("b")]);
    assert ElementTexts(inner.items) == ["a", "b"];
    FlattenVersusString(inner);
    assert JsString(inner) == "a,b";
    assert ElementTexts([inner, CStr("c")]) == ["a,b", "c"];
  }

  // ---------------------------------------------------------------------
  // The language tag of a fenced block

  /** `\w`: an ASCII letter, digit or underscore. */
  predicate IsWordChar(c: char)
  {
    ('a' <= c <= 'z') || ('A' <= c <= 'Z') || ('0' <= c <= '9') || c == '_'
  }

  /** The longest prefix of `s` made of word characters (`\w+`, greedy). */
  function WordRun(s: string): (w: string)
    ensures |w| <= |s| && w == s[..|w|]
    ensures forall i :: 0 <= i < |w| ==> IsWordChar(w[i])
    ensures |w| < |s| ==> !IsWordChar(s[|w|])
    decreases |s|
  {
    if s != [] && IsWordChar(s[0]) then [s[0]] + WordRun(s[1..]) else []
  }

  /** `/language-(\w+)/` can match at position `i` of `s`. */
  predicate TagAt(s: string, i: int)
  {
    0 <= i && i + 10 <= |s| && s[i..i + 9] == "language-" && IsWordChar(s[i + 9])
  }

  /** The leftmost match at or after position `i`. */
  function TagFrom(s: string, i: nat): (r: Option<string>)
    requires i <= |s|
    ensures r.None? ==> forall j :: i <= j ==> !TagAt(s, j)
    ensures r.Some? ==> exists k :: i <= k && TagAt(s, k) && (forall j :: i <= j < k ==> !TagAt(s, j))
                                  && r.value == WordRun(s[k + 9..])
    ensures r.Some? ==> |r.value| >= 1
    decreases |s| - i
  {
    if i + 10 > |s| then None
    else if TagAt(s, i) then
      assert s[i + 9..][0] == s[i + 9];
      Some(WordRun(s[i + 9..]))
    else TagFrom(s, i + 1)
  }

  /** `match ? match[1] : undefined` for `/language-(\w+)/.exec(safeClass)`:
      a tag exactly when the class name has `language-` followed by a word
      character, and then the whole word-character run after the leftmost
      such occurrence. */
  function LanguageTag(className: string): (r: Option<string>)
    ensures r.Some? <==> exists k :: TagAt(className, k)
    ensures r.Some? ==> exists k :: TagAt(className, k) && (forall j :: 0 <= j < k ==> !TagAt(className, j))
                                  && r.value == WordRun(className[k + 9..])
    ensures r.Some? ==> |r.value| >= 1
  {
    TagFrom(className, 0)
  }

  /** What the custom `code` renderer shows for one block. */
  datatype CodeView =
    | Highlighted(language: Option<string>, code: string)  // a fenced block, with a copy button
    | InlineCode(className: string, code: string)

  /** The `code` component: a class name that is not a string counts as
      `""`; fenced blocks are highlighted in the tagged language, inline
      code keeps its class; both show the flattened children. */
  function CodeBlock(className: Option<string>, children: Child, inline: bool): (v: CodeView)
    ensures v.code == FlattenChildren(children)
    ensures v.InlineCode? <==> inline
    ensures v.Highlighted? ==> v.language == LanguageTag(className.GetOr(""))
    ensures v.InlineCode? ==> v.className == className.GetOr("")
  {
    var safeClass := className.GetOr("");
    if !inline then Highlighted(LanguageTag(safeClass), FlattenChildren(children))
    else InlineCode(safeClass, FlattenChildren(children))
  }

  // ---------------------------------------------------------------------
  // The Markdown error boundary

  /** What rendering the Markdown children does: a view, or a throw. */
  datatype MarkdownRender = Rendered(view: string) | Threw

  /** What the bubble shows. */
  datatype Display = Markup(view: string) | PreLineText(text: string)

  /** `MarkdownErrorBoundary`: once its children have thrown it shows the
      reply as plain text, keeping line breaks, at every later render. */
  class MarkdownErrorBoundary {
    const fallbackText: string
    var hasError: bool

    constructor (fallbackText: string)
      ensures this.fallbackText == fallbackText && !hasError
    {
      this.fallbackText := fallbackText;
      hasError := false;
    }

    method Render(children: MarkdownRender) returns (d: Display)
      modifies this
      ensures hasError == (old(hasError) || children.Threw?)
      ensures hasError ==> d == PreLineText(fallbackText)
      ensures !hasError ==> d == Markup(children.view)
    {
      if children.Threw? {
        hasError := true;
      }
      if hasError {
        d := PreLineText(fallbackText);
      } else {
        d := Markup(children.view);
      }
    }
  }
}
