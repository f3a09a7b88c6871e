/** The agent's tools: the keyword rule of `generate_sql`, the placeholder
    card of `create_metabase_card`, the configuration guard and formatting
    of `list_metabase_databases`, and `end_conversation`. `METABASE_URL`
    and `METABASE_TOKEN` are parameters (`None` when unset). */
module MetabaseAgent {
  import opened Wrappers
  import opened Strings

  // ---------------------------------------------------------------------
  // generate_sql

  const PaymentMethodsQuery := "SELECT payment_method, COUNT(*) FROM payments GROUP BY payment_method;"
  const UsersQuery := "SELECT * FROM users LIMIT 10;"
  const PaymentMethodsKeyword := "payment methods"

  /** The payment-method query exactly when the lower-cased prompt has
      "payment methods" in it, the users query otherwise. */
  function GenerateSql(prompt: string): (q: string)
    ensures q == PaymentMethodsQuery || q == UsersQuery
    ensures q == PaymentMethodsQuery ==> exists i :: OccursAt(Lower(prompt), PaymentMethodsKeyword, i)
    ensures (exists i :: OccursAt(Lower(prompt), PaymentMethodsKeyword, i)) ==> q == PaymentMethodsQuery
  {
    ContainsIffOccurs(Lower(prompt), PaymentMethodsKeyword);
    assert |PaymentMethodsQuery| != |UsersQuery|;
    if Contains(Lower(prompt), PaymentMethodsKeyword) then PaymentMethodsQuery else UsersQuery
  }

  /** The rule does not see case: a prompt and its lower-cased form get
      the same query. */
  lemma GenerateSqlIgnoresCase(prompt: string)
    ensures GenerateSql(Lower(prompt)) == GenerateSql(prompt)
  {
    LowerIdempotent(prompt);
  }

  /** Any spelling of the keyword in any case, anywhere in the prompt,
      selects the payment-method query. */
  lemma KeywordInAnyCase(prompt: string, i: nat)
    requires i + |PaymentMethodsKeyword| <= |prompt|
    requires Lower(prompt[i..i + |PaymentMethodsKeyword|]) == PaymentMethodsKeyword
    ensures GenerateSql(prompt) == PaymentMethodsQuery
  {
    var n := |PaymentMethodsKeyword|;
    var slice := prompt[i..i + n];
    LowerAt(prompt);
    LowerAt(slice);
    assert Lower(prompt)[i..i + n] == Lower(slice);
    assert OccursAt(Lower(prompt), PaymentMethodsKeyword, i);
  }

  // ---------------------------------------------------------------------
  // create_metabase_card (and the create_card tool that returns it)

  datatype Card = Card(cardId: int, url: string, vizType: string)

  /** Python's `f"{v}"` of an environment lookup that may be `None`. */
  function PyStr(v: Option<string>): (s: string)
    ensures v.Some? ==> s == v.value
    ensures v.None? ==> s == "None"
  {
    v.GetOr("None")
  }

  /** The placeholder card: id 123, its URL under `METABASE_URL`, and the
      requested visualisation (`"bar"` by default); the SQL is not used. */
  function CreateMetabaseCard(metabaseUrl: Option<string>, sql: string, vizType: string := "bar"): (c: Card)
    ensures c.cardId == 123
    ensures c.url == PyStr(metabaseUrl) + "/card/123"
    ensures c.vizType == vizType
  {
    Card(123, PyStr(metabaseUrl) + "/card/123", vizType)
  }

  /** Without a visualisation argument the card is a bar chart, whatever
      the SQL. */
  lemma CardDefaultsToBar(metabaseUrl: Option<string>, sql1: string, sql2: string)
    ensures CreateMetabaseCard(metabaseUrl, sql1).vizType == "bar"
    ensures CreateMetabaseCard(metabaseUrl, sql1) == CreateMetabaseCard(metabaseUrl, sql2)
  {
  }

  // ---------------------------------------------------------------------
  // list_metabase_databases

  /** A JSON value as `resp.json()` yields it. */
  datatype Json =
    | JNull
    | JBool(b: bool)
    | JNum(n: int)
    | JStr(s: string)
    | JArr(items: seq<Json>)
    | JObj(fields: map<string, Json>)

  /** How the GET ended: a response (its body `None` when it is not JSON),
      or a transport error (connection, the 10 s timeout, ...). */
  datatype DbFetch = Responded(status: nat, body: Option<Json>) | TransportFailed(error: string)

  /** The exception the `try` block can raise. */
  datatype ListFailure =
    | Transport(error: string)  // from `client.get`
    | HttpStatus(status: nat)   // from `raise_for_status`
    | InvalidJson               // from `resp.json()`
    | BadShape                  // an `AttributeError` or `TypeError` while collecting the names

  /** `GET {METABASE_URL}/api/database` with header `X-API-Key: {METABASE_TOKEN}`. */
  datatype DbRequest = DbRequest(url: string, apiKey: string)

  const NotConfigured := "Metabase URL or token not configured."
  const DatabasesPrefix := "Databases: "
  const ListErrorPrefix := "Error listing databases: "
  const NoName := "(no name)"

  /** `not METABASE_URL or not METABASE_TOKEN` is false. */
  predicate Configured(url: Option<string>, token: Option<string>)
  {
    url.Some? && url.value != "" && token.Some? && token.value != ""
  }

  /** `db.get("name", "(no name)")` when `db` is a dict and the value is a
      string `join` accepts; `None` when either step raises. */
  function DbName(db: Json): (n: Option<string>)
    ensures db.JObj? && "name" !in db.fields ==> n == Some(NoName)
    ensures db.JObj? && "name" in db.fields ==> (n.Some? <==> db.fields["name"].JStr?)
    ensures db.JObj? && "name" in db.fields && n.Some? ==> db.fields["name"] == JStr(n.value)
    ensures !db.JObj? ==> n.None?
  {
    match db
    case JObj(f) =>
      if "name" !in f then Some(NoName)
      else if f["name"].JStr? then Some(f["name"].s)
      else None
    case _ => None
  }

  /** The names of all databases, or `None` when any of them fails. */
  function Names(dbs: seq<Json>): (r: Option<seq<string>>)
    ensures r.Some? <==> forall i :: 0 <= i < |dbs| ==> DbName(dbs[i]).Some?
    ensures r.Some? ==> |r.value| == |dbs| && forall i :: 0 <= i < |dbs| ==> r.value[i] == DbName(dbs[i]).value
    decreases |dbs|
  {
    if dbs == [] then Some([])
    else
      var rest := Names(dbs[1..]);
      var first := DbName(dbs[0]);
      if first.Some? && rest.Some? then Some([first.value] + rest.value)
      else
        assert first.None? ==> DbName(dbs[0]).None?;
        assert rest.None? ==> exists i :: 0 <= i < |dbs| - 1 && DbName(dbs[1..][i]).None?;
        None
  }

  /** `[db.get("name", "(no name)") for db in resp_json.get("data", [])]`:
      the body must be a dict; a missing `data` is the empty list; a list
      is walked element by element; an empty dict or string iterates to
      nothing; anything else raises. */
  function DatabaseNames(body: Json): (r: Option<seq<string>>)
    ensures !body.JObj? ==> r.None?
    ensures body.JObj? && "data" !in body.fields ==> r == Some([])
    ensures body.JObj? && "data" in body.fields && body.fields["data"].JArr? ==> r == Names(body.fields["data"].items)
    ensures body.JObj? && "data" in body.fields && body.fields["data"].JObj? ==>
              r == (if body.fields["data"].fields == map[] then Some([]) else None)
    ensures body.JObj? && "data" in body.fields && body.fields["data"].JStr? ==>
              r == (if body.fields["data"].s == "" then Some([]) else None)
    ensures (&& body.JObj? && "data" in body.fields
             && !body.fields["data"].JArr? && !body.fields["data"].JObj? && !body.fields["data"].JStr?)
            ==> r.None?
  {
    match body
    case JObj(f) =>
      var dbs := if "data" in f then f["data"] else JArr([]);
      (match dbs
       case JArr(items) => Names(items)
       case JObj(m) => if m == map[] then Some([]) else None
       case JStr(s) => if s == "" then Some([]) else None
       case _ => None)
    case _ => None
  }

  /** `"Databases: " + ", ".join(names)`. */
  function FormatListing(names: seq<string>): (s: string)
    ensures |s| >= |DatabasesPrefix| && s[..|DatabasesPrefix|] == DatabasesPrefix
    ensures s[|DatabasesPrefix|..] == Join(names, ", ")
  {
    DatabasesPrefix + Join(names, ", ")
  }

  /** Every database of a well-formed answer is listed by name, in order. */
  lemma NamedDatabasesListed(names: seq<string>)
    ensures Names(seq(|names|, i requires 0 <= i < |names| => JObj(map["name" := JStr(names[i])]))) == Some(names)
  {
    var dbs := seq(|names|, i requires 0 <= i < |names| => JObj(map["name" := JStr(names[i])]));
    forall i | 0 <= i < |dbs| ensures DbName(dbs[i]) == Some(names[i]) {
      assert dbs[i] == JObj(map["name" := JStr(names[i])]);
    }
    assert Names(dbs).value == names;
  }

  /** The steps of the `try` block after the configuration guard. */
  function ListBody(fetch: DbFetch): (r: Result<seq<string>, ListFailure>)
    ensures fetch.TransportFailed? ==> r == Failure(Transport(fetch.error))
    ensures fetch.Responded? && !(200 <= fetch.status < 300) ==> r == Failure(HttpStatus(fetch.status))
    ensures r.Success? ==> fetch.Responded? && 200 <= fetch.status < 300 && fetch.body.Some?
                           && DatabaseNames(fetch.body.value) == Some(r.value)
    ensures fetch.Responded? && 200 <= fetch.status < 300 && fetch.body.None? ==> r == Failure(InvalidJson)
    ensures fetch.Responded? && 200 <= fetch.status < 300 && fetch.body.Some? ==>
              r == (match DatabaseNames(fetch.body.value)
                    case Some(names) => Success(names)
                    case None => Failure(BadShape))
  {
    match fetch
    case TransportFailed(e) => Failure(Transport(e))
    case Responded(status, body) =>
      if !(200 <= status < 300) then Failure(HttpStatus(status))
      else if body.None? then Failure(InvalidJson)
      else
        var names := DatabaseNames(body.value);
        if names.None? then Failure(BadShape) else Success(names.value)
  }

  /** A 2xx answer whose `data` lists named databases succeeds with exactly
      those names, in order. */
  lemma NamedAnswerSucceeds(status: nat, names: seq<string>)
    requires 200 <= status < 300
    ensures ListBody(Responded(status, Some(JObj(map["data" := JArr(
              seq(|names|, i requires 0 <= i < |names| => JObj(map["name" := JStr(names[i])])))]))))
            == Success(names)
  {
    NamedDatabasesListed(names);
  }

  /** `list_metabase_databases`, with `fetch` the end of the GET if it is
      sent and `describe` the text of an exception (`str(e)`). It never
      raises: the answer is the guard's message, the listing, or the error
      prefix followed by the exception text. */
  method ListMetabaseDatabases(metabaseUrl: Option<string>, metabaseToken: Option<string>,
                               fetch: DbFetch, describe: ListFailure -> string)
    returns (answer: string, request: Option<DbRequest>)
    ensures !Configured(metabaseUrl, metabaseToken) ==> answer == NotConfigured && request.None?
    ensures Configured(metabaseUrl, metabaseToken) ==>
              request == Some(DbRequest(metabaseUrl.value + "/api/database", metabaseToken.value))
    ensures Configured(metabaseUrl, metabaseToken) && ListBody(fetch).Success? ==>
              answer == FormatListing(ListBody(fetch).value)
    ensures Configured(metabaseUrl, metabaseToken) && ListBody(fetch).Failure? ==>
              answer == ListErrorPrefix + describe(ListBody(fetch).error)
  {
    if !Configured(metabaseUrl, metabaseToken) {
      return NotConfigured, None;
    }
    request := Some(DbRequest(metabaseUrl.value + "/api/database", metabaseToken.value));
    var outcome := ListBody(fetch);
    if outcome.Failure? {
      answer := ListErrorPrefix + describe(outcome.error);
    } else {
      answer := FormatListing(outcome.value);
    }
  }

  // ---------------------------------------------------------------------
  // end_conversation

  /** The part of the run context the tool touches. */
  class RunContext {
    var conversationEnded: bool

    constructor ()
      ensures !conversationEnded
    {
      conversationEnded := false;
    }
  }

  const ConversationEnded := "Conversation ended."

  method EndConversation(ctx: RunContext) returns (s: string)
    modifies ctx
    ensures ctx.conversationEnded && s == ConversationEnded
  {
    ctx.conversationEnded := true;
    s := ConversationEnded;
  }
}
