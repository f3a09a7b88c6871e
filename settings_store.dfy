/** The extension's persisted settings: one record under a fixed key in each
    of the two `chrome.storage` areas (`sync` and `local`), and the defaults
    both settings pages start from. */
module SettingsStore {
  import opened Wrappers

  /** A field value of a stored record: the pages store strings, and the
      popup also stores the token expiry as a number of milliseconds. */
  datatype Value = Str(s: string) | Num(n: int)

  /** A JavaScript object as stored: field name to value. A spread
      (`{...a, ...b}`) is map union with the right operand winning. */
  type Record = map<string, Value>

  const StorageKey := "mika-extension-settings"

  const MikaUrl := "mikaUrl"
  const MetabaseUrl := "metabaseUrl"
  const Username := "username"
  const Password := "password"
  const MikaToken := "mikaToken"
  const MikaTokenExpires := "mikaTokenExpires"

  /** `defaultSettings`, declared identically by the options page and the popup. */
  const DefaultSettings: Record := map[
    MikaUrl := Str("http://localhost:8000"),
    MetabaseUrl := Str("http://localhost:3000"),
    Username := Str(""),
    Password := Str("")
  ]

  /** JavaScript truthiness of a stored value (`""` and `0` are falsy). */
  predicate Truthy(v: Value)
  {
    match v
    case Str(s) => s != ""
    case Num(n) => n != 0
  }

  /** `r.k` is truthy: the field is present and its value is truthy. */
  predicate FieldTruthy(r: Record, k: string)
  {
    k in r && Truthy(r[k])
  }

  /** `r.k`, `undefined` being `None`. */
  function Field(r: Record, k: string): (v: Option<Value>)
    ensures v.Some? <==> k in r
    ensures v.Some? ==> v.value == r[k]
  {
    if k in r then Some(r[k]) else None
  }

  /** One `chrome.storage` area. `lastError` stands for the
      `chrome.runtime.lastError` every call reports while the area is
      unavailable: a read yields nothing and a write stores nothing. */
  class StorageArea {
    var items: map<string, Record>
    var lastError: Option<string>

    constructor (items: map<string, Record>, lastError: Option<string>)
      ensures this.items == items && this.lastError == lastError
    {
      this.items := items;
      this.lastError := lastError;
    }

    /** `get([key], callback)`: what the callback sees, the error when
        `lastError` is set, otherwise the record stored under `key` if any. */
    function Read(key: string): (r: Result<Option<Record>, string>)
      reads this
      ensures r.Failure? <==> lastError.Some?
      ensures r.Failure? ==> r.error == lastError.value
      ensures r.Success? ==> (r.value.Some? <==> key in items)
      ensures r.Success? && r.value.Some? ==> r.value.value == items[key]
    {
      match lastError
      case Some(e) => Failure(e)
      case None => Success(if key in items then Some(items[key]) else None)
    }

    /** `result[key]` for a caller that never looks at `lastError`: the
        stored record, or nothing when there is none or the read failed. */
    function Stored(key: string): (r: Option<Record>)
      reads this
      ensures r.Some? <==> lastError.None? && key in items
      ensures r.Some? ==> r.value == items[key]
    {
      match Read(key)
      case Success(found) => found
      case Failure(_) => None
    }

    /** `set({[key]: record}, callback)`: the callback sees `lastError`;
        the record is stored exactly when there is none. */
    method Write(key: string, record: Record) returns (err: Option<string>)
      modifies this
      ensures err == lastError == old(lastError)
      ensures items == if err.None? then old(items)[key := record] else old(items)
    {
      err := lastError;
      if err.None? {
        items := items[key := record];
      }
    }
  }
}
