/** What the server functions receive and send: JSON values with JavaScript's property
    access and truthiness, the environment, and HTTP responses. */
module Http {
  import opened JsText
  import opened Remote

  /** A JSON value; numbers are integers here. */
  datatype Json = JNull | JBool(b: bool) | JNum(n: int) | JStr(s: string) | JArr(items: seq<Json>) | JObj(fields: map<string, Json>)

  /** JavaScript truthiness; `None` is `undefined`. */
  predicate Truthy(v: Option<Json>) {
    match v
    case None => false
    case Some(JNull) => false
    case Some(JBool(b)) => b
    case Some(JNum(n)) => n != 0
    case Some(JStr(s)) => s != ""
    case Some(_) => true
  }

  /** Reading a property: `None` when the read throws (on `undefined` or `null`), else the
      property's value, `None` inside for `undefined`. */
  function Member(v: Option<Json>, key: string): (r: Option<Option<Json>>)
    ensures r.None? <==> v.None? || v == Some(JNull)
    ensures r.Some? && r.value.Some? ==> v.Some? && v.value.JObj? && key in v.value.fields && r.value.value == v.value.fields[key]
  {
    match v
    case None => None
    case Some(JNull) => None
    case Some(JObj(fields)) => Some(if key in fields then Some(fields[key]) else None)
    case Some(_) => Some(None)
  }

  /** Reading index `i`: an array's element or a string's character, `undefined` past the
      end or on other values, and a throw on `undefined` or `null`. */
  function Element(v: Option<Json>, i: nat): (r: Option<Option<Json>>)
    ensures r.None? <==> v.None? || v == Some(JNull)
  {
    match v
    case None => None
    case Some(JNull) => None
    case Some(JArr(items)) => Some(if i < |items| then Some(items[i]) else None)
    case Some(JStr(s)) => Some(if i < |s| then Some(JStr([s[i]])) else None)
    case Some(_) => Some(None)
  }

  /** A property read on the result of an earlier read that may itself have thrown. */
  function Then(r: Option<Option<Json>>, key: string): (t: Option<Option<Json>>)
    ensures r.None? ==> t.None?
    ensures r.Some? ==> t == Member(r.value, key)
  {
    if r.None? then None else Member(r.value, key)
  }

  function ThenElement(r: Option<Option<Json>>, i: nat): (t: Option<Option<Json>>)
    ensures r.None? ==> t.None?
    ensures r.Some? ==> t == Element(r.value, i)
  {
    if r.None? then None else Element(r.value, i)
  }

  /** An object member that `JSON.stringify` keeps only when it is defined. */
  function WithMember(fields: map<string, Json>, key: string, v: Option<Json>): (r: map<string, Json>)
    ensures key in r <==> key in fields || v.Some?
    ensures v.Some? ==> r[key] == v.value
    ensures forall k :: k in fields && k != key ==> k in r && r[k] == fields[k]
    ensures forall k :: k in r && k != key ==> k in fields
  {
    if v.Some? then fields[key := v.value] else fields
  }

  /** `Deno.env.get(name)`: `None` when unset. */
  function EnvGet(env: map<string, string>, name: string): (r: Option<string>)
    ensures r.Some? <==> name in env
  {
    if name in env then Some(env[name]) else None
  }

  /** A variable set to a non-empty value. */
  predicate EnvSet(env: map<string, string>, name: string) {
    name in env && env[name] != ""
  }

  /** An incoming request; `body` is `None` when the body is not JSON. */
  datatype Request = Request(httpMethod: string, body: Option<Json>)

  datatype Body = PlainText(text: string) | JsonBody(value: Json)

  datatype Response = Response(status: int, body: Body, headers: seq<(string, string)>)

  /** `{ error: message }`. */
  function ErrorBody(message: string): (b: Body)
    ensures b.JsonBody? && b.value.JObj? && "error" in b.value.fields && b.value.fields["error"] == JStr(message)
  {
    JsonBody(JObj(map["error" := JStr(message)]))
  }

  /** The value of a response's `error` member, if it has one. */
  function ErrorOf(r: Response): (e: Option<Json>)
    ensures e.Some? ==> r.body.JsonBody? && r.body.value.JObj?
  {
    if r.body.JsonBody? && r.body.value.JObj? && "error" in r.body.value.fields then Some(r.body.value.fields["error"]) else None
  }

  /** `{ success: true }`. */
  const SuccessBody: Body := JsonBody(JObj(map["success" := JBool(true)]))

  /** The reply to a package-table lookup: the row's `xce_amount` (`None` for no row) and
      whether the client reported an error. */
  datatype Lookup = Lookup(row: Option<int>, failed: bool)

  /** What the `complete_xce_purchase` RPC resolves to: no error, an error (message `""`
      when absent, code `None` when absent), or a throw. */
  datatype RpcReply = RpcDone | RpcFailed(message: string, code: Option<Json>) | RpcThrew(failure: Failure)
}
