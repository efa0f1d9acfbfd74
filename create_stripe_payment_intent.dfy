/** The server function that opens a card payment: it checks the request and the
    configuration, asks Stripe for a payment intent in the lower-cased currency, records
    the intent in the payments table and returns its client secret and id. */
module CreateStripePaymentIntent {
  import opened JsText
  import opened Remote
  import opened Http

  const Cors: seq<(string, string)> := [
    ("Access-Control-Allow-Origin", "http://localhost:5173"),
    ("Access-Control-Allow-Headers", "authorization, x-client-info, apikey, content-type"),
    ("Access-Control-Allow-Methods", "POST, OPTIONS")]

  /** The V8 message of the throw when a truthy non-string currency is lower-cased. */
  const LowerTypeError := "currency.toLowerCase is not a function"

  /** A Stripe error's `message` and `type`, each `""` when absent. */
  datatype StripeError = StripeError(message: string, errorType: string)

  /** The intent Stripe creates: its id, its client secret (`None` for `null`) and status. */
  datatype CreatedIntent = CreatedIntent(id: string, clientSecret: Option<string>, status: string)

  /** What the services answer, in call order: Stripe's intent creation and the payments
      table insert (`Ok(false)` when the client reports an error, `Err` when it throws). */
  datatype World = World(env: map<string, string>, create: Result<CreatedIntent>, insert: Reply<bool>)

  datatype Result<T> = Created(value: T) | Refused(error: StripeError)

  datatype Call =
    | CreateIntent(amount: Json, currency: string, packageId: Json)
    | RecordIntent(paymentIntentId: string, packageId: Json, amount: Json, currency: string, status: string)

  datatype Outcome = Outcome(response: Response, calls: seq<Call>)

  function Respond(status: int, body: Body): (r: Response)
    ensures r.status == status && r.body == body && r.headers == Cors
  {
    Response(status, body, Cors)
  }

  /** The three request fields, when all are truthy; `None` when the body is not JSON, is
      `null` (destructuring throws) or lacks one of them. */
  datatype Fields = Fields(packageId: Json, amount: Json, currency: Json)

  function ParseFields(body: Option<Json>): (r: Option<Fields>)
    ensures r.Some? ==> Truthy(Some(r.value.packageId)) && Truthy(Some(r.value.amount)) && Truthy(Some(r.value.currency))
  {
    match Member(body, "package_id")
    case None => None
    case Some(packageId) =>
      var amount := Member(body, "amount").value;
      var currency := Member(body, "currency").value;
      if !Truthy(packageId) || !Truthy(amount) || !Truthy(currency) then None
      else Some(Fields(packageId.value, amount.value, currency.value))
  }

  /** A body naming a package, a non-zero amount and a currency passes; zero, `null`, `""`
      or an absent member fails, as does a `null` body. */
  lemma ParseFieldsAccepts(p: Json, a: Json, c: Json)
    ensures ParseFields(Some(JObj(map["package_id" := p, "amount" := a, "currency" := c]))).Some? <==>
      Truthy(Some(p)) && Truthy(Some(a)) && Truthy(Some(c))
    ensures ParseFields(Some(JObj(map["package_id" := p, "amount" := JNum(0), "currency" := c]))).None?
    ensures ParseFields(Some(JNull)).None? && ParseFields(None).None?
  {
  }

  /** The 500 reply for any throw from Stripe, from lower-casing, or from the insert. */
  function StripeFailure(message: string, errorType: string): (r: Response)
    ensures r.status == 500 && ErrorOf(r) == Some(JStr("Stripe API error"))
    ensures r.body.JsonBody? && r.body.value.JObj?
    ensures "message" in r.body.value.fields && "type" in r.body.value.fields
    ensures message != "" ==> r.body.value.fields["message"] == JStr(message)
    ensures message == "" ==> r.body.value.fields["message"] == JStr("Unknown Stripe error")
    ensures errorType != "" ==> r.body.value.fields["type"] == JStr(errorType)
    ensures errorType == "" ==> r.body.value.fields["type"] == JStr("unknown")
  {
    Respond(500, JsonBody(JObj(map[
      "error" := JStr("Stripe API error"),
      "message" := JStr(if message != "" then message else "Unknown Stripe error"),
      "type" := JStr(if errorType != "" then errorType else "unknown")])))
  }

  /** The intent creation and its record, once the request and configuration are good. */
  function Open(f: Fields, w: World): (o: Outcome)
    ensures o.response.headers == Cors
    ensures f.currency.JStr? && w.create.Created? && w.insert.Err? ==>
      o.response == StripeFailure(w.insert.failure.message, "")
  {
    if !f.currency.JStr? then Outcome(StripeFailure(LowerTypeError, ""), [])
    else
      var currency := Lower(f.currency.s);
      var calls := [CreateIntent(f.amount, currency, f.packageId)];
      match w.create
      case Refused(e) => Outcome(StripeFailure(e.message, e.errorType), calls)
      case Created(intent) =>
        var calls := calls + [RecordIntent(intent.id, f.packageId, f.amount, currency, intent.status)];
        match w.insert
        case Err(e) => Outcome(StripeFailure(e.message, ""), calls)
        case Ok(_) =>
          var secret := if intent.clientSecret.Some? then JStr(intent.clientSecret.value) else JNull;
          Outcome(Respond(200, JsonBody(JObj(map["clientSecret" := secret, "paymentIntentId" := JStr(intent.id)]))), calls)
  }

  /** The whole request handler. */
  function Handle(req: Request, w: World): (o: Outcome)
    ensures o.response.headers == Cors
  {
    if req.httpMethod == "OPTIONS" then Outcome(Respond(200, PlainText("ok")), [])
    else match ParseFields(req.body)
      case None => Outcome(Respond(400, ErrorBody("Invalid request format")), [])
      case Some(f) =>
        var key := EnvGet(w.env, "STRIPE_SECRET_KEY");
        if key.None? || key.value == "" || !StartsWith(key.value, "sk_") then
          Outcome(Respond(500, ErrorBody("Server configuration error: Invalid Stripe key")), [])
        else if !EnvSet(w.env, "SERVICE_ROLE_KEY") then
          Outcome(Respond(500, ErrorBody("Server configuration error: Missing database credentials")), [])
        else Open(f, w)
  }

  lemma PreflightAnswersOk(body: Option<Json>, w: World)
    ensures Handle(Request("OPTIONS", body), w) == Outcome(Response(200, PlainText("ok"), Cors), [])
  {
  }

  /** Stripe is asked for an intent only when the request carries all three fields, the
      secret key is set and starts `sk_`, and the service-role key is set; it is asked in
      the lower-cased currency, and the record uses the same currency. */
  lemma {:induction false} IntentOnlyWhenConfigured(req: Request, w: World)
    requires |Handle(req, w).calls| > 0
    ensures req.httpMethod != "OPTIONS" && ParseFields(req.body).Some?
    ensures "STRIPE_SECRET_KEY" in w.env && StartsWith(w.env["STRIPE_SECRET_KEY"], "sk_")
    ensures EnvSet(w.env, "SERVICE_ROLE_KEY")
    ensures var f := ParseFields(req.body).value;
      f.currency.JStr? && Handle(req, w).calls[0] == CreateIntent(f.amount, Lower(f.currency.s), f.packageId)
    ensures var c := Handle(req, w).calls;
      |c| == 2 ==> c[1].RecordIntent? && c[1].currency == c[0].currency && c[1].amount == c[0].amount
  {
  }

  /** A lowered currency has no upper-case ASCII letter. */
  lemma LoweredCurrency(s: string)
    ensures forall i :: 0 <= i < |Lower(s)| ==> !('A' <= Lower(s)[i] <= 'Z')
  {
  }

  /** An insert the client reports as failed does not fail the request. */
  lemma InsertErrorIgnored(req: Request, w: World)
    requires w.insert == Ok(false)
    ensures Handle(req, w) == Handle(req, w.(insert := Ok(true)))
  {
  }

  /** A 200 reply carries exactly the created intent's client secret and id. */
  lemma {:induction false} SuccessCarriesIntent(req: Request, w: World)
    requires req.httpMethod != "OPTIONS" && Handle(req, w).response.status == 200
    ensures w.create.Created? && w.insert.Ok?
    ensures var intent := w.create.value;
      Handle(req, w).response.body == JsonBody(JObj(map[
        "clientSecret" := if intent.clientSecret.Some? then JStr(intent.clientSecret.value) else JNull,
        "paymentIntentId" := JStr(intent.id)]))
  {
    var f := ParseFields(req.body).value;
    assert Handle(req, w) == Open(f, w);
  }

  /** A throw from the insert is reported with its message, whether or not the thrown
      value is an `Error`, and with the type `unknown`. */
  lemma InsertThrowReported(f: Fields, w: World)
    requires f.currency.JStr? && w.create.Created? && w.insert.Err?
    ensures var r := Open(f, w).response;
      && r.status == 500 && r.body.JsonBody? && r.body.value.JObj?
      && r.body.value.fields["message"] == JStr(if w.insert.failure.message != "" then w.insert.failure.message else "Unknown Stripe error")
      && r.body.value.fields["type"] == JStr("unknown")
  {
  }

  /** A Stripe refusal is a 500 carrying its message and type, or their fallbacks. */
  lemma StripeRefusalReported(f: Fields, w: World, e: StripeError)
    requires f.currency.JStr? && w.create == Refused(e)
    ensures var r := Open(f, w).response;
      r.status == 500 && r.body.JsonBody? && r.body.value.JObj?
      && r.body.value.fields["message"] == JStr(if e.message != "" then e.message else "Unknown Stripe error")
      && r.body.value.fields["type"] == JStr(if e.errorType != "" then e.errorType else "unknown")
  {
  }
}
