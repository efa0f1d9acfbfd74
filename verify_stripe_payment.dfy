/** The server function that verifies a card payment: it checks the request, asks Stripe
    whether the payment intent succeeded, looks up the package's credit amount, marks the
    payment record succeeded and credits the buyer through the `complete_xce_purchase`
    database function. */
module VerifyStripePayment {
  import opened JsText
  import opened Remote
  import opened Http

  const Cors: seq<(string, string)> := [
    ("Access-Control-Allow-Origin", "*"),
    ("Access-Control-Allow-Headers", "authorization, x-client-info, apikey, content-type, x-cors"),
    ("Access-Control-Allow-Methods", "GET, POST, OPTIONS, PUT, DELETE"),
    ("Access-Control-Allow-Credentials", "true")]

  /** The V8 message of the throw when a truthy non-string `user_id` is trimmed. */
  const TrimTypeError := "user_id.trim is not a function"

  /** What the services answer, in the order they are called: Stripe's status for the
      intent, the package lookup, the payment-record update (`Ok(false)` when the client
      reports an error) and the purchase RPC. A throw is an `Err`. */
  datatype World = World(env: map<string, string>, retrieve: Reply<string>, lookup: Reply<Lookup>, update: Reply<bool>, rpc: RpcReply)

  /** The calls the function makes. */
  datatype Call =
    | RetrieveIntent(paymentIntentId: Json)
    | LookupPackage(packageId: Json)
    | MarkSucceeded(paymentIntentId: Json)
    | CompletePurchase(params: map<string, Json>)

  datatype Outcome = Outcome(response: Response, calls: seq<Call>)

  /** `a || b || ''`. */
  function FirstTruthy(a: Option<Json>, b: Option<Json>): (r: Json)
    ensures Truthy(Some(r)) <==> Truthy(a) || Truthy(b)
    ensures Truthy(a) ==> Some(r) == a
    ensures !Truthy(a) && Truthy(b) ==> Some(r) == b
    ensures !Truthy(a) && !Truthy(b) ==> r == JStr("")
  {
    if Truthy(a) then a.value else if Truthy(b) then b.value else JStr("")
  }

  /** The three request fields after normalisation. */
  datatype Fields = Fields(paymentIntentId: Json, userId: Json, packageId: Json)

  /** Each field takes the snake_case member if truthy, else the camelCase one, else `''`;
      `None` when the body is `null`, on which reading a member throws. */
  function Normalize(body: Json): (r: Option<Fields>)
    ensures r.None? <==> body == JNull
  {
    if body == JNull then None
    else
      var v := Some(body);
      Some(Fields(
        FirstTruthy(Member(v, "payment_intent_id").value, Member(v, "paymentIntentId").value),
        FirstTruthy(Member(v, "user_id").value, Member(v, "userId").value),
        FirstTruthy(Member(v, "package_id").value, Member(v, "packageId").value)))
  }

  /** The names of the required fields that are empty, in order; the user id is not
      required. */
  function MissingFields(f: Fields): (r: seq<string>)
    ensures "payment_intent_id" in r <==> !Truthy(Some(f.paymentIntentId))
    ensures "package_id" in r <==> !Truthy(Some(f.packageId))
    ensures "user_id" !in r && |r| <= 2
    ensures |r| == 2 ==> r == ["payment_intent_id", "package_id"]
  {
    var missing: seq<string> := [];
    var missing := if !Truthy(Some(f.paymentIntentId)) then missing + ["payment_intent_id"] else missing;
    var missing := if !Truthy(Some(f.packageId)) then missing + ["package_id"] else missing;
    missing
  }

  /** The RPC's arguments; `p_user_id` is sent only for a user id that is non-blank once
      trimmed. `None` when the user id is truthy but not a string, which makes `trim` throw. */
  function RpcParams(f: Fields, credits: int): (r: Option<map<string, Json>>)
    ensures r.None? <==> Truthy(Some(f.userId)) && !f.userId.JStr?
    ensures r.Some? ==> "p_package_id" in r.value && r.value["p_package_id"] == f.packageId
    ensures r.Some? ==> "p_payment_id" in r.value && r.value["p_payment_id"] == f.paymentIntentId
    ensures r.Some? ==> "p_amount" in r.value && r.value["p_amount"] == JNum(credits)
    ensures r.Some? ==> ("p_user_id" in r.value <==> f.userId.JStr? && Trim(f.userId.s) != "")
    ensures r.Some? && "p_user_id" in r.value ==> r.value["p_user_id"] == f.userId
  {
    var params := map["p_package_id" := f.packageId, "p_payment_id" := f.paymentIntentId, "p_amount" := JNum(credits)];
    if !Truthy(Some(f.userId)) then Some(params)
    else if !f.userId.JStr? then None
    else if Trim(f.userId.s) != "" then Some(params["p_user_id" := f.userId])
    else Some(params)
  }

  function Respond(status: int, body: Body): (r: Response)
    ensures r.status == status && r.body == body && r.headers == Cors
  {
    Response(status, body, Cors)
  }

  /** The reply for any throw inside the Stripe block, from Stripe or from the database. */
  function StripeFailure(e: Failure): (r: Response)
    ensures r.status == 500 && ErrorOf(r) == Some(JStr("Error verifying payment with Stripe"))
    ensures r.body.JsonBody? && r.body.value.JObj? && "details" in r.body.value.fields
    ensures e.message != "" ==> r.body.value.fields["details"] == JStr(e.message)
    ensures e.message == "" ==> r.body.value.fields["details"] == JStr("Unknown Stripe error")
  {
    Respond(500, JsonBody(JObj(map[
      "error" := JStr("Error verifying payment with Stripe"),
      "details" := JStr(MessageOr(e, "Unknown Stripe error"))])))
  }

  /** The last step: the RPC with the package's credits, and its reply. */
  function Credit(f: Fields, credits: int, calls: seq<Call>, rpc: RpcReply): (o: Outcome)
    ensures o.response.headers == Cors
  {
    match RpcParams(f, credits)
    case None =>
      Outcome(Respond(500, JsonBody(JObj(map["error" := JStr("Database operation failed"), "details" := JStr(TrimTypeError)]))), calls)
    case Some(params) =>
      var calls := calls + [CompletePurchase(params)];
      match rpc
      case RpcDone => Outcome(Respond(200, SuccessBody), calls)
      case RpcFailed(message, code) =>
        var fields := map["error" := JStr("Failed to add credits"), "details" := JStr(if message != "" then message else "Unknown database error")];
        Outcome(Respond(500, JsonBody(JObj(WithMember(fields, "code", code)))), calls)
      case RpcThrew(e) =>
        Outcome(Respond(500, JsonBody(JObj(map["error" := JStr("Database operation failed"), "details" := JStr(ErrorText(e, "Unknown error"))]))), calls)
  }

  /** The verification proper, once the request and the configuration are in order. */
  function Verify(f: Fields, w: World): (o: Outcome)
    ensures o.response.headers == Cors
    ensures |o.calls| >= 1 && o.calls[0] == RetrieveIntent(f.paymentIntentId)
  {
    var calls := [RetrieveIntent(f.paymentIntentId)];
    match w.retrieve
    case Err(e) => Outcome(StripeFailure(e), calls)
    case Ok(status) =>
      if status != "succeeded" then
        Outcome(Respond(400, ErrorBody("Payment not completed. Status: " + status)), calls)
      else
        var calls := calls + [LookupPackage(f.packageId)];
        match w.lookup
        case Err(e) => Outcome(StripeFailure(e), calls)
        case Ok(lookup) =>
          match lookup.row
          case None => Outcome(Respond(400, ErrorBody("Invalid package")), calls)
          case Some(credits) =>
            var calls := calls + [MarkSucceeded(f.paymentIntentId)];
            match w.update
            case Err(e) => Outcome(StripeFailure(e), calls)
            case Ok(_) => Credit(f, credits, calls, w.rpc)
  }

  /** The whole request handler. */
  function Handle(req: Request, w: World): (o: Outcome)
    ensures o.response.headers == Cors
  {
    if req.httpMethod == "OPTIONS" then Outcome(Respond(200, PlainText("ok")), [])
    else match req.body
      case None => Outcome(Respond(400, ErrorBody("Invalid JSON in request body")), [])
      case Some(body) =>
        match Normalize(body)
        case None => Outcome(Respond(500, ErrorBody("Server error")), [])
        case Some(f) =>
          var missing := MissingFields(f);
          if |missing| > 0 then
            Outcome(Respond(400, JsonBody(JObj(map[
              "error" := JStr("Missing required fields"),
              "missingFields" := JArr(seq(|missing|, i requires 0 <= i < |missing| => JStr(missing[i]))),
              "details" := JObj(map["payment_intent_id" := f.paymentIntentId, "user_id" := f.userId, "package_id" := f.packageId]),
              "originalBody" := body]))), [])
          else if !EnvSet(w.env, "STRIPE_SECRET_KEY") || !EnvSet(w.env, "SERVICE_ROLE_KEY") then
            Outcome(Respond(500, ErrorBody("Server configuration error")), [])
          else Verify(f, w)
  }

  /** A preflight request is answered `ok` and calls nothing. */
  lemma PreflightAnswersOk(body: Option<Json>, w: World)
    ensures Handle(Request("OPTIONS", body), w) == Outcome(Response(200, PlainText("ok"), Cors), [])
  {
  }

  /** A request without a payment intent id or a package id is refused with 400 before any
      service is called, whatever the user id. */
  lemma MissingFieldsRefused(httpMethod: string, body: Json, w: World)
    requires httpMethod != "OPTIONS" && Normalize(body).Some?
    requires !Truthy(Some(Normalize(body).value.paymentIntentId)) || !Truthy(Some(Normalize(body).value.packageId))
    ensures Handle(Request(httpMethod, Some(body)), w).response.status == 400
    ensures Handle(Request(httpMethod, Some(body)), w).calls == []
  {
    var f := Normalize(body).value;
    assert |MissingFields(f)| > 0 by {
      if !Truthy(Some(f.paymentIntentId)) {
        assert "payment_intent_id" in MissingFields(f);
      } else {
        assert "package_id" in MissingFields(f);
      }
    }
  }

  /** The snake_case field wins when both spellings are sent. */
  lemma SnakeCaseWins(pi: Json, other: Json)
    requires Truthy(Some(pi))
    ensures Normalize(JObj(map["payment_intent_id" := pi, "paymentIntentId" := other])).value.paymentIntentId == pi
  {
  }

  /** Credits are added only for an intent Stripe reports `succeeded` and a package row
      that exists, with the row's credit amount and the request's intent and package. */
  lemma {:induction false} CreditOnlyAfterSucceeded(req: Request, w: World, params: map<string, Json>)
    requires CompletePurchase(params) in Handle(req, w).calls
    ensures w.retrieve == Ok("succeeded")
    ensures w.lookup.Ok? && w.lookup.value.row.Some?
    ensures "p_amount" in params && params["p_amount"] == JNum(w.lookup.value.row.value)
    ensures req.body.Some? && Normalize(req.body.value).Some?
    ensures var f := Normalize(req.body.value).value;
      "p_payment_id" in params && params["p_payment_id"] == f.paymentIntentId
      && "p_package_id" in params && params["p_package_id"] == f.packageId
  {
    var o := Handle(req, w);
    assert req.httpMethod != "OPTIONS" && req.body.Some?;
    var f := Normalize(req.body.value).value;
    assert o == Verify(f, w);
    CreditCalls(f, w, params);
  }

  lemma CreditCalls(f: Fields, w: World, params: map<string, Json>)
    requires CompletePurchase(params) in Verify(f, w).calls
    ensures w.retrieve == Ok("succeeded") && w.lookup.Ok? && w.lookup.value.row.Some? && w.update.Ok?
    ensures RpcParams(f, w.lookup.value.row.value) == Some(params)
  {
    if w.retrieve == Ok("succeeded") && w.lookup.Ok? && w.lookup.value.row.Some? && w.update.Ok? {
      var calls := [RetrieveIntent(f.paymentIntentId), LookupPackage(f.packageId), MarkSucceeded(f.paymentIntentId)];
      assert forall k :: 0 <= k < |calls| ==> !calls[k].CompletePurchase?;
    }
  }

  /** A 200 answer means the RPC was made and reported no error; the only answer after a
      successful RPC is 200. */
  lemma {:induction false} SuccessMeansCredited(req: Request, w: World)
    requires req.httpMethod != "OPTIONS"
    ensures var o := Handle(req, w);
      o.response.status == 200 <==> w.rpc == RpcDone && exists p :: CompletePurchase(p) in o.calls
  {
    var o := Handle(req, w);
    if req.body.Some? && Normalize(req.body.value).Some? {
      var f := Normalize(req.body.value).value;
      if |MissingFields(f)| == 0 && EnvSet(w.env, "STRIPE_SECRET_KEY") && EnvSet(w.env, "SERVICE_ROLE_KEY") {
        VerifySucceedsOnlyByRpc(f, w);
      }
    }
  }

  lemma VerifySucceedsOnlyByRpc(f: Fields, w: World)
    ensures var o := Verify(f, w);
      o.response.status == 200 <==> w.rpc == RpcDone && exists p :: CompletePurchase(p) in o.calls
  {
    var o := Verify(f, w);
    if exists p :: CompletePurchase(p) in o.calls {
      var p :| CompletePurchase(p) in o.calls;
      CreditCalls(f, w, p);
      var calls := [RetrieveIntent(f.paymentIntentId), LookupPackage(f.packageId), MarkSucceeded(f.paymentIntentId)];
      assert o.calls == calls + [CompletePurchase(p)];
    }
  }

  /** A lookup error does not stop a lookup that returned a row, and an error reported by
      the payment-record update changes nothing. */
  lemma ReportedErrorsIgnored(req: Request, w: World, credits: int)
    requires w.lookup == Ok(Lookup(Some(credits), true)) && w.update == Ok(false)
    ensures Handle(req, w) == Handle(req, w.(lookup := Ok(Lookup(Some(credits), false)), update := Ok(true)))
  {
  }

  /** `p_user_id` is sent exactly for a user id that is non-blank once trimmed. */
  lemma UserIdSentWhenNonBlank(pi: Json, pkg: Json, user: string, credits: int)
    ensures var p := RpcParams(Fields(pi, JStr(user), pkg), credits);
      p.Some? && ("p_user_id" in p.value <==> Trim(user) != "")
  {
  }
}
