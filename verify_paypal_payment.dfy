/** The server function that verifies a PayPal order: it fetches the order from PayPal,
    requires it and its first capture to be completed, looks up the package's credit amount
    and credits the buyer through the `complete_xce_purchase` database function. */
module VerifyPaypalPayment {
  import opened JsText
  import opened Remote
  import opened Http

  const Cors: seq<(string, string)> := [
    ("Access-Control-Allow-Origin", "http://localhost:5173"),
    ("Access-Control-Allow-Headers", "authorization, x-client-info, apikey, content-type"),
    ("Access-Control-Allow-Methods", "POST, OPTIONS")]

  /** What the services answer, in call order: the OAuth token exchange (only whether it
      threw), the order as PayPal returns it, the package lookup and the purchase RPC. */
  datatype World = World(token: Reply<()>, order: Reply<Json>, lookup: Reply<Lookup>, rpc: RpcReply)

  datatype Call =
    | FetchToken
    | FetchOrder(orderId: Option<Json>)
    | LookupPackage(packageId: Option<Json>)
    | CompletePurchase(params: map<string, Json>)

  datatype Outcome = Outcome(response: Response, calls: seq<Call>)

  function Respond(status: int, body: Body): (r: Response)
    ensures r.status == status && r.body == body && r.headers == Cors
  {
    Response(status, body, Cors)
  }

  const ServerError := "Server error"

  /** The order's own status. */
  function OrderStatus(order: Json): Option<Option<Json>> {
    Member(Some(order), "status")
  }

  /** `purchase_units[0].payments.captures[0].status`; `None` when a step reads a member
      of `undefined` or `null` and throws. */
  function CaptureStatus(order: Json): Option<Option<Json>> {
    Then(ThenElement(Then(Then(ThenElement(Member(Some(order), "purchase_units"), 0), "payments"), "captures"), 0), "status")
  }

  /** The completion check: `Some(true)` when the order and its first capture are both
      `COMPLETED`, `Some(false)` when either is not, `None` when a read throws: the status of
      a `null` order, or the capture (read only once the order itself is completed). */
  function Completed(order: Json): (r: Option<bool>)
    ensures r == Some(true) ==> OrderStatus(order) == Some(Some(JStr("COMPLETED"))) && CaptureStatus(order) == Some(Some(JStr("COMPLETED")))
    ensures OrderStatus(order).None? ==> r.None?
    ensures OrderStatus(order).Some? && OrderStatus(order) != Some(Some(JStr("COMPLETED"))) ==> r == Some(false)
  {
    if OrderStatus(order).None? then None
    else if OrderStatus(order) != Some(Some(JStr("COMPLETED"))) then Some(false)
    else match CaptureStatus(order)
      case None => None
      case Some(s) => Some(s == Some(JStr("COMPLETED")))
  }

  /** The RPC's arguments; members that are `undefined` are dropped when the call is sent. */
  function RpcParams(userId: Option<Json>, packageId: Option<Json>, paymentId: Option<Json>, credits: int): (r: map<string, Json>)
    ensures "p_amount" in r && r["p_amount"] == JNum(credits)
    ensures "p_payment_id" in r <==> paymentId.Some?
    ensures paymentId.Some? ==> r["p_payment_id"] == paymentId.value
    ensures "p_user_id" in r <==> userId.Some?
    ensures "p_package_id" in r <==> packageId.Some?
  {
    WithMember(WithMember(WithMember(map["p_amount" := JNum(credits)], "p_user_id", userId), "p_package_id", packageId), "p_payment_id", paymentId)
  }

  /** The steps after the order is known to be completed: the package lookup and the
      purchase RPC. */
  function Credit(order: Json, userId: Option<Json>, packageId: Option<Json>, calls: seq<Call>, w: World): (o: Outcome)
    requires Completed(order) == Some(true)
    ensures o.response.headers == Cors
  {
    var calls := calls + [LookupPackage(packageId)];
    match w.lookup
    case Err(_) => Outcome(Respond(500, ErrorBody(ServerError)), calls)
    case Ok(lookup) =>
      if lookup.failed || lookup.row.None? then Outcome(Respond(400, ErrorBody("Invalid package")), calls)
      else
        var params := RpcParams(userId, packageId, Member(Some(order), "id").value, lookup.row.value);
        var calls := calls + [CompletePurchase(params)];
        match w.rpc
        case RpcDone => Outcome(Respond(200, SuccessBody), calls)
        case RpcFailed(_, _) => Outcome(Respond(500, ErrorBody("Failed to add credits")), calls)
        case RpcThrew(_) => Outcome(Respond(500, ErrorBody(ServerError)), calls)
  }

  /** The steps after the request's fields are read. */
  function Verify(orderId: Option<Json>, userId: Option<Json>, packageId: Option<Json>, w: World): (o: Outcome)
    ensures o.response.headers == Cors
  {
    match w.token
    case Err(_) => Outcome(Respond(500, ErrorBody(ServerError)), [FetchToken])
    case Ok(_) =>
      var calls := [FetchToken, FetchOrder(orderId)];
      match w.order
      case Err(_) => Outcome(Respond(500, ErrorBody(ServerError)), calls)
      case Ok(order) =>
        match Completed(order)
        case None => Outcome(Respond(500, ErrorBody(ServerError)), calls)
        case Some(false) => Outcome(Respond(400, ErrorBody("Payment not completed")), calls)
        case Some(true) => Credit(order, userId, packageId, calls, w)
  }

  /** The whole request handler: a body that is not JSON, or is `null`, throws when it is
      read or destructured. */
  function Handle(req: Request, w: World): (o: Outcome)
    ensures o.response.headers == Cors
  {
    if req.httpMethod == "OPTIONS" then Outcome(Respond(200, PlainText("ok")), [])
    else match req.body
      case None => Outcome(Respond(500, ErrorBody(ServerError)), [])
      case Some(JNull) => Outcome(Respond(500, ErrorBody(ServerError)), [])
      case Some(body) =>
        var v := Some(body);
        Verify(Member(v, "order_id").value, Member(v, "user_id").value, Member(v, "package_id").value, w)
  }

  lemma PreflightAnswersOk(body: Option<Json>, w: World)
    ensures Handle(Request("OPTIONS", body), w) == Outcome(Response(200, PlainText("ok"), Cors), [])
  {
  }

  /** Credits are added only for an order PayPal reports completed with a completed first
      capture, and a package lookup that returned a row without error; the payment id is
      the order's own id and the amount is the row's. */
  lemma {:induction false} CreditOnlyWhenCompleted(req: Request, w: World, params: map<string, Json>)
    requires CompletePurchase(params) in Handle(req, w).calls
    ensures w.order.Ok? && Completed(w.order.value) == Some(true)
    ensures w.lookup.Ok? && !w.lookup.value.failed && w.lookup.value.row.Some?
    ensures "p_amount" in params && params["p_amount"] == JNum(w.lookup.value.row.value)
    ensures var id := Member(Some(w.order.value), "id").value;
      ("p_payment_id" in params <==> id.Some?) && (id.Some? ==> params["p_payment_id"] == id.value)
  {
    assert req.httpMethod != "OPTIONS" && req.body.Some? && req.body.value != JNull;
    var v := req.body;
    VerifyCredits(Member(v, "order_id").value, Member(v, "user_id").value, Member(v, "package_id").value, w, params);
  }

  lemma VerifyCredits(orderId: Option<Json>, userId: Option<Json>, packageId: Option<Json>, w: World, params: map<string, Json>)
    requires CompletePurchase(params) in Verify(orderId, userId, packageId, w).calls
    ensures w.token.Ok? && w.order.Ok? && Completed(w.order.value) == Some(true)
    ensures w.lookup.Ok? && !w.lookup.value.failed && w.lookup.value.row.Some?
    ensures params == RpcParams(userId, packageId, Member(Some(w.order.value), "id").value, w.lookup.value.row.value)
  {
    var calls := [FetchToken, FetchOrder(orderId)];
    if w.token.Ok? && w.order.Ok? && Completed(w.order.value) == Some(true) {
      CreditCalls(w.order.value, userId, packageId, calls, w, params);
    }
  }

  lemma CreditCalls(order: Json, userId: Option<Json>, packageId: Option<Json>, calls: seq<Call>, w: World, params: map<string, Json>)
    requires Completed(order) == Some(true)
    requires forall k :: 0 <= k < |calls| ==> !calls[k].CompletePurchase?
    requires CompletePurchase(params) in Credit(order, userId, packageId, calls, w).calls
    ensures w.lookup.Ok? && !w.lookup.value.failed && w.lookup.value.row.Some?
    ensures params == RpcParams(userId, packageId, Member(Some(order), "id").value, w.lookup.value.row.value)
  {
    var more := calls + [LookupPackage(packageId)];
    assert forall k :: 0 <= k < |more| ==> !more[k].CompletePurchase?;
  }

  /** An order (other than `null`) whose own status is not `COMPLETED` is refused with 400,
      and its captures are not read. */
  lemma IncompleteOrderRefused(orderId: Option<Json>, userId: Option<Json>, packageId: Option<Json>, w: World)
    requires w.token.Ok? && w.order.Ok? && OrderStatus(w.order.value).Some?
    requires OrderStatus(w.order.value) != Some(Some(JStr("COMPLETED")))
    ensures Verify(orderId, userId, packageId, w).response.status == 400
    ensures Verify(orderId, userId, packageId, w).calls == [FetchToken, FetchOrder(orderId)]
  {
  }

  /** An order body of `null` makes the status read throw: 500, not 400, and nothing more
      is called. */
  lemma NullOrderIsServerError(orderId: Option<Json>, userId: Option<Json>, packageId: Option<Json>, w: World)
    requires w.token.Ok? && w.order == Ok(JNull)
    ensures Verify(orderId, userId, packageId, w).response == Response(500, ErrorBody(ServerError), Cors)
    ensures Verify(orderId, userId, packageId, w).calls == [FetchToken, FetchOrder(orderId)]
  {
  }

  /** A completed order without capture details makes the capture read throw: 500, not 400. */
  lemma MissingCapturesIsServerError(orderId: Option<Json>, userId: Option<Json>, packageId: Option<Json>, w: World)
    requires w.token.Ok? && w.order == Ok(JObj(map["status" := JStr("COMPLETED")]))
    ensures Verify(orderId, userId, packageId, w).response == Response(500, ErrorBody(ServerError), Cors)
  {
    assert Member(Some(w.order.value), "purchase_units") == Some(None);
  }

  /** Unlike the card verification, a lookup that reports an error is refused even when a
      row came back. */
  lemma LookupErrorRefused(orderId: Option<Json>, userId: Option<Json>, packageId: Option<Json>, w: World, credits: int)
    requires w.token.Ok? && w.order.Ok? && Completed(w.order.value) == Some(true)
    requires w.lookup == Ok(Lookup(Some(credits), true))
    ensures Verify(orderId, userId, packageId, w).response == Response(400, ErrorBody("Invalid package"), Cors)
  {
  }

  /** Success is 200 with `{ success: true }` exactly when the RPC was made and reported no
      error. */
  lemma {:induction false} SuccessMeansCredited(orderId: Option<Json>, userId: Option<Json>, packageId: Option<Json>, w: World)
    ensures var o := Verify(orderId, userId, packageId, w);
      o.response.status == 200 <==> w.rpc == RpcDone && exists p :: CompletePurchase(p) in o.calls
    ensures var o := Verify(orderId, userId, packageId, w);
      o.response.status == 200 ==> o.response.body == SuccessBody
  {
    var o := Verify(orderId, userId, packageId, w);
    if exists p :: CompletePurchase(p) in o.calls {
      var p :| CompletePurchase(p) in o.calls;
      VerifyCredits(orderId, userId, packageId, w, p);
    }
  }
}
