/** The Stripe checkout: a container that asks the server for a payment intent for the
    selected package and, once it holds the intent's client secret and id, renders the card
    form; the form confirms the payment with Stripe and then has the server verify it and
    credit the account. */
module StripePaymentForm {
  import opened JsText
  import opened Remote

  /** A package as the checkout sees it; the price only feeds the amount sent to the server,
      which is not modelled (floating point). */
  datatype Package = Package(id: string, name: string, xce_amount: int)

  datatype User = User(id: string)

  /** A JSON value as the intent response may hold it: a falsy value, or an object whose
      `clientSecret` and `paymentIntentId` are `""` when absent or falsy. */
  datatype JsonValue = Falsy | Obj(clientSecret: string, paymentIntentId: string)

  /** The data the server's reply carries: either a string, which is parsed (or fails to
      parse), or an already decoded value. */
  datatype RawResponse = Text(parsed: Option<JsonValue>) | Decoded(value: JsonValue)

  datatype Intent = Intent(clientSecret: string, paymentIntentId: string)

  const InitFailed := "Failed to initialize payment. Our servers might be experiencing issues. Please try again in a few moments."

  /** The checks the container runs on the reply, in order, each failing with its own error. */
  function IntentFrom(raw: RawResponse): (r: Reply<Intent>)
    ensures r.Ok? ==> r.value.clientSecret != "" && r.value.paymentIntentId != ""
  {
    var response: Option<JsonValue> := match raw
      case Text(None) => None
      case Text(Some(v)) => Some(v)
      case Decoded(v) => Some(v);
    match response
    case None => Err(Thrown("Invalid response format from payment service"))
    case Some(Falsy) => Err(Thrown("Empty response from payment service"))
    case Some(Obj(cs, id)) =>
      if cs == "" then Err(Thrown("Missing client secret in payment service response"))
      else if id == "" then Err(Thrown("Missing payment intent ID in payment service response"))
      else Ok(Intent(cs, id))
  }

  /** The reply yields an intent exactly when it is (or parses to) an object carrying both a
      client secret and an intent id, and the intent is those two values. */
  lemma IntentFromAccepts(raw: RawResponse, cs: string, id: string)
    ensures IntentFrom(raw) == Ok(Intent(cs, id)) <==>
      cs != "" && id != "" && (raw == Decoded(Obj(cs, id)) || raw == Text(Some(Obj(cs, id))))
  {
  }

  /** A reply sent as a JSON string is treated exactly like the decoded value. */
  lemma TextAndDecodedAgree(v: JsonValue)
    ensures IntentFrom(Text(Some(v))) == IntentFrom(Decoded(v))
  {
  }

  /** What the container shows inside its two waiting panels. */
  datatype Inner = RetryPrompt(message: string) | Initializing | Blank | ErrorNote(message: string) | LoadingForm

  /** A nullable message as a condition sees it: `null` and `""` are both falsy. */
  function Shown(message: Option<string>): (r: string)
    ensures message.Some? ==> r == message.value
    ensures message.None? ==> r == ""
  {
    if message.Some? then message.value else ""
  }

  datatype ContainerView =
    | Hidden
    | Spinner
    | ErrorPanel(message: string)
    | NoSecretPanel(inner: Inner)
    | WaitingPanel(inner: Inner)
    | CardForm(clientSecret: string, paymentIntentId: string)

  class Container {
    var clientSecret: string
    var paymentIntentId: string
    var loading: bool
    var error: Option<string>

    /** The secret and the id are stored together. */
    ghost predicate Valid()
      reads this
    {
      clientSecret == "" <==> paymentIntentId == ""
    }

    constructor()
      ensures Valid() && clientSecret == "" && paymentIntentId == "" && !loading && error == None
    {
      clientSecret, paymentIntentId, loading, error := "", "", false, None;
    }

    /** The effect run whenever the selected package changes, given the server's reply:
        nothing without a package; otherwise the intent is stored when the reply holds one,
        and any failure leaves the stored values alone and shows the one generic error. */
    method GetPaymentIntent(pkg: Option<Package>, reply: Reply<RawResponse>)
      requires Valid()
      modifies this
      ensures Valid()
      ensures pkg.None? ==> clientSecret == old(clientSecret) && paymentIntentId == old(paymentIntentId)
                            && loading == old(loading) && error == old(error)
      ensures pkg.Some? ==> !loading
      ensures pkg.Some? && reply.Ok? && IntentFrom(reply.value).Ok? ==>
        var intent := IntentFrom(reply.value).value;
        clientSecret == intent.clientSecret && paymentIntentId == intent.paymentIntentId && error == None
      ensures pkg.Some? && (reply.Err? || IntentFrom(reply.value).Err?) ==>
        clientSecret == old(clientSecret) && paymentIntentId == old(paymentIntentId) && error == Some(InitFailed)
    {
      if pkg.None? {
        return;
      }
      loading := true;
      error := None;
      match reply {
        case Err(_) =>
          error := Some(InitFailed);
        case Ok(raw) =>
          match IntentFrom(raw) {
            case Err(_) =>
              error := Some(InitFailed);
            case Ok(intent) =>
              clientSecret := intent.clientSecret;
              paymentIntentId := intent.paymentIntentId;
          }
      }
      loading := false;
    }

    /** The render: the checks run in order, and each waiting panel repeats the error and
        loading tests that the earlier checks have already ruled out. */
    function View(pkg: Option<Package>): (r: ContainerView)
      reads this
      ensures r.Hidden? <==> pkg.None?
      ensures r.CardForm? ==> r.clientSecret == clientSecret && r.paymentIntentId == paymentIntentId
    {
      if pkg.None? then Hidden
      else if loading then Spinner
      else if Shown(error) != "" then ErrorPanel(Shown(error))
      else if clientSecret == "" then
        NoSecretPanel(if Shown(error) != "" then RetryPrompt(Shown(error)) else if loading then Initializing else Blank)
      else if paymentIntentId == "" then
        WaitingPanel(if Shown(error) != "" then ErrorNote(Shown(error)) else if loading then Initializing else LoadingForm)
      else CardForm(clientSecret, paymentIntentId)
    }

    /** The card form is shown exactly when a package is selected, nothing is loading, no
        error is shown and both intent values are held. */
    lemma CardFormWhenReady(pkg: Option<Package>)
      ensures View(pkg).CardForm? <==>
        pkg.Some? && !loading && Shown(error) == "" && clientSecret != "" && paymentIntentId != ""
    {
    }

    /** The "Try Again" prompt is never rendered: the panel that holds it is reached only
        without an error, so it is always blank. The panel waiting for the intent id is
        never reached while the secret and id are stored together. */
    lemma RetryUnreachable(pkg: Option<Package>)
      ensures View(pkg).NoSecretPanel? ==> View(pkg).inner == Blank
      ensures View(pkg).WaitingPanel? ==> View(pkg).inner == LoadingForm
      ensures Valid() ==> !View(pkg).WaitingPanel?
    {
    }
  }

  const StripeMissing := "Stripe not initialized. Please refresh the page and try again."
  const ElementsMissing := "Payment elements not loaded. Please refresh the page and try again."
  const UserMissing := "User not authenticated. Please log in and try again."
  const PackageMissing := "No package selected. Please select a package and try again."
  const ConfirmFailed := "Payment failed. Please try again."
  const VerifyFailedPrefix := "Payment was processed but verification failed. "
  const VerifyFallback := "Please check the console for details."
  const ProcessingFailed := "Payment processing error. Please try again."

  /** The form's dependencies at submit time. */
  datatype Deps = Deps(stripe: bool, elements: bool, user: Option<User>, pkg: Option<Package>)

  predicate Ready(d: Deps) {
    d.stripe && d.elements && d.user.Some? && d.pkg.Some?
  }

  /** The message left after the missing-dependency checks: each check overwrites the
      previous one, so the last missing item in the order stripe, elements, user, package
      decides. */
  function DependencyMessage(d: Deps): (r: string)
    requires !Ready(d)
    ensures d.pkg.None? ==> r == PackageMissing
    ensures d.pkg.Some? && d.user.None? ==> r == UserMissing
    ensures d.pkg.Some? && d.user.Some? && !d.elements ==> r == ElementsMissing
    ensures d.pkg.Some? && d.user.Some? && d.elements ==> r == StripeMissing
  {
    var m0 := None;
    var m1 := if !d.stripe then Some(StripeMissing) else m0;
    var m2 := if !d.elements then Some(ElementsMissing) else m1;
    var m3 := if d.user.None? then Some(UserMissing) else m2;
    var m4 := if d.pkg.None? then Some(PackageMissing) else m3;
    m4.value
  }

  /** What Stripe's confirmation resolves to, or its throw: an error (whose message is `""`
      when absent), or a result whose payment intent has a status (`None` when the result
      carries no intent). */
  datatype ConfirmOutcome = ConfirmThrew(failure: Failure) | ConfirmError(message: string) | Confirmed(status: Option<string>)

  /** The calls a submission makes, in order. */
  datatype Call = ConfirmWithStripe | VerifyOnServer(paymentIntentId: string, userId: string, packageId: string) | NotifySuccess

  /** A submission's calls and the message it leaves shown (`None` for none). */
  datatype Plan = Plan(calls: seq<Call>, message: Option<string>)

  /** The specification of a submission: which calls it makes and what it shows. */
  function SubmitPlan(d: Deps, paymentIntentId: string, confirm: ConfirmOutcome, verify: Reply<()>): Plan {
    if !Ready(d) then Plan([], Some(DependencyMessage(d)))
    else match confirm
      case ConfirmThrew(f) => Plan([ConfirmWithStripe], Some(MessageOr(f, ProcessingFailed)))
      case ConfirmError(m) => Plan([ConfirmWithStripe], Some(if m != "" then m else ConfirmFailed))
      case Confirmed(status) =>
        if status == Some("succeeded") then
          var verifyCall := VerifyOnServer(paymentIntentId, d.user.value.id, d.pkg.value.id);
          match verify
          case Ok(_) => Plan([ConfirmWithStripe, verifyCall, NotifySuccess], None)
          case Err(f) => Plan([ConfirmWithStripe, verifyCall], Some(VerifyFailedPrefix + ErrorText(f, VerifyFallback)))
        else Plan([ConfirmWithStripe], None)
  }

  /** A throw from Stripe's confirmation shows its message, whether or not the thrown value
      is an `Error`, and the fixed text when it has none; nothing else is called. */
  lemma ConfirmThrowShowsMessage(d: Deps, paymentIntentId: string, f: Failure, verify: Reply<()>)
    requires Ready(d)
    ensures var p := SubmitPlan(d, paymentIntentId, ConfirmThrew(f), verify);
      && p.calls == [ConfirmWithStripe]
      && p.message == Some(if f.message != "" then f.message else ProcessingFailed)
  {
  }

  /** Nothing is sent to Stripe while a dependency is missing. */
  lemma NoConfirmWithoutDeps(d: Deps, paymentIntentId: string, confirm: ConfirmOutcome, verify: Reply<()>)
    requires !Ready(d)
    ensures SubmitPlan(d, paymentIntentId, confirm, verify).calls == []
  {
  }

  /** The server verifies the payment exactly when every dependency is there and Stripe
      confirmed it without error with status `succeeded`; it is asked about this form's
      intent, for the signed-in user and the selected package. */
  lemma VerifyOnlyAfterSucceeded(d: Deps, paymentIntentId: string, confirm: ConfirmOutcome, verify: Reply<()>)
    ensures var p := SubmitPlan(d, paymentIntentId, confirm, verify);
      (|p.calls| >= 2 <==> Ready(d) && confirm == Confirmed(Some("succeeded")))
      && (|p.calls| >= 2 ==> p.calls[1] == VerifyOnServer(paymentIntentId, d.user.value.id, d.pkg.value.id))
  {
  }

  /** The success callback fires exactly when verification went through, as the last call,
      and then no message is shown. */
  lemma SuccessOnlyAfterVerified(d: Deps, paymentIntentId: string, confirm: ConfirmOutcome, verify: Reply<()>)
    ensures var p := SubmitPlan(d, paymentIntentId, confirm, verify);
      (NotifySuccess in p.calls <==> Ready(d) && confirm == Confirmed(Some("succeeded")) && verify.Ok?)
      && (NotifySuccess in p.calls ==> p.calls[|p.calls| - 1] == NotifySuccess && p.calls[1].VerifyOnServer? && p.message == None)
  {
    var p := SubmitPlan(d, paymentIntentId, confirm, verify);
    if !(Ready(d) && confirm == Confirmed(Some("succeeded")) && verify.Ok?) {
      assert forall k :: 0 <= k < |p.calls| ==> p.calls[k] != NotifySuccess;
    }
  }

  /** A failed verification shows the prefixed message; a status other than `succeeded`
      shows nothing at all. */
  lemma QuietOutcomes(d: Deps, paymentIntentId: string, status: Option<string>, f: Failure)
    requires Ready(d)
    ensures var p := SubmitPlan(d, paymentIntentId, Confirmed(Some("succeeded")), Err(f));
      p.message.Some? && StartsWith(p.message.value, VerifyFailedPrefix) && NotifySuccess !in p.calls
    ensures status != Some("succeeded") ==>
      SubmitPlan(d, paymentIntentId, Confirmed(status), Ok(())) == Plan([ConfirmWithStripe], None)
  {
    var m := VerifyFailedPrefix + ErrorText(f, VerifyFallback);
    assert m[..|VerifyFailedPrefix|] == VerifyFailedPrefix;
  }

  class PaymentForm {
    const paymentIntentId: string
    var processing: bool
    var errorMessage: Option<string>

    constructor(paymentIntentId: string)
      ensures this.paymentIntentId == paymentIntentId && !processing && errorMessage == None
    {
      this.paymentIntentId := paymentIntentId;
      processing, errorMessage := false, None;
    }

    /** The pay button. */
    function PayDisabled(stripe: bool): (r: bool)
      reads this
      ensures r <==> !stripe || processing
    {
      !stripe || processing
    }

    /** Submits the form, given what the dependencies are and what Stripe and the server
        answer; returns the calls made. A missing dependency leaves `processing` as it was;
        any other submission ends with it cleared. */
    method HandleSubmit(d: Deps, confirm: ConfirmOutcome, verify: Reply<()>) returns (calls: seq<Call>)
      modifies this
      ensures calls == SubmitPlan(d, paymentIntentId, confirm, verify).calls
      ensures errorMessage == SubmitPlan(d, paymentIntentId, confirm, verify).message
      ensures !Ready(d) ==> processing == old(processing)
      ensures Ready(d) ==> !processing
    {
      calls := [];
      if !d.stripe || !d.elements || d.user.None? || d.pkg.None? {
        if !d.stripe { errorMessage := Some(StripeMissing); }
        if !d.elements { errorMessage := Some(ElementsMissing); }
        if d.user.None? { errorMessage := Some(UserMissing); }
        if d.pkg.None? { errorMessage := Some(PackageMissing); }
        return;
      }
      processing := true;
      errorMessage := None;
      calls := calls + [ConfirmWithStripe];
      match confirm {
        case ConfirmThrew(f) =>
          errorMessage := Some(MessageOr(f, ProcessingFailed));
        case ConfirmError(m) =>
          errorMessage := Some(if m != "" then m else ConfirmFailed);
          processing := false;
        case Confirmed(status) =>
          if status.Some? && status.value == "succeeded" {
            calls := calls + [VerifyOnServer(paymentIntentId, d.user.value.id, d.pkg.value.id)];
            match verify {
              case Ok(_) =>
                calls := calls + [NotifySuccess];
              case Err(f) =>
                var message := VerifyFailedPrefix;
                if f.isError {
                  message := message + f.message;
                } else {
                  message := message + VerifyFallback;
                }
                errorMessage := Some(message);
                processing := false;
            }
          }
      }
      processing := false;
    }
  }
}
