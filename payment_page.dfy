/** The checkout page: it loads the package named in the URL, then offers card payment
    (the Stripe checkout) or PayPal, and sends the buyer home with a success flag once the
    purchase has been credited. */
module PaymentPage {
  import opened JsText
  import opened Remote
  import StripePaymentForm

  /** A row of the package table; `priceText` is `price_usd` as JavaScript prints it. */
  datatype PackageDetails = PackageDetails(id: string, name: string, xce_amount: int, priceText: string)

  datatype User = User(id: string)

  datatype PaymentMethod = Stripe | PayPal

  const SuccessPath := "/?status=success"
  const NoPackage := "No package selected"
  const LoadFailed := "Could not load package details"
  const MissingFunction := "function \"complete_xce_purchase\" does not exist"
  const NotConfigured := "The payment system is not fully configured. Please contact support with error: \"Missing SQL function\"."
  const ProcessingPrefix := "Error processing payment: "
  const CreditFailed := "Payment was received but there was an error adding XCE to your account. Please contact support."
  const PayPalCreditFailed := "Payment verified but failed to add credits. Please contact support."
  const PayPalVerifyThrew := "An error occurred while verifying the payment."
  const PayPalFailed := "There was an error processing your payment. Please try again."
  const NotFound := "Package not found"

  /** What the purchase RPC resolves to: no error, an error (whose message may be absent),
      or a throw. */
  datatype RpcOutcome = RpcOk | RpcError(message: Option<string>) | RpcThrew

  /** The arguments of the `complete_xce_purchase` call. */
  datatype PurchaseCall = PurchaseCall(p_user_id: string, p_package_id: string, p_payment_id: string, p_amount: int)

  /** The message a failed purchase call leaves. An error without a message makes the
      `includes` test itself throw, which lands in the catch. */
  function PurchaseFailureMessage(rpc: RpcOutcome): (r: string)
    requires !rpc.RpcOk?
    ensures rpc.RpcThrew? || rpc.message.None? ==> r == CreditFailed
  {
    match rpc
    case RpcError(Some(m)) => if Includes(m, MissingFunction) then NotConfigured else ProcessingPrefix + m
    case _ => CreditFailed
  }

  /** An error naming the missing database function is reported as a configuration
      problem, wherever the name sits in the message; any other error message is shown
      after the processing prefix. */
  lemma MissingFunctionIsConfiguration(before: string, after: string, m: string)
    ensures PurchaseFailureMessage(RpcError(Some(before + MissingFunction + after))) == NotConfigured
    ensures !Includes(m, MissingFunction) ==> PurchaseFailureMessage(RpcError(Some(m))) == ProcessingPrefix + m
  {
    var s := before + MissingFunction + after;
    assert s[|before|..|before| + |MissingFunction|] == MissingFunction;
    assert OccursAt(s, MissingFunction, |before|);
  }

  /** The PayPal verification call's outcome. */
  datatype VerifyOutcome = Verified | VerifyError | VerifyThrew

  datatype VerifyRequest = VerifyRequest(order_id: string, user_id: string, package_id: string)

  datatype PurchaseUnit = PurchaseUnit(value: string, currency_code: string, description: string)

  datatype OrderRequest = OrderRequest(intent: string, purchase_units: seq<PurchaseUnit>)

  /** The PayPal order for a package: one unit, captured immediately, priced in US dollars
      at the package price and described by its credit amount. */
  function CreateOrder(d: PackageDetails): (r: OrderRequest)
    ensures r.intent == "CAPTURE" && |r.purchase_units| == 1
    ensures r.purchase_units[0].currency_code == "USD" && r.purchase_units[0].value == d.priceText
  {
    OrderRequest("CAPTURE", [PurchaseUnit(d.priceText, "USD", IntToString(d.xce_amount) + " XCE Credits for Celflicks")])
  }

  /** The order description starts with the package's credit amount, which reads back as
      that amount. */
  lemma OrderNamesAmount(d: PackageDetails)
    requires d.xce_amount >= 0
    ensures var desc := CreateOrder(d).purchase_units[0].description;
      var n := NatToString(d.xce_amount);
      StartsWith(desc, n) && desc[|n|..] == " XCE Credits for Celflicks" && DigitsValue(n) == d.xce_amount
  {
    NatToStringValue(d.xce_amount);
  }

  /** The package handed to the Stripe checkout. */
  function StripePackage(d: PackageDetails): (r: StripePaymentForm.Package)
    ensures r.id == d.id && r.xce_amount == d.xce_amount
  {
    StripePaymentForm.Package(d.id, d.name, d.xce_amount)
  }

  /** What the page renders. */
  datatype PageView = Loading | ErrorScreen(message: string) | Checkout(chosen: PaymentMethod, processing: bool, inlineError: Option<string>)

  class Page {
    var isLoading: bool
    var isProcessing: bool
    var error: Option<string>
    var paymentMethod: PaymentMethod
    var packageDetails: Option<PackageDetails>
    /** The paths navigated to, in order. */
    var navigations: seq<string>

    constructor()
      ensures isLoading && !isProcessing && error == None && paymentMethod == Stripe
      ensures packageDetails == None && navigations == []
    {
      isLoading, isProcessing, error, paymentMethod := true, false, None, Stripe;
      packageDetails, navigations := None, [];
    }

    function View(): (r: PageView)
      reads this
      ensures r.Loading? <==> isLoading
      ensures r.Checkout? <==> !isLoading && StripePaymentForm.Shown(error) == "" && packageDetails.Some?
      ensures r.Checkout? ==> r.chosen == paymentMethod && r.processing == isProcessing
    {
      if isLoading then Loading
      else if StripePaymentForm.Shown(error) != "" || packageDetails.None? then
        ErrorScreen(if StripePaymentForm.Shown(error) != "" then StripePaymentForm.Shown(error) else NotFound)
      else Checkout(paymentMethod, isProcessing, if StripePaymentForm.Shown(error) != "" then error else None)
    }

    /** The error note under the payment buttons is never rendered: any error replaces the
        whole checkout with the error screen, which shows that error. */
    lemma ErrorReplacesCheckout()
      ensures View().Checkout? ==> View().inlineError == None
      ensures !isLoading && StripePaymentForm.Shown(error) != "" ==> View() == ErrorScreen(error.value)
    {
    }

    /** Loads the package named by the URL's `packageId` (`None` when absent), given the
        table's reply; returns the id it queried. Loading always ends. */
    method FetchPackageDetails(packageId: Option<string>, reply: Reply<Option<PackageDetails>>) returns (queried: Option<string>)
      modifies this
      ensures !isLoading
      ensures isProcessing == old(isProcessing) && paymentMethod == old(paymentMethod) && navigations == old(navigations)
      ensures packageId.None? || packageId.value == "" ==>
        queried == None && error == Some(NoPackage) && packageDetails == old(packageDetails)
      ensures packageId.Some? && packageId.value != "" ==> queried == packageId
      ensures queried.Some? && (reply.Err? || reply.value.None?) ==>
        error == Some(LoadFailed) && packageDetails == old(packageDetails)
      ensures queried.Some? && reply.Ok? && reply.value.Some? ==>
        packageDetails == reply.value && error == old(error)
    {
      if packageId.None? || packageId.value == "" {
        error := Some(NoPackage);
        isLoading := false;
        return None;
      }
      queried := packageId;
      match reply {
        case Err(_) =>
          error := Some(LoadFailed);
        case Ok(data) =>
          if data.None? {
            error := Some(LoadFailed);
          } else {
            packageDetails := data;
          }
      }
      isLoading := false;
    }

    /** Credits a purchase for a PayPal order id, given the RPC's outcome; returns the call
        made. Without a user or a package nothing happens. */
    method HandlePaymentSuccess(user: Option<User>, orderId: string, rpc: RpcOutcome) returns (call: Option<PurchaseCall>)
      modifies this
      ensures isLoading == old(isLoading) && paymentMethod == old(paymentMethod) && packageDetails == old(packageDetails)
      ensures user.None? || old(packageDetails).None? ==>
        call == None && isProcessing == old(isProcessing) && error == old(error) && navigations == old(navigations)
      ensures user.Some? && old(packageDetails).Some? ==>
        var d := old(packageDetails).value;
        && call == Some(PurchaseCall(user.value.id, d.id, orderId, d.xce_amount))
        && !isProcessing
        && (rpc.RpcOk? ==> navigations == old(navigations) + [SuccessPath] && error == old(error))
        && (!rpc.RpcOk? ==> navigations == old(navigations) && error == Some(PurchaseFailureMessage(rpc)))
    {
      if user.None? || packageDetails.None? {
        return None;
      }
      isProcessing := true;
      var d := packageDetails.value;
      call := Some(PurchaseCall(user.value.id, d.id, orderId, d.xce_amount));
      match rpc {
        case RpcOk =>
          navigations := navigations + [SuccessPath];
        case RpcError(message) =>
          if message.None? {
            error := Some(CreditFailed);
          } else if Includes(message.value, MissingFunction) {
            error := Some(NotConfigured);
          } else {
            error := Some(ProcessingPrefix + message.value);
          }
        case RpcThrew =>
          error := Some(CreditFailed);
      }
      isProcessing := false;
    }

    method SelectMethod(m: PaymentMethod)
      modifies this
      ensures paymentMethod == m
      ensures isLoading == old(isLoading) && isProcessing == old(isProcessing) && error == old(error)
      ensures packageDetails == old(packageDetails) && navigations == old(navigations)
    {
      paymentMethod := m;
    }

    /** The card checkout's success callback sends the buyer home with the success flag. */
    method StripeSucceeded()
      modifies this
      ensures navigations == old(navigations) + [SuccessPath]
      ensures isLoading == old(isLoading) && isProcessing == old(isProcessing) && error == old(error)
      ensures packageDetails == old(packageDetails) && paymentMethod == old(paymentMethod)
    {
      navigations := navigations + [SuccessPath];
    }

    /** The card checkout's "Go Back" clears the page's error. */
    method StripeCancelled()
      modifies this
      ensures error == None
      ensures isLoading == old(isLoading) && isProcessing == old(isProcessing) && navigations == old(navigations)
      ensures packageDetails == old(packageDetails) && paymentMethod == old(paymentMethod)
    {
      error := None;
    }

    /** "Go Back" can only be pressed inside the checkout, where the page has no error, so
        clearing it leaves what the page shows unchanged. */
    lemma CancelChangesNothingVisible()
      requires View().Checkout?
      ensures error == None || error == Some("")
    {
    }

    /** PayPal's approval callback, after the capture: asks the server to verify the order
        and credit it, given the call's outcome; returns the request sent. Reading the
        user's id without a user throws inside the `try`, so nothing is sent. */
    method OnApprove(user: Option<User>, orderId: string, verify: VerifyOutcome) returns (request: Option<VerifyRequest>)
      requires packageDetails.Some?
      modifies this
      ensures isLoading == old(isLoading) && isProcessing == old(isProcessing)
      ensures packageDetails == old(packageDetails) && paymentMethod == old(paymentMethod)
      ensures user.None? ==> request == None && error == Some(PayPalVerifyThrew) && navigations == old(navigations)
      ensures user.Some? ==> request == Some(VerifyRequest(orderId, user.value.id, packageDetails.value.id))
      ensures user.Some? && verify == Verified ==> navigations == old(navigations) + [SuccessPath] && error == old(error)
      ensures user.Some? && verify == VerifyError ==> error == Some(PayPalCreditFailed) && navigations == old(navigations)
      ensures user.Some? && verify == VerifyThrew ==> error == Some(PayPalVerifyThrew) && navigations == old(navigations)
    {
      if user.None? {
        error := Some(PayPalVerifyThrew);
        return None;
      }
      request := Some(VerifyRequest(orderId, user.value.id, packageDetails.value.id));
      match verify {
        case Verified =>
          navigations := navigations + [SuccessPath];
        case VerifyError =>
          error := Some(PayPalCreditFailed);
        case VerifyThrew =>
          error := Some(PayPalVerifyThrew);
      }
    }

    method OnPayPalError()
      modifies this
      ensures error == Some(PayPalFailed)
      ensures isLoading == old(isLoading) && isProcessing == old(isProcessing) && navigations == old(navigations)
      ensures packageDetails == old(packageDetails) && paymentMethod == old(paymentMethod)
    {
      error := Some(PayPalFailed);
    }
  }

  /** Every failed purchase call leaves a non-empty message, so the page switches to its
      error screen. */
  lemma FailuresShowMessage(rpc: RpcOutcome)
    requires !rpc.RpcOk?
    ensures PurchaseFailureMessage(rpc) != ""
  {
    match rpc
    case RpcError(Some(m)) =>
      if !Includes(m, MissingFunction) {
        assert (ProcessingPrefix + m)[0] == 'E';
      }
    case _ =>
  }
}
