/** The wallet top-up form (components/PaymentForm.jsx): the session it
    needs, the balance it shows, the ₦100 floor it enforces, and the
    redirect to the payment provider it performs only when the initiation
    reply carries both a link and a reference. */
module PaymentForm {
  import opened Wrappers
  import opened Text
  import Money
  import Storage

  /** What the session loader concluded from the stored `user` JSON and
      the stored `glovendor_role`. */
  datatype SessionLoad =
    | PleaseLogIn                        // a key is missing or empty
    | Crashed                            // JSON.parse threw, or parsed to null
    | InvalidSession                     // the user record has no e-mail
    | Loaded(email: string, role: string)

  /** The mount effect: both stored keys must be truthy, the user text must
      parse to a record, and the record must carry a truthy e-mail. */
  function LoadSession(userText: Option<Storage.StoredJson<Storage.UserRecord>>,
                       storedRole: Option<string>): (r: SessionLoad)
    ensures r.Loaded? <==>
              && Storage.IsStored(userText) && Truthy(storedRole)
              && userText.value.parsed.Value? && Truthy(userText.value.parsed.v.email)
    ensures r.Loaded? ==>
              r.email == userText.value.parsed.v.email.value && r.role == storedRole.value
              && r.email != "" && r.role != ""
    ensures r == PleaseLogIn <==> !Storage.IsStored(userText) || !Truthy(storedRole)
    ensures r == Crashed <==>
              Storage.IsStored(userText) && Truthy(storedRole) && !userText.value.parsed.Value?
  {
    if !Storage.IsStored(userText) || !Truthy(storedRole) then PleaseLogIn
    else
      match userText.value.parsed
      case Unparseable => Crashed
      case JsonNull => Crashed
      case Value(u) =>
        if !Truthy(u.email) then InvalidSession else Loaded(u.email.value, storedRole.value)
  }

  /** The reply of `GET /api/wallet_transactions/balance`: its
      `data.balance`, or a failure. */
  datatype BalanceReply = BalanceOk(balance: Money.JsNum) | BalanceFailed

  /** `fetchWalletBalance`: no request without a truthy e-mail and role; a
      reply's balance is shown with `?? 0` (only a missing balance becomes
      0), and a failed request keeps the balance shown. */
  datatype BalanceStep = BalanceStep(requested: bool, shown: Money.JsNum)

  function FetchBalance(email: string, role: string, shown: Money.JsNum, reply: BalanceReply): (r: BalanceStep)
    ensures r.requested <==> email != "" && role != ""
    ensures !r.requested || reply.BalanceFailed? ==> r.shown == shown
    ensures r.requested && reply.BalanceOk? && !reply.balance.Absent? ==> r.shown == reply.balance
    ensures r.requested && reply.BalanceOk? && reply.balance.Absent? ==> r.shown == Money.Num(0.0)
  {
    if email == "" || role == "" then BalanceStep(false, shown)
    else
      match reply
      case BalanceFailed => BalanceStep(true, shown)
      case BalanceOk(b) => BalanceStep(true, b.OrIfAbsent(Money.Num(0.0)))
  }

  /** The smallest top-up the form accepts, in naira. */
  const MinimumTopUp: real := 100.0

  /** The body of `POST /api/payments/initiate`; `amount` is
      `parseFloat(amount)`, `None` standing for NaN. */
  datatype InitiateRequest = InitiateRequest(email: string, amount: Option<real>, role: string)

  datatype InitiateCheck =
    | MissingSession        // "Missing user session. Please log in again."
    | BelowMinimum          // "Enter an amount of at least ₦100."
    | Send(request: InitiateRequest)

  /** The checks `initiatePayment` makes before any request: the session's
      e-mail and role first, then the amount, which must be non-empty and
      must not read as a number below 100. */
  function CheckInitiate(email: string, role: string, amount: NumericText): (r: InitiateCheck)
    ensures r == MissingSession <==> email == "" || role == ""
    ensures r == BelowMinimum <==>
              email != "" && role != "" && (amount.text == "" || (amount.number.Some? && amount.number.value < MinimumTopUp))
    ensures r.Send? ==> r.request == InitiateRequest(email, amount.number, role)
    ensures r.Send? ==> amount.text != "" && (amount.number.None? || amount.number.value >= MinimumTopUp)
  {
    if email == "" || role == "" then MissingSession
    else if amount.text == "" || (amount.number.Some? && amount.number.value < MinimumTopUp) then BelowMinimum
    else Send(InitiateRequest(email, amount.number, role))
  }

  /** A well-formed amount that passes the checks is at least ₦100. */
  lemma SentAmountMeetsMinimum(email: string, role: string, amount: NumericText)
    requires amount.IsValidNumber()
    ensures CheckInitiate(email, role, amount).Send? <==>
              email != "" && role != "" && amount.number.value >= MinimumTopUp
    ensures CheckInitiate(email, role, amount).Send? ==>
              CheckInitiate(email, role, amount).request.amount.value >= MinimumTopUp
  {
  }

  /** The initiation endpoint's reply: `data.data.authorization_url` and
      `data.data.reference` of a 2xx response, or the failure's
      `response.data.message`, `response.data.error` and `err.message`. */
  datatype InitiateReply =
    | Initiated(authorizationUrl: Option<string>, reference: Option<string>)
    | InitiateError(message: Option<string>, error: Option<string>, errMessage: Option<string>)

  datatype InitiateOutcome =
    | Redirect(url: string, storedReference: string)   // reference saved, browser sent to url
    | NoPaymentLink                                     // "Could not generate payment link"
    | InitiationFailed(reason: string)

  const UnknownError := "An unknown error occurred."

  /** What the form does with the reply: it stores the reference and
      leaves for the provider only when both the link and the reference
      are truthy; a failure is reported with the first truthy message. */
  function HandleInitiateReply(reply: InitiateReply): (r: InitiateOutcome)
    ensures r.Redirect? <==>
              reply.Initiated? && Truthy(reply.authorizationUrl) && Truthy(reply.reference)
    ensures r.Redirect? ==>
              Some(r.url) == reply.authorizationUrl && Some(r.storedReference) == reply.reference
              && r.url != "" && r.storedReference != ""
    ensures r.InitiationFailed? <==> reply.InitiateError?
    ensures r.InitiationFailed? ==> r.reason != ""
    ensures r.InitiationFailed? && Truthy(reply.message) ==> r.reason == reply.message.value
    ensures r.InitiationFailed? && !Truthy(reply.message) && !Truthy(reply.error) && !Truthy(reply.errMessage) ==>
              r.reason == UnknownError
  {
    match reply
    case Initiated(url, reference) =>
      if Truthy(url) && Truthy(reference) then Redirect(url.value, reference.value) else NoPaymentLink
    case InitiateError(message, error, errMessage) =>
      InitiationFailed(OrElse(OrElse(OrElse(message, error), errMessage), Some(UnknownError)).value)
  }

  /** The failure reason is `response.data.message || response.data.error
      || err.message || UnknownError`: the earliest truthy of the three
      messages, or the fallback. */
  lemma FailureReasonIsFirstTruthy(message: Option<string>, error: Option<string>, errMessage: Option<string>)
    ensures var r := HandleInitiateReply(InitiateError(message, error, errMessage));
            r.InitiationFailed? && IsFirstTruthy([message, error, errMessage], UnknownError, r.reason)
  {
    var cands := [message, error, errMessage];
    if Truthy(message) {
      assert Truthy(cands[0]);
    } else if Truthy(error) {
      assert Truthy(cands[1]) && !Truthy(cands[0]);
    } else if Truthy(errMessage) {
      assert Truthy(cands[2]) && !Truthy(cands[0]) && !Truthy(cands[1]);
    } else {
      assert forall i :: 0 <= i < |cands| ==> !Truthy(cands[i]);
    }
  }

  /** Whatever the initiation reply, the provider is only reached with a
      request whose amount passed the floor: a form session that goes from
      the checks to a redirect sent the e-mail and role of the session. */
  lemma RedirectOnlyAfterValidRequest(email: string, role: string, amount: NumericText, reply: InitiateReply)
    requires CheckInitiate(email, role, amount).Send?
    requires HandleInitiateReply(reply).Redirect?
    ensures email != "" && role != "" && amount.text != ""
    ensures reply.Initiated? && reply.reference.Some? && reply.reference.value != ""
  {
  }
}

/** The landing page after the payment provider
    (app/payment_verify/page.jsx): it verifies the reference from the URL
    and, on success, stores the details and sends the user to the
    dashboard of their role. */
module PaymentVerify {
  import opened Wrappers
  import opened Text
  import Storage
  import PaymentForm

  /** The JSON body of `GET /api/payments/verify/:reference`, nested as far
      as the page looks: a `status` and an inner `data` object. */
  datatype VerifyBody = VerifyBody(status: Option<string>, data: Option<VerifyBody>)

  /** `res.data?.data || res.data`: the inner object when there is one. */
  function Details(body: VerifyBody): (d: VerifyBody)
    ensures body.data.Some? ==> d == body.data.value
    ensures body.data.None? ==> d == body
  {
    if body.data.Some? then body.data.value else body
  }

  /** `isSuccess`: the details' status upper-cased is "SUCCESS", or their
      inner object's status is exactly "success". */
  predicate IsSuccess(d: VerifyBody) {
    || (d.status.Some? && ToUpper(d.status.value) == "SUCCESS")
    || (d.data.Some? && d.data.value.status == Some("success"))
  }

  /** Any casing of "success" as the details' own status is a success. */
  lemma AnyCaseOfSuccessSucceeds(status: string, inner: Option<VerifyBody>)
    requires ToLower(status) == "success"
    ensures IsSuccess(VerifyBody(Some(status), inner))
  {
    assert |status| == 7;
    var u := ToUpper(status);
    forall i | 0 <= i < 7 ensures u[i] == "SUCCESS"[i] {
      assert LowerChar(status[i]) == "success"[i];
    }
    assert u == "SUCCESS";
  }

  /** The role the redirect uses: the signed-in user's, else the stored
      user's (`'{}'` standing in for a missing, empty or unparseable text);
      `None` when neither names one. */
  function CurrentRole(authUser: Option<Storage.UserRecord>,
                       stored: Option<Storage.StoredJson<Storage.UserRecord>>): (role: Option<string>)
    ensures authUser.Some? ==> role == authUser.value.role
    ensures authUser.None? && Storage.IsStored(stored) && stored.value.parsed.Value? ==>
              role == stored.value.parsed.v.role
    ensures authUser.None? && !(Storage.IsStored(stored) && stored.value.parsed.Value?) ==> role.None?
  {
    if authUser.Some? then authUser.value.role
    else if Storage.IsStored(stored) && stored.value.parsed.Value? then stored.value.parsed.v.role
    else None
  }

  /** The dashboard each lower-cased role goes to. */
  function RouteFor(key: string): Option<string> {
    if key == "aggregator" then Some("/aggregator_dashboard")
    else if key == "subvendor" then Some("/subvendor_dashboard")
    else if key == "customer" then Some("/customer_dashboard")
    else if key == "retailer" then Some("/retailer_dashboard")
    else None
  }

  /** `redirectMap[role?.toLowerCase() || 'customer'] || '/dashboard'`:
      a role with no entry goes to /dashboard, and no role (or an empty
      one) counts as customer. */
  function DashboardRoute(role: Option<string>): (route: string)
    ensures !Truthy(role) ==> route == "/customer_dashboard"
    ensures Truthy(role) && RouteFor(ToLower(role.value)).Some? ==> route == RouteFor(ToLower(role.value)).value
    ensures Truthy(role) && RouteFor(ToLower(role.value)).None? ==> route == "/dashboard"
  {
    var key := if Truthy(role) then ToLower(role.value) else "";
    var key' := if key == "" then "customer" else key;
    match RouteFor(key')
    case Some(r) => r
    case None => "/dashboard"
  }

  /** The route does not depend on the role's letter case. */
  lemma RouteIgnoresCase(role: string)
    ensures DashboardRoute(Some(role)) == DashboardRoute(Some(ToLower(role)))
  {
    ToLowerIdempotent(role);
  }

  datatype VerifyOutcome =
    | NoReference                                      // nothing requested
    | Verified(stored: VerifyBody, route: string)      // details saved, then redirected
    | NotSuccessful                                    // "Payment not successful or still pending."
    | VerifyFailed(reason: string)

  /** The verification effect: without a truthy reference nothing is
      requested; a reply is a success only by `IsSuccess` of its details,
      and only a success stores the details and redirects. */
  function Verify(reference: Option<string>, reply: Result<VerifyBody, string>,
                  authUser: Option<Storage.UserRecord>,
                  stored: Option<Storage.StoredJson<Storage.UserRecord>>): (r: VerifyOutcome)
    ensures r == NoReference <==> !Truthy(reference)
    ensures r.Verified? <==> Truthy(reference) && reply.Success? && IsSuccess(Details(reply.value))
    ensures r.Verified? ==>
              r.stored == Details(reply.value) && r.route == DashboardRoute(CurrentRole(authUser, stored))
    ensures r.VerifyFailed? <==> Truthy(reference) && reply.Failure?
  {
    if !Truthy(reference) then NoReference
    else
      match reply
      case Failure(msg) => VerifyFailed(msg)
      case Success(body) =>
        var d := Details(body);
        if IsSuccess(d) then Verified(d, DashboardRoute(CurrentRole(authUser, stored)))
        else NotSuccessful
  }

  /** The two halves of a top-up meet: when the provider hands back the
      reference the form stored before leaving, the verification page asks
      about it, and a successful reply redirects to the role's dashboard. */
  lemma StoredReferenceIsVerified(reply: PaymentForm.InitiateReply, result: Result<VerifyBody, string>,
                                  authUser: Option<Storage.UserRecord>,
                                  stored: Option<Storage.StoredJson<Storage.UserRecord>>)
    requires PaymentForm.HandleInitiateReply(reply).Redirect?
    ensures var reference := Some(PaymentForm.HandleInitiateReply(reply).storedReference);
            var r := Verify(reference, result, authUser, stored);
            && r != NoReference
            && (result.Success? && IsSuccess(Details(result.value)) ==>
                  r == Verified(Details(result.value), DashboardRoute(CurrentRole(authUser, stored))))
  {
  }
}
