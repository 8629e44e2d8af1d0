/** The multi-role login page (app/login/page.jsx): which roles it sends
    to the API client, how it reads the token, e-mail, id and name out of
    the differently shaped login replies, what it stores and where it
    sends the user. */
module LoginPage {
  import opened Wrappers
  import opened Text
  import Storage
  import Api
  import Session
  import PaymentForm
  import PaymentVerify

  /** The three roles the page's switch dispatches. */
  predicate IsPageRole(role: string) {
    role == "AGGREGATOR" || role == "SUBVENDOR" || role == "RETAILER"
  }

  /** The login request: the endpoint and the credentials sent. */
  datatype LoginCall = LoginCall(endpoint: string, email: string, password: string)

  const InvalidRoleSelected := "Invalid login role selected"

  /** The page's role switch: only the three page roles are sent, with the
      typed e-mail trimmed, to the endpoint the API client picks for them. */
  function Dispatch(role: string, email: string, password: string): (r: Result<LoginCall, string>)
    ensures r.Success? <==> IsPageRole(role)
    ensures r.Failure? ==> r.error == InvalidRoleSelected
    ensures r.Success? ==> Api.LoginEndpoint(Some(role)) == Success(r.value.endpoint)
    ensures r.Success? ==> r.value.email == Trim(email) && r.value.password == password
  {
    if !IsPageRole(role) then Failure(InvalidRoleSelected)
    else
      assert ToUpper(role) == role;
      Success(LoginCall(Api.LoginEndpoint(Some(role)).value, Trim(email), password))
  }

  /** The account object a reply nests under `aggregator`, `subvendor` or
      `retailer`. */
  datatype Account = Account(id: Option<string>, email: Option<string>, name: Option<string>, businessName: Option<string>)

  /** A login reply body, with the fields the page reads; `data` is the
      envelope some endpoints wrap the payload in. */
  datatype LoginBody = LoginBody(
    data: Option<LoginBody>,
    token: Option<string>,
    accessToken: Option<string>,
    accessTokenSnake: Option<string>,
    aggregator: Option<Account>,
    subvendor: Option<Account>,
    retailer: Option<Account>,
    email: Option<string>,
    identifier: Option<string>,
    businessName: Option<string>,
    message: Option<string>,
    error: Option<string>)

  /** `response?.data || response`. */
  function Payload(response: LoginBody): LoginBody {
    if response.data.Some? then response.data.value else response
  }

  /** `account?.email`, `account?.id`, `account?.name` and
      `account?.businessName` of a possibly missing account object. */
  function EmailIn(a: Option<Account>): Option<string> { if a.Some? then a.value.email else None }
  function IdIn(a: Option<Account>): Option<string> { if a.Some? then a.value.id else None }
  function NameIn(a: Option<Account>): Option<string> { if a.Some? then a.value.name else None }
  function BusinessNameIn(a: Option<Account>): Option<string> { if a.Some? then a.value.businessName else None }

  /** `token || accessToken || access_token || null`. */
  function TokenOf(p: LoginBody): (t: Option<string>)
    ensures Truthy(t) <==> Truthy(p.token) || Truthy(p.accessToken) || Truthy(p.accessTokenSnake)
    ensures Truthy(p.token) ==> t == p.token
    ensures !Truthy(p.token) && Truthy(p.accessToken) ==> t == p.accessToken
  {
    OrElse(p.token, OrElse(p.accessToken, p.accessTokenSnake))
  }

  /** The user's e-mail: the first truthy of the three account objects'
      e-mails and the payload's, falling back to the e-mail as typed. */
  function EmailOf(p: LoginBody, typed: string): (e: Option<string>)
    ensures Truthy(e) <==>
              Truthy(EmailIn(p.aggregator)) || Truthy(EmailIn(p.subvendor))
              || Truthy(EmailIn(p.retailer)) || Truthy(p.email) || typed != ""
    ensures Truthy(EmailIn(p.aggregator)) ==> e == EmailIn(p.aggregator)
    ensures (!Truthy(EmailIn(p.aggregator)) && !Truthy(EmailIn(p.subvendor))
             && !Truthy(EmailIn(p.retailer)) && !Truthy(p.email)) ==> e == Some(typed)
  {
    OrElse(EmailIn(p.aggregator),
      OrElse(EmailIn(p.subvendor),
        OrElse(EmailIn(p.retailer),
          OrElse(p.email, Some(typed)))))
  }

  /** The user's id: the account objects' ids, then `identifier`, else null. */
  function IdOf(p: LoginBody): Option<string> {
    OrElse(IdIn(p.aggregator),
      OrElse(IdIn(p.subvendor),
        OrElse(IdIn(p.retailer), p.identifier)))
  }

  /** The user's display name: aggregator name, subvendor business name,
      retailer name, the payload's business name, else null. */
  function NameOf(p: LoginBody): Option<string> {
    OrElse(NameIn(p.aggregator),
      OrElse(BusinessNameIn(p.subvendor),
        OrElse(NameIn(p.retailer), p.businessName)))
  }

  /** The dashboard each page role lands on, `/` otherwise. */
  function RouteFor(role: string): (route: string)
    ensures role == "AGGREGATOR" ==> route == "/aggregator_dashboard"
    ensures role == "SUBVENDOR" ==> route == "/subvendor_dashboard"
    ensures role == "RETAILER" ==> route == "/retailer_dashboard"
    ensures !IsPageRole(role) ==> route == "/"
    ensures IsPageRole(role) ==> route != "/"
  {
    if role == "AGGREGATOR" then "/aggregator_dashboard"
    else if role == "SUBVENDOR" then "/subvendor_dashboard"
    else if role == "RETAILER" then "/retailer_dashboard"
    else "/"
  }

  /** The three page roles land on three different dashboards. */
  lemma RoutesAreDistinct(a: string, b: string)
    requires IsPageRole(a) && IsPageRole(b) && a != b
    ensures RouteFor(a) != RouteFor(b)
  {
  }

  /** Everything a successful login leaves behind. */
  datatype SignedIn = SignedIn(
    saved: Api.SavedAuth,               // the four keys `saveAuth` writes
    sessionUser: Storage.UserRecord,    // the `user` key: id, e-mail, role
    identifier: string,                 // `glovendor_identifier` after the page overwrote it
    storedRole: string,                 // `glovendor_role`
    auth: Session.AuthState,            // the provider after `login`
    route: string)

  datatype LoginOutcome =
    | SignInSaved(signedIn: SignedIn)
    | SignInRefused(message: string)    // no token or no e-mail in the reply

  const InvalidCredentials := "❌ Invalid credentials or response format"

  /** What the page does with a login reply: it saves the session and
      redirects only when the reply yields a token and an e-mail. */
  function HandleReply(role: string, typedEmail: string, response: LoginBody, auth: Session.AuthState): (r: LoginOutcome)
    ensures r.SignInSaved? <==> Truthy(TokenOf(Payload(response))) && Truthy(EmailOf(Payload(response), typedEmail))
    ensures r.SignInSaved? ==>
              var p := Payload(response);
              var s := r.signedIn;
              && s.saved.token == TokenOf(p).value
              && s.saved.user == Storage.UserRecord(IdOf(p), EmailOf(p, typedEmail), NameOf(p), Some(role))
              && s.sessionUser == Storage.UserRecord(IdOf(p), EmailOf(p, typedEmail), None, Some(role))
              && s.identifier == EmailOf(p, typedEmail).value
              && s.storedRole == role
              && s.auth.token == TokenOf(p) && s.auth.user == Some(s.saved.user)
              && Session.IsAuthenticated(s.auth)
              && s.route == RouteFor(role)
    ensures r.SignInRefused? ==> r.message != ""
    ensures r.SignInRefused? && Truthy(Payload(response).message) ==> r.message == Payload(response).message.value
  {
    var p := Payload(response);
    var token := TokenOf(p);
    var email := EmailOf(p, typedEmail);
    if Truthy(token) && Truthy(email) then
      var user := Storage.UserRecord(IdOf(p), email, NameOf(p), Some(role));
      SignInSaved(SignedIn(Api.SaveAuth(token.value, Some(user)).value,
                           user.(name := None), email.value, role,
                           Session.Login(auth, token.value, user), RouteFor(role)))
    else
      SignInRefused(OrElse(OrElse(p.message, p.error), Some(InvalidCredentials)).value)
  }

  /** The page overwrites the identifier `saveAuth` stored: after a
      sign-in it is always the e-mail, even when the reply carried an id. */
  lemma StoredIdentifierIsEmail(role: string, typedEmail: string, response: LoginBody, auth: Session.AuthState)
    requires HandleReply(role, typedEmail, response, auth).SignInSaved?
    ensures var s := HandleReply(role, typedEmail, response, auth).signedIn;
            s.identifier == s.sessionUser.email.value && s.identifier != ""
  {
  }

  /** Sign-in replies that differ only in where they put the token agree:
      `token` wins over `accessToken`, which wins over `access_token`. */
  lemma TokenPrecedence(p: LoginBody, t: string)
    requires t != ""
    ensures TokenOf(p.(token := Some(t))) == Some(t)
    ensures !Truthy(p.token) ==> TokenOf(p.(accessToken := Some(t))) == Some(t)
  {
  }

  /** A sign-in leaves what the top-up form needs: reading back the stored
      `user` text and role opens its session with the signed-in e-mail. */
  lemma SignInOpensPaymentSession(role: string, typedEmail: string, response: LoginBody,
                                  auth: Session.AuthState, text: string)
    requires HandleReply(role, typedEmail, response, auth).SignInSaved?
    requires role != "" && text != ""
    ensures var s := HandleReply(role, typedEmail, response, auth).signedIn;
            PaymentForm.LoadSession(Some(Storage.StoredJson(text, Storage.Value(s.sessionUser))), Some(s.storedRole))
              == PaymentForm.Loaded(s.identifier, role)
  {
  }

  /** After a verified payment a user who signed in on this page returns
      to the dashboard the sign-in sent them to. */
  lemma PaymentReturnsToSignInDashboard(role: string)
    requires IsPageRole(role)
    ensures PaymentVerify.DashboardRoute(Some(role)) == RouteFor(role)
  {
    if role == "AGGREGATOR" {
      assert ToLower(role) == "aggregator";
    } else if role == "SUBVENDOR" {
      assert ToLower(role) == "subvendor";
    } else {
      assert ToLower(role) == "retailer";
    }
  }
}
