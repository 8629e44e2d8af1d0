/** The request-shaping helpers of the API client (lib/api.js): the base
    URL, the stored-session helpers, the role → login endpoint switch, the
    data-plan normalisation and the guards in front of the wallet and
    subvendor-plan lookups. The HTTP calls are not modelled: what they
    would send is returned, and what they answered is passed in. */
module Api {
  import opened Wrappers
  import opened Text
  import Storage
  import Wallet

  // ---------------------------------------------------------------------
  // Base URL
  // ---------------------------------------------------------------------

  const DefaultBase := "http://localhost:8080"

  /** `s.replace(/\/$/, "")`: one trailing slash, if any, is removed. */
  function DropTrailingSlash(s: string): (r: string)
    ensures |s| > 0 && s[|s| - 1] == '/' ==> r + "/" == s
    ensures !(|s| > 0 && s[|s| - 1] == '/') ==> r == s
  {
    if |s| > 0 && s[|s| - 1] == '/' then s[..|s| - 1] else s
  }

  /** `BASE`: the configured base URL when it is set and non-empty,
      otherwise the local default, without one trailing slash. */
  function BaseUrl(configured: Option<string>): (r: string)
    ensures Truthy(configured) ==> r == DropTrailingSlash(configured.value)
    ensures !Truthy(configured) ==> r == DefaultBase
  {
    DropTrailingSlash(OrElse(configured, Some(DefaultBase)).value)
  }

  /** Only one slash is removed: a base configured with two trailing
      slashes keeps one of them. */
  lemma BaseKeepsSecondSlash(host: string)
    ensures BaseUrl(Some(host + "//")) == host + "/"
  {
    var s := host + "//";
    assert s[..|s| - 1] == host + "/";
  }

  // ---------------------------------------------------------------------
  // Stored session
  // ---------------------------------------------------------------------

  /** `getUser()`: the parsed `glovendor_user`, or null when the key is
      missing or empty, the text does not parse or it parses to null. */
  function GetUser(stored: Option<Storage.StoredJson<Storage.UserRecord>>): (user: Option<Storage.UserRecord>)
    ensures user.Some? <==> Storage.IsStored(stored) && stored.value.parsed.Value?
    ensures user.Some? ==> user.value == stored.value.parsed.v
  {
    if Storage.IsStored(stored) && stored.value.parsed.Value? then Some(stored.value.parsed.v) else None
  }

  /** `getIdentifier()`: the user's id when truthy, else the stored
      `glovendor_identifier`. */
  function GetIdentifier(user: Option<Storage.UserRecord>, storedIdentifier: Option<string>): (id: Option<string>)
    ensures user.Some? && Truthy(user.value.id) ==> id == user.value.id
    ensures !(user.Some? && Truthy(user.value.id)) ==> id == storedIdentifier
  {
    OrElse(if user.Some? then user.value.id else None, storedIdentifier)
  }

  /** The four keys `saveAuth` writes. */
  datatype SavedAuth = SavedAuth(token: string, user: Storage.UserRecord, role: string, identifier: string)

  /** `saveAuth(token, user)`: nothing is written without a user; otherwise
      the role is the user's or "" and the identifier the user's id, else
      its e-mail, else "". */
  function SaveAuth(token: string, user: Option<Storage.UserRecord>): (saved: Option<SavedAuth>)
    ensures saved.None? <==> user.None?
    ensures saved.Some? ==> saved.value.token == token && saved.value.user == user.value
    ensures saved.Some? ==> saved.value.role == OrEmpty(user.value.role)
    ensures saved.Some? && Truthy(user.value.id) ==> saved.value.identifier == user.value.id.value
    ensures saved.Some? && !Truthy(user.value.id) && Truthy(user.value.email) ==>
              saved.value.identifier == user.value.email.value
    ensures saved.Some? ==> (saved.value.identifier == "" <==> !Truthy(user.value.id) && !Truthy(user.value.email))
  {
    match user
    case None => None
    case Some(u) => Some(SavedAuth(token, u, OrEmpty(u.role), OrEmpty(OrElse(u.id, u.email))))
  }

  /** The stored identifier is `user.id || user.email || ''`. */
  lemma SavedIdentifierIsFirstTruthy(token: string, u: Storage.UserRecord)
    ensures IsFirstTruthy([u.id, u.email], "", SaveAuth(token, Some(u)).value.identifier)
  {
    var cands := [u.id, u.email];
    if Truthy(u.id) {
      assert Truthy(cands[0]);
    } else if Truthy(u.email) {
      assert Truthy(cands[1]) && !Truthy(cands[0]);
    } else {
      assert forall i :: 0 <= i < |cands| ==> !Truthy(cands[i]);
    }
  }

  /** What `saveAuth` stores is what the session helpers read back, given
      that the stored JSON text parses back to the saved user (the JSON
      round-trip itself is taken as given): `getUser` returns the user,
      and `getIdentifier` returns its id, else its e-mail, and nothing
      truthy when it has neither. */
  lemma SavedUserReadsBack(token: string, u: Storage.UserRecord, text: string)
    requires text != ""
    ensures var saved := SaveAuth(token, Some(u)).value;
            var back := GetUser(Some(Storage.StoredJson(text, Storage.Value(saved.user))));
            && back == Some(u)
            && (Truthy(u.id) ==> GetIdentifier(back, Some(saved.identifier)) == u.id)
            && (!Truthy(u.id) && Truthy(u.email) ==> GetIdentifier(back, Some(saved.identifier)) == u.email)
            && (!Truthy(u.id) && !Truthy(u.email) ==> !Truthy(GetIdentifier(back, Some(saved.identifier))))
  {
  }

  // ---------------------------------------------------------------------
  // Login endpoint
  // ---------------------------------------------------------------------

  const InvalidLoginRole := "Invalid login role"

  /** The endpoint for an upper-cased role name. */
  function EndpointFor(upper: string): Option<string> {
    if upper == "AGGREGATOR" then Some("/api/aggregators/auth/login")
    else if upper == "SUBVENDOR" then Some("/api/subvendor/auth/login")
    else if upper == "CUSTOMER" then Some("/api/customer/auth/login")
    else if upper == "RETAILER" then Some("/api/retailers/auth/login")
    else if upper == "ADMIN" || upper == "SUPERADMIN" then Some("/api/auth/login")
    else None
  }

  /** The six role names the login switch knows. */
  predicate IsLoginRole(upper: string) {
    upper in {"AGGREGATOR", "SUBVENDOR", "CUSTOMER", "RETAILER", "ADMIN", "SUPERADMIN"}
  }

  /** `login(role, …)`: the role is upper-cased and switched on; an
      unknown or missing role throws "Invalid login role" before any
      request. */
  function LoginEndpoint(role: Option<string>): (r: Result<string, string>)
    ensures r.Success? <==> role.Some? && IsLoginRole(ToUpper(role.value))
    ensures r.Failure? ==> r.error == InvalidLoginRole
    ensures r.Success? && ToUpper(role.value) in {"ADMIN", "SUPERADMIN"} ==> r.value == "/api/auth/login"
    ensures r.Success? && ToUpper(role.value) == "AGGREGATOR" ==> r.value == "/api/aggregators/auth/login"
    ensures r.Success? && ToUpper(role.value) == "SUBVENDOR" ==> r.value == "/api/subvendor/auth/login"
    ensures r.Success? && ToUpper(role.value) == "CUSTOMER" ==> r.value == "/api/customer/auth/login"
    ensures r.Success? && ToUpper(role.value) == "RETAILER" ==> r.value == "/api/retailers/auth/login"
  {
    if role.None? then Failure(InvalidLoginRole)
    else
      match EndpointFor(ToUpper(role.value))
      case None => Failure(InvalidLoginRole)
      case Some(e) => Success(e)
  }

  /** Distinct roles share an endpoint only when both are administrators. */
  lemma SharedEndpointOnlyForAdmins(a: string, b: string)
    requires LoginEndpoint(Some(a)).Success? && LoginEndpoint(Some(b)).Success?
    requires LoginEndpoint(Some(a)).value == LoginEndpoint(Some(b)).value
    ensures ToUpper(a) == ToUpper(b) || (ToUpper(a) in {"ADMIN", "SUPERADMIN"} && ToUpper(b) in {"ADMIN", "SUPERADMIN"})
  {
  }

  // ---------------------------------------------------------------------
  // Data plans
  // ---------------------------------------------------------------------

  /** A data-plan record as the server returns it; every field may be
      missing. */
  datatype RawPlan = RawPlan(
    id: Option<int>,
    planName: Option<string>,
    name: Option<string>,
    priceNaira: Option<real>,
    price: Option<real>,
    validityDays: Option<real>,
    validity: Option<real>,
    dataServices: Option<string>,
    ersPlanId: Option<string>,
    newPlan: Option<bool>,
    status: Option<string>,
    createdAt: Option<int>,
    updatedAt: Option<int>)

  /** A data plan as the client lists it. */
  datatype DataPlan = DataPlan(
    id: Option<int>,
    name: Option<string>,
    price: real,
    validityDays: real,
    dataServices: Option<string>,
    ersPlanId: Option<string>,
    newPlan: Option<bool>,
    status: string,
    createdAt: Option<int>,
    updatedAt: Option<int>)

  /** One record of `listDataPlans`: the first truthy of the alternative
      names, 0 for a missing price or validity, INACTIVE for a missing
      status, the other fields copied. */
  function NormalizePlan(p: RawPlan): (d: DataPlan)
    ensures d.name == (if Truthy(p.planName) then p.planName else p.name)
    ensures p.priceNaira.Some? && p.priceNaira.value != 0.0 ==> d.price == p.priceNaira.value
    ensures (p.priceNaira.None? || p.priceNaira.value == 0.0) && p.price.Some? ==> d.price == p.price.value
    ensures (p.priceNaira.None? || p.priceNaira.value == 0.0) && p.price.None? ==> d.price == 0.0
    ensures p.validityDays.Some? && p.validityDays.value != 0.0 ==> d.validityDays == p.validityDays.value
    ensures (p.validityDays.None? || p.validityDays.value == 0.0) && p.validity.Some? ==> d.validityDays == p.validity.value
    ensures (p.validityDays.None? || p.validityDays.value == 0.0) && p.validity.None? ==> d.validityDays == 0.0
    ensures d.status != ""
    ensures Truthy(p.status) ==> d.status == p.status.value
    ensures !Truthy(p.status) ==> d.status == "INACTIVE"
    ensures d.id == p.id && d.dataServices == p.dataServices && d.ersPlanId == p.ersPlanId
    ensures d.newPlan == p.newPlan && d.createdAt == p.createdAt && d.updatedAt == p.updatedAt
  {
    DataPlan(p.id, OrElse(p.planName, p.name),
             NumOr(p.priceNaira, NumOr(p.price, 0.0)),
             NumOr(p.validityDays, NumOr(p.validity, 0.0)),
             p.dataServices, p.ersPlanId, p.newPlan,
             OrElse(p.status, Some("INACTIVE")).value,
             p.createdAt, p.updatedAt)
  }

  /** A listed plan written back in the server's shape: the name under both
      of its spellings, price and validity under their primary names. */
  function AsRaw(d: DataPlan): RawPlan {
    RawPlan(d.id, d.name, d.name, Some(d.price), None, Some(d.validityDays), None,
            d.dataServices, d.ersPlanId, d.newPlan, Some(d.status), d.createdAt, d.updatedAt)
  }

  /** Normalisation changes nothing on a record that is already normal:
      every listed plan survives a second pass unchanged. */
  lemma NormalizeFixesListedPlans(p: RawPlan)
    ensures NormalizePlan(AsRaw(NormalizePlan(p))) == NormalizePlan(p)
  {
  }

  /** `listDataPlans`: a response that is not an array gives []; an array
      is normalised record by record, in order. */
  function ListDataPlans(data: Option<seq<RawPlan>>): (r: seq<DataPlan>)
    ensures data.None? ==> r == []
    ensures data.Some? ==> |r| == |data.value|
    ensures data.Some? ==> forall i :: 0 <= i < |r| ==> r[i] == NormalizePlan(data.value[i])
    ensures forall i :: 0 <= i < |r| ==> r[i].status != ""
  {
    match data
    case None => []
    case Some(plans) => seq(|plans|, i requires 0 <= i < |plans| => NormalizePlan(plans[i]))
  }

  // ---------------------------------------------------------------------
  // Wallet lookups
  // ---------------------------------------------------------------------

  const MissingWalletLookup := "Missing email or role for wallet lookup."
  const MissingBalanceLookup := "Missing email or role for wallet balance lookup."

  /** Which transaction endpoint a lookup reads. */
  datatype TxnEndpoint = AllTransactions | ByEmail(email: string)

  datatype WalletLookup = WalletLookup(endpoint: TxnEndpoint, transactions: seq<Wallet.Txn>)

  /** Administrators' roles, which see every transaction. */
  predicate IsAdminRole(role: string) {
    role == "SUPERADMIN" || role == "ADMIN"
  }

  /** `listWalletTransactions(emailArg)`: the e-mail is the argument or the
      stored user's, the role the stored user's; both must be truthy. An
      administrator reads every transaction, anyone else only those of the
      e-mail; a reply that is not an array gives []. */
  function ListWalletTransactions(emailArg: Option<string>, user: Option<Storage.UserRecord>,
                                  reply: Option<seq<Wallet.Txn>>): (r: Result<WalletLookup, string>)
    ensures r.Failure? <==>
              !Truthy(OrElse(emailArg, if user.Some? then user.value.email else None))
              || user.None? || !Truthy(user.value.role)
    ensures r.Failure? ==> r.error == MissingWalletLookup
    ensures r.Success? ==> (r.value.endpoint.AllTransactions? <==> IsAdminRole(user.value.role.value))
    ensures r.Success? && r.value.endpoint.ByEmail? ==>
              Some(r.value.endpoint.email) == OrElse(emailArg, user.value.email)
    ensures r.Success? ==> r.value.transactions == reply.GetOr([])
  {
    var email := OrElse(emailArg, if user.Some? then user.value.email else None);
    var role := if user.Some? then user.value.role else None;
    if !Truthy(email) || !Truthy(role) then Failure(MissingWalletLookup)
    else
      var endpoint := if IsAdminRole(role.value) then AllTransactions else ByEmail(email.value);
      Success(WalletLookup(endpoint, reply.GetOr([])))
  }

  /** A user who is not an administrator and names no other e-mail only
      ever reads the transactions of their own e-mail. */
  lemma NonAdminReadsOwnTransactions(u: Storage.UserRecord, reply: Option<seq<Wallet.Txn>>)
    requires Truthy(u.email) && Truthy(u.role) && !IsAdminRole(u.role.value)
    ensures ListWalletTransactions(None, Some(u), reply) ==
              Success(WalletLookup(ByEmail(u.email.value), reply.GetOr([])))
  {
  }

  /** `getWalletBalance(emailArg, roleArg)`: the query parameters, each the
      argument or the stored user's value, both required. */
  function WalletBalanceQuery(emailArg: Option<string>, roleArg: Option<string>,
                              user: Option<Storage.UserRecord>): (r: Result<(string, string), string>)
    ensures r.Success? <==>
              Truthy(OrElse(emailArg, if user.Some? then user.value.email else None))
              && Truthy(OrElse(roleArg, if user.Some? then user.value.role else None))
    ensures r.Failure? ==> r.error == MissingBalanceLookup
    ensures r.Success? && Truthy(emailArg) ==> r.value.0 == emailArg.value
    ensures r.Success? && Truthy(roleArg) ==> r.value.1 == roleArg.value
    ensures r.Success? ==> r.value.0 != "" && r.value.1 != ""
  {
    var email := OrElse(emailArg, if user.Some? then user.value.email else None);
    var role := OrElse(roleArg, if user.Some? then user.value.role else None);
    if !Truthy(email) || !Truthy(role) then Failure(MissingBalanceLookup)
    else Success((email.value, role.value))
  }

  // ---------------------------------------------------------------------
  // Subvendor plans
  // ---------------------------------------------------------------------

  const PleaseLogIn := "Please log in first."
  const SessionNotFound := "User session not found."
  const OnlySubvendors := "Only Subvendors can load these plans."
  const EmailMissing := "Email missing for subvendor session."
  const LookupFailed := "Failed to load subvendor plans. Please re-login."

  /** `isNaN(id)` is false: the identifier reads as a number. Only plain
      decimal digit strings are recognised here. */
  predicate IsNumericId(id: string) {
    |id| > 0 && AllDigits(id)
  }

  /** Which subvendor's plans are requested, and the identifier stored
      for next time when it had to be looked up by e-mail. */
  datatype PlansTarget = PlansTarget(subvendorId: string, savedIdentifier: Option<string>)

  /** `listSubvendorDataPlans`: a token and a stored user are required, and
      the user's role must be exactly SUBVENDOR; the id is the user's or the
      stored identifier, and when that is not numeric the subvendor is
      looked up by the user's e-mail (`lookup` is that reply). */
  function SubvendorPlansTarget(token: Option<string>, user: Option<Storage.UserRecord>,
                                storedIdentifier: Option<string>,
                                lookup: Result<string, string>): (r: Result<PlansTarget, string>)
    ensures !Truthy(token) ==> r == Failure(PleaseLogIn)
    ensures Truthy(token) && user.None? ==> r == Failure(SessionNotFound)
    ensures Truthy(token) && user.Some? && user.value.role != Some("SUBVENDOR") ==> r == Failure(OnlySubvendors)
    ensures r.Success? ==> Truthy(token) && user.Some? && user.value.role == Some("SUBVENDOR")
    ensures r.Success? && r.value.savedIdentifier.None? ==>
              Some(r.value.subvendorId) == GetIdentifier(user, storedIdentifier) && IsNumericId(r.value.subvendorId)
    ensures r.Success? && r.value.savedIdentifier.Some? ==>
              && lookup == Success(r.value.subvendorId)
              && r.value.savedIdentifier == Some(r.value.subvendorId)
              && Truthy(user.value.email)
    ensures Truthy(token) && user.Some? && user.value.role == Some("SUBVENDOR") ==>
              var id := GetIdentifier(user, storedIdentifier);
              (Truthy(id) && IsNumericId(id.value) ==> r == Success(PlansTarget(id.value, None)))
  {
    if !Truthy(token) then Failure(PleaseLogIn)
    else if user.None? then Failure(SessionNotFound)
    else if user.value.role != Some("SUBVENDOR") then Failure(OnlySubvendors)
    else
      var id := GetIdentifier(user, storedIdentifier);
      if Truthy(id) && IsNumericId(id.value) then Success(PlansTarget(id.value, None))
      else if !Truthy(user.value.email) then Failure(EmailMissing)
      else
        match lookup
        case Failure(_) => Failure(LookupFailed)
        case Success(found) => Success(PlansTarget(found, Some(found)))
  }

  // ---------------------------------------------------------------------
  // The exported client object
  // ---------------------------------------------------------------------

  /** The operations of the exported client: the keys of its operation
      table, which is merged onto the HTTP instance. The instance itself
      adds only HTTP verbs and configuration. */
  const ClientOperations: set<string> := {
    "login", "adminLogin", "superadminLogin", "aggregatorLogin", "subvendorLogin",
    "customerLogin", "retailerLogin",
    "listAggregators", "getAggregatorById",
    "listSubvendors", "getSubvendorById", "getSubvendorByEmail",
    "createCustomer", "listCustomers", "getCustomerById", "getCustomerByEmail", "getCustomerByMsisdn",
    "createRetailerForSubvendor", "listMyRetailers", "getRetailerById", "updateRetailer", "deleteRetailer",
    "listDataPlans", "listSubvendorDataPlans",
    "initiatePayment", "verifyPayment",
    "listWalletTransactions", "getWalletBalance",
    "recordPendingFundingTransaction", "markTransactionSuccessful"
  }

  /** `api.<name>(…)` reaches a request only when the client defines
      `name`; any other name throws a TypeError before anything is sent. */
  predicate Offers(name: string) {
    name in ClientOperations
  }

  /** The client defines no operation that creates or updates a subvendor
      or an aggregator. */
  lemma NoAccountWrites()
    ensures !Offers("updateSubvendor") && !Offers("createSubvendor")
    ensures !Offers("updateAggregator") && !Offers("createAggregator")
  {
  }
}
