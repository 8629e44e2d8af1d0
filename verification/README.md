# Reseller portal client: decision logic in Dafny

This project models the client of a mobile-data reseller portal, a Next.js
application. Aggregators, subvendors and retailers sign in, top up a wallet
through a payment provider, buy data plans from that wallet and manage their
downstream accounts. The server's ledger sits behind HTTP endpoints and is not
part of this model. The model covers the small decision functions inside the
client's pages, components and API helper:

- **Pricing** (`SubvendorPricing`): the subvendor's margin and price screen.
  It covers margin application on the cached plans, the single-price update
  that replaces a plan by id, the co-vendor price warning and the profit
  preview.
- **Wallet** (`Wallet`, `SubvendorDashboard`, `RetailerDashboard`, `Money`):
  the views shared by the three dashboards. These are the newest-first
  transaction list, the balance taken from the newest successful transaction,
  the purchase gate, the debit request and the optimistic DEBIT record, plus
  the B/M/K currency abbreviation. They also cover the retailer's projection
  of its subvendor's plans, where the price is `customPrice ?? basePrice`.
- **Funding** (`PaymentForm`, `PaymentVerify`): the top-up form's session and
  ₦100 floor, the initiate request and the redirect condition. Also the
  verification page's success test and its role-to-dashboard route.
- **API client** (`Api`): the base URL and the stored-auth helpers. Also the
  role-to-login-endpoint switch, data-plan normalisation, and role-scoped
  wallet lookups. Last, the role check and id resolution of the subvendor plan
  lookup.
- **Admin and aggregator screens** (`ManageSubvendor`, `ManageDataPlans`,
  `ManageAggregators`, `SubvendorList`): the subvendor form validator and its
  payloads, the plan filters, sorts and service options, the aggregator search
  and form, and the subvendor search with its new-entry notifications.
- **Session** (`Session`, `LoginPage`): the auth provider's restore, login and
  logout, the route guard, and the multi-role login page.

Browser storage, HTTP replies, the clock and the JSON parser are inputs.
The pages' storage writes, requests and redirects are returned as values. Money is an
exact `real`. Nullable JSON fields are `Option`s. A numeric JSON field that may
hold a non-number is `Money.JsNum`. JavaScript's `||` on strings and numbers is
`Text.OrElse` and `Text.NumOr`, where empty strings and 0 count as false.

Shared helpers live in `wrappers.dfy` (`Option`, `Result`), `text.dfy` (JS
truthiness, `trim`, ASCII case mapping, `includes`) and `seqs.dfy` (filter
and a stable sort by key).

## Model

| member | source | states |
|---|---|---|
| Text.TrimEmptyIffBlank | components/AggregatorComponent/ManageSubvendor.jsx:56-58 | `s.trim()` is empty exactly when every character of `s` is ECMAScript white space or a line terminator |
| Text.ToLowerIdempotent | components/AggregatorComponent/ManageDataPlans.jsx:65-66 | lower-casing twice is lower-casing once, which case-insensitive comparison relies on |
| Text.ContainsIffOccurs | components/AdminComponents/ManageAggregetors.jsx:54-55 | `includes` holds exactly when the term occurs at some position of the text |
| Text.MatchIsOccurrence | components/AdminComponents/SubvendorList.jsx:50-53 | a case-insensitive search match means the lower-cased term occurs in the lower-cased field, a missing field reading as "" |
| Text.FirstTruthyIsUnique | lib/api.js:53 | the value of `a || b || … || fallback` over optional strings is determined: the earliest truthy candidate, else the fallback |
| Text.PrefixTermMatches | components/AdminComponents/SubvendorList.jsx:50-53 | a field that matches a term, ignoring case, matches every prefix of the term |
| Seqs.Filter | components/AggregatorComponent/ManageDataPlans.jsx:64-71 | `Array.filter` keeps exactly the elements that satisfy the test, in their order |
| Seqs.FilterIdempotent | components/AdminComponents/ManageAggregetors.jsx:52-56 | filtering a filtered list with the same test changes nothing |
| Seqs.SortBy | components/AggregatorComponent/ManageDataPlans.jsx:74-78 | the comparator sort returns a permutation ordered by the key |
| Seqs.SortBySortedIsIdentity | app/subvendor_dashboard/page.jsx:58 | a stable sort leaves a list that is already in key order unchanged |
| Money.Round2 | app/subvendor_dashboard/page.jsx:121 | `Number(x.toFixed(2))` is a whole number of kobo (hundredths), within half a kobo of `x`, and keeps a non-negative amount non-negative |
| Money.Round2OfCents | app/retailer_dashboard/page.jsx:133 | an amount that already has whole kobo is not changed by the rounding |
| Money.FormatCurrency | app/subvendor_dashboard/page.jsx:21-26 | the suffix is B, M or K exactly when the amount reaches 1e9, 1e6 or 1e3 (largest first), and the scaled figure times the suffix's unit is the amount |
| Money.JsNum.OrIfAbsent | app/retailer_dashboard/page.jsx:89 | `??` falls back only for a missing or null value, so 0 and non-numbers are kept |
| Wallet.FetchTransactions | app/subvendor_dashboard/page.jsx:55-59 | the fetched list is a permutation of the reply ordered newest-first, and a non-array reply gives [] |
| Wallet.FetchKeepsOrderedResponse | app/aggregator_dashboard/page.jsx:71-73 | a reply that is already newest-first is kept as it is, ties in server order |
| Wallet.FindSuccess | app/subvendor_dashboard/page.jsx:65 | `find` yields the first SUCCESS transaction, or none when no transaction succeeded |
| Wallet.DeriveWallet | app/subvendor_dashboard/page.jsx:63-71 | nothing loaded gives balance 0 and no transactions; otherwise the list is shown and the balance is the newest SUCCESS entry's `balanceAfter`, 0 when that is missing or there is none |
| Wallet.DerivedBalanceNonNegative | app/retailer_dashboard/page.jsx:65-74 | if every successful transaction records a non-negative balance, the shown balance is non-negative |
| Wallet.LoadWallet | app/aggregator_dashboard/page.jsx:66-87 | one refresh shows every fetched transaction once, newest first, with the newest successful one's balance; an empty or missing reply shows 0 |
| Wallet.LaterSuccessWins | app/aggregator_dashboard/page.jsx:71-81 | of two successful transactions the later one's balance is shown, in whatever order the server listed them |
| Wallet.Purchase | app/subvendor_dashboard/page.jsx:91-142 | a missing plan, a non-numeric price, a balance below the price or a missing token sends no debit. Otherwise it sends the price and role. A debit prepends a SUCCESS DEBIT record holding the two-decimal new balance, which is never negative. A failure changes nothing |
| Wallet.PurchaseAgreesWithDerivedBalance | app/subvendor_dashboard/page.jsx:121-134 | after a debit, the balance rule applied to the optimistic list gives the balance the page shows |
| Wallet.BuyTwiceWithBalanceForOne | app/subvendor_dashboard/page.jsx:97-100 | a wallet of 1200 buys a plan at 1150 once and leaves 50; a second attempt is refused for insufficient balance |
| SubvendorPricing.WithMargin | components/SubvendorComponents/SubvendorDataPlan.jsx:117-126 | one plan gets price `base + base·p/100`, profit `base·p/100` (non-negative for non-negative base and p) and margin p, and keeps every other field |
| SubvendorPricing.ApplyMargin | components/SubvendorComponents/SubvendorDataPlan.jsx:114-128 | every cached plan, in order, gets the margin's price, profit and percent, and nothing else changes |
| SubvendorPricing.ApplyMarginLastWins | components/SubvendorComponents/SubvendorDataPlan.jsx:117-119 | applying margin p and then q gives the same cache as applying q alone |
| SubvendorPricing.HandleApplyMargin | components/SubvendorComponents/SubvendorDataPlan.jsx:102-140 | an empty or non-numeric percentage or a missing subvendor id sends no request. The cache changes only after an accepted request on a loaded cache |
| SubvendorPricing.ReplaceById | components/SubvendorComponents/SubvendorDataPlan.jsx:88-91 | the plans whose id matches the returned plan become it, and every other plan stays as it was |
| SubvendorPricing.ReplaceByIdIdempotent | components/SubvendorComponents/SubvendorDataPlan.jsx:88-91 | applying the same reply twice is applying it once |
| SubvendorPricing.ReplaceByIdAbsent | components/SubvendorComponents/SubvendorDataPlan.jsx:88-91 | a reply for an id not in the cache leaves the cache unchanged |
| SubvendorPricing.HandlePriceUpdate | components/SubvendorComponents/SubvendorDataPlan.jsx:70-99 | with no plan selected nothing happens. An empty or non-numeric price is refused without a request. A successful patch replaces the plan by id in the cache, and the selected plan takes the returned custom price |
| SubvendorPricing.CoVendorAverage | components/SubvendorComponents/SubvendorDataPlan.jsx:46-56 | the average is the reply's `avgPrice`, and 0 when that is missing or the request failed |
| SubvendorPricing.CheckPriceDifference | components/SubvendorComponents/SubvendorDataPlan.jsx:59-67 | a null or zero average leaves the warning as it was. Otherwise the warning is set exactly when the entered price exceeds the average by more than 15 per cent |
| SubvendorPricing.PriceWarningThreshold | components/SubvendorComponents/SubvendorDataPlan.jsx:63-65 | for a positive average the warning holds exactly when the price is above 1.15 times the average |
| SubvendorPricing.ProfitPreview | components/SubvendorComponents/SubvendorDataPlan.jsx:304-309 | the preview exists exactly when a price was entered, and adding the base price back gives the entered price |
| SubvendorDashboard.BuyPlan | app/subvendor_dashboard/page.jsx:91-142 | the debit goes out exactly when the plan's `customPrice` is a number within the balance and a token exists. It sends that price, role SUBVENDOR, the stored id and the e-mail. A debit prepends one record with the rounded, non-negative balance |
| RetailerDashboard.VisiblePrice | app/retailer_dashboard/page.jsx:89 | the retailer sees `customPrice` unless it is missing or null, and then `basePrice` |
| RetailerDashboard.ProjectPlans | app/retailer_dashboard/page.jsx:83-91 | each plan keeps only id, name, network, volume, validity and the visible price, in order; a missing reply gives [] |
| RetailerDashboard.BuyPlan | app/retailer_dashboard/page.jsx:100-153 | the debit goes out exactly when the visible price is a number within the balance and a token exists, with role RETAILER and the retailer's id. A debit leaves the rounded, non-negative balance on a new first record |
| RetailerDashboard.RetailerPaysSubvendorPrice | app/retailer_dashboard/page.jsx:89 | when the subvendor set a numeric custom price, retailer and subvendor are gated alike, charged the same amount and left with the same balance |
| RetailerDashboard.ShownPlansAsWritten | app/retailer_dashboard/page.jsx:77-92 | the plans the dashboard shows as written: the fetcher needs a stored subvendor id but reads the session's own plans through the subvendor-only lookup, and shows none when that lookup refuses |
| RetailerDashboard.RetailerSeesNoPlansAsWritten | lib/api.js:217-222 | as written, a signed-in retailer sees no plans, whatever its subvendor offers |
| RetailerDashboard.ShownPlans | app/retailer_dashboard/page.jsx:77-92 | corrected: a signed-in retailer with a stored subvendor id is shown one entry per plan of that subvendor, and nothing otherwise |
| RetailerDashboard.RetailerSeesSubvendorPlans | app/retailer_dashboard/page.jsx:81-90 | corrected: the retailer sees every plan of its subvendor, in order, at the price the subvendor set |
| RetailerDashboard.FixRestoresRetailerPlans | app/retailer_dashboard/page.jsx:77-92 | for a retailer whose subvendor has plans, the written dashboard shows none and the corrected one shows some |
| PaymentForm.LoadSession | components/PaymentForm.jsx:17-37 | the form asks for a login unless both the stored user text and role are truthy. Text that does not parse, or parses to null, throws. A user without an e-mail is an invalid session. Otherwise the form loads that e-mail and the stored role |
| PaymentForm.FetchBalance | components/PaymentForm.jsx:42-57 | a balance is requested only with an e-mail and a role. A missing balance reads as 0 and a failed request keeps the shown balance |
| PaymentForm.CheckInitiate | components/PaymentForm.jsx:62-84 | a missing e-mail or role stops the top-up first. An empty amount or one below ₦100 stops it next. Otherwise exactly `{email, amount, role}` is sent |
| PaymentForm.SentAmountMeetsMinimum | components/PaymentForm.jsx:70-73 | for a numeric amount the request is sent exactly when the session is present and the amount is at least ₦100 |
| PaymentForm.HandleInitiateReply | components/PaymentForm.jsx:90-107 | the reference is stored and the page redirects exactly when the reply has both an authorisation URL and a reference. A failure reports the first of message, error and exception text, else a fixed text |
| PaymentForm.FailureReasonIsFirstTruthy | components/PaymentForm.jsx:100-107 | a failed initiation reports `message || error || err.message || "An unknown error occurred."`, checked against the independent first-truthy definition |
| PaymentForm.RedirectOnlyAfterValidRequest | components/PaymentForm.jsx:65-99 | a redirect to the provider happens only after a request with a session and an amount, and only with a non-empty reference |
| PaymentVerify.Details | app/payment_verify/page.jsx:34 | the inner `data` object is used when present, else the body itself |
| PaymentVerify.AnyCaseOfSuccessSucceeds | app/payment_verify/page.jsx:37-39 | a status of "success" in any letter case counts as a success |
| PaymentVerify.CurrentRole | app/payment_verify/page.jsx:47-57 | the signed-in user's role is used, else the role of the stored user when its text parses, else none |
| PaymentVerify.DashboardRoute | app/payment_verify/page.jsx:57-66 | no role goes to the customer dashboard. A role matching one of the four dashboards in any case goes there. Any other role goes to `/dashboard` |
| PaymentVerify.RouteIgnoresCase | app/payment_verify/page.jsx:57 | the route depends on the role only up to letter case |
| PaymentVerify.Verify | app/payment_verify/page.jsx:20-92 | without a reference nothing is requested. Details are stored and a redirect is scheduled exactly on a successful reply. A failed request reports an error |
| Api.DropTrailingSlash | lib/api.js:13 | one trailing slash, if any, is removed and nothing else |
| Api.BaseUrl | lib/api.js:13 | a configured, non-empty base loses one trailing slash; otherwise the local default is used |
| Api.BaseKeepsSecondSlash | lib/api.js:13 | a base with two trailing slashes keeps one |
| Api.GetUser | lib/api.js:24-32 | the stored user is read only when its text is non-empty and parses to an object |
| Api.GetIdentifier | lib/api.js:44-47 | the user's id when truthy, else the stored identifier |
| Api.SaveAuth | lib/api.js:49-56 | nothing is written without a user. Otherwise the token, the user and the role (or "") are written, and the identifier is the id, else the e-mail, else "" |
| Api.SavedIdentifierIsFirstTruthy | lib/api.js:53 | the stored identifier is `id || email || ""`, checked against the independent first-truthy definition |
| Api.SavedUserReadsBack | lib/api.js:24-56 | taking as given that the stored JSON text parses back to the saved user, `getUser` returns that user and `getIdentifier` returns its id, else its e-mail, else nothing truthy |
| Api.NoAccountWrites | lib/api.js:105-296 | the exported client defines no `updateSubvendor`, `createSubvendor`, `updateAggregator` or `createAggregator` operation |
| Api.LoginEndpoint | lib/api.js:107-131 | the upper-cased role picks one of five endpoints, with both admin roles sharing one; any other role, or none, is refused |
| Api.SharedEndpointOnlyForAdmins | lib/api.js:122-125 | two roles that reach the same endpoint are the same role up to case, or both administrators |
| Api.NormalizePlan | lib/api.js:201-212 | name = planName or name; price = priceNaira or price or 0; validity = validityDays or validity or 0; status defaults to INACTIVE; the other fields are copied |
| Api.NormalizeFixesListedPlans | lib/api.js:201-212 | normalising an already listed plan again gives the same plan |
| Api.ListDataPlans | lib/api.js:197-214 | a non-array reply gives []; otherwise every record is normalised, same length and order, and each has a status |
| Api.ListWalletTransactions | lib/api.js:247-262 | without an e-mail (argument or user's) and a role the lookup throws. Administrators read every transaction, others read the per-e-mail endpoint. A non-array reply gives [] |
| Api.NonAdminReadsOwnTransactions | lib/api.js:249-261 | a user who is not an administrator and names no e-mail reads the transactions of their own e-mail |
| Api.WalletBalanceQuery | lib/api.js:264-273 | the query carries the argument or the user's e-mail and role, and throws when either is missing |
| Api.SubvendorPlansTarget | lib/api.js:217-239 | the lookup needs a token and a user whose role is exactly SUBVENDOR. It uses the numeric id when there is one; otherwise it looks the subvendor up by e-mail and stores the found id. Each failure has its own message |
| ManageSubvendor.EditPrefill | components/AggregatorComponent/ManageSubvendor.jsx:42-53 | the edit form copies business name, contact person, e-mail, phone and address, missing ones as "", and leaves the password empty |
| ManageSubvendor.EmailHasOneAt | components/AggregatorComponent/ManageSubvendor.jsx:59 | an address the e-mail pattern accepts has exactly one '@' |
| ManageSubvendor.PaddedEmailRejected | components/AggregatorComponent/ManageSubvendor.jsx:59 | the pattern is applied untrimmed, so a leading space is rejected |
| ManageSubvendor.ValidateForm | components/AggregatorComponent/ManageSubvendor.jsx:55-64 | no message exactly when every check passes, and any message reported names a check that fails |
| ManageSubvendor.PassesIffNoCheckFails | components/AggregatorComponent/ManageSubvendor.jsx:55-64 | the form passes exactly when no single check rejects it |
| ManageSubvendor.ReportedCheckIsFirst | components/AggregatorComponent/ManageSubvendor.jsx:56-62 | every check ordered before the reported one accepts the form |
| ManageSubvendor.CreateIsStricterThanEdit | components/AggregatorComponent/ManageSubvendor.jsx:62 | a form valid for creation is valid for an edit, and the converse holds exactly when the password is not blank |
| ManageSubvendor.Submit | components/AggregatorComponent/ManageSubvendor.jsx:66-95 | corrected behaviour, the request the page builds: a rejected form builds none. An edit builds an update of that id carrying `passwordHash` exactly when a password was typed. A creation always carries it. The other fields are taken as typed |
| ManageSubvendor.EditKeepsPassword | components/AggregatorComponent/ManageSubvendor.jsx:42-53 | the payload built from a prefilled edit without a typed password has no `passwordHash` |
| ManageSubvendor.SubmitAsWritten | components/AggregatorComponent/ManageSubvendor.jsx:66-107 | as written: a rejected form shows the validator's message, and every accepted form ends in "❌ Failed to save subvendor. Please try again." because the operation it calls is missing |
| ManageSubvendor.SaveFailedIsNoFormMessage | components/AggregatorComponent/ManageSubvendor.jsx:55-64 | the save error differs from every validator message |
| ManageSubvendor.ValidFormIsNeverSaved | components/AggregatorComponent/ManageSubvendor.jsx:66-107 | as written, a form ends in the save error exactly when the validator accepts it, and no form is ever saved |
| ManageSubvendor.BlankFormNeedsBusinessName | components/AggregatorComponent/ManageSubvendor.jsx:56 | the empty creation form is refused for its business name |
| ManageDataPlans.FilterPlans | components/AggregatorComponent/ManageDataPlans.jsx:64-71 | exactly the plans that pass both the status and the service filter are kept; before a load there are none |
| ManageDataPlans.AllFiltersKeepEverything | components/AggregatorComponent/ManageDataPlans.jsx:65-68 | with both filters at ALL every plan is listed, in order |
| ManageDataPlans.FilterKeepsOrder | components/AggregatorComponent/ManageDataPlans.jsx:64 | filtering two halves and joining them is filtering the whole, so the order is kept |
| ManageDataPlans.StatusFilterIgnoresCase | components/AggregatorComponent/ManageDataPlans.jsx:65-66 | the status filter ignores the letter case of the chosen status |
| ManageDataPlans.SortPlans | components/AggregatorComponent/ManageDataPlans.jsx:74-78 | the sorted table is a permutation, ascending by price or by validity, and otherwise newest first |
| ManageDataPlans.SortKeepsSortedList | components/AggregatorComponent/ManageDataPlans.jsx:75 | a list already ordered by price is left exactly as it is |
| ManageDataPlans.ServiceOptions | components/AggregatorComponent/ManageDataPlans.jsx:167 | the service options are distinct and non-empty, and they are exactly the non-empty service names of the plans |
| ManageAggregators.FilterAggregators | components/AdminComponents/ManageAggregetors.jsx:52-56 | before a load there is no list. Otherwise exactly the aggregators whose lower-cased field contains the lower-cased term are kept |
| ManageAggregators.EmptySearchKeepsAll | components/AdminComponents/ManageAggregetors.jsx:53 | an empty term keeps every aggregator, in order |
| ManageAggregators.SearchIsIdempotent | components/AdminComponents/ManageAggregetors.jsx:52-56 | searching the searched list again changes nothing |
| ManageAggregators.ResetForm | components/AdminComponents/ManageAggregetors.jsx:112-116 | every field is emptied and nothing is being edited |
| ManageAggregators.HandleEdit | components/AdminComponents/ManageAggregetors.jsx:118-128 | the aggregator is selected for editing; name, e-mail and phone are copied, missing ones as "", and the password is blank |
| ManageAggregators.Submit | components/AdminComponents/ManageAggregetors.jsx:61-81 | corrected behaviour, the request the page builds: an update of the selected id exactly while editing one; only a creation carries the password |
| ManageAggregators.UnchangedEditWritesBack | components/AdminComponents/ManageAggregetors.jsx:118-128 | the request built from an untouched edit carries the aggregator's own details and no password |
| ManageAggregators.ResetFormCreates | components/AdminComponents/ManageAggregetors.jsx:112-116 | the request built from a reset form is a creation with empty fields, never an update |
| ManageAggregators.SubmitAsWritten | components/AdminComponents/ManageAggregetors.jsx:61-92 | as written nothing is sent, the error toast shows "Action failed" and the form is left as it was, because the operation the page calls is missing |
| ManageAggregators.SendWith | components/AdminComponents/ManageAggregetors.jsx:61-92 | corrected behaviour: the built request is sent; an accepted one shows the update or create toast and resets the form, a rejected one shows the server's message or "Action failed" and keeps the form |
| ManageAggregators.EditIsNeverSaved | components/AdminComponents/ManageAggregetors.jsx:61-92 | as written an edit sends nothing and the next press tries the same update |
| ManageAggregators.AcceptedSaveThenCreates | components/AdminComponents/ManageAggregetors.jsx:84-85 | with the operations defined, the form after an accepted save creates a new aggregator |
| SubvendorList.FilterSubs | components/AdminComponents/SubvendorList.jsx:46-54 | missing data gives []. An empty term gives the whole list. Otherwise exactly the subvendors whose field contains the term, ignoring case, are kept in order |
| SubvendorList.LongerTermNarrows | components/AdminComponents/SubvendorList.jsx:50-53 | extending the search term, including from the empty term, never adds entries |
| SubvendorList.OnRefresh | components/AdminComponents/SubvendorList.jsx:26-39 | only a longer list notifies. Exactly its entries whose id was not in the snapshot are announced. An array reply replaces the snapshot and any other reply keeps it |
| SubvendorList.SecondRefreshIsQuiet | components/AdminComponents/SubvendorList.jsx:29-38 | receiving the same list again announces nobody |
| SubvendorList.FirstLoadAnnouncesAll | components/AdminComponents/SubvendorList.jsx:29-36 | the first non-empty load announces every subvendor in it |
| Session.RestoreSession | components/AuthProvider.jsx:13-28 | a session is restored only from a truthy token and a stored user text that parses. A text that does not parse is removed. The provider is ready afterwards on every path |
| Session.Login | components/AuthProvider.jsx:30-35 | the token and the user become exactly the given ones |
| Session.Logout | components/AuthProvider.jsx:37-43 | the token and the user are cleared, so the state is unauthenticated |
| Session.LogoutUndoesLogin | components/AuthProvider.jsx:30-43 | logging out after a login gives the same state as logging out |
| Session.ReloadRestoresLogin | components/AuthProvider.jsx:13-35 | what `login` stores is restored by the next mount as the same authenticated state |
| Session.Render | components/ProtectedRoute.jsx:28-35 | the checking view shows exactly while the provider is not ready or the guard still checks. Then the children show exactly for an authenticated session |
| Session.GuardEffect | components/ProtectedRoute.jsx:12-25 | the redirect is pending exactly after a run on a ready, unauthenticated session, so a later run cancels it as the cleanup does. Only an authenticated run ends the check |
| Session.SignInCancelsPendingRedirect | components/ProtectedRoute.jsx:12-25 | whatever runs came before, a sign-in leaves no redirect pending, ends the check and shows the children |
| Session.UnauthenticatedKeepsChecking | components/ProtectedRoute.jsx:12-33 | a visitor who is never authenticated never gets past the checking view |
| Session.RestoredSessionSeesChildren | components/ProtectedRoute.jsx:22-35 | a visitor whose session was restored sees the children once the guard has run |
| LoginPage.Dispatch | app/login/page.jsx:25-37 | only AGGREGATOR, SUBVENDOR and RETAILER are sent, with the trimmed e-mail, to the API client's endpoint for that role; any other role is refused |
| LoginPage.TokenOf | app/login/page.jsx:42-46 | the token is the first truthy of `token`, `accessToken` and `access_token` |
| LoginPage.EmailOf | app/login/page.jsx:48-53 | the e-mail is the first truthy of the three account objects' e-mails and the payload's, falling back to the typed text |
| LoginPage.RouteFor | app/login/page.jsx:88-91 | AGGREGATOR goes to /aggregator_dashboard, SUBVENDOR to /subvendor_dashboard, RETAILER to /retailer_dashboard, and anything else to `/` |
| LoginPage.RoutesAreDistinct | app/login/page.jsx:88-91 | no two page roles share a dashboard |
| LoginPage.HandleReply | app/login/page.jsx:39-101 | the session is saved and the page redirects exactly when the reply has a token and an e-mail. It saves the session user, the role and the e-mail as identifier, and logs in the provider. Otherwise the reply's message, error or a fixed text is shown |
| LoginPage.StoredIdentifierIsEmail | app/login/page.jsx:76 | after a sign-in the stored identifier is the signed-in e-mail, even when the reply carried an id |
| LoginPage.TokenPrecedence | app/login/page.jsx:42-46 | `token` wins over `accessToken`, which wins over `access_token` |
| LoginPage.SignInOpensPaymentSession | app/login/page.jsx:69-80 | what a sign-in stores lets the top-up form load with the signed-in e-mail and role |
| PaymentVerify.StoredReferenceIsVerified | app/payment_verify/page.jsx:20-46 | when the provider hands back the reference the form stored, the verification page asks about it, and a successful reply redirects to the role's dashboard |
| LoginPage.PaymentReturnsToSignInDashboard | app/payment_verify/page.jsx:57-66 | after a verified payment, a user of a page role returns to the dashboard the sign-in sent them to |

## Findings

| source | as written | input that shows it | evidently intended | confidence | as-written member | corrected member |
|---|---|---|---|---|---|---|
| app/retailer_dashboard/page.jsx:79-81 | the retailer dashboard loads its subvendor's plans with `listSubvendorDataPlans(subvendorId)`. That lookup takes no argument and refuses every session whose role is not SUBVENDOR (lib/api.js:222) | a signed-in retailer (truthy token, user role RETAILER) with a stored subvendor id whose subvendor has plans: the lookup fails with "Only Subvendors can load these plans." and the retailer is shown no plans | the retailer is shown the plans of the subvendor whose id the dashboard stored, at the price that subvendor set | high that a retailer session is refused; not executed | RetailerDashboard.ShownPlansAsWritten, RetailerDashboard.RetailerSeesNoPlansAsWritten | RetailerDashboard.ShownPlans, RetailerDashboard.RetailerSeesSubvendorPlans, RetailerDashboard.FixRestoresRetailerPlans |
| components/AggregatorComponent/ManageSubvendor.jsx:76-107 | the subvendor form saves through `api.updateSubvendor` and `api.createSubvendor`. The exported client (lib/api.js:105-296) defines neither, so the call throws before any request and the catch shows the generic save error | any form the validator accepts, e.g. a new subvendor with every field filled in validly: "❌ Failed to save subvendor. Please try again." and nothing is sent | an accepted form sends the create or update request the page builds | high; not executed | ManageSubvendor.SubmitAsWritten, ManageSubvendor.ValidFormIsNeverSaved | ManageSubvendor.Submit, ManageSubvendor.EditKeepsPassword |
| components/AdminComponents/ManageAggregetors.jsx:67-88 | the aggregator form saves through `api.updateAggregator` and `api.createAggregator`, which the exported client does not define, so every submit shows "Action failed" and `resetForm()` is never reached | editing any aggregator and pressing save: the toast reads "Action failed", nothing is sent and the form stays on that aggregator | the request is sent; on success the toast confirms it and the form is reset | high; not executed | ManageAggregators.SubmitAsWritten, ManageAggregators.EditIsNeverSaved | ManageAggregators.SendWith, ManageAggregators.AcceptedSaveThenCreates |

## Left out

- The server's ledger is left out. Debits, credits, idempotent funding, persisted margins and concurrency sit behind HTTP endpoints; the model takes their replies as inputs.
- Rendering, styling, toasts, modals and router navigation are left out. Redirects and stored values are returned as data.
- SWR polling and revalidation, `setTimeout` delays, interceptors and the `didCancel` flag are scheduling and I/O, and are not modelled.
- The axios interceptor that logs out on 401 or 403 is I/O and is not modelled.
- Floating point is not modelled. Money is an exact real, and `toFixed(2)` is `Money.Round2`, the nearest whole kobo with ties rounded up. Negative ties and binary representation errors are not modelled.
- The digits `toFixed`/`toLocaleString` print are not modelled. `Money.FormatCurrency` returns the suffix and the scaled amount instead.
- `parseFloat` and `Number` on typed text are inputs. The reading is a parameter (`Text.NumericText`), and `NaN` is a missing number.
- PaymentForm.CheckInitiate: an amount whose reading is `NaN` passes the ₦100 floor, as in the page. The browser's number input normally gives "" for such text, so this is not reported as a finding.
- Dates are integer timestamps. A missing or unparseable `createdAt` sorts as time 0, where the page's comparator would return `NaN`.
- Letter case mapping covers ASCII only. Unicode case mapping is not modelled.
- ManageSubvendor.IsEmailFormat and IsPhoneFormat state the two regular expressions as character-class predicates. The regex engine is not modelled.
- JSON parsing is an input (`Storage.Parsed`): text that does not parse, the literal null, or a value. Parses to non-object values other than null are not modelled.
- Ids and other fields are strings or `Option`s. A numeric id of 0 reading as false is not modelled.
- Api.SubvendorPlansTarget: `isNaN(id)` is modelled as "the id is one or more ASCII digits". Signs, decimals, exponents and surrounding blanks, which `isNaN` also accepts, are not modelled.
- Api.SubvendorPlansTarget: a lookup reply without an id is not modelled; the found id is taken as given.
- PaymentVerify.DashboardRoute: the route map is read as four own keys. Inherited object keys such as "constructor" are not modelled.
- The wallet endpoints' `emailArg` receives the dashboards' stored ids. That is how the dashboards call it, and the model passes the id through unchanged, so it is not reported as a finding.
- The `subvendorId`, `retailerId` and `aggregatorId` storage keys are parameters. The pages that write them are not part of this model.
- `basePrice` is assumed numeric in the retailer's price fallback; only `customPrice` may be missing or a non-number.
- The aggregator form has no validation in the source, and the model adds none.
- Api.NoAccountWrites lists the operations of the client object only. The HTTP methods the axios instance itself carries (`get`, `post` and so on) are left out; none of them is named like the operations the two forms call.
- Session.Login and Session.Logout return the provider's new state only. Their `localStorage` writes and removals, and the navigation to `/` after a logout, are not returned.
- ManageSubvendor.Submit and ManageAggregators.SendWith model the forms with the missing client operations supplied. The server's reply to the subvendor form and the SWR `mutate()` after a save are not modelled.
- The files without decision logic are not part of this model: the admin and customer dashboards, the admin and customer login pages, customer signup, the profile pages, the retailer manager, the bulk recharge form and the wallet views.
