/** The subvendor dashboard (app/subvendor_dashboard/page.jsx): its wallet
    loading and its `handleBuyPlan`, which debits a plan's `customPrice`
    with the role SUBVENDOR. */
module SubvendorDashboard {
  import opened Wrappers
  import opened Text
  import Money
  import Wallet
  import SubvendorPricing

  /** The offer a subvendor plan makes: its name and its custom price. */
  function OfferOf(plan: Option<SubvendorPricing.SubvendorPlan>): Option<Wallet.Offer> {
    match plan
    case None => None
    case Some(p) => Some(Wallet.Offer(p.name, p.customPrice))
  }

  /** `handleBuyPlan` on the subvendor dashboard: a plan whose `customPrice`
      is not a number, or exceeds the balance, is refused before any
      request; the debit asks for exactly that price as a SUBVENDOR, and a
      successful one leaves a non-negative balance. */
  function BuyPlan(subvendorId: Option<string>, userEmail: Option<string>,
                   plan: Option<SubvendorPricing.SubvendorPlan>, balance: real,
                   transactions: seq<Wallet.Txn>, token: Option<string>,
                   reply: Wallet.DebitReply, clock: Wallet.Clock): (r: Wallet.PurchaseStep)
    ensures r.request.Some? <==>
              plan.Some? && plan.value.customPrice.Num? && balance >= plan.value.customPrice.value && Truthy(token)
    ensures r.request.Some? ==>
              && plan.value.customPrice == Money.Num(r.request.value.amount)
              && r.request.value.role == "SUBVENDOR"
              && r.request.value.userId == subvendorId
              && r.request.value.email == OrEmpty(userEmail)
    ensures r.alert.Purchased? <==> r.request.Some? && reply.Debited?
    ensures r.alert.Purchased? ==> |r.transactions| == |transactions| + 1
    ensures r.alert.Purchased? ==>
              r.balance == Money.Round2(balance - plan.value.customPrice.value) && r.balance >= 0.0
    ensures r.alert.Purchased? ==> r.transactions[1..] == transactions && r.transactions[0].amount == plan.value.customPrice.value
    ensures !r.alert.Purchased? ==> r.balance == balance && r.transactions == transactions
  {
    Wallet.Purchase(Wallet.Buyer(subvendorId, OrEmpty(userEmail), "SUBVENDOR"), OfferOf(plan),
                    balance, transactions, token, reply, clock)
  }
}

/** The retailer dashboard (app/retailer_dashboard/page.jsx): the retailer
    sees its subvendor's plans with the base and custom prices folded into
    one visible price, and buys at that price with the role RETAILER. */
module RetailerDashboard {
  import opened Wrappers
  import opened Text
  import Money
  import Wallet
  import SubvendorPricing
  import SubvendorDashboard
  import Storage
  import Api

  /** A plan as a retailer sees it. */
  datatype RetailerPlan = RetailerPlan(
    id: int,
    name: string,
    network: string,
    volume: string,
    validity: string,
    price: Money.JsNum)

  /** The visible price: the subvendor's `customPrice` unless it is missing
      or null, in which case the base price. */
  function VisiblePrice(p: SubvendorPricing.SubvendorPlan): (price: Money.JsNum)
    ensures !p.customPrice.Absent? ==> price == p.customPrice
    ensures p.customPrice.Absent? ==> price == Money.Num(p.basePrice)
  {
    p.customPrice.OrIfAbsent(Money.Num(p.basePrice))
  }

  /** The plans fetcher: `data?.map(...) || []` keeping only id, name,
      network, volume, validity and the visible price. */
  function ProjectPlans(data: Option<seq<SubvendorPricing.SubvendorPlan>>): (r: seq<RetailerPlan>)
    ensures data.None? ==> r == []
    ensures data.Some? ==> |r| == |data.value|
    ensures data.Some? ==> forall i :: 0 <= i < |r| ==>
              var p := data.value[i];
              r[i] == RetailerPlan(p.id, p.name, p.network, p.volume, p.validity, VisiblePrice(p))
  {
    match data
    case None => []
    case Some(plans) =>
      seq(|plans|, i requires 0 <= i < |plans| =>
        RetailerPlan(plans[i].id, plans[i].name, plans[i].network, plans[i].volume, plans[i].validity,
                     VisiblePrice(plans[i])))
  }

  /** `handleBuyPlan` on the retailer dashboard: the same gate as the
      subvendor's, on the visible price, with the role RETAILER. */
  function BuyPlan(retailerId: Option<string>, userEmail: Option<string>, plan: Option<RetailerPlan>,
                   balance: real, transactions: seq<Wallet.Txn>, token: Option<string>,
                   reply: Wallet.DebitReply, clock: Wallet.Clock): (r: Wallet.PurchaseStep)
    ensures r.request.Some? <==>
              plan.Some? && plan.value.price.Num? && balance >= plan.value.price.value && Truthy(token)
    ensures r.request.Some? ==>
              && plan.value.price == Money.Num(r.request.value.amount)
              && r.request.value.role == "RETAILER"
              && r.request.value.userId == retailerId
    ensures r.alert.Purchased? <==> r.request.Some? && reply.Debited?
    ensures r.alert.Purchased? ==> |r.transactions| == |transactions| + 1
    ensures r.alert.Purchased? ==>
              r.balance == Money.Round2(balance - plan.value.price.value) && r.balance >= 0.0
              && r.transactions[0].balanceAfter == Some(r.balance)
              && r.transactions[1..] == transactions
    ensures !r.alert.Purchased? ==> r.balance == balance && r.transactions == transactions
  {
    var offer := match plan
      case None => None
      case Some(p) => Some(Wallet.Offer(p.name, p.price));
    Wallet.Purchase(Wallet.Buyer(retailerId, OrEmpty(userEmail), "RETAILER"), offer,
                    balance, transactions, token, reply, clock)
  }

  /** When the subvendor set a numeric custom price, a retailer is charged
      what the subvendor itself would be charged for that plan: the two
      dashboards gate alike, send the same amount under different roles and
      end at the same balance. */
  lemma RetailerPaysSubvendorPrice(p: SubvendorPricing.SubvendorPlan, balance: real,
                                   transactions: seq<Wallet.Txn>, token: Option<string>,
                                   reply: Wallet.DebitReply, clock: Wallet.Clock,
                                   subvendorId: Option<string>, retailerId: Option<string>,
                                   email: Option<string>)
    requires p.customPrice.Num?
    ensures var retail := ProjectPlans(Some([p]))[0];
            var r := BuyPlan(retailerId, email, Some(retail), balance, transactions, token, reply, clock);
            var s := SubvendorDashboard.BuyPlan(subvendorId, email, Some(p), balance, transactions, token, reply, clock);
            && (r.request.Some? <==> s.request.Some?)
            && (r.request.Some? ==> r.request.value.amount == s.request.value.amount)
            && r.balance == s.balance
  {
  }

  // ---------------------------------------------------------------------
  // Loading the subvendor's plans
  // ---------------------------------------------------------------------

  /** The server's plan lists, by subvendor id. */
  type Catalog = map<string, seq<SubvendorPricing.SubvendorPlan>>

  /** The plans the server returns for one subvendor id, none for an
      unknown id. */
  function PlansOf(catalog: Catalog, id: string): Option<seq<SubvendorPricing.SubvendorPlan>> {
    if id in catalog then Some(catalog[id]) else None
  }

  /** The retailer's plan list as the dashboard is written: the fetcher runs
      only for a truthy stored subvendor id, but it calls the client's
      subvendor-only plan lookup, which ignores that id and reads the plans
      of the signed-in session; a refused lookup leaves the list empty. */
  function ShownPlansAsWritten(subvendorId: Option<string>, token: Option<string>,
                               user: Option<Storage.UserRecord>, storedIdentifier: Option<string>,
                               lookup: Result<string, string>, catalog: Catalog): (r: seq<RetailerPlan>)
    ensures !Truthy(subvendorId) ==> r == []
    ensures Api.SubvendorPlansTarget(token, user, storedIdentifier, lookup).Failure? ==> r == []
    ensures Truthy(subvendorId) && Api.SubvendorPlansTarget(token, user, storedIdentifier, lookup).Success? ==>
              r == ProjectPlans(PlansOf(catalog, Api.SubvendorPlansTarget(token, user, storedIdentifier, lookup).value.subvendorId))
  {
    if !Truthy(subvendorId) then []
    else
      match Api.SubvendorPlansTarget(token, user, storedIdentifier, lookup)
      case Failure(_) => ProjectPlans(None)
      case Success(target) => ProjectPlans(PlansOf(catalog, target.subvendorId))
  }

  /** As written, a signed-in retailer sees no plans at all, whatever plans
      its subvendor has: the lookup refuses every role but SUBVENDOR. */
  lemma RetailerSeesNoPlansAsWritten(subvendorId: Option<string>, token: string, u: Storage.UserRecord,
                                     storedIdentifier: Option<string>, lookup: Result<string, string>,
                                     catalog: Catalog)
    requires token != "" && u.role == Some("RETAILER")
    ensures ShownPlansAsWritten(subvendorId, Some(token), Some(u), storedIdentifier, lookup, catalog) == []
  {
    assert Api.SubvendorPlansTarget(Some(token), Some(u), storedIdentifier, lookup) == Failure(Api.OnlySubvendors);
  }

  /** The retailer's plan list as the dashboard intends it: the plans of the
      subvendor whose id it stored, fetched for a signed-in session. */
  function ShownPlans(subvendorId: Option<string>, token: Option<string>, catalog: Catalog): (r: seq<RetailerPlan>)
    ensures !Truthy(subvendorId) || !Truthy(token) ==> r == []
    ensures Truthy(subvendorId) && subvendorId.value !in catalog ==> r == []
    ensures Truthy(subvendorId) && Truthy(token) && subvendorId.value in catalog ==>
              |r| == |catalog[subvendorId.value]|
  {
    if !Truthy(subvendorId) || !Truthy(token) then []
    else ProjectPlans(PlansOf(catalog, subvendorId.value))
  }

  /** With the lookup fixed, a signed-in retailer sees every plan of its
      subvendor, in the server's order, at the price the subvendor set. */
  lemma RetailerSeesSubvendorPlans(sid: string, token: string, catalog: Catalog)
    requires sid != "" && token != "" && sid in catalog
    ensures var r := ShownPlans(Some(sid), Some(token), catalog);
            && |r| == |catalog[sid]|
            && forall i :: 0 <= i < |r| ==>
                 r[i].id == catalog[sid][i].id && r[i].price == VisiblePrice(catalog[sid][i])
  {
  }

  /** The fix only changes what a retailer sees: for a signed-in retailer
      whose subvendor has plans, the written dashboard shows none and the
      corrected one shows them. */
  lemma FixRestoresRetailerPlans(sid: string, token: string, u: Storage.UserRecord,
                                 storedIdentifier: Option<string>, lookup: Result<string, string>,
                                 catalog: Catalog)
    requires sid != "" && token != "" && u.role == Some("RETAILER")
    requires sid in catalog && catalog[sid] != []
    ensures ShownPlansAsWritten(Some(sid), Some(token), Some(u), storedIdentifier, lookup, catalog) == []
    ensures ShownPlans(Some(sid), Some(token), catalog) != []
  {
    RetailerSeesNoPlansAsWritten(Some(sid), token, u, storedIdentifier, lookup, catalog);
  }
}
