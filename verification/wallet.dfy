/** The wallet view the subvendor, retailer and aggregator dashboards share:
    the fetched transaction list is ordered newest-first, the displayed
    balance is read from the newest successful transaction, and a plan
    purchase is gated on that balance before a debit request is sent and
    recorded optimistically. The ledger itself is on the server; its
    replies are parameters here. */
module Wallet {
  import opened Wrappers
  import opened Text
  import Seqs
  import Money

  /** A wallet transaction as the transaction endpoints return it
      (`createdAt` as a millisecond timestamp). */
  datatype Txn = Txn(
    id: string,
    txnType: string,
    amount: real,
    balanceAfter: Option<real>,
    reference: string,
    status: string,
    createdAt: int)

  /** The sort key that puts later transactions first. */
  function NewestFirstKey(t: Txn): real {
    -(t.createdAt as real)
  }

  /** No transaction is older than one after it. */
  predicate NewestFirst(txns: seq<Txn>) {
    forall i, j :: 0 <= i < j < |txns| ==> txns[i].createdAt >= txns[j].createdAt
  }

  /** The dashboards' transaction fetcher: a response that is not an array
      becomes the empty list; an array is sorted with
      `(a, b) => new Date(b.createdAt) - new Date(a.createdAt)`. */
  function FetchTransactions(data: Option<seq<Txn>>): (r: seq<Txn>)
    ensures data.None? ==> r == []
    ensures data.Some? ==> multiset(r) == multiset(data.value)
    ensures NewestFirst(r)
  {
    match data
    case None => []
    case Some(d) =>
      var r := Seqs.SortBy(d, NewestFirstKey);
      assert forall i, j :: 0 <= i < j < |r| ==> NewestFirstKey(r[i]) <= NewestFirstKey(r[j]);
      r
  }

  /** A response that is already newest-first is kept in its order, ties
      included (the engine's sort is stable). */
  lemma FetchKeepsOrderedResponse(data: seq<Txn>)
    requires NewestFirst(data)
    ensures FetchTransactions(Some(data)) == data
  {
    Seqs.SortBySortedIsIdentity(data, NewestFirstKey);
  }

  // ---------------------------------------------------------------------
  // Balance derivation
  // ---------------------------------------------------------------------

  /** Entry `i` is the first successful transaction of the list. */
  ghost predicate IsFirstSuccess(txns: seq<Txn>, i: int) {
    && 0 <= i < |txns|
    && txns[i].status == "SUCCESS"
    && forall k :: 0 <= k < i ==> txns[k].status != "SUCCESS"
  }

  /** `txns.find((t) => t.status === 'SUCCESS')`, as a position. */
  function FindSuccess(txns: seq<Txn>): (r: Option<nat>)
    ensures r.Some? ==> IsFirstSuccess(txns, r.value)
    ensures r.None? ==> forall k :: 0 <= k < |txns| ==> txns[k].status != "SUCCESS"
    decreases |txns|
  {
    if |txns| == 0 then None
    else if txns[0].status == "SUCCESS" then Some(0)
    else
      match FindSuccess(txns[1..])
      case None => None
      case Some(i) => Some(i + 1)
  }

  /** What a dashboard shows: the balance and the listed transactions. */
  datatype WalletView = WalletView(balance: real, transactions: seq<Txn>)

  /** The balance the wallet reports for `txns`: the `balanceAfter` of the
      first successful transaction (0 when it has none), or 0 when no
      transaction succeeded. */
  ghost predicate ReportsBalance(txns: seq<Txn>, balance: real) {
    || (exists i :: IsFirstSuccess(txns, i) && balance == txns[i].balanceAfter.GetOr(0.0))
    || ((forall k :: 0 <= k < |txns| ==> txns[k].status != "SUCCESS") && balance == 0.0)
  }

  /** The effect that runs when fetched transactions arrive: nothing loaded
      or an empty list shows balance 0 and no transactions; otherwise the
      list is shown as fetched and the balance is read from its first
      successful transaction (`latestSuccessTxn?.balanceAfter || 0`). */
  function DeriveWallet(fetched: Option<seq<Txn>>): (w: WalletView)
    ensures fetched.None? || fetched.value == [] ==> w == WalletView(0.0, [])
    ensures fetched.Some? ==> w.transactions == fetched.value
    ensures fetched.Some? ==> ReportsBalance(fetched.value, w.balance)
  {
    if fetched.None? || |fetched.value| == 0 then WalletView(0.0, [])
    else
      var txns := fetched.value;
      match FindSuccess(txns)
      case None => WalletView(0.0, txns)
      case Some(i) => WalletView(NumOr(txns[i].balanceAfter, 0.0), txns)
  }

  /** When every successful transaction records a non-negative balance, the
      derived balance is non-negative. */
  lemma DerivedBalanceNonNegative(fetched: Option<seq<Txn>>)
    requires fetched.Some? ==> forall k :: 0 <= k < |fetched.value| && fetched.value[k].status == "SUCCESS" ==>
               fetched.value[k].balanceAfter.GetOr(0.0) >= 0.0
    ensures DeriveWallet(fetched).balance >= 0.0
  {
    if fetched.Some? && |fetched.value| > 0 {
      var txns := fetched.value;
      match FindSuccess(txns)
      case None =>
      case Some(i) =>
        assert txns[i].status == "SUCCESS";
    }
  }

  /** A dashboard's wallet after a refresh: the fetcher's reply (not an
      array: `None`) sorted newest-first, then the balance effect. The
      list shown holds exactly the fetched transactions, newest first, and
      the balance is the newest successful one's. */
  function LoadWallet(reply: Option<seq<Txn>>): (w: WalletView)
    ensures reply.None? || reply.value == [] ==> w == WalletView(0.0, [])
    ensures reply.Some? ==> multiset(w.transactions) == multiset(reply.value)
    ensures NewestFirst(w.transactions)
    ensures ReportsBalance(w.transactions, w.balance)
  {
    DeriveWallet(Some(FetchTransactions(reply)))
  }

  /** Two transactions that both succeeded: the balance shown is the one
      recorded by the later, whatever order the server listed them in. */
  lemma LaterSuccessWins(older: Txn, newer: Txn)
    requires older.status == "SUCCESS" && newer.status == "SUCCESS"
    requires older.createdAt < newer.createdAt
    ensures LoadWallet(Some([older, newer])).balance == newer.balanceAfter.GetOr(0.0)
  {
    var w := LoadWallet(Some([older, newer]));
    var i :| IsFirstSuccess(w.transactions, i) && w.balance == w.transactions[i].balanceAfter.GetOr(0.0);
    assert i == 0;
    assert w.transactions[0] in multiset([older, newer]);
  }

  // ---------------------------------------------------------------------
  // Purchase gate and optimistic debit
  // ---------------------------------------------------------------------

  /** The plan a buyer clicked: its name and the price field the dashboard
      reads (`customPrice` for a subvendor, `price` for a retailer). */
  datatype Offer = Offer(name: string, price: Money.JsNum)

  /** Who is buying: the stored id, the session e-mail and the role sent. */
  datatype Buyer = Buyer(userId: Option<string>, email: string, role: string)

  /** The body of `POST /api/wallet/debit`. */
  datatype DebitRequest = DebitRequest(userId: Option<string>, email: string, amount: real, role: string, purpose: string)

  /** The debit endpoint's reply: the created transaction's id and reference,
      or a refusal with `data.message` and the HTTP status text. */
  datatype DebitReply =
    | Debited(id: Option<string>, reference: Option<string>)
    | Refused(message: Option<string>, statusText: string)

  /** What the buyer is told. */
  datatype PurchaseAlert =
    | InvalidPlan             // "Invalid plan"
    | InsufficientBalance     // "Insufficient wallet balance"
    | PurchaseFailed(reason: string)
    | Purchased(debited: real)

  /** The values the page reads from the clock: `Date.now()` for the fallback
      id and the creation time of the optimistic record. */
  datatype Clock = Clock(fallbackId: string, now: int)

  datatype PurchaseStep = PurchaseStep(
    alert: PurchaseAlert,
    request: Option<DebitRequest>,
    balance: real,
    transactions: seq<Txn>)

  const TokenMissing := "Authentication token missing. Please login again."

  /** The optimistic DEBIT record a dashboard prepends after the server
      accepted the debit. */
  function DebitRecord(reply: DebitReply, amount: real, newBalance: real, clock: Clock): Txn
    requires reply.Debited?
  {
    Txn(OrElse(reply.id, Some(clock.fallbackId)).value, "DEBIT", amount, Some(newBalance),
        OrElse(reply.reference, Some("N/A")).value, "SUCCESS", clock.now)
  }

  /** `handleBuyPlan`: a missing plan or a price that is not a number is
      refused, then a balance below the price, then a missing token, all
      before any request; after the server accepted the debit the balance
      drops by the price (rounded to two decimals, never below zero) and a
      DEBIT record is put in front of the previous list. */
  function Purchase(buyer: Buyer, offer: Option<Offer>, balance: real, transactions: seq<Txn>,
                    token: Option<string>, reply: DebitReply, clock: Clock): (r: PurchaseStep)
    ensures offer.None? || !offer.value.price.Num? ==>
              r == PurchaseStep(InvalidPlan, None, balance, transactions)
    ensures offer.Some? && offer.value.price.Num? && balance < offer.value.price.value ==>
              r == PurchaseStep(InsufficientBalance, None, balance, transactions)
    ensures r.request.Some? <==>
              offer.Some? && offer.value.price.Num? && balance >= offer.value.price.value && Truthy(token)
    ensures r.request.Some? ==>
              && r.request.value.amount == offer.value.price.value
              && r.request.value.role == buyer.role
              && r.request.value.userId == buyer.userId
              && r.request.value.email == buyer.email
              && r.request.value.purpose == "Purchased " + offer.value.name + " Data Plan"
    ensures r.alert.Purchased? <==> r.request.Some? && reply.Debited?
    ensures r.alert.Purchased? ==>
              && r.alert.debited == offer.value.price.value
              && r.balance == Money.Round2(balance - offer.value.price.value)
              && r.balance >= 0.0
              && |r.transactions| == |transactions| + 1
              && r.transactions[1..] == transactions
              && r.transactions[0].txnType == "DEBIT"
              && r.transactions[0].status == "SUCCESS"
              && r.transactions[0].amount == offer.value.price.value
              && r.transactions[0].balanceAfter == Some(r.balance)
    ensures !r.alert.Purchased? ==> r.balance == balance && r.transactions == transactions
  {
    if offer.None? || !offer.value.price.Num? then PurchaseStep(InvalidPlan, None, balance, transactions)
    else
      var price := offer.value.price.value;
      if balance < price then PurchaseStep(InsufficientBalance, None, balance, transactions)
      else if !Truthy(token) then PurchaseStep(PurchaseFailed(TokenMissing), None, balance, transactions)
      else
        var request := DebitRequest(buyer.userId, buyer.email, price, buyer.role,
                                    "Purchased " + offer.value.name + " Data Plan");
        match reply
        case Refused(message, statusText) =>
          PurchaseStep(PurchaseFailed(OrElse(message, Some(statusText)).value), Some(request), balance, transactions)
        case Debited(_, _) =>
          var newBalance := Money.Round2(balance - price);
          var record := DebitRecord(reply, price, newBalance, clock);
          PurchaseStep(Purchased(price), Some(request), newBalance, [record] + transactions)
  }

  /** The optimistic list agrees with the balance rule: deriving the wallet
      from the list a successful purchase produced reports exactly the new
      balance the dashboard set. */
  lemma PurchaseAgreesWithDerivedBalance(buyer: Buyer, offer: Option<Offer>, balance: real,
                                         transactions: seq<Txn>, token: Option<string>,
                                         reply: DebitReply, clock: Clock)
    requires Purchase(buyer, offer, balance, transactions, token, reply, clock).alert.Purchased?
    ensures var r := Purchase(buyer, offer, balance, transactions, token, reply, clock);
            DeriveWallet(Some(r.transactions)).balance == r.balance
  {
    var r := Purchase(buyer, offer, balance, transactions, token, reply, clock);
    assert r.transactions[0].status == "SUCCESS";
  }

  /** A wallet of 1200 buys a plan at 1150: the debit leaves 50.00 and one
      DEBIT record; the same plan is then refused for insufficient balance
      without a second request. */
  lemma BuyTwiceWithBalanceForOne(buyer: Buyer, name: string, transactions: seq<Txn>,
                                  token: Option<string>, reply: DebitReply, clock: Clock)
    requires Truthy(token) && reply.Debited?
    ensures var first := Purchase(buyer, Some(Offer(name, Money.Num(1150.0))), 1200.0, transactions, token, reply, clock);
            && first.alert == Purchased(1150.0)
            && first.balance == 50.0
            && first.transactions[0].balanceAfter == Some(50.0)
            && var second := Purchase(buyer, Some(Offer(name, Money.Num(1150.0))), first.balance, first.transactions, token, reply, clock);
               second.alert == InsufficientBalance && second.request.None? && second.balance == 50.0
  {
    Money.Round2OfCents(5000);
    assert 5000 as real / 100.0 == 50.0;
  }
}
