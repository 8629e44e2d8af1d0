/** The subvendor's price screen (components/SubvendorComponents/SubvendorDataPlan.jsx):
    applying one margin to every plan in the cached list, overriding the
    price of a single plan, the co-vendor price warning and the profit
    preview. The HTTP calls are replaced by the server's reply, passed in. */
module SubvendorPricing {
  import opened Wrappers
  import opened Text
  import opened Money

  /** A plan offered by a subvendor, as `/api/subvendor_plans/{id}` returns it
      plus the three fields the margin screen writes into its cache. */
  datatype SubvendorPlan = SubvendorPlan(
    id: int,
    name: string,
    network: string,
    volume: string,
    validity: string,
    basePrice: real,
    customPrice: JsNum,
    priceWithMargin: Option<real>,
    profit: Option<real>,
    marginPercent: Option<real>)

  // ---------------------------------------------------------------------
  // Apply one margin to every plan
  // ---------------------------------------------------------------------

  /** The price of `basePrice` with a margin of `percent` per cent. */
  function PriceWithMargin(basePrice: real, percent: real): real {
    basePrice * (1.0 + percent / 100.0)
  }

  /** The margin's share of the base price, and its sign. */
  lemma MarginArithmetic(basePrice: real, percent: real)
    ensures PriceWithMargin(basePrice, percent) == basePrice + basePrice * percent / 100.0
    ensures basePrice >= 0.0 && percent >= 0.0 ==> basePrice * percent / 100.0 >= 0.0
  {
    assert basePrice * (1.0 + percent / 100.0) == basePrice + basePrice * (percent / 100.0);
    if basePrice >= 0.0 && percent >= 0.0 {
      NonNegativeProduct(basePrice, percent);
    }
  }

  lemma NonNegativeProduct(x: real, y: real)
    requires x >= 0.0 && y >= 0.0
    ensures x * y >= 0.0
  {
  }

  /** One plan of the cache after a margin of `percent` per cent was applied. */
  function WithMargin(p: SubvendorPlan, percent: real): (q: SubvendorPlan)
    ensures q.priceWithMargin == Some(p.basePrice + p.basePrice * percent / 100.0)
    ensures q.profit == Some(p.basePrice * percent / 100.0)
    ensures q.marginPercent == Some(percent)
    ensures p.basePrice >= 0.0 && percent >= 0.0 ==> q.profit.value >= 0.0
    ensures q == p.(priceWithMargin := q.priceWithMargin, profit := q.profit, marginPercent := q.marginPercent)
  {
    MarginArithmetic(p.basePrice, percent);
    var price := PriceWithMargin(p.basePrice, percent);
    assert price == p.basePrice + p.basePrice * percent / 100.0;
    p.(priceWithMargin := Some(price), profit := Some(price - p.basePrice), marginPercent := Some(percent))
  }

  /** The cache update after a successful apply-margin request: every plan is
      repriced from its own base price, keeps its other fields, and its
      profit is exactly the margin's share of the base price. */
  function ApplyMargin(plans: seq<SubvendorPlan>, percent: real): (r: seq<SubvendorPlan>)
    ensures |r| == |plans|
    ensures forall i :: 0 <= i < |r| ==>
              && r[i].priceWithMargin == Some(plans[i].basePrice + plans[i].basePrice * percent / 100.0)
              && r[i].profit == Some(plans[i].basePrice * percent / 100.0)
              && r[i].marginPercent == Some(percent)
    ensures forall i :: 0 <= i < |r| ==>
              && r[i].id == plans[i].id && r[i].name == plans[i].name
              && r[i].network == plans[i].network && r[i].volume == plans[i].volume
              && r[i].validity == plans[i].validity && r[i].basePrice == plans[i].basePrice
              && r[i].customPrice == plans[i].customPrice
    ensures forall i :: 0 <= i < |r| && plans[i].basePrice >= 0.0 && percent >= 0.0 ==>
              r[i].profit.value >= 0.0 && r[i].priceWithMargin.value >= plans[i].basePrice
  {
    var r := seq(|plans|, i requires 0 <= i < |plans| => WithMargin(plans[i], percent));
    assert forall i :: 0 <= i < |r| ==>
             && r[i].priceWithMargin == Some(plans[i].basePrice + plans[i].basePrice * percent / 100.0)
             && r[i].profit == Some(plans[i].basePrice * percent / 100.0)
             && r[i].marginPercent == Some(percent) by {
      forall i | 0 <= i < |r|
        ensures r[i].priceWithMargin == Some(plans[i].basePrice + plans[i].basePrice * percent / 100.0)
        ensures r[i].profit == Some(plans[i].basePrice * percent / 100.0)
        ensures r[i].marginPercent == Some(percent)
      {
        var q := WithMargin(plans[i], percent);
        assert r[i] == q;
      }
    }
    r
  }

  /** Applying margin `p` and then margin `q` gives the same cache as applying
      `q` alone: prices never compound, each is recomputed from the base. */
  lemma ApplyMarginLastWins(plans: seq<SubvendorPlan>, p: real, q: real)
    ensures ApplyMargin(ApplyMargin(plans, p), q) == ApplyMargin(plans, q)
  {
    var once := ApplyMargin(plans, p);
    forall i | 0 <= i < |plans|
      ensures WithMargin(once[i], q) == WithMargin(plans[i], q)
    {
      assert once[i].basePrice == plans[i].basePrice;
    }
  }

  /** What the screen shows after an apply-margin attempt. */
  datatype MarginNotice =
    | InvalidPercentage            // "Enter a valid percentage"
    | MissingSubvendorId           // "Missing subvendor ID"
    | MarginApplied(percent: real) // "Applied {percent}% margin to all plans successfully!"
    | MarginFailed(detail: Option<string>) // "Failed to apply margin[: detail]"

  /** The body of `POST /api/subvendors/{id}/apply-margin`. */
  datatype MarginRequest = MarginRequest(subvendorId: string, margin: real)

  /** The server's answer to a request; `Rejected` carries `response.data.error`. */
  datatype Reply = Accepted | Rejected(error: Option<string>)

  datatype MarginStep = MarginStep(notice: MarginNotice, request: Option<MarginRequest>, cache: Option<seq<SubvendorPlan>>)

  /** `handleApplyMargin`: the percentage must be non-empty and numeric and the
      subvendor id known before anything is sent; the cache is rewritten
      only when the server accepted and a list was loaded (with no list,
      `plans.map` throws and the generic failure is shown). */
  function HandleApplyMargin(margin: NumericText, subvendorId: Option<string>,
                             cache: Option<seq<SubvendorPlan>>, reply: Reply): (r: MarginStep)
    ensures !margin.IsValidNumber() ==> r == MarginStep(InvalidPercentage, None, cache)
    ensures margin.IsValidNumber() && !Truthy(subvendorId) ==> r == MarginStep(MissingSubvendorId, None, cache)
    ensures r.request.Some? <==> margin.IsValidNumber() && Truthy(subvendorId)
    ensures r.request.Some? ==> r.request.value == MarginRequest(subvendorId.value, margin.number.value)
    ensures r.notice.MarginApplied? <==> r.request.Some? && reply.Accepted? && cache.Some?
    ensures r.notice.MarginApplied? ==>
              r.notice.percent == margin.number.value
              && r.cache == Some(ApplyMargin(cache.value, margin.number.value))
    ensures !r.notice.MarginApplied? ==> r.cache == cache
  {
    if !margin.IsValidNumber() then MarginStep(InvalidPercentage, None, cache)
    else if !Truthy(subvendorId) then MarginStep(MissingSubvendorId, None, cache)
    else
      var percent := margin.number.value;
      var request := Some(MarginRequest(subvendorId.value, percent));
      match reply
      case Rejected(e) =>
        MarginStep(MarginFailed(if Truthy(e) then e else None), request, cache)
      case Accepted =>
        if cache.None? then MarginStep(MarginFailed(None), request, cache)
        else MarginStep(MarginApplied(percent), request, Some(ApplyMargin(cache.value, percent)))
  }

  // ---------------------------------------------------------------------
  // Override the price of one plan
  // ---------------------------------------------------------------------

  /** The cache after the server returned `updated`: the plans with the same
      id become `updated`, every other plan is untouched. */
  function ReplaceById(plans: seq<SubvendorPlan>, updated: SubvendorPlan): (r: seq<SubvendorPlan>)
    ensures |r| == |plans|
    ensures forall i :: 0 <= i < |r| && plans[i].id == updated.id ==> r[i] == updated
    ensures forall i :: 0 <= i < |r| && plans[i].id != updated.id ==> r[i] == plans[i]
  {
    seq(|plans|, i requires 0 <= i < |plans| => if plans[i].id == updated.id then updated else plans[i])
  }

  /** Replaying the same reply changes nothing more. */
  lemma ReplaceByIdIdempotent(plans: seq<SubvendorPlan>, updated: SubvendorPlan)
    ensures ReplaceById(ReplaceById(plans, updated), updated) == ReplaceById(plans, updated)
  {
  }

  /** A reply whose id is not in the cache leaves the cache as it was. */
  lemma ReplaceByIdAbsent(plans: seq<SubvendorPlan>, updated: SubvendorPlan)
    requires forall i :: 0 <= i < |plans| ==> plans[i].id != updated.id
    ensures ReplaceById(plans, updated) == plans
  {
  }

  datatype PriceNotice = InvalidPrice | PriceUpdated | PriceUpdateFailed

  /** The body of `PATCH /api/subvendor_plans/{id}`. */
  datatype PriceRequest = PriceRequest(planId: int, customPrice: real)

  /** The server's answer to the patch: the stored plan, or an error. */
  datatype PriceReply = Updated(plan: SubvendorPlan) | PatchFailed

  datatype PriceStep = PriceStep(
    notice: Option<PriceNotice>,
    request: Option<PriceRequest>,
    cache: Option<seq<SubvendorPlan>>,
    selected: Option<SubvendorPlan>)

  /** `handlePriceUpdate`: nothing happens without a selected plan; an empty
      or non-numeric price is refused before any request; on success the
      cache entry with the returned id is replaced and the selection takes
      the returned custom price. */
  function HandlePriceUpdate(selected: Option<SubvendorPlan>, newPrice: NumericText,
                             cache: Option<seq<SubvendorPlan>>, reply: PriceReply): (r: PriceStep)
    ensures selected.None? ==> r == PriceStep(None, None, cache, selected)
    ensures selected.Some? && !newPrice.IsValidNumber() ==> r == PriceStep(Some(InvalidPrice), None, cache, selected)
    ensures r.request.Some? <==> selected.Some? && newPrice.IsValidNumber()
    ensures r.request.Some? ==> r.request.value == PriceRequest(selected.value.id, newPrice.number.value)
    ensures r.notice == Some(PriceUpdated) <==> r.request.Some? && reply.Updated? && cache.Some?
    ensures r.notice == Some(PriceUpdated) ==>
              && r.cache == Some(ReplaceById(cache.value, reply.plan))
              && r.selected == Some(selected.value.(customPrice := reply.plan.customPrice))
    ensures r.notice != Some(PriceUpdated) ==> r.cache == cache && r.selected == selected
  {
    if selected.None? then PriceStep(None, None, cache, selected)
    else if !newPrice.IsValidNumber() then PriceStep(Some(InvalidPrice), None, cache, selected)
    else
      var request := Some(PriceRequest(selected.value.id, newPrice.number.value));
      match reply
      case PatchFailed => PriceStep(Some(PriceUpdateFailed), request, cache, selected)
      case Updated(plan) =>
        if cache.None? then PriceStep(Some(PriceUpdateFailed), request, cache, selected)
        else PriceStep(Some(PriceUpdated), request, Some(ReplaceById(cache.value, plan)),
                       Some(selected.value.(customPrice := plan.customPrice)))
  }

  // ---------------------------------------------------------------------
  // Co-vendor warning and profit preview
  // ---------------------------------------------------------------------

  /** The reply of the co-vendor statistics request. */
  datatype StatsReply = Stats(avgPrice: Option<real>) | StatsFailed

  /** `fetchCoVendorAverage`: a missing or zero average and a failed request
      both record 0. */
  function CoVendorAverage(reply: StatsReply): (avg: real)
    ensures reply.StatsFailed? ==> avg == 0.0
    ensures reply.Stats? ==> avg == reply.avgPrice.GetOr(0.0)
  {
    match reply
    case StatsFailed => 0.0
    case Stats(a) => NumOr(a, 0.0)
  }

  /** `checkPriceDifference`: with no average (null or 0) the warning is left
      as it was; otherwise it is shown exactly when the entered price is more
      than 15% above the average. An unreadable entry (NaN) clears it. */
  function CheckPriceDifference(avgPrice: Option<real>, entered: Option<real>, warning: bool): (shown: bool)
    ensures avgPrice.None? || avgPrice.value == 0.0 ==> shown == warning
    ensures avgPrice.Some? && avgPrice.value != 0.0 ==>
              (shown <==> entered.Some? && (entered.value - avgPrice.value) / avgPrice.value * 100.0 > 15.0)
  {
    if avgPrice.None? || avgPrice.value == 0.0 then warning
    else entered.Some? && (entered.value - avgPrice.value) / avgPrice.value * 100.0 > 15.0
  }

  /** For a positive average the warning threshold is 115% of the average. */
  lemma PriceWarningThreshold(avg: real, entered: real, warning: bool)
    requires avg > 0.0
    ensures CheckPriceDifference(Some(avg), Some(entered), warning) <==> entered > avg * 1.15
  {
    var d := (entered - avg) / avg;
    assert d * avg == entered - avg;
    SignOfScaled(d - 0.15, avg);
    assert (d - 0.15) * avg == entered - avg * 1.15;
  }

  /** Multiplying by a positive factor keeps the sign. */
  lemma SignOfScaled(x: real, factor: real)
    requires factor > 0.0
    ensures x > 0.0 <==> x * factor > 0.0
  {
    if x > 0.0 {
      PositiveProduct(x, factor);
    } else {
      NonNegativeProduct(-x, factor);
    }
  }

  lemma PositiveProduct(x: real, y: real)
    requires x > 0.0 && y > 0.0
    ensures x * y > 0.0
  {
  }

  /** `setProfitPreview(val - Number(basePrice))`: the profit the entered
      price would make over the base price; NaN stays NaN. */
  function ProfitPreview(entered: Option<real>, basePrice: real): (profit: Option<real>)
    ensures profit.Some? <==> entered.Some?
    ensures profit.Some? ==> profit.value + basePrice == entered.value
  {
    match entered
    case Some(v) => Some(v - basePrice)
    case None => None
  }
}
