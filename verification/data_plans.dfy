/** The aggregator's data-plan table
    (components/AggregatorComponent/ManageDataPlans.jsx): the status and
    service filters, the three sort orders and the distinct service names
    offered in the service filter. */
module ManageDataPlans {
  import opened Wrappers
  import opened Text
  import Seqs
  import Api

  /** The filter value that lets every plan through. */
  const All := "ALL"

  /** `filterStatus === 'ALL' || p.status?.toLowerCase() === filterStatus.toLowerCase()` */
  predicate StatusMatches(filterStatus: string, p: Api.DataPlan) {
    filterStatus == All || ToLower(p.status) == ToLower(filterStatus)
  }

  /** `filterService === 'ALL' || p.dataServices?.toLowerCase().includes(…)`:
      a plan without services matches only ALL. */
  predicate ServiceMatches(filterService: string, p: Api.DataPlan) {
    filterService == All || (p.dataServices.Some? && Contains(ToLower(p.dataServices.value), ToLower(filterService)))
  }

  /** `filteredPlans`: the plans (none before the first load) that satisfy
      both filters, in their listed order. */
  function FilterPlans(plans: Option<seq<Api.DataPlan>>, filterStatus: string, filterService: string): (r: seq<Api.DataPlan>)
    ensures plans.None? ==> r == []
    ensures |r| <= |plans.GetOr([])|
    ensures forall i :: 0 <= i < |r| ==>
              r[i] in plans.GetOr([]) && StatusMatches(filterStatus, r[i]) && ServiceMatches(filterService, r[i])
    ensures forall i :: 0 <= i < |plans.GetOr([])| ==>
              var p := plans.GetOr([])[i];
              StatusMatches(filterStatus, p) && ServiceMatches(filterService, p) ==> p in r
  {
    Seqs.Filter(plans.GetOr([]), p => StatusMatches(filterStatus, p) && ServiceMatches(filterService, p))
  }

  /** With both filters at ALL the table lists every plan, in order. */
  lemma AllFiltersKeepEverything(plans: seq<Api.DataPlan>)
    ensures FilterPlans(Some(plans), All, All) == plans
  {
    Seqs.FilterKeepsAll(plans, p => StatusMatches(All, p) && ServiceMatches(All, p));
  }

  /** The filters keep the listed order: filtering two halves of the list
      and joining the results is filtering the whole list. */
  lemma FilterKeepsOrder(a: seq<Api.DataPlan>, b: seq<Api.DataPlan>, filterStatus: string, filterService: string)
    ensures FilterPlans(Some(a + b), filterStatus, filterService) ==
              FilterPlans(Some(a), filterStatus, filterService) + FilterPlans(Some(b), filterStatus, filterService)
  {
    Seqs.FilterAppend(a, b, p => StatusMatches(filterStatus, p) && ServiceMatches(filterService, p));
  }

  /** The status filter ignores the letter case of the chosen status. */
  lemma StatusFilterIgnoresCase(filterStatus: string, p: Api.DataPlan)
    requires filterStatus != All
    ensures StatusMatches(filterStatus, p) <==> StatusMatches(ToLower(filterStatus), p)
  {
    ToLowerIdempotent(filterStatus);
  }

  // ---------------------------------------------------------------------
  // Sorting
  // ---------------------------------------------------------------------

  /** The key each sort order compares: the price or the validity
      ascending, and otherwise the creation time descending (a plan with
      no creation time counts as created at time 0). */
  function SortKey(sortBy: string): Api.DataPlan -> real {
    if sortBy == "price" then (p: Api.DataPlan) => p.price
    else if sortBy == "validity" then (p: Api.DataPlan) => p.validityDays
    else (p: Api.DataPlan) => -(p.createdAt.GetOr(0) as real)
  }

  /** `sortedPlans`: a stable sort of the filtered plans by the chosen key. */
  function SortPlans(plans: seq<Api.DataPlan>, sortBy: string): (r: seq<Api.DataPlan>)
    ensures multiset(r) == multiset(plans)
    ensures sortBy == "price" ==> forall i, j :: 0 <= i < j < |r| ==> r[i].price <= r[j].price
    ensures sortBy == "validity" ==> forall i, j :: 0 <= i < j < |r| ==> r[i].validityDays <= r[j].validityDays
    ensures sortBy != "price" && sortBy != "validity" ==>
              forall i, j :: 0 <= i < j < |r| ==> r[i].createdAt.GetOr(0) >= r[j].createdAt.GetOr(0)
  {
    var key := SortKey(sortBy);
    var r := Seqs.SortBy(plans, key);
    assert forall i, j :: 0 <= i < j < |r| ==> key(r[i]) <= key(r[j]);
    r
  }

  /** A list already in the chosen order is left exactly as it is. */
  lemma SortKeepsSortedList(plans: seq<Api.DataPlan>)
    requires forall i, j :: 0 <= i < j < |plans| ==> plans[i].price <= plans[j].price
    ensures SortPlans(plans, "price") == plans
  {
    Seqs.SortBySortedIsIdentity(plans, SortKey("price"));
  }

  // ---------------------------------------------------------------------
  // Service options
  // ---------------------------------------------------------------------

  /** `Array.from(new Set(plans?.map((p) => p.dataServices).filter(Boolean)))`:
      each non-empty service name once, in the order of first appearance. */
  method ServiceOptions(plans: Option<seq<Api.DataPlan>>) returns (options: seq<string>)
    ensures forall i, j :: 0 <= i < j < |options| ==> options[i] != options[j]
    ensures forall i :: 0 <= i < |options| ==> options[i] != ""
    ensures forall s :: s in options <==> exists k :: 0 <= k < |plans.GetOr([])| && plans.GetOr([])[k].dataServices == Some(s) && s != ""
  {
    var ps := plans.GetOr([]);
    options := [];
    var n := 0;
    while n < |ps|
      invariant 0 <= n <= |ps|
      invariant forall i, j :: 0 <= i < j < |options| ==> options[i] != options[j]
      invariant forall i :: 0 <= i < |options| ==> options[i] != ""
      invariant forall s :: s in options <==> exists k :: 0 <= k < n && ps[k].dataServices == Some(s) && s != ""
    {
      var d := ps[n].dataServices;
      if d.Some? && d.value != "" && d.value !in options {
        options := options + [d.value];
      }
      n := n + 1;
    }
  }
}
