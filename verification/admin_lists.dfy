/** The administrator's aggregator manager
    (components/AdminComponents/ManageAggregetors.jsx): its e-mail/phone
    search, the form's edit prefill and reset, and the create and update
    payloads. */
module ManageAggregators {
  import opened Wrappers
  import opened Text
  import Seqs
  import Api

  /** An aggregator as the list endpoint returns it. */
  datatype Aggregator = Aggregator(id: int, name: Option<string>, email: Option<string>, phone: Option<string>)

  /** The field the search looks in (the two options of the filter select). */
  datatype SearchField = EmailField | PhoneField

  function FieldOf(a: Aggregator, field: SearchField): Option<string> {
    match field
    case EmailField => a.email
    case PhoneField => a.phone
  }

  /** The search test for one aggregator: an empty term keeps it, otherwise
      its field must contain the term, ignoring letter case. */
  predicate Kept(a: Aggregator, field: SearchField, term: string) {
    term == "" || MatchesIgnoringCase(FieldOf(a, field), term)
  }

  /** `filteredAggregators`: nothing before the first load, otherwise the
      aggregators the search keeps, in listed order. */
  function FilterAggregators(aggs: Option<seq<Aggregator>>, field: SearchField, term: string): (r: Option<seq<Aggregator>>)
    ensures r.None? <==> aggs.None?
    ensures r.Some? ==> |r.value| <= |aggs.value|
    ensures r.Some? ==> forall i :: 0 <= i < |r.value| ==> r.value[i] in aggs.value && Kept(r.value[i], field, term)
    ensures r.Some? ==> forall i :: 0 <= i < |aggs.value| && Kept(aggs.value[i], field, term) ==> aggs.value[i] in r.value
  {
    match aggs
    case None => None
    case Some(list) => Some(Seqs.Filter(list, a => Kept(a, field, term)))
  }

  /** An empty search keeps the whole list, in order. */
  lemma EmptySearchKeepsAll(aggs: seq<Aggregator>, field: SearchField)
    ensures FilterAggregators(Some(aggs), field, "") == Some(aggs)
  {
    Seqs.FilterKeepsAll(aggs, a => Kept(a, field, ""));
  }

  /** Searching the searched list again changes nothing. */
  lemma SearchIsIdempotent(aggs: seq<Aggregator>, field: SearchField, term: string)
    ensures FilterAggregators(FilterAggregators(Some(aggs), field, term), field, term) ==
              FilterAggregators(Some(aggs), field, term)
  {
    Seqs.FilterIdempotent(aggs, a => Kept(a, field, term));
  }

  /** The form's fields. */
  datatype AggregatorForm = AggregatorForm(name: string, email: string, phone: string, password: string)

  /** The form together with the editing state. */
  datatype Editor = Editor(form: AggregatorForm, isEditing: bool, selected: Option<Aggregator>)

  /** `resetForm()`: every field empty and no aggregator being edited. */
  function ResetForm(): (e: Editor)
    ensures e.form == AggregatorForm("", "", "", "")
    ensures !e.isEditing && e.selected.None?
  {
    Editor(AggregatorForm("", "", "", ""), false, None)
  }

  /** `handleEdit(agg)`: the aggregator is selected, its name, e-mail and
      phone copied (missing ones as "") and the password left empty. */
  function HandleEdit(agg: Aggregator): (e: Editor)
    ensures e.isEditing && e.selected == Some(agg)
    ensures e.form.password == ""
    ensures e.form.name == OrEmpty(agg.name) && e.form.email == OrEmpty(agg.email) && e.form.phone == OrEmpty(agg.phone)
  {
    Editor(AggregatorForm(OrEmpty(agg.name), OrEmpty(agg.email), OrEmpty(agg.phone), ""), true, Some(agg))
  }

  /** The two requests the form can send. */
  datatype AggregatorRequest =
    | UpdateAggregator(id: int, name: string, email: string, phone: string)
    | CreateAggregator(name: string, email: string, phone: string, password: string)

  /** `handleSubmit`: an update of the selected aggregator while editing
      one (name, e-mail and phone only), otherwise a creation that also
      carries the password. */
  function Submit(e: Editor): (r: AggregatorRequest)
    ensures r.UpdateAggregator? <==> e.isEditing && e.selected.Some?
    ensures r.UpdateAggregator? ==> r.id == e.selected.value.id
    ensures r.name == e.form.name && r.email == e.form.email && r.phone == e.form.phone
    ensures r.CreateAggregator? ==> r.password == e.form.password
  {
    if e.isEditing && e.selected.Some? then
      UpdateAggregator(e.selected.value.id, e.form.name, e.form.email, e.form.phone)
    else
      CreateAggregator(e.form.name, e.form.email, e.form.phone, e.form.password)
  }

  /** Saving an edit without changes writes the aggregator's own details
      back to it, and no password. */
  lemma UnchangedEditWritesBack(agg: Aggregator)
    ensures Submit(HandleEdit(agg)) ==
              UpdateAggregator(agg.id, OrEmpty(agg.name), OrEmpty(agg.email), OrEmpty(agg.phone))
  {
  }

  /** After a reset the form creates, never updates. */
  lemma ResetFormCreates()
    ensures Submit(ResetForm()) == CreateAggregator("", "", "", "")
  {
  }

  // ---------------------------------------------------------------------
  // Sending the request
  // ---------------------------------------------------------------------

  /** The error toast's fallback when the failure carries no server
      message. */
  const ActionFailed := "Action failed"

  /** The client operation the page calls for a request. */
  function Operation(req: AggregatorRequest): string {
    if req.UpdateAggregator? then "updateAggregator" else "createAggregator"
  }

  /** The success toast for a request the server accepted. */
  function SavedNotice(req: AggregatorRequest): string {
    if req.UpdateAggregator? then "Aggregator updated successfully" else "Aggregator created successfully"
  }

  /** How the server answers a request that was sent: accepted, or
      rejected with the `message` of the error body if there is one. */
  datatype Reply = Accepted | Rejected(message: Option<string>)

  /** What one press of the submit button leaves behind: the request that
      went out (if any), whether the toast is a success, its text, and the
      form afterwards. */
  datatype SubmitStep = SubmitStep(sent: Option<AggregatorRequest>, saved: bool, notice: string, editor: Editor)

  /** `handleSubmit` as written: the request built by `Submit` goes out only
      if the client defines the operation the page calls; a missing
      operation throws before any request, so the error toast shows the
      fallback and the form is never reset. */
  function SubmitAsWritten(e: Editor, reply: Reply): (r: SubmitStep)
    ensures r.sent.None? && !r.saved
    ensures r.notice == ActionFailed
    ensures r.editor == e
  {
    Api.NoAccountWrites();
    var req := Submit(e);
    if Api.Offers(Operation(req)) then SendWith(e, reply) else SubmitStep(None, false, ActionFailed, e)
  }

  /** `handleSubmit` with the client defining both operations: the request
      goes out; an accepted one shows the success toast and resets the
      form, a rejected one shows the server's message (or the fallback)
      and keeps the form as it was. */
  function SendWith(e: Editor, reply: Reply): (r: SubmitStep)
    ensures r.sent == Some(Submit(e))
    ensures r.saved <==> reply.Accepted?
    ensures r.saved ==> r.editor == ResetForm() && r.notice != ActionFailed
    ensures r.saved ==> (r.notice == "Aggregator updated successfully" <==> e.isEditing && e.selected.Some?)
    ensures !r.saved ==> r.editor == e
    ensures !r.saved && Truthy(reply.message) ==> r.notice == reply.message.value
    ensures !r.saved && !Truthy(reply.message) ==> r.notice == ActionFailed
  {
    var req := Submit(e);
    match reply
    case Accepted => SubmitStep(Some(req), true, SavedNotice(req), ResetForm())
    case Rejected(message) => SubmitStep(Some(req), false, OrElse(message, Some(ActionFailed)).value, e)
  }

  /** As written an edit is never saved: whatever the server would answer,
      nothing is sent and the aggregator stays open in the form, so the next
      press tries the same update again. */
  lemma EditIsNeverSaved(agg: Aggregator, reply: Reply)
    ensures SubmitAsWritten(HandleEdit(agg), reply).sent.None?
    ensures Submit(SubmitAsWritten(HandleEdit(agg), reply).editor) == Submit(HandleEdit(agg))
  {
  }

  /** With the operations defined, an accepted save leaves the form ready
      to create a new aggregator, whatever was being edited. */
  lemma AcceptedSaveThenCreates(e: Editor)
    ensures Submit(SendWith(e, Accepted).editor) == CreateAggregator("", "", "", "")
  {
    ResetFormCreates();
  }
}

/** The administrator's subvendor list
    (components/AdminComponents/SubvendorList.jsx): its search and the
    notification of subvendors that appeared since the previous refresh. */
module SubvendorList {
  import opened Wrappers
  import opened Text
  import Seqs
  import ManageSubvendor

  type Subvendor = ManageSubvendor.Subvendor

  /** The four fields the search can look in. */
  datatype SearchField = BusinessName | Email | Phone | ContactPerson

  function FieldOf(s: Subvendor, field: SearchField): Option<string> {
    match field
    case BusinessName => s.businessName
    case Email => s.email
    case Phone => s.phone
    case ContactPerson => s.contactPerson
  }

  /** `filteredSubs`: [] when the data is missing or not an array, the whole
      list for an empty term, otherwise the subvendors whose field contains
      the term ignoring letter case, in listed order. */
  function FilterSubs(subs: Option<seq<Subvendor>>, field: SearchField, term: string): (r: seq<Subvendor>)
    ensures subs.None? ==> r == []
    ensures subs.Some? && term == "" ==> r == subs.value
    ensures subs.Some? ==> |r| <= |subs.value|
    ensures subs.Some? && term != "" ==>
              forall i :: 0 <= i < |r| ==> r[i] in subs.value && MatchesIgnoringCase(FieldOf(r[i], field), term)
    ensures subs.Some? && term != "" ==>
              forall i :: 0 <= i < |subs.value| && MatchesIgnoringCase(FieldOf(subs.value[i], field), term) ==>
                subs.value[i] in r
  {
    match subs
    case None => []
    case Some(list) =>
      if term == "" then list
      else Seqs.Filter(list, s => MatchesIgnoringCase(FieldOf(s, field), term))
  }

  /** Narrowing the search never adds entries: a term that extends another
      keeps only subvendors the shorter term kept. */
  lemma LongerTermNarrows(subs: seq<Subvendor>, field: SearchField, term: string, more: string, i: int)
    requires 0 <= i < |FilterSubs(Some(subs), field, term + more)|
    ensures FilterSubs(Some(subs), field, term + more)[i] in FilterSubs(Some(subs), field, term)
  {
    var s := FilterSubs(Some(subs), field, term + more)[i];
    if term + more != "" {
      PrefixTermMatches(FieldOf(s, field), term, more);
    }
    var j :| 0 <= j < |subs| && subs[j] == s;
  }

  /** Some entry of `previous` has the given id. */
  predicate HasId(previous: seq<Subvendor>, id: int) {
    exists k :: 0 <= k < |previous| && previous[k].id == id
  }

  /** The refresh effect's result: who is announced as new, and the
      snapshot kept for the next comparison. */
  datatype Refresh = Refresh(announced: seq<Subvendor>, snapshot: seq<Subvendor>)

  /** The refresh effect: data that is missing or not an array changes
      nothing; otherwise, only when the list grew, the subvendors whose id
      the previous snapshot lacks are announced, and the snapshot becomes
      the new list. */
  function OnRefresh(previous: seq<Subvendor>, subs: Option<seq<Subvendor>>): (r: Refresh)
    ensures subs.None? ==> r == Refresh([], previous)
    ensures subs.Some? ==> r.snapshot == subs.value
    ensures subs.Some? && |subs.value| <= |previous| ==> r.announced == []
    ensures subs.Some? ==> forall i :: 0 <= i < |r.announced| ==>
              r.announced[i] in subs.value && !HasId(previous, r.announced[i].id)
    ensures subs.Some? && |previous| < |subs.value| ==>
              forall i :: 0 <= i < |subs.value| && !HasId(previous, subs.value[i].id) ==> subs.value[i] in r.announced
  {
    match subs
    case None => Refresh([], previous)
    case Some(list) =>
      var announced := if |previous| < |list| then Seqs.Filter(list, (s: Subvendor) => !HasId(previous, s.id)) else [];
      Refresh(announced, list)
  }

  /** A refresh that returns the same list again announces nobody. */
  lemma SecondRefreshIsQuiet(previous: seq<Subvendor>, subs: seq<Subvendor>)
    ensures var first := OnRefresh(previous, Some(subs));
            OnRefresh(first.snapshot, Some(subs)).announced == []
  {
  }

  /** The first non-empty load announces every subvendor in it. */
  lemma FirstLoadAnnouncesAll(subs: seq<Subvendor>)
    requires |subs| > 0
    ensures OnRefresh([], Some(subs)).announced == subs
  {
    Seqs.FilterKeepsAll(subs, (s: Subvendor) => !HasId([], s.id));
  }
}
