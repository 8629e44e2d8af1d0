/** The aggregator's subvendor form
    (components/AggregatorComponent/ManageSubvendor.jsx): the edit prefill,
    the validator with its fixed order of checks, and the create and update
    payloads. The e-mail and phone patterns are written out as character
    class predicates. */
module ManageSubvendor {
  import opened Wrappers
  import opened Text
  import Api

  /** A subvendor as the list endpoint returns it. */
  datatype Subvendor = Subvendor(
    id: int,
    businessName: Option<string>,
    contactPerson: Option<string>,
    email: Option<string>,
    phone: Option<string>,
    address: Option<string>)

  /** The form's fields, as typed. */
  datatype SubvendorForm = SubvendorForm(
    businessName: string,
    contactPerson: string,
    email: string,
    phone: string,
    address: string,
    password: string)

  const BlankForm := SubvendorForm("", "", "", "", "", "")

  /** `openEditModal(sub)`: the form is filled from the subvendor, missing
      fields as "", and the password is always left empty. */
  function EditPrefill(sub: Subvendor): (f: SubvendorForm)
    ensures f.password == ""
    ensures Truthy(sub.businessName) ==> f.businessName == sub.businessName.value
    ensures !Truthy(sub.businessName) ==> f.businessName == ""
    ensures Truthy(sub.contactPerson) ==> f.contactPerson == sub.contactPerson.value
    ensures !Truthy(sub.contactPerson) ==> f.contactPerson == ""
    ensures Truthy(sub.email) ==> f.email == sub.email.value
    ensures !Truthy(sub.email) ==> f.email == ""
    ensures Truthy(sub.phone) ==> f.phone == sub.phone.value
    ensures !Truthy(sub.phone) ==> f.phone == ""
    ensures Truthy(sub.address) ==> f.address == sub.address.value
    ensures !Truthy(sub.address) ==> f.address == ""
  {
    SubvendorForm(OrEmpty(sub.businessName), OrEmpty(sub.contactPerson), OrEmpty(sub.email),
                  OrEmpty(sub.phone), OrEmpty(sub.address), "")
  }

  // ---------------------------------------------------------------------
  // Patterns
  // ---------------------------------------------------------------------

  predicate IsAsciiAlnum(c: char) {
    'A' <= c <= 'Z' || 'a' <= c <= 'z' || '0' <= c <= '9'
  }

  /** `[A-Za-z0-9+_.-]`, the characters before the '@'. */
  predicate IsLocalChar(c: char) {
    IsAsciiAlnum(c) || c == '+' || c == '_' || c == '.' || c == '-'
  }

  /** `[A-Za-z0-9.-]`, the characters after the '@'. */
  predicate IsDomainChar(c: char) {
    IsAsciiAlnum(c) || c == '.' || c == '-'
  }

  /** The e-mail splits at position `k` into a non-empty run of local
      characters, an '@', and a non-empty run of domain characters. */
  predicate SplitsAt(s: string, k: int) {
    && 0 < k < |s| - 1
    && s[k] == '@'
    && (forall i :: 0 <= i < k ==> IsLocalChar(s[i]))
    && (forall i :: k < i < |s| ==> IsDomainChar(s[i]))
  }

  /** `/^[A-Za-z0-9+_.-]+@[A-Za-z0-9.-]+$/.test(s)`, on the untrimmed text. */
  predicate IsEmailFormat(s: string) {
    exists k :: 0 <= k < |s| && SplitsAt(s, k)
  }

  /** An e-mail the pattern accepts has exactly one '@'. */
  lemma EmailHasOneAt(s: string, k: int, j: int)
    requires SplitsAt(s, k)
    requires 0 <= j < |s| && s[j] == '@'
    ensures j == k
  {
    assert !IsLocalChar('@') && !IsDomainChar('@');
  }

  /** Surrounding blanks are not trimmed away before the pattern is
      applied: an address with a leading space is rejected. */
  lemma PaddedEmailRejected(s: string)
    ensures !IsEmailFormat(" " + s)
  {
    var t := " " + s;
    assert !IsLocalChar(t[0]);
  }

  /** `/^[0-9]{7,15}$/.test(s)`, on the untrimmed text. */
  predicate IsPhoneFormat(s: string) {
    7 <= |s| <= 15 && AllDigits(s)
  }

  // ---------------------------------------------------------------------
  // Validation
  // ---------------------------------------------------------------------

  /** The validator's messages, in the order the checks are made. */
  datatype FormError =
    | BusinessNameRequired
    | ContactPersonRequired
    | EmailRequired
    | InvalidEmail
    | PhoneRequired
    | InvalidPhone
    | PasswordRequired
  {
    /** Position of the check in the validator. */
    function Rank(): nat {
      match this
      case BusinessNameRequired => 0
      case ContactPersonRequired => 1
      case EmailRequired => 2
      case InvalidEmail => 3
      case PhoneRequired => 4
      case InvalidPhone => 5
      case PasswordRequired => 6
    }

    function Message(): string {
      match this
      case BusinessNameRequired => "Business name is required"
      case ContactPersonRequired => "Contact person is required"
      case EmailRequired => "Email is required"
      case InvalidEmail => "Invalid email format"
      case PhoneRequired => "Phone number is required"
      case InvalidPhone => "Invalid phone number"
      case PasswordRequired => "Password is required"
    }
  }

  /** The condition each check rejects, stated without reference to the
      order: blank means whitespace only, and the password is demanded only
      when creating. */
  predicate Fails(f: SubvendorForm, editing: bool, e: FormError) {
    match e
    case BusinessNameRequired => IsBlank(f.businessName)
    case ContactPersonRequired => IsBlank(f.contactPerson)
    case EmailRequired => IsBlank(f.email)
    case InvalidEmail => !IsEmailFormat(f.email)
    case PhoneRequired => IsBlank(f.phone)
    case InvalidPhone => !IsPhoneFormat(f.phone)
    case PasswordRequired => !editing && IsBlank(f.password)
  }

  /** Every check accepts the form. */
  predicate Passes(f: SubvendorForm, editing: bool) {
    && !IsBlank(f.businessName) && !IsBlank(f.contactPerson) && !IsBlank(f.email)
    && IsEmailFormat(f.email) && !IsBlank(f.phone) && IsPhoneFormat(f.phone)
    && (editing || !IsBlank(f.password))
  }

  /** `validateForm()`: the message of the first check that fails, or none
      when the form passes them all. */
  function ValidateForm(f: SubvendorForm, editing: bool): (r: Option<FormError>)
    ensures r.None? <==> Passes(f, editing)
    ensures r.Some? ==> Fails(f, editing, r.value)
  {
    if TrimsToEmpty(f.businessName) then Some(BusinessNameRequired)
    else if TrimsToEmpty(f.contactPerson) then Some(ContactPersonRequired)
    else if TrimsToEmpty(f.email) then Some(EmailRequired)
    else if !IsEmailFormat(f.email) then Some(InvalidEmail)
    else if TrimsToEmpty(f.phone) then Some(PhoneRequired)
    else if !IsPhoneFormat(f.phone) then Some(InvalidPhone)
    else if !editing && TrimsToEmpty(f.password) then Some(PasswordRequired)
    else None
  }

  /** Passing the validator means that no check, taken on its own,
      rejects the form. */
  lemma PassesIffNoCheckFails(f: SubvendorForm, editing: bool)
    ensures ValidateForm(f, editing).None? <==> forall e: FormError :: !Fails(f, editing, e)
  {
    if !ValidateForm(f, editing).None? {
      assert Fails(f, editing, ValidateForm(f, editing).value);
    }
  }

  /** The reported message is the first in the validator's order: every
      check ranked before it accepts the form. */
  lemma ReportedCheckIsFirst(f: SubvendorForm, editing: bool, e: FormError)
    requires ValidateForm(f, editing).Some?
    requires e.Rank() < ValidateForm(f, editing).value.Rank()
    ensures !Fails(f, editing, e)
  {
    var r := ValidateForm(f, editing).value;
    match e
    case BusinessNameRequired => assert !TrimsToEmpty(f.businessName);
    case ContactPersonRequired => assert !TrimsToEmpty(f.contactPerson);
    case EmailRequired => assert !TrimsToEmpty(f.email);
    case InvalidEmail => assert IsEmailFormat(f.email);
    case PhoneRequired => assert !TrimsToEmpty(f.phone);
    case InvalidPhone => assert IsPhoneFormat(f.phone);
    case PasswordRequired => assert false;
  }

  /** A form accepted for a creation is accepted for an edit, and a form
      accepted for an edit is accepted for a creation exactly when its
      password is not blank: editing only drops the password check. */
  lemma CreateIsStricterThanEdit(f: SubvendorForm)
    ensures ValidateForm(f, false).None? ==> ValidateForm(f, true).None?
    ensures ValidateForm(f, true).None? ==>
              (ValidateForm(f, false).None? <==> !IsBlank(f.password))
  {
  }

  // ---------------------------------------------------------------------
  // Submission
  // ---------------------------------------------------------------------

  /** The JSON body sent to the subvendor endpoints. */
  datatype SubvendorPayload = SubvendorPayload(
    businessName: string,
    contactPerson: string,
    email: string,
    address: string,
    phone: string,
    passwordHash: Option<string>)

  datatype SubvendorRequest =
    | UpdateSubvendor(id: int, payload: SubvendorPayload)
    | CreateSubvendor(payload: SubvendorPayload)

  /** `handleSubmit`: a form the validator rejects sends nothing; an edit
      sends an update that carries the password only when one was typed, a
      creation always carries it. */
  function Submit(f: SubvendorForm, editing: Option<Subvendor>): (r: Result<SubvendorRequest, FormError>)
    ensures r.Failure? <==> ValidateForm(f, editing.Some?).Some?
    ensures r.Failure? ==> r.error == ValidateForm(f, editing.Some?).value
    ensures r.Success? ==> (r.value.UpdateSubvendor? <==> editing.Some?)
    ensures r.Success? && editing.Some? ==> r.value.id == editing.value.id
    ensures r.Success? ==>
              var p := r.value.payload;
              p.businessName == f.businessName && p.contactPerson == f.contactPerson && p.email == f.email
              && p.address == f.address && p.phone == f.phone
    ensures r.Success? && editing.Some? ==> (r.value.payload.passwordHash.Some? <==> f.password != "")
    ensures r.Success? ==> r.value.payload.passwordHash.None? || r.value.payload.passwordHash == Some(f.password)
    ensures r.Success? && editing.None? ==> r.value.payload.passwordHash == Some(f.password) && !IsBlank(f.password)
  {
    match ValidateForm(f, editing.Some?)
    case Some(e) => Failure(e)
    case None =>
      var hash := if editing.Some? then (if f.password != "" then Some(f.password) else None) else Some(f.password);
      var payload := SubvendorPayload(f.businessName, f.contactPerson, f.email, f.address, f.phone, hash);
      if editing.Some? then Success(UpdateSubvendor(editing.value.id, payload)) else Success(CreateSubvendor(payload))
  }

  /** Saving an edit without typing a password never sends one: the
      prefilled form leaves the stored password alone. */
  lemma EditKeepsPassword(sub: Subvendor)
    ensures var r := Submit(EditPrefill(sub), Some(sub));
            r.Success? ==> r.value.payload.passwordHash.None?
  {
  }

  /** The empty creation form is refused for its business name first. */
  lemma BlankFormNeedsBusinessName()
    ensures Submit(BlankForm, None) == Failure(BusinessNameRequired)
  {
    assert IsBlank(BlankForm.businessName);
  }

  // ---------------------------------------------------------------------
  // Sending the request
  // ---------------------------------------------------------------------

  /** The message of the page's catch-all when the failure carries no
      server reply. */
  const SaveFailed := "❌ Failed to save subvendor. Please try again."

  /** The client operation the page calls for a request. */
  function Operation(req: SubvendorRequest): string {
    if req.UpdateSubvendor? then "updateSubvendor" else "createSubvendor"
  }

  /** `handleSubmit` as written: a rejected form shows the validator's
      message; otherwise the request built by `Submit` goes out only if the
      client defines the operation the page calls, and a missing operation
      throws before any request, which the catch reports as `SaveFailed`. */
  function SubmitAsWritten(f: SubvendorForm, editing: Option<Subvendor>): (r: Result<SubvendorRequest, string>)
    ensures ValidateForm(f, editing.Some?).Some? ==> r == Failure(ValidateForm(f, editing.Some?).value.Message())
    ensures ValidateForm(f, editing.Some?).None? ==> r == Failure(SaveFailed)
  {
    Api.NoAccountWrites();
    match Submit(f, editing)
    case Failure(e) => Failure(e.Message())
    case Success(req) => if Api.Offers(Operation(req)) then Success(req) else Failure(SaveFailed)
  }

  /** The save error is told apart from every validator message. */
  lemma SaveFailedIsNoFormMessage(e: FormError)
    ensures e.Message() != SaveFailed
  {
    assert |e.Message()| < 30 < |SaveFailed|;
  }

  /** As written no subvendor is ever created or updated: every form the
      validator accepts ends in the save error, and a form it rejects ends
      in a message other than the save error. */
  lemma ValidFormIsNeverSaved(f: SubvendorForm, editing: Option<Subvendor>)
    ensures Submit(f, editing).Success? <==> SubmitAsWritten(f, editing) == Failure(SaveFailed)
    ensures SubmitAsWritten(f, editing).Failure?
  {
    match Submit(f, editing)
    case Failure(e) => SaveFailedIsNoFormMessage(e);
    case Success(_) =>
  }
}
