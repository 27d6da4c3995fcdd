/** The create/edit dialog's form: its state, how an open dialog fills it
    from a server record or resets it, how field edits change it, the
    validity rule, and the request body `submit` builds from it. The
    feature dialog and the older dialog share this logic line for line;
    they differ only in where their button and title texts come from. */
module ApplicationForm {
  import opened Wrappers
  import opened Text
  import opened JobTypes

  /** The dialog's `mode` prop. */
  datatype Mode = Create | Edit

  /** `JobApplicationFormState`: every text input holds a string, dates as
      the `YYYY-MM-DD` text of a date input. */
  datatype FormState = FormState(
    company: string,
    role: string,
    status: Status,
    dateApplied: string,
    isRemote: bool,
    location: string,
    referral: string,
    contactPerson: string,
    compensationRange: string,
    lastTouch: string,
    nextAction: string,
    nextActionDate: string,
    notes: string,
    link: string)

  /** `initialFormState`: status Planned, not remote, every text empty. */
  const InitialFormState: FormState :=
    FormState("", "", Planned, "", false, "", "", "", "", "", "", "", "", "")

  /** `toDateInputValue`: null, undefined and "" become "", any other value
      keeps at most its first 10 characters (the date part of a timestamp). */
  function ToDateInputValue(value: Option<string>): (r: string)
    ensures value.None? || value.value == "" ==> r == ""
    ensures value.Some? && value.value != "" ==>
      r == value.value[..if |value.value| < 10 then |value.value| else 10] && r != ""
  {
    if value.None? || value.value == "" then "" else Take(value.value, 10)
  }

  /** A nullable text of a server record as loaded into a text input. */
  predicate LoadedAsText(value: Option<string>, input: string) {
    (value.None? ==> input == "") && (value.Some? ==> input == value.value)
  }

  /** A nullable date of a server record as loaded into a date input. */
  predicate LoadedAsDate(value: Option<string>, input: string) {
    && (value.None? || value.value == "" ==> input == "")
    && (value.Some? && value.value != "" ==>
          input == value.value[..if |value.value| < 10 then |value.value| else 10])
  }

  /** The form an edit dialog shows for a server record: null texts become
      "", dates are cut to their date part, everything else is copied. */
  function LoadForEdit(job: JobApplication): (r: FormState)
    ensures r.company == job.company && r.role == job.role
    ensures r.status == job.status && r.isRemote == job.isRemote
    ensures LoadedAsText(job.location, r.location) && LoadedAsText(job.referral, r.referral)
    ensures LoadedAsText(job.contactPerson, r.contactPerson)
    ensures LoadedAsText(job.compensationRange, r.compensationRange)
    ensures LoadedAsText(job.nextAction, r.nextAction) && LoadedAsText(job.notes, r.notes)
    ensures LoadedAsText(job.link, r.link)
    ensures LoadedAsDate(job.dateApplied, r.dateApplied) && LoadedAsDate(job.lastTouch, r.lastTouch)
    ensures LoadedAsDate(job.nextActionDate, r.nextActionDate)
  {
    FormState(
      company := job.company,
      role := job.role,
      status := job.status,
      dateApplied := ToDateInputValue(job.dateApplied),
      isRemote := job.isRemote,
      location := job.location.GetOr(""),
      referral := job.referral.GetOr(""),
      contactPerson := job.contactPerson.GetOr(""),
      compensationRange := job.compensationRange.GetOr(""),
      lastTouch := ToDateInputValue(job.lastTouch),
      nextAction := job.nextAction.GetOr(""),
      nextActionDate := ToDateInputValue(job.nextActionDate),
      notes := job.notes.GetOr(""),
      link := job.link.GetOr(""))
  }

  /** `isValid`: company and role both have something besides whitespace. */
  predicate IsValid(form: FormState)
    ensures IsValid(form) <==> !IsBlank(form.company) && !IsBlank(form.role)
  {
    |Trim(form.company)| > 0 && |Trim(form.role)| > 0
  }

  /** `value.trim() || null`. */
  function TrimmedOrNull(value: string): Option<string> {
    var trimmed := Trim(value);
    if trimmed == "" then None else Some(trimmed)
  }

  /** `value || null`. */
  function EmptyAsNull(value: string): Option<string> {
    if value == "" then None else Some(value)
  }

  /** How an optional text input is sent: null when blank, otherwise
      trimmed. */
  predicate SentAsText(input: string, sent: Option<string>) {
    (sent.None? <==> IsBlank(input)) && (sent.Some? ==> sent.value == Trim(input))
  }

  /** How a date input is sent: null when empty, otherwise untouched. */
  predicate SentAsDate(input: string, sent: Option<string>) {
    (sent.None? <==> input == "") && (sent.Some? ==> sent.value == input)
  }

  /** What `submit` hands to `onSubmit`: nothing for an invalid form;
      otherwise a request with company and role trimmed (so non-empty),
      status and remote flag copied, optional texts trimmed or null, and
      dates as entered or null. */
  function SubmittedRequest(form: FormState): (r: Option<CreateRequest>)
    ensures r.Some? <==> IsValid(form)
    ensures r.Some? ==> r.value.company == Trim(form.company) && r.value.company != ""
    ensures r.Some? ==> r.value.role == Trim(form.role) && r.value.role != ""
    ensures r.Some? ==> IsTrimmed(r.value.company) && IsTrimmed(r.value.role)
    ensures r.Some? ==> r.value.status == form.status && r.value.isRemote == form.isRemote
    ensures r.Some? ==>
      && SentAsText(form.location, r.value.location)
      && SentAsText(form.referral, r.value.referral)
      && SentAsText(form.contactPerson, r.value.contactPerson)
      && SentAsText(form.compensationRange, r.value.compensationRange)
      && SentAsText(form.nextAction, r.value.nextAction)
      && SentAsText(form.notes, r.value.notes)
      && SentAsText(form.link, r.value.link)
    ensures r.Some? ==>
      && SentAsDate(form.dateApplied, r.value.dateApplied)
      && SentAsDate(form.lastTouch, r.value.lastTouch)
      && SentAsDate(form.nextActionDate, r.value.nextActionDate)
  {
    if !IsValid(form) then None
    else
      Some(CreateRequest(
        company := Trim(form.company),
        role := Trim(form.role),
        status := form.status,
        isRemote := form.isRemote,
        location := TrimmedOrNull(form.location),
        dateApplied := EmptyAsNull(form.dateApplied),
        referral := TrimmedOrNull(form.referral),
        contactPerson := TrimmedOrNull(form.contactPerson),
        compensationRange := TrimmedOrNull(form.compensationRange),
        lastTouch := EmptyAsNull(form.lastTouch),
        nextAction := TrimmedOrNull(form.nextAction),
        nextActionDate := EmptyAsNull(form.nextActionDate),
        notes := TrimmedOrNull(form.notes),
        link := TrimmedOrNull(form.link)))
  }

  /** Validity looks at company and role only: forms that agree on those
      two fields are valid or invalid together. */
  lemma ValidityIgnoresOtherFields(a: FormState, b: FormState)
    requires Trim(a.company) == Trim(b.company) && Trim(a.role) == Trim(b.role)
    ensures IsValid(a) <==> IsValid(b)
  {
  }

  /** A freshly reset form cannot be submitted. */
  lemma InitialFormIsInvalid()
    ensures SubmittedRequest(InitialFormState).None?
  {
  }

  /** The record a server that stores a request as sent returns for it. */
  function Stored(id: string, request: CreateRequest): (r: JobApplication)
    ensures r.id == id && r.company == request.company && r.role == request.role
  {
    JobApplication(
      id := id,
      company := request.company,
      role := request.role,
      location := request.location,
      isRemote := request.isRemote,
      referral := request.referral,
      contactPerson := request.contactPerson,
      dateApplied := request.dateApplied,
      status := request.status,
      compensationRange := request.compensationRange,
      lastTouch := request.lastTouch,
      nextAction := request.nextAction,
      nextActionDate := request.nextActionDate,
      notes := request.notes,
      link := request.link)
  }

  /** Sending a trimmed-or-null text, loading it back and sending it again
      gives the same value. */
  lemma TextSurvivesReload(input: string)
    ensures TrimmedOrNull(TrimmedOrNull(input).GetOr("")) == TrimmedOrNull(input)
  {
    if !IsBlank(input) {
      TrimIdempotent(input);
    }
  }

  /** Sending a date of at most 10 characters, loading it back and sending
      it again gives the same value. */
  lemma DateSurvivesReload(input: string)
    requires |input| <= 10
    ensures EmptyAsNull(ToDateInputValue(EmptyAsNull(input))) == EmptyAsNull(input)
  {
    assert input[..|input|] == input;
  }

  /** Saving is stable: once a request has been stored, opening the record
      in the edit dialog and saving it unchanged sends the very same request
      again, for dates of at most 10 characters, that is years up to 9999;
      a later year is cut on reload (`LateYearIsCutOnReload`). */
  lemma ResaveIsStable(id: string, form: FormState)
    requires IsValid(form)
    requires |form.dateApplied| <= 10 && |form.lastTouch| <= 10 && |form.nextActionDate| <= 10
    ensures SubmittedRequest(LoadForEdit(Stored(id, SubmittedRequest(form).value))) == SubmittedRequest(form)
  {
    var request := SubmittedRequest(form).value;
    var reloaded := LoadForEdit(Stored(id, request));
    TrimIdempotent(form.company);
    TrimIdempotent(form.role);
    TextSurvivesReload(form.location);
    TextSurvivesReload(form.referral);
    TextSurvivesReload(form.contactPerson);
    TextSurvivesReload(form.compensationRange);
    TextSurvivesReload(form.nextAction);
    TextSurvivesReload(form.notes);
    TextSurvivesReload(form.link);
    DateSurvivesReload(form.dateApplied);
    DateSurvivesReload(form.lastTouch);
    DateSurvivesReload(form.nextActionDate);
    assert IsValid(reloaded);
  }

  /** Why `ResaveIsStable` needs its date premise: a date input accepts a
      year past 9999, and `ToDateInputValue` keeps only the first 10
      characters, so saving such a record again sends a cut date, which
      differs from the one first sent. */
  lemma LongDateIsCutOnReload(id: string, form: FormState)
    requires IsValid(form) && |form.dateApplied| > 10
    ensures SubmittedRequest(LoadForEdit(Stored(id, SubmittedRequest(form).value))).value.dateApplied
         == Some(form.dateApplied[..10])
    ensures SubmittedRequest(LoadForEdit(Stored(id, SubmittedRequest(form).value))) != SubmittedRequest(form)
  {
    var request := SubmittedRequest(form).value;
    assert request.dateApplied == Some(form.dateApplied);
    var reloaded := LoadForEdit(Stored(id, request));
    assert reloaded.dateApplied == form.dateApplied[..10];
    TrimIdempotent(form.company);
    TrimIdempotent(form.role);
    assert IsValid(reloaded);
  }

  /** For instance, a record applied for on 7 June 12345 comes back from
      an edit without its last digit. */
  lemma LateYearIsCutOnReload(id: string, form: FormState)
    requires IsValid(form) && form.dateApplied == "12345-06-07"
    ensures SubmittedRequest(LoadForEdit(Stored(id, SubmittedRequest(form).value))).value.dateApplied
         == Some("12345-06-0")
  {
    var date := form.dateApplied;
    assert |date| == 11 && date[..10] == "12345-06-0";
    LongDateIsCutOnReload(id, form);
  }

  /** What the dialog's controls allow: `onClose` (backdrop and Escape)
      is only wired while nothing is being saved, Cancel is disabled while
      saving, and submit while the form is invalid or saving. */
  datatype Controls = Controls(dismissible: bool, cancelDisabled: bool, submitDisabled: bool)

  function DialogControls(form: FormState, isSubmitting: bool): (r: Controls)
    ensures r.dismissible <==> !isSubmitting
    ensures r.cancelDisabled <==> isSubmitting
    ensures r.submitDisabled <==> IsBlank(form.company) || IsBlank(form.role) || isSubmitting
  {
    Controls(!isSubmitting, isSubmitting, !IsValid(form) || isSubmitting)
  }

  /** The two texts that depend on the dialog's state. */
  datatype Texts = Texts(title: string, submitButton: string)

  /** The feature dialog's texts, looked up through the translation
      function `t`: while saving the button reads "saving" whatever the
      mode. */
  function FeatureTexts(mode: Mode, isSubmitting: bool, t: string -> string): (r: Texts)
    ensures r.title == t(if mode == Edit then "dialogs.application.titleEdit" else "dialogs.application.titleCreate")
    ensures isSubmitting ==> r.submitButton == t("dialogs.application.saving")
    ensures !isSubmitting ==> r.submitButton == t(if mode == Edit then "common.save" else "common.create")
  {
    var title := if mode == Edit then t("dialogs.application.titleEdit") else t("dialogs.application.titleCreate");
    var submitLabel := if mode == Edit then t("common.save") else t("common.create");
    Texts(title, if isSubmitting then t("dialogs.application.saving") else submitLabel)
  }

  /** The older dialog's fixed English texts. */
  function LegacyTexts(mode: Mode, isSubmitting: bool): (r: Texts)
    ensures r.title == if mode == Edit then "Edit Application" else "New Application"
    ensures r.submitButton == if isSubmitting then "Saving..." else if mode == Edit then "Save" else "Create"
  {
    var submitLabel := if mode == Edit then "Save" else "Create";
    Texts(if mode == Edit then "Edit Application" else "New Application",
          if isSubmitting then "Saving..." else submitLabel)
  }

  /** Under a translation that gives these keys the older dialog's English
      words, both dialogs show the same texts in every state. */
  lemma LegacyTextsAreEnglishTranslation(t: string -> string, mode: Mode, isSubmitting: bool)
    requires t("dialogs.application.titleEdit") == "Edit Application"
    requires t("dialogs.application.titleCreate") == "New Application"
    requires t("dialogs.application.saving") == "Saving..."
    requires t("common.save") == "Save" && t("common.create") == "Create"
    ensures FeatureTexts(mode, isSubmitting, t) == LegacyTexts(mode, isSubmitting)
  {
  }

  /** The text inputs of the form. */
  datatype TextInput =
    | CompanyInput | RoleInput | DateAppliedInput | LocationInput | ReferralInput
    | ContactPersonInput | CompensationRangeInput | LastTouchInput | NextActionInput
    | NextActionDateInput | NotesInput | LinkInput

  /** The form after `setForm((prev) => ({ ...prev, [input]: value }))`. */
  function WithText(form: FormState, input: TextInput, value: string): FormState {
    match input
    case CompanyInput => form.(company := value)
    case RoleInput => form.(role := value)
    case DateAppliedInput => form.(dateApplied := value)
    case LocationInput => form.(location := value)
    case ReferralInput => form.(referral := value)
    case ContactPersonInput => form.(contactPerson := value)
    case CompensationRangeInput => form.(compensationRange := value)
    case LastTouchInput => form.(lastTouch := value)
    case NextActionInput => form.(nextAction := value)
    case NextActionDateInput => form.(nextActionDate := value)
    case NotesInput => form.(notes := value)
    case LinkInput => form.(link := value)
  }

  /** Typing into any input other than company or role never changes
      whether the form can be submitted. */
  lemma EditKeepsValidity(form: FormState, input: TextInput, value: string)
    requires input != CompanyInput && input != RoleInput
    ensures IsValid(WithText(form, input, value)) <==> IsValid(form)
  {
  }

  /** The dialog component; `form` is its React state. */
  class JobApplicationDialog {
    var form: FormState

    /** `useState(initialFormState)`. */
    constructor ()
      ensures form == InitialFormState
    {
      form := InitialFormState;
    }

    /** The effect run when `open`, `mode` or `initialValues` change: a
        closed dialog keeps its form; an open one loads the record in edit
        mode when there is one, and otherwise resets. */
    method Sync(open: bool, mode: Mode, initialValues: Option<JobApplication>)
      modifies this
      ensures !open ==> form == old(form)
      ensures open && mode == Edit && initialValues.Some? ==> form == LoadForEdit(initialValues.value)
      ensures open && !(mode == Edit && initialValues.Some?) ==> form == InitialFormState
    {
      if !open {
        return;
      }
      if mode == Edit && initialValues.Some? {
        form := LoadForEdit(initialValues.value);
        return;
      }
      form := InitialFormState;
    }

    /** The `onChange` handler of a text or date input. */
    method EditText(input: TextInput, value: string)
      modifies this
      ensures form == WithText(old(form), input, value)
    {
      form := WithText(form, input, value);
    }

    /** The `onChange` handler of the status select. */
    method EditStatus(status: Status)
      modifies this
      ensures form == old(form).(status := status)
    {
      form := form.(status := status);
    }

    /** The `onChange` handler of the remote checkbox. */
    method EditRemote(isRemote: bool)
      modifies this
      ensures form == old(form).(isRemote := isRemote)
    {
      form := form.(isRemote := isRemote);
    }

    /** `submit`: calls `onSubmit` (returns `Some`) only for a valid form,
        with the request built from the current form; the form itself is
        left as it is. */
    method Submit() returns (sent: Option<CreateRequest>)
      ensures sent.None? <==> IsBlank(form.company) || IsBlank(form.role)
      ensures sent == SubmittedRequest(form)
    {
      sent := SubmittedRequest(form);
    }
  }
}
