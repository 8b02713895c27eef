/** The add/edit form: its initial and cleared states, loading a record for
    editing, the three-step validation gate and the choice between adding
    and updating on submit. */
module TransactionForm {
  import opened Wrappers
  import opened Strings
  import opened Transactions
  import TransactionSlice

  /** The type selector's placeholder value, meaning "no type chosen". */
  const SelectSentinel: string := "select"

  /** The form as first rendered. */
  const InitialForm: Form := Form(SelectSentinel, None, "", "", None)

  /** The form after a successful save or a cancel: note the type is
      "expense" here, not the placeholder. */
  const ClearedForm: Form := Form(ExpenseKind, None, "", "", None)

  /** The three validation failures, in the order they are checked. */
  datatype Complaint = InvalidAmount | MissingCategory | MissingType

  /** The toast shown for each failure. */
  function Message(c: Complaint): string {
    match c
    case InvalidAmount => "Please enter a valid amount"
    case MissingCategory => "Please enter a category"
    case MissingType => "Please select a transaction type"
  }

  datatype Verdict = Accepted | Rejected(complaint: Complaint)

  /** The amount passes `!amount || amount <= 0` untouched. */
  predicate AmountOk(a: Option<int>) {
    a.Some? && a.value > 0
  }

  /** `validateForm`: the first failing check decides the message. */
  function Validate(f: Form): (v: Verdict)
    ensures v == Accepted <==> AmountOk(f.amount) && !IsBlank(f.category) && f.kind != SelectSentinel
    ensures !AmountOk(f.amount) ==> v == Rejected(InvalidAmount)
    ensures AmountOk(f.amount) && IsBlank(f.category) ==> v == Rejected(MissingCategory)
    ensures AmountOk(f.amount) && !IsBlank(f.category) && f.kind == SelectSentinel ==> v == Rejected(MissingType)
  {
    if f.amount.None? || f.amount.value <= 0 then Rejected(InvalidAmount)
    else if Trim(f.category) == [] then Rejected(MissingCategory)
    else if f.kind == SelectSentinel then Rejected(MissingType)
    else Accepted
  }

  /** `if (form.id)`: an id that is present and not the empty string. */
  predicate InEditMode(f: Form) {
    f.id.Some? && f.id.value != ""
  }

  /** What a submit does: nothing but a toast, or dispatch one request. */
  datatype Submission = Blocked(complaint: Complaint) | Dispatched(request: Request)

  /** `handleSubmit` up to the dispatch; `now` is the `new Date()` stamp. */
  function Submit(f: Form, now: int): (o: Submission)
    ensures o.Blocked? <==> Validate(f).Rejected?
    ensures o.Blocked? ==> Validate(f) == Rejected(o.complaint)
    ensures o.Dispatched? && InEditMode(f) ==>
              && o.request.Replace?
              && Some(o.request.target) == f.id
              && WithId(o.request.body, f.id) == f
    ensures o.Dispatched? && !InEditMode(f) ==> o.request == Create(f, now)
  {
    match Validate(f)
    case Rejected(c) => Blocked(c)
    case Accepted =>
      if InEditMode(f) then Dispatched(TransactionSlice.UpdateRequest(f))
      else Dispatched(Create(f, now))
  }

  /** The form after `handleSubmit` finishes: cleared when a request was
      dispatched and `saved`, otherwise as it was. */
  function AfterSubmit(f: Form, now: int, saved: bool): (g: Form)
    ensures Validate(f).Rejected? ==> g == f
    ensures !saved ==> g == f
    ensures Validate(f) == Accepted && saved ==> g == ClearedForm
  {
    if Submit(f, now).Dispatched? && saved then ClearedForm else f
  }

  /** `handleCancel`: whatever was being edited is dropped. */
  function Cancel(f: Form): Form {
    ClearedForm
  }

  /** The edit-load effect: when a record is handed in for editing, the form
      takes its type, amount, category and description (a missing one
      becomes "") and its `_id`; with no record the form stays. */
  function LoadForEdit(f: Form, editing: Option<Transaction>): (g: Form)
    ensures editing.None? ==> g == f
    ensures editing.Some? ==>
              && g.kind == editing.value.kind
              && g.amount == Some(editing.value.amount)
              && g.category == editing.value.category
              && (editing.value.description.Some? ==> g.description == editing.value.description.value)
              && (editing.value.description.None? ==> g.description == "")
              && g.id == Some(editing.value.id)
  {
    match editing
    case None => f
    case Some(t) => Form(t.kind, Some(t.amount), t.category, t.description.GetOr(""), Some(t.id))
  }

  // ----- lemmas -----

  /** Each failure has its own message. */
  lemma MessagesDistinct(c1: Complaint, c2: Complaint)
    ensures Message(c1) == Message(c2) <==> c1 == c2
  {
    if c1 != c2 {
      assert |Message(c1)| != |Message(c2)|;
    }
  }

  /** The first and the cleared form are both in add mode with empty fields;
      they differ only in the type, and submitting either is refused for the
      missing amount. */
  lemma FreshFormsRejectAmount(now: int)
    ensures !InEditMode(InitialForm) && !InEditMode(ClearedForm)
    ensures InitialForm == ClearedForm.(kind := SelectSentinel)
    ensures Submit(InitialForm, now) == Blocked(InvalidAmount)
    ensures Submit(ClearedForm, now) == Blocked(InvalidAmount)
  {
  }

  /** A draft that has a valid amount and category but still shows the type
      placeholder is refused for the type, and only for the type. */
  lemma PlaceholderTypeIsRefused(f: Form, now: int)
    requires AmountOk(f.amount) && !IsBlank(f.category)
    ensures Submit(f, now) == Blocked(MissingType) <==> f.kind == SelectSentinel
  {
  }

  /** Editing a well-formed record and submitting it unchanged sends an
      update of that record's id carrying its own fields. */
  lemma EditThenSubmitUpdatesRecord(f: Form, t: Transaction, now: int)
    requires t.id != "" && t.amount > 0 && !IsBlank(t.category) && t.kind != SelectSentinel
    ensures Submit(LoadForEdit(f, Some(t)), now)
         == Dispatched(Replace(t.id, Body(t.kind, Some(t.amount), t.category, t.description.GetOr(""))))
  {
  }

  /** Editing a record whose amount is zero or negative cannot be saved. */
  lemma EditOfNonPositiveAmountIsRefused(f: Form, t: Transaction, now: int)
    requires t.amount <= 0
    ensures Submit(LoadForEdit(f, Some(t)), now) == Blocked(InvalidAmount)
  {
  }

  /** Cancelling an edit returns to add mode. Because the cleared type is
      "expense", filling in a positive amount and a category is then enough
      to add a record, whereas the first form also needs a type chosen. */
  lemma CancelReturnsToAddMode(f: Form, t: Transaction, amount: int, category: string, now: int)
    requires amount > 0 && !IsBlank(category)
    ensures !InEditMode(Cancel(LoadForEdit(f, Some(t))))
    ensures var g := Cancel(LoadForEdit(f, Some(t))).(amount := Some(amount), category := category);
            Submit(g, now) == Dispatched(Create(g, now))
    ensures Submit(InitialForm.(amount := Some(amount), category := category), now) == Blocked(MissingType)
  {
  }
}
