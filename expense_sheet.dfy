/** The expense entry form (AddExpenseSheet.swift): the same guard chain and
    recurrence keys as the income form, plus the due date and the payment
    state of the expense. */
module ExpenseSheet {
  import opened Wrappers
  import opened Json
  import opened Platform
  import opened Text
  import opened Models

  /** The text fields and switches of the form. `kind` is the `type` picker. */
  datatype ExpenseForm = ExpenseForm(
    propertyId: string,
    kind: string,
    amount: string,
    date: string,
    description: string,
    isRecurring: bool,
    frequency: string,
    recurrenceStartDate: string,
    recurrenceEndDate: string,
    dueDate: string,
    isPaid: bool,
    paymentDate: string)

  /** The form as it first appears. */
  const BlankExpenseForm := ExpenseForm("", "", "", "", "", false, "monthly", "", "", "", false, "")

  const ExpensesUrl := Api + "expenses/"

  const PaymentKeySet: set<string> := {"due_date", "is_paid", "payment_date"}

  /** No payment key is an entry key. */
  lemma PaymentKeysApart()
    ensures EntryKeys !! PaymentKeySet
  {
  }

  /** The payment keys of the payload: `is_paid` always, the due date when
      one was picked, the payment date only for a paid expense that has one. */
  function PaymentKeys(dueDate: string, isPaid: bool, paymentDate: string): (p: Payload)
    ensures "is_paid" in p && p["is_paid"] == JBool(isPaid)
    ensures "due_date" in p <==> dueDate != ""
    ensures "due_date" in p ==> p["due_date"] == JString(dueDate + Midnight)
    ensures "payment_date" in p <==> isPaid && paymentDate != ""
    ensures "payment_date" in p ==> p["payment_date"] == JString(paymentDate + Midnight)
    ensures p.Keys <= PaymentKeySet
  {
    var due := if dueDate != "" then map["due_date" := JString(dueDate + Midnight)] else map[];
    var paid := due["is_paid" := JBool(isPaid)];
    if isPaid && paymentDate != "" then paid["payment_date" := JString(paymentDate + Midnight)] else paid
  }

  /** The body of the save request once the guard chain has passed: the
      keys the income form sends, and the payment keys. */
  function ExpensePayload(f: ExpenseForm, amount: real): (p: Payload)
    ensures var entry := EntryPayload(f.propertyId, f.kind, amount, f.date, f.description, f.isRecurring,
                                      f.frequency, f.recurrenceStartDate, f.recurrenceEndDate);
      forall k :: k in entry ==> k in p && p[k] == entry[k]
    ensures "description" in p <==> f.description != ""
    ensures "frequency" in p <==> f.isRecurring
    ensures "recurrence_start_date" in p <==> f.isRecurring
    ensures "recurrence_end_date" in p <==> f.isRecurring && f.recurrenceEndDate != ""
    ensures "is_paid" in p && p["is_paid"] == JBool(f.isPaid)
    ensures "due_date" in p <==> f.dueDate != ""
    ensures "due_date" in p ==> p["due_date"] == JString(f.dueDate + Midnight)
    ensures "payment_date" in p <==> f.isPaid && f.paymentDate != ""
    ensures "payment_date" in p ==> p["payment_date"] == JString(f.paymentDate + Midnight)
    ensures p.Keys <= EntryKeys + PaymentKeySet
  {
    PaymentKeysApart();
    EntryPayload(f.propertyId, f.kind, amount, f.date, f.description, f.isRecurring, f.frequency,
                 f.recurrenceStartDate, f.recurrenceEndDate)
    + PaymentKeys(f.dueDate, f.isPaid, f.paymentDate)
  }

  /** Setting the payment keys one by one, as the form does, is adding
      `PaymentKeys`. */
  lemma PaymentUpdates(p: Payload, dueDate: string, isPaid: bool, paymentDate: string)
    ensures var due := if dueDate != "" then p["due_date" := JString(dueDate + Midnight)] else p;
      var paid := due["is_paid" := JBool(isPaid)];
      var q := if isPaid && paymentDate != "" then paid["payment_date" := JString(paymentDate + Midnight)] else paid;
      q == p + PaymentKeys(dueDate, isPaid, paymentDate)
  {
  }

  /** What submitting the form does. `editing` is the id of the expense being
      edited, if any. */
  function ExpenseSubmission(f: ExpenseForm, editing: Option<string>, fd: Foundation): (s: Submission)
    ensures var check := CheckEntry(f.propertyId, f.kind, f.amount, f.date, fd.parseDouble);
      && (s.Rejected? <==> check.Failure?)
      && (s.Rejected? ==> s.message == check.error)
      && (s.Aborted? <==> check.Success? && editing.Some? && !fd.urlOk(ExpensesUrl + editing.value))
      && (s.Sent? ==> s.request.payload == ExpensePayload(f, check.value))
    ensures s.Sent? && editing.Some? ==> s.request.httpMethod == "PUT" && s.request.url == ExpensesUrl + editing.value
    ensures s.Sent? && editing.None? ==> s.request.httpMethod == "POST" && s.request.url == ExpensesUrl
  {
    match CheckEntry(f.propertyId, f.kind, f.amount, f.date, fd.parseDouble)
    case Failure(message) => Rejected(message)
    case Success(amount) =>
      if editing.Some? then
        if fd.urlOk(ExpensesUrl + editing.value) then
          Sent(Request("PUT", ExpensesUrl + editing.value, ExpensePayload(f, amount)))
        else Aborted
      else Sent(Request("POST", ExpensesUrl, ExpensePayload(f, amount)))
  }

  /** The form filled from a stored expense when editing it. */
  function ExpenseFormOf(expense: Expense, format2: real -> string): (f: ExpenseForm)
    ensures f.propertyId == expense.propertyId && f.kind == expense.kind
    ensures f.amount == format2(expense.amount)
    ensures f.date == Prefix(expense.date, 10) && f.date <= expense.date
    ensures f.recurrenceStartDate == f.date && f.recurrenceEndDate == ""
    ensures f.description == expense.description.GetOr("")
    ensures f.isRecurring <==> expense.isRecurring == Some(true)
    ensures f.frequency == expense.frequency.GetOr("monthly")
    ensures f.dueDate == expense.dueDate.GetOr("")
    ensures f.isPaid <==> expense.isPaid == Some(true)
    ensures f.paymentDate == expense.paymentDate.GetOr("")
  {
    ExpenseForm(expense.propertyId, expense.kind, format2(expense.amount), Prefix(expense.date, 10),
                expense.description.GetOr(""), expense.isRecurring.GetOr(false),
                expense.frequency.GetOr("monthly"), Prefix(expense.date, 10), "",
                expense.dueDate.GetOr(""), expense.isPaid.GetOr(false), expense.paymentDate.GetOr(""))
  }

  /** The payload of an expense loaded for editing and saved unchanged.
      Unlike its date, its stored due and payment dates are sent back whole,
      with the time of day appended again, and no recurrence end date is
      sent. */
  lemma EditedExpensePayload(expense: Expense, format2: real -> string, amount: real)
    ensures var p := ExpensePayload(ExpenseFormOf(expense, format2), amount);
      && p["date"] == JString(Prefix(expense.date, 10) + Midnight)
      && p["is_paid"] == JBool(expense.isPaid == Some(true))
      && (expense.dueDate.Some? && expense.dueDate.value != "" ==>
            p["due_date"] == JString(expense.dueDate.value + Midnight))
      && (expense.isPaid == Some(true) && expense.paymentDate.Some? && expense.paymentDate.value != "" ==>
            p["payment_date"] == JString(expense.paymentDate.value + Midnight))
      && "recurrence_end_date" !in p
  {
    var f := ExpenseFormOf(expense, format2);
    assert f.recurrenceEndDate == "";
  }

  /** Saving an expense that was loaded for editing, without touching the
      form, sends a PUT of that payload to that expense. */
  lemma EditResubmitsStoredExpense(expense: Expense, fd: Foundation)
    requires expense.propertyId != "" && expense.kind != "" && expense.date != ""
    requires IsPositive(fd.parseDouble(fd.format2(expense.amount)))
    requires fd.urlOk(ExpensesUrl + expense.id)
    ensures var f := ExpenseFormOf(expense, fd.format2);
      var s := ExpenseSubmission(f, Some(expense.id), fd);
      && s.Sent?
      && s.request.httpMethod == "PUT" && s.request.url == ExpensesUrl + expense.id
      && s.request.payload == ExpensePayload(f, fd.parseDouble(fd.format2(expense.amount)).value)
  {
    var f := ExpenseFormOf(expense, fd.format2);
    assert Prefix(expense.date, 10) != "";
    assert CheckEntry(f.propertyId, f.kind, f.amount, f.date, fd.parseDouble).Success?;
  }

  class AddExpenseSheet {
    /** The expense being edited; None when adding one. */
    const initialData: Option<Expense>
    var form: ExpenseForm
    var isLoading: bool
    var errorMessage: Option<string>

    constructor (initialData: Option<Expense>)
      ensures this.initialData == initialData && form == BlankExpenseForm
      ensures !isLoading && errorMessage.None?
    {
      this.initialData := initialData;
      form := BlankExpenseForm;
      isLoading, errorMessage := false, None;
    }

    /** `isEdit, let id = initialData?.id`. */
    function EditingId(): (id: Option<string>)
      ensures id.Some? <==> initialData.Some?
      ensures id.Some? ==> id.value == initialData.value.id
    {
      if initialData.Some? then Some(initialData.value.id) else None
    }

    /** `loadInitialData`: when editing, fills the form from the stored expense. */
    method LoadInitialData(fd: Foundation)
      modifies this`form
      ensures initialData.Some? ==> form == ExpenseFormOf(initialData.value, fd.format2)
      ensures initialData.None? ==> form == old(form)
    {
      if initialData.Some? {
        var expense := initialData.value;
        var f := form;
        f := f.(propertyId := expense.propertyId);
        f := f.(kind := expense.kind);
        f := f.(amount := fd.format2(expense.amount));
        f := f.(date := Prefix(expense.date, 10));
        f := f.(description := expense.description.GetOr(""));
        f := f.(isRecurring := expense.isRecurring.GetOr(false));
        f := f.(frequency := expense.frequency.GetOr("monthly"));
        f := f.(recurrenceStartDate := Prefix(expense.date, 10));
        f := f.(recurrenceEndDate := "");
        f := f.(dueDate := expense.dueDate.GetOr(""));
        f := f.(isPaid := expense.isPaid.GetOr(false));
        f := f.(paymentDate := expense.paymentDate.GetOr(""));
        form := f;
      }
    }

    /** `submit`: runs the guard chain with early returns, then grows the
        payload key by key and returns the request it would send. */
    method Submit(fd: Foundation) returns (request: Option<Request>)
      modifies this`errorMessage, this`isLoading
      ensures var s := ExpenseSubmission(form, EditingId(), fd);
        && (s.Rejected? ==> errorMessage == Some(s.message) && isLoading == old(isLoading) && request.None?)
        && (s.Aborted? ==> errorMessage.None? && !isLoading && request.None?)
        && (s.Sent? ==> errorMessage.None? && isLoading && request == Some(s.request))
    {
      errorMessage := None;
      if form.propertyId == "" {
        errorMessage := Some(PropertyRequired);
        return None;
      }
      if form.kind == "" {
        errorMessage := Some(TypeRequired);
        return None;
      }
      var amountValue := fd.parseDouble(form.amount);
      if amountValue.None? || amountValue.value <= 0.0 {
        errorMessage := Some(InvalidAmount);
        return None;
      }
      if form.date == "" {
        errorMessage := Some(DateRequired);
        return None;
      }
      isLoading := true;
      var payload := map["property_id" := JString(form.propertyId), "type" := JString(form.kind),
                         "amount" := JNumber(amountValue.value), "date" := JString(form.date + Midnight),
                         "is_recurring" := JBool(form.isRecurring)];
      if form.description != "" {
        payload := payload["description" := JString(form.description)];
      }
      ghost var described := payload;
      RecurrenceUpdates(described, form.isRecurring, form.frequency, form.recurrenceStartDate,
                        form.recurrenceEndDate);
      if form.isRecurring {
        payload := payload["frequency" := JString(form.frequency)];
        payload := payload["recurrence_start_date" := JString(form.recurrenceStartDate + Midnight)];
        if form.recurrenceEndDate != "" {
          payload := payload["recurrence_end_date" := JString(form.recurrenceEndDate + Midnight)];
        }
      }
      ghost var recurring := payload;
      PaymentUpdates(recurring, form.dueDate, form.isPaid, form.paymentDate);
      if form.dueDate != "" {
        payload := payload["due_date" := JString(form.dueDate + Midnight)];
      }
      payload := payload["is_paid" := JBool(form.isPaid)];
      if form.isPaid && form.paymentDate != "" {
        payload := payload["payment_date" := JString(form.paymentDate + Midnight)];
      }
      var urlString, httpMethod;
      if initialData.Some? {
        urlString, httpMethod := ExpensesUrl + initialData.value.id, "PUT";
        if !fd.urlOk(urlString) {
          isLoading := false;
          return None;
        }
      } else {
        urlString, httpMethod := ExpensesUrl, "POST";
      }
      assert payload == ExpensePayload(form, amountValue.value);
      request := Some(Request(httpMethod, urlString, payload));
    }
  }
}
