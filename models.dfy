/** The records the backend returns (Models.swift) and what the income and
    expense forms share: the request they send, the guard chain they run
    before building it, and the recurrence keys of their payloads. */
module Models {
  import opened Wrappers
  import opened Json

  /** A property as the pickers and lists receive it; `id` is its `_id` key. */
  datatype PropertyName = PropertyName(id: string, name: string)

  /** A stored income. `kind` is its `type` key. */
  datatype Income = Income(
    id: string,
    propertyId: string,
    kind: string,
    amount: real,
    date: string,
    description: Option<string>,
    isRecurring: Option<bool>,
    frequency: Option<string>,
    recurrenceStartDate: Option<string>,
    recurrenceEndDate: Option<string>)

  /** A stored expense. `kind` is its `type` key. */
  datatype Expense = Expense(
    id: string,
    propertyId: string,
    kind: string,
    amount: real,
    date: string,
    description: Option<string>,
    isRecurring: Option<bool>,
    frequency: Option<string>,
    dueDate: Option<string>,
    isPaid: Option<bool>,
    paymentDate: Option<string>,
    recurrenceStartDate: Option<string>,
    recurrenceEndDate: Option<string>)

  /** An HTTP request with a JSON body, as a form hands it to URLSession. */
  datatype Request = Request(httpMethod: string, url: string, payload: Payload)

  /** What pressing "Guardar" does: show a validation message, stop silently
      because the request URL could not be built, or send a request. */
  datatype Submission = Rejected(message: string) | Aborted | Sent(request: Request)

  const Api := "https://api.propiexpert.com/"

  /** The time of day appended to every `yyyy-MM-dd` date a form sends. */
  const Midnight := "T00:00:00"

  const PropertyRequired := "La propiedad es obligatoria."
  const TypeRequired := "El tipo es obligatorio."
  const InvalidAmount := "Cantidad inválida."
  const DateRequired := "La fecha es obligatoria."

  predicate IsPositive(x: Option<real>)
  {
    x.Some? && x.value > 0.0
  }

  /** The checks both entry forms run, in order, before building a payload:
      the first one that fails decides the message; when all pass, the result
      is the parsed amount. */
  function CheckEntry(propertyId: string, kind: string, amount: string, date: string,
                      parseDouble: string -> Option<real>): (r: Result<real, string>)
    ensures r == Failure(PropertyRequired) <==> propertyId == ""
    ensures r == Failure(TypeRequired) <==> propertyId != "" && kind == ""
    ensures r == Failure(InvalidAmount) <==>
      propertyId != "" && kind != "" && !IsPositive(parseDouble(amount))
    ensures r == Failure(DateRequired) <==>
      propertyId != "" && kind != "" && IsPositive(parseDouble(amount)) && date == ""
    ensures r.Success? <==>
      propertyId != "" && kind != "" && IsPositive(parseDouble(amount)) && date != ""
    ensures r.Success? ==> parseDouble(amount) == Some(r.value) && r.value > 0.0
  {
    if propertyId == "" then Failure(PropertyRequired)
    else if kind == "" then Failure(TypeRequired)
    else if !IsPositive(parseDouble(amount)) then Failure(InvalidAmount)
    else if date == "" then Failure(DateRequired)
    else Success(parseDouble(amount).value)
  }

  /** The recurrence keys of an income or expense payload. */
  function RecurrenceKeys(isRecurring: bool, frequency: string, start: string, end: string): (p: Payload)
    ensures "frequency" in p <==> isRecurring
    ensures "recurrence_start_date" in p <==> isRecurring
    ensures "recurrence_end_date" in p <==> isRecurring && end != ""
    ensures p.Keys <= {"frequency", "recurrence_start_date", "recurrence_end_date"}
    ensures isRecurring ==> p["frequency"] == JString(frequency)
    ensures isRecurring ==> p["recurrence_start_date"] == JString(start + Midnight)
    ensures isRecurring && end != "" ==> p["recurrence_end_date"] == JString(end + Midnight)
  {
    if !isRecurring then map[]
    else if end == "" then
      map["frequency" := JString(frequency), "recurrence_start_date" := JString(start + Midnight)]
    else
      map["frequency" := JString(frequency), "recurrence_start_date" := JString(start + Midnight),
          "recurrence_end_date" := JString(end + Midnight)]
  }

  /** Every key an entry payload may hold. */
  const EntryKeys: set<string> := {"property_id", "type", "amount", "date", "is_recurring", "description",
                                   "frequency", "recurrence_start_date", "recurrence_end_date"}

  /** The payload both entry forms build once the guard chain has passed:
      the five keys every entry has, the description when there is one, and
      the recurrence keys. */
  function EntryPayload(propertyId: string, kind: string, amount: real, date: string, description: string,
                        isRecurring: bool, frequency: string, start: string, end: string): (p: Payload)
    ensures {"property_id", "type", "amount", "date", "is_recurring"} <= p.Keys
    ensures p["property_id"] == JString(propertyId) && p["type"] == JString(kind)
    ensures p["amount"] == JNumber(amount) && p["is_recurring"] == JBool(isRecurring)
    ensures p["date"] == JString(date + Midnight)
    ensures "description" in p <==> description != ""
    ensures "description" in p ==> p["description"] == JString(description)
    ensures "frequency" in p <==> isRecurring
    ensures "recurrence_start_date" in p <==> isRecurring
    ensures "recurrence_end_date" in p <==> isRecurring && end != ""
    ensures isRecurring ==> p["frequency"] == JString(frequency)
    ensures isRecurring ==> p["recurrence_start_date"] == JString(start + Midnight)
    ensures "recurrence_end_date" in p ==> p["recurrence_end_date"] == JString(end + Midnight)
    ensures p.Keys <= EntryKeys
  {
    var base := map["property_id" := JString(propertyId), "type" := JString(kind),
                    "amount" := JNumber(amount), "date" := JString(date + Midnight),
                    "is_recurring" := JBool(isRecurring)];
    var described := if description != "" then base["description" := JString(description)] else base;
    described + RecurrenceKeys(isRecurring, frequency, start, end)
  }

  /** Setting the recurrence keys one by one, as the forms do, on a payload
      that has none of them yet is adding `RecurrenceKeys`. */
  lemma RecurrenceUpdates(p: Payload, isRecurring: bool, frequency: string, start: string, end: string)
    ensures var q := if !isRecurring then p
                     else if end == "" then p["frequency" := JString(frequency)]
                                          ["recurrence_start_date" := JString(start + Midnight)]
                     else p["frequency" := JString(frequency)]
                           ["recurrence_start_date" := JString(start + Midnight)]
                           ["recurrence_end_date" := JString(end + Midnight)];
      q == p + RecurrenceKeys(isRecurring, frequency, start, end)
  {
  }
}
