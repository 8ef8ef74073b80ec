/** The mortgage form of a property (MortgageSheet.swift): decimal parsing
    that accepts a comma, the payment and total it displays, and the request
    "Guardar" sends. */
module MortgageSheet {
  import opened Wrappers
  import opened Json
  import opened Platform
  import opened Text
  import opened Models
  import opened MortgageKeys
  import opened MortgageMath
  import MortgageCodec

  /** `parseDouble`: `Double(String)` after every decimal comma has become a
      point. */
  function ParseDecimal(s: string, fd: Foundation): (r: Option<real>)
    ensures ',' !in s ==> r == fd.parseDouble(s)
  {
    fd.parseDouble(ReplaceCommas(s))
  }

  lemma {:induction false} ReplaceCommasConcat(a: string, b: string)
    ensures ReplaceCommas(a + b) == ReplaceCommas(a) + ReplaceCommas(b)
  {
    if a != [] {
      assert (a + b)[1..] == a[1..] + b;
      ReplaceCommasConcat(a[1..], b);
    }
  }

  /** A comma and a point read the same wherever they stand. */
  lemma CommaIsPoint(a: string, b: string, fd: Foundation)
    ensures ParseDecimal(a + "," + b, fd) == ParseDecimal(a + "." + b, fd)
  {
    ReplaceCommasConcat(a + ",", b);
    ReplaceCommasConcat(a, ",");
    ReplaceCommasConcat(a + ".", b);
    ReplaceCommasConcat(a, ".");
  }

  /** The form's fields. `startDateObj` is the instant the date picker holds. */
  datatype MortgageForm = MortgageForm(
    kind: string,
    initialAmount: string,
    years: string,
    interestFixed: string,
    interestVariable: string,
    startDateObj: Instant,
    bankName: string,
    accountNumber: string,
    paymentDay: string,
    fixedRatePeriod: string,
    referenceNumber: string,
    description: string,
    isAutomatic: bool)

  /** A new form: a fixed mortgage starting `now` (`Date()`), nothing typed. */
  function BlankMortgageForm(now: Instant): MortgageForm
  {
    MortgageForm("fixed", "", "", "", "", now, "", "", "", "", "", "", false)
  }

  /** `String(x!)` for a number that is present, else "". */
  function Described<T>(x: Option<T>, show: T -> string): (text: string)
    ensures x.Some? ==> text == show(x.value)
    ensures x.None? ==> text == ""
  {
    if x.Some? then show(x.value) else ""
  }

  /** `onAppear` when editing: the form filled from the stored mortgage.
      The picker keeps `startDateObj` unless the stored start date reads as
      `yyyy-MM-dd`; absent texts become "" and an absent flag false. */
  function MortgageFormOf(m: MortgageCodec.Mortgage, startDateObj: Instant, fd: Foundation): (f: MortgageForm)
    ensures f.kind == m.kind && f.initialAmount == fd.format2(m.initialAmount)
    ensures f.years == fd.describeInt(m.years)
    ensures f.interestFixed == Described(m.interestRateFixed, fd.describeDouble)
    ensures f.interestVariable == Described(m.interestRateVariable, fd.describeDouble)
    ensures m.startDate.Some? && fd.isoDate(m.startDate.value).Some? ==>
      f.startDateObj == fd.isoDate(m.startDate.value).value
    ensures m.startDate.None? || fd.isoDate(m.startDate.value).None? ==> f.startDateObj == startDateObj
    ensures f.bankName == m.bankName.GetOr("") && f.accountNumber == m.accountNumber.GetOr("")
    ensures f.paymentDay == Described(m.paymentDay, fd.describeInt)
    ensures f.fixedRatePeriod == Described(m.fixedRatePeriod, fd.describeInt)
    ensures f.referenceNumber == m.referenceNumber.GetOr("") && f.description == m.description.GetOr("")
    ensures f.isAutomatic <==> m.isAutomaticPayment == Some(true)
  {
    var parsed := if m.startDate.Some? then fd.isoDate(m.startDate.value) else None;
    MortgageForm(m.kind, fd.format2(m.initialAmount), fd.describeInt(m.years),
                 Described(m.interestRateFixed, fd.describeDouble),
                 Described(m.interestRateVariable, fd.describeDouble),
                 parsed.GetOr(startDateObj),
                 m.bankName.GetOr(""), m.accountNumber.GetOr(""),
                 Described(m.paymentDay, fd.describeInt), Described(m.fixedRatePeriod, fd.describeInt),
                 m.referenceNumber.GetOr(""), m.description.GetOr(""),
                 m.isAutomaticPayment.GetOr(false))
  }

  const Zero := "0.00"

  /** `Int(years)` when it is a positive number of years. */
  function PositiveYears(f: MortgageForm, fd: Foundation): Option<int>
  {
    var n := fd.parseInt(f.years);
    if n.Some? && n.value > 0 then n else None
  }

  /** The monthly rate the form's type selects, an unreadable rate counting as 0. */
  function FormRate(f: MortgageForm, fd: Foundation): real
  {
    MonthlyRate(f.kind, ParseDecimal(f.interestFixed, fd).GetOr(0.0), ParseDecimal(f.interestVariable, fd).GetOr(0.0))
  }

  /** `calculatedMonthlyPayment`: the annuity rounded to two decimals, and
      "0.00" unless the amount reads, the years are a positive integer, and
      amount and rate are positive. */
  function CalculatedMonthlyPayment(f: MortgageForm, fd: Foundation): (shown: string)
    ensures ParseDecimal(f.initialAmount, fd).None? || PositiveYears(f, fd).None? ==> shown == Zero
    ensures var p := ParseDecimal(f.initialAmount, fd); var n := PositiveYears(f, fd);
      p.Some? && n.Some? && p.value > 0.0 && FormRate(f, fd) > 0.0 ==>
        shown == fd.format2(fd.annuity(p.value, FormRate(f, fd), n.value * 12))
    ensures var p := ParseDecimal(f.initialAmount, fd);
      p.Some? && (p.value <= 0.0 || FormRate(f, fd) <= 0.0) ==> shown == Zero
  {
    var p := ParseDecimal(f.initialAmount, fd);
    var n := PositiveYears(f, fd);
    if p.None? || n.None? then Zero
    else
      var months := n.value * 12;
      var r := MonthlyRate(f.kind, ParseDecimal(f.interestFixed, fd).GetOr(0.0),
                           ParseDecimal(f.interestVariable, fd).GetOr(0.0));
      if p.value > 0.0 && r > 0.0 && months > 0 then fd.format2(fd.annuity(p.value, r, months))
      else Zero
  }

  /** `calculatedTotalToPay`: the displayed payment read back, times the
      number of months, rounded; "0.00" when the years are not a positive
      integer or the displayed payment does not read. */
  function CalculatedTotalToPay(f: MortgageForm, fd: Foundation): (shown: string)
    ensures PositiveYears(f, fd).None? ==> shown == Zero
    ensures ParseDecimal(CalculatedMonthlyPayment(f, fd), fd).None? ==> shown == Zero
    ensures var c := ParseDecimal(CalculatedMonthlyPayment(f, fd), fd); var n := PositiveYears(f, fd);
      c.Some? && n.Some? ==> shown == fd.format2(Total(c.value, n.value))
  {
    var cuota := ParseDecimal(CalculatedMonthlyPayment(f, fd), fd);
    var n := PositiveYears(f, fd);
    if cuota.None? || n.None? then Zero
    else fd.format2(Total(cuota.value, n.value))
  }

  /** The payment a fixed or mixed mortgage displays does not depend on the
      variable rate, and a variable one's not on the fixed rate. */
  lemma PaymentIgnoresUnusedRate(f: MortgageForm, other: string, fd: Foundation)
    ensures f.kind == "fixed" || f.kind == "mixed" ==>
      CalculatedMonthlyPayment(f.(interestVariable := other), fd) == CalculatedMonthlyPayment(f, fd)
    ensures f.kind == "variable" ==>
      CalculatedMonthlyPayment(f.(interestFixed := other), fd) == CalculatedMonthlyPayment(f, fd)
  {
    assert FormRate(f.(interestVariable := other), fd) == FormRate(f, fd) || f.kind == "variable"
      || (f.kind != "fixed" && f.kind != "mixed");
    assert FormRate(f.(interestFixed := other), fd) == FormRate(f, fd) || f.kind != "variable";
  }

  const InvalidInitialAmount := "Importe inicial inválido."
  const InvalidYears := "Años inválidos."
  const MortgagesUrl := Api + "mortgages/"

  /** What "Guardar" does: show a message, stop because the URL of the
      mortgage to replace could not be built, create a mortgage, or delete
      the edited mortgage and create its replacement. */
  datatype MortgageOutcome =
    | Invalid(message: string)
    | Stopped
    | Create(request: Request)
    | Replace(deleteUrl: string, request: Request)

  /** The values `submit` sends once both checks have passed. Unreadable
      rates count as 0, and the payment and total are the displayed texts
      read back. The start date is always sent, and the end date is the
      start plus `years` years of 365.25 days. */
  function SubmittedValues(f: MortgageForm, amount: real, years: int, fd: Foundation): (m: MortgageValues)
    ensures m.kind == f.kind && m.initialAmount == amount && m.years == years
    ensures m.monthlyPayment == ParseDecimal(CalculatedMonthlyPayment(f, fd), fd).GetOr(0.0)
    ensures m.totalToPay == ParseDecimal(CalculatedTotalToPay(f, fd), fd).GetOr(0.0)
    ensures m.startDate == JString(fd.isoString(f.startDateObj))
    ensures m.endDate == JString(fd.isoString(EndInstant(f.startDateObj, years)))
    ensures m.paymentDay == fd.parseInt(f.paymentDay) && m.fixedRatePeriod == fd.parseInt(f.fixedRatePeriod)
  {
    MortgageValues(
      f.kind, amount, years,
      ParseDecimal(f.interestFixed, fd).GetOr(0.0), ParseDecimal(f.interestVariable, fd).GetOr(0.0),
      ParseDecimal(CalculatedMonthlyPayment(f, fd), fd).GetOr(0.0),
      JString(fd.isoString(f.startDateObj)), JString(fd.isoString(EndInstant(f.startDateObj, years))),
      f.bankName, f.accountNumber,
      ParseDecimal(CalculatedTotalToPay(f, fd), fd).GetOr(0.0),
      fd.parseInt(f.paymentDay), fd.parseInt(f.fixedRatePeriod),
      f.referenceNumber, f.description, f.isAutomatic)
  }

  /** The fields sent for a mortgage of property `propertyId`: every key
      but `id`. */
  function SentFields(propertyId: string, m: MortgageValues): (fields: map<Key, Value>)
    ensures forall k :: k in fields <==> k != Id
    ensures fields[PropertyId] == JString(propertyId)
    ensures forall k :: k in fields && k != PropertyId ==> fields[k] == FieldValue(m, k)
  {
    MortgageFields(m)[PropertyId := JString(propertyId)]
  }

  /** The JSON payload: `property_id` and every mortgage field under its
      name, and no `id`. */
  function MortgagePayload(propertyId: string, m: MortgageValues): (p: Payload)
    ensures forall k :: k != Id ==> k.JsonName() in p && p[k.JsonName()] == SentFields(propertyId, m)[k]
    ensures Id.JsonName() !in p
  {
    NamesDistinct();
    ToJson(SentFields(propertyId, m))
  }

  /** `submit`: the initial amount must read as a positive number, then the
      years as a positive integer. */
  function MortgageSubmission(propertyId: string, f: MortgageForm, editing: Option<string>, fd: Foundation)
    : (s: MortgageOutcome)
    ensures s == Invalid(InvalidInitialAmount) <==> !IsPositive(ParseDecimal(f.initialAmount, fd))
    ensures s == Invalid(InvalidYears) <==>
      IsPositive(ParseDecimal(f.initialAmount, fd)) && PositiveYears(f, fd).None?
    ensures s.Stopped? <==> IsPositive(ParseDecimal(f.initialAmount, fd)) && PositiveYears(f, fd).Some?
                            && editing.Some? && !fd.urlOk(MortgagesUrl + editing.value)
    ensures s.Create? <==> IsPositive(ParseDecimal(f.initialAmount, fd)) && PositiveYears(f, fd).Some? && editing.None?
    ensures s.Replace? <==> IsPositive(ParseDecimal(f.initialAmount, fd)) && PositiveYears(f, fd).Some?
                            && editing.Some? && fd.urlOk(MortgagesUrl + editing.value)
    ensures s.Replace? ==> s.deleteUrl == MortgagesUrl + editing.value
    ensures s.Create? || s.Replace? ==>
      && s.request.httpMethod == "POST" && s.request.url == MortgagesUrl
      && s.request.payload == MortgagePayload(propertyId, SubmittedValues(f, ParseDecimal(f.initialAmount, fd).value,
                                                                        PositiveYears(f, fd).value, fd))
  {
    var amount := ParseDecimal(f.initialAmount, fd);
    if !IsPositive(amount) then Invalid(InvalidInitialAmount)
    else
      var years := fd.parseInt(f.years);
      if years.None? || years.value <= 0 then Invalid(InvalidYears)
      else
        var create := Request("POST", MortgagesUrl,
                              MortgagePayload(propertyId, SubmittedValues(f, amount.value, years.value, fd)));
        if editing.Some? then
          if fd.urlOk(MortgagesUrl + editing.value) then Replace(MortgagesUrl + editing.value, create)
          else Stopped
        else Create(create)
  }

  /** Saving a mortgage loaded for editing, without touching the form,
      deletes it and creates its replacement, once its amount text reads
      back positive and its years text back as the years. The type, years,
      bank, flag and parsed start date are sent as stored, and so is a
      payment day whose text reads back. */
  lemma EditResubmitsStoredMortgage(propertyId: string, m: MortgageCodec.Mortgage, startDateObj: Instant,
                                    fd: Foundation)
    requires IsPositive(ParseDecimal(fd.format2(m.initialAmount), fd))
    requires m.years > 0 && fd.parseInt(fd.describeInt(m.years)) == Some(m.years)
    requires fd.urlOk(MortgagesUrl + m.id)
    ensures var s := MortgageSubmission(propertyId, MortgageFormOf(m, startDateObj, fd), Some(m.id), fd);
      && s.Replace? && s.deleteUrl == MortgagesUrl + m.id
      && s.request.payload[Type.JsonName()] == JString(m.kind)
      && s.request.payload[Years.JsonName()] == JNumber(m.years as real)
      && s.request.payload[BankName.JsonName()] == JString(m.bankName.GetOr(""))
      && s.request.payload[IsAutomaticPayment.JsonName()] == JBool(m.isAutomaticPayment == Some(true))
      && (m.startDate.Some? && fd.isoDate(m.startDate.value).Some? ==>
            s.request.payload[StartDate.JsonName()] == JString(fd.isoString(fd.isoDate(m.startDate.value).value)))
      && (m.paymentDay.Some? && fd.parseInt(fd.describeInt(m.paymentDay.value)) == m.paymentDay ==>
            s.request.payload[PaymentDay.JsonName()] == JNumber(m.paymentDay.value as real))
  {
    var f := MortgageFormOf(m, startDateObj, fd);
    assert PositiveYears(f, fd) == Some(m.years);
    FormSubmitsFields(propertyId, f, m.id, fd);
  }

  /** What a valid form sends when replacing the mortgage `id`: the type,
      years, bank, flag, start date and payment day it holds. */
  lemma FormSubmitsFields(propertyId: string, f: MortgageForm, id: string, fd: Foundation)
    requires IsPositive(ParseDecimal(f.initialAmount, fd)) && PositiveYears(f, fd).Some?
    requires fd.urlOk(MortgagesUrl + id)
    ensures var s := MortgageSubmission(propertyId, f, Some(id), fd);
      && s.Replace? && s.deleteUrl == MortgagesUrl + id
      && s.request.payload[Type.JsonName()] == JString(f.kind)
      && s.request.payload[Years.JsonName()] == JNumber(PositiveYears(f, fd).value as real)
      && s.request.payload[BankName.JsonName()] == JString(f.bankName)
      && s.request.payload[IsAutomaticPayment.JsonName()] == JBool(f.isAutomatic)
      && s.request.payload[StartDate.JsonName()] == JString(fd.isoString(f.startDateObj))
      && s.request.payload[PaymentDay.JsonName()] == OptInt(fd.parseInt(f.paymentDay))
  {
    var v := SubmittedValues(f, ParseDecimal(f.initialAmount, fd).value, PositiveYears(f, fd).value, fd);
    PayloadSends(propertyId, v, Type);
    PayloadSends(propertyId, v, Years);
    PayloadSends(propertyId, v, BankName);
    PayloadSends(propertyId, v, IsAutomaticPayment);
    PayloadSends(propertyId, v, StartDate);
    PayloadSends(propertyId, v, PaymentDay);
  }

  /** A mortgage field's value as the payload carries it. */
  lemma PayloadSends(propertyId: string, v: MortgageValues, k: Key)
    requires IsMortgageField(k)
    ensures MortgagePayload(propertyId, v)[k.JsonName()] == FieldValue(v, k)
  {
  }

  /** The mortgage form's state. */
  class MortgageSheetState {
    const propertyId: string
    /** The mortgage being edited, None when adding one. */
    const mortgage: Option<MortgageCodec.Mortgage>
    var form: MortgageForm
    var isLoading: bool
    var errorMessage: Option<string>

    constructor (propertyId: string, mortgage: Option<MortgageCodec.Mortgage>, now: Instant)
      ensures this.propertyId == propertyId && this.mortgage == mortgage
      ensures form == BlankMortgageForm(now) && !isLoading && errorMessage.None?
    {
      this.propertyId := propertyId;
      this.mortgage := mortgage;
      form := BlankMortgageForm(now);
      isLoading, errorMessage := false, None;
    }

    /** `isEdit, let mortgage = mortgage`: the id of the mortgage edited. */
    function EditingId(): (id: Option<string>)
      ensures id.Some? <==> mortgage.Some?
      ensures id.Some? ==> id.value == mortgage.value.id
    {
      if mortgage.Some? then Some(mortgage.value.id) else None
    }

    /** `onAppear`: when editing, fills the form from the stored mortgage. */
    method LoadMortgage(fd: Foundation)
      modifies this`form
      ensures mortgage.Some? ==> form == MortgageFormOf(mortgage.value, old(form.startDateObj), fd)
      ensures mortgage.None? ==> form == old(form)
    {
      if mortgage.Some? {
        var m := mortgage.value;
        var f := form;
        f := f.(kind := m.kind);
        f := f.(initialAmount := fd.format2(m.initialAmount));
        f := f.(years := fd.describeInt(m.years));
        f := f.(interestFixed := Described(m.interestRateFixed, fd.describeDouble));
        f := f.(interestVariable := Described(m.interestRateVariable, fd.describeDouble));
        if m.startDate.Some? {
          var d := fd.isoDate(m.startDate.value);
          if d.Some? {
            f := f.(startDateObj := d.value);
          }
        }
        f := f.(bankName := m.bankName.GetOr(""));
        f := f.(accountNumber := m.accountNumber.GetOr(""));
        f := f.(paymentDay := Described(m.paymentDay, fd.describeInt));
        f := f.(fixedRatePeriod := Described(m.fixedRatePeriod, fd.describeInt));
        f := f.(referenceNumber := m.referenceNumber.GetOr(""));
        f := f.(description := m.description.GetOr(""));
        f := f.(isAutomatic := m.isAutomaticPayment.GetOr(false));
        form := f;
      }
    }

    /** `submit`: the two checks with early returns, then the payload and
        the requests to send, the DELETE of the edited mortgage first. */
    method Submit(fd: Foundation) returns (delete: Option<string>, create: Option<Request>)
      modifies this`errorMessage, this`isLoading
      ensures var s := MortgageSubmission(propertyId, form, EditingId(), fd);
        && (s.Invalid? ==> errorMessage == Some(s.message) && isLoading == old(isLoading)
                           && delete.None? && create.None?)
        && (s.Stopped? ==> errorMessage.None? && !isLoading && delete.None? && create.None?)
        && (s.Create? ==> errorMessage.None? && isLoading && delete.None? && create == Some(s.request))
        && (s.Replace? ==> errorMessage.None? && isLoading && delete == Some(s.deleteUrl)
                           && create == Some(s.request))
    {
      var f, editing := form, EditingId();
      errorMessage := None;
      var initialAmountValue := ParseDecimal(f.initialAmount, fd);
      if !IsPositive(initialAmountValue) {
        errorMessage := Some(InvalidInitialAmount);
        return None, None;
      }
      var yearsValue := PositiveYears(f, fd);
      if yearsValue.None? {
        errorMessage := Some(InvalidYears);
        return None, None;
      }
      var values := SubmittedValues(f, initialAmountValue.value, yearsValue.value, fd);
      var payload := MortgagePayload(propertyId, values);
      isLoading := true;
      var request := Request("POST", MortgagesUrl, payload);
      if editing.Some? {
        var url := MortgagesUrl + editing.value;
        if !fd.urlOk(url) {
          isLoading := false;
          return None, None;
        }
        return Some(url), Some(request);
      }
      return None, Some(request);
    }
  }
}
