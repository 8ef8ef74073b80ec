/** The form that adds a property, optionally with its mortgage
    (AddPropertySheet.swift): the guard chain, the amenities list, the
    mortgage computed alongside, and the request "Guardar" sends. */
module PropertySheet {
  import opened Wrappers
  import opened Json
  import opened Platform
  import opened Text
  import opened Models
  import opened MortgageKeys
  import opened MortgageMath
  import opened PropertyKeys

  /** The mortgage fields of the form, shown when "Añadir hipoteca" is on. */
  datatype MortgageInput = MortgageInput(
    kind: string,
    initialAmount: string,
    years: string,
    interestFixed: string,
    interestVariable: string,
    startDate: string,
    bankName: string,
    accountNumber: string,
    paymentDay: string,
    fixedRatePeriod: string,
    referenceNumber: string,
    description: string,
    isAutomatic: bool)

  datatype PropertyForm = PropertyForm(
    name: string,
    address: string,
    purchaseDate: string,
    purchasePrice: string,
    currentValue: string,
    propertyType: string,
    bedrooms: string,
    bathrooms: string,
    squareMeters: string,
    description: string,
    amenities: string,
    isRented: bool,
    rentalPrice: string,
    lastRenovation: string,
    notes: string,
    addMortgage: bool,
    mortgage: MortgageInput)

  /** A new form: an apartment, no mortgage, a fixed mortgage type preset. */
  const BlankPropertyForm :=
    PropertyForm("", "", "", "", "", "apartment", "", "", "", "", "", false, "", "", "", false,
                 MortgageInput("fixed", "", "", "", "", "", "", "", "", "", "", "", false))

  /** The checks `submit` can fail, each with the message the form shows. */
  datatype PropertyError =
    | NameRequired | AddressRequired | InvalidPurchasePrice | InvalidCurrentValue
    | InvalidMortgageAmount | InvalidMortgageYears
  {
    function Message(): string
    {
      match this
      case NameRequired => "El nombre es obligatorio."
      case AddressRequired => "La dirección es obligatoria."
      case InvalidPurchasePrice => "Precio de compra inválido."
      case InvalidCurrentValue => "Valor actual inválido."
      case InvalidMortgageAmount => "Importe inicial de hipoteca inválido."
      case InvalidMortgageYears => "Años de hipoteca inválidos."
    }
  }
  const PropertiesUrl := Api + "properties/"

  // ---- Amenities

  /** `amenities.split(separator: ",").map { trim }.filter { !$0.isEmpty }`. */
  function AmenityList(s: string): (r: seq<string>)
    ensures forall k :: 0 <= k < |r| ==> r[k] != [] && ',' !in r[k] && IsTrimmed(r[k])
  {
    var r := NonEmpty(TrimEach(Split(s)));
    forall k | 0 <= k < |r|
      ensures ',' !in r[k] && IsTrimmed(r[k])
    {
      var i :| 0 <= i < |TrimEach(Split(s))| && TrimEach(Split(s))[i] == r[k];
      assert ',' !in Split(s)[i];
    }
    r
  }

  /** The list of a text with a comma is the lists of both sides. */
  lemma AmenityListComma(a: string, b: string)
    ensures AmenityList(a + "," + b) == AmenityList(a) + AmenityList(b)
  {
    SplitComma(a, b);
    TrimEachConcat(Split(a), Split(b));
    NonEmptyConcat(TrimEach(Split(a)), TrimEach(Split(b)));
  }

  /** Round trip: amenities that are non-empty, trimmed and free of commas,
      joined with ",", read back as the same list. */
  lemma AmenityListJoin(amenities: seq<string>)
    requires forall k :: 0 <= k < |amenities| ==> amenities[k] != [] && ',' !in amenities[k] && IsTrimmed(amenities[k])
    ensures AmenityList(Join(amenities, ",")) == amenities
  {
    SplitJoin(amenities);
    assert TrimEach(amenities) == amenities;
  }

  // ---- Checks

  /** What the checks hand on: the two prices and, when a mortgage is added,
      its initial amount and years. */
  datatype Checked = Checked(purchasePrice: real, currentValue: real, mortgage: Option<(real, int)>)

  /** The mortgage checks: the initial amount must read as a positive
      number, then the years as a positive integer. No decimal comma here. */
  function CheckMortgage(mi: MortgageInput, fd: Foundation): (r: Result<(real, int), PropertyError>)
    ensures r == Failure(InvalidMortgageAmount) <==> !IsPositive(fd.parseDouble(mi.initialAmount))
    ensures r == Failure(InvalidMortgageYears) <==>
      IsPositive(fd.parseDouble(mi.initialAmount)) && !(fd.parseInt(mi.years).Some? && fd.parseInt(mi.years).value > 0)
    ensures r.Success? ==> Some(r.value.0) == fd.parseDouble(mi.initialAmount) && r.value.0 > 0.0
    ensures r.Success? ==> Some(r.value.1) == fd.parseInt(mi.years) && r.value.1 > 0
  {
    var amount := fd.parseDouble(mi.initialAmount);
    if !IsPositive(amount) then Failure(InvalidMortgageAmount)
    else
      var years := fd.parseInt(mi.years);
      if years.None? || years.value <= 0 then Failure(InvalidMortgageYears)
      else Success((amount.value, years.value))
  }

  /** The guard chain of `submit`: on success, the parsed prices and, when
      a mortgage is added, its checked amount and years. A text whose
      `trimmingCharacters(in: .whitespaces)` is empty is one that `IsBlank`
      (the first clause of `Trim`'s contract). */
  function CheckProperty(f: PropertyForm, fd: Foundation): (r: Result<Checked, PropertyError>)
    ensures r.Success? ==> Some(r.value.purchasePrice) == fd.parseDouble(f.purchasePrice)
                           && Some(r.value.currentValue) == fd.parseDouble(f.currentValue)
    ensures r.Success? ==> (r.value.mortgage.Some? <==> f.addMortgage)
    ensures r.Success? && f.addMortgage ==>
      CheckMortgage(f.mortgage, fd).Success? && r.value.mortgage == Some(CheckMortgage(f.mortgage, fd).value)
  {
    if IsBlank(f.name) then Failure(NameRequired)
    else if IsBlank(f.address) then Failure(AddressRequired)
    else if !IsPositive(fd.parseDouble(f.purchasePrice)) then Failure(InvalidPurchasePrice)
    else if !IsPositive(fd.parseDouble(f.currentValue)) then Failure(InvalidCurrentValue)
    else
      var purchase := fd.parseDouble(f.purchasePrice).value;
      var current := fd.parseDouble(f.currentValue).value;
      if !f.addMortgage then Success(Checked(purchase, current, None))
      else
        match CheckMortgage(f.mortgage, fd)
        case Failure(message) => Failure(message)
        case Success(m) => Success(Checked(purchase, current, Some(m)))
  }

  /** The checks run in order and the first that fails decides the message:
      a name and an address that are not blank after trimming, a positive
      purchase price and current value, and the mortgage checks only when a
      mortgage is added. */
  lemma CheckPropertyOrder(f: PropertyForm, fd: Foundation)
    ensures var r := CheckProperty(f, fd);
      && (r == Failure(NameRequired) <==> IsBlank(f.name))
      && (r == Failure(AddressRequired) <==> !IsBlank(f.name) && IsBlank(f.address))
      && (r == Failure(InvalidPurchasePrice) <==>
            !IsBlank(f.name) && !IsBlank(f.address) && !IsPositive(fd.parseDouble(f.purchasePrice)))
      && (r == Failure(InvalidCurrentValue) <==>
            !IsBlank(f.name) && !IsBlank(f.address) && IsPositive(fd.parseDouble(f.purchasePrice))
            && !IsPositive(fd.parseDouble(f.currentValue)))
    ensures var r := CheckProperty(f, fd);
      var prior := !IsBlank(f.name) && !IsBlank(f.address) && IsPositive(fd.parseDouble(f.purchasePrice))
                   && IsPositive(fd.parseDouble(f.currentValue));
      && (r.Success? <==> prior && (f.addMortgage ==> CheckMortgage(f.mortgage, fd).Success?))
      && (prior && f.addMortgage && CheckMortgage(f.mortgage, fd).Failure? ==>
            r.Failure? && r.error == CheckMortgage(f.mortgage, fd).error)
      && (prior && !f.addMortgage ==> r.Success?)
  {
    if IsBlank(f.name) {
    } else if IsBlank(f.address) {
    } else if !IsPositive(fd.parseDouble(f.purchasePrice)) {
    } else if !IsPositive(fd.parseDouble(f.currentValue)) {
    } else if f.addMortgage {
      var m := CheckMortgage(f.mortgage, fd);
      assert m.Failure? ==> CheckProperty(f, fd) == Failure(m.error);
    }
  }

  // ---- The mortgage sent with the property

  /** `end_date`: the start date read as `yyyy-MM-dd`, plus the years, written
      back the same way; null when no start date was typed or it does not read. */
  function EndDate(startDate: string, years: int, fd: Foundation): (v: Value)
    ensures v != JNull <==> startDate != "" && fd.isoDate(startDate).Some?
    ensures v != JNull ==> v == JString(fd.isoString(EndInstant(fd.isoDate(startDate).value, years)))
  {
    if startDate != "" && fd.isoDate(startDate).Some? then
      JString(fd.isoString(EndInstant(fd.isoDate(startDate).value, years)))
    else JNull
  }

  /** The mortgage values of a checked mortgage: the payment is the annuity
      at the rate its type selects (unreadable rates count as 0), the total
      is twelve payments a year, and the start date is sent as typed. */
  function AttachedMortgageValues(mi: MortgageInput, amount: real, years: int, fd: Foundation): (m: MortgageValues)
    ensures m.kind == mi.kind && m.initialAmount == amount && m.years == years
    ensures m.monthlyPayment ==
      Payment(amount, MonthlyRate(mi.kind, fd.parseDouble(mi.interestFixed).GetOr(0.0),
                                  fd.parseDouble(mi.interestVariable).GetOr(0.0)), years * 12, fd.annuity)
    ensures m.totalToPay == Total(m.monthlyPayment, years)
    ensures m.startDate == NilIfEmpty(mi.startDate) && m.endDate == EndDate(mi.startDate, years, fd)
    ensures m.paymentDay == fd.parseInt(mi.paymentDay) && m.fixedRatePeriod == fd.parseInt(mi.fixedRatePeriod)
  {
    var fixed := fd.parseDouble(mi.interestFixed).GetOr(0.0);
    var variable := fd.parseDouble(mi.interestVariable).GetOr(0.0);
    var cuota := Payment(amount, MonthlyRate(mi.kind, fixed, variable), years * 12, fd.annuity);
    MortgageValues(mi.kind, amount, years, fixed, variable, cuota, NilIfEmpty(mi.startDate),
                   EndDate(mi.startDate, years, fd), mi.bankName, mi.accountNumber, Total(cuota, years),
                   fd.parseInt(mi.paymentDay), fd.parseInt(mi.fixedRatePeriod), mi.referenceNumber,
                   mi.description, mi.isAutomatic)
  }

  // ---- The payload

  /** The value the form sends under `k`, given the checked values: the
      texts as typed, the prices as checked, counts and area that default
      to 0, the non-empty amenities, the rental price only for a rented
      property, and the mortgage object when one was checked. */
  function PropertyValue(f: PropertyForm, c: Checked, fd: Foundation, k: PropertyKey): (v: Value)
    ensures (k == Name ==> v == JString(f.name))
    ensures (k == Address ==> v == JString(f.address))
    ensures (k == PropertyType ==> v == JString(f.propertyType))
    ensures (k == PurchasePrice ==> v == JNumber(c.purchasePrice))
    ensures (k == CurrentValue ==> v == JNumber(c.currentValue))
    ensures (k == Bedrooms ==> v == JNumber(fd.parseInt(f.bedrooms).GetOr(0) as real))
    ensures (k == Bathrooms ==> v == JNumber(fd.parseInt(f.bathrooms).GetOr(0) as real))
    ensures (k == SquareMeters ==> v == JNumber(fd.parseDouble(f.squareMeters).GetOr(0.0)))
    ensures (k == PropertyDescription ==> v == NilIfEmpty(f.description))
    ensures (k == Amenities ==>
          (v.JArray? && |v.items| == |AmenityList(f.amenities)|
           && forall i :: 0 <= i < |v.items| ==> v.items[i] == JString(AmenityList(f.amenities)[i])))
    ensures (k == IsRented ==> v == JBool(f.isRented))
    ensures (k == RentalPrice ==> v == if f.isRented then OptNumber(fd.parseDouble(f.rentalPrice)) else JNull)
    ensures (k == LastRenovation ==> v == NilIfEmpty(f.lastRenovation))
    ensures (k == Notes ==> v == NilIfEmpty(f.notes))
    ensures (k == AttachedMortgage && c.mortgage.Some? ==>
          var (amount, years) := c.mortgage.value;
          v == JObject(ToJson(MortgageFields(AttachedMortgageValues(f.mortgage, amount, years, fd)))))
  {
    match k
    case Name => JString(f.name)
    case Address => JString(f.address)
    case PropertyType => JString(f.propertyType)
    case PurchasePrice => JNumber(c.purchasePrice)
    case CurrentValue => JNumber(c.currentValue)
    case Bedrooms => JNumber(fd.parseInt(f.bedrooms).GetOr(0) as real)
    case Bathrooms => JNumber(fd.parseInt(f.bathrooms).GetOr(0) as real)
    case SquareMeters => JNumber(fd.parseDouble(f.squareMeters).GetOr(0.0))
    case PropertyDescription => NilIfEmpty(f.description)
    case Amenities => JArray(seq(|AmenityList(f.amenities)|, i requires 0 <= i < |AmenityList(f.amenities)| =>
                                   JString(AmenityList(f.amenities)[i])))
    case IsRented => JBool(f.isRented)
    case RentalPrice => if f.isRented then OptNumber(fd.parseDouble(f.rentalPrice)) else JNull
    case LastRenovation => NilIfEmpty(f.lastRenovation)
    case Notes => NilIfEmpty(f.notes)
    case AttachedMortgage =>
      if c.mortgage.Some? then
        var (amount, years) := c.mortgage.value;
        JObject(ToJson(MortgageFields(AttachedMortgageValues(f.mortgage, amount, years, fd))))
      else JNull
  }


  /** The fields of the payload: every key, `mortgage` only when one was added. */
  function PropertyFields(f: PropertyForm, c: Checked, fd: Foundation): (fields: map<PropertyKey, Value>)
    ensures forall k :: k in fields <==> k != AttachedMortgage || c.mortgage.Some?
    ensures forall k :: k in fields ==> fields[k] == PropertyValue(f, c, fd, k)
  {
    map k: PropertyKey | k != AttachedMortgage || c.mortgage.Some? :: PropertyValue(f, c, fd, k)
  }

  /** `submit`: the first failing check decides the message; otherwise a POST
      of the payload to the properties endpoint, whose `mortgage` key is
      there exactly when a mortgage was added. */
  function PropertySubmission(f: PropertyForm, fd: Foundation): (s: Submission)
    ensures var check := CheckProperty(f, fd);
      && (s.Rejected? <==> check.Failure?)
      && (s.Rejected? ==> s.message == check.error.Message())
      && (s.Sent? ==> s.request == Request("POST", PropertiesUrl, PropertyJson(PropertyFields(f, check.value, fd))))
    ensures !s.Aborted?
    ensures s.Sent? ==> (AttachedMortgage.JsonName() in s.request.payload <==> f.addMortgage)
  {
    match CheckProperty(f, fd)
    case Failure(e) => Rejected(e.Message())
    case Success(c) =>
      var fields := PropertyFields(f, c, fd);
      var p := PropertyJson(fields);
      PropertyNamesDistinct();
      assert AttachedMortgage.JsonName() in p ==> AttachedMortgage in fields;
      Sent(Request("POST", PropertiesUrl, p))
  }

  /** The form's state. */
  class AddPropertySheet {
    var form: PropertyForm
    var isLoading: bool
    var errorMessage: Option<string>

    constructor ()
      ensures form == BlankPropertyForm && !isLoading && errorMessage.None?
    {
      form := BlankPropertyForm;
      isLoading, errorMessage := false, None;
    }

    /** `submit`: the checks with early returns, the mortgage values when
        one is added, then the payload and the request it would send. */
    method Submit(fd: Foundation) returns (request: Option<Request>)
      modifies this`errorMessage, this`isLoading
      ensures var check := CheckProperty(form, fd);
        && (check.Failure? ==> errorMessage == Some(check.error.Message()) && isLoading == old(isLoading) && request.None?)
        && (check.Success? ==>
              && errorMessage.None? && isLoading
              && request == Some(Request("POST", PropertiesUrl, PropertyJson(PropertyFields(form, check.value, fd)))))
    {
      var f := form;
      CheckPropertyOrder(f, fd);
      errorMessage := None;
      if IsBlank(f.name) {
        errorMessage := Some(NameRequired.Message());
        return None;
      }
      if IsBlank(f.address) {
        errorMessage := Some(AddressRequired.Message());
        return None;
      }
      var purchasePriceValue := fd.parseDouble(f.purchasePrice);
      if purchasePriceValue.None? || purchasePriceValue.value <= 0.0 {
        errorMessage := Some(InvalidPurchasePrice.Message());
        return None;
      }
      var currentValueValue := fd.parseDouble(f.currentValue);
      if currentValueValue.None? || currentValueValue.value <= 0.0 {
        errorMessage := Some(InvalidCurrentValue.Message());
        return None;
      }
      var mortgage: Option<(real, int)> := None;
      if f.addMortgage {
        var initialAmount := fd.parseDouble(f.mortgage.initialAmount);
        if initialAmount.None? || initialAmount.value <= 0.0 {
          errorMessage := Some(InvalidMortgageAmount.Message());
          return None;
        }
        var years := fd.parseInt(f.mortgage.years);
        if years.None? || years.value <= 0 {
          errorMessage := Some(InvalidMortgageYears.Message());
          return None;
        }
        mortgage := Some((initialAmount.value, years.value));
      }
      var checked := Checked(purchasePriceValue.value, currentValueValue.value, mortgage);
      var payload := PropertyJson(PropertyFields(f, checked, fd));
      isLoading := true;
      errorMessage := None;
      request := Some(Request("POST", PropertiesUrl, payload));
      assert form == f;
    }
  }
}
