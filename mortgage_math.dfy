/** What the property form and the mortgage form compute alike for a
    mortgage: the monthly rate chosen by mortgage type, the guard around the
    annuity formula, the end date and the mortgage fields of a payload. */
module MortgageMath {
  import opened Wrappers
  import opened Json
  import opened Platform
  import opened MortgageKeys

  /** The seconds `addTimeInterval` adds per year: 365.25 days of 86400 s. */
  const SecondsPerYear: real := 31557600.0

  /** The monthly rate: the annual percentage the type uses, divided by 100
      and by 12. "fixed" and "mixed" use the fixed rate, "variable" the
      variable one, any other type none. */
  function MonthlyRate(kind: string, fixedPercent: real, variablePercent: real): (r: real)
    ensures kind == "fixed" || kind == "mixed" ==> r == fixedPercent / 1200.0
    ensures kind == "variable" ==> r == variablePercent / 1200.0
    ensures kind != "fixed" && kind != "mixed" && kind != "variable" ==> r == 0.0
  {
    if kind == "fixed" then fixedPercent / 100.0 / 12.0
    else if kind == "variable" then variablePercent / 100.0 / 12.0
    else if kind == "mixed" then fixedPercent / 100.0 / 12.0
    else 0.0
  }

  /** A mixed mortgage is paid at the fixed rate, and the rate never depends
      on the field the type does not use. */
  lemma MixedPaysFixed(fixedPercent: real, variablePercent: real, otherFixed: real, otherVariable: real)
    ensures MonthlyRate("mixed", fixedPercent, variablePercent) == MonthlyRate("fixed", fixedPercent, otherVariable)
    ensures MonthlyRate("variable", fixedPercent, variablePercent) == MonthlyRate("variable", otherFixed, variablePercent)
  {
  }

  /** The monthly payment: the annuity for principal `p`, monthly rate `r`
      and `months` payments, and 0 unless all three are positive. */
  function Payment(p: real, r: real, months: int, annuity: (real, real, int) -> real): (cuota: real)
    ensures p > 0.0 && r > 0.0 && months > 0 ==> cuota == annuity(p, r, months)
    ensures !(p > 0.0 && r > 0.0 && months > 0) ==> cuota == 0.0
  {
    if p > 0.0 && r > 0.0 && months > 0 then annuity(p, r, months) else 0.0
  }

  /** What a monthly payment adds up to over `years` years of 12 payments. */
  function Total(payment: real, years: int): (total: real)
    ensures years > 0 && payment > 0.0 ==> total >= payment
    ensures years == 0 || payment == 0.0 ==> total == 0.0
  {
    payment * years as real * 12.0
  }

  /** `start` plus `years * 365.25 * 24 * 60 * 60` seconds. */
  function EndInstant(start: Instant, years: int): (end: Instant)
    ensures end == start + years as real * SecondsPerYear
    ensures years > 0 ==> end > start
  {
    start + years as real * 365.25 * 24.0 * 60.0 * 60.0
  }

  /** The rate fields of a mortgage payload. */
  function RateFixedField(kind: string, fixedPercent: real): Value
  {
    if kind == "fixed" || kind == "mixed" then JNumber(fixedPercent) else JNumber(0.0)
  }

  function RateVariableField(kind: string, variablePercent: real): Value
  {
    if kind == "variable" || kind == "mixed" then JNumber(variablePercent) else JNumber(0.0)
  }

  /** The values of a mortgage's fields as a form sends them. */
  datatype MortgageValues = MortgageValues(
    kind: string,
    initialAmount: real,
    years: int,
    fixedPercent: real,
    variablePercent: real,
    monthlyPayment: real,
    startDate: Value,
    endDate: Value,
    bankName: string,
    accountNumber: string,
    totalToPay: real,
    paymentDay: Option<int>,
    fixedRatePeriod: Option<int>,
    referenceNumber: string,
    description: string,
    isAutomatic: bool)

  /** The keys both forms send for a mortgage: all but `id` and `property_id`. */
  predicate IsMortgageField(k: Key)
  {
    k != Id && k != PropertyId
  }

  /** The value a form sends under `k`; absent optional values are JSON
      null, and the rate of the field the type does not use is sent as 0. */
  function FieldValue(m: MortgageValues, k: Key): (v: Value)
    ensures k == Type ==> v == JString(m.kind)
    ensures k == InitialAmount ==> v == JNumber(m.initialAmount)
    ensures k == Years ==> v == JNumber(m.years as real)
    ensures k == InterestRateFixed ==>
      v == JNumber(if m.kind == "fixed" || m.kind == "mixed" then m.fixedPercent else 0.0)
    ensures k == InterestRateVariable ==>
      v == JNumber(if m.kind == "variable" || m.kind == "mixed" then m.variablePercent else 0.0)
    ensures k == InterestRate ==> v == JNumber(0.0)
    ensures k == MonthlyPayment ==> v == JNumber(m.monthlyPayment)
    ensures k == TotalToPay ==> v == JNumber(m.totalToPay)
    ensures k == StartDate ==> v == m.startDate
    ensures k == EndDate ==> v == m.endDate
    ensures k == BankName ==> v == JString(m.bankName)
    ensures k == AccountNumber ==> v == JString(m.accountNumber)
    ensures k == PaymentDay ==> v == OptInt(m.paymentDay)
    ensures k == FixedRatePeriod ==> v == OptInt(m.fixedRatePeriod)
    ensures k == ReferenceNumber ==> v == NilIfEmpty(m.referenceNumber)
    ensures k == Description ==> v == NilIfEmpty(m.description)
    ensures k == IsAutomaticPayment ==> v == JBool(m.isAutomatic)
  {
    match k
    case Type => JString(m.kind)
    case InitialAmount => JNumber(m.initialAmount)
    case Years => JNumber(m.years as real)
    case InterestRateFixed => RateFixedField(m.kind, m.fixedPercent)
    case InterestRateVariable => RateVariableField(m.kind, m.variablePercent)
    case InterestRate => JNumber(0.0)
    case MonthlyPayment => JNumber(m.monthlyPayment)
    case StartDate => m.startDate
    case EndDate => m.endDate
    case BankName => JString(m.bankName)
    case AccountNumber => JString(m.accountNumber)
    case TotalToPay => JNumber(m.totalToPay)
    case PaymentDay => OptInt(m.paymentDay)
    case FixedRatePeriod => OptInt(m.fixedRatePeriod)
    case ReferenceNumber => NilIfEmpty(m.referenceNumber)
    case Description => NilIfEmpty(m.description)
    case IsAutomaticPayment => JBool(m.isAutomatic)
    case _ => JNull
  }

  /** The mortgage fields of a payload: every key but `id` and
      `property_id`, each with its `FieldValue`. */
  function MortgageFields(m: MortgageValues): (p: map<Key, Value>)
    ensures forall k :: k in p <==> k != Id && k != PropertyId
    ensures forall k :: k in p ==> p[k] == FieldValue(m, k)
  {
    map k: Key | IsMortgageField(k) :: FieldValue(m, k)
  }
}
