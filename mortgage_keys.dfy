/** The keys of a mortgage as JSON names it: the coding keys of the
    `Mortgage` record (Mortgage.swift) and the keys of the payloads the
    property and mortgage forms send, which add `interest_rate` and leave out
    `id`. Payloads are built keyed by this type and named at the end, so no
    two fields can land on one name. */
module MortgageKeys {
  import opened Wrappers
  import opened Json

  datatype Key =
    | Id | PropertyId | Type | InitialAmount | Years | InterestRateFixed | InterestRateVariable | InterestRate
    | MonthlyPayment | StartDate | EndDate | BankName | AccountNumber | TotalToPay | PaymentDay
    | FixedRatePeriod | ReferenceNumber | Description | IsAutomaticPayment
  {
    /** The JSON name of the key. */
    function JsonName(): string
    {
      match this
      case Id => "id"
      case PropertyId => "property_id"
      case Type => "type"
      case InitialAmount => "initial_amount"
      case Years => "years"
      case InterestRateFixed => "interest_rate_fixed"
      case InterestRateVariable => "interest_rate_variable"
      case InterestRate => "interest_rate"
      case MonthlyPayment => "monthly_payment"
      case StartDate => "start_date"
      case EndDate => "end_date"
      case BankName => "bank_name"
      case AccountNumber => "account_number"
      case TotalToPay => "total_to_pay"
      case PaymentDay => "payment_day"
      case FixedRatePeriod => "fixed_rate_period"
      case ReferenceNumber => "reference_number"
      case Description => "description"
      case IsAutomaticPayment => "is_automatic_payment"
    }
  }

  function KeyName(k: Key): string
  {
    k.JsonName()
  }

  /** The key a JSON name stands for, if any. */
  function KeyNamed(s: string): Option<Key>
  {
    match |s|
    case 2 => if s == "id" then Some(Id) else None
    case 4 => if s == "type" then Some(Type) else None
    case 5 => if s == "years" then Some(Years) else None
    case 8 => if s == "end_date" then Some(EndDate) else None
    case 9 => if s == "bank_name" then Some(BankName) else None
    case 10 => if s == "start_date" then Some(StartDate) else None
    case 11 => if s == "property_id" then Some(PropertyId) else if s == "payment_day" then Some(PaymentDay) else if s == "description" then Some(Description) else None
    case 12 => if s == "total_to_pay" then Some(TotalToPay) else None
    case 13 => if s == "interest_rate" then Some(InterestRate) else None
    case 14 => if s == "initial_amount" then Some(InitialAmount) else if s == "account_number" then Some(AccountNumber) else None
    case 15 => if s == "monthly_payment" then Some(MonthlyPayment) else None
    case 16 => if s == "reference_number" then Some(ReferenceNumber) else None
    case 17 => if s == "fixed_rate_period" then Some(FixedRatePeriod) else None
    case 19 => if s == "interest_rate_fixed" then Some(InterestRateFixed) else None
    case 20 => if s == "is_automatic_payment" then Some(IsAutomaticPayment) else None
    case 22 => if s == "interest_rate_variable" then Some(InterestRateVariable) else None
    case _ => None
  }

  /** `KeyNamed` reads back every key's name. */
  lemma NameRoundTrip(k: Key)
    ensures KeyNamed(k.JsonName()) == Some(k)
  {
  }

  /** No two keys share a name. */
  lemma NamesDistinct()
    ensures forall a: Key, b: Key :: a.JsonName() == b.JsonName() ==> a == b
  {
    forall a: Key, b: Key | a.JsonName() == b.JsonName()
      ensures a == b
    {
      NameRoundTrip(a);
      NameRoundTrip(b);
    }
  }

  /** A map keyed by `Key` written as a JSON object. */
  function ToJson(fields: map<Key, Value>): (p: Payload)
    ensures forall k :: k in fields ==> k.JsonName() in p && p[k.JsonName()] == fields[k]
    ensures forall s :: s in p ==> exists k :: k in fields && k.JsonName() == s
  {
    NamesDistinct();
    Named(fields, KeyName)
  }
}
