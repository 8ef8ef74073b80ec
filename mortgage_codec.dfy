/** The `Mortgage` record and its `Codable` conformance (Mortgage.swift):
    decoding reads each field from the keyed container of a JSON object in turn, taking `id` from
    `property_id` when `id` is absent; encoding writes the five required
    fields always and each optional field only when it is present. */
module MortgageCodec {
  import opened Wrappers
  import opened Json
  import opened MortgageKeys

  /** A stored mortgage. `kind` is its `type` key. */
  datatype Mortgage = Mortgage(
    id: string,
    kind: string,
    initialAmount: real,
    years: int,
    interestRateFixed: Option<real>,
    interestRateVariable: Option<real>,
    monthlyPayment: real,
    startDate: Option<string>,
    endDate: Option<string>,
    bankName: Option<string>,
    accountNumber: Option<string>,
    totalToPay: Option<real>,
    paymentDay: Option<int>,
    fixedRatePeriod: Option<int>,
    referenceNumber: Option<string>,
    description: Option<string>,
    isAutomaticPayment: Option<bool>)

  /** The range of a Swift `Int` on a 64-bit platform. */
  const Int64Min: int := -0x8000_0000_0000_0000
  const Int64Max: int := 0x7FFF_FFFF_FFFF_FFFF

  predicate IsInt64(n: int)
  {
    Int64Min <= n <= Int64Max
  }

  /** What the container holds under a key, if anything. */
  function Field(c: map<Key, Value>, k: Key): (v: Option<Value>)
    ensures v.Some? <==> k in c
    ensures v.Some? ==> v.value == c[k]
  {
    if k in c then Some(c[k]) else None
  }

  /** `decode(String.self, forKey:)`: succeeds on a JSON string only. */
  function AsString(v: Option<Value>): (r: Option<string>)
    ensures r.Some? <==> v.Some? && v.value.JString?
    ensures r.Some? ==> v.value == JString(r.value)
  {
    if v.Some? && v.value.JString? then Some(v.value.s) else None
  }

  /** `decode(Double.self, forKey:)`: succeeds on any JSON number. */
  function AsDouble(v: Option<Value>): (r: Option<real>)
    ensures r.Some? <==> v.Some? && v.value.JNumber?
    ensures r.Some? ==> v.value == JNumber(r.value)
  {
    if v.Some? && v.value.JNumber? then Some(v.value.n) else None
  }

  /** `decode(Int.self, forKey:)`: succeeds on a whole JSON number that fits
      in an `Int`. */
  function AsInt(v: Option<Value>): (r: Option<int>)
    ensures r.Some? ==> v == Some(JNumber(r.value as real)) && IsInt64(r.value)
    ensures forall n :: v == Some(JNumber(n as real)) && IsInt64(n) ==> r == Some(n)
    ensures v.Some? && v.value.JNumber? && v.value.n != v.value.n.Floor as real ==> r.None?
  {
    if v.Some? && v.value.JNumber? && v.value.n == v.value.n.Floor as real && IsInt64(v.value.n.Floor)
    then Some(v.value.n.Floor)
    else None
  }

  /** `decode(Bool.self, forKey:)`: succeeds on a JSON boolean only. */
  function AsBool(v: Option<Value>): (r: Option<bool>)
    ensures r.Some? <==> v.Some? && v.value.JBool?
    ensures r.Some? ==> v.value == JBool(r.value)
  {
    if v.Some? && v.value.JBool? then Some(v.value.b) else None
  }

  /** The identifier `init(from:)` settles on: `id` when it decodes as a
      string, otherwise `property_id`. */
  function DecodedId(c: map<Key, Value>): (r: Option<string>)
    ensures AsString(Field(c, Id)).Some? ==> r == AsString(Field(c, Id))
    ensures AsString(Field(c, Id)).None? ==> r == AsString(Field(c, PropertyId))
  {
    match AsString(Field(c, Id))
    case Some(id) => Some(id)
    case None => AsString(Field(c, PropertyId))
  }

  /** `init(from:)`: `None` when it throws. The identifier, `type`,
      `initial_amount`, `years` and `monthly_payment` are required; every
      other field is read with `try?`, so a missing or mistyped one becomes
      `nil` without failing the whole record. */
  function Decoded(c: map<Key, Value>): (r: Option<Mortgage>)
    ensures r.Some? <==>
      DecodedId(c).Some? && AsString(Field(c, Type)).Some? && AsDouble(Field(c, InitialAmount)).Some?
      && AsInt(Field(c, Years)).Some? && AsDouble(Field(c, MonthlyPayment)).Some?
    ensures r.Some? ==> Some(r.value.id) == DecodedId(c)
    ensures r.Some? ==> Some(r.value.kind) == AsString(Field(c, Type))
    ensures r.Some? ==> Some(r.value.initialAmount) == AsDouble(Field(c, InitialAmount))
    ensures r.Some? ==> Some(r.value.years) == AsInt(Field(c, Years))
    ensures r.Some? ==> Some(r.value.monthlyPayment) == AsDouble(Field(c, MonthlyPayment))
  {
    var id := DecodedId(c);
    var kind := AsString(Field(c, Type));
    var initialAmount := AsDouble(Field(c, InitialAmount));
    var years := AsInt(Field(c, Years));
    var monthlyPayment := AsDouble(Field(c, MonthlyPayment));
    if id.None? || kind.None? || initialAmount.None? || years.None? || monthlyPayment.None? then None
    else
      Some(Mortgage(
        id.value, kind.value, initialAmount.value, years.value,
        AsDouble(Field(c, InterestRateFixed)),
        AsDouble(Field(c, InterestRateVariable)),
        monthlyPayment.value,
        AsString(Field(c, StartDate)),
        AsString(Field(c, EndDate)),
        AsString(Field(c, BankName)),
        AsString(Field(c, AccountNumber)),
        AsDouble(Field(c, TotalToPay)),
        AsInt(Field(c, PaymentDay)),
        AsInt(Field(c, FixedRatePeriod)),
        AsString(Field(c, ReferenceNumber)),
        AsString(Field(c, Description)),
        AsBool(Field(c, IsAutomaticPayment))))
  }

  /** A record that decodes leaves each optional field `nil` exactly when
      the object has no value of the right kind under its key. */
  lemma DecodedOptionals(c: map<Key, Value>)
    requires Decoded(c).Some?
    ensures var m := Decoded(c).value;
      && (m.interestRateFixed.Some? <==> InterestRateFixed in c && c[InterestRateFixed].JNumber?)
      && (m.interestRateVariable.Some? <==> InterestRateVariable in c && c[InterestRateVariable].JNumber?)
      && (m.startDate.Some? <==> StartDate in c && c[StartDate].JString?)
      && (m.endDate.Some? <==> EndDate in c && c[EndDate].JString?)
      && (m.bankName.Some? <==> BankName in c && c[BankName].JString?)
      && (m.accountNumber.Some? <==> AccountNumber in c && c[AccountNumber].JString?)
      && (m.totalToPay.Some? <==> TotalToPay in c && c[TotalToPay].JNumber?)
      && (m.paymentDay.Some? ==> c[PaymentDay] == JNumber(m.paymentDay.value as real))
      && (forall n :: PaymentDay in c && c[PaymentDay] == JNumber(n as real) && IsInt64(n) ==>
            m.paymentDay == Some(n))
      && (m.fixedRatePeriod.Some? ==> c[FixedRatePeriod] == JNumber(m.fixedRatePeriod.value as real))
      && (forall n :: FixedRatePeriod in c && c[FixedRatePeriod] == JNumber(n as real) && IsInt64(n) ==>
            m.fixedRatePeriod == Some(n))
      && (m.referenceNumber.Some? <==> ReferenceNumber in c && c[ReferenceNumber].JString?)
      && (m.description.Some? <==> Description in c && c[Description].JString?)
      && (m.isAutomaticPayment.Some? <==> IsAutomaticPayment in c && c[IsAutomaticPayment].JBool?)
  {
  }

  /** `init(from:)` as written: each field assigned in turn, returning at the
      first required field that does not decode. */
  method Decode(c: map<Key, Value>) returns (r: Option<Mortgage>)
    ensures r == Decoded(c)
  {
    var id := AsString(Field(c, Id));
    if id.None? {
      id := AsString(Field(c, PropertyId));
      if id.None? {
        return None;
      }
    }
    var kind := AsString(Field(c, Type));
    if kind.None? {
      return None;
    }
    var initialAmount := AsDouble(Field(c, InitialAmount));
    if initialAmount.None? {
      return None;
    }
    var years := AsInt(Field(c, Years));
    if years.None? {
      return None;
    }
    var interestRateFixed := AsDouble(Field(c, InterestRateFixed));
    var interestRateVariable := AsDouble(Field(c, InterestRateVariable));
    var monthlyPayment := AsDouble(Field(c, MonthlyPayment));
    if monthlyPayment.None? {
      return None;
    }
    var startDate := AsString(Field(c, StartDate));
    var endDate := AsString(Field(c, EndDate));
    var bankName := AsString(Field(c, BankName));
    var accountNumber := AsString(Field(c, AccountNumber));
    var totalToPay := AsDouble(Field(c, TotalToPay));
    var paymentDay := AsInt(Field(c, PaymentDay));
    var fixedRatePeriod := AsInt(Field(c, FixedRatePeriod));
    var referenceNumber := AsString(Field(c, ReferenceNumber));
    var description := AsString(Field(c, Description));
    var isAutomaticPayment := AsBool(Field(c, IsAutomaticPayment));
    r := Some(Mortgage(id.value, kind.value, initialAmount.value, years.value, interestRateFixed,
                       interestRateVariable, monthlyPayment.value, startDate, endDate, bankName, accountNumber,
                       totalToPay, paymentDay, fixedRatePeriod, referenceNumber, description, isAutomaticPayment));
  }

  function StringIfPresent(o: Option<string>): Option<Value>
  {
    match o
    case Some(s) => Some(JString(s))
    case None => None
  }

  function DoubleIfPresent(o: Option<real>): Option<Value>
  {
    match o
    case Some(x) => Some(JNumber(x))
    case None => None
  }

  function IntIfPresent(o: Option<int>): Option<Value>
  {
    match o
    case Some(n) => Some(JNumber(n as real))
    case None => None
  }

  function BoolIfPresent(o: Option<bool>): Option<Value>
  {
    match o
    case Some(b) => Some(JBool(b))
    case None => None
  }

  /** What `encode(to:)` writes under a key: the required fields always, an
      optional one when present (`encodeIfPresent`), and never `property_id`
      nor `interest_rate`, which are not fields of the record. */
  function EncodedValue(m: Mortgage, k: Key): (v: Option<Value>)
    ensures k == PropertyId || k == InterestRate ==> v.None?
  {
    match k
    case Id => Some(JString(m.id))
    case Type => Some(JString(m.kind))
    case InitialAmount => Some(JNumber(m.initialAmount))
    case Years => Some(JNumber(m.years as real))
    case InterestRateFixed => DoubleIfPresent(m.interestRateFixed)
    case InterestRateVariable => DoubleIfPresent(m.interestRateVariable)
    case MonthlyPayment => Some(JNumber(m.monthlyPayment))
    case StartDate => StringIfPresent(m.startDate)
    case EndDate => StringIfPresent(m.endDate)
    case BankName => StringIfPresent(m.bankName)
    case AccountNumber => StringIfPresent(m.accountNumber)
    case TotalToPay => DoubleIfPresent(m.totalToPay)
    case PaymentDay => IntIfPresent(m.paymentDay)
    case FixedRatePeriod => IntIfPresent(m.fixedRatePeriod)
    case ReferenceNumber => StringIfPresent(m.referenceNumber)
    case Description => StringIfPresent(m.description)
    case IsAutomaticPayment => BoolIfPresent(m.isAutomaticPayment)
    case PropertyId => None
    case InterestRate => None
  }

  /** The keyed container `encode(to:)` fills, key by key. */
  function Encoded(m: Mortgage): (c: map<Key, Value>)
    ensures forall k :: Field(c, k) == EncodedValue(m, k)
  {
    map k: Key | EncodedValue(m, k).Some? :: EncodedValue(m, k).value
  }

  /** The number of `encode`/`encodeIfPresent` calls `encode(to:)` makes. */
  const Calls := 17

  /** The key of each call, in the order `encode(to:)` makes them. */
  function EncodeCall(n: nat): Key
  {
    match n
    case 0 => Id
    case 1 => Type
    case 2 => InitialAmount
    case 3 => Years
    case 4 => InterestRateFixed
    case 5 => InterestRateVariable
    case 6 => MonthlyPayment
    case 7 => StartDate
    case 8 => EndDate
    case 9 => BankName
    case 10 => AccountNumber
    case 11 => TotalToPay
    case 12 => PaymentDay
    case 13 => FixedRatePeriod
    case 14 => ReferenceNumber
    case 15 => Description
    case _ => IsAutomaticPayment
  }

  /** The position of a key's call, or `Calls` for the two keys no call
      writes. */
  function CallIndex(k: Key): (n: nat)
    ensures n <= Calls
    ensures n < Calls <==> k != PropertyId && k != InterestRate
    ensures n < Calls ==> EncodeCall(n) == k
  {
    match k
    case Id => 0
    case Type => 1
    case InitialAmount => 2
    case Years => 3
    case InterestRateFixed => 4
    case InterestRateVariable => 5
    case MonthlyPayment => 6
    case StartDate => 7
    case EndDate => 8
    case BankName => 9
    case AccountNumber => 10
    case TotalToPay => 11
    case PaymentDay => 12
    case FixedRatePeriod => 13
    case ReferenceNumber => 14
    case Description => 15
    case IsAutomaticPayment => 16
    case PropertyId => Calls
    case InterestRate => Calls
  }

  /** `encode`/`encodeIfPresent` on a container: the key is written when
      there is a value. */
  function PutIfPresent(c: map<Key, Value>, k: Key, v: Option<Value>): map<Key, Value>
  {
    match v
    case Some(x) => c[k := x]
    case None => c
  }

  /** The container after the first `n` calls of `encode(to:)`. */
  function EncodedUpTo(m: Mortgage, n: nat): map<Key, Value>
    requires n <= Calls
  {
    if n == 0 then map[]
    else PutIfPresent(EncodedUpTo(m, n - 1), EncodeCall(n - 1), EncodedValue(m, EncodeCall(n - 1)))
  }

  /** After `n` calls the container holds, under each key whose call is
      among them, what `EncodedValue` says, and nothing under the others:
      no call overwrites another's key. */
  lemma {:induction false} EncodedUpToFields(m: Mortgage, n: nat)
    requires n <= Calls
    ensures forall k :: Field(EncodedUpTo(m, n), k) == if CallIndex(k) < n then EncodedValue(m, k) else None
  {
    if n > 0 {
      EncodedUpToFields(m, n - 1);
      forall k
        ensures Field(EncodedUpTo(m, n), k) == if CallIndex(k) < n then EncodedValue(m, k) else None
      {
        if CallIndex(k) == n - 1 {
          assert EncodeCall(n - 1) == k;
        } else {
          assert EncodeCall(n - 1) != k by {
            assert CallIndex(EncodeCall(n - 1)) == n - 1;
          }
        }
      }
    }
  }

  /** All the calls together fill the container `Encoded` describes. */
  lemma EncodedCalls(m: Mortgage)
    ensures EncodedUpTo(m, Calls) == Encoded(m)
  {
    var c, e := EncodedUpTo(m, Calls), Encoded(m);
    EncodedUpToFields(m, Calls);
    forall k | k in c
      ensures k in e && c[k] == e[k]
    {
      assert Field(c, k) == EncodedValue(m, k);
    }
    forall k | k in e
      ensures k in c
    {
      assert Field(c, k) == EncodedValue(m, k);
    }
  }

  /** `encode(to:)`: the `encode` and `encodeIfPresent` calls made on the
      container in their order, each writing its key's value when there is
      one. */
  method Encode(m: Mortgage) returns (container: map<Key, Value>)
    ensures container == Encoded(m)
  {
    container := map[];
    for n := 0 to Calls
      invariant container == EncodedUpTo(m, n)
    {
      var k := EncodeCall(n);
      container := PutIfPresent(container, k, EncodedValue(m, k));
    }
    EncodedCalls(m);
  }

  /** A record whose integers fit in an `Int`, as every decoded record's do. */
  predicate Valid(m: Mortgage)
  {
    IsInt64(m.years)
    && (m.paymentDay.Some? ==> IsInt64(m.paymentDay.value))
    && (m.fixedRatePeriod.Some? ==> IsInt64(m.fixedRatePeriod.value))
  }

  /** Every record that decodes is valid. */
  lemma DecodedValid(c: map<Key, Value>)
    requires Decoded(c).Some?
    ensures Valid(Decoded(c).value)
  {
  }

  /** Each `decode` reads back what the matching `encodeIfPresent` wrote. */
  lemma StringBack(o: Option<string>)
    ensures AsString(StringIfPresent(o)) == o
  {
  }

  lemma DoubleBack(o: Option<real>)
    ensures AsDouble(DoubleIfPresent(o)) == o
  {
  }

  lemma IntBack(o: Option<int>)
    requires o.Some? ==> IsInt64(o.value)
    ensures AsInt(IntIfPresent(o)) == o
  {
  }

  lemma BoolBack(o: Option<bool>)
    ensures AsBool(BoolIfPresent(o)) == o
  {
  }

  /** The optional string fields read back from what `encode(to:)` writes
      are the ones it was given. */
  lemma StringValuesBack(m: Mortgage)
    ensures AsString(EncodedValue(m, StartDate)) == m.startDate
    ensures AsString(EncodedValue(m, EndDate)) == m.endDate
    ensures AsString(EncodedValue(m, BankName)) == m.bankName
    ensures AsString(EncodedValue(m, AccountNumber)) == m.accountNumber
    ensures AsString(EncodedValue(m, ReferenceNumber)) == m.referenceNumber
    ensures AsString(EncodedValue(m, Description)) == m.description
  {
    StringBack(m.startDate);
    StringBack(m.endDate);
    StringBack(m.bankName);
    StringBack(m.accountNumber);
    StringBack(m.referenceNumber);
    StringBack(m.description);
  }

  /** The optional number and boolean fields read back from what
      `encode(to:)` writes are the ones it was given. */
  lemma OtherValuesBack(m: Mortgage)
    requires Valid(m)
    ensures AsDouble(EncodedValue(m, InterestRateFixed)) == m.interestRateFixed
    ensures AsDouble(EncodedValue(m, InterestRateVariable)) == m.interestRateVariable
    ensures AsDouble(EncodedValue(m, TotalToPay)) == m.totalToPay
    ensures AsInt(EncodedValue(m, PaymentDay)) == m.paymentDay
    ensures AsInt(EncodedValue(m, FixedRatePeriod)) == m.fixedRatePeriod
    ensures AsBool(EncodedValue(m, IsAutomaticPayment)) == m.isAutomaticPayment
  {
    DoubleBack(m.interestRateFixed);
    DoubleBack(m.interestRateVariable);
    DoubleBack(m.totalToPay);
    IntBack(m.paymentDay);
    IntBack(m.fixedRatePeriod);
    BoolBack(m.isAutomaticPayment);
  }

  /** Decoding what `encode(to:)` wrote gives the record back: the identifier
      comes from `id`, since no `property_id` is written, and every optional
      field comes back present or `nil` as it was. */
  lemma RoundTrip(m: Mortgage)
    requires Valid(m)
    ensures Decoded(Encoded(m)) == Some(m)
  {
    var c := Encoded(m);
    assert DecodedId(c) == Some(m.id) by {
      assert Field(c, Id) == Some(JString(m.id));
    }
    assert AsString(Field(c, Type)) == Some(m.kind) by {
      assert Field(c, Type) == Some(JString(m.kind));
    }
    assert AsDouble(Field(c, InitialAmount)) == Some(m.initialAmount) by {
      assert Field(c, InitialAmount) == Some(JNumber(m.initialAmount));
    }
    assert AsInt(Field(c, Years)) == Some(m.years) by {
      assert Field(c, Years) == Some(JNumber(m.years as real));
    }
    assert AsDouble(Field(c, MonthlyPayment)) == Some(m.monthlyPayment) by {
      assert Field(c, MonthlyPayment) == Some(JNumber(m.monthlyPayment));
    }
    StringValuesBack(m);
    OtherValuesBack(m);
    assert Field(c, InterestRateFixed) == EncodedValue(m, InterestRateFixed);
    assert Field(c, InterestRateVariable) == EncodedValue(m, InterestRateVariable);
    assert Field(c, StartDate) == EncodedValue(m, StartDate);
    assert Field(c, EndDate) == EncodedValue(m, EndDate);
    assert Field(c, BankName) == EncodedValue(m, BankName);
    assert Field(c, AccountNumber) == EncodedValue(m, AccountNumber);
    assert Field(c, TotalToPay) == EncodedValue(m, TotalToPay);
    assert Field(c, PaymentDay) == EncodedValue(m, PaymentDay);
    assert Field(c, FixedRatePeriod) == EncodedValue(m, FixedRatePeriod);
    assert Field(c, ReferenceNumber) == EncodedValue(m, ReferenceNumber);
    assert Field(c, Description) == EncodedValue(m, Description);
    assert Field(c, IsAutomaticPayment) == EncodedValue(m, IsAutomaticPayment);
  }

  /** The keyed container a JSON object presents: the value under the name
      of each `Key`. `Key` lists the mortgage payload keys, which include
      `Mortgage.CodingKeys` and also `interest_rate`; `Decoded` never reads
      that one. Names that are not a `Key`'s are not seen. */
  function Keyed(obj: Payload): (c: map<Key, Value>)
    ensures forall k :: k in c <==> k.JsonName() in obj
    ensures forall k :: k in c ==> c[k] == obj[k.JsonName()]
  {
    map k: Key | k.JsonName() in obj :: obj[k.JsonName()]
  }

  /** Reading a container back from the JSON object it was written as gives
      the same container. */
  lemma KeyedToJson(fields: map<Key, Value>)
    ensures Keyed(ToJson(fields)) == fields
  {
    var p := ToJson(fields);
    forall k: Key | k.JsonName() in p
      ensures k in fields
    {
      var k' :| k' in fields && k'.JsonName() == k.JsonName();
      NamesDistinct();
    }
  }

  /** The same round trip through the JSON text's object: a mortgage encoded
      under its key names and decoded from them comes back unchanged. */
  lemma JsonRoundTrip(m: Mortgage)
    requires Valid(m)
    ensures Decoded(Keyed(ToJson(Encoded(m)))) == Some(m)
  {
    KeyedToJson(Encoded(m));
    RoundTrip(m);
  }

  /** An object from the property endpoints, which name the mortgage's
      identifier `property_id` and have no `id`, still decodes when its other
      required fields do, and takes that identifier. */
  lemma PropertyIdFallback(c: map<Key, Value>, pid: string)
    requires Id !in c && PropertyId in c && c[PropertyId] == JString(pid)
    requires AsString(Field(c, Type)).Some? && AsDouble(Field(c, InitialAmount)).Some?
    requires AsInt(Field(c, Years)).Some? && AsDouble(Field(c, MonthlyPayment)).Some?
    ensures Decoded(c).Some? && Decoded(c).value.id == pid
  {
  }
}
