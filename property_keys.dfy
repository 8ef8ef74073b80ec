/** The keys of the payload the property form sends (AddPropertySheet.swift),
    as an enumeration named at the end like the mortgage keys. */
module PropertyKeys {
  import opened Wrappers
  import opened Json

  datatype PropertyKey =
    | Name | Address | PropertyType | PurchasePrice | CurrentValue | Bedrooms | Bathrooms | SquareMeters
    | PropertyDescription | Amenities | IsRented | RentalPrice | LastRenovation | Notes | AttachedMortgage
  {
    /** The JSON name of the key. */
    function JsonName(): string
    {
      match this
      case Name => "name"
      case Address => "address"
      case PropertyType => "property_type"
      case PurchasePrice => "purchase_price"
      case CurrentValue => "current_value"
      case Bedrooms => "bedrooms"
      case Bathrooms => "bathrooms"
      case SquareMeters => "square_meters"
      case PropertyDescription => "description"
      case Amenities => "amenities"
      case IsRented => "is_rented"
      case RentalPrice => "rental_price"
      case LastRenovation => "last_renovation"
      case Notes => "notes"
      case AttachedMortgage => "mortgage"
    }
  }

  function PropertyKeyName(k: PropertyKey): string
  {
    k.JsonName()
  }

  /** The key a JSON name stands for, if any. */
  function PropertyKeyNamed(s: string): Option<PropertyKey>
  {
    match |s|
    case 4 => if s == "name" then Some(Name) else None
    case 5 => if s == "notes" then Some(Notes) else None
    case 7 => if s == "address" then Some(Address) else None
    case 8 => if s == "bedrooms" then Some(Bedrooms) else if s == "mortgage" then Some(AttachedMortgage) else None
    case 9 => if s == "bathrooms" then Some(Bathrooms) else if s == "amenities" then Some(Amenities) else if s == "is_rented" then Some(IsRented) else None
    case 11 => if s == "description" then Some(PropertyDescription) else None
    case 12 => if s == "rental_price" then Some(RentalPrice) else None
    case 13 => if s == "property_type" then Some(PropertyType) else if s == "current_value" then Some(CurrentValue) else if s == "square_meters" then Some(SquareMeters) else None
    case 14 => if s == "purchase_price" then Some(PurchasePrice) else None
    case 15 => if s == "last_renovation" then Some(LastRenovation) else None
    case _ => None
  }

  /** `PropertyKeyNamed` reads back every key's name. */
  lemma PropertyNameRoundTrip(k: PropertyKey)
    ensures PropertyKeyNamed(k.JsonName()) == Some(k)
  {
  }

  /** No two keys share a name. */
  lemma PropertyNamesDistinct()
    ensures forall a: PropertyKey, b: PropertyKey :: a.JsonName() == b.JsonName() ==> a == b
  {
    forall a: PropertyKey, b: PropertyKey | a.JsonName() == b.JsonName()
      ensures a == b
    {
      PropertyNameRoundTrip(a);
      PropertyNameRoundTrip(b);
    }
  }

  /** A map keyed by `PropertyKey` written as a JSON object. */
  function PropertyJson(fields: map<PropertyKey, Value>): (p: Payload)
    ensures forall k :: k in fields ==> k.JsonName() in p && p[k.JsonName()] == fields[k]
    ensures forall s :: s in p ==> exists k :: k in fields && k.JsonName() == s
  {
    PropertyNamesDistinct();
    Named(fields, PropertyKeyName)
  }
}
