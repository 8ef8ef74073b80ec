/** The helpers of the income and expense lists (IncomeView.swift,
    ExpensesView.swift): the property name shown on a card and the date
    reformatting. Both views carry identical copies of them. */
module ListViews {
  import opened Wrappers
  import opened Platform
  import opened Models

  const UnknownProperty := "Propiedad desconocida"

  /** `properties.first(where: { $0._id == id })`. */
  function FirstWithId(properties: seq<PropertyName>, id: string): (r: Option<nat>)
    ensures r.Some? ==> r.value < |properties| && properties[r.value].id == id
    ensures r.Some? ==> forall k :: 0 <= k < r.value ==> properties[k].id != id
    ensures r.None? <==> forall k :: 0 <= k < |properties| ==> properties[k].id != id
  {
    if properties == [] then None
    else if properties[0].id == id then Some(0)
    else
      match FirstWithId(properties[1..], id)
      case None => None
      case Some(k) => Some(k + 1)
  }

  /** `getPropertyName`: the name of the first property with that id, or
      "Propiedad desconocida". */
  function PropertyNameFor(properties: seq<PropertyName>, id: string): (name: string)
    ensures (forall k :: 0 <= k < |properties| ==> properties[k].id != id) ==> name == UnknownProperty
    ensures forall k :: (0 <= k < |properties| && properties[k].id == id
                         && forall j :: 0 <= j < k ==> properties[j].id != id) ==> name == properties[k].name
  {
    match FirstWithId(properties, id)
    case None => UnknownProperty
    case Some(k) => properties[k].name
  }

  /** The two layouts the cards try, in order. */
  const DateTimeLayout := "yyyy-MM-dd'T'HH:mm:ss"
  const DateLayout := "yyyy-MM-dd"

  /** `formatDate`: the first layout that reads the text decides the
      `dd-MM-yyyy` output; a text neither reads is shown as it is. */
  method FormatDate(dateString: string, fd: Foundation) returns (r: string)
    ensures fd.dateIn(DateTimeLayout, dateString).Some? ==>
      r == fd.dayMonthYear(fd.dateIn(DateTimeLayout, dateString).value)
    ensures fd.dateIn(DateTimeLayout, dateString).None? && fd.dateIn(DateLayout, dateString).Some? ==>
      r == fd.dayMonthYear(fd.dateIn(DateLayout, dateString).value)
    ensures fd.dateIn(DateTimeLayout, dateString).None? && fd.dateIn(DateLayout, dateString).None? ==>
      r == dateString
  {
    var formats := [DateTimeLayout, DateLayout];
    var i := 0;
    while i < |formats|
      invariant 0 <= i <= |formats|
      invariant forall j :: 0 <= j < i ==> fd.dateIn(formats[j], dateString).None?
    {
      var date := fd.dateIn(formats[i], dateString);
      if date.Some? {
        return fd.dayMonthYear(date.value);
      }
      i := i + 1;
    }
    assert formats[0] == DateTimeLayout && formats[1] == DateLayout;
    return dateString;
  }
}
