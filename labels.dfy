/** The Spanish labels the pickers and cards show for the codes the backend
    stores (`typeLabel`, `frequencyLabel`, `categoryLabel` and the paid
    badge). A code outside a table falls through to `String.capitalized`,
    which is a parameter here. */
module Labels {
  import opened Wrappers
  import opened Text

  /** The picker lists, in the order the pickers show them. */
  const IncomeTypes: seq<string> := ["rent", "deposit", "sale", "interest", "dividends", "other"]
  const ExpenseTypes: seq<string> :=
    ["maintenance", "utilities", "taxes", "insurance", "mortgage", "repairs", "improvements", "management", "other"]
  const FrequencyOptions: seq<string> := ["monthly", "quarterly", "yearly"]
  const CategoryOptions: seq<string> :=
    ["nota_simple", "certificado_energia", "factura", "contrato", "recibo", "otro"]

  /** The labels of the picker lists, position by position. */
  const IncomeTypeLabels: seq<string> := ["Alquiler", "Depósito", "Venta", "Interés", "Dividendos", "Otro"]
  const ExpenseTypeLabels: seq<string> :=
    ["Mantenimiento", "Suministros", "Impuestos", "Seguro", "Hipoteca", "Reparaciones", "Mejoras", "Gestión", "Otro"]
  const FrequencyLabels: seq<string> := ["Mensual", "Trimestral", "Anual"]
  const CategoryLabels: seq<string> :=
    ["Nota simple", "Certificado energético", "Factura", "Contrato", "Recibo", "Otro"]

  /** The label a table gives `code`: the label at the code's position, or
      `fallback` when the code is not listed. */
  function Lookup(codes: seq<string>, labels: seq<string>, code: string, fallback: string): (r: string)
    requires |codes| == |labels|
    ensures forall k :: 0 <= k < |codes| && codes[k] == code && code !in codes[..k] ==> r == labels[k]
    ensures code !in codes ==> r == fallback
  {
    if codes == [] then fallback
    else if codes[0] == code then labels[0]
    else
      var r := Lookup(codes[1..], labels[1..], code, fallback);
      assert forall k :: 1 <= k < |codes| ==> codes[1..][k - 1] == codes[k] && labels[1..][k - 1] == labels[k];
      assert forall k :: 1 <= k < |codes| ==> codes[1..][..k - 1] == codes[1..k];
      r
  }

  /** `typeLabel` of the income form and the income card: a `switch` over
      the income codes with `capitalized` as its default branch. */
  function IncomeTypeLabel(t: string, capitalized: string -> string): string
  {
    Lookup(IncomeTypes, IncomeTypeLabels, t, capitalized(t))
  }

  /** `typeLabel` of the expense form and the expense card. */
  function ExpenseTypeLabel(t: string, capitalized: string -> string): string
  {
    Lookup(ExpenseTypes, ExpenseTypeLabels, t, capitalized(t))
  }

  /** `frequencyLabel` of both entry forms. */
  function FrequencyLabel(f: string, capitalized: string -> string): string
  {
    Lookup(FrequencyOptions, FrequencyLabels, f, capitalized(f))
  }

  /** `categoryLabel` of the document upload section. */
  function CategoryLabel(c: string, capitalized: string -> string): string
  {
    Lookup(CategoryOptions, CategoryLabels, c, capitalized(c))
  }

  /** A table whose codes are all different gives each listed code its own
      label, whatever the fallback. */
  lemma LookupListed(codes: seq<string>, labels: seq<string>, k: nat, fallback: string)
    requires |codes| == |labels| && k < |codes| && Distinct(codes)
    ensures Lookup(codes, labels, codes[k], fallback) == labels[k]
  {
    assert codes[k] !in codes[..k] by {
      forall i | 0 <= i < k
        ensures codes[..k][i] != codes[k]
      {
        assert codes[..k][i] == codes[i];
      }
    }
  }

  /** Every income code the picker offers has its own label: none reaches
      the `capitalized` fallback, and no two share a label. */
  lemma IncomeTypesLabelled(capitalized: string -> string)
    ensures forall k :: 0 <= k < |IncomeTypes| ==> IncomeTypeLabel(IncomeTypes[k], capitalized) == IncomeTypeLabels[k]
    ensures Distinct(IncomeTypeLabels)
  {
    assert Apart(IncomeTypeLabels);
    ApartDistinct(IncomeTypeLabels);
    assert Apart(IncomeTypes);
    ApartDistinct(IncomeTypes);
    forall k | 0 <= k < |IncomeTypes| {
      LookupListed(IncomeTypes, IncomeTypeLabels, k, capitalized(IncomeTypes[k]));
    }
  }

  /** The same for the nine expense codes. */
  lemma ExpenseTypesLabelled(capitalized: string -> string)
    ensures forall k :: 0 <= k < |ExpenseTypes| ==>
      ExpenseTypeLabel(ExpenseTypes[k], capitalized) == ExpenseTypeLabels[k]
    ensures Distinct(ExpenseTypeLabels)
  {
    assert Apart(ExpenseTypeLabels);
    ApartDistinct(ExpenseTypeLabels);
    assert Apart(ExpenseTypes);
    ApartDistinct(ExpenseTypes);
    forall k | 0 <= k < |ExpenseTypes| {
      LookupListed(ExpenseTypes, ExpenseTypeLabels, k, capitalized(ExpenseTypes[k]));
    }
  }

  /** The same for the three frequencies. */
  lemma FrequenciesLabelled(capitalized: string -> string)
    ensures forall k :: 0 <= k < |FrequencyOptions| ==>
      FrequencyLabel(FrequencyOptions[k], capitalized) == FrequencyLabels[k]
    ensures Distinct(FrequencyLabels)
  {
    assert Apart(FrequencyLabels);
    ApartDistinct(FrequencyLabels);
    assert Apart(FrequencyOptions);
    ApartDistinct(FrequencyOptions);
    forall k | 0 <= k < |FrequencyOptions| {
      LookupListed(FrequencyOptions, FrequencyLabels, k, capitalized(FrequencyOptions[k]));
    }
  }

  /** The same for the six document categories. */
  lemma CategoriesLabelled(capitalized: string -> string)
    ensures forall k :: 0 <= k < |CategoryOptions| ==>
      CategoryLabel(CategoryOptions[k], capitalized) == CategoryLabels[k]
    ensures Distinct(CategoryLabels)
  {
    assert Apart(CategoryLabels);
    ApartDistinct(CategoryLabels);
    assert Apart(CategoryOptions);
    ApartDistinct(CategoryOptions);
    forall k | 0 <= k < |CategoryOptions| {
      LookupListed(CategoryOptions, CategoryLabels, k, capitalized(CategoryOptions[k]));
    }
  }

  /** The badge of an expense card: "Pagado" or "Pendiente" by `is_paid`, and
      no badge when the expense does not say. */
  function PaidLabel(isPaid: Option<bool>): (r: Option<string>)
    ensures r.None? <==> isPaid.None?
    ensures r == Some("Pagado") <==> isPaid == Some(true)
    ensures r == Some("Pendiente") <==> isPaid == Some(false)
  {
    match isPaid
    case None => None
    case Some(paid) => Some(if paid then "Pagado" else "Pendiente")
  }
}
