# PropieXpert forms, payloads and the mortgage codec in Dafny

PropieXpert is an iOS app for people who own rental properties. They record
properties, mortgages, incomes and expenses, and the app stores them through
a REST backend at `https://api.propiexpert.com/`. Almost all of the app is
SwiftUI screens and network calls. What it decides on its own happens on the
client side, and that is what this project models:

- **Income and expense forms** (`AddIncomeSheet`, `AddExpenseSheet`):
  - the ordered guard chain and its Spanish error messages;
  - the JSON payload, whose keys depend on the recurrence, due-date and
    payment switches;
  - PUT for an edited entry, POST for a new one;
  - the form filled from a stored record;
  - for incomes, the multipart/form-data body of the document upload
    (section 5.1.1 of RFC 2046, RFC 7578) and the id read back from the save
    response.
- **Property form** (`AddPropertySheet`):
  - the guard chain, with the mortgage checks only when a mortgage is added;
  - the amenities list (split on `,`, trim, drop empty pieces);
  - the mortgage computed alongside: rate by type, payment guard, total,
    end date;
  - the request it sends.
- **Mortgage form** (`MortgageSheet`):
  - decimal parsing that accepts a comma;
  - the displayed monthly payment and total;
  - the form filled from a stored mortgage when editing (`onAppear`);
  - the two checks, the payload, and the request or requests it sends.
- **`Mortgage` record**: its hand-written `Codable` decoder (the `id` falls
  back to `property_id`; required and optional fields) and encoder (optional
  fields only when present). Decoding an encoded record gives the same record
  back, both on the keyed container and through the JSON object.
- **List helpers** (`IncomeView`, `ExpensesView`): the property name shown
  on a card, the date reformatter that tries two layouts, and the label
  tables.

Foundation is not modelled. Its calls are fields of a `Platform.Foundation`
value that the operations take as a parameter: `Double(String)`,
`Int(String)`, `DateFormatter`, the annuity formula with `pow`,
`String(format: "%.2f")`, `String(Int)`, `String(Double)`, `String.capitalized` and `URL(string:)`. The
properties are proved for every such value.

Swift code that changes state step by step is kept in that form:

- each form is a `class` with the form's state;
- `submit`, `loadInitialData` and `uploadFile` are methods with early
  returns, and the mortgage form's `onAppear` is a method too;
- the multipart body is built by appending;
- `init(from:)` and `encode(to:)` are methods over a keyed container;
- `formatDate` is a loop over its layouts.

Each method is proved equal to a pure function. The lemmas state the
properties of that function.

## Model

All source paths are under `PropieXpert/PropieXpert/Views/`.

| member | source | states |
|---|---|---|
| Json.OptNumber | PropieXpert/PropieXpert/Views/AddPropertySheet.swift:230 | A `Double?` in a payload is JSON null exactly when it is nil, and otherwise its number |
| Json.OptInt | PropieXpert/PropieXpert/Views/AddPropertySheet.swift:210-211 | An `Int?` in a payload (`payment_day`, `fixed_rate_period`) is null exactly when it is nil, and otherwise its number |
| Json.NilIfEmpty | PropieXpert/PropieXpert/Views/AddPropertySheet.swift:227 | `s.isEmpty ? nil : s` is null exactly for the empty text, and the text itself otherwise |
| Text.Prefix | PropieXpert/PropieXpert/Views/AddIncomeSheet.swift:154 | `prefix(10)` has length min(10, \|s\|) and is a prefix of s |
| Text.Trim | PropieXpert/PropieXpert/Views/AddPropertySheet.swift:142-149 | Trimming whitespace: the result is empty exactly when the text is all whitespace; it neither starts nor ends with whitespace; it only holds characters of the text; a trimmed text is left alone; the result is the text with a blank prefix and a blank suffix cut off and the middle kept as it is, so with the two ends being non-blank it is exactly `trimmingCharacters(in: .whitespaces)` |
| Text.TrimAfterBlank | PropieXpert/PropieXpert/Views/AddPropertySheet.swift:228 | Leading whitespace before a trimmed text is removed entirely |
| Text.ReplaceCommas | PropieXpert/PropieXpert/Views/MortgageSheet.swift:168-171 | Same length; every ',' becomes '.' and every other character stays; no comma is left; a text without commas is unchanged |
| Text.Split | PropieXpert/PropieXpert/Views/AddPropertySheet.swift:228 | `split(separator: ",")` yields only non-empty pieces without commas |
| Text.SplitComma | PropieXpert/PropieXpert/Views/AddPropertySheet.swift:228 | Splitting `a + "," + b` is splitting a, then splitting b |
| Text.SplitNoComma | PropieXpert/PropieXpert/Views/AddPropertySheet.swift:228 | A text without commas splits into itself, or into nothing when it is empty |
| Text.SplitJoin | PropieXpert/PropieXpert/Views/AddPropertySheet.swift:228 | Round trip: non-empty comma-free pieces joined with ',' split back into the same pieces |
| Text.TrimEach | PropieXpert/PropieXpert/Views/AddPropertySheet.swift:228 | `map { trim }` keeps the length and trims each piece at its own position |
| Text.TrimEachConcat | PropieXpert/PropieXpert/Views/AddPropertySheet.swift:228 | Trimming each piece distributes over concatenation |
| Text.NonEmpty | PropieXpert/PropieXpert/Views/AddPropertySheet.swift:228 | `filter { !$0.isEmpty }` keeps exactly the non-empty pieces: none is lost, none is added, and a list without empty pieces is unchanged |
| Text.NonEmptyConcat | PropieXpert/PropieXpert/Views/AddPropertySheet.swift:228 | The filter distributes over concatenation, so order is kept |
| Text.EncodeChar | PropieXpert/PropieXpert/Views/AddIncomeSheet.swift:283-300 | A character's UTF-8 encoding is 1 to 4 bytes: one byte with its own code below 0x80, otherwise a lead byte followed by continuation bytes |
| Text.Utf8 | PropieXpert/PropieXpert/Views/AddIncomeSheet.swift:283-301 | `data(using: .utf8)` gives between 1 and 4 bytes per character |
| Text.Utf8Ascii | PropieXpert/PropieXpert/Views/AddIncomeSheet.swift:283-301 | ASCII text encodes byte for byte as its code points |
| Text.Utf8Concat | PropieXpert/PropieXpert/Views/AddIncomeSheet.swift:283-301 | Encoding two texts one after the other equals encoding them together |
| Models.CheckEntry | PropieXpert/PropieXpert/Views/AddIncomeSheet.swift:183-198 | The entry guard chain in order. Each message is returned exactly when its own check fails and every earlier check passes: property, then type, then an amount that reads as a number > 0, then date. Success happens exactly when all four pass, and carries the parsed amount |
| Models.RecurrenceKeys | PropieXpert/PropieXpert/Views/AddIncomeSheet.swift:210-216 | `frequency` and `recurrence_start_date` are present exactly when recurring. `recurrence_end_date` is present exactly when also non-empty. Both dates carry "T00:00:00", and no other key is present |
| Models.EntryPayload | PropieXpert/PropieXpert/Views/AddIncomeSheet.swift:200-216 | `property_id`, `type`, `amount`, `is_recurring` and `date`+"T00:00:00" are always present. `description` is present exactly when non-empty. The recurrence keys follow the rule above, and no key outside this set appears |
| Models.RecurrenceUpdates | PropieXpert/PropieXpert/Views/AddExpenseSheet.swift:195-201 | Setting the recurrence keys one by one, as both forms do, equals adding `RecurrenceKeys` |
| IncomeSheet.IncomeSubmission | PropieXpert/PropieXpert/Views/AddIncomeSheet.swift:180-226 | Rejected with the guard chain's message exactly when a check fails. Aborted exactly when the edit URL does not parse. Otherwise it sends the entry payload: PUT `incomes/{id}` when editing, POST `incomes/` when adding |
| IncomeSheet.IncomeFormOf | PropieXpert/PropieXpert/Views/AddIncomeSheet.swift:150-161 | The edit form: date and recurrence start are both the stored date cut to 10 characters; `isRecurring` defaults to false; `frequency` defaults to "monthly"; the end date is reset to "" |
| IncomeSheet.EditResubmitsStoredIncome | PropieXpert/PropieXpert/Views/AddIncomeSheet.swift:148-226 | Saving a loaded income unchanged sends a PUT to that income. Its date is cut to `yyyy-MM-dd`, no end date is sent, and the recurrence start equals the date |
| IncomeSheet.MimeType | PropieXpert/PropieXpert/Views/AddIncomeSheet.swift:335-341 | The preferred MIME type of the extension, else `application/octet-stream` |
| IncomeSheet.PartBytes | PropieXpert/PropieXpert/Views/AddIncomeSheet.swift:283-300 | Every part begins with the delimiter line `--boundary` CRLF |
| IncomeSheet.PartsBytes | PropieXpert/PropieXpert/Views/AddIncomeSheet.swift:278-300 | A non-empty sequence of parts begins with the delimiter line |
| IncomeSheet.PartsBytesSnoc | PropieXpert/PropieXpert/Views/AddIncomeSheet.swift:278-300 | Appending one more part appends exactly its bytes |
| IncomeSheet.Body | PropieXpert/PropieXpert/Views/AddIncomeSheet.swift:278-301 | The body always ends with the close delimiter `--boundary--` CRLF. With no parts it is just that delimiter; otherwise it begins with a delimiter line |
| IncomeSheet.FormPartsShape | PropieXpert/PropieXpert/Views/AddIncomeSheet.swift:280-300 | The file part is present exactly when the file could be read. The category part is present exactly when the category is non-empty, and likewise the description. No name repeats, and each part holds its own content |
| IncomeSheet.FileStep | PropieXpert/PropieXpert/Views/AddIncomeSheet.swift:280-288 | The five appends of a readable file are exactly its part |
| IncomeSheet.FieldStep | PropieXpert/PropieXpert/Views/AddIncomeSheet.swift:290-300 | The three appends of a non-empty text field extend the body by exactly that field's part. An empty field adds no part |
| IncomeSheet.MultipartBody | PropieXpert/PropieXpert/Views/AddIncomeSheet.swift:278-301 | The body appended piece by piece is the body of the form's parts followed by the close delimiter |
| IncomeSheet.StringAt | PropieXpert/PropieXpert/Views/AddIncomeSheet.swift:320 | `json[key] as? String` is present exactly when the key holds a JSON string |
| IncomeSheet.ExtractIncomeId | PropieXpert/PropieXpert/Views/AddIncomeSheet.swift:317-323 | Missing data or a response that is not a JSON object gives nil. Otherwise the string under "id", else the string under "_id", else nil |
| IncomeSheet.AddIncomeSheet.constructor | PropieXpert/PropieXpert/Views/AddIncomeSheet.swift:9-32 | A new form is empty with frequency "monthly", no file, and nothing loading or failed |
| IncomeSheet.AddIncomeSheet.EditingId | PropieXpert/PropieXpert/Views/AddIncomeSheet.swift:219 | There is an id to edit exactly when the sheet was opened on an income, and it is that income's id |
| IncomeSheet.AddIncomeSheet.LoadInitialData | PropieXpert/PropieXpert/Views/AddIncomeSheet.swift:148-162 | When editing, the form becomes `IncomeFormOf` the stored income; otherwise the form is untouched |
| IncomeSheet.AddIncomeSheet.Submit | PropieXpert/PropieXpert/Views/AddIncomeSheet.swift:180-226 | The guard chain with early returns sets the submission's message and builds no request. When the URL does not parse it clears `isLoading` and stops. Otherwise it sets `isLoading` and returns exactly the request `IncomeSubmission` describes |
| IncomeSheet.AddIncomeSheet.UploadFile | PropieXpert/PropieXpert/Views/AddIncomeSheet.swift:268-301 | Without a file or an income id nothing changes. Otherwise the upload flags are reset and the POST goes to `documents/income/{id}/files` with the multipart Content-Type and `Body` of the form's parts |
| ExpenseSheet.PaymentKeys | PropieXpert/PropieXpert/Views/AddExpenseSheet.swift:202-208 | `is_paid` is always present. `due_date` is present exactly when non-empty. `payment_date` is present exactly when paid and non-empty. Dates carry "T00:00:00" |
| ExpenseSheet.ExpensePayload | PropieXpert/PropieXpert/Views/AddExpenseSheet.swift:185-208 | Every entry key with the income form's value, plus the payment keys by the rule above. `description` is present exactly when non-empty. `frequency` and `recurrence_start_date` are present exactly when recurring, and `recurrence_end_date` exactly when also non-empty. Nothing else is present |
| ExpenseSheet.PaymentUpdates | PropieXpert/PropieXpert/Views/AddExpenseSheet.swift:202-208 | Setting the payment keys one by one equals adding `PaymentKeys` |
| ExpenseSheet.ExpenseSubmission | PropieXpert/PropieXpert/Views/AddExpenseSheet.swift:165-218 | The same four ordered checks and messages as incomes, with no payload on failure. Aborted exactly when the edit URL does not parse. PUT `expenses/{id}` when editing, POST `expenses/` otherwise |
| ExpenseSheet.ExpenseFormOf | PropieXpert/PropieXpert/Views/AddExpenseSheet.swift:133-146 | The edit form: the stored date cut to 10 characters. Missing due and payment dates become "". Missing `is_paid` and `is_recurring` become false, and frequency defaults to "monthly" |
| ExpenseSheet.EditedExpensePayload | PropieXpert/PropieXpert/Views/AddExpenseSheet.swift:133-208 | Resaving a loaded expense sends its date cut to `yyyy-MM-dd`, and its due and payment dates whole with "T00:00:00" appended again. No end date is sent |
| ExpenseSheet.EditResubmitsStoredExpense | PropieXpert/PropieXpert/Views/AddExpenseSheet.swift:165-218 | Saving a loaded expense unchanged sends a PUT of that payload to that expense |
| ExpenseSheet.AddExpenseSheet.constructor | PropieXpert/PropieXpert/Views/AddExpenseSheet.swift:8-27 | A new form is empty with frequency "monthly" and not paid |
| ExpenseSheet.AddExpenseSheet.EditingId | PropieXpert/PropieXpert/Views/AddExpenseSheet.swift:211 | There is an id to edit exactly when the sheet was opened on an expense |
| ExpenseSheet.AddExpenseSheet.LoadInitialData | PropieXpert/PropieXpert/Views/AddExpenseSheet.swift:131-147 | When editing, the form becomes `ExpenseFormOf` the stored expense; otherwise it is untouched |
| ExpenseSheet.AddExpenseSheet.Submit | PropieXpert/PropieXpert/Views/AddExpenseSheet.swift:165-218 | The early returns and the key-by-key payload give exactly the outcome and request `ExpenseSubmission` describes |
| Labels.Lookup | PropieXpert/PropieXpert/Views/AddIncomeSheet.swift:342-352 | A `switch` over codes: the label at a code's first position, the fallback for an unlisted code |
| Labels.LookupListed | PropieXpert/PropieXpert/Views/AddIncomeSheet.swift:342-352 | In a table without repeated codes, each listed code gets its own label |
| Labels.IncomeTypesLabelled | PropieXpert/PropieXpert/Views/IncomeView.swift:201-211 | Each of the six income codes maps to its fixed label, never to the `capitalized` default, and the labels are distinct |
| Labels.ExpenseTypesLabelled | PropieXpert/PropieXpert/Views/ExpensesView.swift:224-237 | Each of the nine expense codes maps to its fixed label, and the labels are distinct |
| Labels.FrequenciesLabelled | PropieXpert/PropieXpert/Views/AddExpenseSheet.swift:305-312 | Each frequency option maps to its label, never to the default |
| Labels.CategoriesLabelled | PropieXpert/PropieXpert/Views/AddIncomeSheet.swift:361-371 | Each document category maps to its label, never to the default |
| Labels.PaidLabel | PropieXpert/PropieXpert/Views/ExpensesView.swift:184-185 | "Pagado" exactly when `is_paid` is true, "Pendiente" exactly when false, no badge exactly when nil |
| ListViews.FirstWithId | PropieXpert/PropieXpert/Views/IncomeView.swift:121-123 | `first(where:)`: a found index matches, and no earlier one does. None exactly when nothing matches |
| ListViews.PropertyNameFor | PropieXpert/PropieXpert/Views/ExpensesView.swift:125-127 | The name of the first property with that `_id`, and "Propiedad desconocida" when none matches |
| ListViews.FormatDate | PropieXpert/PropieXpert/Views/IncomeView.swift:184-199 | The date-time layout is tried before the date layout, and the first that reads decides the `dd-MM-yyyy` output. The input comes back unchanged when neither reads |
| MortgageKeys.NameRoundTrip | PropieXpert/PropieXpert/Views/Mortgage.swift:23-42 | Every coding key's JSON name reads back as that key |
| MortgageKeys.NamesDistinct | PropieXpert/PropieXpert/Views/Mortgage.swift:23-42 | No two keys share a JSON name |
| MortgageKeys.ToJson | PropieXpert/PropieXpert/Views/Mortgage.swift:23-42 | A keyed container as a JSON object holds each field under its key's name, and nothing else |
| MortgageMath.MonthlyRate | PropieXpert/PropieXpert/Views/AddPropertySheet.swift:176-184 | "fixed" and "mixed" use the fixed rate /1200, "variable" the variable rate /1200, and any other type 0 |
| MortgageMath.MixedPaysFixed | PropieXpert/PropieXpert/Views/MortgageSheet.swift:176-183 | A mixed mortgage's rate equals a fixed one's. A variable one's does not depend on the fixed rate |
| MortgageMath.Payment | PropieXpert/PropieXpert/Views/AddPropertySheet.swift:185-188 | The annuity when principal, rate and months are all positive, otherwise exactly 0 |
| MortgageMath.Total | PropieXpert/PropieXpert/Views/AddPropertySheet.swift:189 | Payment × years × 12: at least one payment for a positive payment and years, and 0 when either is 0 |
| MortgageMath.EndInstant | PropieXpert/PropieXpert/Views/AddPropertySheet.swift:191-196 | The end instant is the start plus years × 31,557,600 s (365.25 days), later than the start for positive years |
| MortgageMath.FieldValue | PropieXpert/PropieXpert/Views/AddPropertySheet.swift:197-215 | Each mortgage key's value. `interest_rate_fixed` is the fixed rate only for fixed or mixed, and 0 otherwise. `interest_rate_variable` is the variable rate only for variable or mixed. `interest_rate` is always 0. Optional texts and ints become null |
| MortgageMath.MortgageFields | PropieXpert/PropieXpert/Views/AddPropertySheet.swift:197-215 | The mortgage dictionary has every key but `id` and `property_id`, each with its value |
| MortgageSheet.ParseDecimal | PropieXpert/PropieXpert/Views/MortgageSheet.swift:168-171 | For a text without commas, `parseDouble` is `Double(String)` itself |
| MortgageSheet.ReplaceCommasConcat | PropieXpert/PropieXpert/Views/MortgageSheet.swift:168-171 | Replacing commas distributes over concatenation |
| MortgageSheet.CommaIsPoint | PropieXpert/PropieXpert/Views/MortgageSheet.swift:168-171 | A decimal comma and a decimal point read as the same number |
| MortgageSheet.CalculatedMonthlyPayment | PropieXpert/PropieXpert/Views/MortgageSheet.swift:173-192 | "0.00" when the amount does not read or the years are not a positive integer. "0.00" when the amount or the selected rate is not positive. Otherwise the rounded annuity over years×12 months |
| MortgageSheet.CalculatedTotalToPay | PropieXpert/PropieXpert/Views/MortgageSheet.swift:193-200 | "0.00" for invalid years or an unreadable displayed payment. Otherwise the rounded displayed payment × years × 12 |
| MortgageSheet.PaymentIgnoresUnusedRate | PropieXpert/PropieXpert/Views/MortgageSheet.swift:176-183 | The displayed payment does not change with the rate field the type does not use |
| MortgageSheet.SubmittedValues | PropieXpert/PropieXpert/Views/MortgageSheet.swift:212-247 | The values sent: the checked amount and years, and the displayed payment and total read back. The start date is always present, and the end date is the start + years × 365.25 days |
| MortgageSheet.SentFields | PropieXpert/PropieXpert/Views/MortgageSheet.swift:228-247 | Every key but `id`; `property_id` is the property's, and the rest are the mortgage fields |
| MortgageSheet.MortgagePayload | PropieXpert/PropieXpert/Views/MortgageSheet.swift:228-247 | The JSON payload has each sent field under its name and never an `id` |
| MortgageSheet.MortgageSubmission | PropieXpert/PropieXpert/Views/MortgageSheet.swift:202-307 | "Importe inicial inválido." exactly when the amount is not positive. Otherwise "Años inválidos." exactly when the years are not a positive integer. Then a POST of the payload to `mortgages/` when adding; when editing, a DELETE of `mortgages/{id}` followed by that POST exactly when the URL parses, and nothing otherwise. Each of the four outcomes is given by an iff |
| MortgageSheet.MortgageSheetState.constructor | PropieXpert/PropieXpert/Views/MortgageSheet.swift:13-26 | A new form is a fixed mortgage starting now, with nothing typed |
| MortgageSheet.MortgageFormOf | PropieXpert/PropieXpert/Views/MortgageSheet.swift:131-153 | Editing fills the form from the stored mortgage: type; the amount as "%.2f"; the years; each rate, payment day and fixed-rate period as its text or "" when absent; texts absent become ""; the flag is true only when stored true. The picker date becomes the stored start date only when that reads as `yyyy-MM-dd`, and otherwise stays |
| MortgageSheet.EditResubmitsStoredMortgage | PropieXpert/PropieXpert/Views/MortgageSheet.swift:131-153 | Saving a loaded mortgage untouched deletes it and posts its replacement when the amount text reads back positive and the years text reads back as the years. It sends the stored type, years, bank, flag and parsed start date, and a payment day whose text reads back |
| MortgageSheet.FormSubmitsFields | PropieXpert/PropieXpert/Views/MortgageSheet.swift:212-247 | A valid form being edited is replaced. The payload carries its type, its years, its bank, its flag, its picker date as `yyyy-MM-dd`, and `Int(paymentDay)` or null |
| MortgageSheet.MortgageSheetState.EditingId | PropieXpert/PropieXpert/Views/MortgageSheet.swift:290-292 | The id of the mortgage being edited, present exactly when one is |
| MortgageSheet.MortgageSheetState.LoadMortgage | PropieXpert/PropieXpert/Views/MortgageSheet.swift:131-153 | When editing, the form becomes `MortgageFormOf` the stored mortgage, keeping the old picker date if the stored one does not read. When adding, nothing changes |
| MortgageSheet.MortgageSheetState.Submit | PropieXpert/PropieXpert/Views/MortgageSheet.swift:202-307 | The early returns set the message. Otherwise it sets `isLoading` and returns the delete and create requests of `MortgageSubmission` |
| MortgageCodec.Field | PropieXpert/PropieXpert/Views/Mortgage.swift:45 | The container holds a value under a key exactly when the key is in it |
| MortgageCodec.AsString | PropieXpert/PropieXpert/Views/Mortgage.swift:52 | `decode(String.self)` succeeds exactly on a JSON string |
| MortgageCodec.AsDouble | PropieXpert/PropieXpert/Views/Mortgage.swift:53 | `decode(Double.self)` succeeds exactly on a JSON number |
| MortgageCodec.AsInt | PropieXpert/PropieXpert/Views/Mortgage.swift:54 | `decode(Int.self)` succeeds exactly on a whole number within Int64, and fails on a fraction |
| MortgageCodec.AsBool | PropieXpert/PropieXpert/Views/Mortgage.swift:67 | `decode(Bool.self)` succeeds exactly on a JSON boolean |
| MortgageCodec.DecodedId | PropieXpert/PropieXpert/Views/Mortgage.swift:47-51 | The `id` string when it decodes, otherwise the `property_id` string |
| MortgageCodec.Decoded | PropieXpert/PropieXpert/Views/Mortgage.swift:44-68 | Decoding succeeds exactly when the identifier, `type`, `initial_amount`, `years` and `monthly_payment` all decode, and the record carries those values |
| MortgageCodec.DecodedOptionals | PropieXpert/PropieXpert/Views/Mortgage.swift:55-67 | Each optional field is nil exactly when its key is absent or holds the wrong kind of value; decoding never fails because of one |
| MortgageCodec.Decode | PropieXpert/PropieXpert/Views/Mortgage.swift:44-68 | `init(from:)`, field by field with early failure, is `Decoded` |
| MortgageCodec.DecodedValid | PropieXpert/PropieXpert/Views/Mortgage.swift:54 | Every decoded record's integers fit in Int64 |
| MortgageCodec.PropertyIdFallback | PropieXpert/PropieXpert/Views/Mortgage.swift:47-51 | An object without `id` but with a `property_id` string decodes when the required fields do, and takes that identifier |
| MortgageCodec.EncodedValue | PropieXpert/PropieXpert/Views/Mortgage.swift:72-88 | `property_id` is never written |
| MortgageCodec.Encoded | PropieXpert/PropieXpert/Views/Mortgage.swift:70-89 | The container holds exactly what each key's call writes: required fields always, optional ones exactly when non-nil |
| MortgageCodec.CallIndex | PropieXpert/PropieXpert/Views/Mortgage.swift:72-88 | Each key `encode(to:)` writes has exactly one call; `property_id` has none |
| MortgageCodec.EncodedUpToFields | PropieXpert/PropieXpert/Views/Mortgage.swift:72-88 | After the first n calls the container holds exactly the values of those calls' keys; no call overwrites another |
| MortgageCodec.EncodedCalls | PropieXpert/PropieXpert/Views/Mortgage.swift:70-89 | All 17 calls in order fill exactly `Encoded` |
| MortgageCodec.Encode | PropieXpert/PropieXpert/Views/Mortgage.swift:70-89 | `encode(to:)` fills the container `Encoded` describes |
| MortgageCodec.StringValuesBack | PropieXpert/PropieXpert/Views/Mortgage.swift:58-87 | Each optional string field reads back from what was written, as it was |
| MortgageCodec.OtherValuesBack | PropieXpert/PropieXpert/Views/Mortgage.swift:55-88 | Each optional number, integer and boolean field reads back as it was |
| MortgageCodec.RoundTrip | PropieXpert/PropieXpert/Views/Mortgage.swift:44-89 | Decoding an encoded record (integers within Int64) gives the same record |
| MortgageCodec.Keyed | PropieXpert/PropieXpert/Views/Mortgage.swift:23-42 | The keyed container of a JSON object holds each coding key's value under that key, and nothing else |
| MortgageCodec.KeyedToJson | PropieXpert/PropieXpert/Views/Mortgage.swift:23-42 | Reading back the JSON object a container was written as gives the same container |
| MortgageCodec.JsonRoundTrip | PropieXpert/PropieXpert/Views/Mortgage.swift:23-89 | Encoding to a JSON object and decoding it gives the same record |
| PropertyKeys.PropertyNameRoundTrip | PropieXpert/PropieXpert/Views/AddPropertySheet.swift:218-235 | Every property payload key's name reads back as that key |
| PropertyKeys.PropertyNamesDistinct | PropieXpert/PropieXpert/Views/AddPropertySheet.swift:218-235 | No two property payload keys share a name |
| PropertyKeys.PropertyJson | PropieXpert/PropieXpert/Views/AddPropertySheet.swift:218-235 | The payload holds each field under its key's name and nothing else |
| PropertySheet.AmenityList | PropieXpert/PropieXpert/Views/AddPropertySheet.swift:228 | No amenity is empty, contains a comma, or starts or ends with whitespace |
| PropertySheet.AmenityListComma | PropieXpert/PropieXpert/Views/AddPropertySheet.swift:228 | The list of `a + "," + b` is a's list followed by b's, so the original order is kept |
| PropertySheet.AmenityListJoin | PropieXpert/PropieXpert/Views/AddPropertySheet.swift:228 | Round trip: trimmed, comma-free, non-empty amenities joined with ',' give back the same list |
| PropertySheet.CheckMortgage | PropieXpert/PropieXpert/Views/AddPropertySheet.swift:164-172 | The amount is checked first (positive), then the years (positive integer), each with its own message. On success it carries the parsed values |
| PropertySheet.CheckProperty | PropieXpert/PropieXpert/Views/AddPropertySheet.swift:142-172 | Success carries the parsed prices, and a mortgage exactly when one is added (the checked one) |
| PropertySheet.CheckPropertyOrder | PropieXpert/PropieXpert/Views/AddPropertySheet.swift:142-172 | Each message exactly when its check is the first to fail: name, address, purchase price, current value. Success exactly when all pass and, with a mortgage, the mortgage checks pass. Their failure is reported as theirs |
| PropertySheet.EndDate | PropieXpert/PropieXpert/Views/AddPropertySheet.swift:191-196 | `end_date` is non-null exactly when the start date is non-empty and reads. It is then the start + years × 365.25 days |
| PropertySheet.AttachedMortgageValues | PropieXpert/PropieXpert/Views/AddPropertySheet.swift:173-215 | The attached mortgage: the payment at the rate its type selects (unreadable rates are 0), the total at 12 payments a year, the start date null when empty, and the end date as above |
| PropertySheet.PropertyValue | PropieXpert/PropieXpert/Views/AddPropertySheet.swift:158-233 | Each payload key's value. Counts and area default to 0, the amenities are the list above, and the rental price is present only when rented |
| PropertySheet.PropertyFields | PropieXpert/PropieXpert/Views/AddPropertySheet.swift:218-236 | Every key is present, `mortgage` exactly when one was checked |
| PropertySheet.PropertySubmission | PropieXpert/PropieXpert/Views/AddPropertySheet.swift:139-244 | Rejected with the first failing check's message exactly when a check fails; never aborted. Otherwise a POST to `properties/` whose `mortgage` key is present exactly when a mortgage was added |
| PropertySheet.AddPropertySheet.constructor | PropieXpert/PropieXpert/Views/AddPropertySheet.swift:9-39 | A new form: an apartment, no mortgage, the mortgage type preset to "fixed" |
| PropertySheet.AddPropertySheet.Submit | PropieXpert/PropieXpert/Views/AddPropertySheet.swift:139-244 | The early returns set the message and build no request. Otherwise it sets `isLoading` and returns the request `PropertySubmission` describes |

## Left out

- Networking is not modelled:
  - URLSession requests, status codes, response handling and the
    `DispatchQueue.main.async` callbacks;
  - every `fetch*` and `delete*` function;
  - the `Authorization` and `Content-Type` headers.

  Each method returns the request it would send instead. The mortgage
  form's edit mode returns the DELETE URL together with the POST it
  precedes. Their asynchronous ordering (the POST sent from the DELETE's
  completion handler) is not modelled.
- The failure of `JSONSerialization.data(withJSONObject:)` ("Error al
  preparar los datos.", AddIncomeSheet.swift:231-236 and the same in the
  other forms) is left out. In the app it is reachable: an amount typed as
  "inf" passes the `> 0` check, and serialising the non-finite `Double`
  then fails. Numbers here are real numbers, with nothing non-finite, so
  the model sends the request on such an input where the app shows that
  message.
- `payload.filter { !($0.value is NSNull) }` in the property and mortgage
  forms is left out. Absent values stay in the payload as JSON null,
  because whether the filter removes an `Optional` boxed in `Any` depends on
  the Swift runtime.
- Floating point is not modelled. Numbers are real numbers. The annuity
  formula with `pow`, the NaN and infinity checks, and "%.2f" formatting
  are Foundation parameters, so only the guards, the rate selection and the
  shape of the total are proved.
- Foundation parsing and formatting are parameters, never definitions:
  - `Double(String)`, `Int(String)`, the `DateFormatter`s with their
    locales and time zones;
  - `String.capitalized`, `UTType` MIME lookup and `Data(contentsOf:)`;
  - `URL(string:)`, and the UUID boundary of the upload.
- `Int(years)` times 12 can overflow a Swift `Int`, but a 64-bit overflow
  needs more than 7×10^17 years. Integers are unbounded here.
- MortgageSheet's `startDate` text (MortgageSheet.swift:18, 64-71,
  140-145, 155-160) is the `dd-MM-yyyy` label beside the date picker.
  `submit` never reads it, so the form model has only `startDateObj`.
  `formatCurrency` in the list views is display only and is left out too.
- Everything else in the app is out of scope: the SwiftUI bodies, the
  dashboard, property detail, profile, login and placeholder screens, the
  duplicate `Income` struct in IncomeView.swift, and the recurrence
  expansion, which lives in no modelled file.
- MortgageCodec.Encode: the seventeen `encode`/`encodeIfPresent` calls are
  taken in a loop over their order (`EncodeCall`), not written one after
  another. The keys, the order and the values are the source's.
- MortgageCodec.AsInt: `JSONDecoder` decoding an `Int` is taken to accept
  exactly the whole JSON numbers within Int64. Its handling of numbers
  written with an exponent or a trailing ".0" is not modelled separately.
- IncomeSheet.AddIncomeSheet.UploadFile: the source force-unwraps the upload
  URL, which traps when the income id does not form a valid URL. The model
  requires a valid one instead of modelling the trap.
- IncomeSheet.Body: nothing states that the boundary is absent from the file
  and the field values, which RFC 2046 requires of a delimiter. The app
  relies on a fresh UUID for that, and so does the model.
- Characters are Unicode scalars here (Dafny's `char`). Swift's `String`
  counts and splits grapheme clusters, and grapheme clustering is not
  modelled. Trimming is scalar-based in Foundation too, so Text.Trim is not
  affected. The members affected by grapheme clusters are the next three,
  and the two after them are affected by Swift's string equality.
- Text.Split: a ',' followed by a combining mark (`"a,\u{301}b"`) counts as
  a separator here. Swift sees one Character there and does not split.
- PropertySheet.AmenityList: for the same reason, `"a,\u{301}b"` is two
  amenities here and one in the app.
- Text.Prefix: counts scalars where `prefix(10)` counts Characters. This
  also affects the date cut to 10 characters in IncomeSheet.IncomeFormOf
  and ExpenseSheet.ExpenseFormOf.
- ListViews.FirstWithId: ids are compared scalar by scalar. Swift's `==`
  on `String` treats canonically equivalent strings as equal, so
  `"caf\u{E9}"` matches `"cafe\u{301}"` in the app and not here. Unicode
  canonical equivalence is not modelled.
- ListViews.PropertyNameFor: for the same reason, a property whose id is
  canonically equivalent to the entry's, but not spelled the same, gives
  "Propiedad desconocida" here and the property's name in the app.
- PropertySheet.CheckProperty: a blank name or address is one made only of
  `CharacterSet.whitespaces` characters (tab and the Unicode space
  separators). `Text.Trim` proves this matches trimming being empty.
