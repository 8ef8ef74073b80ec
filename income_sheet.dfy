/** The income entry form (AddIncomeSheet.swift): validation and payload on
    submit, the form filled from a stored income, the multipart/form-data body
    of the document upload, and the income id read from the save response. */
module IncomeSheet {
  import opened Wrappers
  import opened Json
  import opened Platform
  import opened Text
  import opened Models

  /** The text fields and switches of the form. `kind` is the `type` picker. */
  datatype IncomeForm = IncomeForm(
    propertyId: string,
    kind: string,
    amount: string,
    date: string,
    description: string,
    isRecurring: bool,
    frequency: string,
    recurrenceStartDate: string,
    recurrenceEndDate: string)

  /** The form as it first appears. */
  const BlankIncomeForm := IncomeForm("", "", "", "", "", false, "monthly", "", "")

  const IncomesUrl := Api + "incomes/"

  /** The body of the save request once the guard chain has passed. */
  function IncomePayload(f: IncomeForm, amount: real): Payload
  {
    EntryPayload(f.propertyId, f.kind, amount, f.date, f.description, f.isRecurring, f.frequency,
                 f.recurrenceStartDate, f.recurrenceEndDate)
  }

  /** What submitting the form does. `editing` is the id of the income being
      edited, if any. */
  function IncomeSubmission(f: IncomeForm, editing: Option<string>, fd: Foundation): (s: Submission)
    ensures var check := CheckEntry(f.propertyId, f.kind, f.amount, f.date, fd.parseDouble);
      && (s.Rejected? <==> check.Failure?)
      && (s.Rejected? ==> s.message == check.error)
      && (s.Aborted? <==> check.Success? && editing.Some? && !fd.urlOk(IncomesUrl + editing.value))
      && (s.Sent? ==> s.request.payload == IncomePayload(f, check.value))
    ensures s.Sent? && editing.Some? ==> s.request.httpMethod == "PUT" && s.request.url == IncomesUrl + editing.value
    ensures s.Sent? && editing.None? ==> s.request.httpMethod == "POST" && s.request.url == IncomesUrl
  {
    match CheckEntry(f.propertyId, f.kind, f.amount, f.date, fd.parseDouble)
    case Failure(message) => Rejected(message)
    case Success(amount) =>
      if editing.Some? then
        if fd.urlOk(IncomesUrl + editing.value) then
          Sent(Request("PUT", IncomesUrl + editing.value, IncomePayload(f, amount)))
        else Aborted
      else Sent(Request("POST", IncomesUrl, IncomePayload(f, amount)))
  }

  /** The form filled from a stored income when editing it. */
  function IncomeFormOf(income: Income, format2: real -> string): (f: IncomeForm)
    ensures f.propertyId == income.propertyId && f.kind == income.kind
    ensures f.amount == format2(income.amount)
    ensures f.date == Prefix(income.date, 10) && |f.date| <= 10 && f.date <= income.date
    ensures f.recurrenceStartDate == f.date
    ensures f.description == income.description.GetOr("")
    ensures f.isRecurring <==> income.isRecurring == Some(true)
    ensures f.frequency == income.frequency.GetOr("monthly")
    ensures f.recurrenceEndDate == ""
  {
    IncomeForm(income.propertyId, income.kind, format2(income.amount), Prefix(income.date, 10),
               income.description.GetOr(""), income.isRecurring.GetOr(false),
               income.frequency.GetOr("monthly"), Prefix(income.date, 10), "")
  }

  /** Saving an income that was loaded for editing, without touching the form,
      sends a PUT to that income with its date cut to `yyyy-MM-dd`. The stored
      recurrence bounds are not carried over: the start date becomes the
      income's date and no end date is sent. */
  lemma EditResubmitsStoredIncome(income: Income, fd: Foundation)
    requires income.propertyId != "" && income.kind != "" && income.date != ""
    requires IsPositive(fd.parseDouble(fd.format2(income.amount)))
    requires fd.urlOk(IncomesUrl + income.id)
    ensures var s := IncomeSubmission(IncomeFormOf(income, fd.format2), Some(income.id), fd);
      && s.Sent?
      && s.request.httpMethod == "PUT" && s.request.url == IncomesUrl + income.id
      && s.request.payload["property_id"] == JString(income.propertyId)
      && s.request.payload["date"] == JString(Prefix(income.date, 10) + Midnight)
      && "recurrence_end_date" !in s.request.payload
      && (income.isRecurring == Some(true) ==>
            s.request.payload["recurrence_start_date"] == s.request.payload["date"])
  {
    var f := IncomeFormOf(income, fd.format2);
    assert Prefix(income.date, 10) != "";
    assert CheckEntry(f.propertyId, f.kind, f.amount, f.date, fd.parseDouble).Success?;
  }

  // ---- Document upload (multipart/form-data, RFC 2046 section 5.1.1, RFC 7578)

  /** A picked file: its `lastPathComponent`, the MIME type UTType prefers for
      its extension (if any), and its bytes, or None when `Data(contentsOf:)`
      fails. */
  datatype FileRef = FileRef(lastPathComponent: string, preferredMimeType: Option<string>,
                             contents: Option<seq<byte>>)

  /** `mimeType(for:)`: the preferred type, else `application/octet-stream`. */
  function MimeType(file: FileRef): (m: string)
    ensures file.preferredMimeType.Some? ==> m == file.preferredMimeType.value
    ensures file.preferredMimeType.None? ==> m == "application/octet-stream"
  {
    file.preferredMimeType.GetOr("application/octet-stream")
  }

  /** One body part (RFC 7578): the picked file, or a text field. */
  datatype Part =
    | FilePart(filename: string, mimeType: string, data: seq<byte>)
    | FieldPart(fieldName: string, value: string)
  {
    /** The `name` parameter of the part's Content-Disposition header. */
    function Name(): string
    {
      if FilePart? then "file" else fieldName
    }
  }

  /** The delimiter line that opens every part. */
  function Delimiter(boundary: string): string { "--" + boundary + "\r\n" }

  /** The close delimiter that ends the body. */
  function CloseDelimiter(boundary: string): string { "--" + boundary + "--\r\n" }

  function FileDisposition(filename: string): string
  {
    "Content-Disposition: form-data; name=\"file\"; filename=\"" + filename + "\"\r\n"
  }

  /** The Content-Type header of the file part and the blank line after it. */
  function ContentTypeLines(mimeType: string): string { "Content-Type: " + mimeType + "\r\n\r\n" }

  /** The Content-Disposition header of a text field and the blank line after it. */
  function FieldDisposition(name: string): string
  {
    "Content-Disposition: form-data; name=\"" + name + "\"\r\n\r\n"
  }

  /** A part on the wire: delimiter line, headers, blank line, content, CRLF. */
  function PartBytes(boundary: string, p: Part): (b: seq<byte>)
    ensures Utf8(Delimiter(boundary)) <= b
  {
    match p
    case FilePart(filename, mimeType, data) =>
      Utf8(Delimiter(boundary)) + Utf8(FileDisposition(filename)) + Utf8(ContentTypeLines(mimeType))
      + data + Utf8("\r\n")
    case FieldPart(name, value) =>
      Utf8(Delimiter(boundary)) + Utf8(FieldDisposition(name)) + Utf8(value + "\r\n")
  }

  function PartsBytes(boundary: string, parts: seq<Part>): (b: seq<byte>)
    ensures parts != [] ==> Utf8(Delimiter(boundary)) <= b
  {
    if parts == [] then [] else PartBytes(boundary, parts[0]) + PartsBytes(boundary, parts[1..])
  }

  lemma {:induction false} PartsBytesSnoc(boundary: string, parts: seq<Part>, p: Part)
    ensures PartsBytes(boundary, parts + [p]) == PartsBytes(boundary, parts) + PartBytes(boundary, p)
  {
    if parts == [] {
      assert [] + [p] == [p];
    } else {
      assert (parts + [p])[1..] == parts[1..] + [p];
      PartsBytesSnoc(boundary, parts[1..], p);
      ConcatAssoc(PartBytes(boundary, parts[0]), PartsBytes(boundary, parts[1..]), PartBytes(boundary, p));
    }
  }

  /** The whole body: the parts one after another, then the close delimiter. */
  function Body(boundary: string, parts: seq<Part>): (b: seq<byte>)
    ensures parts == [] ==> b == Utf8(CloseDelimiter(boundary))
    ensures parts != [] ==> Utf8(Delimiter(boundary)) <= b
    ensures |Utf8(CloseDelimiter(boundary))| <= |b|
    ensures b[|b| - |Utf8(CloseDelimiter(boundary))|..] == Utf8(CloseDelimiter(boundary))
  {
    var b := PartsBytes(boundary, parts) + Utf8(CloseDelimiter(boundary));
    assert parts == [] ==> b == [] + Utf8(CloseDelimiter(boundary));
    b
  }

  predicate HasPart(parts: seq<Part>, name: string)
  {
    exists k :: 0 <= k < |parts| && parts[k].Name() == name
  }

  /** The file part, when the picked file could be read. */
  function FileParts(file: FileRef): seq<Part>
  {
    if file.contents.Some? then [FilePart(file.lastPathComponent, MimeType(file), file.contents.value)] else []
  }

  /** A text field's part, left out when the field is empty. */
  function FieldParts(name: string, value: string): seq<Part>
  {
    if value != "" then [FieldPart(name, value)] else []
  }

  /** The parts of the upload: the file, then the category, then the
      description. */
  function FormParts(file: FileRef, category: string, description: string): seq<Part>
  {
    FileParts(file) + FieldParts("category", category) + FieldParts("description", description)
  }

  /** Which parts the upload carries and what each holds: the file when it
      could be read, each text field when it is not empty, every name once. */
  lemma FormPartsShape(file: FileRef, category: string, description: string)
    ensures var parts := FormParts(file, category, description);
      && (HasPart(parts, "file") <==> file.contents.Some?)
      && (HasPart(parts, "category") <==> category != "")
      && (HasPart(parts, "description") <==> description != "")
      && |parts| == (if file.contents.Some? then 1 else 0) + (if category != "" then 1 else 0)
                    + (if description != "" then 1 else 0)
      && (forall i, j :: 0 <= i < j < |parts| ==> parts[i].Name() != parts[j].Name())
      && (forall k :: 0 <= k < |parts| && parts[k].FilePart? ==>
            parts[k] == FilePart(file.lastPathComponent, MimeType(file), file.contents.value))
      && (forall k :: 0 <= k < |parts| && parts[k].Name() == "category" ==>
            parts[k] == FieldPart("category", category))
      && (forall k :: 0 <= k < |parts| && parts[k].Name() == "description" ==>
            parts[k] == FieldPart("description", description))
  {
    var f, c := FileParts(file), FieldParts("category", category);
    var parts := FormParts(file, category, description);
    assert file.contents.Some? ==> parts[0].Name() == "file";
    assert category != "" ==> parts[|f|].Name() == "category";
    assert description != "" ==> parts[|f| + |c|].Name() == "description";
  }

  /** The five pieces `uploadFile` appends for a readable file are its part. */
  lemma FileStep(boundary: string, file: FileRef)
    requires file.contents.Some?
    ensures [] + Utf8(Delimiter(boundary)) + Utf8(FileDisposition(file.lastPathComponent))
              + Utf8(ContentTypeLines(MimeType(file))) + file.contents.value + Utf8("\r\n")
            == PartsBytes(boundary, FileParts(file))
  {
    var p := FilePart(file.lastPathComponent, MimeType(file), file.contents.value);
    var b := PartBytes(boundary, p);
    assert PartsBytes(boundary, [p]) == b + PartsBytes(boundary, []);
    assert b + [] == b;
    assert [] + Utf8(Delimiter(boundary)) == Utf8(Delimiter(boundary));
  }

  /** The three pieces `uploadFile` appends for a non-empty text field extend
      the body by that field's part. */
  lemma FieldStep(before: seq<byte>, boundary: string, parts: seq<Part>, name: string, value: string)
    requires before == PartsBytes(boundary, parts)
    ensures value != "" ==>
      before + Utf8(Delimiter(boundary)) + Utf8(FieldDisposition(name)) + Utf8(value + "\r\n")
      == PartsBytes(boundary, parts + FieldParts(name, value))
    ensures value == "" ==> parts + FieldParts(name, value) == parts
  {
    if value != "" {
      var p := FieldPart(name, value);
      var x, y, z := Utf8(Delimiter(boundary)), Utf8(FieldDisposition(name)), Utf8(value + "\r\n");
      assert FieldParts(name, value) == [p];
      assert PartBytes(boundary, p) == x + y + z;
      PartsBytesSnoc(boundary, parts, p);
      AppendAssoc(before, x, y, z);
    } else {
      assert parts + [] == parts;
    }
  }

  lemma ConcatAssoc(a: seq<byte>, b: seq<byte>, c: seq<byte>)
    ensures a + (b + c) == a + b + c
  {
  }

  lemma AppendAssoc(a: seq<byte>, x: seq<byte>, y: seq<byte>, z: seq<byte>)
    ensures a + x + y + z == a + (x + y + z)
  {
  }

  /** `uploadFile`'s body, appended piece by piece as the form does it. */
  method MultipartBody(boundary: string, file: FileRef, category: string, description: string)
    returns (body: seq<byte>)
    ensures body == Body(boundary, FormParts(file, category, description))
  {
    body := [];
    if file.contents.Some? {
      var fileData := file.contents.value;
      var filename := file.lastPathComponent;
      var mimetype := MimeType(file);
      body := body + Utf8(Delimiter(boundary));
      body := body + Utf8(FileDisposition(filename));
      body := body + Utf8(ContentTypeLines(mimetype));
      body := body + fileData;
      body := body + Utf8("\r\n");
      FileStep(boundary, file);
    }
    ghost var parts := FileParts(file);
    assert body == PartsBytes(boundary, parts);
    FieldStep(body, boundary, parts, "category", category);
    if category != "" {
      body := body + Utf8(Delimiter(boundary));
      body := body + Utf8(FieldDisposition("category"));
      body := body + Utf8(category + "\r\n");
    }
    parts := parts + FieldParts("category", category);
    FieldStep(body, boundary, parts, "description", description);
    if description != "" {
      body := body + Utf8(Delimiter(boundary));
      body := body + Utf8(FieldDisposition("description"));
      body := body + Utf8(description + "\r\n");
    }
    parts := parts + FieldParts("description", description);
    body := body + Utf8(CloseDelimiter(boundary));
  }

  /** The upload request: a POST of the multipart body to the income's files. */
  datatype Upload = Upload(url: string, contentType: string, body: seq<byte>)

  function UploadUrl(incomeId: string): string
  {
    Api + "documents/income/" + incomeId + "/files"
  }

  // ---- Reading the saved income's id from the response

  /** `json[key] as? String`. */
  function StringAt(o: Payload, key: string): (r: Option<string>)
    ensures r.Some? <==> key in o && o[key].JString?
    ensures r.Some? ==> o[key] == JString(r.value)
  {
    if key in o && o[key].JString? then Some(o[key].s) else None
  }

  /** The response body read as a JSON object, if it is one. */
  function ResponseObject(data: Option<seq<byte>>, parse: seq<byte> -> Option<Value>): Option<Payload>
  {
    if data.Some? && parse(data.value).Some? && parse(data.value).value.JObject? then
      Some(parse(data.value).value.fields)
    else None
  }

  /** `extractIncomeId`: the string under "id", else the string under "_id".
      `parse` is `JSONSerialization.jsonObject(with:)`. */
  function ExtractIncomeId(data: Option<seq<byte>>, parse: seq<byte> -> Option<Value>): (r: Option<string>)
    ensures data.None? ==> r.None?
    ensures data.Some? && (parse(data.value).None? || !parse(data.value).value.JObject?) ==> r.None?
    ensures var o := ResponseObject(data, parse);
      && (r.None? <==> o.None? || (StringAt(o.value, "id").None? && StringAt(o.value, "_id").None?))
      && (o.Some? && StringAt(o.value, "id").Some? ==> r == StringAt(o.value, "id"))
      && (o.Some? && StringAt(o.value, "id").None? ==> r == StringAt(o.value, "_id"))
  {
    match ResponseObject(data, parse)
    case None => None
    case Some(o) => if StringAt(o, "id").Some? then StringAt(o, "id") else StringAt(o, "_id")
  }

  // ---- The form's state

  class AddIncomeSheet {
    /** The income being edited; None when adding one. */
    const initialData: Option<Income>
    var form: IncomeForm
    var fileUrl: Option<FileRef>
    var fileCategory: string
    var fileDescription: string
    var isUploadingFile: bool
    var fileUploadError: Option<string>
    var fileUploadSuccess: Option<string>
    var isLoading: bool
    var errorMessage: Option<string>

    constructor (initialData: Option<Income>)
      ensures this.initialData == initialData && form == BlankIncomeForm
      ensures fileUrl.None? && fileCategory == "" && fileDescription == ""
      ensures !isUploadingFile && fileUploadError.None? && fileUploadSuccess.None?
      ensures !isLoading && errorMessage.None?
    {
      this.initialData := initialData;
      form := BlankIncomeForm;
      fileUrl, fileCategory, fileDescription := None, "", "";
      isUploadingFile, fileUploadError, fileUploadSuccess := false, None, None;
      isLoading, errorMessage := false, None;
    }

    /** `isEdit, let id = initialData?.id`. */
    function EditingId(): (id: Option<string>)
      ensures id.Some? <==> initialData.Some?
      ensures id.Some? ==> id.value == initialData.value.id
    {
      if initialData.Some? then Some(initialData.value.id) else None
    }

    /** `loadInitialData`: when editing, fills the form from the stored income. */
    method LoadInitialData(fd: Foundation)
      modifies this`form
      ensures initialData.Some? ==> form == IncomeFormOf(initialData.value, fd.format2)
      ensures initialData.None? ==> form == old(form)
    {
      if initialData.Some? {
        var income := initialData.value;
        var f := form;
        f := f.(propertyId := income.propertyId);
        f := f.(kind := income.kind);
        f := f.(amount := fd.format2(income.amount));
        f := f.(date := Prefix(income.date, 10));
        f := f.(description := income.description.GetOr(""));
        f := f.(isRecurring := income.isRecurring.GetOr(false));
        f := f.(frequency := income.frequency.GetOr("monthly"));
        f := f.(recurrenceStartDate := Prefix(income.date, 10));
        f := f.(recurrenceEndDate := "");
        form := f;
      }
    }

    /** `submit`: runs the guard chain with early returns, then grows the
        payload key by key and returns the request it would send. */
    method Submit(fd: Foundation) returns (request: Option<Request>)
      modifies this`errorMessage, this`isLoading
      ensures var s := IncomeSubmission(form, EditingId(), fd);
        && (s.Rejected? ==> errorMessage == Some(s.message) && isLoading == old(isLoading) && request.None?)
        && (s.Aborted? ==> errorMessage.None? && !isLoading && request.None?)
        && (s.Sent? ==> errorMessage.None? && isLoading && request == Some(s.request))
    {
      errorMessage := None;
      if form.propertyId == "" {
        errorMessage := Some(PropertyRequired);
        return None;
      }
      if form.kind == "" {
        errorMessage := Some(TypeRequired);
        return None;
      }
      var amountValue := fd.parseDouble(form.amount);
      if amountValue.None? || amountValue.value <= 0.0 {
        errorMessage := Some(InvalidAmount);
        return None;
      }
      if form.date == "" {
        errorMessage := Some(DateRequired);
        return None;
      }
      isLoading := true;
      var payload := map["property_id" := JString(form.propertyId), "type" := JString(form.kind),
                         "amount" := JNumber(amountValue.value), "date" := JString(form.date + Midnight),
                         "is_recurring" := JBool(form.isRecurring)];
      if form.description != "" {
        payload := payload["description" := JString(form.description)];
      }
      ghost var described := payload;
      RecurrenceUpdates(described, form.isRecurring, form.frequency, form.recurrenceStartDate,
                        form.recurrenceEndDate);
      if form.isRecurring {
        payload := payload["frequency" := JString(form.frequency)];
        payload := payload["recurrence_start_date" := JString(form.recurrenceStartDate + Midnight)];
        if form.recurrenceEndDate != "" {
          payload := payload["recurrence_end_date" := JString(form.recurrenceEndDate + Midnight)];
        }
      }
      var urlString, httpMethod;
      if initialData.Some? {
        urlString, httpMethod := IncomesUrl + initialData.value.id, "PUT";
        if !fd.urlOk(urlString) {
          isLoading := false;
          return None;
        }
      } else {
        urlString, httpMethod := IncomesUrl, "POST";
      }
      assert payload == IncomePayload(form, amountValue.value);
      request := Some(Request(httpMethod, urlString, payload));
    }

    /** `uploadFile`: nothing without a picked file and an income id;
        otherwise marks the upload as running and builds its request. The
        request URL is force-unwrapped in the source, so an id that does not
        make a valid URL traps there; callers must not pass one. */
    method UploadFile(incomeId: Option<string>, boundary: string, fd: Foundation) returns (upload: Option<Upload>)
      requires incomeId.Some? ==> fd.urlOk(UploadUrl(incomeId.value))
      modifies this`isUploadingFile, this`fileUploadError, this`fileUploadSuccess
      ensures fileUrl.None? || incomeId.None? ==>
        upload.None? && unchanged(this`isUploadingFile, this`fileUploadError, this`fileUploadSuccess)
      ensures fileUrl.Some? && incomeId.Some? ==>
        && isUploadingFile && fileUploadError.None? && fileUploadSuccess.None?
        && upload == Some(Upload(UploadUrl(incomeId.value), "multipart/form-data; boundary=" + boundary,
                                 Body(boundary, FormParts(fileUrl.value, fileCategory, fileDescription))))
    {
      if fileUrl.None? || incomeId.None? {
        return None;
      }
      isUploadingFile := true;
      fileUploadError := None;
      fileUploadSuccess := None;
      var body := MultipartBody(boundary, fileUrl.value, fileCategory, fileDescription);
      upload := Some(Upload(UploadUrl(incomeId.value), "multipart/form-data; boundary=" + boundary, body));
    }
  }
}
