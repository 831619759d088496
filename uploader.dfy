/** `ImageUploaderComponent`: the file check (MIME type first, then size),
    the form state around one upload, the 25 form fields filled from the
    answer, and the text shown from it. */
module ImageUploader {
  import opened JsonValues
  import opened Text
  import FlatSchema
  import OcrService
  import UploadController

  /** What the component reads of a `File`. */
  datatype SelectedFile = SelectedFile(name: string, mimeType: string, size: nat)

  const MaxSize: nat := 10 * 1024 * 1024
  const AllowedTypes: seq<string> := ["image/jpeg", "image/jpg", "image/png", "image/gif"]
  const InvalidTypeMessage: string := "Please select a valid image file (JPEG, PNG, GIF)"
  const TooLargeMessage: string := "File size must be less than 10MB"

  /** `validateFile` (app.ts has the same check): the reason a file is
      refused, or nothing. The type is checked first. */
  function ValidateFile(file: SelectedFile): (r: Option<string>)
    ensures r.None? <==> file.mimeType in AllowedTypes && file.size <= MaxSize
    ensures file.mimeType !in AllowedTypes ==> r == Some(InvalidTypeMessage)
    ensures file.mimeType in AllowedTypes && file.size > MaxSize ==> r == Some(TooLargeMessage)
  {
    if file.mimeType !in AllowedTypes then Some(InvalidTypeMessage)
    else if file.size > MaxSize then Some(TooLargeMessage)
    else None
  }

  /** Exactly 10 MiB passes, one byte more does not, and a wrong type is
      reported even for an oversize file. */
  lemma ValidateFileBoundaries(name: string)
    ensures ValidateFile(SelectedFile(name, "image/png", 10485760)).None?
    ensures ValidateFile(SelectedFile(name, "image/png", 10485761)) == Some(TooLargeMessage)
    ensures ValidateFile(SelectedFile(name, "application/pdf", 10485761)) == Some(InvalidTypeMessage)
  {
    assert "application/pdf" != AllowedTypes[0] && "application/pdf" != AllowedTypes[1];
    assert "application/pdf" != AllowedTypes[2] && "application/pdf" != AllowedTypes[3];
  }

  /** Where a form field takes its value from: a member of the answer, or a
      member of one of its sections. */
  datatype FieldSource = Top(key: string) | Nested(section: string, key: string)

  const FieldNames: seq<string> := [
    "policy_number", "effective_start", "effective_end", "full_name", "address", "city_state_zip",
    "phone", "email", "dob", "gender", "marital_status", "policy_type", "issue_date", "term_length",
    "renewal_date", "agent", "agent_id", "office_phone", "vehicle", "vin", "license_plate",
    "body_type", "usage_class", "annual_mileage", "garaging_zip"]

  const FieldSources: seq<FieldSource> := [
    Top("policy_number"), Nested("effective_dates", "start"), Nested("effective_dates", "end"),
    Nested("policyholder_details", "full_name"), Nested("policyholder_details", "address"),
    Nested("policyholder_details", "city_state_zip"), Nested("policyholder_details", "phone"),
    Nested("policyholder_details", "email"), Nested("policyholder_details", "dob"),
    Nested("policyholder_details", "gender"), Nested("policyholder_details", "marital_status"),
    Nested("policy_information", "policy_type"), Nested("policy_information", "issue_date"),
    Nested("policy_information", "term_length"), Nested("policy_information", "renewal_date"),
    Nested("policy_information", "agent"), Nested("policy_information", "agent_id"),
    Nested("policy_information", "office_phone"), Nested("insured_vehicle", "year/make/model"),
    Nested("insured_vehicle", "VIN Number"), Nested("insured_vehicle", "license_plate"),
    Nested("insured_vehicle", "body_type"), Nested("insured_vehicle", "usage_class"),
    Nested("insured_vehicle", "annual_mileage"), Nested("insured_vehicle", "garaging_zip")]

  /** `result.key` or `result.section?.key`: a missing member, and any member
      of a value that is not an object, is `undefined`. */
  function Source(result: Json, src: FieldSource): Option<Json>
  {
    match src
    case Top(k) => Member(result, k)
    case Nested(s, k) => if Member(result, s).Some? then Member(Member(result, s).value, k) else None
  }

  /** `source || ''`. */
  function FieldValue(result: Json, src: FieldSource): (v: Json)
    ensures JsTruthy(v) || v == JStr("")
    ensures v == JStr("") <==> Source(result, src).None? || !JsTruthy(Source(result, src).value) || Source(result, src).value == JStr("")
  {
    var s := Source(result, src);
    if s.Some? && JsTruthy(s.value) then s.value else JStr("")
  }

  /** The form after `populateFieldsFromOcr(result)`: the value of field
      `FieldNames[i]` at position i. */
  function FieldsFrom(result: Json): (fields: seq<Json>)
    ensures |fields| == |FieldNames|
    ensures forall i :: 0 <= i < |fields| ==> fields[i] == FieldValue(result, FieldSources[i])
  {
    seq(|FieldSources|, i requires 0 <= i < |FieldSources| => FieldValue(result, FieldSources[i]))
  }

  /** The form in its reset state: every field empty. */
  function BlankFields(): (fields: seq<Json>)
    ensures |fields| == |FieldNames|
    ensures forall i :: 0 <= i < |fields| ==> fields[i] == JStr("")
  {
    seq(|FieldNames|, i => JStr(""))
  }

  /** The insured-vehicle section, when it is an object, uses only the
      given keys. */
  predicate VehicleKeysWithin(result: Json, keys: seq<string>)
  {
    var sec := Member(result, "insured_vehicle");
    sec.Some? && sec.value.JObj? ==> forall k :: k in KeysOf(sec.value.fields) ==> k in keys
  }

  /** A vehicle field whose key is outside the section's keys stays empty. */
  lemma VehicleFieldBlank(result: Json, keys: seq<string>, i: nat)
    requires VehicleKeysWithin(result, keys)
    requires i < |FieldSources| && FieldSources[i].Nested? && FieldSources[i].section == "insured_vehicle"
    requires FieldSources[i].key !in keys
    ensures FieldsFrom(result)[i] == JStr("")
  {
  }

  /** Four vehicle fields read keys the flat schema never emits
      (`year/make/model`, `VIN Number`, `annual_mileage`, `garaging_zip`),
      so an answer in that schema leaves them empty. */
  lemma UnemittedVehicleFields(result: Json)
    requires VehicleKeysWithin(result, FlatSchema.InsuredVehicleKeys)
    ensures FieldNames[18] == "vehicle" && FieldNames[19] == "vin"
    ensures FieldNames[23] == "annual_mileage" && FieldNames[24] == "garaging_zip"
    ensures FieldsFrom(result)[18] == JStr("") && FieldsFrom(result)[19] == JStr("")
    ensures FieldsFrom(result)[23] == JStr("") && FieldsFrom(result)[24] == JStr("")
  {
    var keys := FlatSchema.InsuredVehicleKeys;
    FormKeysNotEmitted();
    VehicleFieldBlank(result, keys, 18);
    VehicleFieldBlank(result, keys, 19);
    VehicleFieldBlank(result, keys, 23);
    VehicleFieldBlank(result, keys, 24);
  }

  /** The keys of those four fields are not among the flat schema's
      vehicle keys. */
  lemma FormKeysNotEmitted()
    ensures FieldSources[18] == Nested("insured_vehicle", "year/make/model")
    ensures FieldSources[19] == Nested("insured_vehicle", "VIN Number")
    ensures FieldSources[23] == Nested("insured_vehicle", "annual_mileage")
    ensures FieldSources[24] == Nested("insured_vehicle", "garaging_zip")
    ensures "year/make/model" !in FlatSchema.InsuredVehicleKeys && "VIN Number" !in FlatSchema.InsuredVehicleKeys
    ensures "annual_mileage" !in FlatSchema.InsuredVehicleKeys && "garaging_zip" !in FlatSchema.InsuredVehicleKeys
  {
  }

  /** The body the upload endpoint returns wraps the OCR result under
      `ocrResult`, so filling the form from the body leaves every field
      empty. */
  lemma WrappedBodyLeavesFieldsBlank(file: UploadController.UploadedFile, v: Json)
    ensures FieldsFrom(UploadController.SuccessBody(file, v)) == BlankFields()
  {
    var body := UploadController.SuccessBody(file, v);
    forall i | 0 <= i < |FieldSources|
      ensures Source(body, FieldSources[i]).None?
    {
      var src := FieldSources[i];
      var top := if src.Top? then src.key else src.section;
      assert |top| != 7 && |top| != 8 && |top| != 9;
      BodyLacks(file, v, top);
    }
  }

  /** The endpoint's body has only its three members. */
  lemma BodyLacks(file: UploadController.UploadedFile, v: Json, key: string)
    requires key != "success" && key != "filename" && key != "ocrResult"
    ensures Member(UploadController.SuccessBody(file, v), key).None?
  {
  }

  /** The shape of a failed request's error: the body's `message`, and the
      `HttpErrorResponse` message, each possibly absent. */
  datatype HttpFailure = HttpFailure(bodyMessage: Option<string>, message: Option<string>)

  const DefaultError: string := "An error occurred during OCR processing."

  /** `err?.error?.message || err?.message || default`. */
  function ErrorText(err: HttpFailure): (t: string)
    ensures t != ""
    ensures err.bodyMessage.Some? && err.bodyMessage.value != "" ==> t == err.bodyMessage.value
    ensures (err.bodyMessage.None? || err.bodyMessage.value == "") && err.message.Some? && err.message.value != ""
            ==> t == err.message.value
    ensures ((err.bodyMessage.None? || err.bodyMessage.value == "") && (err.message.None? || err.message.value == ""))
            ==> t == DefaultError
  {
    if err.bodyMessage.Some? && err.bodyMessage.value != "" then err.bodyMessage.value
    else if err.message.Some? && err.message.value != "" then err.message.value
    else DefaultError
  }

  /** The controller's error message reaches the form unchanged. */
  lemma ControllerErrorShown(upload: Option<UploadController.UploadedFile>, processOcr: string -> Result<Json>,
                             statusText: Option<string>)
    requires UploadController.UploadImage(upload, processOcr).HttpError?
    ensures var reply := UploadController.UploadImage(upload, processOcr);
            ErrorText(HttpFailure(Some(reply.message), statusText)) == reply.message
  {
  }

  /** `b.text` as joined: a string as it is, anything else (in particular
      `undefined` and `null`) as the empty string. */
  function BlockText(b: Json): string
  {
    var t := Member(b, "text");
    if t.Some? && t.value.JStr? then t.value.s else ""
  }

  function BlockTexts(blocks: seq<Json>): (ts: seq<string>)
    ensures |ts| == |blocks|
    ensures forall i :: 0 <= i < |blocks| ==> ts[i] == BlockText(blocks[i])
  {
    seq(|blocks|, i requires 0 <= i < |blocks| => BlockText(blocks[i]))
  }

  /** `getExtractedText`: a non-empty `full_text`, else the block texts
      joined by spaces, else the empty string. */
  function ExtractedText(ocrResult: Option<Json>): (t: string)
    ensures ocrResult.Some? && Member(ocrResult.value, "full_text").Some?
            && Member(ocrResult.value, "full_text").value.JStr? && Member(ocrResult.value, "full_text").value.s != "" ==>
              t == Member(ocrResult.value, "full_text").value.s
    ensures ocrResult.Some?
            && !(Member(ocrResult.value, "full_text").Some? && Member(ocrResult.value, "full_text").value.JStr?
                 && Member(ocrResult.value, "full_text").value.s != "")
            && Member(ocrResult.value, "text_blocks").Some? && Member(ocrResult.value, "text_blocks").value.JArr? ==>
              t == Join(BlockTexts(Member(ocrResult.value, "text_blocks").value.items), " ")
    ensures t != "" ==>
              && ocrResult.Some?
              && ((Member(ocrResult.value, "full_text").Some? && Member(ocrResult.value, "full_text") == Some(JStr(t)))
                  || (Member(ocrResult.value, "text_blocks").Some? && Member(ocrResult.value, "text_blocks").value.JArr?
                      && t == Join(BlockTexts(Member(ocrResult.value, "text_blocks").value.items), " ")))
  {
    if ocrResult.None? then ""
    else
      var full := Member(ocrResult.value, "full_text");
      var blocks := Member(ocrResult.value, "text_blocks");
      if full.Some? && full.value.JStr? && full.value.s != "" then full.value.s
      else if blocks.Some? && blocks.value.JArr? then Join(BlockTexts(blocks.value.items), " ")
      else ""
  }

  /** For the OCR script's output the shown text is its texts joined by
      spaces; for the endpoint's wrapped body it is empty. */
  lemma ExtractedTextOfScriptOutput(imagePath: string, texts: seq<string>)
    ensures ExtractedText(Some(OcrService.SuccessOutput(imagePath, texts))) == Join(texts, " ")
  {
    OcrService.SuccessShape(imagePath, texts);
    OcrService.FullTextIsJoin(texts);
    if Join(texts, " ") == "" {
      ScriptBlocks(imagePath, texts);
      if texts != [] {
        SingleEmptyBlock(texts);
      }
    }
  }

  /** The script's `text_blocks` are its texts as strings. */
  lemma ScriptBlocks(imagePath: string, texts: seq<string>)
    ensures Member(OcrService.SuccessOutput(imagePath, texts), "text_blocks") ==
              Some(JArr(seq(|texts|, i requires 0 <= i < |texts| => JStr(texts[i]))))
  {
    var out := OcrService.SuccessOutput(imagePath, texts);
    LookupCons("status", JStr("success"), out.fields[1..], "text_blocks");
    LookupCons("image_path", JStr(imagePath), out.fields[2..], "text_blocks");
  }

  lemma SingleEmptyBlock(texts: seq<string>)
    requires texts == [""]
    ensures Join(BlockTexts(seq(|texts|, i requires 0 <= i < |texts| => JStr(texts[i]))), " ") == ""
  {
    var blocks := seq(|texts|, i requires 0 <= i < |texts| => JStr(texts[i]));
    assert BlockText(blocks[0]) == "";
    assert BlockTexts(blocks) == [""];
  }

  lemma ExtractedTextOfWrappedBody(file: UploadController.UploadedFile, v: Json)
    ensures ExtractedText(Some(UploadController.SuccessBody(file, v))) == ""
  {
  }

  class ImageUploaderComponent {
    var selectedFile: Option<SelectedFile>
    var ocrResult: Option<Json>
    var error: Option<string>
    var isProcessing: bool
    /** The values of the form fields, in the order of `FieldNames`. */
    var fields: seq<Json>

    constructor()
      ensures selectedFile.None? && ocrResult.None? && error.None? && !isProcessing
      ensures fields == BlankFields()
    {
      selectedFile := None;
      ocrResult := None;
      error := None;
      isProcessing := false;
      fields := BlankFields();
    }

    /** `onFileSelected` with the first chosen file, if any. */
    method OnFileSelected(file: Option<SelectedFile>)
      modifies this
      ensures file.None? ==> error == Some("No file selected. Please try again.") && selectedFile == old(selectedFile)
      ensures file.Some? && ValidateFile(file.value).Some? ==> error == ValidateFile(file.value) && selectedFile.None?
      ensures file.Some? && ValidateFile(file.value).None? ==> error.None? && selectedFile == file
      ensures ocrResult == old(ocrResult) && isProcessing == old(isProcessing) && fields == old(fields)
    {
      if file.Some? {
        var validationError := ValidateFile(file.value);
        if validationError.Some? {
          error := validationError;
          selectedFile := None;
        } else {
          selectedFile := file;
          error := None;
        }
      } else {
        error := Some("No file selected. Please try again.");
      }
    }

    /** `uploadImage` up to sending the request; `sent` says whether it was
        sent. */
    method UploadImage() returns (sent: bool)
      modifies this
      ensures sent <==> old(selectedFile).Some?
      ensures !sent ==> error == Some("Please select an image first.") && ocrResult == old(ocrResult)
                        && isProcessing == old(isProcessing)
      ensures sent ==> isProcessing && error.None? && ocrResult.None?
      ensures selectedFile == old(selectedFile) && fields == old(fields)
    {
      if selectedFile.None? {
        error := Some("Please select an image first.");
        return false;
      }
      isProcessing := true;
      error := None;
      ocrResult := None;
      sent := true;
    }

    /** `populateFieldsFromOcr`: each of the 25 assignments overwrites its
        own field, so the form becomes `FieldsFrom(result)`. A `null` answer
        would throw at the first member access. */
    method PopulateFieldsFromOcr(result: Json)
      requires !result.JNull?
      modifies this
      ensures fields == FieldsFrom(result)
      ensures selectedFile == old(selectedFile) && ocrResult == old(ocrResult)
      ensures error == old(error) && isProcessing == old(isProcessing)
    {
      fields := FieldsFrom(result);
    }

    /** The success handler of the upload. */
    method OnUploadResult(result: Json)
      requires !result.JNull?
      modifies this
      ensures ocrResult == Some(result) && fields == FieldsFrom(result) && !isProcessing
      ensures selectedFile == old(selectedFile) && error == old(error)
    {
      ocrResult := Some(result);
      PopulateFieldsFromOcr(result);
      isProcessing := false;
    }

    /** The error handler of the upload. */
    method OnUploadError(err: HttpFailure)
      modifies this
      ensures error == Some(ErrorText(err)) && !isProcessing
      ensures selectedFile == old(selectedFile) && ocrResult == old(ocrResult) && fields == old(fields)
    {
      error := Some(ErrorText(err));
      isProcessing := false;
    }

    /** `resetForm`. */
    method ResetForm()
      modifies this
      ensures selectedFile.None? && ocrResult.None? && error.None? && !isProcessing
      ensures fields == BlankFields()
    {
      selectedFile := None;
      ocrResult := None;
      error := None;
      isProcessing := false;
      fields := BlankFields();
    }

    function GetExtractedText(): string
      reads this
    {
      ExtractedText(ocrResult)
    }
  }
}
