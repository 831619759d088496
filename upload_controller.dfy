/** `AppController` of backend/src/app.controller.ts: the upload filter's
    extension test, and the branches of `uploadImage` over the outcome of
    `processOCR`. The lemmas at the end follow an upload through the OCR
    script and the output selector. */
module UploadController {
  import opened JsonValues
  import opened Text
  import OcrService
  import BackendService

  /** The stored upload: the client's name, the name on disk and its path. */
  datatype UploadedFile = UploadedFile(originalName: string, filename: string, path: string)

  /** The HTTP answer: the returned body, or the status and message of the
      thrown `HttpException`. */
  datatype Reply = Created(body: Json) | HttpError(status: nat, message: string)

  const BadRequest: nat := 400
  const InternalServerError: nat := 500

  /** `/\.(jpg|jpeg|png|gif)$/`, matched against the client's file name:
      case-sensitive, anchored at the end. */
  const FilterSuffixes: seq<string> := [".jpg", ".jpeg", ".png", ".gif"]

  predicate FileFilter(originalName: string): (ok: bool)
    ensures ok ==> |originalName| >= 4 && originalName[|originalName| - 4..] in {".jpg", "jpeg", ".png", ".gif"}
  {
    FilterSuffixEnds(originalName);
    exists i :: 0 <= i < |FilterSuffixes| && EndsWith(originalName, FilterSuffixes[i])
  }

  lemma FilterSuffixEnds(name: string)
    ensures (exists i :: 0 <= i < |FilterSuffixes| && EndsWith(name, FilterSuffixes[i])) ==>
              |name| >= 4 && name[|name| - 4..] in {".jpg", "jpeg", ".png", ".gif"}
  {
    if i :| 0 <= i < |FilterSuffixes| && EndsWith(name, FilterSuffixes[i]) {
      assert name[|name| - 4..] == FilterSuffixes[i][|FilterSuffixes[i]| - 4..];
    }
  }

  /** The body returned on success. */
  function SuccessBody(file: UploadedFile, ocrResult: Json): Json
  {
    JObj([("success", JBool(true)), ("filename", JStr(file.filename)), ("ocrResult", ocrResult)])
  }

  /** The request as the controller sees it: no file, a file the filter
      refuses, or a stored file whose path goes to `processOcr`. */
  function UploadImage(upload: Option<UploadedFile>, processOcr: string -> Result<Json>): (r: Reply)
    ensures upload.None? ==> r == HttpError(BadRequest, "No file uploaded")
    ensures upload.Some? && !FileFilter(upload.value.originalName) ==>
              r == HttpError(BadRequest, "Only image files are allowed!")
    ensures upload.Some? && FileFilter(upload.value.originalName) ==>
              match processOcr(upload.value.path)
              case Ok(v) => r.Created? && r.body.JObj?
                            && KeysOf(r.body.fields) == ["success", "filename", "ocrResult"]
                            && Member(r.body, "success") == Some(JBool(true))
                            && Member(r.body, "filename") == Some(JStr(upload.value.filename))
                            && Member(r.body, "ocrResult") == Some(v)
              case Err(m) => r == HttpError(InternalServerError, "OCR processing failed: " + m)
  {
    if upload.None? then HttpError(BadRequest, "No file uploaded")
    else if !FileFilter(upload.value.originalName) then HttpError(BadRequest, "Only image files are allowed!")
    else
      match processOcr(upload.value.path)
      case Ok(v) =>
        var file := upload.value;
        LookupCons("success", JBool(true), [("filename", JStr(file.filename)), ("ocrResult", v)], "ocrResult");
        LookupCons("filename", JStr(file.filename), [("ocrResult", v)], "ocrResult");
        LookupCons("success", JBool(true), [("filename", JStr(file.filename)), ("ocrResult", v)], "filename");
        Created(SuccessBody(file, v))
      case Err(m) => HttpError(InternalServerError, "OCR processing failed: " + m)
  }

  /** The filter is case-sensitive where the OCR script is not: an
      upper-case `.JPG` is refused here and accepted there. */
  lemma FilterIsCaseSensitive()
    ensures !FileFilter("SCAN.JPG")
    ensures OcrService.Supported("SCAN.JPG")
  {
    var s := "SCAN.JPG";
    forall i | 0 <= i < |FilterSuffixes|
      ensures !EndsWith(s, FilterSuffixes[i])
    {
      assert s[|s| - 1] == 'G';
    }
    assert LowerAscii(s) == "scan.jpg";
    assert EndsWith(LowerAscii(s), OcrService.SupportedSuffixes[0]);
  }

  /** A `.gif` passes the upload filter but not the OCR script's check. */
  lemma GifPassesFilterOnly(name: string)
    requires EndsWith(name, ".gif")
    ensures FileFilter(name)
    ensures !OcrService.Supported(name)
  {
    assert EndsWith(name, FilterSuffixes[3]);
    OcrService.GifUnsupported(name);
  }

  /** For such a file the script returns its error dictionary without
      printing it, so standard output is empty and no line qualifies. */
  lemma GifLeavesNoJsonLine(path: string, texts: seq<string>, encode: Json -> string)
    requires EndsWith(path, ".gif")
    ensures !BackendService.Qualifies(BackendService.SelectedLine(OcrService.Stdout(path, texts, encode)))
  {
    OcrService.GifUnsupported(path);
    assert Trim("") == "";
    assert Find("", "\n") == -1;
    assert Split("", "\n") == [""];
  }

  /** A `.gif` upload whose `processOCR` rejects with the selector's
      message becomes a 500 carrying that message. The rejection itself is
      the premise: GifLeavesNoJsonLine shows that the script's output has no
      qualifying line, and BackendService.ProcessOcr's contract turns that
      into this rejection. */
  lemma GifUploadFails(file: UploadedFile, processOcr: string -> Result<Json>)
    requires EndsWith(file.originalName, ".gif")
    requires processOcr(file.path) == Err("No valid JSON output from OCR script")
    ensures UploadImage(Some(file), processOcr)
            == HttpError(InternalServerError, "OCR processing failed: " + "No valid JSON output from OCR script")
  {
    GifPassesFilterOnly(file.originalName);
  }
}
