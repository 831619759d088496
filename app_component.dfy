/** The root `App` component of frontend/src/app/app.ts: the same file
    check as the uploader, an upload that keeps the endpoint's `ocrResult`,
    and the text and confidence shown from it. */
module AppRoot {
  import opened JsonValues
  import PricingEngine
  import OcrService
  import UploadController
  import ImageUploader

  const BackendUnreachable: string :=
    "Failed to process image. Make sure the backend server is running on port 3000."

  /** `getExtractedText`: `ocrResult?.full_text || ''`. */
  function ExtractedText(ocrResult: Option<Json>): (t: string)
    ensures t != "" ==> ocrResult.Some? && Member(ocrResult.value, "full_text") == Some(JStr(t))
    ensures ocrResult.Some? && Member(ocrResult.value, "full_text").Some?
            && Member(ocrResult.value, "full_text").value.JStr? ==>
              t == Member(ocrResult.value, "full_text").value.s
  {
    if ocrResult.Some? && Member(ocrResult.value, "full_text").Some?
       && Member(ocrResult.value, "full_text").value.JStr?
    then Member(ocrResult.value, "full_text").value.s
    else ""
  }

  /** What `getConfidenceScore` yields: a whole percentage, `NaN` when a
      block has no `confidence`, or a throw from `reduce` on a non-empty
      string. */
  datatype Confidence = Percent(p: int) | NotANumber | Throws

  /** A block whose `confidence` is a number. */
  predicate HasConfidence(block: Json)
  {
    Member(block, "confidence").Some? && Member(block, "confidence").value.JNum?
  }

  /** The blocks' confidences, when every block carries a number. */
  function Confidences(blocks: seq<Json>): (cs: Option<seq<real>>)
    ensures cs.Some? <==> forall i :: 0 <= i < |blocks| ==> HasConfidence(blocks[i])
    ensures cs.Some? ==> |cs.value| == |blocks|
                         && forall i :: 0 <= i < |blocks| ==> cs.value[i] == Member(blocks[i], "confidence").value.n
  {
    if blocks == [] then Some([])
    else
      var c := Member(blocks[0], "confidence");
      var rest := Confidences(blocks[1..]);
      if c.Some? && c.value.JNum? && rest.Some? then Some([c.value.n] + rest.value) else None
  }

  function Total(cs: seq<real>): real
  {
    if cs == [] then 0.0 else cs[0] + Total(cs[1..])
  }

  /** `!ocrResult?.text_blocks?.length` is true: no result, no blocks, or a
      `text_blocks` whose `length` is 0 or undefined. */
  predicate NoBlocks(ocrResult: Option<Json>)
  {
    ocrResult.None? || Member(ocrResult.value, "text_blocks").None? ||
    match Member(ocrResult.value, "text_blocks").value
    case JArr(items) => items == []
    case JStr(s) => s == ""
    case _ => true
  }

  /** `getConfidenceScore`: 0 without blocks, else the rounded mean times 100. */
  function ConfidenceScore(ocrResult: Option<Json>): (c: Confidence)
    ensures NoBlocks(ocrResult) ==> c == Percent(0)
  {
    if NoBlocks(ocrResult) then Percent(0)
    else
      match Member(ocrResult.value, "text_blocks").value
      case JArr(items) =>
        var cs := Confidences(items);
        if cs.Some? then Percent(PricingEngine.Round(Total(cs.value) / (|items| as real) * 100.0)) else NotANumber
      case _ => Throws
  }

  lemma {:induction false} TotalBounds(cs: seq<real>)
    requires forall i :: 0 <= i < |cs| ==> 0.0 <= cs[i] <= 1.0
    ensures 0.0 <= Total(cs) <= |cs| as real
  {
    if cs != [] {
      TotalBounds(cs[1..]);
    }
  }

  /** Blocks whose confidences lie in [0, 1] score a whole percentage
      between 0 and 100. */
  lemma ConfidenceScoreBounds(ocrResult: Option<Json>, items: seq<Json>)
    requires ocrResult.Some? && Member(ocrResult.value, "text_blocks") == Some(JArr(items)) && items != []
    requires forall i :: 0 <= i < |items| ==>
               HasConfidence(items[i]) && 0.0 <= Member(items[i], "confidence").value.n <= 1.0
    ensures ConfidenceScore(ocrResult).Percent?
    ensures 0 <= ConfidenceScore(ocrResult).p <= 100
  {
    var cs := Confidences(items).value;
    TotalBounds(cs);
    var mean := Total(cs) / (|items| as real);
    assert 0.0 <= mean <= 1.0;
    PricingEngine.RoundMonotone(0.0, mean * 100.0);
    PricingEngine.RoundMonotone(mean * 100.0, 100.0);
    PricingEngine.RoundOfInt(0);
    PricingEngine.RoundOfInt(100);
  }

  /** The OCR script's blocks are bare strings, so its output scores 0
      without text and `NaN` with any. */
  lemma ScriptOutputConfidence(imagePath: string, texts: seq<string>)
    ensures ConfidenceScore(Some(OcrService.SuccessOutput(imagePath, texts))) ==
              if texts == [] then Percent(0) else NotANumber
  {
    var out := OcrService.SuccessOutput(imagePath, texts);
    var blocks := seq(|texts|, i requires 0 <= i < |texts| => JStr(texts[i]));
    assert Member(out, "text_blocks") == Some(JArr(blocks)) by {
      LookupCons("status", JStr("success"), out.fields[1..], "text_blocks");
      LookupCons("image_path", JStr(imagePath), out.fields[2..], "text_blocks");
    }
    if texts != [] {
      assert Member(blocks[0], "confidence").None?;
    }
  }

  /** The shown text of the script's output is its texts joined by spaces. */
  lemma ScriptOutputText(imagePath: string, texts: seq<string>)
    ensures ExtractedText(Some(OcrService.SuccessOutput(imagePath, texts))) == OcrService.FullText(texts)
  {
    var out := OcrService.SuccessOutput(imagePath, texts);
    var blocks := seq(|texts|, i requires 0 <= i < |texts| => JStr(texts[i]));
    LookupCons("status", JStr("success"), out.fields[1..], "full_text");
    LookupCons("image_path", JStr(imagePath), out.fields[2..], "full_text");
    LookupCons("text_blocks", JArr(blocks), out.fields[3..], "full_text");
  }

  class App {
    var selectedFile: Option<ImageUploader.SelectedFile>
    var ocrResult: Option<Json>
    var isProcessing: bool
    var error: string

    constructor()
      ensures selectedFile.None? && ocrResult.None? && !isProcessing && error == ""
    {
      selectedFile := None;
      ocrResult := None;
      isProcessing := false;
      error := "";
    }

    /** `onFileSelected`: no file changes nothing; a refused file clears the
        selection and keeps the previous result; an accepted one clears the
        error and the result. */
    method OnFileSelected(file: Option<ImageUploader.SelectedFile>)
      modifies this
      ensures file.None? ==> selectedFile == old(selectedFile) && ocrResult == old(ocrResult) && error == old(error)
      ensures file.Some? && ImageUploader.ValidateFile(file.value).Some? ==>
                error == ImageUploader.ValidateFile(file.value).value && selectedFile.None? && ocrResult == old(ocrResult)
      ensures file.Some? && ImageUploader.ValidateFile(file.value).None? ==>
                selectedFile == file && error == "" && ocrResult.None?
      ensures isProcessing == old(isProcessing)
    {
      if file.Some? {
        var validation := ImageUploader.ValidateFile(file.value);
        if validation.Some? {
          error := validation.value;
          selectedFile := None;
          return;
        }
        selectedFile := file;
        error := "";
        ocrResult := None;
      }
    }

    /** `uploadImage` up to the request: nothing happens without a file. */
    method UploadImage() returns (sent: bool)
      modifies this
      ensures sent <==> old(selectedFile).Some?
      ensures !sent ==> isProcessing == old(isProcessing) && error == old(error)
      ensures sent ==> isProcessing && error == ""
      ensures selectedFile == old(selectedFile) && ocrResult == old(ocrResult)
    {
      if selectedFile.None? {
        return false;
      }
      isProcessing := true;
      error := "";
      sent := true;
    }

    /** The success handler: `response.ocrResult` is kept (absent when the
        body has none). */
    method OnUploadResult(response: Json)
      requires !response.JNull?
      modifies this
      ensures ocrResult == Member(response, "ocrResult") && !isProcessing
      ensures selectedFile == old(selectedFile) && error == old(error)
    {
      ocrResult := Member(response, "ocrResult");
      isProcessing := false;
    }

    /** The error handler: one fixed message whatever the failure. */
    method OnUploadError()
      modifies this
      ensures error == BackendUnreachable && !isProcessing
      ensures selectedFile == old(selectedFile) && ocrResult == old(ocrResult)
    {
      error := BackendUnreachable;
      isProcessing := false;
    }

    /** `resetForm`. */
    method ResetForm()
      modifies this
      ensures selectedFile.None? && ocrResult.None? && error == "" && !isProcessing
    {
      selectedFile := None;
      ocrResult := None;
      error := "";
      isProcessing := false;
    }

    function GetExtractedText(): string
      reads this
    {
      ExtractedText(ocrResult)
    }

    function GetConfidenceScore(): Confidence
      reads this
    {
      ConfidenceScore(ocrResult)
    }
  }

  /** Unlike the uploader, the root component unwraps the endpoint's body:
      after a successful upload it holds exactly the OCR result. */
  lemma UnwrapsControllerBody(file: UploadController.UploadedFile, v: Json)
    ensures Member(UploadController.SuccessBody(file, v), "ocrResult") == Some(v)
  {
    LookupCons("success", JBool(true), [("filename", JStr(file.filename)), ("ocrResult", v)], "ocrResult");
    LookupCons("filename", JStr(file.filename), [("ocrResult", v)], "ocrResult");
  }
}
