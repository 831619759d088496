/** The OCR half of OCR/fast_ocr_processor.py: `extract_text` reads only the
    first page of the engine's answer and keeps every entry with at least two
    elements (there is no blank filter); the ultra-short prompt passes 600
    characters; `process_document` shapes whatever the plain brace slice
    decodes to. */
module FastExtraction {
  import opened JsonValues
  import opened Text
  import opened OcrShaping
  import FastResponse

  /** One line of a page: fewer than two elements, or `[bbox, (text, confidence)]`. */
  datatype FastLine = Short | Entry(bbox: string, text: string, confidence: real)

  /** The page `extract_text` reads: `result[0]`, when the result is a
      non-empty list and that page is not None. */
  function FirstPage(result: seq<Option<seq<FastLine>>>): seq<FastLine>
  {
    if |result| > 0 && result[0].Some? then result[0].value else []
  }

  /** The entries kept from the first `n` lines: every line that is not short. */
  function EntryDetails(lines: seq<FastLine>, n: nat): seq<Detail>
    requires n <= |lines|
  {
    if n == 0 then []
    else
      var line := lines[n - 1];
      EntryDetails(lines, n - 1) + (if line.Entry? then [Detail(line.bbox, line.text, line.confidence)] else [])
  }

  function ExtractedDetails(result: seq<Option<seq<FastLine>>>): seq<Detail>
  {
    EntryDetails(FirstPage(result), |FirstPage(result)|)
  }

  const PromptHead: string := "Extract insurance JSON from: "

  const PromptTail: string :=
    "\n\nReturn only this JSON structure:\n"
    + "{\"policy_number\":\"\",\"effective_dates\":{\"start\":\"\",\"end\":\"\"},"
    + "\"policyholder_details\":{\"full_name\":\"\",\"address\":\"\",\"city_state_zip\":\"\",\"phone\":\"\",\"email\":\"\",\"dob\":\"\",\"gender\":\"\",\"marital_status\":\"\"},"
    + "\"policy_information\":{\"policy_type\":\"\",\"issue_date\":\"\",\"term_length\":\"\",\"renewal_date\":\"\",\"agent\":\"\",\"agent_id\":\"\",\"office_phone\":\"\"},"
    + "\"insured_vehicle\":{\"year\":\"\",\"make\":\"\",\"model\":\"\",\"vin\":\"\",\"license_plate\":\"\",\"body_type\":\"\",\"usage_class\":\"\",\"mileage\":\"\",\"garage_zip\":\"\"},"
    + "\"driver_profile\":{\"primary_driver_name\":\"\",\"license_no\":\"\",\"license_date\":\"\",\"license_status\":\"\",\"age_group\":\"\",\"driving_record\":\"\",\"relationship\":\"\"},"
    + "\"coverage_limits_and_deductibles\":[],"
    + "\"discounts_applied\":{\"good_driver\":\"\",\"multi_policy\":\"\",\"vehicle_safety\":\"\",\"federal_employee\":\"\",\"total_savings\":\"\"},"
    + "\"billing_information\":{\"payment_method\":\"\",\"payment_plan\":\"\",\"monthly_amount\":\"\",\"next_due_date\":\"\",\"bank_account\":\"\"}}"

  /** How much OCR text the ultra-short prompt passes on. */
  const PromptBudget: nat := 600

  /** `create_fast_prompt`: `raw_text[:600] if len(raw_text) > 600 else
      raw_text` is the same prefix as a plain slice. */
  function Prompt(raw: string): string
  {
    PromptWith(PromptHead, PromptTail, raw, PromptBudget)
  }

  /** The prompt carries exactly the first min(600, |raw|) characters of the
      OCR text, right after the fixed head. */
  lemma PromptCarriesPrefix(raw: string)
    ensures var m := if |raw| < PromptBudget then |raw| else PromptBudget;
            && |Prompt(raw)| == |PromptHead| + m + |PromptTail|
            && Prompt(raw)[|PromptHead|..|PromptHead| + m] == raw[..m]
  {
    PromptEmbeds(PromptHead, PromptTail, raw, PromptBudget);
  }

  /** Short lines are skipped and every other line becomes one entry, blank
      text included: with no short line, the entries are the lines. */
  lemma {:induction false} EntryDetailsShape(lines: seq<FastLine>, n: nat)
    requires n <= |lines|
    ensures |EntryDetails(lines, n)| <= n
    ensures (forall i :: 0 <= i < n ==> lines[i].Entry?) ==>
              && |EntryDetails(lines, n)| == n
              && forall i :: 0 <= i < n ==>
                   EntryDetails(lines, n)[i] == Detail(lines[i].bbox, lines[i].text, lines[i].confidence)
  {
    if n > 0 {
      EntryDetailsShape(lines, n - 1);
    }
  }

  /** Pages after the first never contribute. */
  lemma FirstPageOnly(result: seq<Option<seq<FastLine>>>, more: seq<Option<seq<FastLine>>>)
    requires result != []
    ensures ExtractedDetails(result + more) == ExtractedDetails(result)
  {
    assert (result + more)[0] == result[0];
  }

  /** The mutable part of the fast extractor: the recorded OCR confidence,
      absent until `extract_text` has run. */
  class FastExtractor {
    var ocrConfidence: Option<real>

    constructor()
      ensures ocrConfidence == None
    {
      ocrConfidence := None;
    }

    /** `extract_text` over the engine's answer: the entries of the first
        page, their joined and stripped texts, and their average confidence
        (0 when there is none). */
    method ExtractText(result: seq<Option<seq<FastLine>>>) returns (rawText: string, detailed: seq<Detail>)
      modifies this
      ensures detailed == ExtractedDetails(result)
      ensures rawText == Strip(Join(Texts(detailed), BackslashN))
      ensures ocrConfidence == Some(Average(detailed))
    {
      var textBlocks: seq<string> := [];
      detailed := [];
      var total := 0.0;
      var count := 0;
      var page := FirstPage(result);
      var i := 0;
      while i < |page|
        invariant 0 <= i <= |page|
        invariant detailed == EntryDetails(page, i)
        invariant textBlocks == Texts(detailed)
        invariant total == Sum(detailed) && count == |detailed|
      {
        var line := page[i];
        if line.Entry? {
          var d := Detail(line.bbox, line.text, line.confidence);
          assert (detailed + [d])[..|detailed|] == detailed;
          textBlocks := textBlocks + [line.text];
          detailed := detailed + [d];
          total := total + line.confidence;
          count := count + 1;
        }
        i := i + 1;
      }
      rawText := Strip(Join(textBlocks, BackslashN));
      ocrConfidence := Some(if count > 0 then total / count as real else 0.0);
    }

    /** `process_document`: OCR, prompt, the model's answer (`llm`), then
        the parse and the shaping of the decoded value. */
    method ProcessDocument(imagePath: string, ocr: string -> seq<Option<seq<FastLine>>>, llm: string -> string,
                           decode: Decoder, timestamp: string, timings: Timings)
      returns (r: Shaped)
      modifies this
      ensures r.Shaped? <==> Answered(ocr(imagePath), llm, decode)
      ensures r.Shaped? ==> Member(r.doc, "text_blocks") == Some(JArr(TextBlockList(ExtractedDetails(ocr(imagePath)))))
      ensures r.Shaped? ==> Member(r.doc, "raw_ocr_text") == Some(JStr(Preview(RawOf(ocr(imagePath)))))
      ensures r.Shaped? ==>
                Member(r.doc, "accuracy_metrics") == Some(AccuracyPlaceholder(Some(Average(ExtractedDetails(ocr(imagePath))))))
    {
      var rawText, detailed := ExtractText(ocr(imagePath));
      assert rawText == RawOf(ocr(imagePath));
      var content := llm(Prompt(rawText));
      var outcome := FastResponse.ParseJsonResponse(content, decode);
      assert Answered(ocr(imagePath), llm, decode) <==> (if outcome.Parsed? then outcome.value else outcome.doc).JObj?;
      r := ShapeAnswer(outcome, detailed, rawText, imagePath, timestamp, ocrConfidence, timings);
    }
  }

  /** The raw text `extract_text` makes of the engine's answer. */
  function RawOf(result: seq<Option<seq<FastLine>>>): string
  {
    Strip(Join(Texts(ExtractedDetails(result)), BackslashN))
  }

  /** Whether the model's answer to the prompt for the engine's text gives
      a document to shape: a decoded object, or the fallback. */
  predicate Answered(result: seq<Option<seq<FastLine>>>, llm: string -> string, decode: Decoder)
  {
    var outcome := FastResponse.ParseJsonResponse(llm(Prompt(RawOf(result))), decode);
    outcome.FellBack? || outcome.value.JObj?
  }

  /** The rest of `process_document` once the answer is parsed: item
      assignment fails for a decoded value that is not an object
      (ShapeError). */
  method ShapeAnswer(outcome: FastResponse.Outcome, detailed: seq<Detail>, rawText: string, imagePath: string,
                     timestamp: string, ocrConfidence: Option<real>, timings: Timings)
    returns (r: Shaped)
    ensures r.Shaped? <==> (if outcome.Parsed? then outcome.value else outcome.doc).JObj?
    ensures r.Shaped? ==>
              && Member(r.doc, "text_blocks") == Some(JArr(TextBlockList(detailed)))
              && Member(r.doc, "raw_ocr_text") == Some(JStr(Preview(rawText)))
              && Member(r.doc, "document_metadata") == Some(DocumentMetadata(imagePath, timestamp))
              && Member(r.doc, "accuracy_metrics") == Some(AccuracyPlaceholder(ocrConfidence))
  {
    var extracted := if outcome.Parsed? then outcome.value else outcome.doc;
    r := ShapeDocument(extracted, detailed, rawText, imagePath, timestamp, ocrConfidence, timings);
  }
}
