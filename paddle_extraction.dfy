/** The OCR half of OCR/paddleocr_to_json.py: turning the engine's pages into
    kept text entries (`process_ocr_result`), concatenating the pages of a PDF
    (`extract_text_from_pdf`), the compact prompt, and the `process_document`
    pipeline that feeds the prompt's answer to the shaping code. */
module PaddleExtraction {
  import opened JsonValues
  import opened Text
  import opened OcrShaping
  import PaddleResponse

  /** The score used when the engine gives none. */
  const DefaultConfidence: real := 0.9

  /** One line of the traditional `[bbox, (text, confidence)]` format; the
      score is None when the line's second element is not a pair, and then
      0.9 is used. */
  datatype OcrLine = OcrLine(bbox: string, text: string, score: Option<real>)

  /** One page of the engine's answer: the newer record with parallel
      `rec_texts`, `dt_polys` and `rec_scores` lists, or a list of lines. */
  datatype OcrPage =
    | RecPage(texts: seq<string>, polys: seq<string>, scores: seq<real>)
    | LinePage(lines: seq<OcrLine>)

  /** The entry kept for `rec_texts[i]`: stripped text, the polygon or
      `bbox_i`, and the score or 0.9 when the parallel lists are shorter. */
  function RecEntry(texts: seq<string>, polys: seq<string>, scores: seq<real>, i: nat): Detail
    requires i < |texts|
  {
    Detail(if i < |polys| then polys[i] else "bbox_" + NatToString(i),
           Strip(texts[i]),
           if i < |scores| then scores[i] else DefaultConfidence)
  }

  /** Entries kept from the first `n` recognised texts: the non-blank ones. */
  function RecDetails(texts: seq<string>, polys: seq<string>, scores: seq<real>, n: nat): seq<Detail>
    requires n <= |texts|
  {
    if n == 0 then []
    else RecDetails(texts, polys, scores, n - 1)
         + (if Strip(texts[n - 1]) != "" then [RecEntry(texts, polys, scores, n - 1)] else [])
  }

  /** A traditional line keeps its text unstripped. */
  function LineEntry(line: OcrLine): Detail
  {
    Detail(line.bbox, line.text, line.score.GetOr(DefaultConfidence))
  }

  function LineDetails(lines: seq<OcrLine>, n: nat): seq<Detail>
    requires n <= |lines|
  {
    if n == 0 then []
    else LineDetails(lines, n - 1) + (if Strip(lines[n - 1].text) != "" then [LineEntry(lines[n - 1])] else [])
  }

  function PageDetails(page: OcrPage): seq<Detail>
  {
    match page
    case RecPage(texts, polys, scores) => RecDetails(texts, polys, scores, |texts|)
    case LinePage(lines) => LineDetails(lines, |lines|)
  }

  /** The `detailed_result` of `process_ocr_result`: the pages' kept entries
      in order. */
  function ResultDetails(result: seq<OcrPage>): seq<Detail>
  {
    if result == [] then [] else ResultDetails(result[..|result| - 1]) + PageDetails(result[|result| - 1])
  }

  /** `"\\n".join(text_blocks).strip()`. */
  function RawText(ds: seq<Detail>): string
  {
    Strip(Join(Texts(ds), BackslashN))
  }

  /** `f"\\n--- PAGE {i + 1} ---\\n"`. */
  function PageSeparator(i: nat): string
  {
    BackslashN + "--- PAGE " + NatToString(i + 1) + " ---" + BackslashN
  }

  /** `combined_text` after the given page texts: a separator goes in front
      of every page but the first. */
  function PdfParts(pageTexts: seq<string>): seq<string>
  {
    if pageTexts == [] then []
    else
      var n := |pageTexts| - 1;
      PdfParts(pageTexts[..n]) + (if n > 0 then [PageSeparator(n)] else []) + [pageTexts[n]]
  }

  /** The raw text of every page, each from its own `process_ocr_result`. */
  function PageTexts(pages: seq<seq<OcrPage>>): (ts: seq<string>)
    ensures |ts| == |pages|
  {
    if pages == [] then [] else PageTexts(pages[..|pages| - 1]) + [RawText(ResultDetails(pages[|pages| - 1]))]
  }

  /** `all_detailed_results`: the entries of every page, in page order. */
  function PdfDetails(pages: seq<seq<OcrPage>>): seq<Detail>
  {
    if pages == [] then [] else PdfDetails(pages[..|pages| - 1]) + ResultDetails(pages[|pages| - 1])
  }

  function PdfRawText(pages: seq<seq<OcrPage>>): string
  {
    Join(PdfParts(PageTexts(pages)), BackslashN)
  }

  /** `extract_text` treats a path ending in `.pdf`, in any case, as a PDF. */
  predicate IsPdf(path: string)
  {
    EndsWith(LowerAscii(path), ".pdf")
  }

  /** The engine's answer for every page image of a PDF. */
  function ScanPages(images: seq<string>, ocr: string -> seq<OcrPage>): (pages: seq<seq<OcrPage>>)
    ensures |pages| == |images|
  {
    seq(|images|, i requires 0 <= i < |images| => ocr(images[i]))
  }

  const PromptHead: string := "Extract insurance data from this text and return structured JSON:\n\n"

  const PromptTail: string :=
    "\n\nReturn this exact structure with data from the text:\n"
    + "{\"policy_number\":\"\",\"effective_dates\":{\"start\":\"\",\"end\":\"\"},"
    + "\"policyholder_details\":{\"full_name\":\"\",\"address\":\"\",\"city_state_zip\":\"\",\"phone\":\"\",\"email\":\"\",\"dob\":\"\",\"gender\":\"\",\"marital_status\":\"\"},"
    + "\"policy_information\":{\"policy_type\":\"\",\"issue_date\":\"\",\"term_length\":\"\",\"renewal_date\":\"\",\"agent\":\"\",\"agent_id\":\"\",\"office_phone\":\"\"},"
    + "\"insured_vehicle\":{\"year\":\"\",\"make\":\"\",\"model\":\"\",\"vin\":\"\",\"license_plate\":\"\",\"body_type\":\"\",\"usage_class\":\"\",\"mileage\":\"\",\"garage_zip\":\"\"}}"
    + "\n\nExtract policy effective dates from \"Effective:\" line. Extract values after colons. Return only JSON."

  /** How much OCR text `create_fast_prompt` passes on. */
  const PromptBudget: nat := 1800

  /** `create_fast_prompt`. */
  function Prompt(raw: string): string
  {
    PromptWith(PromptHead, PromptTail, raw, PromptBudget)
  }

  /** The prompt carries exactly the first min(1800, |raw|) characters of the
      OCR text, right after the fixed head. */
  lemma PromptCarriesPrefix(raw: string)
    ensures var m := if |raw| < PromptBudget then |raw| else PromptBudget;
            && |Prompt(raw)| == |PromptHead| + m + |PromptTail|
            && Prompt(raw)[|PromptHead|..|PromptHead| + m] == raw[..m]
  {
    PromptEmbeds(PromptHead, PromptTail, raw, PromptBudget);
  }

  /** Every kept entry has text that is not blank. */
  lemma {:induction false} RecDetailsNonBlank(texts: seq<string>, polys: seq<string>, scores: seq<real>, n: nat)
    requires n <= |texts|
    ensures forall d :: d in RecDetails(texts, polys, scores, n) ==> Strip(d.text) != "" && d.text == Strip(d.text)
    ensures |RecDetails(texts, polys, scores, n)| <= n
  {
    if n > 0 {
      RecDetailsNonBlank(texts, polys, scores, n - 1);
      StripIdempotent(texts[n - 1]);
    }
  }

  /** A recognised text is kept exactly when it is not blank: the kept count
      grows by one at a non-blank text and stays put at a blank one, and the
      new entry carries the given or the default score. */
  lemma RecDetailsStep(texts: seq<string>, polys: seq<string>, scores: seq<real>, n: nat)
    requires n < |texts|
    ensures Strip(texts[n]) != "" ==>
              && |RecDetails(texts, polys, scores, n + 1)| == |RecDetails(texts, polys, scores, n)| + 1
              && RecDetails(texts, polys, scores, n + 1)[|RecDetails(texts, polys, scores, n)|].confidence
                 == (if n < |scores| then scores[n] else DefaultConfidence)
    ensures Strip(texts[n]) == "" ==> RecDetails(texts, polys, scores, n + 1) == RecDetails(texts, polys, scores, n)
  {
  }

  lemma {:induction false} LineDetailsNonBlank(lines: seq<OcrLine>, n: nat)
    requires n <= |lines|
    ensures forall d :: d in LineDetails(lines, n) ==> Strip(d.text) != ""
    ensures |LineDetails(lines, n)| <= n
  {
    if n > 0 {
      LineDetailsNonBlank(lines, n - 1);
    }
  }

  /** No kept entry of any page has blank text. */
  lemma {:induction false} ResultDetailsNonBlank(result: seq<OcrPage>)
    ensures forall d :: d in ResultDetails(result) ==> Strip(d.text) != ""
  {
    if result != [] {
      ResultDetailsNonBlank(result[..|result| - 1]);
      match result[|result| - 1]
      case RecPage(texts, polys, scores) => RecDetailsNonBlank(texts, polys, scores, |texts|);
      case LinePage(lines) => LineDetailsNonBlank(lines, |lines|);
    }
  }

  /** The page list alternates page texts and separators: page `i` sits at
      position 2i and the separator naming page i+1 right before it. */
  lemma {:induction false} PdfPartsShape(ts: seq<string>)
    ensures |PdfParts(ts)| == if ts == [] then 0 else 2 * |ts| - 1
    ensures forall i :: 0 <= i < |ts| ==> PdfParts(ts)[2 * i] == ts[i]
    ensures forall i :: 1 <= i < |ts| ==> PdfParts(ts)[2 * i - 1] == PageSeparator(i)
  {
    if ts != [] {
      var n := |ts| - 1;
      PdfPartsShape(ts[..n]);
    }
  }

  /** One more page: its separator (from the second page on), its text and
      its entries go last. */
  lemma PdfStep(pages: seq<seq<OcrPage>>, i: nat)
    requires i < |pages|
    ensures PdfParts(PageTexts(pages[..i + 1]))
            == PdfParts(PageTexts(pages[..i])) + (if i > 0 then [PageSeparator(i)] else []) + [RawText(ResultDetails(pages[i]))]
    ensures PdfDetails(pages[..i + 1]) == PdfDetails(pages[..i]) + ResultDetails(pages[i])
    ensures |PdfParts(PageTexts(pages[..i]))| > 0 <==> i > 0
  {
    assert pages[..i + 1][..i] == pages[..i];
    PdfPartsShape(PageTexts(pages[..i]));
  }

  /** Without any entry, the last page had none either. */
  lemma NoPdfDetails(pages: seq<seq<OcrPage>>)
    requires pages != [] && PdfDetails(pages) == []
    ensures Average(ResultDetails(pages[|pages| - 1])) == 0.0
  {
  }

  /** A one-page PDF yields that page's text with no separator. */
  lemma SinglePagePdf(page: seq<OcrPage>)
    ensures PdfRawText([page]) == RawText(ResultDetails(page))
    ensures PdfDetails([page]) == ResultDetails(page)
  {
    assert [page][..0] == [];
    assert PageTexts([page]) == [RawText(ResultDetails(page))];
    assert PdfParts(PageTexts([page])) == [RawText(ResultDetails(page))];
  }

  /** The running lists and totals of `process_ocr_result` agree: one text
      per entry, the sum of the confidences and the number of entries. */
  predicate Tallied(textBlocks: seq<string>, detailed: seq<Detail>, total: real, count: int)
  {
    textBlocks == Texts(detailed) && total == Sum(detailed) && count == |detailed|
  }

  lemma TallyAppend(textBlocks: seq<string>, detailed: seq<Detail>, total: real, count: int, d: Detail)
    requires Tallied(textBlocks, detailed, total, count)
    ensures Tallied(textBlocks + [d.text], detailed + [d], total + d.confidence, count + 1)
  {
    assert (detailed + [d])[..|detailed|] == detailed;
  }

  /** Appending one kept entry to the running lists and totals. */
  method KeepDetail(textBlocks0: seq<string>, detailed0: seq<Detail>, total0: real, count0: int, d: Detail)
    returns (textBlocks: seq<string>, detailed: seq<Detail>, total: real, count: int)
    requires Tallied(textBlocks0, detailed0, total0, count0)
    ensures detailed == detailed0 + [d]
    ensures Tallied(textBlocks, detailed, total, count)
  {
    TallyAppend(textBlocks0, detailed0, total0, count0, d);
    textBlocks := textBlocks0 + [d.text];
    detailed := detailed0 + [d];
    total := total0 + d.confidence;
    count := count0 + 1;
  }

  /** One step of the `rec_texts` loop: a kept entry goes last, a blank
      text adds nothing. */
  lemma RecStep(texts: seq<string>, polys: seq<string>, scores: seq<real>, i: nat,
                detailed0: seq<Detail>, detailed: seq<Detail>)
    requires i < |texts|
    requires detailed == detailed0 + RecDetails(texts, polys, scores, i)
    ensures Strip(texts[i]) != "" ==> detailed + [RecEntry(texts, polys, scores, i)] == detailed0 + RecDetails(texts, polys, scores, i + 1)
    ensures Strip(texts[i]) == "" ==> detailed == detailed0 + RecDetails(texts, polys, scores, i + 1)
  {
    var prev := RecDetails(texts, polys, scores, i);
    if Strip(texts[i]) != "" {
      assert detailed0 + prev + [RecEntry(texts, polys, scores, i)] == detailed0 + (prev + [RecEntry(texts, polys, scores, i)]);
    } else {
      assert prev + [] == prev;
    }
  }

  /** One step of the line loop, as for `rec_texts`. */
  lemma LineStep(lines: seq<OcrLine>, i: nat, detailed0: seq<Detail>, detailed: seq<Detail>)
    requires i < |lines|
    requires detailed == detailed0 + LineDetails(lines, i)
    ensures Strip(lines[i].text) != "" ==> detailed + [LineEntry(lines[i])] == detailed0 + LineDetails(lines, i + 1)
    ensures Strip(lines[i].text) == "" ==> detailed == detailed0 + LineDetails(lines, i + 1)
  {
    var prev := LineDetails(lines, i);
    if Strip(lines[i].text) != "" {
      assert detailed0 + prev + [LineEntry(lines[i])] == detailed0 + (prev + [LineEntry(lines[i])]);
    } else {
      assert prev + [] == prev;
    }
  }

  /** The loop over `rec_texts` of one page. */
  method KeepRecTexts(texts: seq<string>, polys: seq<string>, scores: seq<real>,
                      textBlocks0: seq<string>, detailed0: seq<Detail>, total0: real, count0: int)
    returns (textBlocks: seq<string>, detailed: seq<Detail>, total: real, count: int)
    requires Tallied(textBlocks0, detailed0, total0, count0)
    ensures detailed == detailed0 + RecDetails(texts, polys, scores, |texts|)
    ensures Tallied(textBlocks, detailed, total, count)
  {
    textBlocks, detailed, total, count := textBlocks0, detailed0, total0, count0;
    var i := 0;
    while i < |texts|
      invariant 0 <= i <= |texts|
      invariant detailed == detailed0 + RecDetails(texts, polys, scores, i)
      invariant Tallied(textBlocks, detailed, total, count)
    {
      var text := texts[i];
      RecStep(texts, polys, scores, i, detailed0, detailed);
      if Strip(text) != "" {
        var confidence := if i < |scores| then scores[i] else DefaultConfidence;
        var bbox := if i < |polys| then polys[i] else "bbox_" + NatToString(i);
        var d := Detail(bbox, Strip(text), confidence);
        assert d == RecEntry(texts, polys, scores, i);
        textBlocks, detailed, total, count := KeepDetail(textBlocks, detailed, total, count, d);
      }
      i := i + 1;
    }
  }

  /** The loop over the traditional lines of one page. */
  method KeepLines(lines: seq<OcrLine>,
                   textBlocks0: seq<string>, detailed0: seq<Detail>, total0: real, count0: int)
    returns (textBlocks: seq<string>, detailed: seq<Detail>, total: real, count: int)
    requires Tallied(textBlocks0, detailed0, total0, count0)
    ensures detailed == detailed0 + LineDetails(lines, |lines|)
    ensures Tallied(textBlocks, detailed, total, count)
  {
    textBlocks, detailed, total, count := textBlocks0, detailed0, total0, count0;
    var i := 0;
    while i < |lines|
      invariant 0 <= i <= |lines|
      invariant detailed == detailed0 + LineDetails(lines, i)
      invariant Tallied(textBlocks, detailed, total, count)
    {
      var line := lines[i];
      LineStep(lines, i, detailed0, detailed);
      if Strip(line.text) != "" {
        var confidence := if line.score.Some? then line.score.value else DefaultConfidence;
        var d := Detail(line.bbox, line.text, confidence);
        textBlocks, detailed, total, count := KeepDetail(textBlocks, detailed, total, count, d);
      }
      i := i + 1;
    }
  }

  /** The mutable part of `FastInsuranceExtractor`: the recorded OCR
      confidence (`confidence_scores['ocr_confidence']`), absent until the
      first page is processed. */
  class PaddleExtractor {
    var ocrConfidence: Option<real>

    constructor()
      ensures ocrConfidence == None
    {
      ocrConfidence := None;
    }

    /** `process_ocr_result`: keeps the non-blank entries of every page,
        joins their texts and records their average confidence, 0 when
        nothing was kept. */
    method ProcessOcrResult(result: seq<OcrPage>) returns (rawText: string, detailed: seq<Detail>)
      modifies this
      ensures detailed == ResultDetails(result)
      ensures rawText == RawText(detailed)
      ensures ocrConfidence == Some(Average(detailed))
    {
      var textBlocks: seq<string> := [];
      detailed := [];
      var total := 0.0;
      var count := 0;
      var p := 0;
      while p < |result|
        invariant 0 <= p <= |result|
        invariant detailed == ResultDetails(result[..p])
        invariant Tallied(textBlocks, detailed, total, count)
      {
        assert result[..p + 1][..p] == result[..p];
        match result[p] {
          case RecPage(texts, polys, scores) =>
            textBlocks, detailed, total, count := KeepRecTexts(texts, polys, scores, textBlocks, detailed, total, count);
          case LinePage(lines) =>
            textBlocks, detailed, total, count := KeepLines(lines, textBlocks, detailed, total, count);
        }
        p := p + 1;
      }
      assert result[..p] == result;
      rawText := Strip(Join(textBlocks, BackslashN));
      ocrConfidence := Some(if count > 0 then total / count as real else 0.0);
    }

    /** One page's text added to the combined parts, after the page separator
        unless it is the first part. */
    static method AppendPageText(combined: seq<string>, i: nat, pageText: string) returns (r: seq<string>)
      requires |combined| > 0 <==> i > 0
      ensures r == combined + (if i > 0 then [PageSeparator(i)] else []) + [pageText]
    {
      r := combined;
      if |r| > 0 {
        r := r + [PageSeparator(i)];
      }
      r := r + [pageText];
    }

    /** `extract_text_from_pdf` over the engine's answer for each page image:
        page texts with a separator before every page but the first, all
        entries in page order, and the overall average when some entry was
        kept; otherwise what the last page recorded (0), or nothing new for
        a PDF without pages. */
    method ExtractTextFromPdf(pages: seq<seq<OcrPage>>) returns (rawText: string, detailed: seq<Detail>)
      modifies this
      ensures detailed == PdfDetails(pages)
      ensures rawText == PdfRawText(pages)
      ensures |detailed| > 0 ==> ocrConfidence == Some(Average(detailed))
      ensures |detailed| == 0 && pages != [] ==> ocrConfidence == Some(0.0)
      ensures pages == [] ==> ocrConfidence == old(ocrConfidence)
    {
      var combined: seq<string> := [];
      detailed := [];
      var total := 0.0;
      var count := 0;
      var i := 0;
      while i < |pages|
        invariant 0 <= i <= |pages|
        invariant combined == PdfParts(PageTexts(pages[..i]))
        invariant detailed == PdfDetails(pages[..i])
        invariant total == Sum(detailed) && count == |detailed|
        invariant i == 0 ==> ocrConfidence == old(ocrConfidence)
        invariant i > 0 ==> ocrConfidence == Some(Average(ResultDetails(pages[i - 1])))
      {
        PdfStep(pages, i);
        var pageText, pageDetailed := ProcessOcrResult(pages[i]);
        combined := AppendPageText(combined, i, pageText);
        SumAppend(detailed, pageDetailed);
        detailed := detailed + pageDetailed;
        total := total + Sum(pageDetailed);
        count := count + |pageDetailed|;
        i := i + 1;
      }
      assert pages[..i] == pages;
      if count > 0 {
        ocrConfidence := Some(total / count as real);
      } else if pages != [] {
        NoPdfDetails(pages);
      }
      rawText := Join(combined, BackslashN);
    }

    /** `extract_text` after the file-existence check: a `.pdf` path goes
        through its page images, anything else is one image. */
    method ExtractText(filePath: string, ocr: string -> seq<OcrPage>, rasterize: string -> seq<string>)
      returns (rawText: string, detailed: seq<Detail>)
      modifies this
      ensures IsPdf(filePath) ==> detailed == PdfDetails(ScanPages(rasterize(filePath), ocr))
                                  && rawText == PdfRawText(ScanPages(rasterize(filePath), ocr))
      ensures IsPdf(filePath) && |detailed| > 0 ==> ocrConfidence == Some(Average(detailed))
      ensures IsPdf(filePath) && |detailed| == 0 && rasterize(filePath) != [] ==> ocrConfidence == Some(0.0)
      ensures IsPdf(filePath) && rasterize(filePath) == [] ==> ocrConfidence == old(ocrConfidence)
      ensures !IsPdf(filePath) ==> detailed == ResultDetails(ocr(filePath)) && rawText == RawText(detailed)
                                   && ocrConfidence == Some(Average(detailed))
    {
      if IsPdf(filePath) {
        rawText, detailed := ExtractTextFromPdf(ScanPages(rasterize(filePath), ocr));
      } else {
        rawText, detailed := ProcessOcrResult(ocr(filePath));
      }
    }

    /** `process_document`: OCR, prompt, the model's answer (`llm`), then
        the parse and the shaping of the decoded object. */
    method ProcessDocument(imagePath: string, ocr: string -> seq<OcrPage>, rasterize: string -> seq<string>,
                           llm: string -> string, decode: Decoder, timestamp: string, timings: Timings)
      returns (r: Shaped)
      modifies this
      ensures !IsPdf(imagePath) ==>
                var details := ResultDetails(ocr(imagePath));
                && (r.Shaped? <==> !PaddleResponse.ResponseOutcome(llm(Prompt(RawText(details))), decode).Raised?)
                && (r.Shaped? ==>
                      && Member(r.doc, "text_blocks") == Some(JArr(TextBlockList(details)))
                      && Member(r.doc, "raw_ocr_text") == Some(JStr(Preview(RawText(details))))
                      && Member(r.doc, "accuracy_metrics") == Some(AccuracyPlaceholder(Some(Average(details)))))
      ensures IsPdf(imagePath) ==>
                var pages := ScanPages(rasterize(imagePath), ocr);
                && (r.Shaped? <==> !PaddleResponse.ResponseOutcome(llm(Prompt(PdfRawText(pages))), decode).Raised?)
                && (r.Shaped? ==>
                      && Member(r.doc, "text_blocks") == Some(JArr(TextBlockList(PdfDetails(pages))))
                      && Member(r.doc, "raw_ocr_text") == Some(JStr(Preview(PdfRawText(pages))))
                      && (PdfDetails(pages) != [] ==>
                            Member(r.doc, "accuracy_metrics") == Some(AccuracyPlaceholder(Some(Average(PdfDetails(pages))))))
                      && (PdfDetails(pages) == [] && pages != [] ==>
                            Member(r.doc, "accuracy_metrics") == Some(AccuracyPlaceholder(Some(0.0))))
                      && (pages == [] ==>
                            Member(r.doc, "accuracy_metrics") == Some(AccuracyPlaceholder(old(ocrConfidence)))))
    {
      var rawText, detailed := ExtractText(imagePath, ocr, rasterize);
      var content := llm(Prompt(rawText));
      r := ShapeAnswer(content, decode, detailed, rawText, imagePath, timestamp, ocrConfidence, timings);
    }
  }

  /** The rest of `process_document` once the model has answered: the
      brace-scanning parse, then the members added to the decoded object.
      The exception raised for a non-object answer is ShapeError; the
      fallback document is an object and is shaped like any answer. */
  method ShapeAnswer(content: string, decode: Decoder, detailed: seq<Detail>, rawText: string, imagePath: string,
                     timestamp: string, ocrConfidence: Option<real>, timings: Timings)
    returns (r: Shaped)
    ensures r.Shaped? <==> !PaddleResponse.ResponseOutcome(content, decode).Raised?
    ensures r.Shaped? ==>
              && Member(r.doc, "text_blocks") == Some(JArr(TextBlockList(detailed)))
              && Member(r.doc, "raw_ocr_text") == Some(JStr(Preview(rawText)))
              && Member(r.doc, "document_metadata") == Some(DocumentMetadata(imagePath, timestamp))
              && Member(r.doc, "accuracy_metrics") == Some(AccuracyPlaceholder(ocrConfidence))
  {
    var outcome := PaddleResponse.ParseJsonResponse(content, decode);
    PaddleResponse.RoutedDocIsObject(decode(PaddleResponse.Candidate(content)));
    if outcome.Raised? {
      r := ShapeError;
    } else {
      r := ShapeDocument(outcome.doc, detailed, rawText, imagePath, timestamp, ocrConfidence, timings);
    }
  }
}
