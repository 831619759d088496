# Insurance document OCR and risk rules, modelled in Dafny

This project models the deterministic core of an insurance-document system.
The system reads a scanned auto-insurance policy with an OCR engine, asks a
local language model to turn the recognised text into structured JSON, and
shows the result in an Angular front end. It also has a NestJS back end with
risk-scoring, pricing and IoT-monitoring rules. The OCR engine, the language
model, JSON decoding and the subprocess call are all outside the model. They
appear as function-typed parameters (`Decoder = string -> Result<Json>`, an
`ocr` or `llm` function), so every property holds for any engine, any model
answer and any decoder.

The modules follow the source files:

- `JsonValues` (json.dfy) holds the `Json` value type. Objects are ordered
  `seq<(string, Json)>`, as Python dicts and JS objects are. It also holds
  key lookup, assignment and Python/JS truthiness.
- `Text` (text.dfy) holds the string primitives the scripts use: `strip`,
  `find`, `rfind`, Python slicing, `split`, `join`, `lower` on ASCII, and
  `replace` of one character.
- `PaddleResponse`, `FastResponse` and `OllamaResponse` model the three
  different ways the scripts cut a JSON candidate out of a model answer and
  route a decode failure to a fallback document. They cover
  `parse_json_response` in OCR/paddleocr_to_json.py and in
  OCR/fast_ocr_processor.py, and `parse_with_ollama` in OCR/extract_to_json.py.
- `FlatSchema` holds the nine-key, all-empty fallback document that both
  `parse_json_response` variants return.
- `Completeness` models the recursive `count_fields` walk and the
  completeness percentage of `calculate_extraction_accuracy`.
- `OcrShaping`, `PaddleExtraction` and `FastExtraction` cover the rest of the
  pipeline:
  - which OCR entries are kept, and the average confidence;
  - page separators for PDFs and the truncated prompt;
  - the `text_blocks`, preview and metadata that `process_document` writes
    into the answer;
  - the `--raw-text` mode.
- `OcrService`, `BackendService` and `UploadController` model the upload
  path:
  - the suffix check and output of OCR/ocr_service.py;
  - the last-JSON-line selector of `processOCR`;
  - the controller's extension filter and error replies.
- `RiskAssessment` and `PricingEngine` model the back-end rule tables. This
  includes the per-driver behaviour history, kept to the 6 newest records.
- `IotMonitor`, `RiskDashboard`, `ImageUploader` and `AppRoot` are the
  Angular components. Each is a class whose methods update its fields as the
  component does.

## Model

| member | source | states |
|---|---|---|
| JsonValues.Lookup | OCR/extract_to_json.py:259 | A key is found exactly when it is among the object's keys; this is Python's `in` on a dict. |
| JsonValues.Assign | OCR/paddleocr_to_json.py:384-415 | `d[key] = v` makes the key map to `v` and leaves every other key's value alone. An existing key keeps its position; a new key goes last. |
| JsonValues.EmptyStrings | OCR/paddleocr_to_json.py:349-356 | The keys come out in the given order, each mapped to `""`, as in the fallback's sub-objects. |
| JsonValues.Zip | OCR/paddleocr_to_json.py:347-357 | A dict literal: entry i pairs the i-th key with the i-th value. |
| JsonValues.LookupAt | OCR/paddleocr_to_json.py:347-357 | In a dict literal whose key i does not occur earlier, looking up key i yields value i. |
| Text.StripIdempotent | OCR/paddleocr_to_json.py:261 | Python `strip()` applied twice equals applying it once. |
| Text.Strip | OCR/paddleocr_to_json.py:309 | `strip()` never lengthens the text, and the result neither starts nor ends with whitespace. A text that already has no whitespace at either end is unchanged. |
| Text.Trim | backend/src/app.service.ts:51 | `trim()` never lengthens the text, and the result neither starts nor ends with JS whitespace. A text already trimmed at both ends is unchanged. |
| Text.Trimmed | OCR/paddleocr_to_json.py:309 | Dropping whitespace from both ends leaves no whitespace at either end, and changes nothing when there is none there. |
| Text.DropLeadingShape | OCR/paddleocr_to_json.py:309 | Stripping the front removes exactly a maximal run of leading whitespace. |
| Text.DropTrailingShape | OCR/paddleocr_to_json.py:309 | Stripping the back removes exactly a maximal run of trailing whitespace. |
| Text.IndexOf | OCR/paddleocr_to_json.py:317 | `find(c)` is the first index holding `c`, and -1 exactly when `c` is absent. |
| Text.LastIndexOf | OCR/fast_ocr_processor.py:109 | `rfind(c)` is the last index holding `c`, and -1 exactly when `c` is absent. |
| Text.FindFrom | OCR/extract_to_json.py:175 | `find(pat, start)` is the first occurrence at or after `start`, or -1 when there is none. |
| Text.Find | OCR/extract_to_json.py:174 | `find(pat)` is the first occurrence of the pattern, or -1 when it does not occur. |
| Text.RFind | OCR/extract_to_json.py:180 | `rfind(pat)` is the last occurrence of the pattern, or -1 when it does not occur. |
| Text.LastBelow | OCR/extract_to_json.py:180 | Helper for `rfind`: the last occurrence below a bound, or -1 when there is none. |
| Text.Prefix | OCR/paddleocr_to_json.py:272 | `s[:n]` has length min(n, \|s\|) and is a prefix of `s`. |
| Text.PySlice | OCR/fast_ocr_processor.py:110 | `s[i:j]` is the slice when i < j and empty otherwise. |
| Text.BraceSlice | OCR/fast_ocr_processor.py:104-110 | With both braces present, the candidate runs from the first `{` to the last `}` inclusive, and is empty when the last `}` comes before the first `{`. Otherwise the text is unchanged. |
| Text.LowerAscii | OCR/ocr_service.py:10 | `lower()` maps each character, keeping the length. |
| Text.LowerAsciiSuffix | OCR/ocr_service.py:10 | Lowering keeps any suffix that has no capital letters. |
| Text.ReplaceChar | OCR/extract_to_json.py:205 | `replace(a, b)` changes exactly the characters equal to `a` and keeps the length. |
| Text.Split | OCR/paddleocr_to_json.py:448 | `split(sep)` yields at least one part, and joining the parts with `sep` gives back the text. The first part is the text before the first occurrence of `sep`, or the whole text when there is none. |
| Text.SplitPiecesLackSep | OCR/paddleocr_to_json.py:448 | No part of a split contains the separator. |
| Text.BeforeFirstLacks | OCR/paddleocr_to_json.py:448 | The text before the first occurrence of a non-empty pattern does not contain the pattern. |
| Text.NatToString | OCR/paddleocr_to_json.py:389 | The decimal text of a number is non-empty and all digits, and has one digit exactly when the number is below 10. |
| Text.DigitsValueOfNatToString | frontend/src/app/components/risk-assessment/iot-monitor/iot-monitor.component.ts:162 | Reading the decimal text back gives the number. |
| PaddleResponse.Count | OCR/paddleocr_to_json.py:322-330 | The number of occurrences of a character is at most the length of the text. |
| PaddleResponse.CloseFrom | OCR/paddleocr_to_json.py:319-330 | The scan stops at the first index from `k` where the brace depth returns to 0, or at the end of the text. |
| PaddleResponse.MatchEndShape | OCR/paddleocr_to_json.py:319-332 | The match end lies after the `{`, and every proper prefix has positive depth. At depth 0 the slice ends in `}` and holds equal numbers of `{` and `}`. |
| PaddleResponse.ScanEnd | OCR/paddleocr_to_json.py:319-330 | The `brace_count` loop ends at the match end defined by depth. |
| PaddleResponse.ParseJsonResponse | OCR/paddleocr_to_json.py:306-357 | The method computes exactly the specified outcome. A decoded object is returned, a decode error gives the fallback, and a decoded non-object raises. |
| PaddleResponse.ResponseOutcome | OCR/paddleocr_to_json.py:306-357 | The fallback is taken exactly when the candidate does not decode. A returned document is the decoded object, and the raise happens only for a decoded non-object. |
| PaddleResponse.CandidateStart | OCR/paddleocr_to_json.py:315-336 | With both braces present the candidate starts at the first `{` and is a slice of the stripped text; otherwise it is the whole stripped text. |
| PaddleResponse.CandidateOpens | OCR/paddleocr_to_json.py:315-332 | With both braces in the stripped text, the candidate is non-empty and starts with `{`. |
| PaddleResponse.CandidateBalanceOrRest | OCR/paddleocr_to_json.py:319-332 | Every proper prefix of the candidate has positive depth. At depth 0 the candidate ends in `}` with balanced braces; otherwise it runs to the end of the stripped text. |
| PaddleResponse.FallbackIffDecodeError | OCR/paddleocr_to_json.py:339-357 | The fallback is chosen exactly on a decode error, and it is the fixed fallback document. |
| PaddleResponse.RoutedDocIsObject | OCR/paddleocr_to_json.py:340-343 | Whatever the routing returns without raising is an object. |
| PaddleResponse.RaisedOnlyWithoutBraces | OCR/paddleocr_to_json.py:316-343 | If a decoder only yields objects for text in braces, the call raises only when a brace is missing from the stripped answer. |
| PaddleResponse.QuotedBraceCounted | OCR/paddleocr_to_json.py:319-332 | A `}` inside a quoted string still closes the candidate. For example, `{"a":"}` is cut after 7 characters. |
| PaddleResponse.QuotedBraceScan | OCR/paddleocr_to_json.py:322-330 | The loop stops at index 7 in the same quoted-brace example. |
| FlatSchema.FallbackValues | OCR/paddleocr_to_json.py:347-357 | There are nine fallback values. |
| FlatSchema.FallbackKeys | OCR/paddleocr_to_json.py:347-357 | The fallback is an object with exactly the nine keys in source order, and `coverage_limits_and_deductibles` is `[]`. |
| FlatSchema.FallbackBlank | OCR/paddleocr_to_json.py:347-357 | Every string leaf of the fallback is `""` and its only list is empty. |
| FlatSchema.FallbackIsFallback | OCR/fast_ocr_processor.py:116-126 | The fallback document meets the fallback predicate (the nine keys, all blank). |
| FastResponse.FallbackIffDecodeError | OCR/fast_ocr_processor.py:102-126 | The fast variant falls back exactly on a decode error, returns the decoded value otherwise, and its fallback is the nine-key document. |
| FastResponse.ParseJsonResponse | OCR/fast_ocr_processor.py:102-126 | The fallback is taken exactly when the candidate does not decode; any decoded value, object or not, is returned unchanged; and the fallback is the nine-key all-empty object. |
| OllamaResponse.UnfenceJson | OCR/extract_to_json.py:173-177 | After a ```` ```json ```` fence the content is the text up to the next ```` ``` ````, and has no fence left. It is unchanged when there is no closing fence. |
| OllamaResponse.UnfenceBare | OCR/extract_to_json.py:178-182 | A bare fence pair keeps the text between the first and last fence, but only when the last lies after the first fence ends. Otherwise the content is unchanged. |
| OllamaResponse.QuoteRepair | OCR/extract_to_json.py:205 | The repair leaves no `'`, keeps the length, and keeps every other character. |
| OllamaResponse.QuoteRepairIdempotent | OCR/extract_to_json.py:205 | Repairing twice is repairing once, so one repair pass is all the code can gain. |
| OllamaResponse.ParseRouting | OCR/extract_to_json.py:149-215 | The strict parse wins when the cleaned text decodes. Otherwise exactly one quote repair is tried and wins when it decodes. A failed model call or a failed repair gives the fallback, and nothing raises. |
| OllamaResponse.ParseWithOllama | OCR/extract_to_json.py:149-215 | A failed model call gives the fallback, and any fallback is the fallback structure for the image and time. A strict result is what the cleaned reply decodes to, and a repaired one what the quote-repaired text decodes to. |
| OllamaResponse.FallbackShape | OCR/extract_to_json.py:217-236 | The fallback has metadata with exactly the file name, the timestamp, language "unknown" and type "auto_insurance_policy". It has `overall_confidence` "low" with the error marker, and six empty sections ending in `driver_information`. |
| OllamaResponse.CliImagePathExtension | OCR/extract_to_json.py:344-351 | The CLI path always ends (ignoring case) in an image extension. A path that already does is kept, and defaulting twice changes nothing. |
| OllamaResponse.CliImagePath | OCR/extract_to_json.py:344-351 | The chosen path is the first argument (or the default), possibly with `.jpg` appended. A first argument that has an image extension is used as it is. |
| OllamaResponse.JpgHasImageExtension | OCR/extract_to_json.py:350 | A path ending in `.jpg` counts as an image path. |
| OllamaResponse.DefaultHasImageExtension | OCR/extract_to_json.py:347 | The default `Test-Geico.jpg` needs no suffix. |
| Completeness.FieldName | OCR/extract_to_json.py:264 | A top-level field is named by its key, and a nested one by `prefix.key`. |
| Completeness.Leaves | OCR/extract_to_json.py:250-267 | Every field the walk finds has a path under the prefix it started from. |
| Completeness.LeavesUpTo | OCR/extract_to_json.py:253-267 | The fields found among the first n members lie under the prefix. |
| Completeness.MemberLeaves | OCR/extract_to_json.py:254-267 | The fields one member contributes lie under the prefix, nested ones included. |
| Completeness.UnderNested | OCR/extract_to_json.py:264 | A path under `prefix.key` is under `prefix`. |
| Completeness.AccuracyCounter.CountFields | OCR/extract_to_json.py:250-267 | The recursive walk adds one to `total_fields` per leaf and one to `filled_fields` per filled leaf, and records each filled leaf's confidence under its dotted path. Leaves are maps with `value` and `confidence`, and the two skipped keys are skipped at every depth. |
| Completeness.AccuracyCounter.CountMember | OCR/extract_to_json.py:254-267 | One iteration of the member loop advances the counters by that member's leaves. |
| Completeness.CalculateExtractionAccuracy | OCR/extract_to_json.py:238-272 | The metrics carry the OCR confidence (0 when missing) and the completeness and estimates of the document's leaves. |
| Completeness.FilledAtMostTotal | OCR/extract_to_json.py:260-262 | `filled <= total`, with equality exactly when every leaf is filled and 0 exactly when none is. |
| Completeness.RatioBounds | OCR/extract_to_json.py:271 | `filled/total*100` (0 when total is 0) lies in 0..100. It is 100 exactly when every leaf is filled and 0 exactly when none is. |
| Completeness.CompletenessBounds | OCR/extract_to_json.py:271 | The completeness of any leaf list lies in 0..100, with the same two boundary cases. |
| Completeness.RecordKeys | OCR/extract_to_json.py:263-265 | The estimates hold exactly the paths of filled leaves. Each maps to the confidence of the last filled leaf with that path. |
| Completeness.Record | OCR/extract_to_json.py:263-265 | Recording keeps every key already present and adds the path of every filled field. |
| Completeness.NoLeavesUpTo | OCR/extract_to_json.py:253-267 | A map whose members are skipped or empty objects has no leaves. |
| Completeness.FallbackScoresZero | OCR/extract_to_json.py:217-271 | The fallback structure has no leaves and so scores 0. |
| OcrShaping.Texts | OCR/paddleocr_to_json.py:261 | The texts of the entries, one per entry and in order. |
| OcrShaping.SumBounds | OCR/paddleocr_to_json.py:207 | A sum of confidences lies between count times the lower bound and count times the upper bound. |
| OcrShaping.AverageBounds | OCR/paddleocr_to_json.py:262 | The average is 0 with no entries and otherwise lies within the entries' bounds. |
| OcrShaping.PromptEmbeds | OCR/paddleocr_to_json.py:270-277 | The prompt is the head, then exactly the first min(budget, \|raw\|) characters, then the tail. |
| OcrShaping.PromptIgnoresRest | OCR/fast_ocr_processor.py:64 | Texts that agree on the first `budget` characters give the same prompt. |
| OcrShaping.TextBlockMembers | OCR/paddleocr_to_json.py:385-391 | A text block has exactly `text`, `confidence` and `bbox`. The bbox is the entry's own, or `Block i+1` when it is empty. |
| OcrShaping.TextBlockListShape | OCR/fast_ocr_processor.py:153-160 | There is one text block per OCR entry, in order. |
| OcrShaping.TextBlocks | OCR/paddleocr_to_json.py:384-391 | The append loop builds exactly that block list. |
| OcrShaping.Preview | OCR/paddleocr_to_json.py:394 | A text of at most 500 characters is kept. A longer one becomes its first 500 characters plus `...`. |
| OcrShaping.ShapeDocument | OCR/paddleocr_to_json.py:384-415 | Shaping succeeds exactly on an object. It then sets the text blocks, preview, metadata, accuracy and processing metrics, keeps every existing key, and leaves all other values alone. |
| OcrShaping.KeptLinesSound | OCR/paddleocr_to_json.py:449-451 | Every kept raw-text line is the stripped, non-blank line at its original index. |
| OcrShaping.KeptLinesOrdered | OCR/paddleocr_to_json.py:449 | Kept lines keep their original order. |
| OcrShaping.KeptLinesComplete | OCR/paddleocr_to_json.py:450 | Every non-blank line is kept. |
| OcrShaping.RawBlocks | OCR/fast_ocr_processor.py:218-225 | There is one raw block per kept line, with confidence 1.0 and bbox `Line i+1` from the original index. |
| OcrShaping.RawTextBlocks | OCR/fast_ocr_processor.py:216-225 | The loop over the split lines builds exactly those blocks, splitting on the two characters backslash and `n`. |
| OcrShaping.ShapeRawText | OCR/paddleocr_to_json.py:439-458 | Raw-text mode succeeds exactly on an object. It sets the processing metrics, the raw blocks and the preview, and leaves every other key alone. |
| PaddleExtraction.PageTexts | OCR/paddleocr_to_json.py:98 | There is one raw text per page. |
| PaddleExtraction.ScanPages | OCR/paddleocr_to_json.py:94-98 | There is one OCR result per rasterised page. |
| PaddleExtraction.PromptCarriesPrefix | OCR/paddleocr_to_json.py:272 | The prompt embeds exactly the first min(1800, \|raw\|) characters. |
| PaddleExtraction.RecDetailsNonBlank | OCR/paddleocr_to_json.py:200-206 | Entries kept from `rec_texts` are non-blank and already stripped, and there are at most as many as texts. |
| PaddleExtraction.RecDetailsStep | OCR/paddleocr_to_json.py:201-202 | A non-blank text adds one entry, with its score or the default 0.9. A blank text adds nothing. |
| PaddleExtraction.LineDetailsNonBlank | OCR/paddleocr_to_json.py:222-241 | Entries kept from traditional lines are non-blank, and there are at most as many as lines. |
| PaddleExtraction.ResultDetailsNonBlank | OCR/paddleocr_to_json.py:187-241 | No kept entry of a whole result is blank. |
| PaddleExtraction.PdfPartsShape | OCR/paddleocr_to_json.py:102-105 | Page texts alternate with separators. Separator i (`PAGE i+1`) goes before page i for every page but the first. |
| PaddleExtraction.PdfStep | OCR/paddleocr_to_json.py:94-114 | One loop iteration appends the separator (not for the first page), the page text and the page's entries. |
| PaddleExtraction.SinglePagePdf | OCR/paddleocr_to_json.py:102-131 | A one-page PDF gives exactly that page's text and entries. |
| PaddleExtraction.NoPdfDetails | OCR/paddleocr_to_json.py:126-128 | With no entries on any page, the confidence left behind by the last page is 0. |
| PaddleExtraction.KeepRecTexts | OCR/paddleocr_to_json.py:200-208 | The `rec_texts` loop appends exactly the kept entries, and the running totals stay consistent with them. |
| PaddleExtraction.KeepLines | OCR/paddleocr_to_json.py:223-241 | The traditional-format loop appends exactly the kept lines, and the running totals stay consistent with them. |
| PaddleExtraction.PaddleExtractor.ProcessOcrResult | OCR/paddleocr_to_json.py:177-265 | It returns the kept entries of every page and their joined, stripped text, and stores their average (0 when empty). |
| PaddleExtraction.PaddleExtractor.ExtractTextFromPdf | OCR/paddleocr_to_json.py:81-134 | It returns the concatenated entries and the separated page texts. The stored confidence is the overall average, 0 from the last page when no entry was kept, and unchanged for no pages. |
| PaddleExtraction.PaddleExtractor.AppendPageText | OCR/paddleocr_to_json.py:103-106 | A page's text is appended after a `--- PAGE n ---` separator, except for the first part. |
| PaddleExtraction.PaddleExtractor.ExtractText | OCR/paddleocr_to_json.py:162-175 | A `.pdf` path (ignoring case) takes the PDF route; anything else is one image. On the PDF route with at least one entry, the recorded confidence is the average over all pages' entries. With pages but no entry it is 0, and with no pages it keeps its earlier value. |
| PaddleExtraction.PaddleExtractor.ProcessDocument | OCR/paddleocr_to_json.py:359-418 | For an image or a PDF, the pipeline returns exactly when the answer does not raise. The result then carries the text blocks, the preview of the raw text and, when some entry was kept, the average confidence. For a PDF these come from all pages, with the page separators in the raw text. A PDF with pages but no entry reports confidence 0, and one with no pages reports the earlier recorded confidence. |
| PaddleExtraction.ShapeAnswer | OCR/paddleocr_to_json.py:375-415 | The model's answer is routed and then shaped. It succeeds exactly when routing does not raise. |
| FastExtraction.PromptCarriesPrefix | OCR/fast_ocr_processor.py:64-69 | The prompt embeds exactly the first min(600, \|raw\|) characters. |
| FastExtraction.EntryDetailsShape | OCR/fast_ocr_processor.py:43-53 | Lines with fewer than two elements are skipped. When every line is an entry, the details are exactly those entries. |
| FastExtraction.FirstPageOnly | OCR/fast_ocr_processor.py:40-41 | Pages after the first never change the result. |
| FastExtraction.FastExtractor.ExtractText | OCR/fast_ocr_processor.py:29-59 | It returns the first page's entries and their joined, stripped text, and stores their average (0 with none). |
| FastExtraction.FastExtractor.ProcessDocument | OCR/fast_ocr_processor.py:128-187 | The pipeline returns exactly when the routed answer is an object. The result then carries the text blocks, the preview of the raw text, and the average confidence. |
| FastExtraction.ShapeAnswer | OCR/fast_ocr_processor.py:144-184 | Shaping succeeds exactly when the parsed value or fallback is an object, and then sets the four members. |
| OcrService.ProcessImage | OCR/ocr_service.py:5-26 | An unsupported suffix returns the error dict and prints nothing; otherwise the success output is printed. |
| OcrService.Supported | OCR/ocr_service.py:10 | A path the script accepts ends, after lower-casing, in `.jpg`, `.png`, `jpeg`, `.bmp` or `.pdf`. |
| OcrService.Stdout | OCR/ocr_service.py:26-32 | An unsupported path leaves stdout empty. |
| OcrService.FullTextIsJoin | OCR/ocr_service.py:17 | `full_text` is the blocks joined by one space. It is empty exactly when there are no blocks or a single empty one. |
| OcrService.SuccessShape | OCR/ocr_service.py:20-26 | The output has exactly the keys `status`, `image_path`, `text_blocks` and `full_text`, with status `success`. |
| OcrService.UpperCaseAccepted | OCR/ocr_service.py:10 | The suffix check ignores case. |
| OcrService.GifUnsupported | OCR/ocr_service.py:10 | A `.gif` path is rejected. |
| BackendService.StopIndex | backend/src/app.service.ts:51-57 | The backward scan stops at the nearest line at or below `k` that is empty or starts with `{`, or at line 0. |
| BackendService.Lines | backend/src/app.service.ts:51 | Splitting the trimmed output gives at least one line. |
| BackendService.SelectJsonLine | backend/src/app.service.ts:51-57 | Trimming, splitting and the pop loop select exactly the line where the backward scan stops. |
| BackendService.PopToJsonLine | backend/src/app.service.ts:52-57 | The pop loop ends on exactly the line where the backward scan over the lines stops. |
| BackendService.SelectedFrom | backend/src/app.service.ts:52-57 | The selected line is one of the lines. It starts with `{`, or is empty, or is the first line (the scan ran out). |
| BackendService.SelectedLine | backend/src/app.service.ts:51-57 | The line `processOCR` holds is one of the trimmed output's lines, and it qualifies unless it is empty or the first line. |
| BackendService.ProcessOcr | backend/src/app.service.ts:39-70 | A subprocess error rejects with its code and stderr. A selected line not starting with `{` rejects with "No valid JSON output". Otherwise the selected line is decoded, or the parse error rejects. |
| BackendService.SelectsLastBraceLine | backend/src/app.service.ts:54-57 | With no empty line after it, the last line starting with `{` is the one selected. |
| BackendService.AcceptedIsLast | backend/src/app.service.ts:55-62 | An accepted line has no later line starting with `{`. |
| BackendService.EmptyLineRejects | backend/src/app.service.ts:55-62 | An empty line after the last `{` line causes a rejection, even when an earlier line qualifies. |
| BackendService.EmptyLineExample | backend/src/app.service.ts:55-62 | A concrete output with a blank line after the JSON line is rejected. |
| BackendService.SingleLineSelected | backend/src/app.service.ts:51-57 | The one JSON line the OCR service prints is selected. |
| BackendService.TrimmedLine | backend/src/app.service.ts:51 | Trimming removes the final newline of a JSON line. |
| UploadController.UploadImage | backend/src/app.controller.ts:37-73 | With no file the reply is 400 "No file uploaded", and a name the filter refuses gets 400. Success is 201 with exactly the keys `success`, `filename` and `ocrResult`: `true`, the stored file name and the OCR result. An OCR failure gets 500 "OCR processing failed: " plus the cause. |
| UploadController.FileFilter | backend/src/app.controller.ts:37-42 | A name the filter accepts ends in one of `.jpg`, `jpeg`, `.png` or `.gif` (its last four characters). |
| UploadController.FilterIsCaseSensitive | backend/src/app.controller.ts:38 | `SCAN.JPG` is refused by the upload filter although the OCR service would accept it. |
| UploadController.GifPassesFilterOnly | backend/src/app.controller.ts:38 | A `.gif` passes the upload filter but not the OCR service's suffix check. |
| UploadController.GifLeavesNoJsonLine | backend/src/app.service.ts:51-62 | For a `.gif` the OCR service's stdout has no JSON line, so `processOCR` rejects. |
| UploadController.GifUploadFails | backend/src/app.controller.ts:59-72 | Given that `processOCR` rejects a `.gif` with "No valid JSON output from OCR script" (which GifLeavesNoJsonLine and BackendService.ProcessOcr establish), the upload ends in 500 "OCR processing failed: " plus that message. |
| RiskAssessment.AgeRisk | backend/src/risk-assessment.service.ts:68-74 | Age risk is ≥ 65 → 0.85, < 25 → 0.75, [25,35) → 0.45, [35,50) → 0.25 and [50,65) → 0.40. |
| RiskAssessment.ExperienceRisk | backend/src/risk-assessment.service.ts:76-82 | Experience risk is 0.95 under one year, 0.70 from 1 to under 3, 0.45 from 3 to under 5 and 0.20 from 5 on, each exactly on its band. |
| RiskAssessment.ExperienceRiskNonIncreasing | backend/src/risk-assessment.service.ts:78-81 | Experience risk never rises with more years. |
| RiskAssessment.VehicleRisk | backend/src/risk-assessment.service.ts:84-91 | Any type other than kei, standard or large has risk 0.50. |
| RiskAssessment.VehicleRiskTable | backend/src/risk-assessment.service.ts:86-88 | Vehicle risk is kei 0.20, standard 0.45 and large 0.65. |
| RiskAssessment.RiskCategoryBands | backend/src/risk-assessment.service.ts:106-111 | The category is monotone in the score, with low < 30 ≤ medium < 50 and very-high ≥ 70. |
| RiskAssessment.RiskCategory | backend/src/risk-assessment.service.ts:106-111 | The category is one of low, medium, high and very-high, and it is high exactly for scores in [50, 70). |
| RiskAssessment.BehaviorRiskLatest | backend/src/risk-assessment.service.ts:97-103 | Behaviour risk depends only on the latest record. |
| RiskAssessment.BehaviorRisk | backend/src/risk-assessment.service.ts:93-104 | A driver without history gets 0.50, and no history gets more than 0.865. |
| RiskAssessment.BehaviorRiskBounds | backend/src/risk-assessment.service.ts:98-103 | Behaviour risk lies in [0.105, 0.865], because both harsh-event sub-scores are capped at 1. |
| RiskAssessment.RiskDiscount | backend/src/risk-assessment.service.ts:49 | The discount is never negative. |
| RiskAssessment.RiskDiscountBelowFifty | backend/src/risk-assessment.service.ts:47-49 | The premium on base 50000 is 25000 + 500·score, so a discount is given exactly for scores below 50 and equals 500·(50 − score). |
| RiskAssessment.RiskAssessmentService.constructor | backend/src/risk-assessment.service.ts:22-28 | The behaviour cache starts empty. |
| RiskAssessment.RiskAssessmentService.UpdateDrivingBehavior | backend/src/risk-assessment.service.ts:113-119 | The record is appended last and the history keeps its 6 newest records. Other drivers are untouched, and the call reports success. |
| RiskAssessment.UpdateDecidesBehaviorRisk | backend/src/risk-assessment.service.ts:93-119 | After an update the driver's behaviour risk is that of the new record alone. |
| RiskAssessment.ScenarioResult | backend/src/risk-assessment.service.ts:149-157 | An unknown scenario gets the safe-driving result. |
| RiskAssessment.Recommendations | backend/src/risk-assessment.service.ts:162-181 | There are always three recommendations, and an unknown scenario gets the safe-driving ones. |
| RiskAssessment.SimulateRiskScenario | backend/src/risk-assessment.service.ts:148-160 | The scenario name is echoed, and the result and the recommendations fall back together. |
| PricingEngine.Round | backend/src/pricing-engine.service.ts:7 | `Math.round` gives the integer within half of x, rounding halves up. |
| PricingEngine.RoundMonotone | backend/src/pricing-engine.service.ts:7 | Rounding is monotone. |
| PricingEngine.RoundOfInt | backend/src/pricing-engine.service.ts:7 | Rounding keeps integers. |
| PricingEngine.CalculatePremium | backend/src/pricing-engine.service.ts:5-8 | The premium is the integer nearest to base × (0.5 + score/100). |
| PricingEngine.PayAsYouDrive | backend/src/pricing-engine.service.ts:10-14 | The charge is the integer nearest to mileage × 5 × (1 + score/100). |
| PricingEngine.PremiumEnds | backend/src/pricing-engine.service.ts:5-8 | The premium is round(base/2) at risk 0 and round(1.5·base) at risk 100. |
| PricingEngine.PremiumMonotone | backend/src/pricing-engine.service.ts:5-8 | For a non-negative base the premium never falls as risk rises. |
| PricingEngine.PayAsYouDriveAtZeroRisk | backend/src/pricing-engine.service.ts:10-14 | At risk 0, whole mileage costs 5 per unit. |
| PricingEngine.PayAsYouDriveMonotone | backend/src/pricing-engine.service.ts:10-14 | For risk ≥ −100 the charge never falls as mileage rises. |
| PricingEngine.CalculateDiscount | backend/src/pricing-engine.service.ts:16-21 | The discount is one of 0, 0.10, 0.15 and 0.20. It is 0.20 exactly above 90 and 0 exactly at or below 70. |
| PricingEngine.DiscountBoundaries | backend/src/pricing-engine.service.ts:17-19 | The bounds are exclusive: 90 → 0.15, 80 → 0.10 and 70 → 0. |
| PricingEngine.DiscountMonotone | backend/src/pricing-engine.service.ts:16-21 | The discount never falls as the safety score rises. |
| IotMonitor.PushAlertShape | frontend/src/app/components/risk-assessment/iot-monitor/iot-monitor.component.ts:111-117 | The new alert goes first and at most 10 are kept, dropping the oldest. |
| IotMonitor.PushAlert | frontend/src/app/components/risk-assessment/iot-monitor/iot-monitor.component.ts:111-117 | The new alert is first, and a list of at most 10 stays at most 10. |
| IotMonitor.PushAlertsBound | frontend/src/app/components/risk-assessment/iot-monitor/iot-monitor.component.ts:91-117 | After several alerts the list still holds at most 10, and the last one raised is first. |
| IotMonitor.PushAlertsSnoc | frontend/src/app/components/risk-assessment/iot-monitor/iot-monitor.component.ts:91-117 | Raising one more alert is one more `addAlert`. |
| IotMonitor.RaisedAlertsShape | frontend/src/app/components/risk-assessment/iot-monitor/iot-monitor.component.ts:91-109 | At most four alerts are raised, none exactly when every metric is within bounds, and a danger alert exactly when the engine is over 100. |
| IotMonitor.RaisedAlerts | frontend/src/app/components/risk-assessment/iot-monitor/iot-monitor.component.ts:91-109 | One reading raises at most four alerts. |
| IotMonitor.ScoreAfterBounds | frontend/src/app/components/risk-assessment/iot-monitor/iot-monitor.component.ts:100-108 | The safety score stays ≥ 0 and never rises. Away from the floor, braking costs 2 and acceleration costs 1. |
| IotMonitor.ScoreAfter | frontend/src/app/components/risk-assessment/iot-monitor/iot-monitor.component.ts:100-108 | From a score of at least 0, the new score stays between 0 and the old score. |
| IotMonitor.RecordShape | frontend/src/app/components/risk-assessment/iot-monitor/iot-monitor.component.ts:66-71 | The new metrics go last and at most 20 are kept, dropping the oldest. |
| IotMonitor.Record | frontend/src/app/components/risk-assessment/iot-monitor/iot-monitor.component.ts:66-71 | The new metrics are last, and a history of at most 20 stays at most 20. |
| IotMonitor.BandMonotone | frontend/src/app/components/risk-assessment/iot-monitor/iot-monitor.component.ts:128-150 | The three-band colours are red exactly above the high cut-off and green exactly at or below the middle one, and they grow more severe with the value. |
| IotMonitor.Band | frontend/src/app/components/risk-assessment/iot-monitor/iot-monitor.component.ts:128-150 | A banded metric is never grey, and it is red exactly above the high cut-off. |
| IotMonitor.SafetyBand | frontend/src/app/components/risk-assessment/iot-monitor/iot-monitor.component.ts:152-156 | The safety colour is green exactly at ≥ 80 and red exactly below 60. |
| IotMonitor.Pad2 | frontend/src/app/components/risk-assessment/iot-monitor/iot-monitor.component.ts:162 | `padStart(2, '0')` of a value below 60 gives two digits that read back as the value. |
| IotMonitor.FormatDurationReadsBack | frontend/src/app/components/risk-assessment/iot-monitor/iot-monitor.component.ts:158-163 | The text is `h:mm:ss` with all-digit parts, minutes and seconds below 60, and h·3600 + m·60 + s = seconds. |
| IotMonitor.FormatDuration | frontend/src/app/components/risk-assessment/iot-monitor/iot-monitor.component.ts:158-163 | The text has at least seven characters, with colons before the two-digit minutes and seconds. |
| IotMonitor.IotMonitorComponent.constructor | frontend/src/app/components/risk-assessment/iot-monitor/iot-monitor.component.ts:27-36 | The initial state is device `OBD-001`, no metrics, not monitoring, no alerts, score 85 and duration 0. |
| IotMonitor.IotMonitorComponent.LoadInitialData | frontend/src/app/components/risk-assessment/iot-monitor/iot-monitor.component.ts:48-56 | The metrics are shown and pushed onto the history, and nothing else changes. |
| IotMonitor.IotMonitorComponent.StartMonitoring | frontend/src/app/components/risk-assessment/iot-monitor/iot-monitor.component.ts:58-60 | Monitoring is on with a subscription, and nothing else changes. |
| IotMonitor.IotMonitorComponent.StopMonitoring | frontend/src/app/components/risk-assessment/iot-monitor/iot-monitor.component.ts:83-89 | Monitoring is off with no subscription, whatever the state before, and nothing else changes. |
| IotMonitor.IotMonitorComponent.AddAlert | frontend/src/app/components/risk-assessment/iot-monitor/iot-monitor.component.ts:111-117 | The alert list becomes the capped push, and nothing else changes. |
| IotMonitor.IotMonitorComponent.CheckForAlerts | frontend/src/app/components/risk-assessment/iot-monitor/iot-monitor.component.ts:91-109 | The raised alerts are pushed in order and the score is reduced with its floor. |
| IotMonitor.IotMonitorComponent.UpdateTripStats | frontend/src/app/components/risk-assessment/iot-monitor/iot-monitor.component.ts:119-120 | The trip duration grows by exactly 3. |
| IotMonitor.IotMonitorComponent.Tick | frontend/src/app/components/risk-assessment/iot-monitor/iot-monitor.component.ts:65-75 | One tick shows the metrics, appends to the capped history, checks for alerts and adds 3 seconds. The caps and the score floor are kept. |
| IotMonitor.IotMonitorComponent.ResetTrip | frontend/src/app/components/risk-assessment/iot-monitor/iot-monitor.component.ts:169-175 | Reset gives duration 0, score 85 and an empty history and alert list. |
| IotMonitor.IotMonitorComponent.SpeedColor | frontend/src/app/components/risk-assessment/iot-monitor/iot-monitor.component.ts:128-134 | The colour is grey exactly without metrics, and otherwise banded at > 100 and > 80. |
| IotMonitor.IotMonitorComponent.RpmColor | frontend/src/app/components/risk-assessment/iot-monitor/iot-monitor.component.ts:136-142 | The colour is grey exactly without metrics, and otherwise banded at > 4000 and > 3000. |
| IotMonitor.IotMonitorComponent.EngineColor | frontend/src/app/components/risk-assessment/iot-monitor/iot-monitor.component.ts:144-150 | The colour is grey exactly without metrics, and otherwise banded at > 100 and > 95. |
| RiskDashboard.FindDriver | frontend/src/app/components/risk-assessment/risk-dashboard/risk-dashboard.component.ts:38 | `find` returns the first profile with the id, and nothing exactly when no profile has it. |
| RiskDashboard.PremiumTable | frontend/src/app/components/risk-assessment/risk-dashboard/risk-dashboard.component.ts:87-96 | The premium is low 40000, medium 50000, high 65000 and very-high 80000, and any unknown category gets 50000. |
| RiskDashboard.Multiplier | frontend/src/app/components/risk-assessment/risk-dashboard/risk-dashboard.component.ts:87-96 | The multiplier lies in [0.8, 1.6], and it is 1.0 exactly for medium and for an unknown category. |
| RiskDashboard.CalculatePremium | frontend/src/app/components/risk-assessment/risk-dashboard/risk-dashboard.component.ts:87-96 | The premium is the integer nearest to 50000 × the multiplier, between 40000 and 80000. |
| RiskDashboard.CalculateDiscount | frontend/src/app/components/risk-assessment/risk-dashboard/risk-dashboard.component.ts:98-106 | Only low and medium get a discount, and unknown categories get 0. |
| RiskDashboard.TablesFollowRank | frontend/src/app/components/risk-assessment/risk-dashboard/risk-dashboard.component.ts:87-106 | A riskier known category never costs less and never gets more discount. |
| RiskDashboard.GenerateRiskFactors | frontend/src/app/components/risk-assessment/risk-dashboard/risk-dashboard.component.ts:108-116 | Vehicle is 25 and region 15. Experience is 70 exactly under 25, age is 60 exactly over 65, and behaviour is 20 exactly below high. |
| RiskDashboard.RiskColor | frontend/src/app/components/risk-assessment/risk-dashboard/risk-dashboard.component.ts:132-140 | Each of the four categories has its own colour: low `#10b981`, medium `#f59e0b`, high `#ef4444`, very-high `#dc2626`. Each colour is returned exactly for its category, and grey `#6b7280` exactly for an unknown category. |
| RiskDashboard.RiskLabel | frontend/src/app/components/risk-assessment/risk-dashboard/risk-dashboard.component.ts:142-150 | Each of the four categories has its own label: "Low Risk", "Medium Risk", "High Risk", "Very High Risk". Each label is returned exactly for its category, and "Unknown Risk" exactly for an unknown category. |
| RiskDashboard.BackendCategoriesKnown | backend/src/risk-assessment.service.ts:106-111 | Every category the back end produces has a real colour and label on the dashboard. |
| RiskDashboard.FactorArray | frontend/src/app/components/risk-assessment/risk-dashboard/risk-dashboard.component.ts:152-160 | There are exactly five entries, in order: age, experience, behaviour, vehicle and region. |
| RiskDashboard.YoungDriverScore | frontend/src/app/components/risk-assessment/risk-dashboard/risk-dashboard.component.ts:20-24 | D003 is shown with score 75, very-high, premium 80000, no discount and factors (80, 70, 90, 25, 15). |
| RiskDashboard.LocalScore | frontend/src/app/components/risk-assessment/risk-dashboard/risk-dashboard.component.ts:58-81 | The shown score carries the profile's id, score and category, a premium between 40000 and 80000, and a discount exactly for low and medium. |
| RiskDashboard.RiskDashboardComponent.constructor | frontend/src/app/components/risk-assessment/risk-dashboard/risk-dashboard.component.ts:14-17 | There is no score and no loading at the start. |
| RiskDashboard.RiskDashboardComponent.AnalyzeDriver | frontend/src/app/components/risk-assessment/risk-dashboard/risk-dashboard.component.ts:34-85 | Loading always ends. An unknown id keeps the old score. On success and on error alike, the shown score comes from the local profile. |
| RiskDashboard.ShownScoreMatchesProfile | frontend/src/app/components/risk-assessment/risk-dashboard/risk-dashboard.component.ts:58-81 | The shown id, score and category are those of the selected profile. |
| ImageUploader.ValidateFile | frontend/src/app/components/image-uploader/image-uploader.component.ts:71-82 | A file is accepted exactly when its type is allowed and its size ≤ 10 MiB. A bad type wins over a bad size. |
| ImageUploader.ValidateFileBoundaries | frontend/src/app/components/image-uploader/image-uploader.component.ts:78 | Exactly 10 MiB is accepted and one byte more is not. A wrong type is reported even when the file is oversized. |
| ImageUploader.ErrorText | frontend/src/app/components/image-uploader/image-uploader.component.ts:99 | The message is the body's message if it is non-empty. Otherwise it is the error's own message if that is non-empty. Otherwise it is the default. It is never empty. |
| ImageUploader.ControllerErrorShown | backend/src/app.controller.ts:54-73 | Every error the controller raises is shown with its own message. |
| ImageUploader.FieldValue | frontend/src/app/components/image-uploader/image-uploader.component.ts:105-132 | A form field is the source value when truthy, and `''` otherwise. |
| ImageUploader.FieldsFrom | frontend/src/app/components/image-uploader/image-uploader.component.ts:105-132 | All 25 fields are filled, each from its own source path. |
| ImageUploader.BlankFields | frontend/src/app/components/image-uploader/image-uploader.component.ts:134-165 | The 25 fields are all `''`. |
| ImageUploader.VehicleFieldBlank | frontend/src/app/components/image-uploader/image-uploader.component.ts:125-131 | A vehicle field whose key is not in the answer stays `''`. |
| ImageUploader.UnemittedVehicleFields | frontend/src/app/components/image-uploader/image-uploader.component.ts:125-131 | `vehicle`, `vin`, `annual_mileage` and `garaging_zip` stay `''` for any answer whose vehicle section uses only the pipeline's keys. |
| ImageUploader.FormKeysNotEmitted | frontend/src/app/components/image-uploader/image-uploader.component.ts:125-131 | Those four fields read keys that the pipeline's vehicle schema does not have. |
| ImageUploader.WrappedBodyLeavesFieldsBlank | backend/src/app.controller.ts:60-65 | Populating from the controller's wrapper body leaves every form field blank. |
| ImageUploader.BlockTexts | frontend/src/app/components/image-uploader/image-uploader.component.ts:177 | There is one text per block. |
| ImageUploader.ExtractedTextOfScriptOutput | frontend/src/app/components/image-uploader/image-uploader.component.ts:172-180 | For the OCR service's output, the shown text is the blocks joined by one space. |
| ImageUploader.ExtractedTextOfWrappedBody | frontend/src/app/components/image-uploader/image-uploader.component.ts:172-180 | For the controller's wrapper body, the shown text is `''`. |
| ImageUploader.ExtractedText | frontend/src/app/components/image-uploader/image-uploader.component.ts:172-180 | A non-empty string `full_text` is shown as it is. Otherwise an array `text_blocks` is shown as its block texts joined by one space. Any non-empty text shown is one of those two. |
| ImageUploader.ImageUploaderComponent.constructor | frontend/src/app/components/image-uploader/image-uploader.component.ts:14-48 | The component starts with no file, no result, no error, not processing, and blank fields. |
| ImageUploader.ImageUploaderComponent.OnFileSelected | frontend/src/app/components/image-uploader/image-uploader.component.ts:52-69 | With no file the message is "No file selected. Please try again.". An invalid file gives the validation message and clears the file. A valid file is stored and clears the error. |
| ImageUploader.ImageUploaderComponent.UploadImage | frontend/src/app/components/image-uploader/image-uploader.component.ts:84-91 | Without a file only the error is set. Otherwise the upload starts processing and clears the error and the old result. |
| ImageUploader.ImageUploaderComponent.PopulateFieldsFromOcr | frontend/src/app/components/image-uploader/image-uploader.component.ts:105-132 | The fields become those drawn from the result, and nothing else changes. |
| ImageUploader.ImageUploaderComponent.OnUploadResult | frontend/src/app/components/image-uploader/image-uploader.component.ts:92-97 | The result is stored, the fields are populated, and processing ends. |
| ImageUploader.ImageUploaderComponent.OnUploadError | frontend/src/app/components/image-uploader/image-uploader.component.ts:98-101 | The error text is shown and processing ends. |
| ImageUploader.ImageUploaderComponent.ResetForm | frontend/src/app/components/image-uploader/image-uploader.component.ts:134-170 | All fields are blank, and file, result, error and processing are cleared. |
| AppRoot.ExtractedText | frontend/src/app/app.ts:513-515 | A non-empty text is the result's own `full_text` string, and a string `full_text` is shown as it is. |
| AppRoot.Confidences | frontend/src/app/app.ts:520-521 | The confidences exist exactly when every block has a numeric one, and then there is one per block, equal to that block's `confidence`. |
| AppRoot.ConfidenceScore | frontend/src/app/app.ts:517-523 | With no result or no blocks the score is 0. |
| AppRoot.TotalBounds | frontend/src/app/app.ts:520-521 | The sum of confidences in [0, 1] lies between 0 and their count. |
| AppRoot.ConfidenceScoreBounds | frontend/src/app/app.ts:517-523 | With a non-empty array of blocks whose confidences lie in [0, 1], the score is a percentage between 0 and 100. |
| AppRoot.ScriptOutputConfidence | frontend/src/app/app.ts:517-523 | For the OCR service's output, whose blocks are bare strings, the score is 0 with no blocks and NaN otherwise. |
| AppRoot.ScriptOutputText | frontend/src/app/app.ts:513-515 | For the OCR service's output, the shown text is its `full_text`. |
| AppRoot.UnwrapsControllerBody | frontend/src/app/app.ts:489-492 | The root component unwraps `ocrResult` from the controller's body. |
| AppRoot.App.constructor | frontend/src/app/app.ts:437-443 | The app starts with no file, no result, not processing, and error `''`. |
| AppRoot.App.OnFileSelected | frontend/src/app/app.ts:445-461 | With no file nothing changes. An invalid file sets the error and clears the file but keeps the old result. A valid file is stored and clears the error and the result. |
| AppRoot.App.UploadImage | frontend/src/app/app.ts:478-482 | Without a file nothing happens. Otherwise processing starts and the error is cleared. |
| AppRoot.App.OnUploadResult | frontend/src/app/app.ts:489-492 | The response's `ocrResult` is stored and processing ends. |
| AppRoot.App.OnUploadError | frontend/src/app/app.ts:493-497 | The fixed backend-unreachable message is shown and processing ends. |
| AppRoot.App.ResetForm | frontend/src/app/app.ts:501-505 | File, result, error and processing are cleared. |

## Left out

- The OCR engines (PaddleOCR, EasyOCR), the language-model calls, `json.loads` / `JSON.parse` and `child_process.exec` are parameters of the model. They are not reimplemented, so no property depends on what they do.
- The version sniffing of PaddleOCR results (`hasattr`, `isinstance`) is reduced to two abstract page shapes: the `rec_texts` record and the traditional line list. The "unknown format" iteration and the exception fallbacks inside `process_ocr_result` are not modelled.
- PDF rasterisation, temporary files, file existence checks, directory creation, file writes and all logging to stderr are I/O and are left out. A rasteriser is a parameter.
- Timestamps (`datetime.now`, `new Date()`) are a parameter. Measured timings are a parameter record.
- The upload file's random name, multer's 10 MiB transport limit, and the interpreter's own stdout logging are not modelled.
- Floating point is modelled as exact reals. This applies to confidence averages, `Math.round` (⌊x + ½⌋) and the pricing formulas.
- The weighted `totalRisk` of `calculateRiskScore` and `calculateDynamicPremium` use float weights and a clock. Only the discount clamp that follows them is modelled.
- `calculateExperienceRisk` takes years as a number. The conversion from a licence date uses the clock.
- The IoT monitor's `tripDistance` is float arithmetic and is left out.
- IoT metrics are whole numbers. Fuel level and location are not modelled.
- The engine-temperature alert text uses the degree sign. The source file's bytes show it mis-encoded.
- `getAlertIcon` and `returnHome` (navigation) in the IoT monitor are left out.
- The dashboard's `simulateScenario` and its subscription to the shared score stream are service wiring and are left out.
- rxjs intervals and subscriptions are modelled as a `subscribed` flag plus one method per callback.
- IotMonitor.IotMonitorComponent.StartMonitoring sets the `subscribed` flag, so a second call looks like the first. In the source a second `startMonitoring()` overwrites `this.subscription` without unsubscribing, and the first interval keeps ticking after `stopMonitoring()`. That leaked subscription is not modelled.
- DOM access in `resetForm` (clearing the file input) is left out.
- A `bbox` is a string. Python's `str()` of a polygon and the "falsy bbox" cases other than `""` are not modelled.
- A `confidence` is a number. `text_info[1]` values that need `float()` conversion are not modelled.
- Python `lower()` is modelled on ASCII letters only.
- Text.IsPySpace and Text.IsJsSpace cover ASCII and Latin-1 whitespace (and U+FEFF for JS) only. The Unicode spaces U+2000–U+200A, U+2028, U+2029 and U+3000, which `strip()` and `trim()` also remove, are not modelled.
- JS property lookup on the prototype chain (a key such as `constructor`) is not modelled.
- ImageUploader.ImageUploaderComponent.PopulateFieldsFromOcr and AppRoot.App.OnUploadResult require a non-null JSON value. In the source, a `null` response throws in the property access; that path is not modelled.
- ImageUploader.ErrorText treats error messages as strings or absent. Non-string `message` values are not modelled.
- AppRoot.ExtractedText returns `full_text` only when it is a string. A truthy non-string value, which JS would show converted, gives `''` here.
- AppRoot.ConfidenceScore states only the zero case exactly. For blocks with confidences it is the rounded mean, up to the float semantics above, and AppRoot.ConfidenceScoreBounds bounds it.
- AppRoot.ConfidenceScore does not model JS number coercion in the sum. A `null` confidence adds 0 and `true` adds 1 in the source; the model gives `NotANumber`. A `null` block throws at `block.confidence`; the model gives `NotANumber`. An object with a `length` member but no `reduce` (such as `{length: 2}`) passes the emptiness guard and throws at `reduce`; the model gives `Percent(0)` because a `Json` object has no `length`.
- ImageUploader.ExtractedText does not model JS coercion either. A truthy non-string `full_text` (such as `5`) is returned by the source; the model falls through to the blocks. A truthy `text_blocks` that is not an array (`"abc"`, `{}`) throws at `.map`; the model gives `''`. A block `{text: 5}` joins as `"5"` in the source and as `''` here. A `null` block throws in the source; the model joins it as `''`.
- The uploader's `getConfidenceScore` (a `toFixed` string) is float formatting and is left out.
- `calculate_extraction_accuracy` stores an `ocr_confidence` of 0 when none was recorded. Which average was recorded earlier depends on the engine run.
- Completeness.Record keeps `field_accuracy_estimates` as a `map`. The insertion order of the Python dict, which the JSON output follows, is not modelled.
- Completeness.AccuracyCounter.CountMember is one iteration of the `count_fields` loop, split out so that the recursive walk and the loop can each be checked on their own.
