/** The result shaping that OCR/paddleocr_to_json.py and
    OCR/fast_ocr_processor.py share word for word: the OCR entries as
    `text_blocks`, the raw-text preview, the metadata members `process_document`
    adds to the decoded answer, and the `--raw-text` mode that makes one block
    per non-blank line. */
module OcrShaping {
  import opened JsonValues
  import opened Text

  /** Both scripts write the Python literal "\\n", which is the two characters
      backslash and n, not a line break; joins and splits use that pair. */
  const BackslashN: string := "\\n"

  /** One kept OCR entry: its box rendered as text ("" when the box is falsy),
      its text and its confidence. */
  datatype Detail = Detail(bbox: string, text: string, confidence: real)

  function Texts(ds: seq<Detail>): (ts: seq<string>)
    ensures |ts| == |ds|
    ensures forall i :: 0 <= i < |ds| ==> ts[i] == ds[i].text
  {
    seq(|ds|, i requires 0 <= i < |ds| => ds[i].text)
  }

  function Sum(ds: seq<Detail>): real
  {
    if ds == [] then 0.0 else Sum(ds[..|ds| - 1]) + ds[|ds| - 1].confidence
  }

  /** `total_confidence / count if count > 0 else 0`. */
  function Average(ds: seq<Detail>): real
  {
    if |ds| > 0 then Sum(ds) / |ds| as real else 0.0
  }

  lemma {:induction false} SumBounds(ds: seq<Detail>, lo: real, hi: real)
    requires forall i :: 0 <= i < |ds| ==> lo <= ds[i].confidence <= hi
    ensures |ds| as real * lo <= Sum(ds) <= |ds| as real * hi
  {
    if ds != [] {
      SumBounds(ds[..|ds| - 1], lo, hi);
    }
  }

  /** The average is 0 when nothing was kept, and otherwise lies between the
      smallest and largest bound of the kept confidences. */
  lemma AverageBounds(ds: seq<Detail>, lo: real, hi: real)
    requires forall i :: 0 <= i < |ds| ==> lo <= ds[i].confidence <= hi
    ensures ds == [] ==> Average(ds) == 0.0
    ensures ds != [] ==> lo <= Average(ds) <= hi
  {
    SumBounds(ds, lo, hi);
    if ds != [] {
      var n := |ds| as real;
      var a := Average(ds);
      assert a * n == Sum(ds);
    }
  }

  lemma {:induction false} SumAppend(a: seq<Detail>, b: seq<Detail>)
    ensures Sum(a + b) == Sum(a) + Sum(b)
    decreases |b|
  {
    if b != [] {
      assert (a + b)[..|a + b| - 1] == a + b[..|b| - 1];
      SumAppend(a, b[..|b| - 1]);
    } else {
      assert a + b == a;
    }
  }

  /** Both prompt builders: a fixed head, the first `budget` characters of the
      OCR text and a fixed tail. */
  function PromptWith(head: string, tail: string, raw: string, budget: nat): string
  {
    head + Prefix(raw, budget) + tail
  }

  /** The prompt embeds exactly the first min(budget, |raw|) characters of
      the text, between the unchanged head and tail. */
  lemma PromptEmbeds(head: string, tail: string, raw: string, budget: nat)
    ensures var p := PromptWith(head, tail, raw, budget);
            var m := if |raw| < budget then |raw| else budget;
            && |p| == |head| + m + |tail|
            && p[..|head|] == head
            && p[|head|..|head| + m] == raw[..m]
            && p[|head| + m..] == tail
  {
    var m := if |raw| < budget then |raw| else budget;
    var p := PromptWith(head, tail, raw, budget);
    assert p == head + raw[..m] + tail;
  }

  /** Characters past the budget never reach the prompt. */
  lemma PromptIgnoresRest(head: string, tail: string, a: string, b: string, budget: nat)
    requires |a| >= budget && |b| >= budget && a[..budget] == b[..budget]
    ensures PromptWith(head, tail, a, budget) == PromptWith(head, tail, b, budget)
  {
  }

  /** `f"Block {i+1}"`, `f"Line {i+1}"`. */
  function Label(word: string, i: nat): string
  {
    word + NatToString(i + 1)
  }

  /** The `i`-th text block of `process_document`. */
  function TextBlock(i: nat, d: Detail): Json
  {
    JObj([("text", JStr(d.text)), ("confidence", JNum(d.confidence)),
          ("bbox", JStr(if d.bbox != "" then d.bbox else Label("Block ", i)))])
  }

  /** A text block carries the entry's text and confidence, and its box or,
      for a falsy box, "Block i+1". */
  lemma TextBlockMembers(i: nat, d: Detail)
    ensures var b := TextBlock(i, d);
            && b.JObj? && KeysOf(b.fields) == ["text", "confidence", "bbox"]
            && Member(b, "text") == Some(JStr(d.text))
            && Member(b, "confidence") == Some(JNum(d.confidence))
            && (d.bbox != "" ==> Member(b, "bbox") == Some(JStr(d.bbox)))
            && (d.bbox == "" ==> Member(b, "bbox") == Some(JStr("Block " + NatToString(i + 1))))
  {
    var bbox := JStr(if d.bbox != "" then d.bbox else Label("Block ", i));
    LookupCons("text", JStr(d.text), [("confidence", JNum(d.confidence)), ("bbox", bbox)], "confidence");
    LookupCons("text", JStr(d.text), [("confidence", JNum(d.confidence)), ("bbox", bbox)], "bbox");
    LookupCons("confidence", JNum(d.confidence), [("bbox", bbox)], "bbox");
  }

  /** One block per OCR entry, in order. */
  function TextBlockList(details: seq<Detail>): seq<Json>
  {
    if details == [] then []
    else TextBlockList(details[..|details| - 1]) + [TextBlock(|details| - 1, details[|details| - 1])]
  }

  lemma {:induction false} TextBlockListShape(details: seq<Detail>)
    ensures |TextBlockList(details)| == |details|
    ensures forall i :: 0 <= i < |details| ==> TextBlockList(details)[i] == TextBlock(i, details[i])
  {
    if details != [] {
      TextBlockListShape(details[..|details| - 1]);
    }
  }

  /** The loop that fills `extracted_data["text_blocks"]`. */
  method TextBlocks(details: seq<Detail>) returns (blocks: seq<Json>)
    ensures blocks == TextBlockList(details)
  {
    blocks := [];
    var i := 0;
    while i < |details|
      invariant 0 <= i <= |details|
      invariant blocks == TextBlockList(details[..i])
    {
      var d := details[i];
      var bbox := if d.bbox != "" then d.bbox else Label("Block ", i);
      assert details[..i + 1][..i] == details[..i];
      blocks := blocks + [JObj([("text", JStr(d.text)), ("confidence", JNum(d.confidence)), ("bbox", JStr(bbox))])];
      i := i + 1;
    }
    assert details[..i] == details;
  }

  /** `raw_text[:500] + "..." if len(raw_text) > 500 else raw_text`. */
  function Preview(raw: string): (r: string)
    ensures |raw| <= 500 ==> r == raw
    ensures |raw| > 500 ==> |r| == 503 && r[..500] == raw[..500] && r[500..] == "..."
  {
    if |raw| > 500 then Prefix(raw, 500) + "..." else raw
  }

  datatype Timings = Timings(ocrSeconds: real, aiSeconds: real, totalSeconds: real)

  function DocumentMetadata(imagePath: string, timestamp: string): Json
  {
    JObj([("filename", JStr(imagePath)),
          ("extraction_timestamp", JStr(timestamp)),
          ("document_language", JStr("en")),
          ("document_type", JStr("auto_insurance_policy")),
          ("processing_method", JStr("fast_paddleocr_plus_ollama_gpu"))])
  }

  /** The accuracy members `process_document` sets: the recorded OCR
      confidence (0 when none was recorded), completeness 0 and no estimates. */
  function AccuracyPlaceholder(ocrConfidence: Option<real>): Json
  {
    JObj([("ocr_confidence", JNum(ocrConfidence.GetOr(0.0))),
          ("extraction_completeness", JNum(0.0)),
          ("field_accuracy_estimates", JObj([]))])
  }

  function ProcessingMetrics(t: Timings): Json
  {
    JObj([("paddleocr_time_seconds", JNum(t.ocrSeconds)),
          ("ai_processing_time_seconds", JNum(t.aiSeconds)),
          ("total_time_seconds", JNum(t.totalSeconds))])
  }

  /** The members `process_document` writes into the decoded answer. */
  const ShapedKeys: set<string> :=
    {"text_blocks", "raw_ocr_text", "document_metadata", "accuracy_metrics", "processing_metrics"}

  /** Item assignment on the decoded answer fails (TypeError) unless it is an
      object. */
  datatype Shaped = Shaped(doc: Json) | ShapeError

  /** Five assignments with distinct keys in a row: each key ends up with its
      value, every other key keeps its value, and the old keys stay in front. */
  lemma AssignFive(d0: seq<(string, Json)>, k1: string, k2: string, k3: string, k4: string, k5: string,
                   v1: Json, v2: Json, v3: Json, v4: Json, v5: Json)
    requires k1 != k2 && k1 != k3 && k1 != k4 && k1 != k5
    requires k2 != k3 && k2 != k4 && k2 != k5
    requires k3 != k4 && k3 != k5 && k4 != k5
    ensures var d5 := Assign(Assign(Assign(Assign(Assign(d0, k1, v1), k2, v2), k3, v3), k4, v4), k5, v5);
            && KeysOf(d0) <= KeysOf(d5)
            && Lookup(d5, k1) == Some(v1) && Lookup(d5, k2) == Some(v2) && Lookup(d5, k3) == Some(v3)
            && Lookup(d5, k4) == Some(v4) && Lookup(d5, k5) == Some(v5)
            && forall k :: k != k1 && k != k2 && k != k3 && k != k4 && k != k5 ==> Lookup(d5, k) == Lookup(d0, k)
  {
    var d1 := Assign(d0, k1, v1);
    var d2 := Assign(d1, k2, v2);
    var d3 := Assign(d2, k3, v3);
    var d4 := Assign(d3, k4, v4);
    var d5 := Assign(d4, k5, v5);
    AssignExtends(d0, k1, v1);
    AssignExtends(d1, k2, v2);
    AssignExtends(d2, k3, v3);
    AssignExtends(d3, k4, v4);
    AssignExtends(d4, k5, v5);
    PrefixTrans(KeysOf(d0), KeysOf(d1), KeysOf(d2));
    PrefixTrans(KeysOf(d0), KeysOf(d2), KeysOf(d3));
    PrefixTrans(KeysOf(d0), KeysOf(d3), KeysOf(d4));
    PrefixTrans(KeysOf(d0), KeysOf(d4), KeysOf(d5));
  }

  /** The same for the three assignments of `--raw-text` mode. */
  lemma AssignThree(d0: seq<(string, Json)>, k1: string, k2: string, k3: string, v1: Json, v2: Json, v3: Json)
    requires k1 != k2 && k1 != k3 && k2 != k3
    ensures var d3 := Assign(Assign(Assign(d0, k1, v1), k2, v2), k3, v3);
            && KeysOf(d0) <= KeysOf(d3)
            && Lookup(d3, k1) == Some(v1) && Lookup(d3, k2) == Some(v2) && Lookup(d3, k3) == Some(v3)
            && forall k :: k != k1 && k != k2 && k != k3 ==> Lookup(d3, k) == Lookup(d0, k)
  {
    var d1 := Assign(d0, k1, v1);
    var d2 := Assign(d1, k2, v2);
    var d3 := Assign(d2, k3, v3);
    AssignExtends(d0, k1, v1);
    AssignExtends(d1, k2, v2);
    AssignExtends(d2, k3, v3);
    PrefixTrans(KeysOf(d0), KeysOf(d1), KeysOf(d2));
    PrefixTrans(KeysOf(d0), KeysOf(d2), KeysOf(d3));
  }

  /** The tail of `process_document`: the dictionary is updated in place, one
      member after the other; members it does not write keep their values and
      their positions. */
  method ShapeDocument(extracted: Json, details: seq<Detail>, rawText: string, imagePath: string,
                       timestamp: string, ocrConfidence: Option<real>, timings: Timings)
    returns (r: Shaped)
    ensures r.Shaped? <==> extracted.JObj?
    ensures r.Shaped? ==>
              && r.doc.JObj?
              && KeysOf(extracted.fields) <= KeysOf(r.doc.fields)
              && Member(r.doc, "text_blocks") == Some(JArr(TextBlockList(details)))
              && Member(r.doc, "raw_ocr_text") == Some(JStr(Preview(rawText)))
              && Member(r.doc, "document_metadata") == Some(DocumentMetadata(imagePath, timestamp))
              && Member(r.doc, "accuracy_metrics") == Some(AccuracyPlaceholder(ocrConfidence))
              && Member(r.doc, "processing_metrics") == Some(ProcessingMetrics(timings))
              && forall k :: k !in ShapedKeys ==> Member(r.doc, k) == Member(extracted, k)
  {
    if !extracted.JObj? {
      return ShapeError;
    }
    var blocks := TextBlocks(details);
    var d0 := extracted.fields;
    var d1 := Assign(d0, "text_blocks", JArr(blocks));
    var d2 := Assign(d1, "raw_ocr_text", JStr(Preview(rawText)));
    var d3 := Assign(d2, "document_metadata", DocumentMetadata(imagePath, timestamp));
    var d4 := Assign(d3, "accuracy_metrics", AccuracyPlaceholder(ocrConfidence));
    var d5 := Assign(d4, "processing_metrics", ProcessingMetrics(timings));
    AssignFive(d0, "text_blocks", "raw_ocr_text", "document_metadata", "accuracy_metrics", "processing_metrics",
               JArr(blocks), JStr(Preview(rawText)), DocumentMetadata(imagePath, timestamp),
               AccuracyPlaceholder(ocrConfidence), ProcessingMetrics(timings));
    forall k | k !in ShapedKeys
      ensures Lookup(d5, k) == Lookup(d0, k)
    {
      assert k != "text_blocks" && k != "raw_ocr_text" && k != "document_metadata";
      assert k != "accuracy_metrics" && k != "processing_metrics";
    }
    r := Shaped(JObj(d5));
  }

  /** The non-blank lines among the first `n`, each with its original index
      and its stripped text, in order. */
  function KeptLines(lines: seq<string>, n: nat): (kept: seq<(nat, string)>)
    requires n <= |lines|
  {
    if n == 0 then []
    else
      var before := KeptLines(lines, n - 1);
      var s := Strip(lines[n - 1]);
      if s != "" then before + [(n - 1, s)] else before
  }

  /** Each kept line is a non-blank line, with its stripped text. */
  lemma {:induction false} KeptLinesSound(lines: seq<string>, n: nat)
    requires n <= |lines|
    ensures forall k :: 0 <= k < |KeptLines(lines, n)| ==>
              var e := KeptLines(lines, n)[k];
              e.0 < n && e.1 == Strip(lines[e.0]) && e.1 != ""
  {
    if n > 0 {
      KeptLinesSound(lines, n - 1);
    }
  }

  /** The kept lines come in increasing line order. */
  lemma {:induction false} KeptLinesOrdered(lines: seq<string>, n: nat)
    requires n <= |lines|
    ensures forall k, l :: 0 <= k < l < |KeptLines(lines, n)| ==> KeptLines(lines, n)[k].0 < KeptLines(lines, n)[l].0
  {
    if n > 0 {
      KeptLinesOrdered(lines, n - 1);
      KeptLinesSound(lines, n - 1);
    }
  }

  /** No non-blank line is missed. */
  lemma {:induction false} KeptLinesComplete(lines: seq<string>, n: nat, j: nat)
    requires j < n <= |lines| && Strip(lines[j]) != ""
    ensures exists k :: 0 <= k < |KeptLines(lines, n)| && KeptLines(lines, n)[k].0 == j
  {
    var before := KeptLines(lines, n - 1);
    var kept := KeptLines(lines, n);
    if j == n - 1 {
      assert kept[|before|].0 == j;
    } else {
      KeptLinesComplete(lines, n - 1, j);
      var k :| 0 <= k < |before| && before[k].0 == j;
      assert kept[k] == before[k];
    }
  }

  /** The block of line `j` in `--raw-text` mode. */
  function RawBlock(j: nat, text: string): Json
  {
    JObj([("text", JStr(text)), ("confidence", JNum(1.0)), ("bbox", JStr(Label("Line ", j)))])
  }

  function RawBlocks(kept: seq<(nat, string)>): (blocks: seq<Json>)
    ensures |blocks| == |kept|
    ensures forall k :: 0 <= k < |kept| ==> blocks[k] == RawBlock(kept[k].0, kept[k].1)
  {
    if kept == [] then []
    else RawBlocks(kept[..|kept| - 1]) + [RawBlock(kept[|kept| - 1].0, kept[|kept| - 1].1)]
  }

  /** The `--raw-text` loop: the text is split on backslash-n, and every line
      that is not blank after stripping becomes a block with its stripped text,
      confidence 1.0 and its original line number. */
  method RawTextBlocks(rawText: string) returns (blocks: seq<Json>)
    ensures blocks == RawBlocks(KeptLines(Split(rawText, BackslashN), |Split(rawText, BackslashN)|))
  {
    var lines := Split(rawText, BackslashN);
    blocks := [];
    var i := 0;
    while i < |lines|
      invariant 0 <= i <= |lines|
      invariant blocks == RawBlocks(KeptLines(lines, i))
    {
      var line := Strip(lines[i]);
      if line != "" {
        var kept := KeptLines(lines, i + 1);
        assert kept[..|kept| - 1] == KeptLines(lines, i);
        blocks := blocks + [RawBlock(i, line)];
      }
      i := i + 1;
    }
  }

  function RawTextMetrics(aiSeconds: real): Json
  {
    JObj([("paddleocr_time_seconds", JNum(0.0)),
          ("ai_processing_time_seconds", JNum(aiSeconds)),
          ("total_time_seconds", JNum(aiSeconds)),
          ("raw_text_processing", JBool(true))])
  }

  /** The `--raw-text` updates of the decoded answer: processing metrics, the
      line blocks and the preview; other members are kept. */
  method ShapeRawText(processed: Json, rawText: string, aiSeconds: real) returns (r: Shaped)
    ensures r.Shaped? <==> processed.JObj?
    ensures r.Shaped? ==>
              var lines := Split(rawText, BackslashN);
              var kept := KeptLines(lines, |lines|);
              && r.doc.JObj?
              && KeysOf(processed.fields) <= KeysOf(r.doc.fields)
              && Member(r.doc, "processing_metrics") == Some(RawTextMetrics(aiSeconds))
              && Member(r.doc, "text_blocks") == Some(JArr(RawBlocks(kept)))
              && Member(r.doc, "raw_ocr_text") == Some(JStr(Preview(rawText)))
              && forall k :: k != "processing_metrics" && k != "text_blocks" && k != "raw_ocr_text" ==>
                               Member(r.doc, k) == Member(processed, k)
  {
    if !processed.JObj? {
      return ShapeError;
    }
    var d1 := Assign(processed.fields, "processing_metrics", RawTextMetrics(aiSeconds));
    var blocks := RawTextBlocks(rawText);
    var d2 := Assign(d1, "text_blocks", JArr(blocks));
    var d3 := Assign(d2, "raw_ocr_text", JStr(Preview(rawText)));
    AssignThree(processed.fields, "processing_metrics", "text_blocks", "raw_ocr_text",
                RawTextMetrics(aiSeconds), JArr(blocks), JStr(Preview(rawText)));
    r := Shaped(JObj(d3));
  }
}
