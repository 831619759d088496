/** OCR/ocr_service.py, the script the backend runs: a case-insensitive
    extension check with an early return, the recognised texts joined by
    single spaces, and one JSON line printed on success. */
module OcrService {
  import opened JsonValues
  import opened Text

  /** The suffixes `process_image` accepts, compared after lower-casing. */
  const SupportedSuffixes: seq<string> := [".jpg", ".png", ".jpeg", ".bmp", ".pdf"]

  predicate Supported(imagePath: string): (ok: bool)
    ensures ok ==> |imagePath| >= 4 && LowerAscii(imagePath)[|imagePath| - 4..] in {".jpg", ".png", "jpeg", ".bmp", ".pdf"}
  {
    SupportedSuffixEnds(LowerAscii(imagePath));
    exists i :: 0 <= i < |SupportedSuffixes| && EndsWith(LowerAscii(imagePath), SupportedSuffixes[i])
  }

  lemma SupportedSuffixEnds(lower: string)
    ensures (exists i :: 0 <= i < |SupportedSuffixes| && EndsWith(lower, SupportedSuffixes[i])) ==>
              |lower| >= 4 && lower[|lower| - 4..] in {".jpg", ".png", "jpeg", ".bmp", ".pdf"}
  {
    if i :| 0 <= i < |SupportedSuffixes| && EndsWith(lower, SupportedSuffixes[i]) {
      assert lower[|lower| - 4..] == SupportedSuffixes[i][|SupportedSuffixes[i]| - 4..];
    }
  }

  /** The dictionary returned for any other suffix. */
  function UnsupportedError(): Json
  {
    JObj([("status", JStr("error")), ("message", JStr("Unsupported file type"))])
  }

  /** `' '.join(text_blocks) if text_blocks else ""`. */
  function FullText(texts: seq<string>): (r: string)
  {
    if texts != [] then Join(texts, " ") else ""
  }

  function SuccessOutput(imagePath: string, texts: seq<string>): Json
  {
    JObj([("status", JStr("success")),
          ("image_path", JStr(imagePath)),
          ("text_blocks", JArr(seq(|texts|, i requires 0 <= i < |texts| => JStr(texts[i])))),
          ("full_text", JStr(FullText(texts)))])
  }

  /** What `process_image` does: return the error dictionary (which the
      script's entry point drops), or print the output dictionary. */
  datatype Run = Returned(error: Json) | Printed(output: Json)

  /** `process_image` given the texts the engine recognised (`line[1][0]`
      for each item of its answer). */
  function ProcessImage(imagePath: string, texts: seq<string>): (r: Run)
    ensures r.Returned? <==> !Supported(imagePath)
    ensures r.Returned? ==> r.error == UnsupportedError()
    ensures r.Printed? ==> r.output == SuccessOutput(imagePath, texts)
  {
    if !Supported(imagePath) then Returned(UnsupportedError())
    else Printed(SuccessOutput(imagePath, texts))
  }

  /** What the script writes to standard output, with `encode` standing for
      `json.dumps`: the printed line, or nothing at all. */
  function Stdout(imagePath: string, texts: seq<string>, encode: Json -> string): (out: string)
    ensures !Supported(imagePath) ==> out == ""
  {
    match ProcessImage(imagePath, texts)
    case Returned(_) => ""
    case Printed(doc) => encode(doc) + "\n"
  }

  /** The guard on `text_blocks` changes nothing: joining no texts is "". */
  lemma FullTextIsJoin(texts: seq<string>)
    ensures FullText(texts) == Join(texts, " ")
    ensures FullText(texts) == "" <==> texts == [] || texts == [""]
  {
    if texts != [] && FullText(texts) == "" {
      JoinEmpty(texts, " ");
    }
  }

  /** A join that comes out empty joined only empty pieces, and at most one
      of them when the separator is not empty. */
  lemma {:induction false} JoinEmpty(parts: seq<string>, sep: string)
    requires sep != [] && parts != [] && Join(parts, sep) == ""
    ensures |parts| == 1 && parts[0] == ""
  {
  }

  /** The output dictionary has exactly the keys status, image_path,
      text_blocks and full_text, with one text block per recognised text. */
  lemma SuccessShape(imagePath: string, texts: seq<string>)
    ensures var out := SuccessOutput(imagePath, texts);
            && out.JObj?
            && KeysOf(out.fields) == ["status", "image_path", "text_blocks", "full_text"]
            && Member(out, "status") == Some(JStr("success"))
            && Member(out, "full_text") == Some(JStr(Join(texts, " ")))
  {
    var doc := SuccessOutput(imagePath, texts);
    var blocks := JArr(seq(|texts|, i requires 0 <= i < |texts| => JStr(texts[i])));
    var full := JStr(FullText(texts));
    var tail := [("image_path", JStr(imagePath)), ("text_blocks", blocks), ("full_text", full)];
    assert doc.fields == [("status", JStr("success"))] + tail;
    FullTextIsJoin(texts);
    assert KeysOf(doc.fields) == ["status", "image_path", "text_blocks", "full_text"] by {
      var ks := KeysOf(doc.fields);
      assert ks[0] == "status" && ks[1] == "image_path" && ks[2] == "text_blocks" && ks[3] == "full_text";
    }
    assert Lookup(doc.fields, "full_text") == Some(full) by {
      LookupCons("status", JStr("success"), tail, "full_text");
      LookupCons("image_path", JStr(imagePath), tail[1..], "full_text");
      LookupCons("text_blocks", blocks, tail[2..], "full_text");
    }
  }

  /** Upper-case suffixes are accepted too. */
  lemma UpperCaseAccepted()
    ensures Supported("SCAN.PNG")
  {
    assert LowerAscii("SCAN.PNG") == "scan.png";
    assert EndsWith(LowerAscii("SCAN.PNG"), SupportedSuffixes[1]);
  }

  /** A GIF is not among the suffixes. */
  lemma GifUnsupported(imagePath: string)
    requires EndsWith(imagePath, ".gif")
    ensures !Supported(imagePath)
  {
    var low := LowerAscii(imagePath);
    LowerAsciiSuffix(imagePath, ".gif");
    assert low[|low| - 4..] == ".gif";
    forall i | 0 <= i < |SupportedSuffixes|
      ensures !EndsWith(low, SupportedSuffixes[i])
    {
      var suf := SupportedSuffixes[i];
      assert low[|low| - 1] == 'f' && low[|low| - 2] == 'i' && low[|low| - 3] == 'g';
    }
  }
}
