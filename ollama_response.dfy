/** `parse_with_ollama`, `_create_fallback_structure` and the command-line
    path defaulting of OCR/extract_to_json.py. The model's answer is trimmed,
    a markdown fence is removed, the text from the first `{` to the last `}` is
    decoded, one repair that turns every `'` into `"` is tried after a decode
    error, and anything else ends in a fallback document; nothing raises. */
module OllamaResponse {
  import opened JsonValues
  import opened Text

  const JsonFence: string := "```json"
  const Fence: string := "```"

  /** The markdown-fence removal, applied to the trimmed answer. The source
      skips the opening fences by their lengths, 7 and 3. */
  function Unfence(content: string): string
  {
    UnfenceWith(content, JsonFence, Fence)
  }

  function UnfenceWith(content: string, jsonFence: string, fence: string): string
  {
    if Contains(content, jsonFence) then
      var start := Find(content, jsonFence) + |jsonFence|;
      var end := FindFrom(content, fence, start);
      if end != -1 then content[start..end] else content
    else if Contains(content, fence) then
      var start := Find(content, fence) + |fence|;
      var end := RFind(content, fence);
      if end != -1 && end > start then content[start..end] else content
    else content
  }

  /** A ```json fence: the text after its first occurrence up to the next
      fence, which therefore holds no fence itself; without a closing fence the
      text is unchanged. */
  lemma UnfenceJson(content: string)
    requires Contains(content, JsonFence)
    ensures var i := Find(content, JsonFence);
            var end := FindFrom(content, Fence, i + 7);
            && 0 <= i && i + 7 <= |content|
            && (end == -1 ==> Unfence(content) == content)
            && (end != -1 ==> i + 7 <= end && Unfence(content) == content[i + 7..end]
                              && !Contains(Unfence(content), Fence))
  {
    assert |JsonFence| == 7;
    UnfenceJsonWith(content, JsonFence, Fence);
  }

  lemma UnfenceJsonWith(content: string, jsonFence: string, fence: string)
    requires Contains(content, jsonFence) && fence != []
    ensures var i := Find(content, jsonFence);
            var end := FindFrom(content, fence, i + |jsonFence|);
            && 0 <= i && i + |jsonFence| <= |content|
            && (end == -1 ==> UnfenceWith(content, jsonFence, fence) == content)
            && (end != -1 ==> i + |jsonFence| <= end
                              && UnfenceWith(content, jsonFence, fence) == content[i + |jsonFence|..end]
                              && !Contains(UnfenceWith(content, jsonFence, fence), fence))
  {
    var i := Find(content, jsonFence);
    var start := i + |jsonFence|;
    var end := FindFrom(content, fence, start);
    if end != -1 {
      var r := content[start..end];
      var j := Find(r, fence);
      if j != -1 {
        OccursInSlice(content, start, end, fence, j);
      }
    }
  }

  lemma OccursInSlice(s: string, lo: nat, hi: nat, pat: string, j: nat)
    requires lo <= hi <= |s| && OccursAt(s[lo..hi], pat, j)
    ensures OccursAt(s, pat, lo + j)
  {
    var a := s[lo..hi][j..j + |pat|];
    var b := s[lo + j..lo + j + |pat|];
    forall k | 0 <= k < |pat| ensures a[k] == b[k] {
      assert a[k] == s[lo..hi][j + k] == s[lo + j + k];
    }
    assert a == b;
  }

  /** A bare fence pair: the text strictly between the first and the last
      fence; a single fence (first and last the same) leaves the text
      unchanged. */
  lemma UnfenceBare(content: string)
    requires !Contains(content, JsonFence) && Contains(content, Fence)
    ensures var first := Find(content, Fence);
            var last := RFind(content, Fence);
            && 0 <= first <= last
            && (last > first + 3 ==> Unfence(content) == content[first + 3..last])
            && (last <= first + 3 ==> Unfence(content) == content)
  {
    assert |Fence| == 3;
    UnfenceBareWith(content, JsonFence, Fence);
  }

  lemma UnfenceBareWith(content: string, jsonFence: string, fence: string)
    requires !Contains(content, jsonFence) && Contains(content, fence)
    ensures var first := Find(content, fence);
            var last := RFind(content, fence);
            && 0 <= first <= last
            && (last > first + |fence| ==> UnfenceWith(content, jsonFence, fence) == content[first + |fence|..last])
            && (last <= first + |fence| ==> UnfenceWith(content, jsonFence, fence) == content)
  {
    var first := Find(content, fence);
    assert OccursAt(content, fence, first);
  }

  /** The text handed to the decoder. */
  function Cleaned(content: string): string
  {
    BraceSlice(Unfence(Strip(content)))
  }

  /** The one repair: every single quote becomes a double quote. */
  function QuoteRepair(s: string): (r: string)
    ensures |r| == |s| && '\'' !in r
    ensures forall i :: 0 <= i < |s| && s[i] != '\'' ==> r[i] == s[i]
  {
    ReplaceChar(s, '\'', '"')
  }

  /** Repairing twice gives what repairing once gives, so a second repair pass
      could never decode anything the first did not. */
  lemma QuoteRepairIdempotent(s: string)
    ensures QuoteRepair(QuoteRepair(s)) == QuoteRepair(s)
  {
    var r := QuoteRepair(s);
    assert forall i :: 0 <= i < |r| ==> r[i] != '\'';
  }

  /** `ollama.chat`'s answer: its message content, or any exception raised by
      the call or by reading the content. */
  datatype ChatReply = Replied(content: string) | CallFailed

  datatype Outcome = Strict(value: Json) | QuoteRepaired(value: Json) | Fallback(doc: Json)

  /** `parse_with_ollama` given the model's reply. */
  function ParseWithOllama(reply: ChatReply, decode: Decoder, imagePath: string, timestamp: string): (o: Outcome)
    ensures reply.CallFailed? ==> o.Fallback?
    ensures o.Fallback? ==> o.doc == FallbackStructure(imagePath, timestamp)
    ensures o.Strict? ==> reply.Replied? && decode(Cleaned(reply.content)) == Ok(o.value)
    ensures o.QuoteRepaired? ==> reply.Replied? && decode(QuoteRepair(Cleaned(reply.content))) == Ok(o.value)
  {
    match reply
    case CallFailed => Fallback(FallbackStructure(imagePath, timestamp))
    case Replied(content) => RouteDecoded(Cleaned(content), decode, FallbackStructure(imagePath, timestamp))
  }

  /** Strict decode, then one repaired decode, then the fallback. */
  function RouteDecoded(cleaned: string, decode: Decoder, fallback: Json): Outcome
  {
    match decode(cleaned)
    case Ok(j) => Strict(j)
    case Err(_) =>
      match decode(QuoteRepair(cleaned))
      case Ok(j) => QuoteRepaired(j)
      case Err(_) => Fallback(fallback)
  }

  /** The routing: a strict result is what the cleaned text decodes to, the
      repaired one is tried only after a strict decode error, and every other
      case, a failed model call included, is the fallback. */
  lemma ParseRouting(reply: ChatReply, decode: Decoder, imagePath: string, timestamp: string)
    ensures var o := ParseWithOllama(reply, decode, imagePath, timestamp);
            && (o.Strict? <==> reply.Replied? && decode(Cleaned(reply.content)).Ok?)
            && (o.Strict? ==> o.value == decode(Cleaned(reply.content)).value)
            && (o.QuoteRepaired? <==> reply.Replied? && decode(Cleaned(reply.content)).Err?
                                      && decode(QuoteRepair(Cleaned(reply.content))).Ok?)
            && (o.QuoteRepaired? ==> o.value == decode(QuoteRepair(Cleaned(reply.content))).value)
            && (o.Fallback? <==> reply.CallFailed?
                                 || (decode(Cleaned(reply.content)).Err? && decode(QuoteRepair(Cleaned(reply.content))).Err?))
            && (o.Fallback? ==> o.doc == FallbackStructure(imagePath, timestamp))
  {
    var fb := FallbackStructure(imagePath, timestamp);
    if reply.Replied? {
      var c := Cleaned(reply.content);
      assert ParseWithOllama(reply, decode, imagePath, timestamp) == RouteDecoded(c, decode, fb);
    }
  }

  const DataSections: seq<string> := [
    "policy_holder", "policy_information", "vehicle_information", "coverage_details",
    "billing_information", "driver_information"]

  const OverallConfidenceLow: string := "low"
  const ExtractionError: string := "Failed to parse with Ollama"

  function EmptyObjects(keys: seq<string>): seq<(string, Json)>
  {
    if keys == [] then [] else [(keys[0], JObj([]))] + EmptyObjects(keys[1..])
  }

  /** The fallback document, for an image path and an extraction time. */
  function FallbackStructure(imagePath: string, timestamp: string): Json
  {
    FallbackOver(imagePath, timestamp, DataSections)
  }

  function FallbackOver(imagePath: string, timestamp: string, sections: seq<string>): Json
  {
    JObj([
      ("document_metadata", JObj([
        ("filename", JStr(imagePath)),
        ("extraction_timestamp", JStr(timestamp)),
        ("document_language", JStr("unknown")),
        ("document_type", JStr("auto_insurance_policy"))])),
      ("confidence_assessment", JObj([
        ("overall_confidence", JStr(OverallConfidenceLow)),
        ("extraction_error", JStr(ExtractionError))]))]
      + EmptyObjects(sections))
  }

  lemma {:induction false} EmptyObjectsShape(keys: seq<string>)
    ensures KeysOf(EmptyObjects(keys)) == keys
    ensures forall i :: 0 <= i < |keys| ==> EmptyObjects(keys)[i].1 == JObj([])
  {
    if keys != [] {
      EmptyObjectsShape(keys[1..]);
    }
  }

  /** The fallback is marked low-confidence with the extraction error, records
      the image path, and every data section is an empty object. */
  lemma {:induction false} FallbackOverShape(imagePath: string, timestamp: string, sections: seq<string>)
    ensures var d := FallbackOver(imagePath, timestamp, sections);
            && d.JObj? && |d.fields| == 2 + |sections|
            && KeysOf(d.fields) == ["document_metadata", "confidence_assessment"] + sections
            && d.fields[1].1 == JObj([("overall_confidence", JStr(OverallConfidenceLow)),
                                      ("extraction_error", JStr(ExtractionError))])
            && d.fields[0].1 == JObj([("filename", JStr(imagePath)),
                                      ("extraction_timestamp", JStr(timestamp)),
                                      ("document_language", JStr("unknown")),
                                      ("document_type", JStr("auto_insurance_policy"))])
            && forall i :: 2 <= i < |d.fields| ==> d.fields[i].1 == JObj([])
  {
    var d := FallbackOver(imagePath, timestamp, sections);
    EmptyObjectsShape(sections);
    var head := d.fields[..2];
    assert d.fields == head + EmptyObjects(sections);
    assert KeysOf(d.fields) == KeysOf(head) + KeysOf(EmptyObjects(sections)) by {
      var ks := KeysOf(d.fields);
      assert forall i :: 0 <= i < |ks| ==> ks[i] == (KeysOf(head) + KeysOf(EmptyObjects(sections)))[i];
    }
  }

  lemma FallbackShape(imagePath: string, timestamp: string)
    ensures var d := FallbackStructure(imagePath, timestamp);
            && d.JObj? && |d.fields| == 8
            && KeysOf(d.fields) == ["document_metadata", "confidence_assessment"] + DataSections
            && d.fields[1].1 == JObj([("overall_confidence", JStr(OverallConfidenceLow)),
                                      ("extraction_error", JStr(ExtractionError))])
            && d.fields[0].1 == JObj([("filename", JStr(imagePath)),
                                      ("extraction_timestamp", JStr(timestamp)),
                                      ("document_language", JStr("unknown")),
                                      ("document_type", JStr("auto_insurance_policy"))])
            && forall i :: 2 <= i < 8 ==> d.fields[i].1 == JObj([])
  {
    FallbackOverShape(imagePath, timestamp, DataSections);
  }

  const DefaultImagePath: string := "Test-Geico.jpg"

  /** `image_path.lower().endswith(('.jpg', '.jpeg', '.png'))`. */
  predicate HasImageExtension(path: string)
  {
    var lower := LowerAscii(path);
    EndsWith(lower, ".jpg") || EndsWith(lower, ".jpeg") || EndsWith(lower, ".png")
  }

  /** The image path the command line processes: the first argument or the
      default, with ".jpg" appended when it lacks an image extension. */
  function CliImagePath(argv: seq<string>): (p: string)
    ensures |argv| > 1 ==> p == argv[1] || p == argv[1] + ".jpg"
    ensures |argv| > 1 && HasImageExtension(argv[1]) ==> p == argv[1]
    ensures |argv| <= 1 ==> p == DefaultImagePath || p == DefaultImagePath + ".jpg"
  {
    var path := if |argv| > 1 then argv[1] else DefaultImagePath;
    if HasImageExtension(path) then path else path + ".jpg"
  }

  /** A path ending in ".jpg" has an image extension. */
  lemma JpgHasImageExtension(path: string)
    requires EndsWith(path, ".jpg")
    ensures HasImageExtension(path)
  {
    LowerAsciiSuffix(path, ".jpg");
  }

  /** The chosen path always has an image extension, a path that has one is
      kept as given, and defaulting a second time changes nothing. */
  lemma CliImagePathExtension(argv: seq<string>)
    ensures HasImageExtension(CliImagePath(argv))
    ensures |argv| > 1 && HasImageExtension(argv[1]) ==> CliImagePath(argv) == argv[1]
    ensures CliImagePath(["extract_to_json.py", CliImagePath(argv)]) == CliImagePath(argv)
  {
    var path := if |argv| > 1 then argv[1] else DefaultImagePath;
    if !HasImageExtension(path) {
      var p := path + ".jpg";
      assert p[|p| - 4..] == ".jpg";
      JpgHasImageExtension(p);
    } else if |argv| <= 1 {
      DefaultHasImageExtension();
    }
    var q := CliImagePath(argv);
    var again := ["extract_to_json.py", q];
    assert |again| > 1 && again[1] == q;
  }

  lemma DefaultHasImageExtension()
    ensures HasImageExtension(DefaultImagePath)
  {
    assert DefaultImagePath == "Test-Geico" + ".jpg";
    JpgHasImageExtension(DefaultImagePath);
  }
}
