/** `parse_json_response` of OCR/fast_ocr_processor.py: the candidate is the
    trimmed text from its first `{` through its last `}`, whatever the decoder
    returns is returned, and a decode error falls back to the flat schema's
    all-empty document. */
module FastResponse {
  import opened JsonValues
  import opened Text
  import FlatSchema

  /** The text handed to the decoder. */
  function Candidate(content: string): string
  {
    BraceSlice(Strip(content))
  }

  /** Any decoded value is returned as it is; only a decode error is caught. */
  datatype Outcome = Parsed(value: Json) | FellBack(doc: Json)

  function Route(decoded: Result<Json>): Outcome
  {
    match decoded
    case Ok(j) => Parsed(j)
    case Err(_) => FellBack(FlatSchema.FallbackDocument())
  }

  /** `parse_json_response`: the candidate decoded; whatever decodes is
      returned, and a decode error gives the fallback, which is an object. */
  function ParseJsonResponse(content: string, decode: Decoder): (o: Outcome)
    ensures o.FellBack? <==> decode(Candidate(content)).Err?
    ensures decode(Candidate(content)).Ok? ==> o == Parsed(decode(Candidate(content)).value)
    ensures o.FellBack? ==> FlatSchema.IsFallback(o.doc) && o.doc.JObj?
  {
    FallbackIffDecodeError(decode(Candidate(content)));
    Route(decode(Candidate(content)))
  }

  /** Only a decode error leads to the fallback, and the fallback is the
      all-empty nine-key document with an empty coverage list. Anything that
      decodes, object or not, is returned unchanged. */
  lemma FallbackIffDecodeError(decoded: Result<Json>)
    ensures Route(decoded).FellBack? <==> decoded.Err?
    ensures decoded.Ok? ==> Route(decoded) == Parsed(decoded.value)
    ensures Route(decoded).FellBack? ==> FlatSchema.IsFallback(Route(decoded).doc)
  {
    match decoded
    case Ok(_) =>
    case Err(_) =>
      FlatSchema.FallbackIsFallback();
  }
}
