/** `parse_json_response` of OCR/paddleocr_to_json.py: the model's answer is
    trimmed, the candidate object is cut out with a brace-depth counter that
    starts at the first `{`, and a decode error falls back to the flat schema's
    all-empty document. */
module PaddleResponse {
  import opened JsonValues
  import opened Text
  import FlatSchema

  /** Number of occurrences of `c` in `s`. */
  function Count(s: string, c: char): (n: nat)
    ensures n <= |s|
  {
    if s == [] then 0 else Count(s[..|s| - 1], c) + (if s[|s| - 1] == c then 1 else 0)
  }

  /** Opening minus closing braces. Braces inside quoted strings count too:
      the scanner does not know about strings. */
  function Depth(s: string): int
  {
    Count(s, '{') - Count(s, '}')
  }

  lemma DepthStep(s: string, c: char)
    ensures Depth(s + [c]) == Depth(s) + (if c == '{' then 1 else if c == '}' then -1 else 0)
  {
    assert (s + [c])[..|s|] == s;
  }

  lemma DepthSliceStep(t: string, start: nat, k: nat)
    requires start <= k < |t|
    ensures Depth(t[start..k + 1]) == Depth(t[start..k]) + (if t[k] == '{' then 1 else if t[k] == '}' then -1 else 0)
  {
    assert t[start..k + 1] == t[start..k] + [t[k]];
    DepthStep(t[start..k], t[k]);
  }

  /** The first end point `r` at or after `k` at which the slice from `start`
      has depth 0, or the end of the text when there is none. */
  function CloseFrom(t: string, start: nat, k: nat): (r: nat)
    requires start < k <= |t|
    decreases |t| - k
    ensures k <= r <= |t|
    ensures r == |t| || Depth(t[start..r]) == 0
    ensures forall j :: k <= j < r ==> Depth(t[start..j]) != 0
  {
    if Depth(t[start..k]) == 0 || k == |t| then k else CloseFrom(t, start, k + 1)
  }

  /** Where the scan that starts at the brace `t[start]` stops (exclusive). */
  function MatchEnd(t: string, start: nat): (e: nat)
    requires start < |t|
  {
    CloseFrom(t, start, start + 1)
  }

  /** An end point with no earlier zero and a zero (or the end of the text)
      there is the one CloseFrom finds. */
  lemma {:induction false} CloseFromUnique(t: string, start: nat, k: nat, e: nat)
    requires start < k <= e <= |t|
    requires forall j :: k <= j < e ==> Depth(t[start..j]) != 0
    requires e == |t| || Depth(t[start..e]) == 0
    ensures CloseFrom(t, start, k) == e
    decreases e - k
  {
    if Depth(t[start..k]) == 0 || k == |t| {
    } else {
      CloseFromUnique(t, start, k + 1, e);
    }
  }

  /** From the opening brace on, the depth of every slice before the stop is
      positive, and a stop inside the text is a closing brace. */
  lemma MatchEndShape(t: string, start: nat)
    requires start < |t| && t[start] == '{'
    ensures start < MatchEnd(t, start) <= |t|
    ensures forall j :: start < j < MatchEnd(t, start) ==> Depth(t[start..j]) > 0
    ensures Depth(t[start..MatchEnd(t, start)]) == 0 ==>
              t[MatchEnd(t, start) - 1] == '}' && Count(t[start..MatchEnd(t, start)], '{') == Count(t[start..MatchEnd(t, start)], '}')
  {
    var e := MatchEnd(t, start);
    PositivePrefixes(t, start, e, e);
    if Depth(t[start..e]) == 0 {
      DepthSliceStep(t, start, e - 1);
      DepthSliceStep(t, start, start);
      assert t[start..start] == [];
    }
  }

  lemma {:induction false} PositivePrefixes(t: string, start: nat, e: nat, j: nat)
    requires start < |t| && t[start] == '{'
    requires start < j <= e <= |t|
    requires forall i :: start < i < e ==> Depth(t[start..i]) != 0
    ensures forall i :: start < i <= j && i < e ==> Depth(t[start..i]) > 0
    decreases j - start
  {
    if j == start + 1 {
      DepthSliceStep(t, start, start);
      assert t[start..start] == [];
    } else {
      PositivePrefixes(t, start, e, j - 1);
      if j < e {
        DepthSliceStep(t, start, j - 1);
      }
    }
  }

  /** The text handed to the decoder. */
  function Candidate(content: string): string
  {
    var t := Strip(content);
    if '{' in t && '}' in t then
      var start := IndexOf(t, '{');
      t[start..MatchEnd(t, start)]
    else t
  }

  /** Returned object, the fallback after a decode error, or the exception
      raised by `.keys()` when the decoded value is not an object. */
  datatype Outcome = Parsed(doc: Json) | FellBack(doc: Json) | Raised(decoded: Json)

  /** How the decoder's answer is routed. */
  function Route(decoded: Result<Json>): Outcome
  {
    match decoded
    case Ok(j) => if j.JObj? then Parsed(j) else Raised(j)
    case Err(_) => FellBack(FlatSchema.FallbackDocument())
  }

  /** `parse_json_response`: the candidate decoded and routed. */
  function ResponseOutcome(content: string, decode: Decoder): (o: Outcome)
    ensures o.FellBack? <==> decode(Candidate(content)).Err?
    ensures o.Parsed? ==> o.doc.JObj? && decode(Candidate(content)) == Ok(o.doc)
    ensures o.Raised? ==> !o.decoded.JObj? && decode(Candidate(content)) == Ok(o.decoded)
  {
    Route(decode(Candidate(content)))
  }

  /** The scanning loop as the source writes it: from the brace at `start`,
      count braces until the count returns to zero. */
  method ScanEnd(t: string, start: nat) returns (end: nat)
    requires start < |t| && t[start] == '{'
    ensures end == MatchEnd(t, start)
  {
    var braceCount := 0;
    end := |t|;
    var i := start;
    while i < |t|
      invariant start <= i <= |t|
      invariant braceCount == Depth(t[start..i])
      invariant i > start ==> braceCount > 0
      invariant forall j :: start < j <= i ==> Depth(t[start..j]) != 0
      invariant end == |t|
    {
      var ch := t[i];
      DepthSliceStep(t, start, i);
      if ch == '{' {
        braceCount := braceCount + 1;
      } else if ch == '}' {
        braceCount := braceCount - 1;
        if braceCount == 0 {
          end := i + 1;
          break;
        }
      }
      i := i + 1;
    }
    CloseFromUnique(t, start, start + 1, end);
  }

  method ParseJsonResponse(content: string, decode: Decoder) returns (r: Outcome)
    ensures r == ResponseOutcome(content, decode)
  {
    var t := Strip(content);
    var jsonContent := t;
    if '{' in t && '}' in t {
      var start := IndexOf(t, '{');
      var end := ScanEnd(t, start);
      jsonContent := t[start..end];
    }
    assert jsonContent == Candidate(content);
    r := Route(decode(jsonContent));
  }

  /** With both braces present the candidate starts at the first `{` of the
      trimmed text and is the slice the scan stops at; without one of them it
      is the whole trimmed text. */
  lemma CandidateStart(content: string)
    ensures var t := Strip(content);
            if '{' in t && '}' in t then
              var start := IndexOf(t, '{');
              && 0 <= start < |t| && '{' !in t[..start]
              && Candidate(content) == t[start..MatchEnd(t, start)]
              && Candidate(content) != [] && Candidate(content)[0] == '{'
            else Candidate(content) == t
  {
    var t := Strip(content);
    if '{' in t && '}' in t {
      var start := IndexOf(t, '{');
      MatchEndShape(t, start);
    }
  }

  /** A candidate that is balanced ends in `}` with as many `{` as `}`, and
      every proper prefix is open; one that never balances runs to the end. */
  lemma CandidateBalanceOrRest(content: string)
    requires '{' in Strip(content) && '}' in Strip(content)
    ensures var c := Candidate(content);
            (forall j :: 1 <= j < |c| ==> Depth(c[..j]) > 0)
            && (Depth(c) == 0 ==> c[|c| - 1] == '}' && Count(c, '{') == Count(c, '}'))
            && (Depth(c) != 0 ==> Candidate(content) == Strip(content)[IndexOf(Strip(content), '{')..])
  {
    var t := Strip(content);
    var start := IndexOf(t, '{');
    var e := MatchEnd(t, start);
    MatchEndShape(t, start);
    var c := t[start..e];
    forall j | 1 <= j < |c| ensures Depth(c[..j]) > 0 {
      assert c[..j] == t[start..start + j];
    }
    if Depth(c) != 0 {
      assert e == |t| by {
        assert e == CloseFrom(t, start, start + 1);
      }
      assert c == t[start..];
    }
  }

  /** Only a decode error leads to the fallback, and the fallback is the
      all-empty nine-key document with an empty coverage list. */
  lemma FallbackIffDecodeError(decoded: Result<Json>)
    ensures Route(decoded).FellBack? <==> decoded.Err?
    ensures Route(decoded).FellBack? ==> FlatSchema.IsFallback(Route(decoded).doc)
  {
    match decoded
    case Ok(_) =>
    case Err(_) =>
      FlatSchema.FallbackIsFallback();
  }

  /** Whatever is not raised is an object: the decoded one or the fallback. */
  lemma RoutedDocIsObject(decoded: Result<Json>)
    ensures !Route(decoded).Raised? ==> Route(decoded).doc.JObj?
  {
    if decoded.Err? {
      FlatSchema.FallbackIsFallback();
    }
  }

  /** A decoder that turns text starting with `{` into an object, as any JSON
      decoder does. */
  ghost predicate ObjectsFromBraces(decode: Decoder)
  {
    forall s :: s != [] && s[0] == '{' && decode(s).Ok? ==> decode(s).value.JObj?
  }

  /** The exception escapes only when a brace is missing from the trimmed text. */
  lemma RaisedOnlyWithoutBraces(content: string, decode: Decoder)
    requires ObjectsFromBraces(decode)
    requires ResponseOutcome(content, decode).Raised?
    ensures '{' !in Strip(content) || '}' !in Strip(content)
  {
    if '{' in Strip(content) && '}' in Strip(content) {
      CandidateOpens(content);
      assert false;
    }
  }

  /** With both braces present the candidate starts with `{`. */
  lemma CandidateOpens(content: string)
    requires '{' in Strip(content) && '}' in Strip(content)
    ensures Candidate(content) != [] && Candidate(content)[0] == '{'
  {
    CandidateStart(content);
  }

  /** A `}` inside a quoted string closes the object early: the candidate of
      `{"a":"}"}` is `{"a":"}`. */
  lemma QuotedBraceCounted()
    ensures Candidate(QuotedBraceExample) == QuotedBraceExample[..7]
  {
    var s := QuotedBraceExample;
    assert Strip(s) == s by {
      assert !IsPySpace(s[0]) && !IsPySpace(s[|s| - 1]);
    }
    assert IndexOf(s, '{') == 0;
    assert '}' in s by {
      assert s[6] == '}';
    }
    QuotedBraceScan();
  }

  const QuotedBraceExample: string := "{\"a\":\"}\"}"

  lemma QuotedBraceScan()
    ensures MatchEnd(QuotedBraceExample, 0) == 7
  {
    var s := QuotedBraceExample;
    assert s[0..0] == [];
    DepthSliceStep(s, 0, 0);
    DepthSliceStep(s, 0, 1);
    DepthSliceStep(s, 0, 2);
    DepthSliceStep(s, 0, 3);
    DepthSliceStep(s, 0, 4);
    DepthSliceStep(s, 0, 5);
    DepthSliceStep(s, 0, 6);
    CloseFromUnique(s, 0, 1, 7);
  }
}
