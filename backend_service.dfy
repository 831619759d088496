/** `processOCR` of backend/src/app.service.ts: the OCR script's standard
    output is trimmed and split on line breaks, lines are popped off the end
    until one starts with `{` (an empty line ends the scan), and only that line
    is parsed. */
module BackendService {
  import opened JsonValues
  import opened Text

  /** What `exec` reports: an error (with its exit code rendered as text, as
      the template literal does) or the captured output. */
  datatype Exec = ExecFailed(code: string, stderr: string) | ExecDone(stdout: string, stderr: string)

  /** A line ends the backward scan when it is empty (falsy) or starts with `{`. */
  predicate Stops(line: string)
  {
    line == "" || StartsWith(line, "{")
  }

  /** The index the scan stops at when it starts from line `k`: the first
      stopping line at or below `k`, or line 0 when there is none. */
  function StopIndex(lines: seq<string>, k: nat): (j: nat)
    requires k < |lines|
    ensures j <= k
    ensures j == 0 || Stops(lines[j])
    ensures forall i :: j < i <= k ==> !Stops(lines[i])
  {
    if k == 0 || Stops(lines[k]) then k else StopIndex(lines, k - 1)
  }

  function Lines(stdout: string): (lines: seq<string>)
    ensures |lines| >= 1
  {
    Split(Trim(stdout), "\n")
  }

  /** The line the backward scan over `lines` stops at: one of them, and a
      qualifying one unless the scan hit an empty line or ran out. */
  function SelectedFrom(lines: seq<string>): (line: string)
    requires |lines| >= 1
    ensures line in lines
    ensures Qualifies(line) || line == "" || line == lines[0]
  {
    lines[StopIndex(lines, |lines| - 1)]
  }

  /** The line `processOCR` ends up holding. */
  function SelectedLine(stdout: string): (line: string)
    ensures line in Lines(stdout)
    ensures Qualifies(line) || line == "" || line == Lines(stdout)[0]
  {
    SelectedFrom(Lines(stdout))
  }

  /** A line that is taken for JSON. */
  predicate Qualifies(line: string)
  {
    line != "" && StartsWith(line, "{")
  }

  /** The popping loop: `jsonLine` starts as the last line and is replaced by
      the next one from the end while lines remain and it neither is empty
      nor starts with `{`. */
  method SelectJsonLine(stdout: string) returns (jsonLine: string)
    ensures jsonLine == SelectedLine(stdout)
  {
    var lines := Lines(stdout);
    jsonLine := PopToJsonLine(lines);
  }

  /** The loop itself, over the split lines. */
  method PopToJsonLine(all: seq<string>) returns (jsonLine: string)
    requires |all| >= 1
    ensures jsonLine == SelectedFrom(all)
  {
    var lines := all;
    jsonLine := lines[|lines| - 1];
    lines := lines[..|lines| - 1];
    while |lines| > 0 && jsonLine != "" && !StartsWith(jsonLine, "{")
      invariant lines == all[..|lines|]
      invariant |lines| < |all| && jsonLine == all[|lines|]
      invariant StopIndex(all, |all| - 1) == StopIndex(all, |lines|)
      decreases |lines|
    {
      jsonLine := lines[|lines| - 1];
      lines := lines[..|lines| - 1];
    }
  }

  /** `processOCR` with `decode` standing for `JSON.parse`: a resolved value
      or the rejection's message. */
  method ProcessOcr(exec: Exec, decode: Decoder) returns (r: Result<Json>)
    ensures exec.ExecFailed? ==> r == Err("OCR execution failed with code " + exec.code + ": " + exec.stderr)
    ensures exec.ExecDone? ==>
              var line := SelectedLine(exec.stdout);
              && (!Qualifies(line) ==> r == Err("No valid JSON output from OCR script"))
              && (Qualifies(line) && decode(line).Ok? ==> r == Ok(decode(line).value))
              && (Qualifies(line) && decode(line).Err? ==> r == Err("Failed to parse OCR output: " + decode(line).message))
  {
    if exec.ExecFailed? {
      return Err("OCR execution failed with code " + exec.code + ": " + exec.stderr);
    }
    var jsonLine := SelectJsonLine(exec.stdout);
    if jsonLine == "" || !StartsWith(jsonLine, "{") {
      return Err("No valid JSON output from OCR script");
    }
    var parsed := decode(jsonLine);
    if parsed.Ok? {
      r := Ok(parsed.value);
    } else {
      r := Err("Failed to parse OCR output: " + parsed.message);
    }
  }

  /** The selected line is the last line that starts with `{`, provided no
      empty line follows it: every later line is non-empty and does not start
      with `{`. */
  lemma SelectsLastBraceLine(lines: seq<string>, j: nat)
    requires j < |lines| && Qualifies(lines[j])
    requires forall i :: j < i < |lines| ==> lines[i] != "" && !StartsWith(lines[i], "{")
    ensures StopIndex(lines, |lines| - 1) == j
  {
    StopLands(lines, |lines| - 1, j);
  }

  lemma {:induction false} StopLands(lines: seq<string>, k: nat, j: nat)
    requires j <= k < |lines| && Stops(lines[j])
    requires forall i :: j < i <= k ==> !Stops(lines[i])
    ensures StopIndex(lines, k) == j
    decreases k
  {
    if k > j {
      StopLands(lines, k - 1, j);
    }
  }

  /** An accepted line is the last one starting with `{`: nothing after it
      starts with `{`. */
  lemma AcceptedIsLast(lines: seq<string>)
    requires |lines| >= 1 && Qualifies(lines[StopIndex(lines, |lines| - 1)])
    ensures forall i :: StopIndex(lines, |lines| - 1) < i < |lines| ==> !StartsWith(lines[i], "{")
  {
  }

  /** An empty line after the last `{` line stops the scan there, so the
      output is rejected even though an earlier line qualifies. */
  lemma EmptyLineRejects(lines: seq<string>, e: nat)
    requires e < |lines| && lines[e] == ""
    requires forall i :: e < i < |lines| ==> lines[i] != "" && !StartsWith(lines[i], "{")
    ensures !Qualifies(lines[StopIndex(lines, |lines| - 1)])
  {
    StopLands(lines, |lines| - 1, e);
  }

  /** A concrete output: a JSON line, then an empty line, then a log line.
      The scan stops at the empty line and the JSON line is never reached. */
  lemma EmptyLineExample()
    ensures !Qualifies(StopIndexLine(["{\"a\":1}", "", "done"]))
  {
    var lines := ["{\"a\":1}", "", "done"];
    assert !StartsWith(lines[2], "{") by {
      assert lines[2][0] == 'd';
    }
    EmptyLineRejects(lines, 1);
  }

  function StopIndexLine(lines: seq<string>): string
    requires |lines| >= 1
  {
    lines[StopIndex(lines, |lines| - 1)]
  }

  /** Output that is one JSON line followed by a line break, as `print`
      writes it, selects exactly that line. */
  lemma SingleLineSelected(line: string)
    requires Qualifies(line) && line[|line| - 1] == '}'
    requires forall k :: 0 <= k < |line| ==> line[k] != '\n'
    ensures SelectedLine(line + "\n") == line
  {
    var s := line + "\n";
    TrimmedLine(line);
    assert Find(line, "\n") == -1;
  }

  /** Trimming a line that starts with `{` and ends with `}` plus a line
      break leaves the line. */
  lemma TrimmedLine(line: string)
    requires Qualifies(line) && line[|line| - 1] == '}'
    ensures Trim(line + "\n") == line
  {
    var s := line + "\n";
    assert !IsSpace(s[0], true);
    assert DropLeading(s, true) == s;
    assert s[..|s| - 1] == line;
    assert DropTrailing(s, true) == DropTrailing(line, true);
    assert DropTrailing(line, true) == line;
  }
}
