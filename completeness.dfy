/** `calculate_extraction_accuracy` and its nested `count_fields` walk of
    OCR/extract_to_json.py. An object holding both a "value" and a "confidence"
    member is one field; it is filled when its value is truthy, and then its
    confidence is recorded under the field's dotted path. The members
    "confidence_assessment" and "document_metadata" are skipped at every depth
    and values that are not objects are ignored. */
module Completeness {
  import opened JsonValues
  import OllamaResponse

  /** One counted field: its dotted path, whether it is filled, and its
      confidence. */
  datatype Leaf = Leaf(path: string, filled: bool, confidence: Json)

  /** `f"{prefix}.{key}" if prefix else key` */
  function FieldName(prefix: string, key: string): (name: string)
    ensures prefix == "" ==> name == key
    ensures prefix != "" ==> name == prefix + "." + key && |name| > |prefix| + |key|
  {
    if prefix != "" then prefix + "." + key else key
  }

  predicate Skipped(key: string)
  {
    key == "confidence_assessment" || key == "document_metadata"
  }

  predicate IsLeaf(v: Json)
  {
    v.JObj? && "value" in KeysOf(v.fields) && "confidence" in KeysOf(v.fields)
  }

  /** A dotted path lies under a prefix: it starts with the prefix and a dot
      (every path lies under the empty prefix). */
  predicate Under(path: string, prefix: string)
  {
    prefix == "" || (|prefix| < |path| && path[..|prefix| + 1] == prefix + ".")
  }

  /** A path under `prefix.key` is under `prefix`. */
  lemma UnderNested(path: string, prefix: string, key: string)
    requires Under(path, FieldName(prefix, key)) && FieldName(prefix, key) != ""
    ensures Under(path, prefix)
  {
    if prefix != "" {
      var n := FieldName(prefix, key);
      assert path[..|prefix| + 1] == path[..|n| + 1][..|prefix| + 1];
      assert n[..|prefix| + 1] == prefix + ".";
    }
  }

  /** The fields under `data`, in the order the walk meets them: each one's
      path lies under the prefix. */
  function Leaves(data: Json, prefix: string): (ls: seq<Leaf>)
    decreases data, 2
    ensures forall i :: 0 <= i < |ls| ==> Under(ls[i].path, prefix)
  {
    if data.JObj? then LeavesUpTo(data, |data.fields|, prefix) else []
  }

  /** The fields found among the first `n` members of the object `data`. */
  function LeavesUpTo(data: Json, n: nat, prefix: string): (ls: seq<Leaf>)
    requires data.JObj? && n <= |data.fields|
    decreases data, 1, n
    ensures forall i :: 0 <= i < |ls| ==> Under(ls[i].path, prefix)
  {
    if n == 0 then [] else LeavesUpTo(data, n - 1, prefix) + MemberLeaves(data, n - 1, prefix)
  }

  /** The fields one member contributes. */
  function MemberLeaves(data: Json, i: nat, prefix: string): (ls: seq<Leaf>)
    requires data.JObj? && i < |data.fields|
    decreases data, 0
    ensures forall k :: 0 <= k < |ls| ==> Under(ls[k].path, prefix)
  {
    var key := data.fields[i].0;
    var value := data.fields[i].1;
    if Skipped(key) then []
    else if IsLeaf(value) then
      [Leaf(FieldName(prefix, key), PyTruthy(Lookup(value.fields, "value").value),
            Lookup(value.fields, "confidence").value)]
    else if value.JObj? then
      assert data.fields[i] in data.fields;
      var nested := Leaves(value, FieldName(prefix, key));
      forall k | 0 <= k < |nested|
        ensures Under(nested[k].path, prefix)
      {
        if FieldName(prefix, key) != "" {
          UnderNested(nested[k].path, prefix, key);
        }
      }
      nested
    else []
  }

  function FilledCount(leaves: seq<Leaf>): nat
  {
    if leaves == [] then 0
    else FilledCount(leaves[..|leaves| - 1]) + (if leaves[|leaves| - 1].filled then 1 else 0)
  }

  /** The confidence map after recording the filled fields in order; a later
      field with the same path overwrites an earlier one. */
  function Record(m: map<string, Json>, leaves: seq<Leaf>): (r: map<string, Json>)
    ensures m.Keys <= r.Keys
    ensures forall i :: 0 <= i < |leaves| && leaves[i].filled ==> leaves[i].path in r
  {
    if leaves == [] then m
    else
      var before := Record(m, leaves[..|leaves| - 1]);
      var last := leaves[|leaves| - 1];
      if last.filled then before[last.path := last.confidence] else before
  }

  lemma {:induction false} FilledCountAppend(a: seq<Leaf>, b: seq<Leaf>)
    ensures FilledCount(a + b) == FilledCount(a) + FilledCount(b)
    decreases |b|
  {
    if b != [] {
      assert (a + b)[..|a + b| - 1] == a + b[..|b| - 1];
      FilledCountAppend(a, b[..|b| - 1]);
    } else {
      assert a + b == a;
    }
  }

  lemma {:induction false} RecordAppend(m: map<string, Json>, a: seq<Leaf>, b: seq<Leaf>)
    ensures Record(m, a + b) == Record(Record(m, a), b)
    decreases |b|
  {
    if b != [] {
      assert (a + b)[..|a + b| - 1] == a + b[..|b| - 1];
      RecordAppend(m, a, b[..|b| - 1]);
    } else {
      assert a + b == a;
    }
  }

  /** The counters of one `calculate_extraction_accuracy` call; `count_fields`
      updates them as it walks. */
  class AccuracyCounter {
    var totalFields: nat
    var filledFields: nat
    var estimates: map<string, Json>

    constructor()
      ensures totalFields == 0 && filledFields == 0 && estimates == map[]
    {
      totalFields := 0;
      filledFields := 0;
      estimates := map[];
    }

    /** `count_fields(data, prefix)`. */
    method CountFields(data: Json, prefix: string)
      modifies this
      decreases data, 1
      ensures totalFields == old(totalFields) + |Leaves(data, prefix)|
      ensures filledFields == old(filledFields) + FilledCount(Leaves(data, prefix))
      ensures estimates == Record(old(estimates), Leaves(data, prefix))
    {
      if data.JObj? {
        var i := 0;
        while i < |data.fields|
          invariant 0 <= i <= |data.fields|
          invariant totalFields == old(totalFields) + |LeavesUpTo(data, i, prefix)|
          invariant filledFields == old(filledFields) + FilledCount(LeavesUpTo(data, i, prefix))
          invariant estimates == Record(old(estimates), LeavesUpTo(data, i, prefix))
        {
          var before := LeavesUpTo(data, i, prefix);
          var added := MemberLeaves(data, i, prefix);
          FilledCountAppend(before, added);
          RecordAppend(old(estimates), before, added);
          CountMember(data, i, prefix);
          i := i + 1;
        }
      }
    }

    /** The body of `count_fields`' loop for the member at index `i`: a field
        is counted (and recorded when filled), a nested object is walked. */
    method CountMember(data: Json, i: nat, prefix: string)
      requires data.JObj? && i < |data.fields|
      modifies this
      decreases data, 0
      ensures totalFields == old(totalFields) + |MemberLeaves(data, i, prefix)|
      ensures filledFields == old(filledFields) + FilledCount(MemberLeaves(data, i, prefix))
      ensures estimates == Record(old(estimates), MemberLeaves(data, i, prefix))
    {
      var key := data.fields[i].0;
      var value := data.fields[i].1;
      if !Skipped(key) && value.JObj? {
        if "value" in KeysOf(value.fields) && "confidence" in KeysOf(value.fields) {
          var leaf := Leaf(FieldName(prefix, key), PyTruthy(Lookup(value.fields, "value").value),
                           Lookup(value.fields, "confidence").value);
          assert [leaf][..0] == [];
          totalFields := totalFields + 1;
          if PyTruthy(Lookup(value.fields, "value").value) {
            filledFields := filledFields + 1;
            estimates := estimates[FieldName(prefix, key) := Lookup(value.fields, "confidence").value];
          }
        } else {
          assert data.fields[i] in data.fields;
          CountFields(value, FieldName(prefix, key));
        }
      }
    }
  }

  /** `filled_fields / total_fields * 100`, or 0 without fields. */
  function CompletenessOf(filled: nat, total: nat): real
  {
    if total > 0 then filled as real / total as real * 100.0 else 0.0
  }

  datatype AccuracyMetrics = AccuracyMetrics(
    ocrConfidence: real,
    extractionCompleteness: real,
    fieldAccuracyEstimates: map<string, Json>)

  /** `calculate_extraction_accuracy(extracted_data)`; `ocrConfidence` is the
      extractor's recorded OCR confidence, if any. */
  method CalculateExtractionAccuracy(data: Json, ocrConfidence: Option<real>) returns (m: AccuracyMetrics)
    ensures m.ocrConfidence == ocrConfidence.GetOr(0.0)
    ensures m.extractionCompleteness == CompletenessOf(FilledCount(Leaves(data, "")), |Leaves(data, "")|)
    ensures m.fieldAccuracyEstimates == Record(map[], Leaves(data, ""))
  {
    var counter := new AccuracyCounter();
    counter.CountFields(data, "");
    var completeness := if counter.totalFields > 0
      then counter.filledFields as real / counter.totalFields as real * 100.0
      else 0.0;
    m := AccuracyMetrics(ocrConfidence.GetOr(0.0), completeness, counter.estimates);
  }

  lemma {:induction false} FilledAtMostTotal(leaves: seq<Leaf>)
    ensures FilledCount(leaves) <= |leaves|
    ensures FilledCount(leaves) == |leaves| <==> forall i :: 0 <= i < |leaves| ==> leaves[i].filled
    ensures FilledCount(leaves) == 0 <==> forall i :: 0 <= i < |leaves| ==> !leaves[i].filled
  {
    if leaves != [] {
      var init := leaves[..|leaves| - 1];
      FilledAtMostTotal(init);
      assert forall i :: 0 <= i < |init| ==> init[i] == leaves[i];
    }
  }

  lemma RatioBounds(f: nat, t: nat)
    requires f <= t
    ensures 0.0 <= CompletenessOf(f, t) <= 100.0
    ensures CompletenessOf(f, t) == 100.0 <==> t > 0 && f == t
    ensures CompletenessOf(f, t) == 0.0 <==> f == 0
  {
    if t > 0 {
      var tr := t as real;
      var q := f as real / tr;
      assert q * tr == f as real;
      assert (1.0 - q) * tr == tr - f as real;
    }
  }

  /** Completeness lies between 0 and 100; it is 100 exactly when there are
      fields and all are filled, and 0 exactly when none is filled. */
  lemma CompletenessBounds(leaves: seq<Leaf>)
    ensures 0.0 <= CompletenessOf(FilledCount(leaves), |leaves|) <= 100.0
    ensures CompletenessOf(FilledCount(leaves), |leaves|) == 100.0
            <==> |leaves| > 0 && forall i :: 0 <= i < |leaves| ==> leaves[i].filled
    ensures CompletenessOf(FilledCount(leaves), |leaves|) == 0.0
            <==> forall i :: 0 <= i < |leaves| ==> !leaves[i].filled
  {
    FilledAtMostTotal(leaves);
    RatioBounds(FilledCount(leaves), |leaves|);
  }

  /** A path is recorded exactly when a filled field has it, and then it holds
      the confidence of the last such field. */
  lemma {:induction false} RecordKeys(leaves: seq<Leaf>, k: string)
    ensures k in Record(map[], leaves) <==> exists i :: 0 <= i < |leaves| && leaves[i].filled && leaves[i].path == k
    ensures k in Record(map[], leaves) ==>
              exists i :: 0 <= i < |leaves| && leaves[i].filled && leaves[i].path == k
                          && Record(map[], leaves)[k] == leaves[i].confidence
                          && forall j :: i < j < |leaves| ==> !(leaves[j].filled && leaves[j].path == k)
  {
    if leaves != [] {
      var init := leaves[..|leaves| - 1];
      var last := leaves[|leaves| - 1];
      RecordKeys(init, k);
      assert forall i :: 0 <= i < |init| ==> init[i] == leaves[i];
      var before := Record(map[], init);
      if last.filled && last.path == k {
        assert Record(map[], leaves) == before[k := last.confidence];
      } else if k in Record(map[], leaves) {
        assert k in before && Record(map[], leaves)[k] == before[k];
        var i :| 0 <= i < |init| && init[i].filled && init[i].path == k
                  && Record(map[], init)[k] == init[i].confidence
                  && forall j :: i < j < |init| ==> !(init[j].filled && init[j].path == k);
        assert leaves[i] == init[i];
      }
    }
  }

  /** Objects whose members are all empty objects (or skipped) hold no field. */
  lemma {:induction false} NoLeavesUpTo(data: Json, n: nat, prefix: string)
    requires data.JObj? && n <= |data.fields|
    requires forall i :: 0 <= i < |data.fields| ==> Skipped(data.fields[i].0) || data.fields[i].1 == JObj([])
    ensures LeavesUpTo(data, n, prefix) == []
  {
    if n > 0 {
      NoLeavesUpTo(data, n - 1, prefix);
      var value := data.fields[n - 1].1;
      if !Skipped(data.fields[n - 1].0) {
        assert Leaves(value, FieldName(prefix, data.fields[n - 1].0)) == [];
      }
    }
  }

  /** Ollama's fallback document has no field, so it scores 0. */
  lemma FallbackScoresZero(imagePath: string, timestamp: string)
    ensures Leaves(OllamaResponse.FallbackStructure(imagePath, timestamp), "") == []
    ensures CompletenessOf(FilledCount(Leaves(OllamaResponse.FallbackStructure(imagePath, timestamp), "")),
                           |Leaves(OllamaResponse.FallbackStructure(imagePath, timestamp), "")|) == 0.0
  {
    var d := OllamaResponse.FallbackStructure(imagePath, timestamp);
    OllamaResponse.FallbackShape(imagePath, timestamp);
    assert d.fields[0].0 == "document_metadata" && d.fields[1].0 == "confidence_assessment" by {
      assert KeysOf(d.fields)[0] == d.fields[0].0 && KeysOf(d.fields)[1] == d.fields[1].0;
    }
    NoLeavesUpTo(d, |d.fields|, "");
  }
}
