/** JSON values as the Python and TypeScript code of the pipeline see them after
    decoding, plus the dictionary operations and truthiness rules the code relies on.
    Decoding itself is never modelled: every component that decodes text receives
    a `Decoder` (an oracle standing for `json.loads` / `JSON.parse`). */
module JsonValues {

  datatype Option<+T> = None | Some(value: T) {
    function GetOr(default: T): T {
      match this
      case Some(v) => v
      case None => default
    }
  }

  /** The outcome of a decoder call: a value, or the decoder's error message. */
  datatype Result<+T> = Ok(value: T) | Err(message: string)

  /** An object keeps its members in insertion order, as a Python dict or a JS
      object does; a decoder produces objects whose keys are distinct. */
  datatype Json =
    | JNull
    | JBool(b: bool)
    | JNum(n: real)
    | JStr(s: string)
    | JArr(items: seq<Json>)
    | JObj(fields: seq<(string, Json)>)

  type Decoder = string -> Result<Json>

  function KeysOf(fields: seq<(string, Json)>): (ks: seq<string>)
    ensures |ks| == |fields|
    ensures forall i :: 0 <= i < |fields| ==> ks[i] == fields[i].0
  {
    if fields == [] then [] else [fields[0].0] + KeysOf(fields[1..])
  }

  /** The value stored under `key`: Python `d.get(key)`, JS `o[key]` on an own property. */
  function Lookup(fields: seq<(string, Json)>, key: string): (r: Option<Json>)
    ensures r.None? <==> key !in KeysOf(fields)
  {
    if fields == [] then None
    else if fields[0].0 == key then Some(fields[0].1)
    else Lookup(fields[1..], key)
  }

  /** `d[key] = value`: an existing key keeps its position, a new key goes last. */
  function Assign(fields: seq<(string, Json)>, key: string, value: Json): (r: seq<(string, Json)>)
    ensures Lookup(r, key) == Some(value)
    ensures forall k :: k != key ==> Lookup(r, k) == Lookup(fields, k)
    ensures key in KeysOf(fields) ==> KeysOf(r) == KeysOf(fields)
    ensures key !in KeysOf(fields) ==> KeysOf(r) == KeysOf(fields) + [key]
  {
    if fields == [] then [(key, value)]
    else if fields[0].0 == key then [(key, value)] + fields[1..]
    else
      var rest := Assign(fields[1..], key, value);
      ConsKeeps(fields[0], fields[1..], rest, key, value);
      assert [fields[0]] + fields[1..] == fields;
      [fields[0]] + rest
  }

  /** The inductive step of Assign: putting the same first member in front
      of an object and of its assigned copy keeps their relation. */
  lemma ConsKeeps(h: (string, Json), fields: seq<(string, Json)>, rest: seq<(string, Json)>, key: string, value: Json)
    requires h.0 != key
    requires Lookup(rest, key) == Some(value)
    requires forall k :: k != key ==> Lookup(rest, k) == Lookup(fields, k)
    requires key in KeysOf(fields) ==> KeysOf(rest) == KeysOf(fields)
    requires key !in KeysOf(fields) ==> KeysOf(rest) == KeysOf(fields) + [key]
    ensures Lookup([h] + rest, key) == Some(value)
    ensures forall k :: k != key ==> Lookup([h] + rest, k) == Lookup([h] + fields, k)
    ensures key in KeysOf([h] + fields) ==> KeysOf([h] + rest) == KeysOf([h] + fields)
    ensures key !in KeysOf([h] + fields) ==> KeysOf([h] + rest) == KeysOf([h] + fields) + [key]
  {
    LookupCons(h.0, h.1, rest, key);
    forall k | k != key
      ensures Lookup([h] + rest, k) == Lookup([h] + fields, k)
    {
      LookupCons(h.0, h.1, rest, k);
      LookupCons(h.0, h.1, fields, k);
    }
    ConsKeys(h.0, KeysOf(fields), KeysOf(rest), key);
    KeysCons(h, rest);
    KeysCons(h, fields);
  }

  /** The same step on the key lists alone. */
  lemma ConsKeys(k0: string, ks: seq<string>, rs: seq<string>, key: string)
    requires k0 != key
    requires key in ks ==> rs == ks
    requires key !in ks ==> rs == ks + [key]
    ensures key in [k0] + ks ==> [k0] + rs == [k0] + ks
    ensures key !in [k0] + ks ==> [k0] + rs == [k0] + ks + [key]
  {
    assert key in [k0] + ks <==> key in ks;
    if key !in ks {
      assert [k0] + (ks + [key]) == [k0] + ks + [key];
    }
  }

  lemma KeysCons(h: (string, Json), fields: seq<(string, Json)>)
    ensures KeysOf([h] + fields) == [h.0] + KeysOf(fields)
  {
    assert ([h] + fields)[1..] == fields;
  }

  lemma LookupCons(k: string, v: Json, rest: seq<(string, Json)>, key: string)
    ensures Lookup([(k, v)] + rest, key) == if k == key then Some(v) else Lookup(rest, key)
  {
    assert ([(k, v)] + rest)[1..] == rest;
  }

  /** Assignment keeps every existing key where it was. */
  lemma AssignExtends(fields: seq<(string, Json)>, key: string, value: Json)
    ensures KeysOf(fields) <= KeysOf(Assign(fields, key, value))
  {
    var ks := KeysOf(fields);
    if key !in ks {
      assert ks <= ks + [key];
    }
  }

  lemma PrefixTrans<T>(a: seq<T>, b: seq<T>, c: seq<T>)
    requires a <= b && b <= c
    ensures a <= c
  {
    assert c[..|a|] == b[..|a|];
  }

  /** Member access on any value; a non-object has no members. */
  function Member(j: Json, key: string): Option<Json>
  {
    if j.JObj? then Lookup(j.fields, key) else None
  }

  /** Python truthiness: None, False, 0, "", [] and {} are false. */
  predicate PyTruthy(j: Json)
  {
    match j
    case JNull => false
    case JBool(b) => b
    case JNum(n) => n != 0.0
    case JStr(s) => s != ""
    case JArr(items) => items != []
    case JObj(fields) => fields != []
  }

  /** JavaScript truthiness: null, false, 0 and "" are false; every array and
      object, even an empty one, is true. */
  predicate JsTruthy(j: Json)
  {
    match j
    case JNull => false
    case JBool(b) => b
    case JNum(n) => n != 0.0
    case JStr(s) => s != ""
    case JArr(_) => true
    case JObj(_) => true
  }

  /** An object whose member values are all the empty string. */
  function EmptyStrings(keys: seq<string>): (fields: seq<(string, Json)>)
    ensures KeysOf(fields) == keys
    ensures forall i :: 0 <= i < |keys| ==> fields[i].1 == JStr("")
  {
    var fields := seq(|keys|, i requires 0 <= i < |keys| => (keys[i], JStr("")));
    assert KeysOf(fields) == keys;
    fields
  }

  /** The object whose i-th member is (keys[i], values[i]). */
  function Zip(keys: seq<string>, values: seq<Json>): (fields: seq<(string, Json)>)
    requires |keys| == |values|
    ensures |fields| == |keys|
    ensures KeysOf(fields) == keys
    ensures forall i :: 0 <= i < |keys| ==> fields[i] == (keys[i], values[i])
  {
    var fields := seq(|keys|, i requires 0 <= i < |keys| => (keys[i], values[i]));
    assert KeysOf(fields) == keys;
    fields
  }

  /** A key that does not occur earlier is found with its own value. */
  lemma {:induction false} LookupAt(fields: seq<(string, Json)>, i: nat)
    requires i < |fields|
    requires forall j :: 0 <= j < i ==> fields[j].0 != fields[i].0
    ensures Lookup(fields, fields[i].0) == Some(fields[i].1)
  {
    if i > 0 {
      var tail := fields[1..];
      assert tail[i - 1] == fields[i];
      forall j | 0 <= j < i - 1
        ensures tail[j].0 != tail[i - 1].0
      {
        assert tail[j] == fields[j + 1];
      }
      LookupAt(tail, i - 1);
    }
  }
}
