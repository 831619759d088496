/** String operations of Python's `str` and JavaScript's `String` that the
    pipeline uses: whitespace stripping, searching, slicing, splitting and
    joining, single-character replacement and decimal formatting. */
module Text {

  /** Characters Python's `str.strip()` removes (the ASCII and Latin-1 part of
      `str.isspace`). */
  predicate IsPySpace(c: char)
  {
    c == ' ' || c == '\t' || c == '\n' || c == '\r' || c == '\U{0B}' || c == '\U{0C}'
    || c == '\U{1C}' || c == '\U{1D}' || c == '\U{1E}' || c == '\U{1F}'
    || c == '\U{85}' || c == '\U{A0}'
  }

  /** Characters JavaScript's `String.prototype.trim()` removes (its ASCII and
      Latin-1 part, plus the byte-order mark). */
  predicate IsJsSpace(c: char)
  {
    c == ' ' || c == '\t' || c == '\n' || c == '\r' || c == '\U{0B}' || c == '\U{0C}'
    || c == '\U{A0}' || c == '\U{FEFF}'
  }

  /** The whitespace of Python's `str.strip` or, when `js` holds, of
      JavaScript's `trim`. */
  predicate IsSpace(c: char, js: bool)
  {
    if js then IsJsSpace(c) else IsPySpace(c)
  }

  function DropLeading(s: string, js: bool): string
  {
    if s != [] && IsSpace(s[0], js) then DropLeading(s[1..], js) else s
  }

  function DropTrailing(s: string, js: bool): string
  {
    if s != [] && IsSpace(s[|s| - 1], js) then DropTrailing(s[..|s| - 1], js) else s
  }

  /** Leading whitespace is dropped, and only whitespace. */
  lemma {:induction false} DropLeadingShape(s: string, js: bool)
    ensures var r := DropLeading(s, js);
            && |r| <= |s| && r == s[|s| - |r|..]
            && (r == [] || !IsSpace(r[0], js))
            && forall i :: 0 <= i < |s| - |r| ==> IsSpace(s[i], js)
  {
    if s != [] && IsSpace(s[0], js) {
      DropLeadingShape(s[1..], js);
    }
  }

  /** Trailing whitespace is dropped, and only whitespace. */
  lemma {:induction false} DropTrailingShape(s: string, js: bool)
    ensures var r := DropTrailing(s, js);
            && |r| <= |s| && r == s[..|r|]
            && (r == [] || !IsSpace(r[|r| - 1], js))
            && forall i :: |r| <= i < |s| ==> IsSpace(s[i], js)
  {
    if s != [] && IsSpace(s[|s| - 1], js) {
      DropTrailingShape(s[..|s| - 1], js);
    }
  }

  /** Whitespace dropped from both ends. */
  function Trimmed(s: string, js: bool): (r: string)
    ensures |r| <= |s|
    ensures r == [] || (!IsSpace(r[0], js) && !IsSpace(r[|r| - 1], js))
    ensures s == [] || (!IsSpace(s[0], js) && !IsSpace(s[|s| - 1], js)) ==> r == s
  {
    var l := DropLeading(s, js);
    DropLeadingShape(s, js);
    DropTrailingShape(l, js);
    var r := DropTrailing(l, js);
    assert r != [] ==> r[0] == l[0];
    r
  }

  /** Python `s.strip()`. */
  function Strip(s: string): (r: string)
    ensures |r| <= |s|
    ensures r == [] || (!IsSpace(r[0], false) && !IsSpace(r[|r| - 1], false))
    ensures s == [] || (!IsSpace(s[0], false) && !IsSpace(s[|s| - 1], false)) ==> r == s
  {
    Trimmed(s, false)
  }

  /** Stripping twice is stripping once. */
  lemma StripIdempotent(s: string)
    ensures Strip(Strip(s)) == Strip(s)
  {
    var r := DropLeading(s, false);
    var t := DropTrailing(r, false);
    DropLeadingShape(s, false);
    DropTrailingShape(r, false);
    if t != [] {
      assert t[0] == r[0];
    }
  }

  /** JavaScript `s.trim()`. */
  function Trim(s: string): (r: string)
    ensures |r| <= |s|
    ensures r == [] || (!IsSpace(r[0], true) && !IsSpace(r[|r| - 1], true))
    ensures s == [] || (!IsSpace(s[0], true) && !IsSpace(s[|s| - 1], true)) ==> r == s
  {
    Trimmed(s, true)
  }

  /** `s.find(c)` for one character: the first index holding `c`, or -1. */
  function IndexOf(s: string, c: char): (i: int)
    ensures -1 <= i < |s|
    ensures i >= 0 ==> s[i] == c && forall j :: 0 <= j < i ==> s[j] != c
    ensures i == -1 <==> c !in s
  {
    if s == [] then -1
    else if s[0] == c then 0
    else
      var k := IndexOf(s[1..], c);
      if k == -1 then -1 else k + 1
  }

  /** `s.rfind(c)` for one character: the last index holding `c`, or -1. */
  function LastIndexOf(s: string, c: char): (i: int)
    ensures -1 <= i < |s|
    ensures i >= 0 ==> s[i] == c && forall j :: i < j < |s| ==> s[j] != c
    ensures i == -1 <==> c !in s
  {
    if s == [] then -1
    else if s[|s| - 1] == c then |s| - 1
    else LastIndexOf(s[..|s| - 1], c)
  }

  predicate OccursAt(s: string, pat: string, i: int)
  {
    0 <= i && i + |pat| <= |s| && s[i..i + |pat|] == pat
  }

  /** `s.find(pat, from)`: the first occurrence at or after `from`, or -1. */
  function FindFrom(s: string, pat: string, from: nat): (i: int)
    decreases |s| - from
    ensures i == -1 || (from <= i && OccursAt(s, pat, i))
    ensures forall j :: from <= j && (i == -1 || j < i) ==> !OccursAt(s, pat, j)
  {
    if from + |pat| > |s| then -1
    else if s[from..from + |pat|] == pat then from
    else FindFrom(s, pat, from + 1)
  }

  /** `s.find(pat)`. */
  function Find(s: string, pat: string): (i: int)
    ensures i == -1 || OccursAt(s, pat, i)
    ensures forall j :: 0 <= j && (i == -1 || j < i) ==> !OccursAt(s, pat, j)
  {
    FindFrom(s, pat, 0)
  }

  /** `pat in s`. */
  predicate Contains(s: string, pat: string)
  {
    Find(s, pat) != -1
  }

  function LastBelow(s: string, pat: string, k: nat): (i: int)
    ensures i == -1 || (i < k && OccursAt(s, pat, i))
    ensures forall j :: i < j < k ==> !OccursAt(s, pat, j)
  {
    if k == 0 then -1
    else if OccursAt(s, pat, k - 1) then k - 1
    else LastBelow(s, pat, k - 1)
  }

  /** `s.rfind(pat)`: the last occurrence, or -1. */
  function RFind(s: string, pat: string): (i: int)
    ensures i == -1 || OccursAt(s, pat, i)
    ensures forall j :: i < j ==> !OccursAt(s, pat, j)
  {
    LastBelow(s, pat, |s| + 1)
  }

  /** Python `s[:n]` for n >= 0. */
  function Prefix(s: string, n: nat): (r: string)
    ensures |r| == if |s| < n then |s| else n
    ensures r == s[..|r|]
  {
    if |s| <= n then s else s[..n]
  }

  /** Python `s[i:j]` for indices inside the string: empty when `j <= i`. */
  function PySlice(s: string, i: nat, j: nat): (r: string)
    requires i <= |s| && j <= |s|
    ensures i < j ==> r == s[i..j]
    ensures j <= i ==> r == []
  {
    if i < j then s[i..j] else []
  }

  /** `if '{' in s and '}' in s: s = s[s.find('{'):s.rfind('}') + 1]`: from
      the first `{` through the last `}` inclusive, empty when the last `}`
      comes before the first `{`, and the text unchanged when a brace is
      missing. */
  function BraceSlice(s: string): (r: string)
    ensures !('{' in s && '}' in s) ==> r == s
    ensures '{' in s && '}' in s ==>
              var start := IndexOf(s, '{');
              var last := LastIndexOf(s, '}');
              && start != last
              && (forall k :: 0 <= k < start ==> s[k] != '{')
              && (forall k :: last < k < |s| ==> s[k] != '}')
              && (start < last ==> r == s[start..last + 1] && r[0] == '{' && r[|r| - 1] == '}')
              && (last < start ==> r == [])
  {
    if '{' in s && '}' in s then PySlice(s, IndexOf(s, '{'), LastIndexOf(s, '}') + 1) else s
  }

  predicate StartsWith(s: string, p: string)
  {
    |p| <= |s| && s[..|p|] == p
  }

  predicate EndsWith(s: string, p: string)
  {
    |p| <= |s| && s[|s| - |p|..] == p
  }

  /** Python `s.lower()` on ASCII letters. */
  function LowerAscii(s: string): (r: string)
    ensures |r| == |s|
    ensures forall i :: 0 <= i < |s| ==> r[i] == LowerChar(s[i])
  {
    seq(|s|, i requires 0 <= i < |s| => LowerChar(s[i]))
  }

  function LowerChar(c: char): char
  {
    if 'A' <= c <= 'Z' then (c as int + 32) as char else c
  }

  /** Lower-casing keeps a suffix that has no upper-case ASCII letter. */
  lemma LowerAsciiSuffix(s: string, suffix: string)
    requires EndsWith(s, suffix)
    requires forall k :: 0 <= k < |suffix| ==> !('A' <= suffix[k] <= 'Z')
    ensures EndsWith(LowerAscii(s), suffix)
  {
    var low := LowerAscii(s);
    var off := |s| - |suffix|;
    forall k | 0 <= k < |suffix|
      ensures low[off..][k] == suffix[k]
    {
      assert s[off..][k] == s[off + k];
    }
  }

  /** `s.replace(a, b)` for single characters. */
  function ReplaceChar(s: string, a: char, b: char): (r: string)
    ensures |r| == |s|
    ensures forall i :: 0 <= i < |s| ==> r[i] == (if s[i] == a then b else s[i])
  {
    seq(|s|, i requires 0 <= i < |s| => if s[i] == a then b else s[i])
  }

  /** `sep.join(parts)`. */
  function Join(parts: seq<string>, sep: string): string
  {
    if parts == [] then ""
    else if |parts| == 1 then parts[0]
    else parts[0] + sep + Join(parts[1..], sep)
  }

  /** `s.split(sep)` for a non-empty separator: the pieces between successive
      non-overlapping occurrences, scanning left to right. Python and
      JavaScript agree on this. */
  function Split(s: string, sep: string): (parts: seq<string>)
    requires sep != []
    decreases |s|
    ensures |parts| >= 1
    ensures Join(parts, sep) == s
    ensures parts[0] == if Find(s, sep) == -1 then s else s[..Find(s, sep)]
  {
    var i := Find(s, sep);
    if i == -1 then [s]
    else
      var rest := Split(s[i + |sep|..], sep);
      var parts := [s[..i]] + rest;
      assert parts[1..] == rest;
      assert Join(parts, sep) == s by {
        assert s == s[..i] + sep + s[i + |sep|..];
      }
      parts
  }

  /** No piece of a split contains the separator: each ends at the first
      occurrence after its start, or at the end of the text. */
  lemma {:induction false} SplitPiecesLackSep(s: string, sep: string)
    requires sep != []
    decreases |s|
    ensures forall k :: 0 <= k < |Split(s, sep)| ==> !Contains(Split(s, sep)[k], sep)
  {
    var i := Find(s, sep);
    if i != -1 {
      var rest := Split(s[i + |sep|..], sep);
      SplitPiecesLackSep(s[i + |sep|..], sep);
      BeforeFirstLacks(s, sep, i);
      ConsLacks(s[..i], rest, sep);
      assert Split(s, sep) == [s[..i]] + rest;
    }
  }

  lemma ConsLacks(head: string, rest: seq<string>, sep: string)
    requires !Contains(head, sep)
    requires forall k :: 0 <= k < |rest| ==> !Contains(rest[k], sep)
    ensures forall k :: 0 <= k < |[head] + rest| ==> !Contains(([head] + rest)[k], sep)
  {
  }


  /** The text before the first occurrence of a pattern does not contain it. */
  lemma BeforeFirstLacks(s: string, pat: string, i: nat)
    requires pat != [] && i <= |s|
    requires forall j :: 0 <= j < i ==> !OccursAt(s, pat, j)
    ensures !Contains(s[..i], pat)
  {
    var f := Find(s[..i], pat);
    if f != -1 {
      assert s[..i][f..f + |pat|] == s[f..f + |pat|];
      assert OccursAt(s, pat, f);
    }
  }

  function DigitChar(d: nat): (c: char)
    requires d < 10
    ensures '0' <= c <= '9' && c as int - '0' as int == d
  {
    (d + '0' as int) as char
  }

  predicate AllDigits(s: string)
  {
    forall i :: 0 <= i < |s| ==> '0' <= s[i] <= '9'
  }

  /** Decimal rendering of a natural number, as Python's `str` and JavaScript's
      `toString` give it. */
  function NatToString(n: nat): (r: string)
    ensures r != [] && AllDigits(r)
    ensures n < 10 <==> |r| == 1
  {
    if n < 10 then [DigitChar(n)] else NatToString(n / 10) + [DigitChar(n % 10)]
  }

  /** The inverse of NatToString: the value of a string of decimal digits. */
  function DigitsValue(s: string): nat
    requires AllDigits(s)
  {
    if s == [] then 0 else DigitsValue(s[..|s| - 1]) * 10 + (s[|s| - 1] as int - '0' as int)
  }

  lemma {:induction false} DigitsValueOfNatToString(n: nat)
    ensures DigitsValue(NatToString(n)) == n
  {
    if n >= 10 {
      var r := NatToString(n);
      assert r[..|r| - 1] == NatToString(n / 10);
      DigitsValueOfNatToString(n / 10);
    }
  }
}
