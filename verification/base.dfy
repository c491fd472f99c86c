/**
 Small shared vocabulary: an optional value and the handful of string
 predicates the conformance dashboard relies on (prefix and suffix tests,
 `Array.prototype.join`, ASCII lower-casing, pairwise distinctness).
 */
module Base {

  /** A value that may be absent, as an optional JavaScript property is. */
  datatype Option<+T> = None | Some(value: T)

  /** `s.startsWith(p)` */
  predicate StartsWith(s: string, p: string) {
    p <= s
  }

  /** `s.endsWith(p)` */
  predicate EndsWith(s: string, p: string) {
    |p| <= |s| && forall j :: 0 <= j < |p| ==> s[|s| - |p| + j] == p[j]
  }

  /** `parts.join(sep)`: the parts, in order, with `sep` between neighbours. */
  function Join(parts: seq<string>, sep: string): (r: string)
    ensures |parts| == 0 ==> r == ""
    ensures |parts| == 1 ==> r == parts[0]
    ensures |parts| > 0 ==> StartsWith(r, parts[0])
    ensures |parts| > 0 ==> |r| == JoinedLength(parts) + (|parts| - 1) * |sep|
    decreases |parts|
  {
    if |parts| == 0 then ""
    else if |parts| == 1 then parts[0]
    else
      var rest := Join(parts[1..], sep);
      assert parts[0] + sep + rest == parts[0] + (sep + rest);
      parts[0] + sep + rest
  }

  /** Total length of the parts, without separators. */
  function JoinedLength(parts: seq<string>): nat {
    if |parts| == 0 then 0 else |parts[0]| + JoinedLength(parts[1..])
  }

  /** No two positions of `s` hold the same value. */
  predicate Distinct<T(==)>(s: seq<T>) {
    forall i, j :: 0 <= i < j < |s| ==> s[i] != s[j]
  }

  /** ASCII lower-casing of one character. */
  function LowerChar(c: char): char {
    if 'A' <= c <= 'Z' then (c as int + 32) as char else c
  }

  /** ASCII lower-casing of a string, character by character. */
  function Lower(s: string): (r: string)
    ensures |r| == |s|
    ensures forall i :: 0 <= i < |s| ==> r[i] == LowerChar(s[i])
  {
    seq(|s|, i requires 0 <= i < |s| => LowerChar(s[i]))
  }
}
