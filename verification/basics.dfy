/** Small value types and text helpers shared by the backend and front-end models. */
module Basics {

  datatype Option<T> = None | Some(value: T)

  /** One octet of a file's contents. */
  newtype byte = x: int | 0 <= x < 256

  /** `p` is an initial segment of `s` (Python `s.startswith(p)`). */
  predicate IsPrefix(p: string, s: string)
  {
    |p| <= |s| && s[..|p|] == p
  }

  /** `p` is a final segment of `s` (Python `s.endswith(p)`). */
  predicate IsSuffix(p: string, s: string)
  {
    |p| <= |s| && s[|s| - |p|..] == p
  }

  /** `needle` occurs in `s` starting at index `i`. */
  predicate OccursAt(needle: string, s: string, i: nat)
  {
    i + |needle| <= |s| && s[i..i + |needle|] == needle
  }

  /** Python's `sep.join(parts)`. */
  function Join(parts: seq<string>, sep: string): string
  {
    if |parts| == 0 then ""
    else if |parts| == 1 then parts[0]
    else parts[0] + sep + Join(parts[1..], sep)
  }

  lemma {:induction false} PrefixConcat(p: string, q: string)
    ensures IsPrefix(p, p + q) && (p + q)[|p|..] == q
  {
    assert (p + q)[..|p|] == p;
  }

  lemma {:induction false} SuffixConcat(p: string, q: string)
    ensures IsSuffix(q, p + q) && (p + q)[..|p|] == p
  {
    assert (p + q)[|p + q| - |q|..] == q;
  }
}
