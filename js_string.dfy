/** Models of the JavaScript built-ins the components apply to strings and
    arrays: truthiness of an optional string, `slice` with negative
    positions, and `padStart`. */
module JsString {

  /** A value that may be `undefined` (a TypeScript `T | undefined`). */
  datatype Option<+T> = None | Some(value: T)

  function Min(a: int, b: int): int { if a <= b then a else b }

  function Max(a: int, b: int): int { if a <= b then b else a }

  /** `!!s` for a value of type `string | undefined`: defined and non-empty. */
  predicate Truthy(s: Option<string>) {
    s.Some? && s.value != ""
  }

  /** The position that `slice` uses for an argument `k` on a sequence of
      length `len`: negative arguments count from the end, and the result is
      clamped to `0..len`. */
  function RelativeIndex(k: int, len: nat): (r: nat)
    ensures r <= len
  {
    if k < 0 then (if len + k < 0 then 0 else len + k)
    else if k < len then k else len
  }

  /** `s.slice(start, end)`, for strings and arrays alike. */
  function Slice<T>(s: seq<T>, start: int, end: int): (r: seq<T>)
    ensures |r| <= |s|
  {
    var from, to := RelativeIndex(start, |s|), RelativeIndex(end, |s|);
    if from < to then s[from..to] else []
  }

  /** `s.slice(start)`: the end defaults to the length. */
  function SliceFrom<T>(s: seq<T>, start: int): (r: seq<T>)
    ensures |r| <= |s|
  {
    Slice(s, start, |s|)
  }

  /** `slice(0, n)` keeps the first `min(n, |s|)` elements. */
  lemma SlicePrefix<T>(s: seq<T>, n: nat)
    ensures Slice(s, 0, n) == s[..Min(n, |s|)]
  {
  }

  /** `slice(-n)` keeps the last `min(n, |s|)` elements (for `n > 0`; `-0`
      is `0` and keeps everything). */
  lemma SliceSuffix<T>(s: seq<T>, n: nat)
    requires n > 0
    ensures SliceFrom(s, -(n as int)) == s[|s| - Min(n, |s|)..]
  {
  }

  /** `s.padStart(target, fill)` with a one-character fill string: the fill
      character is repeated in front until the length reaches `target`; a
      string already that long is returned unchanged. */
  function PadStart(s: string, target: nat, fill: char): (r: string)
    ensures |r| == Max(target, |s|)
    ensures r[|r| - |s|..] == s
    ensures forall i :: 0 <= i < |r| - |s| ==> r[i] == fill
  {
    if |s| < target then seq(target - |s|, _ => fill) + s else s
  }
}
