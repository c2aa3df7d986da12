/** Python's leading slice `s[:n]`, used for `matches[:10]`, `top3` and `efficiency[:5]`. */
module Slices {

  function Min(a: nat, b: nat): nat {
    if a <= b then a else b
  }

  /** The first `n` elements of `s`, or all of `s` when it is shorter. */
  function Prefix<T>(s: seq<T>, n: nat): (r: seq<T>)
    ensures |r| == Min(n, |s|)
    ensures r <= s
  {
    s[..Min(n, |s|)]
  }
}
