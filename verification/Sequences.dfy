/** Sequences without repetition, and what taking out and moving elements makes of them. */
module Sequences {

  ghost predicate NoDup<T>(s: seq<T>)
  {
    forall i, j :: 0 <= i < j < |s| ==> s[i] != s[j]
  }

  /** The sequence without its q-th element. */
  ghost function Without<T>(s: seq<T>, q: nat): (t: seq<T>)
    requires q < |s|
    ensures |t| == |s| - 1 && forall k :: 0 <= k < |t| ==> t[k] == s[if k < q then k else k + 1]
  {
    s[..q] + s[q + 1..]
  }

  /** The element at `q` moved to the place `p` before it, past the ones in between. */
  ghost function Shifted<T>(s: seq<T>, p: nat, q: nat): (t: seq<T>)
    requires p <= q < |s|
    ensures |t| == |s|
  {
    s[..p] + [s[q]] + s[p..q] + s[q + 1..]
  }
}
