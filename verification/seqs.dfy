// Sequence vocabulary used by every component: bounded suffixes, projections and counts.
module Seqs {

  /** The last n elements of s, or all of s when it is shorter. */
  function Last<T>(s: seq<T>, n: nat): (r: seq<T>)
    ensures |r| == if |s| <= n then |s| else n
  {
    if |s| <= n then s else s[|s| - n..]
  }

  function Min(a: nat, b: nat): nat {
    if a <= b then a else b
  }

  function Reverse<T>(s: seq<T>): (r: seq<T>)
    ensures |r| == |s|
    ensures forall k :: 0 <= k < |s| ==> r[k] == s[|s| - 1 - k]
  {
    if s == [] then [] else Reverse(s[1..]) + [s[0]]
  }

  /** Number of elements satisfying p. */
  function Count<T>(s: seq<T>, p: T -> bool): (n: nat)
    ensures n <= |s|
  {
    if s == [] then 0 else Count(s[..|s| - 1], p) + if p(s[|s| - 1]) then 1 else 0
  }

  function Copies<T>(x: T, n: nat): (s: seq<T>)
    ensures |s| == n
  {
    seq(n, _ => x)
  }

  lemma LastOfLast<T>(s: seq<T>, m: nat, n: nat)
    requires n <= m
    ensures Last(Last(s, m), n) == Last(s, n)
  {}

  lemma LastOfAppend<T>(s: seq<T>, t: seq<T>, n: nat)
    ensures Last(Last(s, n) + t, n) == Last(s + t, n)
  {}

  lemma Assoc<T>(a: seq<T>, b: seq<T>, c: seq<T>)
    ensures a + b + c == a + (b + c)
  {}

  lemma AppendNothing<T>(s: seq<T>)
    ensures s + [] == s
  {}

  /** A suffix of s, extended like s, is a suffix of the extension. */
  lemma SuffixGrows<T>(suffix: seq<T>, s: seq<T>, more: seq<T>)
    requires suffix == Last(s, |suffix|)
    ensures suffix + more == Last(s + more, |suffix + more|)
  {}

  /** A suffix that is long enough ends like the whole. */
  lemma SuffixEnds<T>(suffix: seq<T>, s: seq<T>, n: nat)
    requires suffix == Last(s, |suffix|) && |suffix| >= Min(n, |s|)
    ensures Last(suffix, n) == Last(s, n)
  {}

  /** Dropping a front leaves the last n elements unchanged exactly when enough remain. */
  lemma FrontDropped<T>(front: seq<T>, rest: seq<T>, n: nat)
    ensures Last(rest, n) == Last(front + rest, n) <==> |rest| >= Min(n, |front + rest|)
  {
    if |rest| >= Min(n, |front + rest|) {
      SuffixEnds(rest, front + rest, n);
    }
  }

  lemma SnocParts<T>(s: seq<T>, x: T)
    ensures (s + [x])[..|s|] == s && (s + [x])[|s|] == x
  {}
}
