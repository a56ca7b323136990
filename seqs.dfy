/** Facts about sequences stated once, so that proofs over records and sessions can use
    them without redoing extensional reasoning in a large context. */
module Seqs {
  lemma AppendAssoc<T>(x: seq<T>, y: seq<T>, z: seq<T>)
    ensures (x + y) + z == x + (y + z)
  {
  }

  lemma SplitAt<T>(s: seq<T>, i: nat)
    requires i <= |s|
    ensures s[..i] + s[i..] == s
  {
  }

  lemma EmptyAppend<T>(s: seq<T>)
    ensures [] + s == s
  {
  }

  lemma TakeAll<T>(s: seq<T>)
    ensures s[..|s|] == s
  {
  }

  lemma SplitLast<T>(s: seq<T>)
    requires |s| > 0
    ensures s == s[..|s| - 1] + [s[|s| - 1]]
  {
  }

  /** The parts of a sequence with one element appended. */
  lemma SnocParts<T>(front: seq<T>, last: T)
    ensures |front + [last]| == |front| + 1
    ensures (front + [last])[..|front|] == front && (front + [last])[|front|] == last
    ensures forall i :: 0 <= i < |front| ==> (front + [last])[i] == front[i]
  {
  }

  /** `q` starts with `p`. */
  predicate Extends<T(==)>(q: seq<T>, p: seq<T>) {
    |p| <= |q| && forall i :: 0 <= i < |p| ==> q[i] == p[i]
  }
}
