/** An optional value: JavaScript's `undefined`, or a `match` that found nothing. */
module Wrappers {
  datatype Option<+T> = None | Some(value: T)
}

/** Generic sequence facts shared by the lookups and scans of the model. */
module Seqs {
  import opened Wrappers

  /** The least index in [p, n) satisfying P: the leftmost-first search that
      `Array.prototype.find` and a regular expression's start-position scan perform. */
  function FirstFrom(P: nat -> bool, p: nat, n: nat): (r: Option<nat>)
    requires p <= n
    ensures r.Some? ==> p <= r.value < n && P(r.value)
    ensures r.Some? ==> forall q: nat :: p <= q < r.value ==> !P(q)
    ensures r.None? ==> forall q: nat :: p <= q < n ==> !P(q)
    decreases n - p
  {
    if p == n then None
    else if P(p) then Some(p)
    else FirstFrom(P, p + 1, n)
  }

  /** `a` can be obtained from `b` by deleting elements (order kept). */
  predicate IsSubsequence<T(==)>(a: seq<T>, b: seq<T>)
    decreases |b|
  {
    a == [] || (b != [] && ((a[0] == b[0] && IsSubsequence(a[1..], b[1..])) || IsSubsequence(a, b[1..])))
  }

  /** `s.map(f)`. */
  function Map<A, B>(f: A -> B, s: seq<A>): (r: seq<B>)
    ensures |r| == |s|
    ensures forall i :: 0 <= i < |s| ==> r[i] == f(s[i])
  {
    seq(|s|, i requires 0 <= i < |s| => f(s[i]))
  }

  /** Mapping a sequence one element at a time, as a loop that pushes does. */
  lemma MapAppend<A, B>(f: A -> B, s: seq<A>, x: A)
    ensures Map(f, s + [x]) == Map(f, s) + [f(x)]
  {
  }

  predicate NoDuplicates<T(==)>(s: seq<T>) {
    forall i, j :: 0 <= i < j < |s| ==> s[i] != s[j]
  }
}
