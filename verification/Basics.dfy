/** A value that may be missing. */
module Wrappers {
  datatype Option<T> = None | Some(value: T)
}

/** Division facts for moduli that are not literals. */
module Division {

  /** Quotient and remainder are what the product and a small rest say. */
  lemma Quotient(d: nat, q: nat, r: nat)
    requires r < d
    ensures (d * q + r) / d == q && (d * q + r) % d == r
  {
    var x := q - (d * q + r) / d;
    assert d * x == (d * q + r) % d - r;
    assert x >= 1 ==> d * x >= d;
    assert x <= -1 ==> d * x + d <= 0;
  }
}

/** Pigeonhole facts used by several parts of the model. */
module Counting {

  predicate NoRepeats(q: seq<nat>) {
    forall i, j :: 0 <= i < j < |q| ==> q[i] != q[j]
  }

  /** Different elements of a set are no more than the set has. */
  lemma {:induction false} NoMoreThan(q: seq<nat>, s: set<nat>)
    requires NoRepeats(q) && forall i :: 0 <= i < |q| ==> q[i] in s
    ensures |q| <= |s|
  {
    if q != [] {
      var m := |q| - 1;
      NoMoreThan(q[..m], s - {q[m]});
    }
  }

  /** The numbers below n. */
  function Below(n: nat): (s: set<nat>)
    ensures |s| == n
    ensures forall i :: i in s <==> 0 <= i < n
  {
    if n == 0 then {} else Below(n - 1) + {n - 1}
  }

  /** The numbers from lo on and below hi. */
  function Range(lo: nat, hi: nat): (s: set<nat>)
    requires lo <= hi
    ensures |s| == hi - lo
    ensures forall i :: i in s <==> lo <= i < hi
  {
    assert Below(hi) == Below(lo) + (Below(hi) - Below(lo));
    Below(hi) - Below(lo)
  }

  /** n different numbers below n are all of them. */
  lemma Covers(q: seq<nat>, n: nat, b: nat)
    requires NoRepeats(q) && |q| == n && b < n
    requires forall i :: 0 <= i < |q| ==> q[i] < n
    ensures b in q
  {
    if b !in q {
      NoMoreThan(q + [b], Below(n));
    }
  }
}

/**
 Definitions of the form `forall k :: Look(k) ==> ...` stay folded until a proof
 writes `assert Look(0)`; this keeps the large invariants out of proofs that only
 pass them along.
 */
module Folding {
  predicate Look(k: int) { true }

  /** The same for definitions that are opened separately. */
  predicate Peek(k: int) { true }

  predicate Glance(k: int) { true }

  predicate Spot(k: int) { true }
}
