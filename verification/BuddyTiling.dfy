/**
 The heap as the buddy allocator sees it: blocks of order k are the aligned runs
 of 2^k units of 64 bytes, k from 0 (order 6) to TOP (order 12).  This module is
 about sets of blocks only; module Buddy ties them to the bitmaps and lists.
 */
module BuddyTiling {
  import opened Division

  const TOP: nat := 6

  datatype Blk = Blk(k: nat, id: nat)

  /** Units in a block of order k. */
  function P(k: nat): (n: nat)
    ensures n > 0
  {
    if k == 0 then 1 else 2 * P(k - 1)
  }

  /** The number of the order-k block that holds unit u. */
  function At(u: nat, k: nat): nat {
    QuotientNat(u, P(k));
    u / P(k)
  }

  lemma QuotientNat(u: nat, p: nat)
    requires p > 0
    ensures u / p >= 0
  {
    var q: int := u / p;
    assert u == p * q + u % p;
    assert p * (q + 1) > 0;
  }

  predicate Inside(b: Blk, u: nat) {
    At(u, b.k) == b.id
  }

  function LeftHalf(b: Blk): Blk
    requires b.k > 0
  {
    Blk(b.k - 1, 2 * b.id)
  }

  function RightHalf(b: Blk): Blk
    requires b.k > 0
  {
    Blk(b.k - 1, 2 * b.id + 1)
  }

  function BuddyOf(b: Blk): Blk {
    Blk(b.k, if b.id % 2 == 0 then b.id + 1 else b.id - 1)
  }

  function Parent(b: Blk): Blk {
    Blk(b.k + 1, b.id / 2)
  }

  lemma Halve(u: nat, k: nat)
    ensures At(u, k + 1) == At(u, k) / 2
  {
    var p := P(k);
    var q, r := u / p, u % p;
    assert u == p * q + r;
    assert u == (2 * p) * (q / 2) + (p * (q % 2) + r) by {
      assert q == 2 * (q / 2) + q % 2;
      assert p * q == p * (2 * (q / 2)) + p * (q % 2);
    }
    assert 0 <= p * (q % 2) + r < 2 * p by { assert q % 2 == 0 || q % 2 == 1; }
    Quotient(2 * p, q / 2, p * (q % 2) + r);
  }

  /** Climbing from half a block is climbing from the block. */
  lemma {:induction false} Climb(id: nat, m: nat)
    ensures At(2 * id, m + 1) == At(id, m) && At(2 * id + 1, m + 1) == At(id, m)
  {
    if m == 0 {
      assert P(1) == 2 * P(0);
    } else {
      Climb(id, m - 1);
      Halve(2 * id, m);
      Halve(2 * id + 1, m);
      Halve(id, m - 1);
    }
  }

  /** Splitting is exact: a unit is in a block exactly when it is in one of its halves. */
  lemma Halves(b: Blk, u: nat)
    requires b.k > 0
    ensures Inside(b, u) <==> Inside(LeftHalf(b), u) || Inside(RightHalf(b), u)
  {
    Halve(u, b.k - 1);
  }

  /**
   `size` maximal blocks; the free and the allocated blocks; and for each unit the
   order of the block it is in.
   */
  datatype Heap = Heap(size: nat, free: set<Blk>, alloc: set<Blk>, own: seq<nat>)

  predicate InHeap(size: nat, b: Blk) {
    b.k <= TOP && b.id < size * P(TOP - b.k)
  }

  /** Free and allocated blocks together cover every unit exactly once. */
  ghost predicate Tiling(h: Heap) {
    && |h.own| == h.size * P(TOP)
    && h.free !! h.alloc
    && (forall u :: 0 <= u < |h.own| ==> h.own[u] <= TOP && Blk(h.own[u], At(u, h.own[u])) in h.free + h.alloc)
    && (forall b :: b in h.free + h.alloc ==> InHeap(h.size, b) && Owns(h, b))
  }

  /** Every unit inside b belongs to b. */
  ghost predicate Owns(h: Heap, b: Blk) {
    forall u :: 0 <= u < |h.own| && Inside(b, u) ==> h.own[u] == b.k
  }

  ghost predicate FreeUnit(h: Heap, u: nat) {
    u < |h.own| && Blk(h.own[u], At(u, h.own[u])) in h.free
  }

  /** No two free buddies below the top order. */
  ghost predicate Canonical(h: Heap) {
    forall b :: b in h.free && b.k < TOP ==> BuddyOf(b) !in h.free
  }

  lemma {:induction false} Doubling(k: nat)
    requires k <= TOP
    ensures P(TOP - k) * P(k) == P(TOP)
  {
    if k > 0 {
      Doubling(k - 1);
      var a, b := P(TOP - k), P(k - 1);
      assert P(TOP - (k - 1)) == 2 * a && P(k) == 2 * b;
      assert (2 * a) * b == a * (2 * b);
    }
  }

  /** A block of the heap has a unit: its first. */
  lemma FirstUnit(size: nat, b: Blk) returns (u: nat)
    requires InHeap(size, b)
    ensures u == b.id * P(b.k) && u < size * P(TOP) && Inside(b, u)
  {
    u := b.id * P(b.k);
    var n := P(TOP - b.k);
    Doubling(b.k);
    assert b.id * P(b.k) < size * n * P(b.k) by { Grows(b.id, size * n, P(b.k)); }
    assert size * n * P(b.k) == size * P(TOP) by { assert size * n * P(b.k) == size * (n * P(b.k)); }
    Quotient(P(b.k), b.id, 0);
  }

  lemma Grows(a: nat, b: nat, c: nat)
    requires a < b && c > 0
    ensures a * c < b * c
  {
  }

  /** Blocks of a tiling that share a unit are the same block. */
  lemma NoOverlap(h: Heap, a: Blk, b: Blk, u: nat)
    requires Tiling(h) && a in h.free + h.alloc && b in h.free + h.alloc && u < |h.own| && Inside(a, u) && Inside(b, u)
    ensures a == b
  {
    assert Owns(h, a) && Owns(h, b);
  }

  lemma Apart(h: Heap, a: Blk, b: Blk, u: nat)
    requires Tiling(h) && a in h.free + h.alloc && b in h.free + h.alloc && u < |h.own| && Inside(a, u) && a != b
    ensures !Inside(b, u)
  {
    assert Owns(h, a) && Owns(h, b);
  }

  // ---------------------------------------------------------------- moves

  function ToFree(h: Heap, b: Blk): Heap {
    h.(free := h.free + {b}, alloc := h.alloc - {b})
  }

  function ToAlloc(h: Heap, b: Blk): Heap {
    h.(alloc := h.alloc + {b}, free := h.free - {b})
  }

  function Recolor(own: seq<nat>, b: Blk, k: nat): (r: seq<nat>)
    ensures |r| == |own|
    ensures forall u :: 0 <= u < |own| ==> r[u] == if Inside(b, u) then k else own[u]
  {
    seq(|own|, u requires 0 <= u < |own| => if Inside(b, u) then k else own[u])
  }

  function Split(h: Heap, b: Blk): Heap
    requires b.k > 0
  {
    h.(alloc := h.alloc - {b} + {LeftHalf(b), RightHalf(b)}, own := Recolor(h.own, b, b.k - 1))
  }

  function Join(h: Heap, b: Blk): Heap
    requires b.k > 0
  {
    h.(alloc := h.alloc - {LeftHalf(b), RightHalf(b)} + {b}, own := Recolor(h.own, b, b.k))
  }

  lemma ToFreeTiles(h: Heap, b: Blk)
    requires Tiling(h) && b in h.alloc
    ensures Tiling(ToFree(h, b))
    ensures forall u :: 0 <= u < |h.own| ==> (FreeUnit(ToFree(h, b), u) <==> FreeUnit(h, u) || Inside(b, u))
  {
    var g := ToFree(h, b);
    assert g.free + g.alloc == h.free + h.alloc;
    assert forall x :: x in g.free + g.alloc ==> Owns(h, x) && Owns(g, x);
    forall u | 0 <= u < |h.own|
      ensures FreeUnit(g, u) <==> FreeUnit(h, u) || Inside(b, u)
    {
      assert Owns(h, b);
    }
  }

  lemma ToAllocTiles(h: Heap, b: Blk)
    requires Tiling(h) && b in h.free
    ensures Tiling(ToAlloc(h, b))
    ensures forall u :: 0 <= u < |h.own| ==> (FreeUnit(ToAlloc(h, b), u) <==> FreeUnit(h, u) && !Inside(b, u))
  {
    var g := ToAlloc(h, b);
    assert g.free + g.alloc == h.free + h.alloc;
    assert forall x :: x in g.free + g.alloc ==> Owns(h, x) && Owns(g, x);
    forall u | 0 <= u < |h.own|
      ensures FreeUnit(g, u) <==> FreeUnit(h, u) && !Inside(b, u)
    {
      assert Owns(h, b);
    }
  }

  lemma HalfInHeap(size: nat, b: Blk)
    requires b.k > 0 && b.k <= TOP
    ensures InHeap(size, b) <==> InHeap(size, LeftHalf(b))
    ensures InHeap(size, b) <==> InHeap(size, RightHalf(b))
  {
    var n := P(TOP - b.k);
    assert P(TOP - (b.k - 1)) == 2 * n;
    assert size * (2 * n) == 2 * (size * n);
  }

  lemma SplitTiles(h: Heap, b: Blk)
    requires Tiling(h) && b in h.alloc && b.k > 0
    ensures Tiling(Split(h, b))
    ensures forall u :: 0 <= u < |h.own| ==> (FreeUnit(Split(h, b), u) <==> FreeUnit(h, u))
  {
    var g := Split(h, b);
    assert Owns(h, b) && InHeap(h.size, b);
    HalfInHeap(h.size, b);
    HalvesNew(h, b);
    forall u | 0 <= u < |h.own|
      ensures g.own[u] <= TOP && Blk(g.own[u], At(u, g.own[u])) in g.free + g.alloc
      ensures FreeUnit(g, u) <==> FreeUnit(h, u)
    {
      Halves(b, u);
    }
    forall x | x in g.free + g.alloc
      ensures InHeap(h.size, x) && Owns(g, x)
    {
      forall u | 0 <= u < |h.own| && Inside(x, u)
        ensures g.own[u] == x.k
      {
        Halves(b, u);
        if x in h.free + h.alloc { Apart(h, x, b, u); }
      }
    }
  }

  /** A block's halves are not blocks of the tiling themselves. */
  lemma HalvesNew(h: Heap, b: Blk)
    requires Tiling(h) && b in h.free + h.alloc && b.k > 0
    ensures LeftHalf(b) !in h.free + h.alloc && RightHalf(b) !in h.free + h.alloc
  {
    HalfInHeap(h.size, b);
    var u := FirstUnit(h.size, LeftHalf(b));
    var v := FirstUnit(h.size, RightHalf(b));
    Halves(b, u);
    Halves(b, v);
    if LeftHalf(b) in h.free + h.alloc { NoOverlap(h, b, LeftHalf(b), u); }
    if RightHalf(b) in h.free + h.alloc { NoOverlap(h, b, RightHalf(b), v); }
  }

  /** Nor is a block that has a half in the tiling. */
  lemma WholeNew(h: Heap, b: Blk)
    requires Tiling(h) && b.k > 0 && LeftHalf(b) in h.free + h.alloc
    ensures b !in h.free + h.alloc
  {
    if b in h.free + h.alloc { HalvesNew(h, b); }
  }

  lemma JoinTiles(h: Heap, b: Blk)
    requires Tiling(h) && b.k > 0 && b.k <= TOP && LeftHalf(b) in h.alloc && RightHalf(b) in h.alloc
    ensures Tiling(Join(h, b)) && b !in h.free + h.alloc
    ensures forall u :: 0 <= u < |h.own| ==> (FreeUnit(Join(h, b), u) <==> FreeUnit(h, u))
  {
    var g := Join(h, b);
    HalfInHeap(h.size, b);
    WholeNew(h, b);
    forall u | 0 <= u < |h.own|
      ensures g.own[u] <= TOP && Blk(g.own[u], At(u, g.own[u])) in g.free + g.alloc
      ensures FreeUnit(g, u) <==> FreeUnit(h, u)
    {
      Halves(b, u);
      assert Owns(h, LeftHalf(b)) && Owns(h, RightHalf(b));
    }
    forall x | x in g.free + g.alloc
      ensures InHeap(h.size, x) && Owns(g, x)
    {
      forall u | 0 <= u < |h.own| && Inside(x, u)
        ensures g.own[u] == x.k
      {
        Halves(b, u);
        if x != b {
          assert Owns(h, x);
          Apart(h, x, LeftHalf(b), u);
          Apart(h, x, RightHalf(b), u);
        }
      }
    }
  }

  // ---------------------------------------------------------------- canonicity

  /** Every unit of the aligned region is free. */
  ghost predicate FreeRegion(h: Heap, b: Blk) {
    InHeap(h.size, b) && forall u :: 0 <= u < |h.own| && Inside(b, u) ==> FreeUnit(h, u)
  }

  /** In a canonical tiling a free aligned region lies inside one free block. */
  lemma {:induction false} RegionInBlock(h: Heap, b: Blk) returns (j: nat)
    requires Tiling(h) && Canonical(h) && FreeRegion(h, b)
    ensures b.k <= j <= TOP && Blk(j, At(b.id, j - b.k)) in h.free
    decreases b.k
  {
    if b.k == 0 {
      var u := FirstUnit(h.size, b);
      assert u == b.id * P(0) == b.id;
      j := h.own[u];
    } else {
      HalfInHeap(h.size, b);
      forall u | 0 <= u < |h.own| && (Inside(LeftHalf(b), u) || Inside(RightHalf(b), u))
        ensures FreeUnit(h, u)
      {
        Halves(b, u);
      }
      j := RegionInBlock(h, LeftHalf(b));
      if j >= b.k {
        Climb(b.id, j - b.k);
      } else {
        assert P(0) == 1;
        assert LeftHalf(b) in h.free;
        assert BuddyOf(LeftHalf(b)) == RightHalf(b) && RightHalf(b) !in h.free;
        j := RegionInBlock(h, RightHalf(b));
        assert j != b.k - 1;
        Climb(b.id, j - b.k);
      }
    }
  }

  lemma {:induction false} ClimbUnit(u: nat, k: nat, m: nat)
    ensures At(At(u, k), m) == At(u, k + m)
  {
    if m == 0 {
      assert P(0) == 1;
    } else {
      ClimbUnit(u, k, m - 1);
      Halve(At(u, k), m - 1);
      Halve(u, k + m - 1);
    }
  }

  /** The free blocks are a function of the free units: canonical tilings with the same free units have the same free
      blocks. */
  lemma FreeBlocksDetermined(h: Heap, g: Heap, b: Blk)
    requires Tiling(h) && Canonical(h) && Tiling(g) && Canonical(g) && h.size == g.size
    requires forall u :: 0 <= u < |h.own| ==> (FreeUnit(h, u) <==> FreeUnit(g, u))
    requires b in h.free
    ensures b in g.free
  {
    var u := FirstUnit(h.size, b);
    assert Owns(h, b);
    assert FreeRegion(g, b);
    var j := RegionInBlock(g, b);
    var a := Blk(j, At(b.id, j - b.k));
    ClimbUnit(u, b.k, j - b.k);
    assert Inside(a, u);
    assert Owns(g, a);
    assert FreeRegion(h, a);
    var i := RegionInBlock(h, a);
    var c := Blk(i, At(a.id, i - a.k));
    ClimbUnit(u, a.k, i - a.k);
    NoOverlap(h, b, c, u);
  }

  /** With nothing allocated, exactly the maximal blocks are free. */
  lemma AllFreed(h: Heap, b: Blk)
    requires Tiling(h) && Canonical(h) && h.alloc == {}
    ensures b in h.free <==> b.k == TOP && b.id < h.size
  {
    if b in h.free {
      var u := FirstUnit(h.size, b);
      var id := At(u, TOP);
      ClimbUnit(u, b.k, TOP - b.k);
      TopIndex(h.size, u);
      assert FreeRegion(h, Blk(TOP, id));
      var j := RegionInBlock(h, Blk(TOP, id));
      assert P(0) == 1;
      NoOverlap(h, b, Blk(TOP, id), u);
    } else if b.k == TOP && b.id < h.size {
      assert P(0) == 1;
      assert FreeRegion(h, b);
      var j := RegionInBlock(h, b);
    }
  }

  lemma TopIndex(size: nat, u: nat)
    requires u < size * P(TOP)
    ensures At(u, TOP) < size && InHeap(size, Blk(TOP, At(u, TOP)))
  {
    var p := P(TOP);
    assert P(0) == 1;
    var q := u / p;
    assert u >= p * q;
    assert q >= size ==> p * q >= p * size;
  }
}
