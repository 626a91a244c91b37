/**
 The buffer cache's circular list: `prev`/`next` links over buffer numbers
 0..NBUF-1, with NBUF standing for bcache.head (source/bio.c:38-56, 123-142).
 */
module LruRing {
  import opened Counting

  const NBUF: nat := 10
  const HEAD: nat := NBUF

  datatype Links = Links(next: seq<nat>, prev: seq<nat>) {
    predicate Ok() {
      && |next| == NBUF + 1 && |prev| == NBUF + 1
      && (forall i :: 0 <= i < |next| ==> next[i] <= HEAD)
      && (forall i :: 0 <= i < |prev| ==> prev[i] <= HEAD)
    }
  }

  /** Entry i of the ring; the positions just outside the list are the head itself. */
  function At(order: seq<nat>, i: int): nat {
    if 0 <= i < |order| then order[i] else HEAD
  }

  predicate AllDistinct(order: seq<nat>) {
    NoRepeats(order) && forall i :: 0 <= i < |order| ==> order[i] < NBUF
  }

  /** Walking `next` from the head gives `order`; walking `prev` gives it backwards. */
  ghost predicate Ring(l: Links, order: seq<nat>) {
    && l.Ok() && AllDistinct(order)
    && (forall i {:trigger l.next[At(order, i)]} :: -1 <= i < |order| ==> l.next[At(order, i)] == At(order, i + 1))
    && (forall i {:trigger l.prev[At(order, i)]} :: 0 <= i <= |order| ==> l.prev[At(order, i)] == At(order, i - 1))
  }

  function Without(order: seq<nat>, j: nat): seq<nat>
    requires j < |order|
  {
    order[..j] + order[j + 1..]
  }

  /** b->next->prev = b->prev; b->prev->next = b->next; */
  function Unlink(l: Links, b: nat): Links
    requires l.Ok() && b < NBUF
  {
    Links(l.next[l.prev[b] := l.next[b]], l.prev[l.next[b] := l.prev[b]])
  }

  /** Insert b right after the head. */
  function LinkFirst(l: Links, b: nat): Links
    requires l.Ok() && b < NBUF
  {
    var first := l.next[HEAD];
    Links(l.next[b := first][HEAD := b], l.prev[b := HEAD][first := b])
  }

  lemma WithoutAt(order: seq<nat>, j: nat, i: int)
    requires j < |order| && -1 <= i < |order|
    ensures At(Without(order, j), i) == At(order, if i < j then i else i + 1)
  {
  }

  lemma UnlinkNext(l: Links, order: seq<nat>, j: nat, i: int)
    requires Ring(l, order) && j < |order| && -1 <= i < |order| - 1
    ensures Unlink(l, order[j]).next[At(Without(order, j), i)] == At(Without(order, j), i + 1)
  {
    WithoutAt(order, j, i);
    WithoutAt(order, j, i + 1);
    var m := if i < j then i else i + 1;
    assert At(order, j) == order[j];
    assert l.next[At(order, m)] == At(order, m + 1);
    if m != j - 1 {
      assert At(order, m) != At(order, j - 1);
    }
  }

  lemma UnlinkPrev(l: Links, order: seq<nat>, j: nat, i: int)
    requires Ring(l, order) && j < |order| && 0 <= i < |order|
    ensures Unlink(l, order[j]).prev[At(Without(order, j), i)] == At(Without(order, j), i - 1)
  {
    WithoutAt(order, j, i);
    WithoutAt(order, j, i - 1);
    var m := if i < j then i else i + 1;
    assert At(order, j) == order[j];
    assert l.prev[At(order, m)] == At(order, m - 1);
    if m != j + 1 {
      assert At(order, m) != At(order, j + 1);
    }
  }

  lemma UnlinkIs(l: Links, order: seq<nat>, j: nat)
    requires Ring(l, order) && j < |order|
    ensures Ring(Unlink(l, order[j]), Without(order, j))
  {
    var o := Without(order, j);
    forall i | -1 <= i < |o|
      ensures Unlink(l, order[j]).next[At(o, i)] == At(o, i + 1)
    {
      UnlinkNext(l, order, j, i);
    }
    forall i | 0 <= i <= |o|
      ensures Unlink(l, order[j]).prev[At(o, i)] == At(o, i - 1)
    {
      UnlinkPrev(l, order, j, i);
    }
  }

  lemma LinkFirstIs(l: Links, order: seq<nat>, b: nat)
    requires Ring(l, order) && b < NBUF && b !in order
    ensures Ring(LinkFirst(l, b), [b] + order)
  {
    var o, u := [b] + order, LinkFirst(l, b);
    assert l.next[At(order, -1)] == At(order, 0);
    forall i | -1 <= i < |o|
      ensures u.next[At(o, i)] == At(o, i + 1)
    {
      assert i >= 0 ==> At(o, i + 1) == At(order, i);
      assert i > 0 ==> At(o, i) == At(order, i - 1);
    }
    forall i | 0 <= i <= |o|
      ensures u.prev[At(o, i)] == At(o, i - 1)
    {
      assert i > 0 ==> At(o, i) == At(order, i - 1);
      assert i > 1 ==> At(o, i - 1) == At(order, i - 2);
    }
  }

  /** brelse: take b out and put it first; the list stays a list of the same buffers, both ways. */
  lemma MoveFirstIs(l: Links, order: seq<nat>, j: nat)
    requires Ring(l, order) && j < |order|
    ensures Ring(LinkFirst(Unlink(l, order[j]), order[j]), [order[j]] + Without(order, j))
    ensures multiset([order[j]] + Without(order, j)) == multiset(order)
  {
    UnlinkIs(l, order, j);
    LinkFirstIs(Unlink(l, order[j]), Without(order, j), order[j]);
    assert order == order[..j] + [order[j]] + order[j + 1..];
  }
}
