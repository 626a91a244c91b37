/**
 The user-level allocator of uprogs/umalloc.c.  Addresses count headers of eight
 bytes.  `ptr` and `size` are the two fields of the headers in memory; the circular
 free list is the sequence of its nodes beginning at `base`, which lies below
 everything sbrk hands out.
 */
module Umalloc {
  import opened Wrappers
  import opened Folding

  datatype Mem = Mem(ptr: map<nat, nat>, size: map<nat, nat>)

  // ---------------------------------------------------------------- the circular list

  function Next(l: seq<nat>, i: nat): nat
    requires i < |l|
  {
    if i + 1 < |l| then l[i + 1] else l[0]
  }

  /** The nodes are linked in a circle. */
  ghost predicate Linked(m: Mem, l: seq<nat>) {
    && |l| > 0
    && (forall i :: 0 <= i < |l| ==> l[i] in m.ptr && l[i] in m.size)
    && (forall i {:trigger Next(l, i)} :: 0 <= i < |l| ==> m.ptr[l[i]] == Next(l, i))
  }

  /** Address order with the one wrap point at the end, and no two free blocks overlap; base has no units of its own. */
  ghost predicate Ordered(m: Mem, l: seq<nat>)
    requires Linked(m, l)
  {
    && m.size[l[0]] == 0
    && (forall i :: 1 <= i < |l| ==> m.size[l[i]] > 0 && l[0] < l[i])
    && (forall i, j :: 0 <= i < j < |l| ==> l[i] + m.size[l[i]] <= l[j] && l[i] < l[j])
  }

  /** Block i ends where the next one begins. */
  ghost predicate Touch(m: Mem, l: seq<nat>, i: nat)
    requires Linked(m, l)
  {
    i + 1 < |l| && l[i] + m.size[l[i]] == l[i + 1]
  }

  ghost predicate Coalesced(m: Mem, l: seq<nat>)
    requires Linked(m, l)
  {
    forall i :: 0 <= i < |l| ==> !Touch(m, l, i)
  }

  /** Unit u is in a free block. */
  ghost predicate Free(m: Mem, l: seq<nat>, u: nat)
    requires Linked(m, l)
  {
    exists i :: 0 <= i < |l| && Covers(m, l[i], u)
  }

  predicate Covers(m: Mem, a: nat, u: nat)
    requires a in m.size
  {
    a <= u < a + m.size[a]
  }

  // ---------------------------------------------------------------- blocks in use

  /** Live blocks carry their size in their header and do not overlap. */
  ghost predicate Live(m: Mem, used: map<nat, nat>) {
    && (forall a :: a in used ==> a in m.size && m.size[a] == used[a] > 0)
    && (forall a, b :: a in used && b in used && a < b ==> a + used[a] <= b)
  }

  ghost predicate Apart(m: Mem, l: seq<nat>, used: map<nat, nat>)
    requires Linked(m, l)
  {
    forall i, a ::
      0 <= i < |l| && a in used ==>
          a != l[i] && (l[i] < a ==> l[i] + m.size[l[i]] <= a) && (a < l[i] ==> a + used[a] <= l[i])
  }

  ghost predicate InUse(used: map<nat, nat>, u: nat) {
    exists a :: a in used && a <= u < a + used[a]
  }

  /** Every unit obtained from sbrk is in a free block or in a live one. */
  ghost predicate Conserved(m: Mem, l: seq<nat>, used: map<nat, nat>, arena: set<nat>)
    requires Linked(m, l)
  {
    && (forall u :: u in arena <==> Free(m, l, u) || InUse(used, u))
    && (forall a :: a in used ==> l[0] < a)
  }

  ghost predicate HeapOk(m: Mem, l: seq<nat>, used: map<nat, nat>, arena: set<nat>) {
    && Linked(m, l) && Ordered(m, l) && Live(m, used) && Apart(m, l, used) && Conserved(m, l, used, arena)
  }

  /** n units from a on. */
  ghost function Units(a: nat, n: nat): (s: set<nat>)
    ensures forall u :: u in s <==> a <= u < a + n
  {
    if n == 0 then {} else Units(a, n - 1) + {a + n - 1}
  }

  // ---------------------------------------------------------------- inserting and merging

  /** bp goes in behind node i. */
  function Insert(m: Mem, l: seq<nat>, i: nat, bp: nat): Mem
    requires i < |l|
  {
    m.(ptr := m.ptr[bp := Next(l, i)][l[i] := bp])
  }

  function Inserted(l: seq<nat>, i: nat, bp: nat): seq<nat>
    requires i < |l|
  {
    seq(|l| + 1, k requires 0 <= k <= |l| => if k <= i then l[k] else if k == i + 1 then bp else l[k - 1])
  }

  /** Where free puts bp: behind the last node below it. */
  predicate Place(l: seq<nat>, i: nat, bp: nat) {
    i < |l| && l[i] < bp && (i + 1 < |l| ==> bp < l[i + 1])
  }

  lemma InsertedAt(l: seq<nat>, i: nat, bp: nat, k: nat)
    requires i < |l| && k <= |l|
    ensures var r := Inserted(l, i, bp);
            |r| == |l| + 1 && r[k] == if k <= i then l[k] else if k == i + 1 then bp else l[k - 1]
  {
  }

  lemma InsertLinked(m: Mem, l: seq<nat>, i: nat, bp: nat)
    requires Linked(m, l) && Ordered(m, l) && Place(l, i, bp) && bp in m.size
    ensures Linked(Insert(m, l, i, bp), Inserted(l, i, bp))
  {
    var r, n := Inserted(l, i, bp), Insert(m, l, i, bp);
    forall k | 0 <= k < |r|
      ensures r[k] in n.ptr && r[k] in n.size && n.ptr[r[k]] == Next(r, k)
    {
      InsertLinkedAt(m, l, i, bp, k);
    }
  }

  lemma InsertLinkedAt(m: Mem, l: seq<nat>, i: nat, bp: nat, k: nat)
    requires Linked(m, l) && Ordered(m, l) && Place(l, i, bp) && bp in m.size && k <= |l|
    ensures var r, n := Inserted(l, i, bp), Insert(m, l, i, bp);
            r[k] in n.ptr && r[k] in n.size && n.ptr[r[k]] == Next(r, k)
  {
    InsertedAt(l, i, bp, k);
    InsertedAt(l, i, bp, if k < |l| then k + 1 else 0);
    if k < i {
      assert m.ptr[l[k]] == Next(l, k) && l[k] < l[i];
    } else if k > i + 1 {
      assert m.ptr[l[k - 1]] == Next(l, k - 1) && l[i] < l[k - 1];
    }
  }

  lemma InsertOrdered(m: Mem, l: seq<nat>, i: nat, bp: nat)
    requires Linked(m, l) && Ordered(m, l) && Place(l, i, bp) && bp in m.size && m.size[bp] > 0
    requires forall k ::
               0 <= k < |l| ==> (l[k] < bp ==> l[k] + m.size[l[k]] <= bp) && (bp < l[k] ==> bp + m.size[bp] <= l[k])
    requires Linked(Insert(m, l, i, bp), Inserted(l, i, bp))
    ensures Ordered(Insert(m, l, i, bp), Inserted(l, i, bp))
  {
    var r, n := Inserted(l, i, bp), Insert(m, l, i, bp);
    InsertedAt(l, i, bp, 0);
    forall k | 1 <= k < |r|
      ensures n.size[r[k]] > 0 && r[0] < r[k]
    {
      InsertedAt(l, i, bp, k);
    }
    forall j, k | 0 <= j < k < |r|
      ensures r[j] + n.size[r[j]] <= r[k] && r[j] < r[k]
    {
      InsertedAt(l, i, bp, j);
      InsertedAt(l, i, bp, k);
    }
  }

  lemma InsertFree(m: Mem, l: seq<nat>, i: nat, bp: nat, u: nat)
    requires Linked(m, l) && i < |l| && bp in m.size && Linked(Insert(m, l, i, bp), Inserted(l, i, bp))
    ensures Free(Insert(m, l, i, bp), Inserted(l, i, bp), u) <==> Free(m, l, u) || bp <= u < bp + m.size[bp]
  {
    var r := Inserted(l, i, bp);
    InsertedAt(l, i, bp, i + 1);
    if Free(m, l, u) {
      var k :| 0 <= k < |l| && Covers(m, l[k], u);
      InsertedAt(l, i, bp, if k <= i then k else k + 1);
    }
    if Free(Insert(m, l, i, bp), r, u) {
      var k :| 0 <= k < |r| && Covers(Insert(m, l, i, bp), r[k], u);
      InsertedAt(l, i, bp, k);
    }
  }

  /** A live block, or one fresh from sbrk, becomes free. */
  lemma InsertOk(m: Mem, l: seq<nat>, used: map<nat, nat>, arena: set<nat>, i: nat, bp: nat)
    requires HeapOk(m, l, used, arena) && Place(l, i, bp) && bp in used
    ensures HeapOk(Insert(m, l, i, bp), Inserted(l, i, bp), used - {bp}, arena)
  {
    var r, n, v := Inserted(l, i, bp), Insert(m, l, i, bp), used - {bp};
    InsertLinked(m, l, i, bp);
    InsertOrdered(m, l, i, bp);
    InsertedAt(l, i, bp, 0);
    forall k, a | 0 <= k < |r| && a in v
      ensures a != r[k] && (r[k] < a ==> r[k] + n.size[r[k]] <= a) && (a < r[k] ==> a + v[a] <= r[k])
    {
      InsertedAt(l, i, bp, k);
    }
    forall u
      ensures u in arena <==> Free(n, r, u) || InUse(v, u)
    {
      InsertFree(m, l, i, bp, u);
      UseLess(used, bp, u);
    }
  }

  lemma UseLess(used: map<nat, nat>, bp: nat, u: nat)
    requires bp in used
    ensures InUse(used, u) <==> InUse(used - {bp}, u) || bp <= u < bp + used[bp]
  {
    if a :| a in used && a <= u < a + used[a] {
      assert a != bp ==> a in used - {bp};
    }
    if a :| a in used - {bp} && a <= u < a + (used - {bp})[a] {
      assert a in used;
    }
  }

  /** Block x takes in block y, which begins where it ends. */
  function Merge(m: Mem, x: nat, y: nat): Mem
    requires x in m.ptr && x in m.size && y in m.ptr && y in m.size
  {
    Mem(m.ptr[x := m.ptr[y]], m.size[x := m.size[x] + m.size[y]])
  }

  /** The list without node j. */
  function Dropped(l: seq<nat>, j: nat): seq<nat>
    requires j < |l|
  {
    seq(|l| - 1, k requires 0 <= k < |l| - 1 => if k < j then l[k] else l[k + 1])
  }

  lemma DroppedAt(l: seq<nat>, j: nat, k: nat)
    requires j < |l| && k < |l| - 1
    ensures |Dropped(l, j)| == |l| - 1 && Dropped(l, j)[k] == if k < j then l[k] else l[k + 1]
  {
  }

  lemma MergeLinked(m: Mem, l: seq<nat>, i: nat)
    requires Linked(m, l) && Ordered(m, l) && Touch(m, l, i)
    ensures Linked(Merge(m, l[i], l[i + 1]), Dropped(l, i + 1))
  {
    var r, n := Dropped(l, i + 1), Merge(m, l[i], l[i + 1]);
    forall k | 0 <= k < |r|
      ensures r[k] in n.ptr && r[k] in n.size && n.ptr[r[k]] == Next(r, k)
    {
      assert m.ptr[r[k]] == Next(l, if k <= i then k else k + 1) && m.ptr[l[i + 1]] == Next(l, i + 1);
      DroppedAt(l, i + 1, k);
      DroppedAt(l, i + 1, if k + 1 < |r| then k + 1 else 0);
    }
  }

  lemma MergeOrdered(m: Mem, l: seq<nat>, i: nat)
    requires Linked(m, l) && Ordered(m, l) && Touch(m, l, i) && Linked(Merge(m, l[i], l[i + 1]), Dropped(l, i + 1))
    ensures Ordered(Merge(m, l[i], l[i + 1]), Dropped(l, i + 1))
  {
    var r, n := Dropped(l, i + 1), Merge(m, l[i], l[i + 1]);
    DroppedAt(l, i + 1, 0);
    forall k | 1 <= k < |r|
      ensures n.size[r[k]] > 0 && r[0] < r[k]
    {
      DroppedAt(l, i + 1, k);
    }
    forall j, k | 0 <= j < k < |r|
      ensures r[j] + n.size[r[j]] <= r[k] && r[j] < r[k]
    {
      DroppedAt(l, i + 1, j);
      DroppedAt(l, i + 1, k);
    }
  }

  lemma MergeFree(m: Mem, l: seq<nat>, i: nat, u: nat)
    requires Linked(m, l) && Ordered(m, l) && Touch(m, l, i) && Linked(Merge(m, l[i], l[i + 1]), Dropped(l, i + 1))
    ensures Free(Merge(m, l[i], l[i + 1]), Dropped(l, i + 1), u) <==> Free(m, l, u)
  {
    var r, n := Dropped(l, i + 1), Merge(m, l[i], l[i + 1]);
    if k :| 0 <= k < |l| && Covers(m, l[k], u) {
      MergeCovers(m, l, i, k, u);
    }
    if k :| 0 <= k < |r| && Covers(n, r[k], u) {
      DroppedAt(l, i + 1, k);
      assert k == i ==> Covers(m, l[i], u) || Covers(m, l[i + 1], u);
      assert k != i ==> Covers(m, r[k], u);
    }
  }

  lemma MergeCovers(m: Mem, l: seq<nat>, i: nat, k: nat, u: nat)
    requires Linked(m, l) && Ordered(m, l) && Touch(m, l, i) && k < |l| && Covers(m, l[k], u)
    requires Linked(Merge(m, l[i], l[i + 1]), Dropped(l, i + 1))
    ensures Free(Merge(m, l[i], l[i + 1]), Dropped(l, i + 1), u)
  {
    var at := if k <= i then k else k - 1;
    DroppedAt(l, i + 1, at);
    assert Covers(Merge(m, l[i], l[i + 1]), Dropped(l, i + 1)[at], u);
  }

  lemma MergeOk(m: Mem, l: seq<nat>, used: map<nat, nat>, arena: set<nat>, i: nat)
    requires HeapOk(m, l, used, arena) && Touch(m, l, i)
    ensures HeapOk(Merge(m, l[i], l[i + 1]), Dropped(l, i + 1), used, arena)
  {
    MergeLinked(m, l, i);
    MergeOrdered(m, l, i);
    var r, n := Dropped(l, i + 1), Merge(m, l[i], l[i + 1]);
    DroppedAt(l, i + 1, 0);
    forall k, a | 0 <= k < |r| && a in used
      ensures a != r[k] && (r[k] < a ==> r[k] + n.size[r[k]] <= a) && (a < r[k] ==> a + used[a] <= r[k])
    {
      DroppedAt(l, i + 1, k);
    }
    forall u
      ensures u in arena <==> Free(n, r, u) || InUse(used, u)
    {
      MergeFree(m, l, i, u);
    }
  }

  // ---------------------------------------------------------------- free, on values

  /** What free makes of the headers once it has found node i to put bp behind. */
  ghost function FreedMem(m: Mem, l: seq<nat>, i: nat, bp: nat): Mem
    requires Linked(m, l) && i < |l| && bp in m.size
  {
    var m1 := Insert(m, l, i, bp);
    var m2 := if Up(m, l, i, bp) then Merge(m1, bp, l[i + 1]) else m1;
    if Down(m, l, i, bp) then Merge(m2, l[i], bp) else m2
  }

  ghost function FreedList(m: Mem, l: seq<nat>, i: nat, bp: nat): seq<nat>
    requires Linked(m, l) && i < |l| && bp in m.size
  {
    var l1 := Inserted(l, i, bp);
    var l2 := if Up(m, l, i, bp) then Dropped(l1, i + 2) else l1;
    if Down(m, l, i, bp) then Dropped(l2, i + 1) else l2
  }

  ghost predicate Up(m: Mem, l: seq<nat>, i: nat, bp: nat)
    requires Linked(m, l) && i < |l| && bp in m.size
  {
    i + 1 < |l| && bp + m.size[bp] == l[i + 1]
  }

  ghost predicate Down(m: Mem, l: seq<nat>, i: nat, bp: nat)
    requires Linked(m, l) && i < |l| && bp in m.size
  {
    l[i] + m.size[l[i]] == bp
  }

  lemma InsertTouch(m: Mem, l: seq<nat>, i: nat, bp: nat, k: nat)
    requires Linked(m, l) && Coalesced(m, l) && Place(l, i, bp) && bp in m.size && k <= |l|
    requires Linked(Insert(m, l, i, bp), Inserted(l, i, bp))
    ensures Touch(Insert(m, l, i, bp), Inserted(l, i, bp), k) <==>
                (k == i && Down(m, l, i, bp)) || (k == i + 1 && Up(m, l, i, bp))
  {
    InsertedAt(l, i, bp, k);
    if k < |l| {
      InsertedAt(l, i, bp, k + 1);
      assert !Touch(m, l, k);
    }
    assert k > 0 ==> !Touch(m, l, k - 1);
  }

  lemma MergeTouch(m: Mem, l: seq<nat>, i: nat, k: nat)
    requires Linked(m, l) && Ordered(m, l) && Touch(m, l, i) && Linked(Merge(m, l[i], l[i + 1]), Dropped(l, i + 1))
             && k < |l| - 1
    ensures Touch(Merge(m, l[i], l[i + 1]), Dropped(l, i + 1), k) <==> Touch(m, l, if k < i then k else k + 1)
  {
    DroppedAt(l, i + 1, k);
    if k + 1 < |l| - 1 { DroppedAt(l, i + 1, k + 1); }
  }

  /** After the merge with the block above: only the block below can still touch bp. */
  lemma UpOk(m: Mem, l: seq<nat>, used: map<nat, nat>, arena: set<nat>, i: nat, bp: nat)
    requires HeapOk(m, l, used, arena) && Coalesced(m, l) && Place(l, i, bp) && bp in used
    ensures var m1, l1 := Insert(m, l, i, bp), Inserted(l, i, bp);
            var m2 := if Up(m, l, i, bp) then Merge(m1, bp, l[i + 1]) else m1;
            var l2 := if Up(m, l, i, bp) then Dropped(l1, i + 2) else l1;
            && HeapOk(m2, l2, used - {bp}, arena) && i + 1 < |l2| && l2[i] == l[i] && l2[i + 1] == bp
            && m2.size[bp] >= m.size[bp]
            && l2[0] == l[0] && forall k :: 0 <= k < |l2| ==> (Touch(m2, l2, k) <==> k == i && Down(m, l, i, bp))
  {
    var m1, l1 := Insert(m, l, i, bp), Inserted(l, i, bp);
    InsertOk(m, l, used, arena, i, bp);
    forall k | 0 <= k < |l1|
      ensures Touch(m1, l1, k) <==> (k == i && Down(m, l, i, bp)) || (k == i + 1 && Up(m, l, i, bp))
    {
      InsertTouch(m, l, i, bp, k);
    }
    InsertedAt(l, i, bp, i);
    InsertedAt(l, i, bp, i + 1);
    InsertedAt(l, i, bp, 0);
    if Up(m, l, i, bp) {
      InsertedAt(l, i, bp, i + 2);
      MergeOk(m1, l1, used - {bp}, arena, i + 1);
      DroppedAt(l1, i + 2, i);
      DroppedAt(l1, i + 2, i + 1);
      DroppedAt(l1, i + 2, 0);
      var m2, l2 := Merge(m1, bp, l[i + 1]), Dropped(l1, i + 2);
      forall k | 0 <= k < |l2|
        ensures Touch(m2, l2, k) <==> k == i && Down(m, l, i, bp)
      {
        MergeTouch(m1, l1, i + 1, k);
      }
    }
  }

  /** free keeps the heap in order and coalesced; bp's units are free, and node i is still on the list. */
  lemma FreedOk(m: Mem, l: seq<nat>, used: map<nat, nat>, arena: set<nat>, i: nat, bp: nat)
    requires HeapOk(m, l, used, arena) && Coalesced(m, l) && Place(l, i, bp) && bp in used
    ensures var n, r := FreedMem(m, l, i, bp), FreedList(m, l, i, bp);
            && HeapOk(n, r, used - {bp}, arena) && Coalesced(n, r) && i < |r| && r[i] == l[i] && r[0] == l[0]
            && exists k :: 0 <= k < |r| && n.size[r[k]] >= used[bp]
  {
    UpOk(m, l, used, arena, i, bp);
    var m1, l1 := Insert(m, l, i, bp), Inserted(l, i, bp);
    var m2 := if Up(m, l, i, bp) then Merge(m1, bp, l[i + 1]) else m1;
    var l2 := if Up(m, l, i, bp) then Dropped(l1, i + 2) else l1;
    var n, r := FreedMem(m, l, i, bp), FreedList(m, l, i, bp);
    if Down(m, l, i, bp) {
      assert Touch(m2, l2, i);
      MergeOk(m2, l2, used - {bp}, arena, i);
      DroppedAt(l2, i + 1, i);
      DroppedAt(l2, i + 1, 0);
      forall k | 0 <= k < |r|
        ensures !Touch(n, r, k)
      {
        MergeTouch(m2, l2, i, k);
      }
      assert n.size[r[i]] >= used[bp];
    } else {
      assert n.size[r[i + 1]] >= used[bp];
    }
  }

  // ---------------------------------------------------------------- malloc, on values

  /** The whole block of node j goes to the caller. */
  lemma TakeWhole(m: Mem, l: seq<nat>, used: map<nat, nat>, arena: set<nat>, j: nat)
    requires HeapOk(m, l, used, arena) && Coalesced(m, l) && 0 < j < |l|
    ensures var n := m.(ptr := m.ptr[l[j - 1] := m.ptr[l[j]]]);
            HeapOk(n, Dropped(l, j), used[l[j] := m.size[l[j]]], arena) && Coalesced(n, Dropped(l, j))
  {
    var n, r, v := m.(ptr := m.ptr[l[j - 1] := m.ptr[l[j]]]), Dropped(l, j), used[l[j] := m.size[l[j]]];
    WholeShape(m, l, j);
    WholeApart(m, l, used, j);
    DroppedAt(l, j, 0);
    forall u
      ensures u in arena <==> Free(n, r, u) || InUse(v, u)
    {
      WholeUnits(m, l, used, j, u);
    }
  }

  lemma WholeShape(m: Mem, l: seq<nat>, j: nat)
    requires Linked(m, l) && Ordered(m, l) && Coalesced(m, l) && 0 < j < |l|
    ensures var n, r := m.(ptr := m.ptr[l[j - 1] := m.ptr[l[j]]]), Dropped(l, j);
            Linked(n, r) && Ordered(n, r) && Coalesced(n, r)
  {
    var n, r := m.(ptr := m.ptr[l[j - 1] := m.ptr[l[j]]]), Dropped(l, j);
    forall k | 0 <= k < |r|
      ensures r[k] in n.ptr && r[k] in n.size && n.ptr[r[k]] == Next(r, k)
    {
      WholeLinked(m, l, j, k);
    }
    WholeOrdered(m, l, j);
    forall k | 0 <= k < |r|
      ensures !Touch(n, r, k)
    {
      WholeTouch(m, l, j, k);
    }
  }

  lemma WholeOrdered(m: Mem, l: seq<nat>, j: nat)
    requires Linked(m, l) && Ordered(m, l) && 0 < j < |l|
             && Linked(m.(ptr := m.ptr[l[j - 1] := m.ptr[l[j]]]), Dropped(l, j))
    ensures Ordered(m.(ptr := m.ptr[l[j - 1] := m.ptr[l[j]]]), Dropped(l, j))
  {
    var r := Dropped(l, j);
    DroppedAt(l, j, 0);
    forall k | 1 <= k < |r|
      ensures m.size[r[k]] > 0 && r[0] < r[k]
    {
      DroppedAt(l, j, k);
    }
    forall i, k | 0 <= i < k < |r|
      ensures r[i] + m.size[r[i]] <= r[k] && r[i] < r[k]
    {
      DroppedAt(l, j, i);
      DroppedAt(l, j, k);
    }
  }

  lemma WholeTouch(m: Mem, l: seq<nat>, j: nat, k: nat)
    requires Linked(m, l) && Ordered(m, l) && Coalesced(m, l) && 0 < j < |l| && k < |l| - 1
    requires Linked(m.(ptr := m.ptr[l[j - 1] := m.ptr[l[j]]]), Dropped(l, j))
    ensures !Touch(m.(ptr := m.ptr[l[j - 1] := m.ptr[l[j]]]), Dropped(l, j), k)
  {
    DroppedAt(l, j, k);
    if k + 1 < |l| - 1 {
      DroppedAt(l, j, k + 1);
      assert !Touch(m, l, k) && !Touch(m, l, k + 1);
    }
  }

  lemma WholeApart(m: Mem, l: seq<nat>, used: map<nat, nat>, j: nat)
    requires Linked(m, l) && Ordered(m, l) && Live(m, used) && Apart(m, l, used) && 0 < j < |l|
    requires Linked(m.(ptr := m.ptr[l[j - 1] := m.ptr[l[j]]]), Dropped(l, j))
    ensures var n, v := m.(ptr := m.ptr[l[j - 1] := m.ptr[l[j]]]), used[l[j] := m.size[l[j]]];
            Live(n, v) && Apart(n, Dropped(l, j), v)
  {
    var n, r, v := m.(ptr := m.ptr[l[j - 1] := m.ptr[l[j]]]), Dropped(l, j), used[l[j] := m.size[l[j]]];
    forall k, a | 0 <= k < |r| && a in v
      ensures a != r[k] && (r[k] < a ==> r[k] + n.size[r[k]] <= a) && (a < r[k] ==> a + v[a] <= r[k])
    {
      DroppedAt(l, j, k);
    }
  }

  lemma WholeLinked(m: Mem, l: seq<nat>, j: nat, k: nat)
    requires Linked(m, l) && Ordered(m, l) && 0 < j < |l| && k < |l| - 1
    ensures var n, r := m.(ptr := m.ptr[l[j - 1] := m.ptr[l[j]]]), Dropped(l, j);
            r[k] in n.ptr && r[k] in n.size && n.ptr[r[k]] == Next(r, k)
  {
    DroppedAt(l, j, k);
    DroppedAt(l, j, if k + 1 < |l| - 1 then k + 1 else 0);
    assert m.ptr[l[k]] == Next(l, k) && m.ptr[l[j]] == Next(l, j) && m.ptr[l[k + 1]] == Next(l, k + 1);
  }

  lemma WholeUnits(m: Mem, l: seq<nat>, used: map<nat, nat>, j: nat, u: nat)
    requires Linked(m, l) && Ordered(m, l) && Apart(m, l, used) && 0 < j < |l|
    requires Linked(m.(ptr := m.ptr[l[j - 1] := m.ptr[l[j]]]), Dropped(l, j))
    ensures Free(m, l, u) || InUse(used, u) <==>
            Free(m.(ptr := m.ptr[l[j - 1] := m.ptr[l[j]]]), Dropped(l, j), u) || InUse(used[l[j] := m.size[l[j]]], u)
  {
    var n, r, v := m.(ptr := m.ptr[l[j - 1] := m.ptr[l[j]]]), Dropped(l, j), used[l[j] := m.size[l[j]]];
    UseMore(used, l[j], m.size[l[j]], u);
    if k :| 0 <= k < |l| && Covers(m, l[k], u) {
      if k != j {
        DroppedAt(l, j, if k < j then k else k - 1);
        assert Covers(n, l[k], u);
      }
    }
    if k :| 0 <= k < |r| && Covers(n, r[k], u) {
      DroppedAt(l, j, k);
      assert Covers(m, r[k], u);
    }
  }

  lemma UseMore(used: map<nat, nat>, q: nat, n: nat, u: nat)
    requires q !in used
    ensures InUse(used[q := n], u) <==> InUse(used, u) || q <= u < q + n
  {
    var v := used[q := n];
    if a :| a in used && a <= u < a + used[a] {
      assert a in v;
    }
    if a :| a in v && a <= u < a + v[a] {
      assert a != q ==> a in used;
    }
    if q <= u < q + n {
      assert q in v;
    }
  }

  /** The last n units of node j's larger block go to the caller. */
  function TailMem(m: Mem, p: nat, n: nat): Mem
    requires p in m.size && m.size[p] > n
  {
    m.(size := m.size[p := m.size[p] - n][p + m.size[p] - n := n])
  }

  lemma TakeTail(m: Mem, l: seq<nat>, used: map<nat, nat>, arena: set<nat>, j: nat, n: nat)
    requires HeapOk(m, l, used, arena) && Coalesced(m, l) && 0 < j < |l| && 0 < n < m.size[l[j]]
    ensures var q := l[j] + m.size[l[j]] - n;
            q !in used && HeapOk(TailMem(m, l[j], n), l, used[q := n], arena) && Coalesced(TailMem(m, l[j], n), l)
  {
    var t, q := TailMem(m, l[j], n), l[j] + m.size[l[j]] - n;
    TailShape(m, l, j, n);
    TailApart(m, l, used, j, n);
    forall u
      ensures u in arena <==> Free(t, l, u) || InUse(used[q := n], u)
    {
      TailUnits(m, l, used, j, n, u);
    }
  }

  lemma TailShape(m: Mem, l: seq<nat>, j: nat, n: nat)
    requires Linked(m, l) && Ordered(m, l) && Coalesced(m, l) && 0 < j < |l| && 0 < n < m.size[l[j]]
    ensures var t, q := TailMem(m, l[j], n), l[j] + m.size[l[j]] - n;
            && Linked(t, l) && Ordered(t, l) && Coalesced(t, l)
            && forall k ::
              0 <= k < |l| ==> q != l[k] && t.size[l[k]] == if k == j then m.size[l[j]] - n else m.size[l[k]]
  {
    var t, q := TailMem(m, l[j], n), l[j] + m.size[l[j]] - n;
    forall k | 0 <= k < |l|
      ensures q != l[k] && t.size[l[k]] == if k == j then m.size[l[j]] - n else m.size[l[k]]
    {
      assert k < j ==> l[k] < l[j];
      assert j < k ==> l[j] + m.size[l[j]] <= l[k];
    }
    forall k | 0 <= k < |l|
      ensures !Touch(t, l, k)
    {
      assert !Touch(m, l, k);
    }
  }

  lemma TailApart(m: Mem, l: seq<nat>, used: map<nat, nat>, j: nat, n: nat)
    requires Linked(m, l) && Ordered(m, l) && Live(m, used) && Apart(m, l, used) && 0 < j < |l| && 0 < n < m.size[l[j]]
    requires Linked(TailMem(m, l[j], n), l)
    requires var t, q := TailMem(m, l[j], n), l[j] + m.size[l[j]] - n;
             forall k :: 0 <= k < |l| ==> q != l[k] && t.size[l[k]] == if k == j then m.size[l[j]] - n else m.size[l[k]]
    ensures var t, q := TailMem(m, l[j], n), l[j] + m.size[l[j]] - n;
            q !in used && Live(t, used[q := n]) && Apart(t, l, used[q := n])
  {
    var t, q := TailMem(m, l[j], n), l[j] + m.size[l[j]] - n;
    forall a | a in used
      ensures a != l[j] && a != q && (a < q ==> a + used[a] <= q) && (q < a ==> q + n <= a)
    {
    }
    var v := used[q := n];
    forall k, a | 0 <= k < |l| && a in v
      ensures a != l[k] && (l[k] < a ==> l[k] + t.size[l[k]] <= a) && (a < l[k] ==> a + v[a] <= l[k])
    {
      if a == q {
        assert k < j ==> l[k] + m.size[l[k]] <= l[j];
        assert j < k ==> l[j] + m.size[l[j]] <= l[k];
      }
    }
  }

  lemma TailUnits(m: Mem, l: seq<nat>, used: map<nat, nat>, j: nat, n: nat, u: nat)
    requires Linked(m, l) && Ordered(m, l) && 0 < j < |l| && 0 < n < m.size[l[j]] && Linked(TailMem(m, l[j], n), l)
    requires var q := l[j] + m.size[l[j]] - n;
             q !in used && forall k ::
               0 <= k < |l| ==> TailMem(m, l[j], n).size[l[k]] == if k == j then m.size[l[j]] - n else m.size[l[k]]
    ensures var q := l[j] + m.size[l[j]] - n;
            Free(m, l, u) || InUse(used, u) <==> Free(TailMem(m, l[j], n), l, u) || InUse(used[q := n], u)
  {
    var t, q := TailMem(m, l[j], n), l[j] + m.size[l[j]] - n;
    UseMore(used, q, n, u);
    if k :| 0 <= k < |l| && Covers(m, l[k], u) {
      assert Covers(t, l[k], u) || q <= u < q + n;
    }
    if k :| 0 <= k < |l| && Covers(t, l[k], u) {
      assert Covers(m, l[k], u);
    }
    if q <= u < q + n {
      assert Covers(m, l[j], u);
    }
  }

  /** What sbrk gave lies above everything and is in use until it is freed. */
  lemma GrownOk(m: Mem, l: seq<nat>, used: map<nat, nat>, arena: set<nat>, hp: nat, nu: nat)
    requires HeapOk(m, l, used, arena) && Coalesced(m, l) && l[0] < hp && nu > 0 && forall u :: u in arena ==> u < hp
    ensures var n := m.(size := m.size[hp := nu]);
            && hp !in used && HeapOk(n, l, used[hp := nu], arena + Units(hp, nu)) && Coalesced(n, l)
            && forall k :: 0 <= k < |l| ==> l[k] < hp
  {
    var n, v := m.(size := m.size[hp := nu]), used[hp := nu];
    AllBelow(m, l, used, arena, hp);
    GrownShape(m, l, hp, nu);
    GrownApart(m, l, used, hp, nu);
    forall u
      ensures u in arena + Units(hp, nu) <==> Free(n, l, u) || InUse(v, u)
    {
      UseMore(used, hp, nu, u);
      SameFree(m, n, l, u);
    }
  }

  lemma GrownShape(m: Mem, l: seq<nat>, hp: nat, nu: nat)
    requires Linked(m, l) && Ordered(m, l) && Coalesced(m, l) && forall k :: 0 <= k < |l| ==> l[k] < hp
    ensures var n := m.(size := m.size[hp := nu]);
            Linked(n, l) && Ordered(n, l) && Coalesced(n, l) && forall k ::
              0 <= k < |l| ==> n.size[l[k]] == m.size[l[k]]
  {
    var n := m.(size := m.size[hp := nu]);
    assert forall k :: 0 <= k < |l| ==> n.size[l[k]] == m.size[l[k]];
    forall k | 0 <= k < |l|
      ensures !Touch(n, l, k)
    {
      assert !Touch(m, l, k);
    }
  }

  lemma GrownApart(m: Mem, l: seq<nat>, used: map<nat, nat>, hp: nat, nu: nat)
    requires Linked(m, l) && Live(m, used) && Apart(m, l, used) && nu > 0
    requires forall k :: 0 <= k < |l| ==> l[k] < hp && l[k] + m.size[l[k]] <= hp
    requires forall a :: a in used ==> a < hp && a + used[a] <= hp
    requires Linked(m.(size := m.size[hp := nu]), l)
    ensures var n := m.(size := m.size[hp := nu]); Live(n, used[hp := nu]) && Apart(n, l, used[hp := nu])
  {
  }

  lemma SameFree(m: Mem, n: Mem, l: seq<nat>, u: nat)
    requires Linked(m, l) && Linked(n, l) && forall k :: 0 <= k < |l| ==> n.size[l[k]] == m.size[l[k]]
    ensures Free(n, l, u) <==> Free(m, l, u)
  {
    assert forall k :: 0 <= k < |l| ==> Covers(n, l[k], u) == Covers(m, l[k], u);
  }

  lemma AllBelow(m: Mem, l: seq<nat>, used: map<nat, nat>, arena: set<nat>, hp: nat)
    requires HeapOk(m, l, used, arena) && l[0] < hp && forall u :: u in arena ==> u < hp
    ensures forall k :: 0 <= k < |l| ==> l[k] < hp && l[k] + m.size[l[k]] <= hp
    ensures forall a :: a in used ==> a < hp && a + used[a] <= hp
  {
    forall k | 0 <= k < |l|
      ensures l[k] < hp && l[k] + m.size[l[k]] <= hp
    {
      if k > 0 {
        assert Covers(m, l[k], l[k]) && Covers(m, l[k], l[k] + m.size[l[k]] - 1);
        assert Free(m, l, l[k]) && Free(m, l, l[k] + m.size[l[k]] - 1);
      }
    }
    forall a | a in used
      ensures a < hp && a + used[a] <= hp
    {
      assert InUse(used, a) && InUse(used, a + used[a] - 1);
    }
  }

  // ---------------------------------------------------------------- the allocator

  /** Some free block has n units. */
  ghost predicate Fit(m: Mem, l: seq<nat>, n: nat)
    requires l != [] ==> Linked(m, l)
  {
    exists i :: 0 <= i < |l| && m.size[l[i]] >= n
  }

  /** Position x on the circle. */
  function Wrap(x: nat, n: nat): nat
    requires x < 2 * n
  {
    if x < n then x else x - n
  }

  lemma {:induction false} PlaceOf(l: seq<nat>, bp: nat, k: nat) returns (t: nat)
    requires 0 < k <= |l| && l[0] < bp && bp !in l && (k < |l| ==> bp < l[k])
    requires forall i, j :: 0 <= i < j < |l| ==> l[i] < l[j]
    ensures Place(l, t, bp)
  {
    if l[k - 1] < bp { t := k - 1; } else { t := PlaceOf(l, bp, k - 1); }
  }

  /** From node k the walk stops exactly at bp's place. */
  lemma StopsAt(m: Mem, l: seq<nat>, k: nat, bp: nat)
    requires Linked(m, l) && Ordered(m, l) && k < |l| && l[0] < bp
    ensures var p, q := l[k], m.ptr[l[k]];
            (bp > p && bp < q) || (p >= q && (bp > p || bp < q)) <==> Place(l, k, bp)
  {
    assert m.ptr[l[k]] == Next(l, k);
  }

  /** The headers after free's first if statement. */
  ghost function UpMem(m: Mem, l: seq<nat>, i: nat, bp: nat): Mem
    requires Linked(m, l) && i < |l| && bp in m.size
  {
    if Up(m, l, i, bp) then Mem(m.ptr[bp := m.ptr[l[i + 1]]], m.size[bp := m.size[bp] + m.size[l[i + 1]]])
    else m.(ptr := m.ptr[bp := Next(l, i)])
  }

  /** Free's two if statements write the headers of FreedMem. */
  lemma FreedIs(m: Mem, l: seq<nat>, i: nat, bp: nat)
    requires Linked(m, l) && Ordered(m, l) && Place(l, i, bp) && bp in m.size && m.size[bp] > 0
    ensures var m1 := UpMem(m, l, i, bp);
            FreedMem(m, l, i, bp) ==
            if Down(m, l, i, bp) then Mem(m1.ptr[l[i] := m1.ptr[bp]], m1.size[l[i] := m1.size[l[i]] + m1.size[bp]])
            else m1.(ptr := m1.ptr[l[i] := bp])
  {
    assert Up(m, l, i, bp) ==> l[i + 1] != bp && l[i + 1] != l[i];
  }

  /** The state of the heap between calls; freep is a node of the list. */
  ghost predicate Sound(m: Mem, l: seq<nat>, used: map<nat, nat>, arena: set<nat>, freep: nat) {
    && Linked(m, l)
    && forall k {:trigger Look(k)} :: Look(k) ==> HeapOk(m, l, used, arena) && Coalesced(m, l) && freep in l
  }

  lemma SoundMeans(m: Mem, l: seq<nat>, used: map<nat, nat>, arena: set<nat>, freep: nat)
    requires Sound(m, l, used, arena, freep)
    ensures HeapOk(m, l, used, arena) && Coalesced(m, l) && freep in l
  {
    assert Look(0);
  }

  lemma BaseFirst(m: Mem, l: seq<nat>, i: nat)
    requires Linked(m, l) && Ordered(m, l) && i < |l|
    ensures l[0] <= l[i]
  {
  }

  /** free, as a whole. */
  lemma FreedSound(m: Mem, l: seq<nat>, used: map<nat, nat>, arena: set<nat>, freep: nat, i: nat, bp: nat)
    requires Sound(m, l, used, arena, freep) && Place(l, i, bp) && bp in used
    ensures bp in m.size && m.size[bp] > 0 && Ordered(m, l)
    ensures var n, r := FreedMem(m, l, i, bp), FreedList(m, l, i, bp);
            Sound(n, r, used - {bp}, arena, l[i]) && r[0] == l[0] && Fit(n, r, used[bp])
  {
    SoundMeans(m, l, used, arena, freep);
    FreedOk(m, l, used, arena, i, bp);
    assert FreedList(m, l, i, bp)[i] == l[i];
  }

  lemma TookWhole(m: Mem, l: seq<nat>, used: map<nat, nat>, arena: set<nat>, freep: nat, j: nat)
    requires Sound(m, l, used, arena, freep) && 0 < j < |l|
    ensures l[j] !in used && Dropped(l, j)[0] == l[0] < l[j] && l[0] <= l[j - 1] && m.ptr[l[j]] == Next(l, j)
    ensures Sound(m.(ptr := m.ptr[l[j - 1] := m.ptr[l[j]]]), Dropped(l, j), used[l[j] := m.size[l[j]]], arena, l[j - 1])
  {
    SoundMeans(m, l, used, arena, freep);
    TakeWhole(m, l, used, arena, j);
    DroppedAt(l, j, j - 1);
    DroppedAt(l, j, 0);
    BaseFirst(m, l, j - 1);
    assert Dropped(l, j)[j - 1] == l[j - 1];
  }

  lemma TookTail(m: Mem, l: seq<nat>, used: map<nat, nat>, arena: set<nat>, freep: nat, j: nat, n: nat)
    requires Sound(m, l, used, arena, freep) && 0 < j < |l| && 0 < n < m.size[l[j]]
    ensures var q := l[j] + m.size[l[j]] - n;
            q !in used && l[0] <= l[j - 1] && Sound(TailMem(m, l[j], n), l, used[q := n], arena, l[j - 1])
  {
    SoundMeans(m, l, used, arena, freep);
    TakeTail(m, l, used, arena, j, n);
    BaseFirst(m, l, j - 1);
  }

  lemma GrownSound(m: Mem, l: seq<nat>, used: map<nat, nat>, arena: set<nat>, freep: nat, hp: nat, nu: nat)
    requires Sound(m, l, used, arena, freep) && l[0] < hp && nu > 0 && forall u :: u in arena ==> u < hp
    ensures hp !in used && Sound(m.(size := m.size[hp := nu]), l, used[hp := nu], arena + Units(hp, nu), freep)
  {
    SoundMeans(m, l, used, arena, freep);
    GrownOk(m, l, used, arena, hp, nu);
  }

  lemma StartSound(m: Mem, base: nat)
    requires base in m.ptr && base in m.size && m.ptr[base] == base && m.size[base] == 0
    ensures Sound(m, [base], map[], {}, base)
  {
  }

  /** The node t steps behind the one after node f. */
  function Ahead(l: seq<nat>, f: nat, t: nat): nat
    requires f < |l| && t < |l|
  {
    l[Wrap(f + 1 + t, |l|)]
  }

  /** malloc has looked at s nodes from the one behind node f on, and none has n units. */
  ghost predicate Looked(m: Mem, l: seq<nat>, f: nat, s: nat, n: nat)
    requires Linked(m, l)
  {
    f < |l| && s <= |l| && forall t :: 0 <= t < s ==> m.size[Ahead(l, f, t)] < n
  }

  lemma LookedMore(m: Mem, l: seq<nat>, f: nat, s: nat, n: nat)
    requires Linked(m, l) && Looked(m, l, f, s, n) && s < |l| && m.size[Ahead(l, f, s)] < n
    ensures Looked(m, l, f, s + 1, n)
  {
  }

  /** A full round without success means that no free block is large enough. */
  lemma LookedAtAll(m: Mem, l: seq<nat>, f: nat, n: nat)
    requires Linked(m, l) && Looked(m, l, f, |l|, n)
    ensures !Fit(m, l, n)
  {
    forall i | 0 <= i < |l|
      ensures m.size[l[i]] < n
    {
      var t := if i > f then i - f - 1 else i - f - 1 + |l|;
      assert l[i] == Ahead(l, f, t);
    }
  }

  /** The walk comes back to node f after a full round and not before; behind every node but base is the one below it.
      */
  lemma AheadIs(m: Mem, l: seq<nat>, f: nat, s: nat)
    requires Linked(m, l) && Ordered(m, l) && f < |l| && s < |l|
    ensures Ahead(l, f, s) == l[f] <==> s == |l| - 1
    ensures s + 1 < |l| ==> m.ptr[Ahead(l, f, s)] == Ahead(l, f, s + 1)
    ensures m.ptr[l[f]] == Ahead(l, f, 0)
  {
    var k := Wrap(f + 1 + s, |l|);
    assert m.ptr[l[k]] == Next(l, k) && m.ptr[l[f]] == Next(l, f);
    assert k < f ==> l[k] < l[f];
    assert k > f ==> l[f] < l[k];
  }

  /** What malloc's loop relies on at each step. */
  lemma Walk(m: Mem, l: seq<nat>, used: map<nat, nat>, arena: set<nat>, freep: nat, f: nat, s: nat)
    requires Sound(m, l, used, arena, freep) && f < |l| && s < |l| && freep == l[f]
    ensures freep in m.ptr && m.ptr[freep] == Ahead(l, f, 0)
    ensures var p := Ahead(l, f, s);
            && p in m.ptr && p in m.size && (p == freep <==> s == |l| - 1)
            && (s + 1 < |l| ==> m.ptr[p] == Ahead(l, f, s + 1))
            && (m.size[p] > 0 ==> Wrap(f + 1 + s, |l|) > 0)
  {
    SoundMeans(m, l, used, arena, freep);
    AheadIs(m, l, f, s);
  }

  lemma WhereIs(m: Mem, l: seq<nat>, used: map<nat, nat>, arena: set<nat>, freep: nat) returns (f: nat)
    requires Sound(m, l, used, arena, freep)
    ensures f < |l| && l[f] == freep && freep in m.ptr && m.ptr[freep] == Ahead(l, f, 0)
  {
    SoundMeans(m, l, used, arena, freep);
    f :| 0 <= f < |l| && l[f] == freep;
    AheadIs(m, l, f, 0);
  }

  /** What the loop of free relies on at node k. */
  lemma AtNode(m: Mem, l: seq<nat>, used: map<nat, nat>, arena: set<nat>, freep: nat, k: nat, bp: nat)
    requires Sound(m, l, used, arena, freep) && k < |l| && bp in used
    ensures l[k] in m.ptr && m.ptr[l[k]] == Next(l, k)
    ensures var p, q := l[k], m.ptr[l[k]];
            (bp > p && bp < q) || (p >= q && (bp > p || bp < q)) <==> Place(l, k, bp)
  {
    SoundMeans(m, l, used, arena, freep);
    StopsAt(m, l, k, bp);
  }

  lemma SomePlace(m: Mem, l: seq<nat>, used: map<nat, nat>, arena: set<nat>, freep: nat, bp: nat) returns (t: nat)
    requires Sound(m, l, used, arena, freep) && bp in used
    ensures Place(l, t, bp)
  {
    SoundMeans(m, l, used, arena, freep);
    t := PlaceOf(l, bp, |l|);
  }

  class Heap {
    const base: nat
    var ptr: map<nat, nat>
    var size: map<nat, nat>
    var freep: nat
    ghost var list: seq<nat>
    ghost var used: map<nat, nat>
    ghost var arena: set<nat>
    ghost var given: set<nat>

    ghost function Headers(): Mem
      reads this
    {
      Mem(ptr, size)
    }

    /** Before the first call nothing is set up; afterwards the list is a coalesced circle through base. */
    ghost predicate Valid()
      reads this
    {
      && base > 0
      && if freep == 0 then list == [] && used == map[] && arena == {}
         else Sound(Headers(), list, used, arena, freep) && list[0] == base
    }

    /** Every unit the allocator manages is memory the process has from sbrk. */
    ghost predicate Real()
      reads this
    {
      arena <= given
    }

    constructor (at: nat)
      requires at > 0
      ensures Valid() && Real() && base == at && freep == 0
    {
      base := at;
      ptr, size, freep, list, used, arena, given := map[], map[], 0, [], map[], {}, {};
    }

    /** free's loop: the node to put bp behind. */
    method FindPlace(bp: nat) returns (p: nat, ghost i: nat)
      requires Valid() && bp in used
      ensures i < |list| && p == list[i] && Place(list, i, bp)
    {
      ghost var t := SomePlace(Headers(), list, used, arena, freep, bp);
      p := freep;
      i := WhereIs(Headers(), list, used, arena, freep);
      AtNode(Headers(), list, used, arena, freep, i, bp);
      while !(bp > p && bp < ptr[p])
        invariant 0 <= i < |list| && p == list[i] && p in ptr && ptr[p] == Next(list, i)
        invariant (bp > p && bp < ptr[p]) || (p >= ptr[p] && (bp > p || bp < ptr[p])) <==> Place(list, i, bp)
        decreases if i <= t then t - i else |list| - i + t
      {
        if p >= ptr[p] && (bp > p || bp < ptr[p]) { break; }
        p := ptr[p];
        i := if i + 1 < |list| then i + 1 else 0;
        AtNode(Headers(), list, used, arena, freep, i, bp);
      }
    }

    /** Free's first if statement: bp takes in the block above it. */
    method JoinUp(bp: nat, p: nat, ghost i: nat)
      requires Linked(Headers(), list) && Ordered(Headers(), list) && Place(list, i, bp) && p == list[i] && bp in size
               && size[bp] > 0
      modifies this`ptr, this`size
      ensures Headers() == UpMem(old(Headers()), list, i, bp)
    {
      ghost var m := Headers();
      assert ptr[p] == Next(list, i) && list[0] <= list[i];
      if bp + size[bp] == ptr[p] {
        var q := ptr[p];
        size := size[bp := size[bp] + size[q]];
        ptr := ptr[bp := ptr[q]];
      } else {
        ptr := ptr[bp := ptr[p]];
      }
    }

    /** Both if statements of free. */
    method Join(bp: nat, p: nat, ghost i: nat)
      requires Linked(Headers(), list) && Ordered(Headers(), list) && Place(list, i, bp) && p == list[i] && bp in size
               && size[bp] > 0
      modifies this`ptr, this`size
      ensures Headers() == FreedMem(old(Headers()), list, i, bp)
    {
      FreedIs(Headers(), list, i, bp);
      JoinUp(bp, p, i);
      if p + size[p] == bp {
        size := size[p := size[p] + size[bp]];
        ptr := ptr[p := ptr[bp]];
      } else {
        ptr := ptr[p := bp];
      }
    }

    /** free: the block's units are free again, merged with the free blocks they touch. */
    method Free(ap: nat)
      requires Valid() && ap > 0 && ap - 1 in used
      modifies this
      ensures Valid() && freep != 0 && used == old(used) - {ap - 1} && arena == old(arena) && given == old(given)
      ensures Fit(Headers(), list, old(used)[ap - 1])
    {
      var p, i := FindPlace(ap - 1);
      FreedSound(Headers(), list, used, arena, freep, i, ap - 1);
      ghost var m, l := Headers(), list;
      Join(ap - 1, p, i);
      list := FreedList(m, l, i, ap - 1);
      freep := p;
      used := used - {ap - 1};
      BaseFirst(m, l, i);
    }

    /** Node j, behind prevp, has n units: the caller gets the whole block or its tail. */
    method Take(prevp: nat, p: nat, n: nat, ghost j: nat) returns (q: nat)
      requires Valid() && freep != 0 && 0 < j < |list| && p == list[j] && prevp == list[j - 1] && 0 < n <= size[p]
      modifies this
      ensures Valid() && freep != 0 && arena == old(arena) && given == old(given) && q !in old(used)
              && used == old(used)[q := n]
    {
      if size[p] == n {
        q := p;
        Unlink(prevp, p, j);
      } else {
        q := CutTail(prevp, p, n, j);
      }
      freep := prevp;
    }

    method Unlink(prevp: nat, p: nat, ghost j: nat)
      requires Valid() && freep != 0 && 0 < j < |list| && p == list[j] && prevp == list[j - 1]
      modifies this`ptr, this`list, this`used
      ensures Sound(Headers(), list, used, arena, prevp) && list[0] == base && prevp > 0
      ensures p !in old(used) && used == old(used)[p := size[p]]
    {
      ghost var m := Headers();
      TookWhole(m, list, used, arena, freep, j);
      ptr := ptr[prevp := ptr[p]];
      used := used[p := size[p]];
      assert Headers() == m.(ptr := m.ptr[prevp := m.ptr[p]]);
      list := Dropped(list, j);
    }

    method CutTail(prevp: nat, p: nat, n: nat, ghost j: nat) returns (q: nat)
      requires Valid() && freep != 0 && 0 < j < |list| && p == list[j] && prevp == list[j - 1] && 0 < n < size[p]
      modifies this`size, this`used
      ensures Sound(Headers(), list, used, arena, prevp) && prevp > 0
      ensures q !in old(used) && used == old(used)[q := n]
    {
      ghost var m := Headers();
      TookTail(m, list, used, arena, freep, j, n);
      size := size[p := size[p] - n];
      q := p + size[p];
      size := size[q := n];
      used := used[q := n];
      assert Headers() == TailMem(m, p, n);
    }

    /**
     morecore: at least 4096 units at brk, the break that sbrk returns, become free.  They
     are units that sbrk gave exactly while their number of bytes is a positive int.
     */
    method Morecore(nu: nat, brk: Option<nat>) returns (r: Option<nat>)
      requires Valid() && freep != 0 && nu > 0
      requires brk.Some? ==> base < brk.value && forall u :: u in arena ==> u < brk.value
      modifies this
      ensures brk.None? ==> r.None? && unchanged(this)
      ensures brk.Some? ==>
              && r == Some(freep) && Valid() && freep != 0 && used == old(used)
              && arena == old(arena) + Units(brk.value, AtLeast4096(nu)) && Fit(Headers(), list, nu)
              && given == AfterSbrk(old(given), brk.value, AtLeast4096(nu))
      ensures brk.Some? && nu <= 0x2000_0000 && (forall u :: u in old(given) ==> u < brk.value) ==>
              (Units(brk.value, AtLeast4096(nu)) <= given <==> nu < 0x1000_0000)
    {
      if brk.None? { return None; }
      var hp := brk.value;
      var n := AtLeast4096(nu);
      GrownSound(Headers(), list, used, arena, freep, hp, n);
      ghost var u := used;
      size := size[hp := n];
      used := used[hp := n];
      arena := arena + Units(hp, n);
      if n <= 0x2000_0000 { GrantCovers(given, hp, n); }
      given := AfterSbrk(given, hp, n);
      Free(hp + 1);
      assert u[hp := n] - {hp} == u;
      r := Some(freep);
    }

    /**
     malloc's loop, which ends because morecore leaves a block that is large enough.
     It asks sbrk exactly if no free block is.
     */
    method Search(n: nat, brk: Option<nat>) returns (r: Option<nat>)
      requires Valid() && freep != 0 && n > 0
      requires brk.Some? ==> base < brk.value && forall u :: u in arena ==> u < brk.value
      modifies this
      ensures Valid() && freep != 0
      ensures r.None? <==> !old(Fit(Headers(), list, n)) && brk.None?
      ensures r.None? ==> unchanged(this)
      ensures r.Some? ==> r.value > 0 && r.value - 1 !in old(used) && used == old(used)[r.value - 1 := n]
      ensures r.Some? ==> arena == if old(Fit(Headers(), list, n)) then old(arena)
                                   else old(arena) + Units(brk.value, AtLeast4096(n))
      ensures r.Some? ==> given == if old(Fit(Headers(), list, n)) then old(given)
                                   else AfterSbrk(old(given), brk.value, AtLeast4096(n))
    {
      var prevp := freep;
      ghost var s, grown := 0, false;
      ghost var f := WhereIs(Headers(), list, used, arena, freep);
      var p := ptr[prevp];
      while true
        invariant Valid() && freep != 0 && 0 <= f < |list| && freep == list[f] && 0 <= s < |list|
        invariant p == Ahead(list, f, s) && prevp == list[Wrap(f + s, |list|)] && Looked(Headers(), list, f, s, n)
        invariant !grown ==> unchanged(this)
        invariant grown ==> !old(Fit(Headers(), list, n)) && brk.Some? && used == old(used) && Fit(Headers(), list, n)
        invariant grown ==> arena == old(arena) + Units(brk.value, AtLeast4096(n))
        invariant grown ==> given == AfterSbrk(old(given), brk.value, AtLeast4096(n))
        decreases !grown, |list| - s
      {
        Walk(Headers(), list, used, arena, freep, f, s);
        if size[p] >= n {
          var q := Take(prevp, p, n, Wrap(f + 1 + s, |list|));
          return Some(q + 1);
        }
        LookedMore(Headers(), list, f, s, n);
        if p == freep {
          LookedAtAll(Headers(), list, f, n);
          var more := Morecore(n, brk);
          if more.None? { return None; }
          p, grown, s := more.value, true, 0;
          f := WhereIs(Headers(), list, used, arena, freep);
        } else {
          s := s + 1;
        }
        prevp, p := p, ptr[p];
      }
    }

    /** Before the first search: base alone is the list. */
    method Start()
      requires Valid()
      modifies this
      ensures Valid() && freep != 0 && used == old(used) && arena == old(arena) && given == old(given)
      ensures old(freep) != 0 ==> unchanged(this)
      ensures old(freep) == 0 ==> list == [base] && size[base] == 0
    {
      if freep == 0 {
        ptr, size := ptr[base := base], size[base := 0];
        freep := base;
        list := [base];
        StartSound(Headers(), base);
      }
    }

    /**
     malloc: a live block of its own, or nothing exactly if no free block is large
     enough and sbrk refuses.  The bytes asked for fit in it unless their number wraps.
     What the allocator manages stays memory the process has exactly if sbrk need not be
     asked, refuses, or is asked for less than 2^28 units.
     */
    method Malloc(nbytes: nat, brk: Option<nat>) returns (r: Option<nat>)
      requires Valid() && nbytes < 0x1_0000_0000
      requires brk.Some? ==> base < brk.value && forall u :: u in arena || u in given ==> u < brk.value
      modifies this
      ensures Valid()
      ensures r.None? <==> !old(Fit(Headers(), list, UnitsFor(nbytes))) && brk.None?
      ensures r.None? ==> used == old(used) && arena == old(arena) && given == old(given)
      ensures r.Some? ==>
              && r.value > 0 && r.value - 1 !in old(used) && used == old(used)[r.value - 1 := UnitsFor(nbytes)]
              && (8 * (used[r.value - 1] - 1) >= nbytes <==> nbytes < 0xFFFF_FFF9)
      ensures r.Some? ==> arena == if old(Fit(Headers(), list, UnitsFor(nbytes))) then old(arena)
                                   else old(arena) + Units(brk.value, AtLeast4096(UnitsFor(nbytes)))
      ensures old(Real()) ==>
              (Real() <==> old(Fit(Headers(), list, UnitsFor(nbytes))) || brk.None? || UnitsFor(nbytes) < 0x1000_0000)
    {
      var n := (nbytes + 7) % 0x1_0000_0000 / 8 + 1;
      UnitsSuffice(nbytes);
      Start();
      if brk.Some? { GrantCovers(given, brk.value, AtLeast4096(n)); }
      r := Search(n, brk);
    }
  }

  /** The 32-bit expression that turns bytes into units, one of them for the header. */
  function UnitsFor(nbytes: nat): (n: nat)
    ensures n > 0
  {
    (nbytes + 7) % 0x1_0000_0000 / 8 + 1
  }

  /** The units behind the header hold the bytes asked for exactly if the sum above does not wrap. */
  lemma UnitsSuffice(nbytes: nat)
    requires nbytes < 0x1_0000_0000
    ensures 8 * (UnitsFor(nbytes) - 1) >= nbytes <==> nbytes < 0xFFFF_FFF9
  {
    assert nbytes + 7 < 0x1_0000_0000 ==> (nbytes + 7) % 0x1_0000_0000 == nbytes + 7;
    assert nbytes + 7 >= 0x1_0000_0000 ==> (nbytes + 7) % 0x1_0000_0000 == nbytes + 7 - 0x1_0000_0000;
  }

  /** One such request, for which the block has a header and nothing behind it. */
  lemma UnitsTooFew()
    ensures UnitsFor(0xFFFF_FFFF) == 1
  {
  }

  /** The int that morecore passes to sbrk for nu units: a 32-bit product taken as signed. */
  function SbrkArg(nu: nat): int {
    var bytes := 8 * nu % 0x1_0000_0000;
    if bytes < 0x8000_0000 then bytes else bytes - 0x1_0000_0000
  }

  /** The memory a process has after sbrk at break b: more, or less, or the same where the new size would be negative.
      */
  ghost function AfterSbrk(given: set<nat>, b: nat, nu: nat): set<nat> {
    var arg := SbrkArg(nu);
    if arg > 0 then given + Units(b, arg / 8)
    else if 8 * b + arg >= 0 then set u | u in given && 8 * u + 8 <= 8 * b + arg
    else given
  }

  /** sbrk gives the nu units exactly if their bytes are a positive int; otherwise it gives none of them. */
  lemma GrantCovers(given: set<nat>, b: nat, nu: nat)
    requires 0 < nu <= 0x2000_0000
    ensures nu < 0x1000_0000 ==> AfterSbrk(given, b, nu) == given + Units(b, nu)
    ensures nu >= 0x1000_0000 ==> AfterSbrk(given, b, nu) <= given && b in Units(b, nu)
    ensures (forall u :: u in given ==> u < b) ==> (Units(b, nu) <= AfterSbrk(given, b, nu) <==> nu < 0x1000_0000)
  {
    assert nu < 0x1000_0000 ==> SbrkArg(nu) == 8 * nu;
    assert nu >= 0x1000_0000 ==> SbrkArg(nu) <= 0;
    assert b in Units(b, nu);
  }

  /** Which requests reach 2^28 units. */
  lemma HugeRequests(nbytes: nat)
    requires nbytes < 0x1_0000_0000
    ensures UnitsFor(nbytes) < 0x1000_0000 <==> nbytes < 0x7FFF_FFF1 || nbytes >= 0xFFFF_FFF9
  {
    assert nbytes + 7 < 0x1_0000_0000 ==> (nbytes + 7) % 0x1_0000_0000 == nbytes + 7;
    assert nbytes + 7 >= 0x1_0000_0000 ==> (nbytes + 7) % 0x1_0000_0000 == nbytes + 7 - 0x1_0000_0000;
  }

  /** The smallest of them: sbrk is asked to shrink the process by 2 GB, and 2^28 units are recorded at its break. */
  lemma HugeRequest(given: set<nat>, b: nat)
    ensures UnitsFor(0x7FFF_FFF1) == 0x1000_0000 && SbrkArg(0x1000_0000) == -0x8000_0000
    ensures AfterSbrk(given, b, 0x1000_0000) <= given
  {
  }

  /** Units that morecore asks sbrk for. */
  function AtLeast4096(nu: nat): (n: nat)
    ensures n >= nu && n >= 4096 && (n == nu || n == 4096)
  {
    if nu < 4096 then 4096 else nu
  }

  // ---------------------------------------------------------------- the list is determined

  ghost predicate Canonical(m: Mem, l: seq<nat>) {
    Linked(m, l) && Ordered(m, l) && Coalesced(m, l)
  }

  /** Two coalesced lists with the same base and the same free units agree on every node and every size. */
  lemma {:induction false} FreeListDetermined(m: Mem, l: seq<nat>, n: Mem, r: seq<nat>, i: nat)
    requires Canonical(m, l) && Canonical(n, r) && l[0] == r[0] && forall u :: Free(m, l, u) <==> Free(n, r, u)
    ensures i < |l| <==> i < |r|
    ensures i < |l| ==> l[i] == r[i] && m.size[l[i]] == n.size[r[i]]
  {
    if i > 0 {
      FreeListDetermined(m, l, n, r, i - 1);
      if i < |l| { Reaches(m, l, n, r, i); }
      if i < |r| { Reaches(n, r, m, l, i); }
      if i < |l| { EndsNoLater(m, l, n, r, i); EndsNoLater(n, r, m, l, i); }
    }
  }

  lemma Reaches(m: Mem, l: seq<nat>, n: Mem, r: seq<nat>, i: nat)
    requires Canonical(m, l) && Canonical(n, r) && forall u :: Free(m, l, u) <==> Free(n, r, u)
    requires 0 < i < |l| && i <= |r| && l[i - 1] == r[i - 1]
    ensures i < |r| && r[i] <= l[i]
  {
    var a := l[i];
    assert Covers(m, l[i], a) && Free(m, l, a);
    var k :| 0 <= k < |r| && Covers(n, r[k], a);
    BeforeStart(m, l, i);
    assert !Free(n, r, a - 1);
    assert !Covers(n, r[k], a - 1);
    assert r[k] == a && r[i - 1] < a;
  }

  /** The unit before a free block is not free. */
  lemma BeforeStart(m: Mem, l: seq<nat>, i: nat)
    requires Canonical(m, l) && 0 < i < |l|
    ensures l[i] > 0 && !Free(m, l, l[i] - 1)
  {
    assert l[0] < l[i] && !Touch(m, l, i - 1);
    forall j | 0 <= j < |l|
      ensures !Covers(m, l[j], l[i] - 1)
    {
      if j < i - 1 { assert l[j] + m.size[l[j]] <= l[i - 1]; }
    }
  }

  /** The unit behind a free block is not free. */
  lemma BehindEnd(m: Mem, l: seq<nat>, i: nat)
    requires Canonical(m, l) && 0 < i < |l|
    ensures !Free(m, l, l[i] + m.size[l[i]])
  {
    assert !Touch(m, l, i);
    forall j | 0 <= j < |l|
      ensures !Covers(m, l[j], l[i] + m.size[l[i]])
    {
      if j > i + 1 { assert l[i + 1] < l[j]; }
    }
  }

  lemma EndsNoLater(m: Mem, l: seq<nat>, n: Mem, r: seq<nat>, i: nat)
    requires Canonical(m, l) && Canonical(n, r) && (forall u :: Free(m, l, u) <==> Free(n, r, u))
    requires 0 < i < |l| && i < |r| && l[i] == r[i]
    ensures n.size[r[i]] <= m.size[l[i]]
  {
    BehindEnd(m, l, i);
    var u := l[i] + m.size[l[i]];
    assert !Free(n, r, u);
    assert !Covers(n, r[i], u);
  }
}
