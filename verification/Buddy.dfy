/**
 The buddy allocator (source/buddy.c): per order an array of 32-block bitmaps whose
 non-empty entries are threaded on a doubly linked list of packed 16-bit indexes,
 with recursive splitting and merging.  A bitmap is the set of its one bits, and
 addresses are offsets into the heap counted in 64-byte units.
 */
module Buddy {
  import opened Division
  import opened Wrappers
  import opened BuddyTiling
  import opened Counting
  import opened Folding

  const NIL: nat := 0xFFFF

  // ---------------------------------------------------------------- packed links

  /** LNKS: two indexes in one 32-bit word. */
  function Lnks(pre: nat, next: nat): nat {
    (pre * 0x1_0000) % 0x1_0000_0000 + next % 0x1_0000
  }

  function PreLnk(w: nat): nat { w / 0x1_0000 }

  function NextLnk(w: nat): nat { w % 0x1_0000 }

  /** The packing keeps both indexes exactly when each fits 16 bits. */
  lemma LinksFaithful(pre: nat, next: nat)
    ensures PreLnk(Lnks(pre, next)) == pre && NextLnk(Lnks(pre, next)) == next <==> pre < 0x1_0000 && next < 0x1_0000
  {
    var a, b := pre % 0x1_0000, next % 0x1_0000;
    assert (pre * 0x1_0000) % 0x1_0000_0000 == a * 0x1_0000;
    assert PreLnk(Lnks(pre, next)) == a && NextLnk(Lnks(pre, next)) == b;
  }

  // ---------------------------------------------------------------- one order

  datatype Mark = Mark(lnks: nat, bitmap: set<nat>)
  datatype Order = Order(head: nat, marks: seq<Mark>)

  predicate Avail(o: Order, id: nat) {
    id / 32 < |o.marks| && id % 32 in o.marks[id / 32].bitmap
  }

  function Nth(l: seq<nat>, i: int): nat {
    if 0 <= i < |l| then l[i] else NIL
  }

  /** The list threads exactly the marks that are not empty, from head to NIL and back. */
  ghost predicate ListOk(o: Order, l: seq<nat>) {
    && |o.marks| <= NIL && NoRepeats(l)
    && (forall i :: 0 <= i < |l| ==> l[i] < |o.marks|)
    && o.head == Nth(l, 0)
    && (forall i {:trigger o.marks[l[i]]} :: 0 <= i < |l| ==> o.marks[l[i]].lnks == Lnks(Nth(l, i - 1), Nth(l, i + 1)))
    && (forall m :: 0 <= m < |o.marks| ==> (o.marks[m].bitmap != {} <==> m in l))
    && (forall m :: 0 <= m < |o.marks| ==> forall x :: x in o.marks[m].bitmap ==> 0 <= x < 32)
  }

  lemma NthFits(o: Order, l: seq<nat>, i: int)
    requires ListOk(o, l)
    ensures Nth(l, i) < 0x1_0000 && (Nth(l, i) == NIL <==> !(0 <= i < |l|))
  {
    if 0 <= i < |l| { assert l[i] < |o.marks|; }
  }

  /** mark_blk: sets the bit, and puts a mark that was empty at the head of the list. */
  method MarkBlk(o: Order, id: nat, ghost l: seq<nat>) returns (o': Order, ghost l': seq<nat>, ok: bool)
    requires ListOk(o, l) && id / 32 < |o.marks|
    ensures ok <==> !Avail(o, id)
    ensures ok ==> ListOk(o', l') && |o'.marks| == |o.marks|
    ensures ok ==> forall x :: Avail(o', x) <==> Avail(o, x) || x == id
  {
    o', l' := o, l;
    var m := id / 32;
    var mk := o.marks[m];
    if id % 32 in mk.bitmap { return o, l, false; }
    ok := true;
    o' := o.(marks := o.marks[m := mk.(bitmap := mk.bitmap + {id % 32})]);
    if mk.bitmap == {} {
      l' := [m] + l;
      o' := PushMark(o', m, l);
    }
    SameBits(o, o', id);
  }

  /** Linking a mark in at the head. */
  method PushMark(o: Order, m: nat, ghost l: seq<nat>) returns (o': Order)
    requires |o.marks| <= NIL && m < |o.marks| && m !in l && o.marks[m].bitmap != {}
    requires ListOk(o.(marks := o.marks[m := o.marks[m].(bitmap := {})]), l)
    requires forall x :: x in o.marks[m].bitmap ==> 0 <= x < 32
    ensures ListOk(o', [m] + l) && |o'.marks| == |o.marks| && o' == LinkedIn(o, m)
    ensures forall i :: 0 <= i < |o.marks| ==> o'.marks[i].bitmap == o.marks[i].bitmap
  {
    ghost var before := o.(marks := o.marks[m := o.marks[m].(bitmap := {})]);
    var h := o.head;
    o' := o.(marks := o.marks[m := o.marks[m].(lnks := Lnks(NIL, h))]);
    if h != NIL {
      assert h == l[0] && before.marks[l[0]].lnks == Lnks(NIL, Nth(l, 1));
      NthFits(before, l, 1);
      LinksFaithful(NIL, Nth(l, 1));
      o' := o'.(marks := o'.marks[h := o'.marks[h].(lnks := Lnks(m, NextLnk(o'.marks[h].lnks)))]);
    }
    o' := o'.(head := m);
    Pushed(before, o', m, l);
    assert forall i :: 0 <= i < |o.marks| && i != m ==> before.marks[i] == o.marks[i];
  }

  /** What mark_blk's writes make of the links, whatever the index. */
  function LinkedIn(o: Order, m: nat): Order
    requires m < |o.marks|
  {
    var marks := o.marks[m := o.marks[m].(lnks := Lnks(NIL, o.head))];
    Order(m, if o.head < |marks| && o.head != NIL
             then marks[o.head := marks[o.head].(lnks := Lnks(m, NextLnk(marks[o.head].lnks)))]
             else marks)
  }

  /** l is what following the packed links from the head, and back, visits; NIL ends it both ways. */
  ghost predicate Threaded(o: Order, l: seq<nat>) {
    && o.head == Nth(l, 0) && (forall i :: 0 <= i < |l| ==> l[i] < |o.marks| && l[i] != NIL)
    && forall i {:trigger o.marks[l[i]]} :: 0 <= i < |l| ==>
         PreLnk(o.marks[l[i]].lnks) == Nth(l, i - 1) && NextLnk(o.marks[l[i]].lnks) == Nth(l, i + 1)
  }

  /**
   mark_blk's list insertion is right exactly if the index is not NIL and, unless the
   list was empty, both it and the old head fit 16 bits.
   */
  lemma LinkIn(o: Order, m: nat, l: seq<nat>)
    requires Threaded(o, l) && NoRepeats(l) && m < |o.marks| && m !in l
    ensures Threaded(LinkedIn(o, m), [m] + l) <==> m != NIL && (l == [] || (m < 0x1_0000 && l[0] < 0x1_0000))
  {
    var p, l' := LinkedIn(o, m), [m] + l;
    PackedLinks(NIL, o.head);
    assert l'[0] == m && p.marks[l'[0]].lnks == Lnks(NIL, o.head);
    if l != [] {
      var h := l[0];
      PackedLinks(m, NextLnk(o.marks[h].lnks));
      assert l'[1] == h && p.marks[l'[1]].lnks == Lnks(m, NextLnk(o.marks[l[0]].lnks));
      if m != NIL && m < 0x1_0000 && h < 0x1_0000 {
        forall i | 0 <= i < |l'|
          ensures PreLnk(p.marks[l'[i]].lnks) == Nth(l', i - 1) && NextLnk(p.marks[l'[i]].lnks) == Nth(l', i + 1)
        {
          InsertedAt(o, m, l, i);
        }
      }
    }
  }

  lemma PackedLinks(pre: nat, next: nat)
    ensures PreLnk(Lnks(pre, next)) == pre % 0x1_0000 && NextLnk(Lnks(pre, next)) == next % 0x1_0000
  {
    assert (pre * 0x1_0000) % 0x1_0000_0000 == pre % 0x1_0000 * 0x1_0000;
  }

  lemma InsertedAt(o: Order, m: nat, l: seq<nat>, i: nat)
    requires Threaded(o, l) && NoRepeats(l) && m < |o.marks| && m !in l && l != [] && m < 0x1_0000 && l[0] < 0x1_0000
             && i <= |l|
    ensures var p, l' := LinkedIn(o, m), [m] + l;
            PreLnk(p.marks[l'[i]].lnks) == Nth(l', i - 1) && NextLnk(p.marks[l'[i]].lnks) == Nth(l', i + 1)
  {
    var p, l' := LinkedIn(o, m), [m] + l;
    PackedLinks(NIL, o.head);
    PackedLinks(m, NextLnk(o.marks[l[0]].lnks));
    if i >= 1 {
      assert l'[i] == l[i - 1] && Nth(l', i + 1) == Nth(l, i);
      if i >= 2 { assert l[i - 1] != l[0] && p.marks[l[i - 1]] == o.marks[l[i - 1]]
 && Nth(l', i - 1) == Nth(l, i - 2); }
    }
  }

  /** Linking in mark 0xFFFF makes the list look empty: every free block on it is lost. */
  lemma NilMarkLost(o: Order, l: seq<nat>)
    requires NIL < |o.marks|
    ensures Threaded(LinkedIn(o, NIL), l) <==> l == []
  {
    if l != [] { assert l[0] != NIL || !Threaded(LinkedIn(o, NIL), l); }
  }

  /** Linking a mark beyond 16 bits into a list leaves links that thread no list, back and forth, at all. */
  lemma FarMarkLost(o: Order, m: nat, l: seq<nat>)
    requires 0x1_0000 <= m < |o.marks| && o.head < NIL
    ensures !Threaded(LinkedIn(o, m), l)
  {
    var p := LinkedIn(o, m);
    PackedLinks(NIL, o.head);
    PackedLinks(m, NextLnk(o.marks[o.head].lnks));
    assert PreLnk(p.marks[o.head].lnks) != m && NextLnk(p.marks[m].lnks) == o.head;
    if |l| > 1 && l[0] == m && l[1] == o.head {
      assert p.marks[l[0]] == p.marks[m] && p.marks[l[1]] == p.marks[o.head];
    }
  }

  lemma Pushed(o: Order, o': Order, m: nat, l: seq<nat>)
    requires ListOk(o, l) && m < |o.marks| && m !in l && |o'.marks| == |o.marks| && o'.head == m
    requires o'.marks[m].lnks == Lnks(NIL, Nth(l, 0)) && o'.marks[m].bitmap != {} && forall x ::
               x in o'.marks[m].bitmap ==> 0 <= x < 32
    requires forall k :: 0 <= k < |o.marks| && k != m ==>
             && o'.marks[k].bitmap == o.marks[k].bitmap
             && o'.marks[k].lnks == if l != [] && k == l[0] then Lnks(m, Nth(l, 1)) else o.marks[k].lnks
    ensures ListOk(o', [m] + l)
  {
    var l' := [m] + l;
    forall i | 0 <= i < |l'|
      ensures o'.marks[l'[i]].lnks == Lnks(Nth(l', i - 1), Nth(l', i + 1))
    {
      PushedLink(o, o', m, l, i);
    }
    PushKeeps(l, m);
    forall k | 0 <= k < |o'.marks|
      ensures o'.marks[k].bitmap != {} <==> k in l'
    {
      assert k != m ==> (o.marks[k].bitmap != {} <==> k in l);
    }
    assert Nth(l', 0) == m;
  }

  lemma PushKeeps(l: seq<nat>, m: nat)
    requires NoRepeats(l) && m !in l
    ensures NoRepeats([m] + l) && forall k :: k in [m] + l <==> k == m || k in l
  {
  }

  lemma PushedLink(o: Order, o': Order, m: nat, l: seq<nat>, i: nat)
    requires ListOk(o, l) && m < |o.marks| && m !in l && |o'.marks| == |o.marks| && i <= |l|
    requires o'.marks[m].lnks == Lnks(NIL, Nth(l, 0))
    requires forall k :: 0 <= k < |o.marks| && k != m ==>
             o'.marks[k].lnks == if l != [] && k == l[0] then Lnks(m, Nth(l, 1)) else o.marks[k].lnks
    ensures var l' := [m] + l; o'.marks[l'[i]].lnks == Lnks(Nth(l', i - 1), Nth(l', i + 1))
  {
    var l' := [m] + l;
    assert Nth(l', i + 1) == Nth(l, i);
    if i >= 1 {
      assert l'[i] == l[i - 1] && o.marks[l[i - 1]].lnks == Lnks(Nth(l, i - 2), Nth(l, i));
      assert i >= 2 ==> Nth(l', i - 1) == Nth(l, i - 2) && l[i - 1] != l[0];
    }
  }

  /** Setting one bit makes one more block available. */
  lemma SameBits(o: Order, o': Order, id: nat)
    requires |o'.marks| == |o.marks| && id / 32 < |o.marks|
    requires forall i :: 0 <= i < |o.marks| ==>
             o'.marks[i].bitmap == if i == id / 32 then o.marks[i].bitmap + {id % 32} else o.marks[i].bitmap
    ensures forall x :: Avail(o', x) <==> Avail(o, x) || x == id
  {
    forall x: nat
      ensures Avail(o', x) <==> Avail(o, x) || x == id
    {
      assert x / 32 == id / 32 && x % 32 == id % 32 ==> x == id;
    }
  }

  lemma LessBits(o: Order, o': Order, id: nat)
    requires |o'.marks| == |o.marks| && id / 32 < |o.marks|
    requires forall i :: 0 <= i < |o.marks| ==>
             o'.marks[i].bitmap == if i == id / 32 then o.marks[i].bitmap - {id % 32} else o.marks[i].bitmap
    ensures forall x :: Avail(o', x) <==> Avail(o, x) && x != id
  {
    forall x: nat
      ensures Avail(o', x) <==> Avail(o, x) && x != id
    {
      assert x / 32 == id / 32 && x % 32 == id % 32 ==> x == id;
    }
  }

  function Without(l: seq<nat>, j: nat): seq<nat>
    requires j < |l|
  {
    l[..j] + l[j + 1..]
  }

  /** unmark_blk: clears the bit, and takes a mark that became empty off the list. */
  method UnmarkBlk(o: Order, id: nat, ghost l: seq<nat>) returns (o': Order, ghost l': seq<nat>, ok: bool)
    requires ListOk(o, l) && id / 32 < |o.marks|
    ensures ok <==> Avail(o, id)
    ensures ok ==> ListOk(o', l') && |o'.marks| == |o.marks|
    ensures ok ==> forall x :: Avail(o', x) <==> Avail(o, x) && x != id
  {
    o', l' := o, l;
    var m := id / 32;
    var mk := o.marks[m];
    if id % 32 !in mk.bitmap { return o, l, false; }
    ok := true;
    o' := o.(marks := o.marks[m := mk.(bitmap := mk.bitmap - {id % 32})]);
    if o'.marks[m].bitmap == {} {
      ghost var j :| 0 <= j < |l| && l[j] == m;
      l' := Without(l, j);
      o' := DropMark(o, m, l, j);
    }
    LessBits(o, o', id);
  }

  /** The links around the gap that mark l[j] leaves. */
  function GapLnks(o: Order, l: seq<nat>, j: nat, k: nat): nat
    requires j < |l| && k < |o.marks|
  {
    if j > 0 && k == l[j - 1] then Lnks(Nth(l, j - 2), Nth(l, j + 1))
    else if j + 1 < |l| && k == l[j + 1] then Lnks(Nth(l, j - 1), Nth(l, j + 2))
    else o.marks[k].lnks
  }

  /** Unlinking mark l[j] whose last bit went away. */
  method DropMark(o: Order, m: nat, ghost l: seq<nat>, ghost j: nat) returns (o': Order)
    requires ListOk(o, l) && j < |l| && l[j] == m
    ensures ListOk(o', Without(l, j)) && |o'.marks| == |o.marks|
    ensures forall i :: 0 <= i < |o.marks| ==> o'.marks[i].bitmap == if i == m then {} else o.marks[i].bitmap
  {
    var prev, next := Ends(o, m, l, j);
    o' := o.(marks := o.marks[m := Mark(Lnks(NIL, NIL), {})]);
    if prev != NIL {
      var p := o'.marks[prev];
      o' := o'.(marks := o'.marks[prev := p.(lnks := Lnks(PreLnk(p.lnks), next))]);
    } else if o'.head == m {
      o' := o'.(head := next);
    }
    if next != NIL {
      var p := o'.marks[next];
      o' := o'.(marks := o'.marks[next := p.(lnks := Lnks(prev, NextLnk(p.lnks)))]);
    }
    Dropped(o, o', l, j);
  }

  /** The neighbours recorded in mark l[j], and what their own links point back to. */
  method Ends(o: Order, m: nat, ghost l: seq<nat>, ghost j: nat) returns (prev: nat, next: nat)
    requires ListOk(o, l) && j < |l| && l[j] == m
    ensures prev == PreLnk(o.marks[m].lnks) == Nth(l, j - 1) && next == NextLnk(o.marks[m].lnks) == Nth(l, j + 1)
    ensures prev == NIL <==> j == 0
    ensures next == NIL <==> j == |l| - 1
    ensures prev != NIL ==> prev < |o.marks| && prev != m && PreLnk(o.marks[prev].lnks) == Nth(l, j - 2)
    ensures next != NIL ==>
                next < |o.marks| && next != m && next != prev && NextLnk(o.marks[next].lnks) == Nth(l, j + 2)
  {
    LinkAt(o, l, j);
    NthFits(o, l, j - 1);
    NthFits(o, l, j + 1);
    prev, next := PreLnk(o.marks[m].lnks), NextLnk(o.marks[m].lnks);
    Neighbours(o, l, j, prev, next);
  }

  lemma Neighbours(o: Order, l: seq<nat>, j: nat, prev: nat, next: nat)
    requires ListOk(o, l) && j < |l| && prev == Nth(l, j - 1) && next == Nth(l, j + 1)
    ensures j > 0 ==> prev < |o.marks| && prev != l[j] && PreLnk(o.marks[prev].lnks) == Nth(l, j - 2)
    ensures j + 1 < |l| ==>
                next < |o.marks| && next != l[j] && next != prev && NextLnk(o.marks[next].lnks) == Nth(l, j + 2)
  {
    NthFits(o, l, j - 1);
    if j > 0 { Before(o, l, j, prev); }
    if j + 1 < |l| { Behind(o, l, j, next); }
  }

  lemma Before(o: Order, l: seq<nat>, j: nat, prev: nat)
    requires ListOk(o, l) && 0 < j < |l| && prev == l[j - 1]
    ensures prev < |o.marks| && prev != l[j] && PreLnk(o.marks[prev].lnks) == Nth(l, j - 2)
  {
    LinkAt(o, l, j - 1);
  }

  lemma Behind(o: Order, l: seq<nat>, j: nat, next: nat)
    requires ListOk(o, l) && j + 1 < |l| && next == l[j + 1]
    ensures next < |o.marks| && next != l[j] && (j > 0 ==> next != l[j - 1])
            && NextLnk(o.marks[next].lnks) == Nth(l, j + 2)
  {
    LinkAt(o, l, j + 1);
  }

  /** A mark on the list unpacks to its neighbours. */
  lemma LinkAt(o: Order, l: seq<nat>, i: nat)
    requires ListOk(o, l) && i < |l|
    ensures PreLnk(o.marks[l[i]].lnks) == Nth(l, i - 1) && NextLnk(o.marks[l[i]].lnks) == Nth(l, i + 1)
  {
    NthFits(o, l, i - 1);
    NthFits(o, l, i + 1);
    LinksFaithful(Nth(l, i - 1), Nth(l, i + 1));
  }

  lemma Dropped(o: Order, o': Order, l: seq<nat>, j: nat)
    requires ListOk(o, l) && j < |l| && |o'.marks| == |o.marks| && o'.head == (if j == 0 then Nth(l, 1) else o.head)
    requires forall k :: 0 <= k < |o.marks| && k != l[j] ==> o'.marks[k].lnks == GapLnks(o, l, j, k)
    requires forall k :: 0 <= k < |o.marks| ==> o'.marks[k].bitmap == if k == l[j] then {} else o.marks[k].bitmap
    ensures ListOk(o', Without(l, j))
  {
    var l' := Without(l, j);
    forall i | 0 <= i < |l'|
      ensures o'.marks[l'[i]].lnks == Lnks(Nth(l', i - 1), Nth(l', i + 1))
    {
      DroppedLink(o, o', l, j, i);
    }
    WithoutKeeps(l, j);
    assert Nth(l', 0) == (if j == 0 then Nth(l, 1) else Nth(l, 0));
  }

  lemma WithoutKeeps(l: seq<nat>, j: nat)
    requires NoRepeats(l) && j < |l|
    ensures NoRepeats(Without(l, j))
    ensures forall k :: k in Without(l, j) <==> k in l && k != l[j]
  {
    var l' := Without(l, j);
    assert forall i :: 0 <= i < |l'| ==> l'[i] == l[if i < j then i else i + 1];
    forall k | k in l && k != l[j]
      ensures k in l'
    {
      var i :| 0 <= i < |l| && l[i] == k;
      assert l'[if i < j then i else i - 1] == k;
    }
  }

  lemma DroppedLink(o: Order, o': Order, l: seq<nat>, j: nat, i: nat)
    requires ListOk(o, l) && j < |l| && i < |l| - 1 && |o'.marks| == |o.marks|
    requires forall k :: 0 <= k < |o.marks| && k != l[j] ==> o'.marks[k].lnks == GapLnks(o, l, j, k)
    ensures var l' := Without(l, j); o'.marks[l'[i]].lnks == Lnks(Nth(l', i - 1), Nth(l', i + 1))
  {
    var l' := Without(l, j);
    var a := if i < j then i else i + 1;
    assert l'[i] == l[a] && l[a] != l[j];
    assert o.marks[l[a]].lnks == Lnks(Nth(l, a - 1), Nth(l, a + 1));
    assert Nth(l', i - 1) == Nth(l, if i - 1 < j then i - 1 else i);
    assert Nth(l', i + 1) == Nth(l, if i + 1 < j then i + 1 else i + 2);
  }

  // ---------------------------------------------------------------- sizes

  /** Marks that kmem_init2 sets aside for order k of a pool of `len` bytes. */
  function MarksOf(len: nat, k: nat): nat
    requires k <= TOP
  {
    MarksAt(len / 0x2_0000 + 1, k)
  }

  /** There are marks enough for every block of every order, whatever the pool size. */
  lemma MarksSuffice(len: nat, size: nat, k: nat)
    requires k <= TOP && size <= (len + 4095) / 4096
    ensures size * P(TOP - k) <= 32 * MarksOf(len, k)
  {
    var n, p := len / 0x2_0000 + 1, P(TOP - k);
    assert size <= 32 * n;
    assert size * p <= (32 * n) * p;
  }

  /** Bytes that main hands to kmem_init2: PA_STOP less INIT_KERNMAP. */
  const POOL: nat := 0x0C00_0000 - 0x0010_0000

  /** For the configured memory the smallest order alone has more marks than 16-bit indexes reach. */
  lemma PoolOverflowsOrderSix(k: nat)
    requires k <= TOP
    ensures MarksOf(POOL, k) <= NIL <==> k != 0
  {
    assert P(0) == 1 && P(1) == 2 && P(2) == 4 && P(3) == 8 && P(4) == 16 && P(5) == 32 && P(6) == 64;
  }

  /** The maximal blocks behind the marks of a pool of len bytes: kmem_init2's last loop runs once for each. */
  function HeapBlocks(len: nat): nat {
    var marks := 8 * (len / 0x2_0000 + 1) * 127;
    var start := (marks + 4095) / 4096 * 4096;
    if start < len then (len - start + 4095) / 4096 else 0
  }

  /** main's heap has blocks of order 6 with marks 0xFFFF and beyond. */
  lemma PoolReaches()
    ensures forall m :: NIL <= m < 2 * HeapBlocks(POOL) ==> InHeap(HeapBlocks(POOL), Blk(0, 32 * m)) && 32 * m / 32 == m
    ensures 0x1_0000 < 2 * HeapBlocks(POOL)
  {
    assert P(0) == 1 && P(1) == 2 && P(2) == 4 && P(3) == 8 && P(4) == 16 && P(5) == 32 && P(6) == 64;
    assert HeapBlocks(POOL) == 48516;
  }

  // ---------------------------------------------------------------- the allocator

  ghost predicate BitsAgree(orders: seq<Order>, free: set<Blk>)
    requires |orders| == TOP + 1
  {
    forall k, id {:trigger Blk(k, id)} :: 0 <= k <= TOP && 0 <= id ==> (Blk(k, id) in free <==> Avail(orders[k], id))
  }

  // ---------------------------------------------------------------- steps on the heap

  /** A canonical tiling. */
  ghost predicate Good(h: Heap) {
    forall k {:trigger Look(k)} :: Look(k) ==> Tiling(h) && Canonical(h)
  }

  /** From h to g exactly block b, free before, was handed out. */
  ghost predicate Given(h: Heap, g: Heap, b: Blk) {
    && |h.own| == |g.own| && g.size == h.size
    && b !in h.alloc && g.alloc == h.alloc + {b}
    && (forall u :: 0 <= u < |h.own| && Inside(b, u) ==> FreeUnit(h, u))
    && forall u :: 0 <= u < |h.own| ==> (FreeUnit(g, u) <==> FreeUnit(h, u) && !Inside(b, u))
  }

  /** From h to g exactly the allocated block b became free. */
  ghost predicate Returned(h: Heap, g: Heap, b: Blk) {
    && |h.own| == |g.own| && g.size == h.size
    && b in h.alloc && g.alloc == h.alloc - {b}
    && forall u :: 0 <= u < |h.own| ==> (FreeUnit(g, u) <==> FreeUnit(h, u) || Inside(b, u))
  }

  lemma InGood(h: Heap, b: Blk)
    requires Good(h) && b in h.free + h.alloc
    ensures InHeap(h.size, b)
    ensures !(b in h.free && b in h.alloc)
  {
    assert Look(0);
  }

  lemma FreeStep(h: Heap, b: Blk)
    requires Good(h) && b in h.alloc && (b.k < TOP ==> BuddyOf(b) !in h.free)
    ensures Good(ToFree(h, b)) && Returned(h, ToFree(h, b), b)
  {
    assert Look(0);
    ToFreeTiles(h, b);
    forall x | x in h.free + {b} && x.k < TOP
      ensures BuddyOf(x) !in h.free + {b}
    {
      assert BuddyOf(BuddyOf(x)) == x && BuddyOf(x) != x;
    }
  }

  lemma TakeStep(h: Heap, b: Blk)
    requires Good(h) && b in h.free
    ensures Good(ToAlloc(h, b)) && Given(h, ToAlloc(h, b), b)
  {
    assert Look(0);
    ToAllocTiles(h, b);
    assert Owns(h, b);
  }

  /** The heap when b's free buddy is taken from its list and both have become one block of the next order. */
  ghost function Merged(h: Heap, b: Blk): Heap
    requires b.k < TOP
  {
    Join(ToAlloc(h, BuddyOf(b)), Parent(b))
  }

  lemma BuddiesAreHalves(b: Blk)
    requires b.k < TOP
    ensures {LeftHalf(Parent(b)), RightHalf(Parent(b))} == {b, BuddyOf(b)}
  {
    var p := Parent(b);
    assert b.id == 2 * p.id || b.id == 2 * p.id + 1;
  }

  lemma MergedGood(h: Heap, b: Blk)
    requires Good(h) && b in h.alloc && b.k < TOP && BuddyOf(b) in h.free
    ensures Good(Merged(h, b)) && Parent(b) in Merged(h, b).alloc
    ensures Merged(h, b).alloc - {Parent(b)} == h.alloc - {b}
  {
    assert Look(0);
    ToAllocTiles(h, BuddyOf(b));
    BuddiesAreHalves(b);
    JoinTiles(ToAlloc(h, BuddyOf(b)), Parent(b));
  }

  lemma MergedUnits(h: Heap, b: Blk, u: int)
    requires Good(h) && b in h.alloc && b.k < TOP && BuddyOf(b) in h.free && 0 <= u < |h.own|
    ensures |Merged(h, b).own| == |h.own|
    ensures FreeUnit(Merged(h, b), u) || Inside(Parent(b), u) <==> FreeUnit(h, u) || Inside(b, u)
  {
    assert Look(0);
    BuddiesAreHalves(b);
    assert Owns(h, BuddyOf(b));
    Halves(Parent(b), u);
  }

  /** Freeing b next to its free buddy: both are the caller's for a moment, then one block of the next order is. */
  lemma MergeStep(h: Heap, b: Blk)
    requires Good(h) && b in h.alloc && b.k < TOP && BuddyOf(b) in h.free
    ensures var g := Join(ToAlloc(h, BuddyOf(b)), Parent(b));
            Good(g) && Parent(b) in g.alloc && forall f :: Returned(g, f, Parent(b)) ==> Returned(h, f, b)
  {
    MergedGood(h, b);
    forall u | 0 <= u < |h.own|
      ensures FreeUnit(Merged(h, b), u) || Inside(Parent(b), u) <==> FreeUnit(h, u) || Inside(b, u)
    {
      MergedUnits(h, b, u);
    }
  }

  /** Splitting a block just handed out: once its right half is back, only the left half was handed out. */
  lemma SplitStep(h0: Heap, h: Heap, b: Blk)
    requires Good(h) && b.k > 0 && Given(h0, h, b) && LeftHalf(b) !in h0.alloc
    ensures var g := Split(h, b);
            && Good(g) && RightHalf(b) in g.alloc && BuddyOf(RightHalf(b)) !in g.free
            && forall f :: Returned(g, f, RightHalf(b)) ==> Given(h0, f, LeftHalf(b))
  {
    assert Look(0);
    var g, l, r := Split(h, b), LeftHalf(b), RightHalf(b);
    SplitTiles(h, b);
    HalvesNew(h, b);
    assert BuddyOf(r) == l;
    assert g.alloc - {r} == h0.alloc + {l};
    forall u | 0 <= u < |h.own|
      ensures Inside(b, u) <==> Inside(l, u) || Inside(r, u)
      ensures !(Inside(l, u) && Inside(r, u))
    {
      Halves(b, u);
    }
  }

  /** A half of a block that was free is not allocated. */
  lemma HalfNotAlloc(h: Heap, b: Blk)
    requires Good(h) && b.k > 0 && InHeap(h.size, b)
    requires forall u :: 0 <= u < |h.own| && Inside(b, u) ==> FreeUnit(h, u)
    ensures LeftHalf(b) !in h.alloc
  {
    assert Look(0);
    HalfInHeap(h.size, b);
    var u := FirstUnit(h.size, LeftHalf(b));
    Halves(b, u);
    assert LeftHalf(b) in h.alloc ==> Owns(h, LeftHalf(b));
  }

  // ---------------------------------------------------------------- the allocator proper

  ghost predicate ListsOk(orders: seq<Order>, lists: seq<seq<nat>>)
    requires |orders| == |lists|
  {
    forall k :: 0 <= k < |orders| ==> ListOk(orders[k], lists[k])
  }

  /** Every order has a mark for each of its blocks. */
  ghost predicate Rooms(size: nat, orders: seq<Order>)
    requires |orders| == TOP + 1
  {
    forall b :: InHeap(size, b) ==> b.id / 32 < |orders[b.k].marks|
  }

  function EmptyOf(n: nat): Order {
    Order(NIL, seq(n, _ => Mark(Lnks(NIL, NIL), {})))
  }

  /** Each order down has twice the marks. */
  function MarksAt(n: nat, k: nat): nat
    requires k <= TOP
  {
    n * P(TOP - k)
  }

  function EmptyOrders(n: nat): (r: seq<Order>)
    ensures |r| == TOP + 1
    ensures forall k :: 0 <= k <= TOP ==> r[k] == EmptyOf(MarksAt(n, k))
  {
    seq(TOP + 1, k requires 0 <= k <= TOP => EmptyOf(MarksAt(n, k)))
  }

  lemma EmptyListOk(m: nat)
    requires m <= NIL
    ensures ListOk(EmptyOf(m), [])
  {
  }

  lemma EmptyOrdersOk(size: nat, n: nat, lists: seq<seq<nat>>)
    requires size <= 32 * n && MarksAt(n, 0) <= NIL && |lists| == TOP + 1 && forall k ::
               0 <= k <= TOP ==> lists[k] == []
    ensures ListsOk(EmptyOrders(n), lists) && Rooms(size, EmptyOrders(n))
  {
    forall k | 0 <= k <= TOP
      ensures ListOk(EmptyOrders(n)[k], lists[k])
    {
      MarksBound(n, k);
      EmptyListOk(MarksAt(n, k));
    }
    forall b | InHeap(size, b)
      ensures b.id / 32 < |EmptyOrders(n)[b.k].marks|
    {
      RoomBound(size, n, b);
    }
  }

  /** Before the first kfree of kmem_init2: maximal blocks only, none of them free. */
  ghost function Untouched(size: nat): Heap {
    Heap(size, {}, set i | 0 <= i < size :: Blk(TOP, i), seq(size * P(TOP), _ => TOP))
  }

  lemma UntouchedGood(size: nat)
    ensures Good(Untouched(size))
  {
    var h := Untouched(size);
    forall u | 0 <= u < |h.own|
      ensures Blk(TOP, At(u, TOP)) in h.alloc
    {
      TopIndex(size, u);
    }
    assert P(0) == 1;
    assert Tiling(h);
  }

  lemma MarksBound(n: nat, k: nat)
    requires k <= TOP && MarksAt(n, 0) <= NIL
    ensures MarksAt(n, k) <= NIL
  {
    Doubling(k);
    var a, b := P(TOP - k), P(k);
    assert a <= a * b;
    assert n * a <= n * (a * b);
  }

  lemma RoomBound(size: nat, n: nat, b: Blk)
    requires size <= 32 * n && InHeap(size, b)
    ensures b.id / 32 < MarksAt(n, b.k)
  {
    var p := P(TOP - b.k);
    assert size * p <= (32 * n) * p;
    assert (32 * n) * p == 32 * (n * p);
  }

  class Kmem {
    const size: nat
    var orders: seq<Order>
    ghost var lists: seq<seq<nat>>
    ghost var heap: Heap

    /** The bitmaps say what is free, and the lists thread the bitmaps. */
    ghost predicate Bits()
      reads this
    {
      && |orders| == TOP + 1 && |lists| == TOP + 1
      && ListsOk(orders, lists) && Rooms(size, orders)
      && heap.size == size && BitsAgree(orders, heap.free)
    }

    ghost predicate Valid()
      reads this
    {
      Bits() && Good(heap)
    }

    /** kmem_init2 up to its last loop: all bitmaps clear, every maximal block still the caller's. */
    constructor (size: nat, n: nat)
      requires size <= 32 * n && MarksAt(n, 0) <= NIL
      ensures Valid() && this.size == size
      ensures heap.free == {} && heap.alloc == (set i | 0 <= i < size :: Blk(TOP, i))
    {
      this.size := size;
      orders := EmptyOrders(n);
      lists := seq(TOP + 1, _ => []);
      heap := Untouched(size);
      new;
      UntouchedGood(size);
      EmptyOrdersOk(size, n, lists);
      assert BitsAgree(orders, heap.free);
    }

    /** kmem_init2's last loop. */
    method Init()
      requires Valid() && heap.free == {} && heap.alloc == (set i | 0 <= i < size :: Blk(TOP, i))
      modifies this
      ensures Valid() && heap.alloc == {}
    {
      var i := 0;
      while i < size
        invariant 0 <= i <= size && Valid()
        invariant heap.alloc == (set j | i <= j < size :: Blk(TOP, j))
      {
        Aligned(i, TOP);
        assert Blk(TOP, i) in heap.alloc;
        var _ := KfreeRec(i * P(TOP), TOP);
        i := i + 1;
      }
    }

    /** kmalloc; None for NULL, `ok` false for its panic on an order outside 6..12. */
    method Kmalloc(order: int) returns (ok: bool, up: Option<nat>)
      requires Valid()
      modifies this
      ensures Valid() && (ok <==> 6 <= order <= 12)
      ensures ok ==> (up.None? <==> NoRegion(old(heap), order - 6))
      ensures up.None? ==> heap == old(heap)
      ensures ok && up.Some? ==>
                  up.value % P(order - 6) == 0 && Given(old(heap), heap, Blk(order - 6, At(up.value, order - 6)))
    {
      if order > 12 || order < 6 { return false, None; }
      NoBlockNoRegion(heap, order - 6);
      up := KmallocRec(order - 6);
      ok := true;
    }

    /**
     kfree of a block allocated at that order, or of memory that is free already.
     Misaligned addresses and bad orders panic.  A double free panics exactly if the
     region has not been merged; otherwise its block is marked inside a larger free one.
     */
    method Kfree(up: nat, order: int) returns (ok: bool)
      requires Valid()
      requires 6 <= order <= 12 && up % P(order - 6) == 0 ==>
               var b := Blk(order - 6, At(up, order - 6)); b in heap.alloc || FreeRegion(heap, b)
      modifies this
      ensures !(6 <= order <= 12 && up % P(order - 6) == 0) ==> !ok
      ensures !ok ==> unchanged(this)
      ensures 6 <= order <= 12 && up % P(order - 6) == 0 ==>
              var h, b := old(heap), Blk(order - 6, At(up, order - 6));
              && (b in h.alloc ==> ok && Valid() && Returned(h, heap, b))
              && (FreeRegion(h, b) ==> (!ok <==> NotMerged(h, b)))
              && (FreeRegion(h, b) && ok ==> Bits() && heap.free == h.free + {b} && !Tiling(heap))
    {
      if order > 12 || order < 6 || up % P(order - 6) != 0 { return false; }
      ghost var h, b := heap, Blk(order - 6, At(up, order - 6));
      if FreeRegion(h, b) { DoubleFreeCaught(h, b); }
      ok := KfreeRec(up, order - 6);
      if FreeRegion(h, b) && ok { OverlapBreaks(h, b, heap); }
    }

    /** An empty list means no free block of the order. */
    lemma EmptyOrder(k: nat)
      requires Valid() && k <= TOP && orders[k].head == NIL
      ensures forall b :: b in heap.free ==> b.k != k
    {
      assert ListOk(orders[k], lists[k]);
      NthFits(orders[k], lists[k], 0);
      assert lists[k] == [];
      forall b | b in heap.free
        ensures b.k != k
      {
        InGood(heap, b);
        assert b == Blk(b.k, b.id);
      }
    }

    /** unmark_blk on a free block; the caller has it now. */
    method Unmark(k: nat, id: nat)
      requires Valid() && k <= TOP && Blk(k, id) in heap.free
      modifies this
      ensures Valid() && heap == ToAlloc(old(heap), Blk(k, id))
    {
      ghost var b := Blk(k, id);
      InGood(heap, b);
      TakeStep(heap, b);
      var o', ok;
      ghost var l';
      o', l', ok := UnmarkBlk(orders[k], id, lists[k]);
      BitsCleared(orders, heap.free, b, o');
      orders, lists, heap := orders[k := o'], lists[k := l'], ToAlloc(heap, b);
    }

    /** mark_blk on a block that is not marked. */
    method Remark(k: nat, id: nat)
      requires Bits() && k <= TOP && InHeap(size, Blk(k, id)) && Blk(k, id) !in heap.free
      modifies this
      ensures Bits() && heap == ToFree(old(heap), Blk(k, id))
    {
      ghost var b := Blk(k, id);
      var o', ok;
      ghost var l';
      o', l', ok := MarkBlk(orders[k], id, lists[k]);
      BitsSet(orders, heap.free, b, o');
      orders, lists, heap := orders[k := o'], lists[k := l'], ToFree(heap, b);
    }

    /** get_blk: the lowest block of the first listed mark. */
    method GetBlk(k: nat) returns (up: nat)
      requires Valid() && k <= TOP && orders[k].head != NIL
      modifies this
      ensures Valid() && up % P(k) == 0
      ensures var b := Blk(k, At(up, k)); b in old(heap.free) && heap == ToAlloc(old(heap), b)
    {
      var id := ListedBlock(orders[k], lists[k]);
      assert Blk(k, id) in heap.free;
      Unmark(k, id);
      up := id * P(k);
      Aligned(id, k);
    }

    /**
     _kfree: panics on a block that is marked; otherwise marks it, or merges it with its
     free buddy one order up.
     */
    method KfreeRec(up: nat, k: nat) returns (ok: bool)
      requires Valid() && k <= TOP && up % P(k) == 0
      requires var b := Blk(k, At(up, k)); b in heap.alloc || FreeRegion(heap, b)
      modifies this
      ensures var b := Blk(k, At(up, k));
              && (b in old(heap.alloc) ==> ok && Valid() && Returned(old(heap), heap, b))
              && (FreeRegion(old(heap), b) ==> (!ok <==> b in old(heap.free)))
              && (FreeRegion(old(heap), b) && ok ==> Bits() && heap == ToFree(old(heap), b))
      ensures !ok ==> unchanged(this)
      decreases TOP - k
    {
      var id := At(up, k);
      ghost var b := Blk(k, id);
      ghost var h := heap;
      Whereabouts(h, b);
      if id % 32 in orders[k].marks[id / 32].bitmap { return false; }
      var buddy, merge := LookAtBuddy(id, k);
      if !merge {
        if b in h.alloc { FreeStep(h, b); }
        Remark(k, id);
        ok := true;
      } else {
        MergeStep(h, b);
        TakeBuddy(id, buddy, k);
        WholeAt(id, k);
        ok := KfreeRec(WholeOf(id, k), k + 1);
        assert Returned(Join(ToAlloc(h, BuddyOf(b)), Parent(b)), heap, Parent(b));
      }
    }

    /** _kfree's test: the buddy's bit in the block's own mark, never at the top order. */
    method LookAtBuddy(id: nat, k: nat) returns (buddy: nat, merge: bool)
      requires Bits() && k <= TOP && InHeap(size, Blk(k, id))
      ensures Blk(k, buddy) == BuddyOf(Blk(k, id))
      ensures merge <==> k < TOP && Blk(k, buddy) in heap.free
    {
      buddy := if id % 2 == 0 then id + 1 else id - 1;
      SameMark(id, buddy);
      merge := buddy % 32 in orders[k].marks[id / 32].bitmap && k != TOP;
    }

    /** Merging: the buddy comes off its list and the two halves count as one block of the next order. */
    method TakeBuddy(id: nat, buddy: nat, k: nat)
      requires Valid() && k < TOP && Blk(k, id) in heap.alloc && Blk(k, buddy) == BuddyOf(Blk(k, id))
               && Blk(k, buddy) in heap.free
      modifies this
      ensures Valid() && heap == Join(ToAlloc(old(heap), Blk(k, buddy)), Parent(Blk(k, id)))
    {
      ghost var b := Blk(k, id);
      MergeStep(heap, b);
      Unmark(k, buddy);
      heap := Join(heap, Parent(b));
    }

    /** _kmalloc: a listed block of the order, or the left half of a block one order up. */
    method KmallocRec(k: nat) returns (up: Option<nat>)
      requires Valid() && k <= TOP
      modifies this
      ensures Valid()
      ensures up.None? <==> forall b :: b in old(heap.free) ==> b.k < k
      ensures up.None? ==> heap == old(heap)
      ensures up.Some? ==> up.value % P(k) == 0 && Given(old(heap), heap, Blk(k, At(up.value, k)))
      decreases TOP - k
    {
      up := None;
      if orders[k].head != NIL {
        ghost var h := heap;
        var u := GetBlk(k);
        TakeStep(h, Blk(k, At(u, k)));
        up := Some(u);
      } else {
        EmptyOrder(k);
        if k < TOP {
          up := KmallocRec(k + 1);
          if up.Some? {
            assert LeftHalf(Blk(k + 1, At(up.value, k + 1))) !in old(heap).alloc by {
              InGood(heap, Blk(k + 1, At(up.value, k + 1)));
              HalfNotAlloc(old(heap), Blk(k + 1, At(up.value, k + 1)));
            }
            SplitDown(up.value, k, old(heap));
          }
        } else {
          forall b | b in heap.free ensures b.k < k { InGood(heap, b); }
        }
      }
    }

    /** The rest of _kmalloc after a larger block was found: the right half goes back. */
    method SplitDown(up: nat, k: nat, ghost h0: Heap)
      requires Valid() && k < TOP && up % P(k + 1) == 0
      requires Given(h0, heap, Blk(k + 1, At(up, k + 1))) && Blk(k, 2 * At(up, k + 1)) !in h0.alloc
      modifies this
      ensures Valid() && up % P(k) == 0 && Given(h0, heap, Blk(k, At(up, k)))
    {
      ghost var whole := Blk(k + 1, At(up, k + 1));
      SplitStep(h0, heap, whole);
      heap := Split(heap, whole);
      HalfAddresses(up, k);
      var _ := KfreeRec(up + P(k), k);
    }
  }

  /** No aligned region of order k is entirely free. */
  ghost predicate NoRegion(h: Heap, k: nat) {
    forall id: nat :: !FreeRegion(h, Blk(k, id))
  }

  /** No free block of order k or more is no free aligned region of order k: kmalloc fails only when it must. */
  lemma NoBlockNoRegion(h: Heap, k: nat)
    requires Good(h) && k <= TOP
    ensures (forall b :: b in h.free ==> b.k < k) <==> NoRegion(h, k)
  {
    assert Look(0);
    if forall b :: b in h.free ==> b.k < k {
      forall id: nat
        ensures !FreeRegion(h, Blk(k, id))
      {
        if FreeRegion(h, Blk(k, id)) { var j := RegionInBlock(h, Blk(k, id)); }
      }
    } else {
      var b :| b in h.free && b.k >= k;
      var id := b.id * P(b.k - k);
      PartOf(h, b, k);
      assert FreeRegion(h, Blk(k, id));
    }
  }

  /** The first order-k part of a free block is a free region. */
  lemma PartOf(h: Heap, b: Blk, k: nat)
    requires Tiling(h) && b in h.free && k <= b.k
    ensures FreeRegion(h, Blk(k, b.id * P(b.k - k)))
  {
    var m := b.k - k;
    var r := Blk(k, b.id * P(m));
    assert Owns(h, b);
    Aligned(b.id, m);
    forall u | 0 <= u < |h.own| && Inside(r, u)
      ensures FreeUnit(h, u)
    {
      ClimbUnit(u, k, m);
    }
    Powers(TOP - b.k, m);
    var n := P(TOP - b.k);
    assert b.id * P(m) < (h.size * n) * P(m) by { Grows(b.id, h.size * n, P(m)); }
    assert (h.size * n) * P(m) == h.size * (n * P(m));
  }

  lemma {:induction false} Powers(a: nat, b: nat)
    ensures P(a) * P(b) == P(a + b)
  {
    if b > 0 {
      Powers(a, b - 1);
      assert P(a) * (2 * P(b - 1)) == 2 * (P(a) * P(b - 1));
    }
  }

  /** The free blocks depend on what is allocated and on nothing else: not on the order of the calls that led there. */
  lemma StateFromAlloc(h: Heap, g: Heap)
    requires Good(h) && Good(g) && h.size == g.size && h.alloc == g.alloc
    ensures h.free == g.free
  {
    assert Look(0);
    forall u | 0 <= u < |h.own|
      ensures FreeUnit(h, u) <==> FreeUnit(g, u)
    {
      var a, b := Blk(h.own[u], At(u, h.own[u])), Blk(g.own[u], At(u, g.own[u]));
      assert a in h.alloc ==> Owns(g, a);
      assert b in g.alloc ==> Owns(h, b);
    }
    forall b | b in h.free ensures b in g.free { FreeBlocksDetermined(h, g, b); }
    forall b | b in g.free ensures b in h.free { FreeBlocksDetermined(g, h, b); }
  }

  /** With everything given back the heap is what kmem_init2 made: all maximal blocks, nothing else. */
  lemma BackToStart(h: Heap, b: Blk)
    requires Good(h) && h.alloc == {}
    ensures b in h.free <==> b.k == TOP && b.id < h.size
  {
    assert Look(0);
    AllFreed(h, b);
  }

  /** The order-j block around b. */
  function Around(b: Blk, j: nat): Blk
    requires b.k <= j
  {
    Blk(j, At(b.id, j - b.k))
  }

  /** No larger free block holds b. */
  ghost predicate NotMerged(h: Heap, b: Blk) {
    forall j :: b.k < j <= TOP ==> Around(b, j) !in h.free
  }

  /** A free region is a free block itself exactly when it has not been merged into a larger one. */
  lemma DoubleFreeCaught(h: Heap, b: Blk)
    requires Good(h) && FreeRegion(h, b)
    ensures b in h.free <==> NotMerged(h, b)
  {
    assert Look(0);
    var i := RegionInBlock(h, b);
    assert P(0) == 1 && Around(b, i) in h.free;
    forall j | b.k < j <= TOP
      ensures b in h.free ==> Around(b, j) !in h.free
    {
      AroundShares(h, b, j);
    }
  }

  lemma AroundShares(h: Heap, b: Blk, j: nat)
    requires Tiling(h) && b.k <= j <= TOP && InHeap(h.size, b)
    ensures b in h.free && Around(b, j) in h.free ==> j == b.k
  {
    var u := FirstUnit(h.size, b);
    ClimbUnit(u, b.k, j - b.k);
    assert Inside(Around(b, j), u);
    assert Around(b, j) in h.free ==> Owns(h, Around(b, j));
    assert b in h.free ==> Owns(h, b);
  }

  /** An allocated block is not free, nor is the buddy of a merged region. */
  lemma Whereabouts(h: Heap, b: Blk)
    requires Good(h) && (b in h.alloc || FreeRegion(h, b))
    ensures InHeap(h.size, b) && !(b in h.alloc && (b in h.free || FreeRegion(h, b)))
    ensures FreeRegion(h, b) && b !in h.free && b.k < TOP ==> BuddyOf(b) !in h.free
  {
    if b in h.alloc {
      InGood(h, b);
      AllocNotFree(h, b);
    } else if b !in h.free && b.k < TOP {
      MergedBuddy(h, b);
    }
  }

  lemma AllocNotFree(h: Heap, b: Blk)
    requires Good(h) && b in h.alloc
    ensures !FreeRegion(h, b)
  {
    assert Look(0);
    var u := FirstUnit(h.size, b);
    assert Owns(h, b);
    assert !FreeUnit(h, u);
  }

  lemma MergedBuddy(h: Heap, b: Blk)
    requires Good(h) && FreeRegion(h, b) && b !in h.free && b.k < TOP
    ensures BuddyOf(b) !in h.free
  {
    assert Look(0);
    var j := RegionInBlock(h, b);
    assert P(0) == 1 && j > b.k;
    var y := BuddyOf(b);
    assert At(b.id, 1) == At(y.id, 1) by { assert P(1) == 2 * P(0); }
    ClimbUnit(b.id, 1, j - b.k - 1);
    ClimbUnit(y.id, 1, j - b.k - 1);
    assert Around(y, j) == Around(b, j);
    if y in h.free { AroundShares(h, y, j); }
  }

  /** Marking a merged region gives two free blocks that share memory: no tiling has them. */
  lemma OverlapBreaks(h: Heap, b: Blk, g: Heap)
    requires Good(h) && FreeRegion(h, b) && b !in h.free && g.size == h.size && g.free == h.free + {b}
    ensures !Tiling(g)
  {
    if Tiling(g) {
      assert Around(b, b.k) == b by { assert P(0) == 1; }
      DoubleFreeCaught(h, b);
      var j :| b.k < j <= TOP && Around(b, j) in h.free;
      AroundShares(g, b, j);
    }
  }

  /** One maximal free block: freeing its first 64 bytes again goes unnoticed. */
  lemma DoubleFreeMissed()
    ensures var h, b := Heap(1, {Blk(TOP, 0)}, {}, seq(64, _ => TOP)), Blk(0, 0);
            Good(h) && FreeRegion(h, b) && !NotMerged(h, b)
  {
    var h, b := Heap(1, {Blk(TOP, 0)}, {}, seq(64, _ => TOP)), Blk(0, 0);
    assert P(0) == 1 && P(1) == 2 && P(2) == 4 && P(3) == 8 && P(4) == 16 && P(5) == 32 && P(6) == 64;
    forall u: nat | u < 64
      ensures At(u, TOP) == 0
    {
    }
    assert Tiling(h);
    assert Around(b, TOP) == Blk(TOP, 0);
  }

  /** The block get_blk picks: the first bit of the first listed mark. */
  method ListedBlock(o: Order, ghost l: seq<nat>) returns (id: nat)
    requires ListOk(o, l) && o.head != NIL
    ensures Avail(o, id)
  {
    var m := o.head;
    assert l != [] && l[0] == m;
    var i := FirstBit(o.marks[m].bitmap);
    id := m * 32 + i;
    assert id / 32 == m && id % 32 == i;
  }

  lemma BitsCleared(orders: seq<Order>, free: set<Blk>, b: Blk, o: Order)
    requires |orders| == TOP + 1 && BitsAgree(orders, free) && b.k <= TOP
    requires forall x :: Avail(o, x) <==> Avail(orders[b.k], x) && x != b.id
    ensures BitsAgree(orders[b.k := o], free - {b})
  {
  }

  lemma BitsSet(orders: seq<Order>, free: set<Blk>, b: Blk, o: Order)
    requires |orders| == TOP + 1 && BitsAgree(orders, free) && b.k <= TOP
    requires forall x :: Avail(o, x) <==> Avail(orders[b.k], x) || x == b.id
    ensures BitsAgree(orders[b.k := o], free + {b})
  {
  }

  lemma Aligned(id: nat, k: nat)
    ensures At(id * P(k), k) == id && (id * P(k)) % P(k) == 0
  {
    var u := id * P(k);
    Quotient(P(k), id, 0);
    assert u == P(k) * (u / P(k)) + u % P(k);
  }

  /** Buddies share a bitmap. */
  lemma SameMark(id: nat, buddy: nat)
    requires buddy == if id % 2 == 0 then id + 1 else id - 1
    ensures id / 32 == buddy / 32
  {
  }

  /** Address of the even one of two buddies, which is their parent's. */
  function WholeOf(id: nat, k: nat): nat {
    var even: nat := id - id % 2;
    even * P(k)
  }

  lemma WholeAt(id: nat, k: nat)
    ensures WholeOf(id, k) % P(k + 1) == 0 && At(WholeOf(id, k), k + 1) == id / 2
  {
    assert id - id % 2 == 2 * (id / 2);
    assert WholeOf(id, k) == (id / 2) * (2 * P(k));
    Aligned(id / 2, k + 1);
  }

  lemma HalfAddresses(up: nat, k: nat)
    requires up % P(k + 1) == 0
    ensures up % P(k) == 0 && At(up, k) == 2 * At(up, k + 1)
    ensures (up + P(k)) % P(k) == 0 && At(up + P(k), k) == 2 * At(up, k + 1) + 1
  {
    var q := up / P(k + 1);
    assert up == P(k + 1) * q;
    assert up == (2 * q) * P(k);
    Aligned(2 * q, k);
    assert up + P(k) == (2 * q + 1) * P(k);
    Aligned(2 * q + 1, k);
  }

  /** get_blk's scan of a bitmap. */
  method FirstBit(bitmap: set<nat>) returns (i: nat)
    requires bitmap != {} && forall x :: x in bitmap ==> 0 <= x < 32
    ensures i in bitmap && forall x :: x in bitmap ==> i <= x
  {
    i := 0;
    ghost var some :| some in bitmap;
    while i !in bitmap
      invariant 0 <= i <= some && forall x :: x in bitmap ==> i <= x
      decreases some - i
    {
      i := i + 1;
    }
  }
}
