/**
 Who owns which disk block.  Every block address kept in an inode or in an indirect
 block is a slot; the ledger records the slot of each block in use.  The lemmas say
 how each single sector change of source/fs.c moves the ledger.
 */
module Ownership {
  import opened Blocks
  import opened FsLayout
  import opened Folding

  /** The sectors as bread shows them, and the locked inode's copy in memory. */
  datatype Fs = Fs(sb: Super, disk: Disk, num: nat, ip: Inode) {
    predicate Ok() { sb.Ok(disk) && num < sb.ninodes && ip.Ok() }
  }

  /** Inode i: the memory copy if it is the locked one, the disk's otherwise. */
  function Node(f: Fs, i: nat): (n: Inode)
    requires f.Ok() && i < f.sb.ninodes
    ensures n.Ok()
  {
    if i == f.num then f.ip else GetInode(f.sb, f.disk, i)
  }

  /** Slots 0..11 are direct addresses, 12 the indirect pointer, 13 + j entry j of the indirect block. */
  datatype Slot = Slot(inum: nat, n: nat)

  const INDIRECT: nat := NDIRECT
  const SLOTS: nat := NDIRECT + 1 + NINDIRECT

  predicate IsSlot(f: Fs, sl: Slot) {
    sl.inum < f.sb.ninodes && sl.n < SLOTS
  }

  function Val(f: Fs, sl: Slot): nat
    requires f.Ok() && IsSlot(f, sl)
  {
    var addrs := Node(f, sl.inum).addrs;
    if sl.n <= INDIRECT then addrs[sl.n]
    else if addrs[INDIRECT] == 0 || addrs[INDIRECT] >= |f.disk| then 0
    else Word(f.disk[addrs[INDIRECT]], sl.n - INDIRECT - 1)
  }

  predicate InData(f: Fs, a: nat) {
    f.sb.DataStart() <= a < f.sb.size
  }

  /**
   owner: the slot of each block; loose: blocks allocated but not in a slot yet;
   gone: blocks whose bit was cleared while their slot still names them.
   */
  datatype Ledger = Ledger(owner: map<nat, Slot>, loose: set<nat>, gone: set<nat>)

  ghost predicate SlotsOwn(f: Fs, w: Ledger)
    requires f.Ok()
  {
    forall sl :: IsSlot(f, sl) && Val(f, sl) != 0 ==> Val(f, sl) in w.owner && w.owner[Val(f, sl)] == sl
  }

  ghost predicate OwnersHold(f: Fs, w: Ledger)
    requires f.Ok()
  {
    forall a :: a in w.owner ==> InData(f, a) && a != 0 && IsSlot(f, w.owner[a]) && Val(f, w.owner[a]) == a
  }

  ghost predicate BitsTell(f: Fs, w: Ledger)
    requires f.Ok()
  {
    forall b :: 0 <= b < f.sb.size ==>
      (BitOf(f.sb, f.disk, b) <==> b < f.sb.DataStart() || (b in w.owner && b !in w.gone) || b in w.loose)
  }

  /** Each block in use belongs to exactly one slot of one inode, and the bitmap says so. */
  ghost predicate Owned(f: Fs, w: Ledger)
    requires f.Ok()
  {
    forall k {:trigger Look(k)} :: Look(k) ==>
      && SlotsOwn(f, w) && OwnersHold(f, w) && BitsTell(f, w)
      && (forall a :: a in w.loose ==> InData(f, a) && a !in w.owner)
      && w.gone <= w.owner.Keys
  }

  /** The same addresses everywhere. */
  ghost predicate SameVals(f: Fs, g: Fs)
    requires f.Ok() && g.Ok()
  {
    g.sb == f.sb && forall sl :: IsSlot(f, sl) ==> Val(g, sl) == Val(f, sl)
  }

  /** The same addresses keep the same owners. */
  lemma SameOwners(f: Fs, g: Fs, w: Ledger, v: Ledger)
    requires f.Ok() && g.Ok() && SameVals(f, g) && v.owner == w.owner && SlotsOwn(f, w) && OwnersHold(f, w)
    ensures SlotsOwn(g, v) && OwnersHold(g, v)
  {
    forall sl | IsSlot(g, sl) && Val(g, sl) != 0
      ensures Val(g, sl) in v.owner && v.owner[Val(g, sl)] == sl
    {
      assert Val(f, sl) in w.owner && w.owner[Val(f, sl)] == sl;
    }
    forall a | a in v.owner
      ensures InData(g, a) && a != 0 && IsSlot(g, v.owner[a]) && Val(g, v.owner[a]) == a
    {
      assert Val(f, w.owner[a]) == a;
    }
  }

  /** One bit flips with the ledger, all others stay. */
  lemma BitFlips(f: Fs, g: Fs, w: Ledger, v: Ledger, a: nat, on: bool)
    requires f.Ok() && g.Ok() && g.sb == f.sb && BitsTell(f, w) && a < f.sb.size && v.owner == w.owner
    requires forall c :: 0 <= c < f.sb.size ==> BitOf(g.sb, g.disk, c) == if c == a then on else BitOf(f.sb, f.disk, c)
    requires forall c :: c != a ==> (c in v.gone <==> c in w.gone) && (c in v.loose <==> c in w.loose)
    requires on <==> a < f.sb.DataStart() || (a in v.owner && a !in v.gone) || a in v.loose
    ensures BitsTell(g, v)
  {
  }

  lemma KeepOwned(f: Fs, g: Fs, w: Ledger)
    requires f.Ok() && g.Ok() && Owned(f, w) && SameVals(f, g)
    requires forall b :: 0 <= b < f.sb.size ==> BitOf(g.sb, g.disk, b) == BitOf(f.sb, f.disk, b)
    ensures Owned(g, w)
  {
    assert Look(0);
  }

  /** No sector below the data area moves: inodes and bitmap stay. */
  lemma MetaKept(f: Fs, g: Fs, a: nat, blk: Block)
    requires f.Ok() && InData(f, a) && g == f.(disk := f.disk[a := blk])
    ensures g.Ok()
    ensures forall i :: 0 <= i < f.sb.ninodes ==> Node(g, i) == Node(f, i)
    ensures forall b :: 0 <= b < f.sb.size ==> BitOf(g.sb, g.disk, b) == BitOf(f.sb, f.disk, b)
  {
    forall i | 0 <= i < f.sb.ninodes
      ensures Node(g, i) == Node(f, i)
    {
      LayoutApart(f.sb, i, a);
    }
    forall b | 0 <= b < f.sb.size
      ensures BitOf(g.sb, g.disk, b) == BitOf(f.sb, f.disk, b)
    {
      assert f.sb.BBlock(b) < f.sb.DataStart();
    }
  }

  /** Writing a data sector that is nobody's indirect block changes no address. */
  lemma DataWrite(f: Fs, w: Ledger, a: nat, blk: Block)
    requires f.Ok() && Owned(f, w) && InData(f, a)
    requires a in w.owner ==> w.owner[a].n != INDIRECT
    ensures var g := f.(disk := f.disk[a := blk]); g.Ok() && SameVals(f, g) && Owned(g, w)
  {
    assert Look(0);
    var g := f.(disk := f.disk[a := blk]);
    MetaKept(f, g, a, blk);
    forall sl | IsSlot(f, sl)
      ensures Val(g, sl) == Val(f, sl)
    {
      var p := Slot(sl.inum, INDIRECT);
      assert IsSlot(f, p) && (Val(f, p) != 0 ==> w.owner[Val(f, p)] == p);
    }
    KeepOwned(f, g, w);
  }

  /** Writing a bitmap bit changes that bit and no address. */
  lemma BitWrite(f: Fs, w: Ledger, b: nat, on: bool)
    requires f.Ok() && Owned(f, w) && b < f.sb.size
    ensures var g := f.(disk := f.disk[f.sb.BBlock(b) := PutBit(f.disk[f.sb.BBlock(b)], b, on)]);
            && g.Ok() && SameVals(f, g)
            && forall c ::
              0 <= c < f.sb.size ==> BitOf(g.sb, g.disk, c) == if c == b then on else BitOf(f.sb, f.disk, c)
  {
    assert Look(0);
    var g := f.(disk := f.disk[f.sb.BBlock(b) := PutBit(f.disk[f.sb.BBlock(b)], b, on)]);
    forall c | 0 <= c < f.sb.size
      ensures BitOf(g.sb, g.disk, c) == if c == b then on else BitOf(f.sb, f.disk, c)
    {
      PutBitIs(f.sb, f.disk, b, on, c);
    }
    forall i | 0 <= i < f.sb.ninodes
      ensures Node(g, i) == Node(f, i)
    {
      LayoutApart(f.sb, i, b);
    }
    forall sl | IsSlot(f, sl)
      ensures Val(g, sl) == Val(f, sl)
    {
      PointerInData(f, w, sl.inum);
      assert f.sb.BBlock(b) < f.sb.DataStart();
    }
  }

  lemma PointerInData(f: Fs, w: Ledger, i: nat)
    requires f.Ok() && Owned(f, w) && i < f.sb.ninodes
    ensures var p := Node(f, i).addrs[INDIRECT]; p != 0 ==> InData(f, p)
  {
    assert Look(0);
    var p := Slot(i, INDIRECT);
    assert IsSlot(f, p) && (Val(f, p) != 0 ==> Val(f, p) in w.owner);
  }

  /** iupdate: the memory copy goes to its sector; every inode and address stays what it is. */
  lemma InodeWrite(f: Fs, w: Ledger)
    requires f.Ok() && Owned(f, w)
    ensures var g := f.(disk := f.disk[f.sb.IBlock(f.num) := PutInode(f.disk[f.sb.IBlock(f.num)], f.num, f.ip)]);
            && g.Ok() && SameVals(f, g) && Owned(g, w) && GetInode(g.sb, g.disk, g.num) == g.ip
            && forall i :: 0 <= i < f.sb.ninodes ==> Node(g, i) == Node(f, i)
  {
    assert Look(0);
    var g := f.(disk := f.disk[f.sb.IBlock(f.num) := PutInode(f.disk[f.sb.IBlock(f.num)], f.num, f.ip)]);
    PutInodeIs(f.sb, f.disk, f.num, f.ip, f.num);
    forall i | 0 <= i < f.sb.ninodes
      ensures Node(g, i) == Node(f, i)
    {
      PutInodeIs(f.sb, f.disk, f.num, f.ip, i);
    }
    forall b | 0 <= b < f.sb.size
      ensures BitOf(g.sb, g.disk, b) == BitOf(f.sb, f.disk, b)
    {
      LayoutApart(f.sb, f.num, b);
    }
    forall sl | IsSlot(f, sl)
      ensures Val(g, sl) == Val(f, sl)
    {
      PointerInData(f, w, sl.inum);
    }
    KeepOwned(f, g, w);
  }

  // ---------------------------------------------------------------- taking and filing blocks

  /** balloc's two sector writes: the bit, then the zeroed block.  The block is in use but in no slot yet. */
  lemma Allocated(f: Fs, w: Ledger, a: nat, zero: Block)
    requires f.Ok() && Owned(f, w) && a < f.sb.size && !BitOf(f.sb, f.disk, a)
    ensures InData(f, a) && a !in w.loose && (a in w.owner ==> a in w.gone)
    ensures w.gone == {} ==>
            var d: Disk := f.disk[f.sb.BBlock(a) := PutBit(f.disk[f.sb.BBlock(a)], a, true)];
            var g := f.(disk := d[a := zero]);
            g.Ok() && SameVals(f, g) && Owned(g, w.(loose := w.loose + {a}))
  {
    assert Look(0);
    if w.gone == {} {
      BitWrite(f, w, a, true);
      var d: Disk := f.disk[f.sb.BBlock(a) := PutBit(f.disk[f.sb.BBlock(a)], a, true)];
      var h := f.(disk := d);
      var v := w.(loose := w.loose + {a});
      SameOwners(f, h, w, v);
      BitFlips(f, h, w, v, a, true);
      assert Owned(h, v);
      DataWrite(h, v, a, zero);
    }
  }

  /** One slot takes a loose block, every other address and every bit stays: the ledger follows. */
  lemma Enter(f: Fs, g: Fs, w: Ledger, sl: Slot, a: nat)
    requires f.Ok() && g.Ok() && g.sb == f.sb && Owned(f, w) && w.gone == {} && a in w.loose && a != 0
    requires IsSlot(f, sl) && Val(f, sl) == 0 && Val(g, sl) == a
    requires forall t :: IsSlot(f, t) && t != sl ==> Val(g, t) == Val(f, t)
    requires forall b :: 0 <= b < f.sb.size ==> BitOf(g.sb, g.disk, b) == BitOf(f.sb, f.disk, b)
    ensures Owned(g, Ledger(w.owner[a := sl], w.loose - {a}, {}))
  {
    assert Look(0);
    var v := Ledger(w.owner[a := sl], w.loose - {a}, {});
    EnterSlots(f, g, w, sl, a);
    EnterOwners(f, g, w, sl, a);
    assert BitsTell(g, v);
  }

  lemma EnterSlots(f: Fs, g: Fs, w: Ledger, sl: Slot, a: nat)
    requires f.Ok() && g.Ok() && g.sb == f.sb && SlotsOwn(f, w) && a !in w.owner
    requires IsSlot(f, sl) && Val(g, sl) == a
    requires forall t :: IsSlot(f, t) && t != sl ==> Val(g, t) == Val(f, t)
    ensures SlotsOwn(g, w.(owner := w.owner[a := sl]))
  {
    forall t | IsSlot(g, t) && Val(g, t) != 0
      ensures Val(g, t) in w.owner[a := sl] && w.owner[a := sl][Val(g, t)] == t
    {
      assert t != sl ==> Val(f, t) in w.owner && w.owner[Val(f, t)] == t;
    }
  }

  lemma EnterOwners(f: Fs, g: Fs, w: Ledger, sl: Slot, a: nat)
    requires f.Ok() && g.Ok() && g.sb == f.sb && OwnersHold(f, w) && InData(f, a) && a != 0
    requires IsSlot(f, sl) && Val(f, sl) == 0 && Val(g, sl) == a
    requires forall t :: IsSlot(f, t) && t != sl ==> Val(g, t) == Val(f, t)
    ensures OwnersHold(g, w.(owner := w.owner[a := sl]))
  {
    forall b | b in w.owner[a := sl]
      ensures InData(g, b) && b != 0 && IsSlot(g, w.owner[a := sl][b]) && Val(g, w.owner[a := sl][b]) == b
    {
      assert b != a ==> Val(f, w.owner[b]) == b && w.owner[b] != sl;
    }
  }

  /** A fresh block goes into an empty address of the locked inode. */
  lemma Filed(f: Fs, w: Ledger, n: nat, a: nat)
    requires f.Ok() && Owned(f, w) && w.gone == {} && n <= INDIRECT && a in w.loose && a != 0 && a < f.sb.size
    requires f.ip.addrs[n] == 0
    requires n == INDIRECT ==> forall j :: 0 <= j < NINDIRECT ==> Word(f.disk[a], j) == 0
    ensures var g := f.(ip := f.ip.(addrs := f.ip.addrs[n := a]));
            var sl := Slot(f.num, n);
            && g.Ok() && Owned(g, Ledger(w.owner[a := sl], w.loose - {a}, {}))
            && Val(g, sl) == a && forall t :: IsSlot(f, t) && t != sl ==> Val(g, t) == Val(f, t)
  {
    assert Look(0);
    var g := f.(ip := f.ip.(addrs := f.ip.addrs[n := a]));
    var sl := Slot(f.num, n);
    forall t | IsSlot(f, t) && t != sl
      ensures Val(g, t) == Val(f, t)
    {
    }
    Enter(f, g, w, sl, a);
  }

  /** A fresh block goes into an empty entry of the locked inode's indirect block. */
  lemma FiledEntry(f: Fs, w: Ledger, j: nat, a: nat)
    requires f.Ok() && Owned(f, w) && w.gone == {} && j < NINDIRECT && a in w.loose && a != 0 && a < 0x1_0000_0000
    requires var p := f.ip.addrs[INDIRECT]; p != 0 && p < |f.disk| && Word(f.disk[p], j) == 0
    ensures var p := f.ip.addrs[INDIRECT];
            var g := f.(disk := f.disk[p := PutWord(f.disk[p], j, a)]);
            var sl := Slot(f.num, INDIRECT + 1 + j);
            && g.Ok() && Owned(g, Ledger(w.owner[a := sl], w.loose - {a}, {}))
            && Val(g, sl) == a && forall t :: IsSlot(f, t) && t != sl ==> Val(g, t) == Val(f, t)
  {
    var p := f.ip.addrs[INDIRECT];
    var blk := PutWord(f.disk[p], j, a);
    var g := f.(disk := f.disk[p := blk]);
    var sl := Slot(f.num, INDIRECT + 1 + j);
    PointerInData(f, w, f.num);
    MetaKept(f, g, p, blk);
    forall t | IsSlot(f, t) && t != sl
      ensures Val(g, t) == Val(f, t)
    {
      EntryOnly(f, g, w, j, a, t);
    }
    Enter(f, g, w, sl, a);
  }

  /** Writing entry j of the locked inode's indirect block moves no other slot. */
  lemma EntryOnly(f: Fs, g: Fs, w: Ledger, j: nat, a: nat, t: Slot)
    requires f.Ok() && g.Ok() && Owned(f, w) && j < NINDIRECT && a < 0x1_0000_0000 && IsSlot(f, t)
             && t != Slot(f.num, INDIRECT + 1 + j)
    requires var p := f.ip.addrs[INDIRECT];
               p != 0 && p < |f.disk| && g == f.(disk := f.disk[p := PutWord(f.disk[p], j, a)])
    requires Node(g, t.inum) == Node(f, t.inum)
    ensures Val(g, t) == Val(f, t)
  {
    if t.inum != f.num { PointersApart(f, w, t.inum); }
  }

  /** Different inodes have different indirect blocks. */
  lemma PointersApart(f: Fs, w: Ledger, i: nat)
    requires f.Ok() && Owned(f, w) && i < f.sb.ninodes && i != f.num
    ensures f.ip.addrs[INDIRECT] != 0 ==> Node(f, i).addrs[INDIRECT] != f.ip.addrs[INDIRECT]
  {
    assert Look(0);
    var p, q := Slot(f.num, INDIRECT), Slot(i, INDIRECT);
    assert IsSlot(f, p) && IsSlot(f, q);
    assert Val(f, p) != 0 ==> w.owner[Val(f, p)] == p;
    assert Val(f, q) != 0 ==> w.owner[Val(f, q)] == q;
  }

  // ---------------------------------------------------------------- giving blocks back

  /** bfree finds the bit set, and clears it. */
  lemma Cleared(f: Fs, w: Ledger, a: nat)
    requires f.Ok() && Owned(f, w) && a in w.owner && a !in w.gone
    ensures InData(f, a) && BitOf(f.sb, f.disk, a)
    ensures var g := f.(disk := f.disk[f.sb.BBlock(a) := PutBit(f.disk[f.sb.BBlock(a)], a, false)]);
            g.Ok() && SameVals(f, g) && Owned(g, w.(gone := w.gone + {a}))
  {
    assert InData(f, a) && BitOf(f.sb, f.disk, a) by { assert Look(0); }
    BitWrite(f, w, a, false);
    ClearedOwned(f, f.(disk := f.disk[f.sb.BBlock(a) := PutBit(f.disk[f.sb.BBlock(a)], a, false)]), w, a);
  }

  lemma ClearedOwned(f: Fs, g: Fs, w: Ledger, a: nat)
    requires f.Ok() && g.Ok() && SameVals(f, g) && Owned(f, w) && a in w.owner && InData(f, a)
    requires forall c ::
               0 <= c < f.sb.size ==> BitOf(g.sb, g.disk, c) == if c == a then false else BitOf(f.sb, f.disk, c)
    ensures Owned(g, w.(gone := w.gone + {a}))
  {
    assert Look(0);
    SameOwners(f, g, w, w.(gone := w.gone + {a}));
    BitCleared(f, g, w, a);
  }

  lemma BitCleared(f: Fs, g: Fs, w: Ledger, a: nat)
    requires f.Ok() && g.Ok() && g.sb == f.sb && BitsTell(f, w) && InData(f, a) && a !in w.loose
    requires forall c ::
               0 <= c < f.sb.size ==> BitOf(g.sb, g.disk, c) == if c == a then false else BitOf(f.sb, f.disk, c)
    ensures BitsTell(g, w.(gone := w.gone + {a}))
  {
    BitFlips(f, g, w, w.(gone := w.gone + {a}), a, false);
  }

  /** Slots whose blocks were freed are reset: the ledger forgets those blocks. */
  lemma Leave(f: Fs, g: Fs, w: Ledger, out: set<nat>)
    requires f.Ok() && g.Ok() && g.sb == f.sb && g.disk == f.disk && Owned(f, w) && out <= w.gone
    requires forall t :: IsSlot(f, t) ==> Val(g, t) == if Val(f, t) in out then 0 else Val(f, t)
    ensures Owned(g, Ledger(w.owner - out, w.loose, w.gone - out))
  {
    assert Look(0);
    var v := Ledger(w.owner - out, w.loose, w.gone - out);
    LeaveSlots(f, g, w, out);
    LeaveOwners(f, g, w, out);
    assert BitsTell(g, v);
  }

  lemma LeaveSlots(f: Fs, g: Fs, w: Ledger, out: set<nat>)
    requires f.Ok() && g.Ok() && g.sb == f.sb && SlotsOwn(f, w)
    requires forall t :: IsSlot(f, t) ==> Val(g, t) == if Val(f, t) in out then 0 else Val(f, t)
    ensures SlotsOwn(g, w.(owner := w.owner - out))
  {
    forall t | IsSlot(g, t) && Val(g, t) != 0
      ensures Val(g, t) in w.owner - out && (w.owner - out)[Val(g, t)] == t
    {
      assert Val(f, t) in w.owner && w.owner[Val(f, t)] == t;
    }
  }

  lemma LeaveOwners(f: Fs, g: Fs, w: Ledger, out: set<nat>)
    requires f.Ok() && g.Ok() && g.sb == f.sb && OwnersHold(f, w)
    requires forall t :: IsSlot(f, t) ==> Val(g, t) == if Val(f, t) in out then 0 else Val(f, t)
    ensures OwnersHold(g, w.(owner := w.owner - out))
  {
    forall b | b in w.owner - out
      ensures InData(g, b) && b != 0 && IsSlot(g, w.owner[b]) && Val(g, w.owner[b]) == b
    {
      assert Val(f, w.owner[b]) == b;
    }
  }

  /** A direct address is reset after its block was freed. */
  lemma Dropped(f: Fs, w: Ledger, n: nat)
    requires f.Ok() && Owned(f, w) && n < INDIRECT && f.ip.addrs[n] != 0 && f.ip.addrs[n] in w.gone
    ensures var a := f.ip.addrs[n];
            var g := f.(ip := f.ip.(addrs := f.ip.addrs[n := 0]));
            && g.Ok() && Owned(g, Ledger(w.owner - {a}, w.loose, w.gone - {a}))
            && forall t :: IsSlot(f, t) ==> Val(g, t) == if t == Slot(f.num, n) then 0 else Val(f, t)
  {
    var a := f.ip.addrs[n];
    var g := f.(ip := f.ip.(addrs := f.ip.addrs[n := 0]));
    var sl := Slot(f.num, n);
    assert IsSlot(f, sl) && Val(f, sl) == a;
    forall t | IsSlot(f, t)
      ensures Val(g, t) == if t == sl then 0 else Val(f, t)
      ensures Val(f, t) == a <==> t == sl
    {
      OneSlot(f, w, sl, t);
    }
    Leave(f, g, w, {a});
  }

  /** No block is in two slots. */
  lemma OneSlot(f: Fs, w: Ledger, s: Slot, t: Slot)
    requires f.Ok() && Owned(f, w) && IsSlot(f, s) && IsSlot(f, t) && Val(f, s) != 0
    ensures Val(f, s) == Val(f, t) <==> s == t
  {
    assert Look(0);
    assert w.owner[Val(f, s)] == s;
  }

  /** Slots that go when the indirect pointer is reset. */
  predicate UnderPointer(f: Fs, sl: Slot) {
    sl.inum == f.num && INDIRECT <= sl.n < SLOTS
  }

  /** The indirect pointer is reset after every block under it, and the indirect block, was freed. */
  lemma DroppedPointer(f: Fs, w: Ledger)
    requires f.Ok() && Owned(f, w)
    requires forall a :: a in w.gone <==> a in w.owner && UnderPointer(f, w.owner[a])
    ensures var g := f.(ip := f.ip.(addrs := f.ip.addrs[INDIRECT := 0]));
            && g.Ok() && Owned(g, Ledger(w.owner - w.gone, w.loose, {}))
            && forall t :: IsSlot(f, t) ==> Val(g, t) == if UnderPointer(f, t) then 0 else Val(f, t)
  {
    var g := f.(ip := f.ip.(addrs := f.ip.addrs[INDIRECT := 0]));
    forall t | IsSlot(f, t)
      ensures Val(g, t) == if UnderPointer(f, t) then 0 else Val(f, t)
      ensures Val(f, t) in w.gone <==> UnderPointer(f, t) && Val(f, t) != 0
    {
      UnderIsGone(f, w, t);
    }
    Leave(f, g, w, w.gone);
    assert w.gone - w.gone == {};
  }

  lemma UnderIsGone(f: Fs, w: Ledger, t: Slot)
    requires f.Ok() && Owned(f, w) && IsSlot(f, t)
    requires forall a :: a in w.gone <==> a in w.owner && UnderPointer(f, w.owner[a])
    ensures Val(f, t) in w.gone <==> UnderPointer(f, t) && Val(f, t) != 0
  {
    assert Look(0);
    assert Val(f, t) != 0 ==> w.owner[Val(f, t)] == t;
  }
}
