/**
 Inode contents on disk blocks (source/fs.c): block allocation, the block map, and
 reading, writing and truncating, as a refinement of plain byte sequences.  `disk`
 is the flat sector map of module BlockStore inside a transaction: a bread is a
 look-up, a log_write an update, and `logged` collects the sectors updated.
 */
module Files {
  import opened Division
  import opened Wrappers
  import opened Blocks
  import opened FsLayout
  import opened Ownership
  import opened Folding
  import Counting

  // ---------------------------------------------------------------- what a file holds

  function SlotOf(i: nat, bn: nat): Slot {
    Slot(i, if bn < NDIRECT then bn else bn + 1)
  }

  predicate Mapped(f: Fs, i: nat, bn: nat)
    requires f.Ok() && i < f.sb.ninodes
  {
    bn < MAXFILE && Val(f, SlotOf(i, bn)) != 0
  }

  /** Byte k of inode i's blocks, mapped or not yet counted in its size. */
  function ByteAt(f: Fs, i: nat, k: nat): byte
    requires f.Ok() && i < f.sb.ninodes && k < MAXFILE * BSIZE
  {
    var a := Val(f, SlotOf(i, k / BSIZE));
    if a < |f.disk| then f.disk[a][k % BSIZE] else 0
  }

  /** Every block the size counts is there. */
  ghost predicate Dense(f: Fs, i: nat)
    requires f.Ok() && i < f.sb.ninodes
  {
    Node(f, i).size <= MAXFILE * BSIZE &&
    forall k {:trigger Peek(k)} :: Peek(k) ==> forall bn :: 0 <= bn && bn * BSIZE < Node(f, i).size ==> Mapped(f, i, bn)
  }

  function Contents(f: Fs, i: nat): (c: seq<byte>)
    requires f.Ok() && i < f.sb.ninodes && Node(f, i).size <= MAXFILE * BSIZE
    ensures |c| == Node(f, i).size
    ensures forall k :: 0 <= k < |c| ==> c[k] == ByteAt(f, i, k)
  {
    seq<byte>(Node(f, i).size, k requires 0 <= k < Node(f, i).size => ByteAt(f, i, k))
  }

  /** Data blocks in use in f are in the same slots of g, with the same bytes, except perhaps slot `but`. */
  ghost predicate SameData(f: Fs, g: Fs, but: Slot)
    requires f.Ok() && g.Ok()
  {
    && g.sb == f.sb && |g.disk| == |f.disk| && g.num == f.num
    && (forall i :: 0 <= i < f.sb.ninodes && i != f.num ==> Node(g, i) == Node(f, i))
    && forall sl :: IsSlot(f, sl) && sl.n != INDIRECT && sl != but && Val(f, sl) != 0 ==>
         Val(g, sl) == Val(f, sl) && (Val(f, sl) < |f.disk| ==> g.disk[Val(f, sl)] == f.disk[Val(f, sl)])
  }

  /** No slot is excepted. */
  const NOSLOT: Slot := Slot(0, INDIRECT)

  lemma SameDataTrans(f: Fs, g: Fs, h: Fs, but: Slot)
    requires f.Ok() && g.Ok() && h.Ok() && SameData(f, g, NOSLOT) && SameData(g, h, but)
    ensures SameData(f, h, but)
  {
  }

  /** Every other inode, its addresses and its data blocks are as before. */
  ghost predicate SameOthers(f: Fs, g: Fs)
    requires f.Ok() && g.Ok()
  {
    && g.sb == f.sb && |g.disk| == |f.disk| && g.num == f.num
    && forall k {:trigger Peek(k)} :: Peek(k) ==>
         && (forall i :: 0 <= i < f.sb.ninodes && i != f.num ==> Node(g, i) == Node(f, i))
         && forall sl :: IsSlot(f, sl) && sl.n != INDIRECT && sl.inum != f.num && Val(f, sl) != 0 ==>
              Val(g, sl) == Val(f, sl) && (Val(f, sl) < |f.disk| ==> g.disk[Val(f, sl)] == f.disk[Val(f, sl)])
  }

  lemma SameOthersTrans(f: Fs, g: Fs, h: Fs)
    requires f.Ok() && g.Ok() && h.Ok() && SameOthers(f, g) && SameOthers(g, h)
    ensures SameOthers(f, h)
  {
    assert Peek(0);
  }

  lemma SameOthersSelf(f: Fs)
    requires f.Ok()
    ensures SameOthers(f, f)
  {
  }

  /** Another inode's contents depend on nothing that changed. */
  lemma OthersKept(f: Fs, g: Fs, i: nat)
    requires f.Ok() && g.Ok() && SameOthers(f, g) && i < f.sb.ninodes && i != f.num && Dense(f, i)
    ensures Dense(g, i) && Contents(g, i) == Contents(f, i)
  {
    assert Peek(0);
    forall bn | 0 <= bn && bn * BSIZE < Node(f, i).size
      ensures Mapped(g, i, bn)
    {
      assert Mapped(f, i, bn) && IsSlot(f, SlotOf(i, bn));
    }
    forall k | 0 <= k < Node(f, i).size
      ensures ByteAt(g, i, k) == ByteAt(f, i, k)
    {
      assert Mapped(f, i, k / BSIZE) && IsSlot(f, SlotOf(i, k / BSIZE));
    }
  }

  // ---------------------------------------------------------------- chunks

  lemma ChunkAt(off: nat, k: nat)
    requires off <= k < off + (BSIZE - off % BSIZE)
    ensures k / BSIZE == off / BSIZE && k % BSIZE == off % BSIZE + (k - off)
  {
  }

  /** memmove of data into a sector at position `at`. */
  function Overlay(b: Block, at: nat, data: seq<byte>): (r: Block)
    requires at + |data| <= BSIZE
    ensures forall k :: 0 <= k < BSIZE ==> r[k] == if at <= k < at + |data| then data[k - at] else b[k]
  {
    b[..at] + data + b[at + |data|..]
  }

  /** From f0 to g the bytes src[..tot] went in at offset off0; no other byte of any file changed. */
  ghost predicate Wrote(f0: Fs, g: Fs, off0: nat, src: seq<byte>, tot: nat)
    requires f0.Ok() && g.Ok() && tot <= |src|
  {
    && SameOthers(f0, g) && g.ip.size == f0.ip.size
    && forall l {:trigger Peek(l)} :: Peek(l) ==>
         && (forall bn :: 0 <= bn < MAXFILE && (Mapped(f0, f0.num, bn) || (off0 / BSIZE <= bn && bn * BSIZE < off0 + tot)) ==> Mapped(g, f0.num, bn))
         && (forall k :: 0 <= k < MAXFILE * BSIZE ==>
               if off0 <= k < off0 + tot then ByteAt(g, f0.num, k) == src[k - off0]
               else Mapped(f0, f0.num, k / BSIZE) ==> ByteAt(g, f0.num, k) == ByteAt(f0, f0.num, k))
  }

  /** The step of one block: its bytes from off on are data, its others and all other blocks are as before. */
  ghost predicate WroteChunk(f: Fs, g: Fs, off: nat, data: seq<byte>)
    requires f.Ok() && g.Ok()
  {
    && off + |data| <= MAXFILE * BSIZE && SameOthers(f, g) && g.ip.size == f.ip.size && Mapped(g, f.num, off / BSIZE)
    && PointerKept(f, g)
    && (forall bn :: 0 <= bn < MAXFILE && bn != off / BSIZE ==> Val(g, SlotOf(f.num, bn)) == Val(f, SlotOf(f.num, bn)))
    && (forall k :: 0 <= k < MAXFILE * BSIZE && off <= k < off + |data| ==> ByteAt(g, f.num, k) == data[k - off])
    && (forall k :: 0 <= k < MAXFILE * BSIZE && !(off <= k < off + |data|) && Mapped(f, f.num, k / BSIZE) ==>
          ByteAt(g, f.num, k) == ByteAt(f, f.num, k))
  }

  lemma WroteMore(f0: Fs, f: Fs, g: Fs, off0: nat, src: seq<byte>, tot: nat, m: nat)
    requires f0.Ok() && f.Ok() && g.Ok() && 0 < m && tot + m <= |src| && m <= BSIZE - (off0 + tot) % BSIZE
    requires Wrote(f0, f, off0, src, tot) && WroteChunk(f, g, off0 + tot, src[tot..tot + m])
    ensures Wrote(f0, g, off0, src, tot + m)
  {
    SameOthersTrans(f0, f, g);
    forall bn | 0 <= bn < MAXFILE && (Mapped(f0, f0.num, bn) || (off0 / BSIZE <= bn && bn * BSIZE < off0 + tot + m))
      ensures Mapped(g, f0.num, bn)
    {
      MappedMore(f0, f, g, off0, src, tot, m, bn);
    }
    forall k | 0 <= k < MAXFILE * BSIZE
      ensures if off0 <= k < off0 + tot + m then ByteAt(g, f0.num, k) == src[k - off0]
              else Mapped(f0, f0.num, k / BSIZE) ==> ByteAt(g, f0.num, k) == ByteAt(f0, f0.num, k)
    {
      ByteMore(f0, f, g, off0, src, tot, m, k);
    }
  }

  lemma MappedMore(f0: Fs, f: Fs, g: Fs, off0: nat, src: seq<byte>, tot: nat, m: nat, bn: nat)
    requires f0.Ok() && f.Ok() && g.Ok() && 0 < m && tot + m <= |src| && m <= BSIZE - (off0 + tot) % BSIZE
    requires Wrote(f0, f, off0, src, tot) && WroteChunk(f, g, off0 + tot, src[tot..tot + m])
    requires bn < MAXFILE && (Mapped(f0, f0.num, bn) || (off0 / BSIZE <= bn && bn * BSIZE < off0 + tot + m))
    ensures Mapped(g, f0.num, bn)
  {
    assert Peek(0);
    var off := off0 + tot;
    if bn != off / BSIZE {
      assert Mapped(f, f0.num, bn) by {
        if !Mapped(f0, f0.num, bn) { assert bn * BSIZE < off; }
      }
      assert Val(g, SlotOf(f0.num, bn)) == Val(f, SlotOf(f0.num, bn));
    }
  }

  lemma ByteMore(f0: Fs, f: Fs, g: Fs, off0: nat, src: seq<byte>, tot: nat, m: nat, k: nat)
    requires f0.Ok() && f.Ok() && g.Ok() && 0 < m && tot + m <= |src|
    requires Wrote(f0, f, off0, src, tot) && WroteChunk(f, g, off0 + tot, src[tot..tot + m]) && k < MAXFILE * BSIZE
    ensures if off0 <= k < off0 + tot + m then ByteAt(g, f0.num, k) == src[k - off0]
            else Mapped(f0, f0.num, k / BSIZE) ==> ByteAt(g, f0.num, k) == ByteAt(f0, f0.num, k)
  {
    assert Peek(0);
    var off := off0 + tot;
    if off <= k < off + m {
      assert ByteAt(g, f0.num, k) == src[tot..tot + m][k - off];
    } else if off0 <= k < off {
      assert Mapped(f, f0.num, k / BSIZE);
    } else if Mapped(f0, f0.num, k / BSIZE) {
      assert Mapped(f, f0.num, k / BSIZE);
    }
  }

  /** The indirect block, if there is one. */
  function PointerSet(f: Fs): set<nat>
    requires f.Ok()
  {
    if f.ip.addrs[INDIRECT] == 0 then {} else {f.ip.addrs[INDIRECT]}
  }

  /** The blocks of `count` file blocks from bn on. */
  function BlockSet(f: Fs, bn: nat, count: nat): set<nat>
    requires f.Ok() && bn + count <= MAXFILE
  {
    if count == 0 then {} else BlockSet(f, bn, count - 1) + {Val(f, SlotOf(f.num, bn + count - 1))}
  }

  lemma {:induction false} BlockSetSize(f: Fs, bn: nat, count: nat)
    requires f.Ok() && bn + count <= MAXFILE
    ensures |BlockSet(f, bn, count)| <= count
  {
    if count > 0 { BlockSetSize(f, bn, count - 1); }
  }

  lemma {:induction false} BlockSetSame(f: Fs, g: Fs, bn: nat, count: nat)
    requires f.Ok() && g.Ok() && bn + count <= MAXFILE && g.num == f.num && g.sb == f.sb
    requires forall n :: bn <= n < bn + count ==> Val(g, SlotOf(f.num, n)) == Val(f, SlotOf(f.num, n))
    ensures BlockSet(g, bn, count) == BlockSet(f, bn, count)
  {
    if count > 0 { BlockSetSame(f, g, bn, count - 1); }
  }

  /** How many blocks tot bytes from off on touch. */
  function Spans(off: nat, tot: nat): nat {
    if tot == 0 then 0 else (off + tot - 1) / BSIZE - off / BSIZE + 1
  }

  // ---------------------------------------------------------------- the class

  // ---------------------------------------------------------------- calls of log_write

  /** One log_write: the sector, its new contents, and the sector of the buffer its caller holds besides, if any. */
  datatype Call = Call(s: nat, b: Block, other: Option<nat>)

  function Put(d: Disk, c: Call): (r: Disk)
    ensures |r| == |d|
  {
    if c.s < |d| then d[c.s := c.b] else d
  }

  /** The sectors after a sequence of calls. */
  function Apply(d: Disk, calls: seq<Call>): (r: Disk)
    ensures |r| == |d|
  {
    if calls == [] then d else Put(Apply(d, calls[..|calls| - 1]), calls[|calls| - 1])
  }

  function Of(o: Option<nat>): set<nat> {
    if o.Some? then {o.value} else {}
  }

  /** The sectors of buffers logged, or held besides, in a sequence of calls. */
  ghost function Sectors(calls: seq<Call>): set<nat> {
    if calls == [] then {}
    else Sectors(calls[..|calls| - 1]) + {calls[|calls| - 1].s} + Of(calls[|calls| - 1].other)
  }

  predicate CallOk(n: nat, c: Call) {
    c.s < n && (c.other.Some? ==> c.other.value < n && c.other.value != c.s)
  }

  /** The calls since `base` lead to `disk` and touch the sectors `logged`. */
  ghost predicate Kept(base: Disk, disk: Disk, calls: seq<Call>, logged: set<nat>) {
    forall k {:trigger Glance(k)} :: Glance(k) ==>
      && |base| == |disk| && disk == Apply(base, calls) && logged == Sectors(calls)
      && forall j :: 0 <= j < |calls| ==> CallOk(|disk|, calls[j])
  }

  lemma KeptMore(base: Disk, disk: Disk, calls: seq<Call>, logged: set<nat>, c: Call)
    requires Kept(base, disk, calls, logged) && CallOk(|disk|, c)
    ensures Kept(base, Put(disk, c), calls + [c], logged + {c.s} + Of(c.other))
  {
    assert Glance(0);
    assert (calls + [c])[..|calls|] == calls;
  }

  lemma KeptMeans(base: Disk, disk: Disk, calls: seq<Call>, logged: set<nat>)
    requires Kept(base, disk, calls, logged)
    ensures |base| == |disk| && disk == Apply(base, calls) && logged == Sectors(calls)
    ensures forall j :: 0 <= j < |calls| ==> CallOk(|disk|, calls[j])
  {
    assert Glance(0);
  }

  /** Before each call of a transaction at most six sectors are logged or held. */
  ghost predicate Fits(calls: seq<Call>) {
    forall k :: 0 <= k < |calls| ==> |Sectors(calls[..k])| <= 6
  }

  lemma {:induction false} SectorsGrow(calls: seq<Call>, k: nat)
    requires k <= |calls|
    ensures Sectors(calls[..k]) <= Sectors(calls)
  {
    if k < |calls| {
      SectorsGrow(calls[..|calls| - 1], k);
      assert calls[..|calls| - 1][..k] == calls[..k];
    } else {
      assert calls[..k] == calls;
    }
  }

  lemma SixFit(calls: seq<Call>)
    requires |Sectors(calls)| <= 6
    ensures Fits(calls) && forall c :: Fits(calls + [c])
  {
    forall k | 0 <= k <= |calls|
      ensures |Sectors(calls[..k])| <= 6
    {
      SectorsGrow(calls, k);
      SubsetSize(Sectors(calls[..k]), Sectors(calls));
    }
    forall c
      ensures Fits(calls + [c])
    {
      forall k | 0 <= k < |calls + [c]|
        ensures |Sectors((calls + [c])[..k])| <= 6
      {
        assert (calls + [c])[..k] == calls[..k];
      }
    }
  }

  /** Blocks that came to have an owner were logged. */
  ghost predicate Grew(w0: Ledger, logged0: set<nat>, w: Ledger, logged: set<nat>) {
    logged0 <= logged && w0.owner.Keys <= w.owner.Keys <= w0.owner.Keys + logged
  }

  // ---------------------------------------------------------------- which blocks come into use

  /** The slots of inode i that a write to file blocks lo up to hi fills if they are empty. */
  function Touched(i: nat, lo: nat, hi: nat): set<Slot> {
    (set bn | lo <= bn < hi :: SlotOf(i, bn)) + if lo < hi && NDIRECT < hi then {Slot(i, INDIRECT)} else {}
  }

  /** The slots for one file block. */
  function TouchedAt(i: nat, bn: nat): set<Slot> {
    Touched(i, bn, bn + 1)
  }

  function TouchedBy(i: nat, off: nat, tot: nat): set<Slot> {
    Touched(i, off / BSIZE, off / BSIZE + Spans(off, tot))
  }

  /** From w0 to w exactly the slots s were filled as far as they were empty, each with the lowest block of the data
      area then free. */
  ghost predicate Took(start: nat, w0: Ledger, w: Ledger, s: set<Slot>) {
    forall k {:trigger Spot(k)} :: Spot(k) ==>
      && w0.owner.Keys <= w.owner.Keys && w.owner.Values == w0.owner.Values + s
      && forall a, b :: a in w.owner && a !in w0.owner && start <= b < a ==> b in w.owner
  }

  lemma TookNone(start: nat, w: Ledger)
    ensures Took(start, w, w, {})
  {
  }

  lemma TookTwice(start: nat, w0: Ledger, w1: Ledger, w2: Ledger, s: set<Slot>, t: set<Slot>)
    requires Took(start, w0, w1, s) && Took(start, w1, w2, t)
    ensures Took(start, w0, w2, s + t)
  {
    assert Spot(0);
  }

  /** balloc's block filed in slot sl. */
  lemma TookOne(f: Fs, w0: Ledger, w: Ledger, a: nat, sl: Slot)
    requires f.Ok() && Owned(f, w0) && w0.gone == {} && w0.loose == {} && a < f.sb.size && !BitOf(f.sb, f.disk, a)
    requires (forall c :: 0 <= c < a ==> BitOf(f.sb, f.disk, c)) && w.owner == w0.owner[a := sl]
    ensures Took(f.sb.DataStart(), w0, w, {sl})
  {
    assert Look(0);
    assert a !in w0.owner;
    assert w.owner.Values == w0.owner.Values + {sl} by {
      forall x | x in w0.owner.Values + {sl}
        ensures x in w.owner.Values
      {
        if x == sl { assert w.owner[a] == sl; } else {
          var b :| b in w0.owner && w0.owner[b] == x;
          assert w.owner[b] == x;
        }
      }
    }
  }

  /** A mapped block needs nothing. */
  lemma TookMapped(f: Fs, w: Ledger, bn: nat)
    requires f.Ok() && Owned(f, w) && Mapped(f, f.num, bn)
    ensures Took(f.sb.DataStart(), w, w, Touched(f.num, bn, bn + 1))
  {
    OwnerOf(f, w, SlotOf(f.num, bn));
    assert SlotOf(f.num, bn) in w.owner.Values;
    if bn >= NDIRECT {
      PointerBlock(f, w);
      assert Slot(f.num, INDIRECT) in w.owner.Values;
    }
    TouchedOne(f.num, bn);
  }

  lemma TouchedOne(i: nat, bn: nat)
    ensures Touched(i, bn, bn + 1) == {SlotOf(i, bn)} + if bn >= NDIRECT then {Slot(i, INDIRECT)} else {}
  {
    assert SlotOf(i, bn) in Touched(i, bn, bn + 1);
  }

  lemma TouchedMore(i: nat, lo: nat, mid: nat, lo': nat, hi: nat)
    requires lo <= lo' <= mid <= hi && (mid < hi || lo' < hi)
    ensures Touched(i, lo, mid) + Touched(i, lo', hi) == Touched(i, lo, hi)
  {
    forall sl | sl in Touched(i, lo, hi)
      ensures sl in Touched(i, lo, mid) + Touched(i, lo', hi)
    {
      if sl != Slot(i, INDIRECT) {
        var bn :| lo <= bn < hi && sl == SlotOf(i, bn);
        if bn < mid { assert sl in Touched(i, lo, mid); } else { assert sl in Touched(i, lo', hi); }
      }
    }
    forall sl | sl in Touched(i, lo, mid) + Touched(i, lo', hi)
      ensures sl in Touched(i, lo, hi)
    {
      if sl != Slot(i, INDIRECT) {
        var bn :| lo <= bn < hi && sl == SlotOf(i, bn);
      }
    }
  }

  /** One block more of a write. */
  lemma TookBlock(start: nat, w0: Ledger, w: Ledger, v: Ledger, i: nat, off: nat, tot: nat, tot': nat)
    requires off / BSIZE + Spans(off, tot) == (off + tot) / BSIZE && Spans(off, tot') == Spans(off, tot) + 1
    requires Took(start, w0, w, TouchedBy(i, off, tot))
    requires Took(start, w, v, Touched(i, (off + tot) / BSIZE, (off + tot) / BSIZE + 1))
    ensures Took(start, w0, v, TouchedBy(i, off, tot'))
  {
    var bn := (off + tot) / BSIZE;
    TookTwice(start, w0, w, v, TouchedBy(i, off, tot), Touched(i, bn, bn + 1));
    TouchedMore(i, off / BSIZE, bn, bn, bn + 1);
  }

  /** Two adjoining writes touch what one longer write does. */
  lemma TookPiece(start: nat, w0: Ledger, w: Ledger, v: Ledger, i: nat, off: nat, tot: nat, tot': nat)
    requires tot < tot' && Took(start, w0, w, TouchedBy(i, off, tot))
             && Took(start, w, v, TouchedBy(i, off + tot, tot' - tot))
    ensures Took(start, w0, v, TouchedBy(i, off, tot'))
  {
    TookTwice(start, w0, w, v, TouchedBy(i, off, tot), TouchedBy(i, off + tot, tot' - tot));
    SpansJoin(off, tot, tot');
    if tot > 0 {
      TouchedMore(i, off / BSIZE, off / BSIZE + Spans(off, tot), (off + tot) / BSIZE, off / BSIZE + Spans(off, tot'));
    }
  }

  lemma SpansJoin(off: nat, tot: nat, tot': nat)
    requires tot < tot'
    ensures (off + tot) / BSIZE + Spans(off + tot, tot' - tot) == off / BSIZE + Spans(off, tot')
    ensures tot > 0 ==>
                off / BSIZE <= (off + tot) / BSIZE <= off / BSIZE + Spans(off, tot) <= off / BSIZE + Spans(off, tot')
    ensures (off + tot) / BSIZE < off / BSIZE + Spans(off, tot')
  {
  }

  /** The disk ran full when some of the slots s were filled, and at least one was not. */
  ghost predicate Short(f: Fs, w0: Ledger, w: Ledger, s: set<Slot>) {
    forall k {:trigger Spot(k)} :: Spot(k) ==>
      && f.Ok() && Owned(f, w) && w.loose == {} && w.gone == {} && AllUsed(f.sb, f.disk, 0, f.sb.size)
      && (exists t :: t <= s && Took(f.sb.DataStart(), w0, w, t)) && !(s <= w.owner.Values)
  }

  lemma ShortNow(f: Fs, w0: Ledger, w: Ledger, t: set<Slot>, s: set<Slot>, x: Slot)
    requires f.Ok() && Owned(f, w) && w.loose == {} && w.gone == {} && AllUsed(f.sb, f.disk, 0, f.sb.size)
    requires t <= s && Took(f.sb.DataStart(), w0, w, t) && x in s && IsSlot(f, x) && Val(f, x) == 0
    ensures Short(f, w0, w, s)
  {
    SlotsTaken(f, w);
    assert x !in w.owner.Values;
  }

  lemma ShortMeans(f: Fs, w0: Ledger, w: Ledger, s: set<Slot>)
    requires Short(f, w0, w, s)
    ensures f.Ok() && Owned(f, w) && w.owner.Values <= w0.owner.Values + s && !(s <= w.owner.Values)
    ensures forall b :: f.sb.DataStart() <= b < f.sb.size ==> b in w.owner
  {
    assert Spot(0);
    var t :| t <= s && Took(f.sb.DataStart(), w0, w, t);
    AllOwned(f, w);
  }

  lemma AllOwned(f: Fs, w: Ledger)
    requires f.Ok() && Owned(f, w) && w.loose == {} && AllUsed(f.sb, f.disk, 0, f.sb.size)
    ensures forall b :: f.sb.DataStart() <= b < f.sb.size ==> b in w.owner
  {
    assert Look(0) && Peek(0);
  }

  lemma ShortLater(f: Fs, start: nat, w0: Ledger, w1: Ledger, w: Ledger, s: set<Slot>, t: set<Slot>, all: set<Slot>)
    requires Took(start, w0, w1, s) && Short(f, w1, w, t) && start == f.sb.DataStart() && s + t <= all
    ensures Short(f, w0, w, all)
  {
    assert Spot(0);
    var x :| x <= t && Took(f.sb.DataStart(), w1, w, x);
    TookTwice(start, w0, w1, w, s, x);
  }

  // ---------------------------------------------------------------- how many blocks a write needs

  /** The empty ones among the slots s. */
  ghost function Vacant(f: Fs, s: set<Slot>): set<Slot>
    requires f.Ok()
  {
    set sl | sl in s && IsSlot(f, sl) && Val(f, sl) == 0
  }

  /** The blocks of the data area that are not in use. */
  ghost function FreeBlocks(f: Fs): set<nat>
    requires f.Ok()
  {
    set b | f.sb.DataStart() <= b < f.sb.size && !BitOf(f.sb, f.disk, b)
  }

  /** There are as many free blocks as there are empty ones among the slots s. */
  ghost predicate Enough(f: Fs, s: set<Slot>)
    requires f.Ok()
  {
    |Vacant(f, s)| <= |FreeBlocks(f)|
  }

  lemma {:induction false} OneToOne(m: map<nat, Slot>)
    requires forall a, b :: a in m && b in m && m[a] == m[b] ==> a == b
    ensures |m.Keys| == |m.Values|
  {
    if m.Keys == {} {
      assert m.Values == {};
    } else {
      var k :| k in m;
      var r := m - {k};
      OneToOne(r);
      assert m.Keys == r.Keys + {k};
      assert m.Values == r.Values + {m[k]} && m[k] !in r.Values;
    }
  }

  lemma SlotsTaken(f: Fs, w: Ledger)
    requires f.Ok() && Owned(f, w)
    ensures forall sl :: IsSlot(f, sl) ==> (sl in w.owner.Values <==> Val(f, sl) != 0)
    ensures forall a :: a in w.owner ==> f.sb.DataStart() <= a < f.sb.size
  {
    assert Look(0);
    forall sl | IsSlot(f, sl) && Val(f, sl) != 0
      ensures sl in w.owner.Values
    {
      assert w.owner[Val(f, sl)] == sl;
    }
  }

  /** There are as many blocks in use as slots filled. */
  lemma OwnersCount(f: Fs, w: Ledger)
    requires f.Ok() && Owned(f, w)
    ensures |w.owner.Keys| == |w.owner.Values|
  {
    assert Look(0);
    OneToOne(w.owner);
  }

  lemma UsedAndFree(f: Fs, w: Ledger)
    requires f.Ok() && Owned(f, w) && w.loose == {} && w.gone == {}
    ensures |w.owner.Keys| + |FreeBlocks(f)| == f.sb.size - f.sb.DataStart()
  {
    UsedOrFree(f, w);
    assert Counting.Range(f.sb.DataStart(), f.sb.size) == w.owner.Keys + FreeBlocks(f);
  }

  lemma UsedOrFree(f: Fs, w: Ledger)
    requires f.Ok() && Owned(f, w) && w.loose == {} && w.gone == {}
    ensures forall b :: b in w.owner <==> f.sb.DataStart() <= b < f.sb.size && b !in FreeBlocks(f)
  {
    assert Look(0);
  }

  lemma SlotUnion(a: set<Slot>, b: set<Slot>)
    ensures |a + b| == |a| + |b - a|
  {
    assert a + b == a + (b - a);
  }

  lemma SlotSubset(a: set<Slot>, b: set<Slot>)
    requires a <= b
    ensures |a| <= |b| && (a != b ==> |a| < |b|)
  {
    assert b == a + (b - a);
    if a != b { assert b - a != {}; }
  }

  /** The slots filled afterwards are those that were and the empty ones of s. */
  lemma VacantCount(f: Fs, w: Ledger, s: set<Slot>)
    requires f.Ok() && Owned(f, w) && forall sl :: sl in s ==> IsSlot(f, sl)
    ensures |w.owner.Values + s| == |w.owner.Keys| + |Vacant(f, s)|
  {
    SlotsTaken(f, w);
    OwnersCount(f, w);
    assert Vacant(f, s) == s - w.owner.Values;
    SlotUnion(w.owner.Values, s);
  }

  /** Slots that were all filled had blocks enough. */
  lemma TookEnough(f: Fs, w0: Ledger, g: Fs, w: Ledger, s: set<Slot>)
    requires f.Ok() && Owned(f, w0) && w0.loose == {} && w0.gone == {} && forall sl :: sl in s ==> IsSlot(f, sl)
    requires g.Ok() && Owned(g, w) && g.sb == f.sb && Took(f.sb.DataStart(), w0, w, s)
    ensures Enough(f, s)
  {
    VacantCount(f, w0, s);
    UsedAndFree(f, w0);
    OwnersCount(g, w);
    SlotsTaken(g, w);
    assert w.owner.Values == w0.owner.Values + s by { assert Spot(0); }
    SubsetSize(w.owner.Keys, Counting.Range(f.sb.DataStart(), f.sb.size));
  }

  /** Where the disk ran full there were not blocks enough. */
  lemma ShortLacks(f: Fs, w0: Ledger, g: Fs, w: Ledger, s: set<Slot>)
    requires f.Ok() && Owned(f, w0) && w0.loose == {} && w0.gone == {} && forall sl :: sl in s ==> IsSlot(f, sl)
    requires g.sb == f.sb && Short(g, w0, w, s)
    ensures !Enough(f, s)
  {
    VacantCount(f, w0, s);
    UsedAndFree(f, w0);
    ShortMeans(g, w0, w, s);
    OwnersCount(g, w);
    SlotSubset(w.owner.Values, w0.owner.Values + s);
    SubsetSize(Counting.Range(f.sb.DataStart(), f.sb.size), w.owner.Keys);
  }

  lemma WriteRoom(f: Fs, w0: Ledger, g: Fs, w: Ledger, off: nat, n: nat, ok: bool)
    requires f.Ok() && Owned(f, w0) && w0.loose == {} && w0.gone == {} && g.sb == f.sb
             && (n == 0 || off + n <= MAXFILE * BSIZE)
    requires ok ==> g.Ok() && Owned(g, w) && Took(f.sb.DataStart(), w0, w, TouchedBy(f.num, off, n))
    requires !ok ==> Short(g, w0, w, TouchedBy(f.num, off, n))
    ensures ok <==> Enough(f, TouchedBy(f.num, off, n))
  {
    TouchedSlots(f, off, n);
    if ok {
      TookEnough(f, w0, g, w, TouchedBy(f.num, off, n));
    } else {
      ShortLacks(f, w0, g, w, TouchedBy(f.num, off, n));
    }
  }

  lemma TouchedSlots(f: Fs, off: nat, tot: nat)
    requires f.Ok() && (tot == 0 || off + tot <= MAXFILE * BSIZE)
    ensures forall sl :: sl in TouchedBy(f.num, off, tot) ==> IsSlot(f, sl)
  {
  }

  lemma TouchedIn(i: nat, lo: nat, hi: nat, lo': nat, hi': nat)
    requires lo' <= lo && hi <= hi'
    ensures Touched(i, lo, hi) <= Touched(i, lo', hi')
  {
    forall sl | sl in Touched(i, lo, hi)
      ensures sl in Touched(i, lo', hi')
    {
      if sl != Slot(i, INDIRECT) {
        var bn :| lo <= bn < hi && sl == SlotOf(i, bn);
      }
    }
  }

  /** A part of a write touches some of the slots of the whole. */
  lemma TouchedPart(i: nat, off: nat, from: nat, len: nat, tot: nat)
    requires from + len <= tot
    ensures TouchedBy(i, off + from, len) <= TouchedBy(i, off, tot)
  {
    if len > 0 {
      TouchedIn(i, (off + from) / BSIZE, (off + from) / BSIZE + Spans(off + from, len), off / BSIZE,
          off / BSIZE + Spans(off, tot));
    } else {
      assert TouchedBy(i, off + from, len) == {};
    }
  }

  lemma KeptNone(d: Disk)
    ensures Kept(d, d, [], {})
  {
  }

  lemma BlankOwned(f: Fs)
    requires f.Ok() && Blank(f.sb, f.disk) && f.ip == GetInode(f.sb, f.disk, f.num)
    ensures Owned(f, Ledger(map[], {}, {}))
  {
    forall sl | IsSlot(f, sl)
      ensures Val(f, sl) == 0
    {
      assert Node(f, sl.inum) == Inode(0, 0, 0, seq(NDIRECT + 1, _ => 0));
    }
  }

  class FileSys {
    const sb: Super
    var num: nat
    var disk: Disk
    var ip: Inode
    var calls: seq<Call>
    ghost var w: Ledger
    ghost var logged: set<nat>
    ghost var base: Disk

    ghost function View(): Fs
      reads this
    {
      Fs(sb, disk, num, ip)
    }

    /** A blank disk: every block of the data area is free. */
    constructor (sb: Super, image: Disk)
      requires Blank(sb, image)
      ensures this.sb == sb && disk == image && num == 0 && Valid() && InSync() && w == Ledger(map[], {}, {})
    {
      this.sb, disk, num, ip := sb, image, 0, GetInode(sb, image, 0);
      calls, logged, base, w := [], {}, image, Ledger(map[], {}, {});
      new;
      BlankOwned(View());
      KeptNone(image);
    }

    /** Between operations no block is loose and none is half freed. */
    ghost predicate Valid()
      reads this
    {
      View().Ok() && Owned(View(), w) && w.loose == {} && w.gone == {} && Kept(base, disk, calls, logged)
    }

    /** The dinode on disk is the inode in memory. */
    ghost predicate InSync()
      requires View().Ok()
      reads this
    {
      GetInode(sb, disk, num) == ip
    }

    /** No block is free. */
    ghost predicate Full()
      reads this
    {
      View().Ok() && AllUsed(sb, disk, 0, sb.size)
    }

    /** begin_trans: calls of log_write are recorded from here on. */
    method Begin()
      modifies this`logged, this`calls, this`base
      ensures logged == {} && calls == [] && base == disk && Kept(base, disk, calls, logged)
    {
      logged, calls, base := {}, [], disk;
      KeptNone(disk);
    }

    /** log_write, as the flat sector map sees it; `other` is a buffer held besides the one logged. */
    method LogWrite(s: nat, b: Block, other: Option<nat>)
      requires Kept(base, disk, calls, logged) && CallOk(|disk|, Call(s, b, other))
      modifies this`disk, this`logged, this`calls
      ensures disk == old(disk)[s := b] && calls == old(calls) + [Call(s, b, other)]
      ensures logged == old(logged) + {s} + Of(other)
      ensures Kept(base, disk, calls, logged)
    {
      KeptMore(base, disk, calls, logged, Call(s, b, other));
      disk := disk[s := b];
      logged := logged + {s} + Of(other);
      calls := calls + [Call(s, b, other)];
    }

    /** balloc's inner loop: the first clear bit of the bitmap sector for blocks b and up, or its end. */
    method ScanBitmap(b: nat) returns (bi: nat)
      requires View().Ok() && b % BPB == 0 && b < sb.size
      ensures bi <= BPB && AllUsed(sb, disk, b, b + bi)
      ensures bi < BPB && b + bi < sb.size ==> !BitOf(sb, disk, b + bi)
    {
      bi := 0;
      while bi < BPB && b + bi < sb.size
        invariant 0 <= bi <= BPB && AllUsed(sb, disk, b, b + bi)
      {
        SameWhere(b, bi);
        if !TestBit(disk[sb.BBlock(b)][bi / 8], bi % 8) {
          return;
        }
        UsedOneMore(sb, disk, b, b + bi);
        bi := bi + 1;
      }
    }

    /** The first clear bit, as balloc's two loops find it. */
    method FindClear() returns (r: Option<nat>)
      requires View().Ok()
      ensures r.Some? ==> r.value < sb.size && !BitOf(sb, disk, r.value)
      ensures r.Some? ==> AllUsed(sb, disk, 0, r.value)
      ensures r.None? ==> AllUsed(sb, disk, 0, sb.size)
    {
      var b := 0;
      UsedUpTo(sb, disk, 0, 0);
      while b < sb.size
        invariant 0 <= b && b % BPB == 0 && AllUsed(sb, disk, 0, b)
      {
        var bi := ScanBitmap(b);
        var c, e := b + bi, b + BPB;
        UsedFurther(sb, disk, b, c);
        if bi < BPB && c < sb.size { return Some(c); }
        UsedUpTo(sb, disk, c, e);
        b := e;
      }
      UsedUpTo(sb, disk, b, sb.size);
      return None;
    }

    /** balloc: takes the lowest free block and zeroes it; None is its panic. */
    method Balloc(other: Option<nat>) returns (r: Option<nat>)
      requires View().Ok() && Owned(View(), w) && w.gone == {} && Kept(base, disk, calls, logged)
      requires other.Some? ==> other.value in w.owner
      modifies this`disk, this`w, this`logged, this`calls
      ensures r.None? ==> unchanged(this) && Full()
      ensures r.Some? ==>
              && r.value < sb.size && !BitOf(sb, old(disk), r.value)
              && (forall c :: 0 <= c < r.value ==> BitOf(sb, old(disk), c))
              && InData(View(), r.value) && r.value !in old(w.owner) && r.value !in old(w.loose)
              && View().Ok() && w == old(w).(loose := old(w).loose + {r.value}) && Owned(View(), w)
              && |disk| == |old(disk)| && disk[r.value] == Zeros()
              && (forall c :: 0 <= c < |disk| && c != r.value && c != sb.BBlock(r.value) ==> disk[c] == old(disk)[c])
              && SameVals(old(View()), View()) && SameData(old(View()), View(), NOSLOT)
              && logged == old(logged) + {sb.BBlock(r.value), r.value} + Of(other) && Kept(base, disk, calls, logged)
    {
      r := FindClear();
      assert Peek(0);
      if r.None? { return; }
      var a := r.value;
      ghost var f := View();
      Allocated(f, w, a, Zeros());
      OtherBlock(f, w, other, a);
      LogWrite(sb.BBlock(a), PutBit(disk[sb.BBlock(a)], a, true), other);
      LogWrite(a, Zeros(), other);
      w := w.(loose := w.loose + {a});
      FreshKeeps(f, View(), old(w), a);
    }

    /** A fresh block in address n of the inode. */
    method FillAddr(n: nat) returns (r: Option<nat>)
      requires Valid() && n <= INDIRECT && ip.addrs[n] == 0
      modifies this`disk, this`ip, this`w, this`logged, this`calls
      ensures r.None? ==> Full() && unchanged(this)
      ensures r.Some? ==>
              && Valid() && Filled(old(View()), View(), Slot(num, n), r.value) && InData(View(), r.value)
              && (n == INDIRECT ==> disk[r.value] == Zeros())
              && ip == old(ip).(addrs := old(ip).addrs[n := r.value]) && Grew(old(w), old(logged), w, logged)
              && logged == old(logged) + {sb.BBlock(r.value), r.value}
              && Took(sb.DataStart(), old(w), w, {Slot(num, n)})
    {
      r := Balloc(None);
      if r.None? { return; }
      ghost var f := View();
      forall j | 0 <= j < NINDIRECT ensures Word(disk[r.value], j) == 0 { ZeroWords(j); }
      Filed(f, w, n, r.value);
      ip := ip.(addrs := ip.addrs[n := r.value]);
      w := Ledger(w.owner[r.value := Slot(num, n)], w.loose - {r.value}, {});
      AddrKeeps(old(View()), f, View(), Slot(num, n), r.value);
      TookOne(old(View()), old(w), w, r.value, Slot(num, n));
    }

    /** a[bn] = addr; log_write(bp); */
    method StoreEntry(ghost f0: Fs, p: nat, j: nat, a: nat)
      requires View().Ok() && Owned(View(), w) && w.gone == {} && w.loose == {a} && a != 0 && a < sb.size
               && j < NINDIRECT
      requires p == ip.addrs[INDIRECT] && p != 0 && p < |disk| && Word(disk[p], j) == 0
      requires f0.Ok() && SameVals(f0, View()) && SameData(f0, View(), NOSLOT) && f0.ip == ip && f0.num == num
      requires Val(f0, Slot(num, INDIRECT + 1 + j)) == 0 && Kept(base, disk, calls, logged)
      modifies this`disk, this`w, this`logged, this`calls
      ensures Valid() && Filled(f0, View(), Slot(num, INDIRECT + 1 + j), a) && logged == old(logged) + {p}
      ensures w.owner == old(w.owner)[a := Slot(num, INDIRECT + 1 + j)]
    {
      ghost var f := View();
      FiledEntry(f, w, j, a);
      PointerInData(f, w, num);
      MetaKept(f, f.(disk := f.disk[p := PutWord(f.disk[p], j, a)]), p, PutWord(f.disk[p], j, a));
      EntryKeeps(f0, f, f.(disk := f.disk[p := PutWord(f.disk[p], j, a)]), w, Slot(num, INDIRECT + 1 + j), a);
      LogWrite(p, PutWord(disk[p], j, a), None);
      w := Ledger(w.owner[a := Slot(num, INDIRECT + 1 + j)], w.loose - {a}, {});
    }

    /** A fresh block in entry j of the indirect block. */
    method FillEntry(j: nat) returns (r: Option<nat>)
      requires Valid() && j < NINDIRECT && ip.addrs[INDIRECT] != 0
      requires Val(View(), Slot(num, INDIRECT + 1 + j)) == 0
      modifies this`disk, this`w, this`logged, this`calls
      ensures r.None? ==> Full() && unchanged(this)
      ensures r.Some? ==>
              && Valid() && Filled(old(View()), View(), Slot(num, INDIRECT + 1 + j), r.value) && InData(View(), r.value)
              && logged == old(logged) + {sb.BBlock(r.value), r.value, ip.addrs[INDIRECT]}
              && Grew(old(w), old(logged), w, logged)
              && Took(sb.DataStart(), old(w), w, {Slot(num, INDIRECT + 1 + j)})
    {
      var p := ip.addrs[INDIRECT];
      PointerInData(View(), w, num);
      PointerBlock(View(), w);
      var blk := disk[p];
      r := Balloc(Some(p));
      if r.None? { return; }
      LayoutApart(sb, num, r.value);
      assert disk[p] == blk;
      StoreEntry(old(View()), p, j, r.value);
      TookOne(old(View()), old(w), w, r.value, Slot(num, INDIRECT + 1 + j));
    }

    /** bmap: the block of file block bn, allocated if there is none; None is one of its panics. */
    method Bmap(bn: nat) returns (r: Option<nat>)
      requires Valid()
      modifies this`disk, this`ip, this`w, this`logged, this`calls
      ensures bn >= MAXFILE ==> r.None?
      ensures bn < MAXFILE && r.None? ==> Full() && Short(View(), old(w), w, Touched(num, bn, bn + 1))
      ensures r.Some? ==> Valid() && MappedTo(old(View()), View(), bn, r.value)
      ensures old(Mapped(View(), num, bn)) ==> r.Some? && unchanged(this)
      ensures r.Some? ==> ip.h0 == old(ip.h0) && ip.h1 == old(ip.h1) && Grew(old(w), old(logged), w, logged)
      ensures r.Some? && sb.size <= BPB ==> logged <= old(logged) + {sb.BBlock(0), r.value} + PointerSet(View())
      ensures r.Some? ==> Took(sb.DataStart(), old(w), w, Touched(num, bn, bn + 1))
    {
      ghost var f := View();
      if bn < NDIRECT {
        if ip.addrs[bn] == 0 {
          r := FillAddr(bn);
          if r.Some? { MappedByOne(f, View(), bn, r.value); OneBitmap(sb, r.value); TouchedOne(num, bn); }
          else { TookNone(sb.DataStart(), w); TouchedOne(num, bn); ShortNow(f, w, w, {}, Touched(num, bn, bn + 1),
              SlotOf(num, bn)); }
        } else {
          r := Some(ip.addrs[bn]);
          OwnerOf(f, w, SlotOf(num, bn));
          TookMapped(f, w, bn);
        }
      } else if bn < MAXFILE {
        r := BmapIndirect(bn);
      } else {
        r := None;
      }
    }

    /** bmap's part for blocks under the indirect pointer. */
    method BmapIndirect(bn: nat) returns (r: Option<nat>)
      requires Valid() && NDIRECT <= bn < MAXFILE
      modifies this`disk, this`ip, this`w, this`logged, this`calls
      ensures r.None? ==> Full() && Short(View(), old(w), w, Touched(num, bn, bn + 1))
      ensures r.Some? ==> Valid() && MappedTo(old(View()), View(), bn, r.value)
      ensures old(Mapped(View(), num, bn)) ==> r.Some? && unchanged(this)
      ensures r.Some? ==> ip.h0 == old(ip.h0) && ip.h1 == old(ip.h1) && Grew(old(w), old(logged), w, logged)
      ensures r.Some? && sb.size <= BPB ==> logged <= old(logged) + {sb.BBlock(0), r.value} + PointerSet(View())
      ensures r.Some? ==> Took(sb.DataStart(), old(w), w, Touched(num, bn, bn + 1))
    {
      ghost var f := View();
      var ok := NeedPointer(f);
      if !ok {
        TookNone(sb.DataStart(), w);
        TouchedOne(num, bn);
        ShortNow(f, w, w, {}, Touched(num, bn, bn + 1), Slot(num, INDIRECT));
        return None;
      }
      var a := Word(disk[ip.addrs[INDIRECT]], bn - NDIRECT);
      assert Val(View(), SlotOf(num, bn)) == a;
      if a == 0 {
        r := NeedEntry(f, old(w), old(logged), bn);
      } else {
        r := Some(a);
        OwnerOf(f, w, SlotOf(num, bn));
        TookMapped(f, w, bn);
      }
    }

    /** A fresh block for bn, once there is an indirect block; f, v and l are what bmap began with. */
    method NeedEntry(ghost f: Fs, ghost v: Ledger, ghost l: set<nat>, bn: nat) returns (r: Option<nat>)
      requires Valid() && NDIRECT <= bn < MAXFILE && ip.addrs[INDIRECT] != 0 && Val(View(), SlotOf(num, bn)) == 0
      requires PointerReady(f, v, l, View(), w, logged)
      modifies this`disk, this`w, this`logged, this`calls
      ensures r.None? ==> Full() && Short(View(), v, w, Touched(num, bn, bn + 1))
      ensures r.Some? ==> Valid() && f.Ok() && MappedTo(f, View(), bn, r.value) && Grew(v, l, w, logged)
      ensures r.Some? && sb.size <= BPB ==> logged <= l + {sb.BBlock(0), r.value} + PointerSet(View())
      ensures r.Some? ==> Took(sb.DataStart(), v, w, Touched(num, bn, bn + 1))
    {
      ghost var g, w1 := View(), w;
      PointerMeans(f, v, l, View(), w, logged);
      r := FillEntry(bn - NDIRECT);
      TouchedOne(num, bn);
      if r.None? {
        ShortNow(g, v, w, {Slot(num, INDIRECT)}, Touched(num, bn, bn + 1), SlotOf(num, bn));
      } else {
        MappedByTwo(f, g, View(), bn, r.value);
        OneBitmap(sb, r.value);
        TookTwice(sb.DataStart(), v, w1, w, {Slot(num, INDIRECT)}, {SlotOf(num, bn)});
      }
    }

    /** The indirect block, allocated if there is none. */
    method NeedPointer(ghost f: Fs) returns (ok: bool)
      requires Valid() && f == View()
      modifies this`disk, this`ip, this`w, this`logged, this`calls
      ensures !ok ==> Full() && unchanged(this)
      ensures f.ip.addrs[INDIRECT] != 0 ==> ok && unchanged(this)
      ensures ok ==> Valid() && 0 < ip.addrs[INDIRECT] < |disk| && ip.h0 == f.ip.h0 && ip.h1 == f.ip.h1
      ensures ok ==> PointerReady(f, old(w), old(logged), View(), w, logged)
      ensures ok && f.ip.addrs[INDIRECT] == 0 ==> disk[ip.addrs[INDIRECT]] == Zeros()
    {
      if ip.addrs[INDIRECT] == 0 {
        var r := FillAddr(INDIRECT);
        if r.None? { return false; }
        OneBitmap(sb, r.value);
      } else {
        PointerInData(f, w, num);
        PointerBlock(f, w);
        assert Slot(num, INDIRECT) in w.owner.Values;
        assert Took(sb.DataStart(), w, w, {Slot(num, INDIRECT)});
      }
      ok := true;
    }

    /** iupdate. */
    method Iupdate()
      requires Valid()
      modifies this`disk, this`logged, this`calls
      ensures Valid() && InSync() && SameVals(old(View()), View()) && SameData(old(View()), View(), NOSLOT)
      ensures logged == old(logged) + {sb.IBlock(num)} && |calls| == |old(calls)| + 1
              && old(calls) == calls[..|old(calls)|]
    {
      ghost var f := View();
      InodeWrite(f, w);
      LogWrite(sb.IBlock(num), PutInode(disk[sb.IBlock(num)], num, ip), None);
      InodeKeeps(f, View(), w);
    }

    /** One round of writei's loop. */
    method WriteBlock(off: nat, data: seq<byte>) returns (ok: bool)
      requires Valid() && off + |data| <= MAXFILE * BSIZE && 0 < |data| <= BSIZE - off % BSIZE
      modifies this`disk, this`ip, this`w, this`logged, this`calls
      ensures !ok ==> Full() && Short(View(), old(w), w, Touched(num, off / BSIZE, off / BSIZE + 1))
      ensures ok ==> Valid() && WroteChunk(old(View()), View(), off, data) && ip.h0 == old(ip.h0) && ip.h1 == old(ip.h1)
      ensures ok ==> Grew(old(w), old(logged), w, logged)
      ensures ok && old(Mapped(View(), num, off / BSIZE)) ==>
                  ip == old(ip) && GetInode(sb, disk, num) == GetInode(sb, old(disk), num)
      ensures ok && sb.size <= BPB ==>
                  logged <= old(logged) + {sb.BBlock(0), Val(View(), SlotOf(num, off / BSIZE))} + PointerSet(View())
      ensures ok ==> Took(sb.DataStart(), old(w), w, Touched(num, off / BSIZE, off / BSIZE + 1))
    {
      var r := Bmap(off / BSIZE);
      if r.None? { return false; }
      var a := r.value;
      ghost var f := View();
      PatchBlock(old(View()), f, w, off, data, a);
      LogWrite(a, Overlay(disk[a], off % BSIZE, data), None);
      LayoutApart(sb, num, a);
      ok := true;
    }

    /**
     writei: -1 for an offset beyond the end or a file that would grow too large,
     otherwise src replaces the bytes from off on, extending the file if need be.
     ok is false where the disk is full and balloc panics.
     */
    method Writei(src: seq<byte>, off: word) returns (ok: bool, r: int)
      requires Valid() && Dense(View(), num) && InSync() && |src| < 0x1_0000_0000
      modifies this`disk, this`ip, this`w, this`logged, this`calls
      ensures off > old(ip.size) || off + |src| > MAXFILE * BSIZE ==> ok && r == -1 && unchanged(this)
      ensures off <= old(ip.size) && off + |src| <= MAXFILE * BSIZE && ok ==>
              && r == |src| && Valid() && InSync() && SameOthers(old(View()), View()) && Dense(View(), num)
              && Contents(View(), num) == Spliced(old(Contents(View(), num)), off, src)
      ensures !ok ==> Full() && Short(View(), old(w), w, TouchedBy(num, off, |src|))
      ensures ok && old(calls) == [] && old(logged) == {} && sb.size <= BPB && |src| <= 1536 ==>
                  Small(View(), w, calls, logged)
      ensures ok ==> ip.h0 == old(ip.h0) && ip.h1 == old(ip.h1) && Grew(old(w), old(logged), w, logged)
      ensures ok && r != -1 && sb.size <= BPB ==> Adds(View(), w, old(logged), logged, Spans(off, |src|) + 3)
      ensures ok && r != -1 ==> Took(sb.DataStart(), old(w), w, TouchedBy(num, off, |src|))
      ensures ok <==> off > old(ip.size) || off + |src| > MAXFILE * BSIZE
                      || Enough(old(View()), TouchedBy(num, off, |src|))
    {
      if off > ip.size || off + |src| >= 0x1_0000_0000 { return true, -1; }
      if off + |src| > MAXFILE * BSIZE { return true, -1; }
      ok := WriteLoop(src, off);
      WriteRoom(old(View()), old(w), View(), w, off, |src|, ok);
      if !ok { return false, 0; }
      ghost var f := View();
      ghost var few := |src| <= 1536 && sb.size <= BPB && old(calls) == [] && old(logged) == {};
      if sb.size <= BPB { AddsLoop(old(View()), f, w, old(logged), logged, off, src); }
      if few { FewCalls(old(View()), f, w, base, disk, calls, logged, off, src); }
      if |src| > 0 && off + |src| > ip.size {
        ghost var l := logged;
        NewSize(off + |src|, few);
        if sb.size <= BPB { AddsInode(f, View(), w, old(logged), l, logged, Spans(off, |src|) + 2); }
        GrewTo(old(View()), f, f.(ip := ip), View(), off, src);
      } else {
        StayedAt(old(View()), f, off, src);
      }
      r := |src|;
    }

    /** writei's end: the new size, and iupdate. */
    method NewSize(size: word, ghost few: bool)
      requires Valid() && (few ==> SmallBut(View(), w, calls, logged))
      modifies this`disk, this`ip, this`logged, this`calls
      ensures Valid() && InSync() && ip == old(ip).(size := size) && (few ==> Small(View(), w, calls, logged))
              && logged == old(logged) + {sb.IBlock(num)}
      ensures var g := old(View()).(ip := ip);
                g.Ok() && SameVals(old(View()), g) && SameVals(g, View()) && SameData(g, View(), NOSLOT)
    {
      ghost var f, was, l := View(), calls, logged;
      ip := ip.(size := size);
      SizeKeeps(f, View(), w);
      Iupdate();
      if few {
        assert calls == was + [calls[|was|]];
        SmallNow(f, View(), w, was, l, calls[|was|], logged);
      }
    }

    /** writei's loop. */
    method WriteLoop(src: seq<byte>, off: nat) returns (ok: bool)
      requires Valid() && Dense(View(), num) && InSync() && off <= ip.size && off + |src| <= MAXFILE * BSIZE
      modifies this`disk, this`ip, this`w, this`logged, this`calls
      ensures !ok ==> Full() && Short(View(), old(w), w, TouchedBy(num, off, |src|))
      ensures ok ==>
                  Valid() && Wrote(old(View()), View(), off, src, |src|) && ip.h0 == old(ip.h0) && ip.h1 == old(ip.h1)
      ensures ok ==> Grew(old(w), old(logged), w, logged)
      ensures ok && off + |src| <= old(ip.size) ==> ip == old(ip) && InSync()
      ensures ok ==> off / BSIZE + Spans(off, |src|) <= MAXFILE
      ensures ok ==> Took(sb.DataStart(), old(w), w, TouchedBy(num, off, |src|))
      ensures ok && sb.size <= BPB ==> LoggedSoFar(View(), old(logged), logged, off, |src|)
    {
      ghost var f0, w0, l0 := View(), w, logged;
      var tot := 0;
      LoopStart(f0, w0, l0, off, src);
      while tot < |src|
        invariant tot <= |src| && Valid() && LoopAt(f0, View(), w0, l0, w, logged, off, src, tot)
      {
        ok, tot := NextRound(src, off, tot, f0, w0, l0);
        if !ok { return; }
      }
      ok := true;
      LoopMeans(f0, View(), w0, l0, w, logged, off, src, tot);
    }

    /** How many bytes the next round takes, and that round. */
    method NextRound(src: seq<byte>, off: nat, tot: nat, ghost f0: Fs, ghost w0: Ledger,
                     ghost l0: set<nat>) returns (ok: bool, tot': nat)
      requires Valid() && f0.Ok() && Dense(f0, f0.num) && off <= f0.ip.size && off + |src| <= MAXFILE * BSIZE
               && f0.num == num
      requires tot < |src| && LoopAt(f0, View(), w0, l0, w, logged, off, src, tot)
      modifies this`disk, this`ip, this`w, this`logged, this`calls
      ensures !ok ==> Full() && Short(View(), w0, w, TouchedBy(num, off, |src|))
      ensures ok ==> tot < tot' <= |src| && Valid() && LoopAt(f0, View(), w0, l0, w, logged, off, src, tot')
    {
      var m := if |src| - tot < BSIZE - (off + tot) % BSIZE then |src| - tot else BSIZE - (off + tot) % BSIZE;
      ghost var f, w1, l1 := View(), w, logged;
      LoopMeans(f0, f, w0, l0, w, logged, off, src, tot);
      SpansMore(off, tot, m);
      tot' := tot + m;
      ok := WriteRound(src, off, tot, m, f0, l0, f, w1, l1, tot');
      if !ok { ShortRound(View(), f0, f, w0, l0, w1, l1, w, off, src, tot, tot'); }
      if ok { LoopMore(f0, f, w0, l0, w1, l1, View(), w, logged, off, src, tot, tot'); }
    }

    /** A round of the loop in the middle of it, relative to where the loop began. */
    method WriteRound(src: seq<byte>, off: nat, tot: nat, m: nat, ghost f0: Fs, ghost logged0: set<nat>, ghost f: Fs,
                      ghost v: Ledger, ghost was: set<nat>, ghost tot': nat)
      returns (ok: bool)
      requires f == View() && v == w && was == logged && tot' == tot + m
      requires Valid() && f0.Ok() && Dense(f0, f0.num) && off <= f0.ip.size && off + |src| <= MAXFILE * BSIZE
      requires f0.num == num && tot + m <= |src| && 0 < m <= BSIZE - (off + tot) % BSIZE
      requires Wrote(f0, View(), off, src, tot)
      requires off + tot <= f0.ip.size ==> ip == f0.ip && GetInode(sb, disk, num) == ip
      requires Spans(off, tot + m) == Spans(off, tot) + 1
               && off / BSIZE + Spans(off, tot) == (off + tot) / BSIZE < MAXFILE
      requires sb.size <= BPB ==> LoggedSoFar(View(), logged0, logged, off, tot)
      modifies this`disk, this`ip, this`w, this`logged, this`calls
      ensures !ok ==> Full() && Short(View(), v, w, Touched(num, (off + tot) / BSIZE, (off + tot) / BSIZE + 1))
      ensures ok ==> Valid() && Round(f0, f, v, was, logged0, View(), w, logged, off, src, tot, tot')
    {
      if off + tot < f0.ip.size { StillMapped(f0, f, off, src, tot, off + tot); }
      ok := WriteBlock(off + tot, src[tot..tot + m]);
      if !ok { return; }
      RoundIs(f0, f, v, was, logged0, View(), w, logged, off, src, tot, m, tot');
    }

    /** readi: the requested part of the file's bytes, as far as the file goes; nothing changes. */
    method Readi(off: word, n: word) returns (r: int, out: seq<byte>)
      requires Valid() && Dense(View(), num)
      modifies this`disk, this`ip, this`w, this`logged, this`calls
      ensures unchanged(this)
      ensures off > ip.size || off + n >= 0x1_0000_0000 ==> r == -1 && out == []
      ensures off <= ip.size && off + n < 0x1_0000_0000 ==>
              r == |out| && out == Contents(View(), num)[off..if off + n > ip.size then ip.size else off + n]
    {
      out := [];
      if off > ip.size || off + n >= 0x1_0000_0000 { return -1, []; }
      var m := if off + n > ip.size then ip.size - off else n;
      out := ReadLoop(off, m, Contents(View(), num));
      r := m;
    }

    /** readi's loop. */
    method ReadLoop(off: nat, m: nat, ghost c: seq<byte>) returns (out: seq<byte>)
      requires Valid() && Dense(View(), num) && Holds(View(), c) && off + m <= |c|
      modifies this`disk, this`ip, this`w, this`logged, this`calls
      ensures unchanged(this) && out == c[off..off + m]
    {
      out := [];
      var tot := 0;
      while tot < m
        invariant 0 <= tot <= m && out == c[off..off + tot]
        invariant View() == old(View()) && w == old(w) && logged == old(logged) && calls == old(calls)
      {
        var at := off + tot;
        var l := if m - tot < BSIZE - at % BSIZE then m - tot else BSIZE - at % BSIZE;
        var piece := ReadBlock(at, l, c);
        out := out + piece;
        assert c[off..at] + c[at..at + l] == c[off..at + l];
        tot := tot + l;
      }
    }

    /** One round of readi's loop: bmap finds the block there. */
    method ReadBlock(at: nat, l: nat, ghost c: seq<byte>) returns (piece: seq<byte>)
      requires Valid() && Dense(View(), num) && Holds(View(), c) && at + l <= |c| && 0 < l <= BSIZE - at % BSIZE
      modifies this`disk, this`ip, this`w, this`logged, this`calls
      ensures unchanged(this) && piece == c[at..at + l]
    {
      DenseAt(View(), num, at);
      var b := Bmap(at / BSIZE);
      piece := disk[b.value][at % BSIZE..at % BSIZE + l];
      PieceIs(View(), at, l, c, piece);
    }

    /** bfree; false where it panics on a block that is free already. */
    method Bfree(a: nat, other: Option<nat>) returns (ok: bool)
      requires View().Ok() && Owned(View(), w) && a < sb.size && Kept(base, disk, calls, logged)
      requires other.Some? ==> other.value in w.owner
      modifies this`disk, this`w, this`logged, this`calls
      ensures a in old(w.owner) && a !in old(w.gone) ==>
              && ok && View().Ok() && w == old(w).(gone := old(w).gone + {a}) && Owned(View(), w)
              && SameVals(old(View()), View()) && SameData(old(View()), View(), NOSLOT)
      ensures ok <==> BitOf(sb, old(disk), a)
      ensures disk == if ok then old(disk)[sb.BBlock(a) := PutBit(old(disk)[sb.BBlock(a)], a, false)] else old(disk)
      ensures Kept(base, disk, calls, logged) && logged <= old(logged) + {sb.BBlock(a)} + Of(other)
    {
      LayoutApart(sb, num, a);
      if !TestBit(disk[sb.BBlock(a)][a % BPB / 8], a % 8) {
        if a in w.owner && a !in w.gone { Cleared(View(), w, a); }
        return false;
      }
      ghost var f := View();
      if a in w.owner && a !in w.gone {
        Cleared(f, w, a);
        BitmapKeeps(f, w, a);
        w := w.(gone := w.gone + {a});
      }
      OtherBit(f, old(w), other, a);
      LogWrite(sb.BBlock(a), PutBit(disk[sb.BBlock(a)], a, false), other);
      ok := true;
    }

    /** One direct address in itrunc's first loop. */
    method DropDirect(n: nat) returns (ok: bool)
      requires Valid() && n < NDIRECT
      modifies this`disk, this`ip, this`w, this`logged, this`calls
      ensures ok && Valid() && SameOthers(old(View()), View())
      ensures ip == old(ip).(addrs := old(ip).addrs[n := 0])
      ensures w.owner == Keep(old(w.owner), Slot(num, n))
              && (sb.size <= BPB ==> Into(old(logged), logged, {sb.BBlock(0)}))
    {
      ghost var f := View();
      var a := ip.addrs[n];
      assert IsSlot(f, Slot(num, n)) && Val(f, Slot(num, n)) == a;
      if a == 0 {
        NobodyAt(f, w, Slot(num, n));
        assert ip.addrs == ip.addrs[n := 0];
        IntoMeans(logged, logged, {sb.BBlock(0)});
        return true;
      }
      OwnerOf(f, w, Slot(num, n));
      OneBitmap(sb, a);
      ok := Bfree(a, None);
      IntoMeans(old(logged), logged, {sb.BBlock(0)});
      ghost var g := View();
      Dropped(g, w, n);
      DropOthers(f, g, g.(ip := ip.(addrs := ip.addrs[n := 0])));
      ip := ip.(addrs := ip.addrs[n := 0]);
      w := Ledger(w.owner - {a}, w.loose, w.gone - {a});
      KeepOne(f, old(w), Slot(num, n));
    }

    /** itrunc's loop over the indirect block, and the freeing of that block. */
    method DropIndirect() returns (ok: bool)
      requires Valid()
      modifies this`disk, this`ip, this`w, this`logged, this`calls
      ensures ok && Valid() && SameOthers(old(View()), View())
      ensures ip == old(ip).(addrs := old(ip).addrs[INDIRECT := 0])
      ensures w.owner == Above(old(w.owner), num, INDIRECT)
      ensures sb.size <= BPB ==> Into(old(logged), logged, {sb.BBlock(0)} + PointerSet(old(View())))
    {
      ghost var f := View();
      var p := ip.addrs[INDIRECT];
      if p == 0 {
        NothingUnder(f, w);
        assert ip.addrs == ip.addrs[INDIRECT := 0];
        IntoMeans(logged, logged, {sb.BBlock(0)} + PointerSet(f));
        return true;
      }
      PointerInData(f, w, num);
      PointerBlock(f, w);
      ok := FreeUnder(p);
      assert {sb.BBlock(0), p} == {sb.BBlock(0)} + PointerSet(f);
      PointerReset(f, View(), w, p);
      ip := ip.(addrs := ip.addrs[INDIRECT := 0]);
      w := Ledger(w.owner - w.gone, w.loose, {});
    }

    /** The blocks under the indirect pointer and the indirect block p itself are freed, in this order. */
    method FreeUnder(p: nat) returns (ok: bool)
      requires Valid() && p == ip.addrs[INDIRECT] && p != 0 && p < sb.size && p in w.owner
               && w.owner[p] == Slot(num, INDIRECT)
      modifies this`disk, this`w, this`logged, this`calls
      ensures ok && View().Ok() && Owned(View(), w) && w.owner == old(w.owner) && w.loose == {}
      ensures SameVals(old(View()), View()) && SameData(old(View()), View(), NOSLOT)
      ensures sb.size <= BPB ==> Into(old(logged), logged, {sb.BBlock(0), p})
      ensures p in w.gone && GoneAre(w.(gone := w.gone - {p}), num, SLOTS) && Kept(base, disk, calls, logged)
    {
      ghost var f := View();
      ok := FreeEntries(disk[p]);
      ghost var g, v, l := View(), w, logged;
      OneBitmap(sb, p);
      var freed := Bfree(p, None);
      if sb.size <= BPB { IntoAgain(old(logged), l, logged, sb.BBlock(0), p); }
      ok := ok && freed;
      SameDataTrans(f, g, View(), NOSLOT);
      assert w.gone - {p} == v.gone;
    }

    /** The loop over the entries of indirect block blk, which is not written. */
    method FreeEntries(blk: Block) returns (ok: bool)
      requires Valid() && ip.addrs[INDIRECT] != 0 && ip.addrs[INDIRECT] < |disk| && blk == disk[ip.addrs[INDIRECT]]
      requires ip.addrs[INDIRECT] in w.owner
      modifies this`disk, this`w, this`logged, this`calls
      ensures ok && View().Ok() && Owned(View(), w) && w.owner == old(w.owner) && w.loose == {}
      ensures SameVals(old(View()), View()) && SameData(old(View()), View(), NOSLOT)
      ensures GoneAre(w, num, SLOTS) && Kept(base, disk, calls, logged)
      ensures sb.size <= BPB ==> Into(old(logged), logged, {sb.BBlock(0), ip.addrs[INDIRECT]})
    {
      ghost var f := View();
      var j := 0;
      ghost var e := {sb.BBlock(0), ip.addrs[INDIRECT]};
      IntoMeans(logged, logged, e);
      ok := true;
      while j < NINDIRECT
        invariant 0 <= j <= NINDIRECT && ok
        invariant View().Ok() && Owned(View(), w) && w.owner == old(w.owner) && w.loose == {}
        invariant SameVals(f, View()) && SameData(f, View(), NOSLOT)
        invariant GoneAre(w, num, INDIRECT + 1 + j) && Kept(base, disk, calls, logged)
        invariant sb.size <= BPB ==> Into(old(logged), logged, {sb.BBlock(0), ip.addrs[INDIRECT]})
      {
        assert Val(f, Slot(num, INDIRECT + 1 + j)) == Word(blk, j);
        ghost var l := logged;
        var freed := FreeEntry(Word(blk, j), ip.addrs[INDIRECT], Slot(num, INDIRECT + 1 + j), f);
        ok := ok && freed;
        if sb.size <= BPB { IntoTwice(old(logged), l, logged, e, e, e); }
        j := j + 1;
      }
    }

    /** One entry a of the indirect block, which is in slot sl; f is where the loop began. */
    method FreeEntry(a: nat, p: nat, ghost sl: Slot, ghost f: Fs) returns (ok: bool)
      requires p in w.owner && Kept(base, disk, calls, logged)
      requires View().Ok() && Owned(View(), w) && w.loose == {} && f.Ok() && SameVals(f, View())
               && SameData(f, View(), NOSLOT)
      requires IsSlot(f, sl) && sl.inum == num && sl.n > INDIRECT && Val(f, sl) == a && GoneAre(w, num, sl.n)
      modifies this`disk, this`w, this`logged, this`calls
      ensures ok && View().Ok() && Owned(View(), w) && w.owner == old(w.owner) && w.loose == {}
      ensures sb.size <= BPB ==> Into(old(logged), logged, {sb.BBlock(0), p})
      ensures SameVals(f, View()) && SameData(f, View(), NOSLOT) && GoneAre(w, num, sl.n + 1)
              && Kept(base, disk, calls, logged)
    {
      ghost var g, v := View(), w;
      ok := true;
      assert Val(g, sl) == a;
      if a != 0 {
        OwnerOf(g, w, sl);
        OneBitmap(sb, a);
        ok := Bfree(a, Some(p));
        SameDataTrans(f, g, View(), NOSLOT);
      }
      IntoMeans(old(logged), logged, {sb.BBlock(0), p});
      GoneOneMore(g, v, w, sl, a);
    }

    /** itrunc: gives back exactly the blocks of this inode, and never finds one free already. */
    method Itrunc() returns (ok: bool)
      requires Valid()
      modifies this`disk, this`ip, this`w, this`logged, this`calls
      ensures ok && Valid() && InSync() && SameOthers(old(View()), View())
      ensures ip.size == 0 && (forall n :: 0 <= n <= INDIRECT ==> ip.addrs[n] == 0) && ip.h0 == old(ip.h0)
              && ip.h1 == old(ip.h1)
      ensures w.owner == Above(old(w.owner), num, 0)
      ensures sb.size <= BPB ==> Into(old(logged), logged, {sb.BBlock(0), sb.IBlock(num)} + PointerSet(old(View())))
    {
      ghost var f := View();
      ok := DropDirects();
      ghost var g, l1 := View(), logged;
      var freed := DropIndirect();
      ok := ok && freed;
      SameOthersTrans(f, g, View());
      ghost var l2 := logged;
      BelowAbove(old(w.owner), num);
      Resize0(f);
      if sb.size <= BPB { IntoThrice(old(logged), l1, l2, logged, {sb.BBlock(0)}, PointerSet(f), sb.IBlock(num)); }
    }

    /** itrunc's first loop. */
    method DropDirects() returns (ok: bool)
      requires Valid()
      modifies this`disk, this`ip, this`w, this`logged, this`calls
      ensures ok && Valid() && SameOthers(old(View()), View())
      ensures (forall n :: 0 <= n < NDIRECT ==> ip.addrs[n] == 0) && ip.h0 == old(ip.h0) && ip.h1 == old(ip.h1)
      ensures w.owner == Below(old(w.owner), num, NDIRECT)
      ensures ip.addrs[INDIRECT] == old(ip.addrs[INDIRECT])
              && (sb.size <= BPB ==> Into(old(logged), logged, {sb.BBlock(0)}))
    {
      ghost var f := View();
      var i := 0;
      IntoMeans(logged, logged, {sb.BBlock(0)});
      assert Below(old(w.owner), num, 0) == old(w.owner);
      SameOthersSelf(f);
      ok := true;
      while i < NDIRECT
        invariant 0 <= i <= NDIRECT && ok && Valid() && SameOthers(f, View())
        invariant (forall n :: 0 <= n < i ==> ip.addrs[n] == 0) && ip.h0 == f.ip.h0 && ip.h1 == f.ip.h1
        invariant w.owner == Below(old(w.owner), num, i)
        invariant ip.addrs[INDIRECT] == f.ip.addrs[INDIRECT]
                  && (sb.size <= BPB ==> Into(old(logged), logged, {sb.BBlock(0)}))
      {
        ghost var g, l := View(), logged;
        var freed := DropDirect(i);
        ok := ok && freed;
        if sb.size <= BPB { IntoTwice(old(logged), l, logged, {sb.BBlock(0)}, {sb.BBlock(0)}, {sb.BBlock(0)}); }
        SameOthersTrans(f, g, View());
        i := i + 1;
      }
    }

    /** itrunc's end: size 0 and iupdate. */
    method Resize0(ghost f: Fs)
      requires Valid() && f.Ok() && SameOthers(f, View())
      modifies this`disk, this`ip, this`logged, this`calls
      ensures Valid() && InSync() && SameOthers(f, View()) && ip == old(ip).(size := 0)
      ensures logged == old(logged) + {sb.IBlock(num)}
    {
      ghost var g := View();
      ip := ip.(size := 0);
      SizeKeeps(g, View(), w);
      ghost var h := View();
      Iupdate();
      DropOthers(h, View(), View());
      assert SameOthers(g, h);
      SameOthersTrans(f, g, h);
      SameOthersTrans(f, h, View());
    }

    /** One transaction of filewrite, which has written i bytes and then has written k. */
    method Chunk(src: seq<byte>, i: nat, n: nat, off: word, ghost f: Fs, ghost c: seq<byte>) returns (ok: bool, r: int,
                 ghost k: nat)
      requires At(f, View(), w, c, off, src, i) && i + n <= |src| && 0 < n <= CHUNK
      modifies this`disk, this`ip, this`w, this`logged, this`calls, this`base
      ensures !ok ==>
                  Full() && Short(View(), old(w), w, TouchedBy(num, off + i, n)) && off + i <= old(ip.size)
                  && off + i + n <= MAXFILE * BSIZE
      ensures ok ==> At(f, View(), w, c, off, src, k) && Kept(base, disk, calls, logged) && base == old(disk)
      ensures ok && r < 0 ==> r == -1 && k == i && (off + i > ip.size || off + i + n > MAXFILE * BSIZE)
      ensures ok && r >= 0 ==> r == n && k == i + n
      ensures ok ==> ChunkLog(old(w), View(), w, calls, logged)
      ensures ok && r < 0 ==> View() == old(View()) && w == old(w)
      ensures ok && r >= 0 ==> Took(sb.DataStart(), old(w), w, TouchedBy(num, off + i, n))
    {
      ghost var g, v := View(), w;
      AtWord(f, g, w, c, off, src, i);
      var piece, at := src[i..i + n], off + i;
      ok, r := OneWrite(piece, at, f, g, v, c, off, src, i);
      k := i;
      if ok && r >= 0 {
        k := i + n;
        AtMore(f, g, v, View(), w, c, off, src, i, k, piece);
      }
    }

    /** writei as the first thing in a transaction that begins with f. */
    method OneWrite(src: seq<byte>, off: word, ghost e: Fs, ghost f: Fs, ghost v: Ledger, ghost c: seq<byte>,
                    ghost o: nat, ghost all: seq<byte>, ghost i: nat)
      returns (ok: bool, r: int)
      requires f == View() && v == w && At(e, f, v, c, o, all, i) && 0 < |src| <= 1536
      modifies this`disk, this`ip, this`w, this`logged, this`calls, this`base
      ensures !ok ==>
                  Full() && Short(View(), v, w, TouchedBy(num, off, |src|)) && off <= f.ip.size
                  && off + |src| <= MAXFILE * BSIZE
      ensures ok ==> Kept(base, disk, calls, logged) && ChunkLog(v, View(), w, calls, logged) && base == old(disk)
      ensures ok && r < 0 ==> r == -1 && View() == f && w == v && (off > f.ip.size || off + |src| > MAXFILE * BSIZE)
      ensures ok && r >= 0 ==> r == |src| && WroteAll(f, View(), w, off, src)
      ensures ok && r >= 0 ==> Took(sb.DataStart(), v, w, TouchedBy(num, off, |src|))
    {
      AtReady(e, f, v, c, o, all, i);
      Begin();
      ok, r := Writei(src, off);
    }

    /**
     filewrite on an inode file: chunks of at most 1536 bytes, each a transaction of
     its own that logs at most seven sectors.  k bytes went in before it stopped;
     `chunks` are the calls of log_write, transaction by transaction, and `trail` the
     file system between the transactions.
     */
    method Filewrite(src: seq<byte>, off: word) returns (ok: bool, r: int, off': nat, ghost k: nat,
                     chunks: seq<seq<Call>>, ghost trail: seq<Stage>)
      requires Valid() && Dense(View(), num) && InSync() && |src| < 0x8000_0000
      modifies this`disk, this`ip, this`w, this`logged, this`calls, this`base
      ensures ok ==>
              && k <= |src| && off' == off + k && r == (if k == |src| then |src| else -1)
              && Valid() && Dense(View(), num) && InSync() && SameOthers(old(View()), View())
              && (k > 0 ==> off <= old(ip.size) && Contents(View(), num) == Spliced(old(Contents(View(), num)), off,
                  src[..k]))
              && (k == 0 ==> Contents(View(), num) == old(Contents(View(), num)))
              && k == Goes(off, |src|, old(ip.size)) && Took(sb.DataStart(), old(w), w, TouchedBy(num, off, k))
      ensures !ok ==> Full() && Short(View(), old(w), w, TouchedBy(num, off, Goes(off, |src|, old(ip.size))))
      ensures ok <==> Enough(old(View()), TouchedBy(num, off, Goes(off, |src|, old(ip.size))))
      ensures ok && sb.size <= BPB && src != [] ==> |logged| <= 7
      ensures ok ==>
              && trail != [] && trail[0] == Stage(old(View()), old(w), 0) && trail[|trail| - 1] == Stage(View(), w, k)
              && Trail(old(View()), old(Contents(View(), num)), off, src, trail, chunks)
    {
      ghost var f, c := View(), Contents(View(), num);
      AtStart(f, w, off, src);
      ok, r, off', k, chunks, trail := WriteChunks(src, off, f, c);
      GoesFits(off, |src|, f.ip.size);
      if ok { ChunkedMeans(f, View(), old(w), w, c, off, src, trail, chunks, k); AtMeans(f, View(), w, c, off, src,
          k); }
      WriteRoom(f, old(w), View(), w, off, Goes(off, |src|, f.ip.size), ok);
    }

    /** filewrite's loop. */
    method WriteChunks(src: seq<byte>, off: word, ghost f: Fs, ghost c: seq<byte>)
      returns (ok: bool, r: int, off': nat, ghost k: nat, chunks: seq<seq<Call>>, ghost trail: seq<Stage>)
      requires f == View() && At(f, f, w, c, off, src, 0) && Kept(base, disk, calls, logged)
      modifies this`disk, this`ip, this`w, this`logged, this`calls, this`base
      ensures ok ==> Chunked(f, View(), old(w), w, c, off, src, trail, chunks, k)
      ensures ok ==>
                  k == Goes(off, |src|, |c|) && k <= |src| && off' == off + k && r == (if k == |src| then |src| else -1)
      ensures !ok ==> Full() && Short(View(), old(w), w, TouchedBy(num, off, Goes(off, |src|, |c|)))
      ensures ok && sb.size <= BPB && src != [] ==> |logged| <= 7
      ensures ok ==> Kept(base, disk, calls, logged)
    {
      var i := 0;
      r, off', k, ok, chunks := 0, off, 0, true, [];
      trail := [Stage(f, w, 0)];
      ChunkedStart(f, w, c, off, src);
      while i < |src|
        invariant 0 <= i == k <= |src| && off' == off + i && Kept(base, disk, calls, logged)
        invariant i > 0 && sb.size <= BPB ==> |logged| <= 7
        invariant Chunked(f, View(), old(w), w, c, off, src, trail, chunks, i)
      {
        var n1 := if |src| - i > CHUNK then CHUNK else |src| - i;
        ok, r, k, chunks, trail := NextChunk(src, i, n1, off, f, old(w), c, chunks, trail);
        if !ok { return; }
        if r < 0 { return ok, -1, off', k, chunks, trail; }
        off' := off' + r;
        i := i + r;
      }
      ChunkedEnd(f, View(), old(w), w, c, off, src, trail, chunks, i);
      r := |src|;
    }

    /** One round of filewrite's loop, and its place on the trail. */
    method NextChunk(src: seq<byte>, i: nat, n1: nat, off: word, ghost f: Fs, ghost w0: Ledger, ghost c: seq<byte>,
                     was: seq<seq<Call>>, ghost trail: seq<Stage>)
      returns (ok: bool, r: int, ghost k: nat, chunks: seq<seq<Call>>, ghost trail': seq<Stage>)
      requires Chunked(f, View(), w0, w, c, off, src, trail, was, i) && i < |src|
               && n1 == if |src| - i > CHUNK then CHUNK else |src| - i
      modifies this`disk, this`ip, this`w, this`logged, this`calls, this`base
      ensures !ok ==> Full() && Short(View(), w0, w, TouchedBy(num, off, Goes(off, |src|, |c|)))
      ensures ok ==> Chunked(f, View(), w0, w, c, off, src, trail', chunks, k) && Kept(base, disk, calls, logged)
      ensures ok && sb.size <= BPB ==> |logged| <= 7
      ensures ok && r < 0 ==> k == i == Goes(off, |src|, |c|)
      ensures ok && r >= 0 ==> r == n1 && k == i + n1
    {
      ghost var v, g := w, View();
      ChunkedNow(f, g, w0, v, c, off, src, trail, was, i);
      chunks, trail' := was, trail;
      ok, r, k := Chunk(src, i, n1, off, f, c);
      if !ok {
        ShortChunk(View(), f, g, w0, v, w, c, off, src, trail, was, i, n1);
        return;
      }
      ChunkLogMeans(v, View(), w, calls, logged);
      if r < 0 {
        ChunkedStops(f, g, w0, v, c, off, src, trail, was, i, n1);
      } else {
        ChunkedMore(f, g, w0, v, View(), w, c, off, src, trail, was, i, k, base, calls, logged);
        chunks := was + [calls];
        trail' := trail + [Stage(View(), w, k)];
      }
    }
  }

  /** filewrite has put in i bytes of src, |chunks| whole chunks. */
  ghost predicate Chunked(f: Fs, g: Fs, w0: Ledger, w: Ledger, c: seq<byte>, off: nat, src: seq<byte>,
                          trail: seq<Stage>, chunks: seq<seq<Call>>, i: nat) {
    forall k {:trigger Peek(k)} :: Peek(k) ==>
      && At(f, g, w, c, off, src, i) && g.num == f.num && g.sb == f.sb && |trail| == |chunks| + 1
      && Trail(f, c, off, src, trail, chunks) && trail[0] == Stage(f, w0, 0) && trail[|chunks|] == Stage(g, w, i)
      && i == Whole(|src|, |chunks|) && Took(f.sb.DataStart(), w0, w, TouchedBy(f.num, off, i))
  }

  lemma ChunkedMeans(f: Fs, g: Fs, w0: Ledger, w: Ledger, c: seq<byte>, off: nat, src: seq<byte>,
                     trail: seq<Stage>, chunks: seq<seq<Call>>, i: nat)
    requires Chunked(f, g, w0, w, c, off, src, trail, chunks, i)
    ensures At(f, g, w, c, off, src, i) && g.num == f.num && g.sb == f.sb && |trail| == |chunks| + 1
    ensures Trail(f, c, off, src, trail, chunks) && trail[0] == Stage(f, w0, 0) && trail[|chunks|] == Stage(g, w, i)
    ensures i == Whole(|src|, |chunks|) && Took(f.sb.DataStart(), w0, w, TouchedBy(f.num, off, i))
  {
    assert Peek(0);
  }

  lemma ChunkedNow(f: Fs, g: Fs, w0: Ledger, w: Ledger, c: seq<byte>, off: nat, src: seq<byte>,
                   trail: seq<Stage>, chunks: seq<seq<Call>>, i: nat)
    requires Chunked(f, g, w0, w, c, off, src, trail, chunks, i)
    ensures At(f, g, w, c, off, src, i) && g.num == f.num && g.sb == f.sb && i <= |src|
    ensures i < |src| ==> i + (if |src| - i > CHUNK then CHUNK else |src| - i) == Whole(|src|, |chunks| + 1)
  {
    ChunkedMeans(f, g, w0, w, c, off, src, trail, chunks, i);
  }

  lemma ChunkedStops(f: Fs, g: Fs, w0: Ledger, w: Ledger, c: seq<byte>, off: nat, src: seq<byte>,
                     trail: seq<Stage>, chunks: seq<seq<Call>>, i: nat, n1: nat)
    requires Chunked(f, g, w0, w, c, off, src, trail, chunks, i) && i < |src|
             && n1 == if |src| - i > CHUNK then CHUNK else |src| - i
    requires off + i > g.ip.size || off + i + n1 > MAXFILE * BSIZE
    ensures i == Goes(off, |src|, |c|)
  {
    ChunkedMeans(f, g, w0, w, c, off, src, trail, chunks, i);
    StopsAt(f, g, w, c, off, src, |chunks|);
  }

  lemma ChunkedStart(f: Fs, w: Ledger, c: seq<byte>, off: nat, src: seq<byte>)
    requires At(f, f, w, c, off, src, 0)
    ensures Chunked(f, f, w, w, c, off, src, [Stage(f, w, 0)], [], 0)
  {
    TrailStart(f, f, w, c, off, src);
    TookNone(f.sb.DataStart(), w);
    assert TouchedBy(f.num, off, 0) == {};
  }

  lemma ChunkedMore(f: Fs, g: Fs, w0: Ledger, v: Ledger, h: Fs, w: Ledger, c: seq<byte>, off: nat, src: seq<byte>,
                    trail: seq<Stage>, chunks: seq<seq<Call>>, i: nat, k: nat, base: Disk, calls: seq<Call>,
                        logged: set<nat>)
    requires Chunked(f, g, w0, v, c, off, src, trail, chunks, i) && i < |src|
             && k == i + (if |src| - i > CHUNK then CHUNK else |src| - i)
    requires At(f, h, w, c, off, src, k) && h.sb == g.sb && h.num == g.num && base == g.disk
             && Kept(base, h.disk, calls, logged)
    requires v.owner.Keys <= w.owner.Keys <= v.owner.Keys + logged && (h.sb.size <= BPB ==> Small(h, w, calls, logged))
    requires Took(f.sb.DataStart(), v, w, TouchedBy(f.num, off + i, k - i))
    ensures Chunked(f, h, w0, w, c, off, src, trail + [Stage(h, w, k)], chunks + [calls], k)
  {
    ChunkedMeans(f, g, w0, v, c, off, src, trail, chunks, i);
    TookPiece(f.sb.DataStart(), w0, v, w, f.num, off, i, k);
    TrailMore(f, c, off, src, trail, chunks, Stage(h, w, k), base, calls, logged);
  }

  /** The disk ran full in a chunk. */
  lemma ShortChunk(h: Fs, f: Fs, g: Fs, w0: Ledger, v: Ledger, w: Ledger, c: seq<byte>, off: nat, src: seq<byte>,
                   trail: seq<Stage>, chunks: seq<seq<Call>>, i: nat, n1: nat)
    requires Chunked(f, g, w0, v, c, off, src, trail, chunks, i) && h.sb == g.sb && h.num == g.num
    requires i + n1 <= |src| && off + i <= g.ip.size && off + i + n1 <= MAXFILE * BSIZE
             && i + n1 == Whole(|src|, |chunks| + 1)
    requires Short(h, v, w, TouchedBy(f.num, off + i, n1))
    ensures Short(h, w0, w, TouchedBy(f.num, off, Goes(off, |src|, |c|)))
  {
    ChunkedMeans(f, g, w0, v, c, off, src, trail, chunks, i);
    AtMeans(f, g, v, c, off, src, i);
    GoesOn(off, |src|, |c|, |chunks|);
    TouchedPart(f.num, off, 0, i, Goes(off, |src|, |c|));
    TouchedPart(f.num, off, i, n1, Goes(off, |src|, |c|));
    ShortLater(h, h.sb.DataStart(), w0, v, w, TouchedBy(f.num, off, i), TouchedBy(f.num, off + i, n1),
        TouchedBy(f.num, off, Goes(off, |src|, |c|)));
  }

  lemma GoesFits(off: nat, n: nat, size: nat)
    ensures Goes(off, n, size) == 0 || off + Goes(off, n, size) <= MAXFILE * BSIZE
  {
  }

  lemma GoesOn(off: nat, n: nat, size: nat, q: nat)
    requires off <= size && off + Whole(n, q + 1) <= MAXFILE * BSIZE
    ensures Whole(n, q + 1) <= Goes(off, n, size)
  {
    if off + n > MAXFILE * BSIZE {
      var rest := MAXFILE * BSIZE - off;
      assert CHUNK * (q + 1) <= rest;
      assert q + 1 <= rest / CHUNK;
    }
  }

  lemma ChunkedEnd(f: Fs, g: Fs, w0: Ledger, w: Ledger, c: seq<byte>, off: nat, src: seq<byte>,
                   trail: seq<Stage>, chunks: seq<seq<Call>>, i: nat)
    requires Chunked(f, g, w0, w, c, off, src, trail, chunks, i) && i >= |src|
    ensures i == |src| == Goes(off, |src|, |c|)
  {
    ChunkedMeans(f, g, w0, w, c, off, src, trail, chunks, i);
    StopsAt(f, g, w, c, off, src, |chunks|);
  }

  /** What a transaction of filewrite logs: few sectors, all in use, among them those that came into use. */
  ghost predicate ChunkLog(v: Ledger, g: Fs, w: Ledger, calls: seq<Call>, logged: set<nat>) {
    forall k {:trigger Look(k)} :: Look(k) ==>
      && v.owner.Keys <= w.owner.Keys <= v.owner.Keys + logged
      && (g.sb.size <= BPB ==> Small(g, w, calls, logged))
  }

  lemma ChunkLogMeans(v: Ledger, g: Fs, w: Ledger, calls: seq<Call>, logged: set<nat>)
    requires ChunkLog(v, g, w, calls, logged)
    ensures v.owner.Keys <= w.owner.Keys <= v.owner.Keys + logged && (g.sb.size <= BPB ==> Small(g, w, calls, logged))
  {
    assert Look(0);
  }

  /** How many bytes filewrite of n bytes puts in per transaction. */
  const CHUNK: nat := 1536

  /** The bytes in q whole chunks of n bytes, of which the last may be shorter. */
  function Whole(n: nat, q: nat): nat {
    if CHUNK * q < n then CHUNK * q else n
  }

  /** How many of n bytes go in at off in a file of the given size before a chunk is refused. */
  function Goes(off: nat, n: nat, size: nat): nat {
    if off > size || off > MAXFILE * BSIZE then 0
    else if off + n <= MAXFILE * BSIZE then n
    else (MAXFILE * BSIZE - off) / CHUNK * CHUNK
  }

  lemma Refused(off: nat, n: nat, size: nat, q: nat)
    requires CHUNK * q < n && off + CHUNK * q <= MAXFILE * BSIZE < off + Whole(n, q + 1) && off <= size
    ensures Goes(off, n, size) == CHUNK * q
  {
    var rest := MAXFILE * BSIZE - off;
    assert CHUNK * q <= rest < CHUNK * q + CHUNK;
    Quotient(CHUNK, q, rest - CHUNK * q);
  }

  /** Where the loop of filewrite stops. */
  lemma StopsAt(f: Fs, g: Fs, w: Ledger, c: seq<byte>, off: nat, src: seq<byte>, q: nat)
    requires At(f, g, w, c, off, src, Whole(|src|, q))
    requires CHUNK * q < |src| ==> off + CHUNK * q > g.ip.size || off + Whole(|src|, q + 1) > MAXFILE * BSIZE
    ensures Whole(|src|, q) == Goes(off, |src|, |c|)
  {
    AtMeans(f, g, w, c, off, src, Whole(|src|, q));
    if CHUNK * q < |src| && off <= |c| { Refused(off, |src|, |c|, q); }
  }

  /** The file system, its ledger, and how many bytes a filewrite has put in. */
  datatype Stage = Stage(g: Fs, w: Ledger, i: nat)

  /** Between the stages lie the transactions, each of which fits the log; stage j has j whole chunks of src in place.
      */
  ghost predicate Trail(f: Fs, c: seq<byte>, off: nat, src: seq<byte>, trail: seq<Stage>, chunks: seq<seq<Call>>) {
    && |trail| == |chunks| + 1
    && forall k {:trigger Look(k)} :: Look(k) ==>
         && (forall j :: 0 <= j < |trail| ==> At(f, trail[j].g, trail[j].w, c, off, src, trail[j].i) && trail[j].i == Whole(|src|, j))
         && (forall j :: 0 <= j < |chunks| ==> Between(trail[j], trail[j + 1], chunks[j]))
  }

  ghost predicate Between(a: Stage, b: Stage, calls: seq<Call>) {
    && b.g.disk == Apply(a.g.disk, calls) && b.g.sb == a.g.sb && |b.g.disk| == |a.g.disk| && a.i <= b.i
    && (forall j :: 0 <= j < |calls| ==> CallOk(|a.g.disk|, calls[j]))
    && a.w.owner.Keys <= b.w.owner.Keys <= a.w.owner.Keys + Sectors(calls)
    && (a.g.sb.size <= BPB ==> Small(b.g, b.w, calls, Sectors(calls)))
  }

  lemma TrailStart(f: Fs, g: Fs, w: Ledger, c: seq<byte>, off: nat, src: seq<byte>)
    requires At(f, g, w, c, off, src, 0)
    ensures Trail(f, c, off, src, [Stage(g, w, 0)], [])
  {
  }

  lemma TrailMore(f: Fs, c: seq<byte>, off: nat, src: seq<byte>, trail: seq<Stage>, chunks: seq<seq<Call>>, b: Stage,
                  base: Disk, calls: seq<Call>, logged: set<nat>)
    requires Trail(f, c, off, src, trail, chunks) && At(f, b.g, b.w, c, off, src, b.i) && b.i == Whole(|src|, |trail|)
    requires var a := trail[|trail| - 1]; base == a.g.disk && b.g.sb == a.g.sb && a.i <= b.i
    requires trail[|trail| - 1].w.owner.Keys <= b.w.owner.Keys <= trail[|trail| - 1].w.owner.Keys + logged
    requires Kept(base, b.g.disk, calls, logged)
    requires b.g.sb.size <= BPB ==> Small(b.g, b.w, calls, logged)
    ensures Trail(f, c, off, src, trail + [b], chunks + [calls])
  {
    BetweenIs(trail[|trail| - 1], b, base, calls, logged);
    var t, q := trail + [b], chunks + [calls];
    assert Look(0);
    forall j | 0 <= j < |q|
      ensures Between(t[j], t[j + 1], q[j])
    {
      if j < |chunks| { assert t[j] == trail[j] && t[j + 1] == trail[j + 1] && q[j] == chunks[j]; }
    }
  }

  lemma BetweenIs(a: Stage, b: Stage, base: Disk, calls: seq<Call>, logged: set<nat>)
    requires base == a.g.disk && b.g.sb == a.g.sb && a.i <= b.i && Kept(base, b.g.disk, calls, logged)
    requires a.w.owner.Keys <= b.w.owner.Keys <= a.w.owner.Keys + logged
    requires b.g.sb.size <= BPB ==> Small(b.g, b.w, calls, logged)
    ensures Between(a, b, calls)
  {
    KeptMeans(base, b.g.disk, calls, logged);
  }

  /** Of a filewrite of src at off that began in f, where the file held c, the first i bytes are in. */
  ghost predicate At(f: Fs, g: Fs, w: Ledger, c: seq<byte>, off: nat, src: seq<byte>, i: nat) {
    forall k {:trigger Glance(k)} :: Glance(k) ==>
      && i <= |src| && f.Ok() && g.Ok() && Owned(g, w) && w.loose == {} && w.gone == {}
      && Dense(g, g.num) && GetInode(g.sb, g.disk, g.num) == g.ip
      && SameOthers(f, g) && Progress(g, c, off, src, i)
  }

  lemma AtStart(f: Fs, w: Ledger, off: nat, src: seq<byte>)
    requires f.Ok() && Owned(f, w) && w.loose == {} && w.gone == {} && Dense(f, f.num)
             && GetInode(f.sb, f.disk, f.num) == f.ip
    ensures At(f, f, w, Contents(f, f.num), off, src, 0)
  {
    SameOthersSelf(f);
    ProgressNone(f, off, src);
  }

  lemma AtMeans(f: Fs, g: Fs, w: Ledger, c: seq<byte>, off: nat, src: seq<byte>, i: nat)
    requires At(f, g, w, c, off, src, i)
    ensures i <= |src| && f.Ok() && g.Ok() && Owned(g, w) && w.loose == {} && w.gone == {}
    ensures Dense(g, g.num) && GetInode(g.sb, g.disk, g.num) == g.ip && SameOthers(f, g)
    ensures i > 0 ==> off <= |c| && Contents(g, g.num) == Spliced(c, off, src[..i]) && off + i <= g.ip.size
    ensures i == 0 ==> Contents(g, g.num) == c && g.ip.size == |c|
  {
    assert Glance(0);
    ProgressMeans(g, c, off, src, i);
  }

  /** The same file system on another disk is at the same place. */
  lemma AtAgain(f: Fs, g: Fs, u: Fs, w: Ledger, c: seq<byte>, off: nat, src: seq<byte>, i: nat)
    requires At(f, g, w, c, off, src, i) && g.Ok() && u.Ok() && Owned(u, w) && g.ip.size <= MAXFILE * BSIZE
             && u.ip == g.ip && u.num == g.num
    requires Dense(u, u.num) && GetInode(u.sb, u.disk, u.num) == u.ip && SameOthers(g, u)
             && Contents(u, u.num) == Contents(g, g.num)
    ensures At(f, u, w, c, off, src, i)
  {
    assert Glance(0);
    SameOthersTrans(f, g, u);
    assert Progress(u, c, off, src, i) by { assert Peek(0); }
  }

  lemma AtReady(f: Fs, g: Fs, w: Ledger, c: seq<byte>, off: nat, src: seq<byte>, i: nat)
    requires At(f, g, w, c, off, src, i)
    ensures g.Ok() && Owned(g, w) && w.loose == {} && w.gone == {}
    ensures Dense(g, g.num) && GetInode(g.sb, g.disk, g.num) == g.ip && (i > 0 ==> off + i <= g.ip.size)
  {
    AtMeans(f, g, w, c, off, src, i);
  }

  lemma AtWord(f: Fs, g: Fs, w: Ledger, c: seq<byte>, off: word, src: seq<byte>, i: nat)
    requires At(f, g, w, c, off, src, i)
    ensures off + i < 0x1_0000_0000
  {
    AtMeans(f, g, w, c, off, src, i);
  }

  /** What a successful writei of piece at `at` leaves of g. */
  ghost predicate WroteAll(g: Fs, h: Fs, w: Ledger, at: nat, piece: seq<byte>) {
    forall k {:trigger Peek(k)} :: Peek(k) ==>
      && g.Ok() && Dense(g, g.num) && at <= g.ip.size
      && h.Ok() && Owned(h, w) && w.loose == {} && w.gone == {} && Dense(h, h.num)
      && GetInode(h.sb, h.disk, h.num) == h.ip && SameOthers(g, h)
      && Contents(h, h.num) == Spliced(Contents(g, g.num), at, piece)
  }

  lemma AtMore(f: Fs, g: Fs, v: Ledger, h: Fs, w: Ledger, c: seq<byte>, off: nat, src: seq<byte>, i: nat, k: nat,
               piece: seq<byte>)
    requires At(f, g, v, c, off, src, i) && i < k <= |src| && piece == src[i..k] && WroteAll(g, h, w, off + i, piece)
    ensures At(f, h, w, c, off, src, k)
  {
    assert Glance(0) && Peek(0);
    var at := off + i;
    SameOthersTrans(f, g, h);
    ProgressMore(g, h, c, off, src, i, k, piece, at);
  }

  /** Of a filewrite of src at off into a file that held c, the first i bytes are in. */
  ghost predicate Progress(g: Fs, c: seq<byte>, off: nat, src: seq<byte>, i: nat)
    requires g.Ok() && g.ip.size <= MAXFILE * BSIZE && i <= |src|
  {
    forall k {:trigger Peek(k)} :: Peek(k) ==>
      && (i == 0 ==> Contents(g, g.num) == c)
      && (i > 0 ==> off <= |c| && Contents(g, g.num) == Spliced(c, off, src[..i]))
  }

  lemma ProgressNone(g: Fs, off: nat, src: seq<byte>)
    requires g.Ok() && g.ip.size <= MAXFILE * BSIZE
    ensures Progress(g, Contents(g, g.num), off, src, 0)
  {
  }

  lemma ProgressMore(g: Fs, h: Fs, c: seq<byte>, off: nat, src: seq<byte>, i: nat, k: nat, piece: seq<byte>, at: nat)
    requires g.Ok() && g.ip.size <= MAXFILE * BSIZE && h.Ok() && h.ip.size <= MAXFILE * BSIZE && i < k <= |src|
    requires Progress(g, c, off, src, i) && piece == src[i..k] && at == off + i <= g.ip.size
    requires Contents(h, h.num) == Spliced(Contents(g, g.num), at, piece)
    ensures Progress(h, c, off, src, k)
  {
    ProgressMeans(g, c, off, src, i);
    if i == 0 { assert piece == src[..k]; } else { SplicedTwice(c, off, src, i, k, piece, at); }
  }

  lemma ProgressMeans(g: Fs, c: seq<byte>, off: nat, src: seq<byte>, k: nat)
    requires g.Ok() && g.ip.size <= MAXFILE * BSIZE && k <= |src| && Progress(g, c, off, src, k)
    ensures k > 0 ==> off <= |c| && Contents(g, g.num) == Spliced(c, off, src[..k]) && off + k <= g.ip.size
    ensures k == 0 ==> Contents(g, g.num) == c && g.ip.size == |c|
  {
    assert Peek(0);
    assert |Contents(g, g.num)| == g.ip.size;
  }

  /** Sectors logged by a write of tot bytes at off, with one bitmap sector. */
  ghost predicate LoggedSoFar(f: Fs, logged0: set<nat>, logged: set<nat>, off: nat, tot: nat)
    requires f.Ok() && off / BSIZE + Spans(off, tot) <= MAXFILE
  {
    logged <= logged0 + {f.sb.BBlock(0)} + PointerSet(f) + BlockSet(f, off / BSIZE, Spans(off, tot))
  }

  lemma LoggedMore(f: Fs, g: Fs, logged0: set<nat>, was: set<nat>, logged: set<nat>, off: nat, tot: nat, m: nat)
    requires f.Ok() && g.Ok() && g.num == f.num && g.sb == f.sb && PointerKept(f, g)
    requires off / BSIZE + Spans(off, tot) == (off + tot) / BSIZE < MAXFILE
             && Spans(off, tot + m) == Spans(off, tot) + 1
    requires LoggedSoFar(f, logged0, was, off, tot)
    requires forall bn ::
               0 <= bn < MAXFILE && bn != (off + tot) / BSIZE ==> Val(g, SlotOf(f.num, bn)) == Val(f, SlotOf(f.num, bn))
    requires logged <= was + {g.sb.BBlock(0), Val(g, SlotOf(f.num, (off + tot) / BSIZE))} + PointerSet(g)
    ensures LoggedSoFar(g, logged0, logged, off, tot + m)
  {
    BlockSetSame(f, g, off / BSIZE, Spans(off, tot));
    assert PointerSet(f) <= PointerSet(g);
  }

  /** From f to g file block bn of the locked inode got, or had, block a; nothing else moved. */
  ghost predicate MappedTo(f: Fs, g: Fs, bn: nat, a: nat)
    requires f.Ok() && g.Ok()
  {
    && bn < MAXFILE && g.sb == f.sb && g.num == f.num && a != 0 && InData(g, a)
    && Val(g, SlotOf(f.num, bn)) == a
    && (forall n :: 0 <= n < MAXFILE && n != bn ==> Val(g, SlotOf(f.num, n)) == Val(f, SlotOf(f.num, n)))
    && SameData(f, g, NOSLOT)
    && g.ip.size == f.ip.size && PointerKept(f, g)
  }

  /** Once there is an indirect block it stays. */
  predicate PointerKept(f: Fs, g: Fs)
    requires f.Ok() && g.Ok()
  {
    f.ip.addrs[INDIRECT] != 0 ==> g.ip.addrs[INDIRECT] == f.ip.addrs[INDIRECT]
  }

  lemma MappedByOne(f: Fs, g: Fs, bn: nat, a: nat)
    requires f.Ok() && g.Ok() && bn < MAXFILE && g.num == f.num && Filled(f, g, SlotOf(f.num, bn), a) && InData(g, a)
    ensures MappedTo(f, g, bn, a)
  {
    forall n | 0 <= n < MAXFILE && n != bn
      ensures Val(g, SlotOf(f.num, n)) == Val(f, SlotOf(f.num, n))
    {
      assert SlotOf(f.num, n) != SlotOf(f.num, bn) && IsSlot(f, SlotOf(f.num, n));
    }
    var p := Slot(f.num, INDIRECT);
    assert IsSlot(f, p) && p != SlotOf(f.num, bn) && Val(f, p) == f.ip.addrs[INDIRECT]
           && Val(g, p) == g.ip.addrs[INDIRECT];
  }

  /** From f to g the indirect block was there, or came. */
  ghost predicate PointerReady(f: Fs, v: Ledger, l: set<nat>, g: Fs, w: Ledger, logged: set<nat>) {
    forall k {:trigger Peek(k)} :: Peek(k) ==>
      && f.Ok() && g.Ok() && g.num == f.num && Grew(v, l, w, logged)
      && (g.sb.size <= BPB ==> logged <= l + {g.sb.BBlock(0)} + PointerSet(g))
      && (g == f || (f.ip.addrs[INDIRECT] == 0 && exists p :: Filled(f, g, Slot(f.num, INDIRECT), p)))
      && Took(g.sb.DataStart(), v, w, {Slot(g.num, INDIRECT)})
  }

  lemma PointerMeans(f: Fs, v: Ledger, l: set<nat>, g: Fs, w: Ledger, logged: set<nat>)
    requires PointerReady(f, v, l, g, w, logged)
    ensures f.Ok() && g.Ok() && g.num == f.num && Grew(v, l, w, logged)
    ensures g.sb.size <= BPB ==> logged <= l + {g.sb.BBlock(0)} + PointerSet(g)
    ensures g == f || (f.ip.addrs[INDIRECT] == 0 && exists p :: Filled(f, g, Slot(f.num, INDIRECT), p))
    ensures Took(g.sb.DataStart(), v, w, {Slot(g.num, INDIRECT)})
  {
    assert Peek(0);
  }

  /** The indirect block first if it was missing, then its entry. */
  lemma MappedByTwo(f: Fs, g: Fs, h: Fs, bn: nat, a: nat)
    requires f.Ok() && g.Ok() && h.Ok() && NDIRECT <= bn < MAXFILE && f.num == g.num == h.num
    requires g == f || (f.ip.addrs[INDIRECT] == 0 && exists p :: Filled(f, g, Slot(f.num, INDIRECT), p))
    requires Filled(g, h, SlotOf(f.num, bn), a) && InData(h, a)
    ensures MappedTo(f, h, bn, a)
  {
    MappedByOne(g, h, bn, a);
    if g != f {
      var p :| Filled(f, g, Slot(f.num, INDIRECT), p);
      forall n | 0 <= n < MAXFILE
        ensures Val(g, SlotOf(f.num, n)) == Val(f, SlotOf(f.num, n))
      {
        assert SlotOf(f.num, n) != Slot(f.num, INDIRECT) && IsSlot(f, SlotOf(f.num, n));
      }
      SameDataTrans(f, g, h, NOSLOT);
    }
  }

  lemma OneBitmap(sb: Super, a: nat)
    requires a < sb.size
    ensures sb.size <= BPB ==> sb.BBlock(a) == sb.BBlock(0)
  {
  }

  /** From f to g the empty slot took block a, which is zeroed if it holds data; nothing else moved. */
  ghost predicate Filled(f: Fs, g: Fs, sl: Slot, a: nat)
    requires f.Ok() && g.Ok() && IsSlot(f, sl)
  {
    && g.sb == f.sb && a != 0 && Val(g, sl) == a
    && (forall t :: IsSlot(f, t) && t != sl ==> Val(g, t) == Val(f, t))
    && SameData(f, g, NOSLOT)
    && g.ip.size == f.ip.size
  }

  /** A block that is in use already is neither the bitmap sector nor the block being allocated. */
  lemma OtherBlock(f: Fs, w: Ledger, other: Option<nat>, a: nat)
    requires f.Ok() && Owned(f, w) && w.gone == {} && a < f.sb.size && !BitOf(f.sb, f.disk, a)
             && (other.Some? ==> other.value in w.owner)
    ensures other.Some? ==> other.value < |f.disk| && other.value != f.sb.BBlock(a) && other.value != a
    ensures f.sb.BBlock(a) < |f.disk|
  {
    assert Look(0);
    LayoutApart(f.sb, f.num, a);
  }

  lemma OtherBit(f: Fs, w: Ledger, other: Option<nat>, a: nat)
    requires f.Ok() && Owned(f, w) && a < f.sb.size && (other.Some? ==> other.value in w.owner)
    ensures other.Some? ==> other.value < |f.disk| && other.value != f.sb.BBlock(a)
    ensures f.sb.BBlock(a) < |f.disk|
  {
    assert Look(0);
    LayoutApart(f.sb, f.num, a);
  }

  lemma PointerBlock(f: Fs, w: Ledger)
    requires f.Ok() && Owned(f, w) && f.ip.addrs[INDIRECT] != 0
    ensures f.ip.addrs[INDIRECT] in w.owner && w.owner[f.ip.addrs[INDIRECT]] == Slot(f.num, INDIRECT)
  {
    assert Look(0);
    var sl := Slot(f.num, INDIRECT);
    assert IsSlot(f, sl) && Val(f, sl) == f.ip.addrs[INDIRECT];
  }

  lemma AddrKeeps(f0: Fs, f: Fs, g: Fs, sl: Slot, a: nat)
    requires f0.Ok() && f.Ok() && g.Ok() && IsSlot(f, sl) && SameVals(f0, f) && SameData(f0, f, NOSLOT)
    requires f0.num == f.num && g.disk == f.disk && g.sb == f.sb && g.num == f.num && g.ip.size == f0.ip.size
    requires Val(f0, sl) == 0 && a != 0 && Val(g, sl) == a && forall t ::
               IsSlot(f, t) && t != sl ==> Val(g, t) == Val(f, t)
    ensures Filled(f0, g, sl, a)
  {
  }

  /** Writing the indirect block leaves every data block alone. */
  lemma EntryKeeps(f0: Fs, f: Fs, g: Fs, w: Ledger, sl: Slot, a: nat)
    requires f0.Ok() && f.Ok() && g.Ok() && Owned(f, w) && SameVals(f0, f) && SameData(f0, f, NOSLOT)
             && f.ip.addrs[INDIRECT] != 0
    requires f0.num == f.num == g.num && f0.ip == f.ip == g.ip && g.sb == f.sb && |g.disk| == |f.disk| && IsSlot(f, sl)
    requires forall i :: 0 <= i < f.sb.ninodes ==> Node(g, i) == Node(f, i)
    requires forall c :: 0 <= c < |f.disk| && c != f.ip.addrs[INDIRECT] ==> g.disk[c] == f.disk[c]
    requires Val(f0, sl) == 0 && a != 0 && Val(g, sl) == a && forall t ::
               IsSlot(f, t) && t != sl ==> Val(g, t) == Val(f, t)
    ensures Filled(f0, g, sl, a)
  {
    forall t | IsSlot(f, t) && t.n != INDIRECT && Val(f, t) != 0
      ensures Val(f, t) != f.ip.addrs[INDIRECT]
    {
      NotPointer(f, w, t);
    }
  }

  lemma NotPointer(f: Fs, w: Ledger, t: Slot)
    requires f.Ok() && Owned(f, w) && f.ip.addrs[INDIRECT] != 0 && IsSlot(f, t) && t.n != INDIRECT && Val(f, t) != 0
    ensures Val(f, t) != f.ip.addrs[INDIRECT]
  {
    PointerBlock(f, w);
    OwnerOf(f, w, t);
  }

  lemma OwnerOf(f: Fs, w: Ledger, t: Slot)
    requires f.Ok() && Owned(f, w) && IsSlot(f, t) && Val(f, t) != 0
    ensures Val(f, t) in w.owner && w.owner[Val(f, t)] == t && InData(f, Val(f, t))
  {
    assert Look(0);
  }

  /** Every block from lo to before hi is marked in use. */
  ghost predicate AllUsed(sb: Super, d: Disk, lo: nat, hi: nat)
    requires sb.Ok(d)
  {
    forall k {:trigger Peek(k)} :: Peek(k) ==> forall c :: lo <= c < hi && c < sb.size ==> BitOf(sb, d, c)
  }

  lemma UsedOneMore(sb: Super, d: Disk, lo: nat, hi: nat)
    requires sb.Ok(d) && AllUsed(sb, d, lo, hi) && hi < sb.size && BitOf(sb, d, hi)
    ensures AllUsed(sb, d, lo, hi + 1)
  {
  }

  lemma UsedFurther(sb: Super, d: Disk, mid: nat, hi: nat)
    requires sb.Ok(d) && AllUsed(sb, d, 0, mid) && AllUsed(sb, d, mid, hi)
    ensures AllUsed(sb, d, 0, hi)
  {
  }

  lemma UsedUpTo(sb: Super, d: Disk, mid: nat, hi: nat)
    requires sb.Ok(d) && (mid == 0 || AllUsed(sb, d, 0, mid)) && (hi <= mid || sb.size <= mid)
    ensures AllUsed(sb, d, 0, hi)
  {
  }

  lemma SameWhere(b: nat, bi: nat)
    requires b % BPB == 0 && bi < BPB
    ensures (b + bi) / BPB == b / BPB && (b + bi) % BPB == bi && (b + bi) % 8 == bi % 8
  {
    var q := b / BPB;
    assert b == BPB * q && b + bi == BPB * q + bi;
    Quotient(BPB, q, bi);
    Quotient(8, 512 * q + bi / 8, bi % 8);
  }

  /** Changing a bitmap sector and a block that was not in use keeps all data. */
  lemma FreshKeeps(f: Fs, g: Fs, w: Ledger, a: nat)
    requires f.Ok() && g.Ok() && Owned(f, w) && SameVals(f, g) && InData(f, a) && a !in w.owner
    requires |g.disk| == |f.disk| && g.num == f.num && g.ip == f.ip
    requires forall c :: 0 <= c < |f.disk| && c != a && c != f.sb.BBlock(a) ==> g.disk[c] == f.disk[c]
    ensures SameData(f, g, NOSLOT)
  {
    forall i | 0 <= i < f.sb.ninodes && i != f.num
      ensures Node(g, i) == Node(f, i)
    {
      LayoutApart(f.sb, i, a);
    }
    forall sl | IsSlot(f, sl) && Val(f, sl) != 0
      ensures Val(f, sl) < |f.disk| && g.disk[Val(f, sl)] == f.disk[Val(f, sl)]
    {
      NotFresh(f, w, a, sl);
    }
  }

  lemma NotFresh(f: Fs, w: Ledger, a: nat, sl: Slot)
    requires f.Ok() && Owned(f, w) && InData(f, a) && a !in w.owner && IsSlot(f, sl) && Val(f, sl) != 0
    ensures Val(f, sl) < |f.disk| && Val(f, sl) != a && Val(f, sl) != f.sb.BBlock(a)
  {
    OwnerOf(f, w, sl);
    LayoutApart(f.sb, f.num, a);
  }

  /** A round of writei's loop touches one block more. */
  lemma SpansMore(off: nat, tot: nat, m: nat)
    requires 0 < m <= BSIZE - (off + tot) % BSIZE && (tot == 0 || (off + tot) % BSIZE == 0)
             && off + tot + m <= MAXFILE * BSIZE
    ensures Spans(off, tot + m) == Spans(off, tot) + 1
    ensures off / BSIZE + Spans(off, tot) == (off + tot) / BSIZE
    ensures off / BSIZE + Spans(off, tot + m) <= MAXFILE
    ensures (off + tot + m) % BSIZE == 0 <==> m == BSIZE - (off + tot) % BSIZE
  {
  }

  // ---------------------------------------------------------------- steps of writei on values

  lemma InodeKeeps(f: Fs, g: Fs, w: Ledger)
    requires f.Ok() && g.Ok() && Owned(f, w) && SameVals(f, g) && g.num == f.num && |g.disk| == |f.disk|
    requires forall i :: 0 <= i < f.sb.ninodes ==> Node(g, i) == Node(f, i)
    requires forall c :: 0 <= c < |f.disk| && c != f.sb.IBlock(f.num) ==> g.disk[c] == f.disk[c]
    ensures SameData(f, g, NOSLOT)
  {
    forall sl | IsSlot(f, sl) && Val(f, sl) != 0
      ensures Val(f, sl) < |f.disk| && g.disk[Val(f, sl)] == f.disk[Val(f, sl)]
    {
      OwnerOf(f, w, sl);
      LayoutApart(f.sb, f.num, 0);
    }
  }

  /** Storing data in the block that bmap gave. */
  lemma PatchBlock(f: Fs, g: Fs, w: Ledger, off: nat, data: seq<byte>, a: nat)
    requires f.Ok() && g.Ok() && Owned(g, w) && off + |data| <= MAXFILE * BSIZE && 0 < |data| <= BSIZE - off % BSIZE
    requires MappedTo(f, g, off / BSIZE, a)
    ensures var h := g.(disk := g.disk[a := Overlay(g.disk[a], off % BSIZE, data)]);
            h.Ok() && Owned(h, w) && WroteChunk(f, h, off, data)
            && Val(h, SlotOf(f.num, off / BSIZE)) == a
  {
    var bn := off / BSIZE;
    var sl := SlotOf(f.num, bn);
    OwnerOf(g, w, sl);
    DataWrite(g, w, a, Overlay(g.disk[a], off % BSIZE, data));
    var h := g.(disk := g.disk[a := Overlay(g.disk[a], off % BSIZE, data)]);
    MetaKept(g, h, a, Overlay(g.disk[a], off % BSIZE, data));
    assert SameOthers(f, h) by { PatchOthers(f, g, h, w, sl, a); }
    forall n | 0 <= n < MAXFILE && n != bn
      ensures Val(h, SlotOf(f.num, n)) == Val(f, SlotOf(f.num, n))
    {
      assert IsSlot(g, SlotOf(f.num, n));
    }
    PatchBytes(f, g, h, w, off, data, a);
  }

  lemma PatchBytes(f: Fs, g: Fs, h: Fs, w: Ledger, off: nat, data: seq<byte>, a: nat)
    requires f.Ok() && g.Ok() && h.Ok() && Owned(g, w) && off + |data| <= MAXFILE * BSIZE
             && 0 < |data| <= BSIZE - off % BSIZE
    requires MappedTo(f, g, off / BSIZE, a) && SameVals(g, h) && a < |g.disk|
    requires h.disk == g.disk[a := Overlay(g.disk[a], off % BSIZE, data)] && h.num == g.num
    ensures forall k :: 0 <= k < MAXFILE * BSIZE && off <= k < off + |data| ==> ByteAt(h, f.num, k) == data[k - off]
    ensures forall k :: 0 <= k < MAXFILE * BSIZE && !(off <= k < off + |data|) && Mapped(f, f.num, k / BSIZE) ==>
              ByteAt(h, f.num, k) == ByteAt(f, f.num, k)
  {
    assert IsSlot(g, SlotOf(f.num, off / BSIZE));
    forall k | 0 <= k < MAXFILE * BSIZE && off <= k < off + |data|
      ensures ByteAt(h, f.num, k) == data[k - off]
    {
      ChunkAt(off, k);
    }
    forall k | 0 <= k < MAXFILE * BSIZE && !(off <= k < off + |data|) && Mapped(f, f.num, k / BSIZE)
      ensures ByteAt(h, f.num, k) == ByteAt(f, f.num, k)
    {
      PatchOther(f, g, h, w, off, data, a, k);
    }
  }

  lemma PatchOther(f: Fs, g: Fs, h: Fs, w: Ledger, off: nat, data: seq<byte>, a: nat, k: nat)
    requires f.Ok() && g.Ok() && h.Ok() && Owned(g, w) && off + |data| <= MAXFILE * BSIZE
             && 0 < |data| <= BSIZE - off % BSIZE
    requires MappedTo(f, g, off / BSIZE, a) && SameVals(g, h) && a < |g.disk|
    requires h.disk == g.disk[a := Overlay(g.disk[a], off % BSIZE, data)] && h.num == g.num
    requires k < MAXFILE * BSIZE && !(off <= k < off + |data|) && Mapped(f, f.num, k / BSIZE)
    ensures ByteAt(h, f.num, k) == ByteAt(f, f.num, k)
  {
    var sk, sa := SlotOf(f.num, k / BSIZE), SlotOf(f.num, off / BSIZE);
    assert IsSlot(f, sk) && Val(g, sk) == Val(f, sk);
    OwnerOf(g, w, sk);
    OneSlot(g, w, sa, sk);
    if k / BSIZE == off / BSIZE {
      assert k % BSIZE - off % BSIZE == k - off;
    }
  }

  lemma PatchOthers(f: Fs, g: Fs, h: Fs, w: Ledger, sl: Slot, a: nat)
    requires f.Ok() && g.Ok() && h.Ok() && Owned(g, w) && SameData(f, g, NOSLOT) && SameVals(g, h) && h.num == g.num
    requires IsSlot(g, sl) && sl.inum == f.num && Val(g, sl) == a && a != 0 && a < |g.disk|
    requires |h.disk| == |g.disk| && forall c :: 0 <= c < |g.disk| && c != a ==> h.disk[c] == g.disk[c]
    requires forall i :: 0 <= i < g.sb.ninodes ==> Node(h, i) == Node(g, i)
    ensures SameOthers(f, h)
  {
    forall t | IsSlot(f, t) && t.n != INDIRECT && t.inum != f.num && Val(f, t) != 0
      ensures Val(h, t) == Val(f, t) && (Val(f, t) < |f.disk| ==> h.disk[Val(f, t)] == f.disk[Val(f, t)])
    {
      OneSlot(g, w, sl, t);
    }
  }

  /** Every sector is one of the layout's, or a block that some inode has. */
  ghost predicate InUse(f: Fs, w: Ledger, logged: set<nat>) {
    forall x :: x in logged ==> x < f.sb.DataStart() || x in w.owner
  }

  /** A transaction of at most seven sectors, all in use, of which the seventh comes last. */
  ghost predicate Small(f: Fs, w: Ledger, calls: seq<Call>, logged: set<nat>) {
    |logged| <= 7 && InUse(f, w, logged) && Fits(calls)
  }

  /** The same with the inode's sector still to come. */
  ghost predicate SmallBut(f: Fs, w: Ledger, calls: seq<Call>, logged: set<nat>)
    requires f.Ok()
  {
    |logged| <= 6 && InUse(f, w, logged) && |Sectors(calls)| <= 6
  }

  lemma SmallNow(f: Fs, g: Fs, w: Ledger, calls: seq<Call>, logged: set<nat>, c: Call, logged': set<nat>)
    requires f.Ok() && g.sb == f.sb && SmallBut(f, w, calls, logged) && logged' == logged + {f.sb.IBlock(f.num)}
    ensures Small(g, w, calls + [c], logged')
  {
    SixFit(calls);
    UnionSize(logged, {f.sb.IBlock(f.num)});
    LayoutApart(f.sb, f.num, 0);
  }

  lemma {:induction false} BlockSetOwned(f: Fs, w: Ledger, bn: nat, count: nat)
    requires f.Ok() && Owned(f, w) && bn + count <= MAXFILE && forall n :: bn <= n < bn + count ==> Mapped(f, f.num, n)
    ensures InUse(f, w, BlockSet(f, bn, count))
  {
    if count > 0 {
      BlockSetOwned(f, w, bn, count - 1);
      assert Mapped(f, f.num, bn + count - 1);
      OwnerOf(f, w, SlotOf(f.num, bn + count - 1));
    }
  }

  /** Besides those in l0 only sectors of e were logged or held. */
  ghost predicate Into(l0: set<nat>, l: set<nat>, e: set<nat>) {
    forall k {:trigger Spot(k)} :: Spot(k) ==> l <= l0 + e
  }

  lemma IntoMeans(l0: set<nat>, l: set<nat>, e: set<nat>)
    ensures Into(l0, l, e) <==> l <= l0 + e
  {
    if Into(l0, l, e) { assert Spot(0); }
  }

  lemma IntoTwice(l0: set<nat>, l1: set<nat>, l2: set<nat>, e: set<nat>, e': set<nat>, all: set<nat>)
    requires Into(l0, l1, e) && Into(l1, l2, e') && e <= all && e' <= all
    ensures Into(l0, l2, all)
  {
    assert Spot(0);
  }

  lemma IntoAgain(l0: set<nat>, l1: set<nat>, l2: set<nat>, b: nat, p: nat)
    requires Into(l0, l1, {b, p}) && l2 <= l1 + {b}
    ensures Into(l0, l2, {b, p})
  {
    assert Spot(0);
  }

  lemma IntoThrice(l0: set<nat>, l1: set<nat>, l2: set<nat>, l3: set<nat>, b: set<nat>, p: set<nat>, i: nat)
    requires Into(l0, l1, b) && Into(l1, l2, b + p) && l3 == l2 + {i}
    ensures Into(l0, l3, b + {i} + p)
  {
    assert Spot(0);
  }

  /** At most n sectors were logged or held besides those in l0, all of them in use. */
  ghost predicate Adds(f: Fs, w: Ledger, l0: set<nat>, l: set<nat>, n: nat) {
    exists e {:trigger InUse(f, w, e)} :: InUse(f, w, e) && |e| <= n && l <= l0 + e
  }

  lemma AddsLoop(f0: Fs, f: Fs, w: Ledger, l0: set<nat>, l: set<nat>, off: nat, src: seq<byte>)
    requires f0.Ok() && f.Ok() && Owned(f, w) && Wrote(f0, f, off, src, |src|) && off + |src| <= MAXFILE * BSIZE
    requires off / BSIZE + Spans(off, |src|) <= MAXFILE && LoggedSoFar(f, l0, l, off, |src|)
    ensures Adds(f, w, l0, l, Spans(off, |src|) + 2) && Adds(f, w, l0, l, Spans(off, |src|) + 3)
  {
    var n := Spans(off, |src|);
    SpannedMapped(f0, f, off, src);
    WriteSetInUse(f, w, off / BSIZE, n);
    WriteSetSize(f, off / BSIZE, n);
    assert InUse(f, w, WriteSet(f, off / BSIZE, n));
  }

  /** The sectors a write to `count` file blocks from bn on may log, besides the inode's. */
  ghost function WriteSet(f: Fs, bn: nat, count: nat): set<nat>
    requires f.Ok() && bn + count <= MAXFILE
  {
    {f.sb.BBlock(0)} + PointerSet(f) + BlockSet(f, bn, count)
  }

  lemma WriteSetInUse(f: Fs, w: Ledger, bn: nat, count: nat)
    requires f.Ok() && Owned(f, w) && bn + count <= MAXFILE && forall n :: bn <= n < bn + count ==> Mapped(f, f.num, n)
    ensures InUse(f, w, WriteSet(f, bn, count))
  {
    BlockSetOwned(f, w, bn, count);
    if f.ip.addrs[INDIRECT] != 0 { PointerBlock(f, w); }
    LayoutApart(f.sb, f.num, 0);
  }

  lemma WriteSetSize(f: Fs, bn: nat, count: nat)
    requires f.Ok() && bn + count <= MAXFILE
    ensures |WriteSet(f, bn, count)| <= count + 2
  {
    BlockSetSize(f, bn, count);
    UnionSize({f.sb.BBlock(0)}, PointerSet(f));
    UnionSize({f.sb.BBlock(0)} + PointerSet(f), BlockSet(f, bn, count));
  }

  lemma AddsInode(f: Fs, g: Fs, w: Ledger, l0: set<nat>, l: set<nat>, l': set<nat>, n: nat)
    requires f.Ok() && g.sb == f.sb && Adds(f, w, l0, l, n) && l' == l + {f.sb.IBlock(f.num)}
    ensures Adds(g, w, l0, l', n + 1)
  {
    var e :| InUse(f, w, e) && |e| <= n && l <= l0 + e;
    LayoutApart(f.sb, f.num, 0);
    UnionSize(e, {f.sb.IBlock(f.num)});
    assert InUse(g, w, e + {f.sb.IBlock(f.num)});
  }

  /** What writei's loop logged, besides the inode to come. */
  lemma FewCalls(f0: Fs, f: Fs, w: Ledger, base: Disk, disk: Disk, calls: seq<Call>, logged: set<nat>, off: nat,
                 src: seq<byte>)
    requires f0.Ok() && f.Ok() && Owned(f, w) && Wrote(f0, f, off, src, |src|) && |src| <= 1536
             && off + |src| <= MAXFILE * BSIZE
    requires off / BSIZE + Spans(off, |src|) <= MAXFILE && LoggedSoFar(f, {}, logged, off, |src|)
             && Kept(base, disk, calls, logged)
    ensures SmallBut(f, w, calls, logged) && Small(f, w, calls, logged)
  {
    FewSectors(f, logged, off, |src|, f.sb.IBlock(f.num));
    KeptMeans(base, disk, calls, logged);
    SixFit(calls);
    SpannedMapped(f0, f, off, src);
    BlockSetOwned(f, w, off / BSIZE, Spans(off, |src|));
    if f.ip.addrs[INDIRECT] != 0 { PointerBlock(f, w); }
    LayoutApart(f.sb, f.num, 0);
    assert f.sb.BBlock(0) < f.sb.DataStart();
  }

  lemma SpannedMapped(f0: Fs, f: Fs, off: nat, src: seq<byte>)
    requires f0.Ok() && f.Ok() && Wrote(f0, f, off, src, |src|) && off + |src| <= MAXFILE * BSIZE
    ensures forall n :: off / BSIZE <= n < off / BSIZE + Spans(off, |src|) ==> Mapped(f, f.num, n)
  {
    assert Peek(0);
  }

  /** At most four data blocks, the bitmap, the indirect block and the inode. */
  lemma FewSectors(f: Fs, logged: set<nat>, off: nat, n: nat, inode: nat)
    requires f.Ok() && n <= 1536 && off + n <= MAXFILE * BSIZE && off / BSIZE + Spans(off, n) <= MAXFILE
    requires logged <= {f.sb.BBlock(0)} + PointerSet(f) + BlockSet(f, off / BSIZE, Spans(off, n))
    ensures |logged| <= 6 && |logged + {inode}| <= 7
  {
    var d := BlockSet(f, off / BSIZE, Spans(off, n));
    BlockSetSize(f, off / BSIZE, Spans(off, n));
    assert Spans(off, n) <= 4;
    UnionSize({f.sb.BBlock(0)}, PointerSet(f));
    UnionSize({f.sb.BBlock(0)} + PointerSet(f), d);
    SubsetSize(logged, {f.sb.BBlock(0)} + PointerSet(f) + d);
    UnionSize(logged, {inode});
  }

  lemma UnionSize(a: set<nat>, b: set<nat>)
    ensures |a + b| <= |a| + |b|
  {
    assert a + b == a + (b - a);
    SubsetSize(b - a, b);
  }

  lemma SubsetSize(a: set<nat>, b: set<nat>)
    requires a <= b
    ensures |a| <= |b|
  {
    assert b == a + (b - a);
  }

  /** What a file holds after src was put over it at off. */
  function Spliced(c: seq<byte>, off: nat, src: seq<byte>): seq<byte>
    requires off <= |c|
  {
    c[..off] + src + if off + |src| < |c| then c[off + |src|..] else []
  }

  lemma SizeKeeps(f: Fs, g: Fs, w: Ledger)
    requires f.Ok() && g.Ok() && Owned(f, w) && g.disk == f.disk && g.sb == f.sb && g.num == f.num
             && g.ip.addrs == f.ip.addrs
    ensures SameVals(f, g) && Owned(g, w)
  {
    assert forall sl :: IsSlot(f, sl) ==> Val(g, sl) == Val(f, sl);
    KeepOwned(f, g, w);
  }

  lemma StayedAt(f0: Fs, f: Fs, off: nat, src: seq<byte>)
    requires f0.Ok() && f.Ok() && Dense(f0, f0.num) && off <= f0.ip.size && off + |src| <= f0.ip.size
    requires Wrote(f0, f, off, src, |src|)
    ensures Dense(f, f.num) && Contents(f, f.num) == Spliced(Contents(f0, f0.num), off, src)
  {
    assert Peek(0);
    WrittenBytes(f0, f, off, src, f0.ip.size);
  }

  lemma GrewTo(f0: Fs, f: Fs, g: Fs, h: Fs, off: nat, src: seq<byte>)
    requires f0.Ok() && f.Ok() && g.Ok() && h.Ok() && Dense(f0, f0.num)
             && off <= f0.ip.size < off + |src| <= MAXFILE * BSIZE
    requires Wrote(f0, f, off, src, |src|)
    requires SameVals(f, g) && g.disk == f.disk && g.num == f.num && g.ip == f.ip.(size := off + |src|)
    requires SameVals(g, h) && SameData(g, h, NOSLOT) && h.ip == g.ip
    ensures SameOthers(f0, h) && Dense(h, h.num) && Contents(h, h.num) == Spliced(Contents(f0, f0.num), off, src)
  {
    assert Peek(0);
    DropOthers(g, h, h);
    assert SameOthers(f, g);
    SameOthersTrans(f0, f, g);
    SameOthersTrans(f0, g, h);
    GrewBytes(f0, f, g, h, off, src);
  }

  lemma GrewBytes(f0: Fs, f: Fs, g: Fs, h: Fs, off: nat, src: seq<byte>)
    requires f0.Ok() && f.Ok() && g.Ok() && h.Ok() && Dense(f0, f0.num)
             && off <= f0.ip.size < off + |src| <= MAXFILE * BSIZE
    requires Wrote(f0, f, off, src, |src|)
    requires SameVals(f, g) && g.disk == f.disk && g.num == f.num && g.ip == f.ip.(size := off + |src|)
    requires SameVals(g, h) && SameData(g, h, NOSLOT) && h.ip == g.ip
    ensures Dense(h, h.num) && Contents(h, h.num) == Spliced(Contents(f0, f0.num), off, src)
  {
    WrittenBytes(f0, f, off, src, off + |src|);
    forall bn | 0 <= bn && bn * BSIZE < h.ip.size
      ensures Mapped(h, h.num, bn)
    {
      BlockSame(f, g, h, bn);
    }
    forall k | 0 <= k < h.ip.size
      ensures ByteAt(h, h.num, k) == ByteAt(f, f.num, k)
    {
      BlockSame(f, g, h, k / BSIZE);
    }
  }

  /** A mapped block is still there after the size and the inode sector were written. */
  lemma BlockSame(f: Fs, g: Fs, h: Fs, bn: nat)
    requires f.Ok() && g.Ok() && h.Ok() && Mapped(f, f.num, bn)
    requires SameVals(f, g) && g.disk == f.disk && g.num == f.num && SameVals(g, h) && SameData(g, h, NOSLOT)
    ensures var a := Val(f, SlotOf(f.num, bn));
            h.num == f.num && Val(h, SlotOf(f.num, bn)) == a
            && (a < |f.disk| ==> |h.disk| == |f.disk| && h.disk[a] == f.disk[a])
  {
    assert IsSlot(f, SlotOf(f.num, bn));
  }

  /** After the loop every block below the new size is mapped and every byte is the old or the new one. */
  lemma WrittenBytes(f0: Fs, f: Fs, off: nat, src: seq<byte>, size: nat)
    requires f0.Ok() && f.Ok() && Dense(f0, f0.num) && off <= f0.ip.size && f0.ip.size <= size <= MAXFILE * BSIZE
    requires off + |src| <= size && (size == f0.ip.size || size == off + |src|)
    requires Wrote(f0, f, off, src, |src|)
    ensures forall bn :: 0 <= bn && bn * BSIZE < size ==> Mapped(f, f.num, bn)
    ensures |Spliced(Contents(f0, f0.num), off, src)| == size
    ensures forall k :: 0 <= k < size ==> ByteAt(f, f.num, k) == Spliced(Contents(f0, f0.num), off, src)[k]
  {
    assert Peek(0);
    forall bn | 0 <= bn && bn * BSIZE < size
      ensures Mapped(f, f.num, bn)
    {
      if bn * BSIZE < f0.ip.size { assert Mapped(f0, f0.num, bn); }
    }
    forall k | 0 <= k < size
      ensures ByteAt(f, f.num, k) == Spliced(Contents(f0, f0.num), off, src)[k]
    {
      if !(off <= k < off + |src|) { assert Mapped(f0, f0.num, k / BSIZE); }
    }
  }

  /** c is what the locked inode holds. */
  ghost predicate Holds(f: Fs, c: seq<byte>)
    requires f.Ok()
  {
    f.ip.size == |c| <= MAXFILE * BSIZE && forall k {:trigger Peek(k)} :: Peek(k) ==> c == Contents(f, f.num)
  }

  /** The bytes of one round of readi's loop. */
  lemma PieceIs(f: Fs, at: nat, l: nat, c: seq<byte>, piece: seq<byte>)
    requires f.Ok() && Holds(f, c) && at + l <= |c| && 0 < l <= BSIZE - at % BSIZE
    requires var a := Val(f, SlotOf(f.num, at / BSIZE)); a < |f.disk| && piece == f.disk[a][at % BSIZE..at % BSIZE + l]
    ensures piece == c[at..at + l]
  {
    assert Peek(0);
    forall k | 0 <= k < l
      ensures piece[k] == c[at + k]
    {
      ChunkAt(at, at + k);
    }
  }

  /** The ledger without the block of one slot. */
  ghost function Keep(owner: map<nat, Slot>, sl: Slot): map<nat, Slot> {
    map a | a in owner && owner[a] != sl :: owner[a]
  }

  lemma NobodyAt(f: Fs, w: Ledger, sl: Slot)
    requires f.Ok() && Owned(f, w) && IsSlot(f, sl) && Val(f, sl) == 0
    ensures Keep(w.owner, sl) == w.owner
  {
    assert Look(0);
  }

  lemma KeepOne(f: Fs, w: Ledger, sl: Slot)
    requires f.Ok() && Owned(f, w) && IsSlot(f, sl) && Val(f, sl) != 0
    ensures w.owner - {Val(f, sl)} == Keep(w.owner, sl)
  {
    assert Look(0);
  }

  lemma BitmapKeeps(f: Fs, w: Ledger, a: nat)
    requires f.Ok() && Owned(f, w) && a in w.owner && InData(f, a)
    ensures var g := f.(disk := f.disk[f.sb.BBlock(a) := PutBit(f.disk[f.sb.BBlock(a)], a, false)]);
            g.Ok() && (SameVals(f, g) ==> SameData(f, g, NOSLOT))
  {
    var g := f.(disk := f.disk[f.sb.BBlock(a) := PutBit(f.disk[f.sb.BBlock(a)], a, false)]);
    forall i | 0 <= i < f.sb.ninodes
      ensures Node(g, i) == Node(f, i)
    {
      LayoutApart(f.sb, i, a);
    }
    forall sl | IsSlot(f, sl) && Val(f, sl) != 0
      ensures Val(f, sl) < |f.disk| && g.disk[Val(f, sl)] == f.disk[Val(f, sl)]
    {
      OwnerOf(f, w, sl);
      assert f.sb.BBlock(a) < f.sb.DataStart();
    }
  }

  lemma DropOthers(f: Fs, g: Fs, h: Fs)
    requires f.Ok() && g.Ok() && h.Ok() && SameVals(f, g) && SameData(f, g, NOSLOT)
    requires h.disk == g.disk && h.sb == g.sb && h.num == g.num
    ensures SameOthers(f, h)
  {
  }

  /** The ledger without slots 0..i-1 of one inode. */
  ghost function Below(owner: map<nat, Slot>, num: nat, i: nat): map<nat, Slot> {
    map a | a in owner && !(owner[a].inum == num && owner[a].n < i) :: owner[a]
  }

  /** The ledger without slots i and up of one inode. */
  ghost function Above(owner: map<nat, Slot>, num: nat, i: nat): map<nat, Slot> {
    map a | a in owner && !(owner[a].inum == num && owner[a].n >= i) :: owner[a]
  }

  lemma BelowAbove(owner: map<nat, Slot>, num: nat)
    ensures Above(Below(owner, num, NDIRECT), num, INDIRECT) == Above(owner, num, 0)
  {
  }

  /** The half-freed blocks are those of entries before slot n. */
  ghost predicate GoneAre(w: Ledger, num: nat, n: nat) {
    forall a :: a in w.gone <==> a in w.owner && w.owner[a].inum == num && INDIRECT < w.owner[a].n < n
  }

  lemma GoneOneMore(f: Fs, v: Ledger, w: Ledger, sl: Slot, a: nat)
    requires f.Ok() && Owned(f, v) && IsSlot(f, sl) && sl.n > INDIRECT && Val(f, sl) == a && GoneAre(v, sl.inum, sl.n)
    requires if a == 0 then w == v else w == v.(gone := v.gone + {a})
    ensures GoneAre(w, sl.inum, sl.n + 1)
  {
    forall b | b in v.owner && v.owner[b] == sl
      ensures b == a && a != 0
    {
      assert Look(0);
    }
    if a != 0 { OwnerOf(f, v, sl); }
  }

  /** After the loop and the freeing of the indirect block, everything under the indirect address is half freed. */
  lemma EntriesGone(f: Fs, g: Fs, w: Ledger, p: nat)
    requires f.Ok() && g.Ok() && Owned(g, w) && g.num == f.num && g.sb == f.sb && p in w.owner
             && w.owner[p] == Slot(f.num, INDIRECT)
    requires p in w.gone && GoneAre(w.(gone := w.gone - {p}), f.num, SLOTS)
    ensures forall a :: a in w.gone <==> a in w.owner && UnderPointer(g, w.owner[a])
    ensures w.owner - w.gone == Above(w.owner, f.num, INDIRECT)
  {
    forall a | a in w.owner
      ensures IsSlot(g, w.owner[a]) && (w.owner[a] == Slot(f.num, INDIRECT) ==> a == p)
    {
      SlotOfOwner(g, w, a, p);
    }
  }

  lemma SlotOfOwner(g: Fs, w: Ledger, a: nat, p: nat)
    requires g.Ok() && Owned(g, w) && a in w.owner && p in w.owner
    ensures IsSlot(g, w.owner[a]) && (w.owner[a] == w.owner[p] ==> a == p)
  {
    assert Look(0);
    assert Val(g, w.owner[a]) == a && Val(g, w.owner[p]) == p;
  }

  /** itrunc's last assignment to the address array. */
  lemma PointerReset(f: Fs, g: Fs, w: Ledger, p: nat)
    requires f.Ok() && g.Ok() && Owned(g, w) && g.num == f.num && p in w.owner && w.owner[p] == Slot(f.num, INDIRECT)
    requires SameVals(f, g) && SameData(f, g, NOSLOT)
    requires p in w.gone && GoneAre(w.(gone := w.gone - {p}), f.num, SLOTS)
    ensures w.owner - w.gone == Above(w.owner, f.num, INDIRECT)
    ensures var h := g.(ip := g.ip.(addrs := g.ip.addrs[INDIRECT := 0]));
            h.Ok() && Owned(h, Ledger(w.owner - w.gone, w.loose, {})) && SameOthers(f, h)
  {
    EntriesGone(f, g, w, p);
    DroppedPointer(g, w);
    DropOthers(f, g, g.(ip := g.ip.(addrs := g.ip.addrs[INDIRECT := 0])));
  }

  lemma NothingUnder(f: Fs, w: Ledger)
    requires f.Ok() && Owned(f, w) && f.ip.addrs[INDIRECT] == 0
    ensures Above(w.owner, f.num, INDIRECT) == w.owner
  {
    assert Look(0);
    forall a | a in w.owner && w.owner[a].inum == f.num
      ensures w.owner[a].n < INDIRECT
    {
      assert Val(f, w.owner[a]) == a;
    }
  }

  /** Two writes in a row are one longer write. */
  lemma SplicedTwice(c: seq<byte>, off: nat, src: seq<byte>, i: nat, k: nat, piece: seq<byte>, at: nat)
    requires off <= |c| && i <= k <= |src| && piece == src[i..k] && at == off + i
    ensures at <= |Spliced(c, off, src[..i])|
    ensures Spliced(Spliced(c, off, src[..i]), at, piece) == Spliced(c, off, src[..k])
  {
    var d := Spliced(c, off, src[..i]);
    assert src[..i] + piece == src[..k];
    assert d[..at] == c[..off] + src[..i];
    if off + k < |d| {
      assert |d| == |c| && d[off + k..] == c[off + k..];
    }
  }

  lemma DenseAt(f: Fs, i: nat, k: nat)
    requires f.Ok() && i < f.sb.ninodes && Dense(f, i) && k < Node(f, i).size
    ensures Mapped(f, i, k / BSIZE)
  {
    assert Peek(0);
    assert k / BSIZE * BSIZE <= k;
  }

  lemma StillMapped(f0: Fs, f: Fs, off: nat, src: seq<byte>, tot: nat, k: nat)
    requires f0.Ok() && f.Ok() && tot <= |src| && Dense(f0, f0.num) && Wrote(f0, f, off, src, tot) && k < f0.ip.size
    ensures Mapped(f, f0.num, k / BSIZE)
  {
    assert Peek(0);
    DenseAt(f0, f0.num, k);
  }

  /** Where writei's loop is after tot bytes. */
  ghost predicate LoopAt(f0: Fs, f: Fs, w0: Ledger, l0: set<nat>, w: Ledger, l: set<nat>, off: nat, src: seq<byte>,
                         tot: nat) {
    forall k {:trigger Glance(k)} :: Glance(k) ==>
      && f0.Ok() && f.Ok() && tot <= |src| && Wrote(f0, f, off, src, tot) && f.ip.h0 == f0.ip.h0 && f.ip.h1 == f0.ip.h1
      && Grew(w0, l0, w, l) && (off + tot <= f0.ip.size ==> f.ip == f0.ip && GetInode(f.sb, f.disk, f.num) == f.ip)
      && (tot == |src| || tot == 0 || (off + tot) % BSIZE == 0) && off / BSIZE + Spans(off, tot) <= MAXFILE
      && (f.sb.size <= BPB ==> LoggedSoFar(f, l0, l, off, tot))
      && Took(f0.sb.DataStart(), w0, w, TouchedBy(f0.num, off, tot))
  }

  lemma LoopMeans(f0: Fs, f: Fs, w0: Ledger, l0: set<nat>, w: Ledger, l: set<nat>, off: nat, src: seq<byte>, tot: nat)
    requires LoopAt(f0, f, w0, l0, w, l, off, src, tot)
    ensures f0.Ok() && f.Ok() && tot <= |src| && Wrote(f0, f, off, src, tot) && f.ip.h0 == f0.ip.h0
            && f.ip.h1 == f0.ip.h1
    ensures Grew(w0, l0, w, l) && (off + tot <= f0.ip.size ==> f.ip == f0.ip && GetInode(f.sb, f.disk, f.num) == f.ip)
    ensures (tot == |src| || tot == 0 || (off + tot) % BSIZE == 0) && off / BSIZE + Spans(off, tot) <= MAXFILE
    ensures f.sb.size <= BPB ==> LoggedSoFar(f, l0, l, off, tot)
    ensures Took(f0.sb.DataStart(), w0, w, TouchedBy(f0.num, off, tot))
  {
    assert Glance(0);
  }

  lemma LoopStart(f: Fs, w: Ledger, l: set<nat>, off: nat, src: seq<byte>)
    requires f.Ok() && Dense(f, f.num) && off <= f.ip.size && off + |src| <= MAXFILE * BSIZE
             && GetInode(f.sb, f.disk, f.num) == f.ip
    ensures LoopAt(f, f, w, l, w, l, off, src, 0)
  {
    WroteNothing(f, off, src);
    TookNone(f.sb.DataStart(), w);
    assert TouchedBy(f.num, off, 0) == {};
  }

  /** The disk ran full in a round of the loop. */
  lemma ShortRound(g: Fs, f0: Fs, f: Fs, w0: Ledger, l0: set<nat>, w1: Ledger, l1: set<nat>, w: Ledger, off: nat,
                   src: seq<byte>, tot: nat, tot': nat)
    requires LoopAt(f0, f, w0, l0, w1, l1, off, src, tot) && tot < tot' <= |src| && g.sb == f.sb && g.num == f0.num
    requires off / BSIZE + Spans(off, tot) == (off + tot) / BSIZE && Spans(off, tot') == Spans(off, tot) + 1
    requires Short(g, w1, w, Touched(f0.num, (off + tot) / BSIZE, (off + tot) / BSIZE + 1))
    ensures Short(g, w0, w, TouchedBy(f0.num, off, |src|))
  {
    LoopMeans(f0, f, w0, l0, w1, l1, off, src, tot);
    var bn := (off + tot) / BSIZE;
    TouchedPart(f0.num, off, 0, tot, |src|);
    TouchedIn(f0.num, bn, bn + 1, off / BSIZE, off / BSIZE + Spans(off, |src|));
    ShortLater(g, g.sb.DataStart(), w0, w1, w, TouchedBy(f0.num, off, tot), Touched(f0.num, bn, bn + 1),
        TouchedBy(f0.num, off, |src|));
  }

  /** A round took f to g. */
  ghost predicate Round(f0: Fs, f: Fs, w: Ledger, l: set<nat>, l0: set<nat>, g: Fs, v: Ledger, k: set<nat>, off: nat,
                        src: seq<byte>, tot: nat, tot': nat) {
    forall x {:trigger Spot(x)} :: Spot(x) ==>
      && g.Ok() && f0.Ok() && tot' <= |src| && Wrote(f0, g, off, src, tot') && g.ip.h0 == f.ip.h0 && g.ip.h1 == f.ip.h1
      && Grew(w, l, v, k)
      && (off + tot' <= f0.ip.size ==> g.ip == f0.ip && GetInode(g.sb, g.disk, g.num) == g.ip)
      && off / BSIZE + Spans(off, tot') <= MAXFILE && (g.sb.size <= BPB ==> LoggedSoFar(g, l0, k, off, tot'))
      && Took(f0.sb.DataStart(), w, v, Touched(f0.num, (off + tot) / BSIZE, (off + tot) / BSIZE + 1))
  }

  lemma RoundIs(f0: Fs, f: Fs, w: Ledger, l: set<nat>, l0: set<nat>, g: Fs, v: Ledger, k: set<nat>, off: nat,
                src: seq<byte>, tot: nat, m: nat, tot': nat)
    requires f.Ok() && g.Ok() && f0.Ok() && 0 < m && tot' == tot + m <= |src| && m <= BSIZE - (off + tot) % BSIZE
    requires Wrote(f0, f, off, src, tot) && WroteChunk(f, g, off + tot, src[tot..tot + m])
    requires g.ip.h0 == f.ip.h0 && g.ip.h1 == f.ip.h1 && Grew(w, l, v, k)
    requires off + tot' <= f0.ip.size ==> g.ip == f0.ip && GetInode(g.sb, g.disk, g.num) == g.ip
    requires Spans(off, tot') == Spans(off, tot) + 1 && off / BSIZE + Spans(off, tot) == (off + tot) / BSIZE < MAXFILE
    requires g.sb.size <= BPB ==> LoggedSoFar(f, l0, l, off, tot)
    requires g.sb.size <= BPB ==> k <= l + {g.sb.BBlock(0), Val(g, SlotOf(g.num, (off + tot) / BSIZE))} + PointerSet(g)
    requires Took(g.sb.DataStart(), w, v, Touched(g.num, (off + tot) / BSIZE, (off + tot) / BSIZE + 1))
    ensures Round(f0, f, w, l, l0, g, v, k, off, src, tot, tot')
  {
    WroteMore(f0, f, g, off, src, tot, m);
    if g.sb.size <= BPB { LoggedMore(f, g, l0, l, k, off, tot, m); }
  }

  lemma LoopMore(f0: Fs, f: Fs, w0: Ledger, l0: set<nat>, w: Ledger, l: set<nat>, g: Fs, v: Ledger, k: set<nat>,
                 off: nat, src: seq<byte>, tot: nat, tot': nat)
    requires LoopAt(f0, f, w0, l0, w, l, off, src, tot) && tot < tot' <= |src|
             && Round(f0, f, w, l, l0, g, v, k, off, src, tot, tot')
    requires (tot' == |src| || (off + tot') % BSIZE == 0) && off / BSIZE + Spans(off, tot') <= MAXFILE
    requires off / BSIZE + Spans(off, tot) == (off + tot) / BSIZE && Spans(off, tot') == Spans(off, tot) + 1
    ensures LoopAt(f0, g, w0, l0, v, k, off, src, tot')
  {
    LoopMeans(f0, f, w0, l0, w, l, off, src, tot);
    assert Spot(0);
    TookBlock(f0.sb.DataStart(), w0, w, v, f0.num, off, tot, tot');
  }

  lemma WroteNothing(f: Fs, off: nat, src: seq<byte>)
    requires f.Ok() && Dense(f, f.num) && off <= f.ip.size
    ensures Wrote(f, f, off, src, 0)
  {
    SameOthersSelf(f);
    forall bn | 0 <= bn < MAXFILE && off / BSIZE <= bn && bn * BSIZE < off
      ensures Mapped(f, f.num, bn)
    {
      assert Peek(0);
    }
  }
}
