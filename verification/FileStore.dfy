/**
 The file system as a whole: inodes come and go, are locked one after another, and
 are written and truncated (source/fs.c).  What all inodes together hold is a map from
 inode numbers to files, and every run of operations acts on it as on a plain map.
 */
module FileStore {
  import opened Wrappers
  import opened Blocks
  import opened Folding
  import opened FsLayout
  import opened Ownership
  import opened Files

  /** An inode that is not in use has no size and no blocks. */
  predicate FreeClean(n: Inode) {
    n.Ok() && (Type(n) == 0 ==> n.size == 0 && forall k :: 0 <= k <= NDIRECT ==> n.addrs[k] == 0)
  }

  ghost predicate InodeSound(f: Fs, i: nat)
    requires f.Ok() && i < f.sb.ninodes
  {
    Dense(f, i) && FreeClean(Node(f, i))
  }

  /** Every inode's blocks are there as far as its size counts. */
  ghost predicate AllSound(f: Fs)
    requires f.Ok()
  {
    forall i :: 0 <= i < f.sb.ninodes ==> InodeSound(f, i)
  }

  /** Between operations: ownership, the locked inode as on disk, and all inodes dense. */
  ghost predicate Sound(fs: FileSys)
    reads fs
  {
    fs.Valid() && fs.InSync() && AllSound(fs.View())
  }

  datatype File = File(ty: nat, bytes: seq<byte>)

  /** What the inodes in use hold. */
  ghost function Stored(f: Fs): map<nat, File>
    requires f.Ok() && AllSound(f)
  {
    map i: nat | i < f.sb.ninodes && Type(Node(f, i)) != 0 :: FileOf(f, i)
  }

  ghost function FileOf(f: Fs, i: nat): File
    requires f.Ok() && i < f.sb.ninodes && InodeSound(f, i)
  {
    File(Type(Node(f, i)), Contents(f, i))
  }

  // ---------------------------------------------------------------- locking

  /** The same disk with another inode locked. */
  function Relocked(f: Fs, j: nat): Fs
    requires f.Ok() && j < f.sb.ninodes
  {
    f.(num := j, ip := GetInode(f.sb, f.disk, j))
  }

  /** As long as memory and disk agree it does not matter which inode is locked. */
  lemma RelockKeeps(f: Fs, w: Ledger, j: nat)
    requires f.Ok() && j < f.sb.ninodes && GetInode(f.sb, f.disk, f.num) == f.ip && Owned(f, w)
    ensures var g := Relocked(f, j);
              g.Ok() && SameVals(f, g) && Owned(g, w) && forall i :: 0 <= i < f.sb.ninodes ==> Node(g, i) == Node(f, i)
  {
    KeepOwned(f, Relocked(f, j), w);
  }

  lemma RelockInode(f: Fs, j: nat, i: nat)
    requires f.Ok() && j < f.sb.ninodes && i < f.sb.ninodes && GetInode(f.sb, f.disk, f.num) == f.ip && InodeSound(f, i)
    ensures var g := Relocked(f, j); g.Ok() && InodeSound(g, i) && FileOf(g, i) == FileOf(f, i)
  {
    var g := Relocked(f, j);
    SameInode(f, g, i);
  }

  /** An inode with the same node, addresses and data is the same file. */
  lemma SameInode(f: Fs, g: Fs, i: nat)
    requires f.Ok() && g.Ok() && g.sb == f.sb && |g.disk| == |f.disk| && i < f.sb.ninodes && Node(g, i) == Node(f, i)
             && InodeSound(f, i)
    requires forall n :: 0 <= n < MAXFILE && Val(f, SlotOf(i, n)) != 0 ==>
             var a := Val(f, SlotOf(i, n)); Val(g, SlotOf(i, n)) == a && (a < |f.disk| ==> g.disk[a] == f.disk[a])
    ensures InodeSound(g, i) && Contents(g, i) == Contents(f, i)
  {
    assert Peek(0);
    forall bn | 0 <= bn && bn * BSIZE < Node(f, i).size
      ensures Mapped(g, i, bn)
    {
      assert Mapped(f, i, bn);
    }
    forall k | 0 <= k < Node(f, i).size
      ensures ByteAt(g, i, k) == ByteAt(f, i, k)
    {
      assert Mapped(f, i, k / BSIZE);
    }
  }

  lemma RelockAll(f: Fs, j: nat)
    requires f.Ok() && j < f.sb.ninodes && GetInode(f.sb, f.disk, f.num) == f.ip && AllSound(f)
    ensures var g := Relocked(f, j); g.Ok() && AllSound(g) && Stored(g) == Stored(f)
  {
    var g := Relocked(f, j);
    forall i | 0 <= i < f.sb.ninodes
      ensures InodeSound(g, i) && FileOf(g, i) == FileOf(f, i) && Node(g, i) == Node(f, i)
    {
      assert InodeSound(f, i);
      RelockInode(f, j, i);
    }
  }

  /** ilock of another inode; ok is false where it panics because the inode has no type. */
  method Ilock(fs: FileSys, j: nat) returns (ok: bool)
    requires Sound(fs) && j < fs.sb.ninodes
    modifies fs`num, fs`ip
    ensures Sound(fs) && fs.View() == Relocked(old(fs.View()), j) && Stored(fs.View()) == old(Stored(fs.View()))
    ensures ok <==> j in Stored(fs.View())
  {
    RelockKeeps(fs.View(), fs.w, j);
    RelockAll(fs.View(), j);
    fs.num, fs.ip := j, GetInode(fs.sb, fs.disk, j);
    ok := Type(fs.ip) != 0;
  }

  /** begin_trans: calls of log_write are recorded from here on. */
  method Begin(fs: FileSys, ghost f: Fs)
    requires Sound(fs) && f == fs.View()
    modifies fs`logged, fs`calls, fs`base
    ensures Sound(fs) && fs.View() == f && fs.logged == {} && fs.calls == [] && fs.base == f.disk
  {
    fs.Begin();
  }

  // ---------------------------------------------------------------- operations on the locked inode

  lemma OtherInode(f: Fs, g: Fs, i: nat)
    requires f.Ok() && g.Ok() && SameOthers(f, g) && i < f.sb.ninodes && i != f.num && InodeSound(f, i)
    ensures InodeSound(g, i) && Node(g, i) == Node(f, i) && FileOf(g, i) == FileOf(f, i)
  {
    OthersKept(f, g, i);
    assert Peek(0);
  }

  /** With all other inodes as before, one entry of the map changes. */
  lemma OneFile(f: Fs, g: Fs)
    requires f.Ok() && g.Ok() && AllSound(f) && SameOthers(f, g) && InodeSound(g, g.num)
    ensures AllSound(g)
    ensures Stored(g) == if Type(g.ip) != 0 then Stored(f)[f.num := FileOf(g, f.num)] else Stored(f) - {f.num}
  {
    forall i | 0 <= i < f.sb.ninodes
      ensures InodeSound(g, i)
    {
      if i != f.num {
        assert InodeSound(f, i);
        OtherInode(f, g, i);
      }
    }
    var m := if Type(g.ip) != 0 then Stored(f)[f.num := FileOf(g, f.num)] else Stored(f) - {f.num};
    forall i: nat
      ensures IsEntry(g, i, m)
    {
      if i < f.sb.ninodes && i != f.num {
        assert InodeSound(f, i);
        OtherInode(f, g, i);
      }
    }
    StoredIs(g, m);
  }

  /** Entry i of m is what inode i holds, and there is one exactly if the inode is in use. */
  ghost predicate IsEntry(f: Fs, i: nat, m: map<nat, File>)
    requires f.Ok() && AllSound(f)
  {
    && (i in m <==> i < f.sb.ninodes && Type(Node(f, i)) != 0)
    && (i in m ==> InodeSound(f, i) && m[i] == FileOf(f, i))
  }

  lemma StoredIs(f: Fs, m: map<nat, File>)
    requires f.Ok() && AllSound(f) && forall i: nat :: IsEntry(f, i, m)
    ensures Stored(f) == m
  {
    forall i: nat
      ensures i in Stored(f) <==> i in m
      ensures i in m ==> Stored(f)[i] == m[i]
    {
      assert IsEntry(f, i, m);
    }
  }

  /** What writei makes of the map. */
  function Written(m: map<nat, File>, i: nat, off: nat, src: seq<byte>): map<nat, File>
    requires i in m
  {
    var f := m[i];
    if off > |f.bytes| || off + |src| > MAXFILE * BSIZE then m else m[i := f.(bytes := Spliced(f.bytes, off, src))]
  }

  lemma WriteSeen(f: Fs, g: Fs, off: nat, src: seq<byte>)
    requires f.Ok() && g.Ok() && AllSound(f) && SameOthers(f, g) && f.num in Stored(f) && Type(g.ip) == Type(f.ip)
    requires off <= f.ip.size && off + |src| <= MAXFILE * BSIZE && f.ip.size <= MAXFILE * BSIZE && Dense(g, g.num)
    requires Contents(g, g.num) == Spliced(Contents(f, f.num), off, src)
    ensures AllSound(g) && Stored(g) == Written(Stored(f), f.num, off, src)
  {
    OneFile(f, g);
  }

  /** Blocks come out short for a write to inode i. */
  ghost predicate Lacks(f: Fs, i: nat, off: nat, n: nat)
    requires f.Ok() && AllSound(f)
  {
    && i in Stored(f) && off <= |Stored(f)[i].bytes| && off + n <= MAXFILE * BSIZE
    && !Enough(f, TouchedBy(i, off, n))
  }

  lemma RelockLacks(f: Fs, w: Ledger, j: nat, i: nat, off: nat, n: nat)
    requires f.Ok() && j < f.sb.ninodes && GetInode(f.sb, f.disk, f.num) == f.ip && AllSound(f) && Owned(f, w)
    ensures var g := Relocked(f, j);
              g.Ok() && AllSound(g) && (Lacks(g, i, off, n) <==> Lacks(f, i, off, n))
  {
    var g := Relocked(f, j);
    RelockKeeps(f, w, j);
    RelockAll(f, j);
    assert Vacant(g, TouchedBy(i, off, n)) == Vacant(f, TouchedBy(i, off, n)) && FreeBlocks(g) == FreeBlocks(f);
  }

  /** writei on the locked inode, as an update of the map; ok is false where balloc panics. */
  method WriteLocked(fs: FileSys, off: word, src: seq<byte>) returns (ok: bool)
    requires Sound(fs) && fs.num in Stored(fs.View()) && |src| < 0x1_0000_0000
    modifies fs`disk, fs`ip, fs`w, fs`logged, fs`calls
    ensures ok ==> Sound(fs) && Stored(fs.View()) == Written(old(Stored(fs.View())), fs.num, off, src)
    ensures ok <==> !Lacks(old(fs.View()), fs.num, off, |src|)
    ensures !ok ==> fs.Full()
  {
    ghost var f := fs.View();
    assert InodeSound(f, f.num);
    var r;
    ok, r := fs.Writei(src, off);
    if ok && r != -1 {
      WriteSeen(f, fs.View(), off, src);
    }
  }

  /** itrunc on the locked inode. */
  method TruncateLocked(fs: FileSys) returns (ok: bool)
    requires Sound(fs) && fs.num in Stored(fs.View())
    modifies fs`disk, fs`ip, fs`w, fs`logged, fs`calls
    ensures ok && Sound(fs) && Stored(fs.View()) == old(Stored(fs.View()))[fs.num := File(Type(fs.ip), [])]
    ensures fs.sb.size <= BPB ==>
                Into(old(fs.logged), fs.logged, {fs.sb.BBlock(0), fs.sb.IBlock(fs.num)} + PointerSet(old(fs.View())))
    ensures fs.w.owner.Keys <= old(fs.w.owner.Keys)
    ensures fs.ip.h0 == old(fs.ip.h0) && fs.ip.size == 0 && forall n :: 0 <= n <= NDIRECT ==> fs.ip.addrs[n] == 0
  {
    ghost var f := fs.View();
    assert InodeSound(f, f.num);
    ok := fs.Itrunc();
    EmptyDense(fs.View());
    OneFile(f, fs.View());
  }

  lemma EmptyDense(f: Fs)
    requires f.Ok() && f.ip.size == 0
    ensures Dense(f, f.num) && Contents(f, f.num) == []
  {
  }

  /** The end of iput for an inode without links: its blocks go, then its type. */
  method RemoveLocked(fs: FileSys) returns (ok: bool)
    requires Sound(fs) && fs.num in Stored(fs.View())
    modifies fs`disk, fs`ip, fs`w, fs`logged, fs`calls
    ensures ok && Sound(fs) && Stored(fs.View()) == old(Stored(fs.View())) - {fs.num}
    ensures fs.sb.size <= BPB ==>
                Into(old(fs.logged), fs.logged, {fs.sb.BBlock(0), fs.sb.IBlock(fs.num)} + PointerSet(old(fs.View())))
    ensures fs.w.owner.Keys <= old(fs.w.owner.Keys)
  {
    ghost var m := Stored(fs.View());
    ok := TruncateLocked(fs);
    ghost var x := File(Type(fs.ip), []);
    assert Stored(fs.View()) == m[fs.num := x];
    ghost var l := fs.logged;
    Retype(fs, 0, fs.ip.h1);
    IntoMeans(l, fs.logged, {fs.sb.IBlock(fs.num)});
    if fs.sb.size <= BPB {
      ghost var e := {fs.sb.BBlock(0), fs.sb.IBlock(fs.num)} + PointerSet(old(fs.View()));
      IntoTwice(old(fs.logged), l, fs.logged, e, {fs.sb.IBlock(fs.num)}, e);
    }
    SetAndDrop(m, fs.num, x);
  }

  lemma SetAndDrop(m: map<nat, File>, i: nat, x: File)
    ensures m[i := x] - {i} == m - {i}
  {
  }

  /** A new type in the locked inode, which is empty, and iupdate. */
  method Retype(fs: FileSys, h0: word, h1: word)
    requires Sound(fs) && fs.ip.size == 0 && (forall n :: 0 <= n <= NDIRECT ==> fs.ip.addrs[n] == 0) && h0 < 0x1_0000
    modifies fs`disk, fs`ip, fs`logged, fs`calls
    ensures Sound(fs) && fs.logged == old(fs.logged) + {fs.sb.IBlock(fs.num)}
    ensures Stored(fs.View()) == if h0 != 0 then old(Stored(fs.View()))[fs.num := File(h0,
                [])] else old(Stored(fs.View())) - {fs.num}
  {
    ghost var f := fs.View();
    fs.ip := fs.ip.(h0 := h0, h1 := h1);
    assert Type(fs.ip) == h0;
    ghost var g := fs.View();
    SizeKeeps(f, g, fs.w);
    fs.Iupdate();
    ghost var h := fs.View();
    DropOthers(g, h, h);
    assert SameOthers(f, g);
    SameOthersTrans(f, g, h);
    EmptyDense(h);
    OneFile(f, h);
  }

  /** The lowest inode number from i on that is not in use, or n. */
  function LowestFree(m: map<nat, File>, i: nat, n: nat): (k: nat)
    requires i <= n
    ensures i <= k <= n && (k < n ==> k !in m) && forall j :: i <= j < k ==> j in m
    decreases n - i
  {
    if i < n && i in m then LowestFree(m, i + 1, n) else i
  }

  /** ialloc and ilock of what it found: a new empty file; ok is false where it panics. */
  method Ialloc(fs: FileSys, ty: nat) returns (ok: bool, inum: nat)
    requires Sound(fs) && 0 < ty < 0x8000
    modifies fs`num, fs`disk, fs`ip, fs`logged, fs`calls
    ensures inum == LowestFree(old(Stored(fs.View())), 1, fs.sb.ninodes) && (ok <==> inum < fs.sb.ninodes)
    ensures Sound(fs) && (ok ==> fs.num == inum) && (!ok ==> unchanged(fs))
    ensures ok ==>
                Stored(fs.View()) == old(Stored(fs.View()))[inum := File(ty, [])]
                && fs.logged == old(fs.logged) + {fs.sb.IBlock(inum)}
  {
    inum := FindInode(fs, Stored(fs.View()));
    ok := inum < fs.sb.ninodes;
    if ok { Fresh(fs, inum, ty); }
  }

  /** A free inode is zeroed and gets its type. */
  method Fresh(fs: FileSys, inum: nat, ty: nat)
    requires Sound(fs) && 0 < ty < 0x8000 && inum < fs.sb.ninodes && inum !in Stored(fs.View())
    modifies fs`num, fs`disk, fs`ip, fs`logged, fs`calls
    ensures Sound(fs) && fs.num == inum && Stored(fs.View()) == old(Stored(fs.View()))[inum := File(ty, [])]
    ensures fs.logged == old(fs.logged) + {fs.sb.IBlock(inum)}
  {
    ghost var m := Stored(fs.View());
    var locked := Ilock(fs, inum);
    assert Stored(fs.View()) == m;
    LockedClean(fs.View());
    Retype(fs, ty, 0);
    assert Stored(fs.View()) == m[inum := File(ty, [])];
  }

  lemma LockedClean(f: Fs)
    requires f.Ok() && AllSound(f) && f.num !in Stored(f)
    ensures f.ip.size == 0 && forall n :: 0 <= n <= NDIRECT ==> f.ip.addrs[n] == 0
  {
    assert InodeSound(f, f.num);
  }

  /** ialloc's loop. */
  method FindInode(fs: FileSys, ghost m: map<nat, File>) returns (inum: nat)
    requires Sound(fs) && m == Stored(fs.View())
    ensures inum == LowestFree(m, 1, fs.sb.ninodes)
  {
    inum := 1;
    while inum < fs.sb.ninodes
      invariant 1 <= inum <= fs.sb.ninodes && LowestFree(m, inum, fs.sb.ninodes) == LowestFree(m, 1, fs.sb.ninodes)
    {
      DiskNode(fs, inum);
      if Type(GetInode(fs.sb, fs.disk, inum)) == 0 { break; }
      inum := inum + 1;
    }
  }

  lemma DiskNode(fs: FileSys, i: nat)
    requires Sound(fs) && i < fs.sb.ninodes
    ensures Node(fs.View(), i) == GetInode(fs.sb, fs.disk, i)
    ensures i in Stored(fs.View()) <==> Type(GetInode(fs.sb, fs.disk, i)) != 0
  {
  }

  // ---------------------------------------------------------------- runs

  datatype Op = Create(ty: nat) | Write(i: nat, off: nat, src: seq<byte>) | Truncate(i: nat) | Remove(i: nat)

  predicate OpOk(n: nat, op: Op) {
    match op
    case Create(ty) => 0 < ty < 0x8000
    case Write(i, off, src) => i < n && off < 0x1_0000_0000 && |src| < 0x1_0000_0000
    case Truncate(i) => i < n
    case Remove(i) => i < n
  }

  /** One operation on the map; None where the kernel panics: no inode left, or one that is not in use. */
  function Effect(m: map<nat, File>, n: nat, op: Op): Option<map<nat, File>> {
    match op
    case Create(ty) =>
      if n >= 1 && LowestFree(m, 1, n) < n then Some(m[LowestFree(m, 1, n) := File(ty, [])]) else None
    case Write(i, off, src) => if i in m then Some(Written(m, i, off, src)) else None
    case Truncate(i) => if i in m then Some(m[i := m[i].(bytes := [])]) else None
    case Remove(i) => if i in m then Some(m - {i}) else None
  }

  function Effects(m: map<nat, File>, n: nat, ops: seq<Op>): Option<map<nat, File>> {
    if ops == [] then Some(m)
    else
      var pre := Effects(m, n, ops[..|ops| - 1]);
      if pre.Some? then Effect(pre.value, n, ops[|ops| - 1]) else None
  }

  /** Where the kernel panics: the map has no effect, or there are fewer free blocks than the write needs. */
  ghost predicate Panics(f: Fs, op: Op)
    requires f.Ok() && AllSound(f)
  {
    Effect(Stored(f), f.sb.ninodes, op) == None || (op.Write? && Lacks(f, op.i, op.off, |op.src|))
  }

  /** ilock and writei. */
  method WriteInode(fs: FileSys, i: nat, off: word, src: seq<byte>) returns (ok: bool)
    requires Sound(fs) && i < fs.sb.ninodes && |src| < 0x1_0000_0000
    modifies fs`num, fs`disk, fs`ip, fs`w, fs`logged, fs`calls
    ensures ok ==>
                Sound(fs) && i in old(Stored(fs.View()))
                && Stored(fs.View()) == Written(old(Stored(fs.View())), i, off, src)
    ensures ok <==> i in old(Stored(fs.View())) && !Lacks(old(fs.View()), i, off, |src|)
    ensures !ok ==> fs.Full() || i !in old(Stored(fs.View()))
  {
    RelockLacks(fs.View(), fs.w, i, i, off, |src|);
    ok := Ilock(fs, i);
    if ok { ok := WriteLocked(fs, off, src); }
  }

  method Perform(fs: FileSys, op: Op) returns (ok: bool)
    requires Sound(fs) && OpOk(fs.sb.ninodes, op)
    modifies fs`num, fs`disk, fs`ip, fs`w, fs`logged, fs`calls
    ensures ok ==> Sound(fs) && Effect(old(Stored(fs.View())), fs.sb.ninodes, op) == Some(Stored(fs.View()))
    ensures ok <==> !Panics(old(fs.View()), op)
    ensures !ok ==> fs.Full() || Effect(old(Stored(fs.View())), fs.sb.ninodes, op) == None
  {
    match op {
      case Create(ty) =>
        var inum;
        ok, inum := Ialloc(fs, ty);
      case Write(i, off, src) =>
        ok := WriteInode(fs, i, off, src);
      case Truncate(i) =>
        ok := Ilock(fs, i);
        if ok { ok := TruncateLocked(fs); }
      case Remove(i) =>
        ok := Ilock(fs, i);
        if ok { ok := RemoveLocked(fs); }
    }
  }

  /**
   Any run of operations, from any sound state, keeps every block in use with exactly
   one owner and does to the files what it does to a plain map; it stops early only
   where the kernel panics, in operation `done` from state `at`.
   */
  method Run(fs: FileSys, ops: seq<Op>) returns (ok: bool, ghost done: nat, ghost at: Fs)
    requires Sound(fs) && forall k :: 0 <= k < |ops| ==> OpOk(fs.sb.ninodes, ops[k])
    modifies fs`num, fs`disk, fs`ip, fs`w, fs`logged, fs`calls
    ensures ok ==> Sound(fs) && Effects(old(Stored(fs.View())), fs.sb.ninodes, ops) == Some(Stored(fs.View()))
    ensures !ok ==> fs.Full() || Effects(old(Stored(fs.View())), fs.sb.ninodes, ops) == None
    ensures !ok ==>
            && done < |ops| && at.Ok() && at.sb == fs.sb && AllSound(at) && Panics(at, ops[done])
            && Effects(old(Stored(fs.View())), fs.sb.ninodes, ops[..done]) == Some(Stored(at))
            && (Effect(Stored(at), fs.sb.ninodes, ops[done]) != None ==> fs.Full())
  {
    ok, done, at := true, 0, fs.View();
    ghost var m := Stored(fs.View());
    var k := 0;
    while k < |ops|
      invariant 0 <= k <= |ops| && Sound(fs)
      invariant Effects(old(Stored(fs.View())), fs.sb.ninodes, ops[..k]) == Some(Stored(fs.View()))
    {
      done, at := k, fs.View();
      ok := Perform(fs, ops[k]);
      assert ops[..k + 1][..k] == ops[..k];
      if !ok {
        if Effects(m, fs.sb.ninodes, ops[..k + 1]) == None { NoneStays(m, fs.sb.ninodes, ops, k + 1); }
        return;
      }
      k := k + 1;
    }
    assert ops[..k] == ops;
  }

  lemma {:induction false} NoneStays(m: map<nat, File>, n: nat, ops: seq<Op>, k: nat)
    requires k <= |ops| && Effects(m, n, ops[..k]) == None
    ensures Effects(m, n, ops) == None
  {
    if k < |ops| {
      assert ops[..|ops| - 1][..k] == ops[..k];
      NoneStays(m, n, ops[..|ops| - 1], k);
    } else {
      assert ops[..k] == ops;
    }
  }

  /** Every file system reachable from a blank disk. */
  method FromBlank(sb: Super, image: Disk, ops: seq<Op>) returns (fs: FileSys, ok: bool, ghost done: nat, ghost at: Fs)
    requires Blank(sb, image) && forall k :: 0 <= k < |ops| ==> OpOk(sb.ninodes, ops[k])
    ensures ok ==> Sound(fs) && fs.sb == sb && Effects(map[], sb.ninodes, ops) == Some(Stored(fs.View()))
    ensures !ok ==>
            && done < |ops| && at.Ok() && at.sb == sb && AllSound(at) && Panics(at, ops[done])
            && Effects(map[], sb.ninodes, ops[..done]) == Some(Stored(at))
            && (Effect(Stored(at), sb.ninodes, ops[done]) != None ==> fs.Full())
  {
    fs := new FileSys(sb, image);
    BlankSound(fs.View());
    ok, done, at := Run(fs, ops);
  }

  lemma BlankSound(f: Fs)
    requires f.Ok() && Blank(f.sb, f.disk) && f.ip == GetInode(f.sb, f.disk, f.num)
    ensures AllSound(f) && Stored(f) == map[]
  {
    forall i | 0 <= i < f.sb.ninodes
      ensures InodeSound(f, i) && Type(Node(f, i)) == 0
    {
      assert Node(f, i) == Inode(0, 0, 0, seq(NDIRECT + 1, _ => 0));
    }
  }

  // ---------------------------------------------------------------- the image that mkfs leaves

  /**
   mkfs's root directory on a blank image: the inode, its entries, and then a size rounded
   up to the next block, even where it ends on a block already.
   */
  method MkfsRoot(sb: Super, image: Disk, entries: seq<byte>) returns (fs: FileSys, ok: bool)
    requires Blank(sb, image) && 1 < sb.ninodes && 0 < |entries| < MAXFILE * BSIZE
    ensures ok <==> |TouchedBy(1, 0, |entries|)| <= sb.size - sb.DataStart()
    ensures ok ==> fs.sb == sb && fs.num == 1 && fs.Valid() && fs.InSync() && Type(fs.ip) == T_DIR
    ensures ok ==> fs.ip.size == (|entries| / BSIZE + 1) * BSIZE && (Sound(fs) <==> |entries| % BSIZE != 0)
    ensures ok ==> forall k :: 0 <= k < |entries| ==> ByteAt(fs.View(), 1, k) == entries[k]
  {
    fs := new FileSys(sb, image);
    BlankSound(fs.View());
    var inum, r;
    ok, inum := Ialloc(fs, T_DIR);
    NoneFilled(fs.View(), fs.w, |entries|);
    assert Stored(fs.View())[1] == File(T_DIR, []);
    ghost var w, f := fs.w, fs.View();
    assert InodeSound(f, 1);
    ok, r := fs.Writei(entries, 0);
    if ok {
      EntriesIn(f, fs.View(), entries);
      RoundSize(fs, f, w, entries);
    }
  }

  /** With no block in use, every slot is empty and the whole data area is free. */
  lemma NoneFilled(f: Fs, w: Ledger, n: nat)
    requires f.Ok() && Owned(f, w) && w == Ledger(map[], {}, {}) && n <= MAXFILE * BSIZE
    ensures Vacant(f, TouchedBy(f.num, 0, n)) == TouchedBy(f.num, 0, n) && w.owner.Values == {}
    ensures |FreeBlocks(f)| == f.sb.size - f.sb.DataStart()
  {
    TouchedSlots(f, 0, n);
    SlotsTaken(f, w);
    UsedAndFree(f, w);
  }

  lemma EntriesIn(f: Fs, g: Fs, entries: seq<byte>)
    requires f.Ok() && g.Ok() && f.num == g.num && f.ip.size == 0 && |entries| <= MAXFILE * BSIZE && Dense(g, g.num)
    requires Contents(g, g.num) == Spliced(Contents(f, f.num), 0, entries)
    ensures g.ip.size == |entries| && forall k :: 0 <= k < |entries| ==> ByteAt(g, g.num, k) == entries[k]
  {
    assert Contents(g, g.num) == entries;
  }

  /** din.size = ((off / BSIZE) + 1) * BSIZE, after the entries went into an empty directory. */
  method RoundSize(fs: FileSys, ghost f: Fs, ghost w: Ledger, entries: seq<byte>)
    requires fs.Valid() && f.Ok() && AllSound(f) && SameOthers(f, fs.View()) && fs.InSync()
             && 0 < |entries| < MAXFILE * BSIZE
    requires Type(fs.ip) != 0 && fs.ip.size == |entries| && w.owner.Values == {}
             && Took(fs.sb.DataStart(), w, fs.w, TouchedBy(fs.num, 0, |entries|))
    modifies fs`disk, fs`ip, fs`logged, fs`calls
    ensures fs.Valid() && fs.InSync() && fs.ip == old(fs.ip).(size := (|entries| / BSIZE + 1) * BSIZE)
    ensures Sound(fs) <==> |entries| % BSIZE != 0
    ensures forall k :: 0 <= k < |entries| ==> ByteAt(fs.View(), fs.num, k) == ByteAt(old(fs.View()), fs.num, k)
  {
    ghost var g := fs.View();
    fs.ip := fs.ip.(size := (|entries| / BSIZE + 1) * BSIZE);
    ghost var h := fs.View();
    SizeKeeps(g, h, fs.w);
    fs.Iupdate();
    ghost var u := fs.View();
    DropOthers(h, u, u);
    assert SameOthers(g, h);
    SameOthersTrans(f, g, h);
    SameOthersTrans(f, h, u);
    Rounded(f, u, w, fs.w, |entries|);
    BytesStay(g, h, u, w, fs.w, |entries|);
  }

  lemma BytesStay(g: Fs, h: Fs, u: Fs, w0: Ledger, w: Ledger, n: nat)
    requires g.Ok() && h.Ok() && u.Ok() && h.disk == g.disk && h.sb == g.sb && h.num == g.num && SameVals(g, h)
             && Owned(g, w) && SameVals(h, u) && SameData(h, u, NOSLOT) && n < MAXFILE * BSIZE
    requires w0.owner.Values == {} && Took(g.sb.DataStart(), w0, w, TouchedBy(g.num, 0, n))
    ensures forall k :: 0 <= k < n ==> ByteAt(u, u.num, k) == ByteAt(g, g.num, k)
  {
    forall k | 0 <= k < n
      ensures ByteAt(u, u.num, k) == ByteAt(g, g.num, k)
    {
      MappedTouched(g, w0, w, n, k / BSIZE);
      assert IsSlot(g, SlotOf(g.num, k / BSIZE));
    }
  }

  lemma Rounded(f: Fs, u: Fs, w0: Ledger, w: Ledger, n: nat)
    requires f.Ok() && u.Ok() && AllSound(f) && SameOthers(f, u) && Owned(u, w) && 0 < n < MAXFILE * BSIZE
    requires w0.owner.Values == {} && Took(u.sb.DataStart(), w0, w, TouchedBy(u.num, 0, n))
             && u.ip.size == (n / BSIZE + 1) * BSIZE
    requires Type(u.ip) != 0
    ensures AllSound(u) <==> n % BSIZE != 0
  {
    forall i | 0 <= i < u.sb.ninodes && i != u.num
      ensures InodeSound(u, i)
    {
      assert InodeSound(f, i);
      OtherInode(f, u, i);
    }
    assert AllSound(u) <==> InodeSound(u, u.num);
    RoundedDense(u, w0, w, n);
  }

  lemma RoundedDense(u: Fs, w0: Ledger, w: Ledger, n: nat)
    requires u.Ok() && Owned(u, w) && 0 < n < MAXFILE * BSIZE && u.ip.size == (n / BSIZE + 1) * BSIZE
    requires w0.owner.Values == {} && Took(u.sb.DataStart(), w0, w, TouchedBy(u.num, 0, n))
    ensures Dense(u, u.num) <==> n % BSIZE != 0
  {
    var last := n / BSIZE;
    MappedTouched(u, w0, w, n, last);
    if n % BSIZE == 0 {
      assert last * BSIZE == n && last * BSIZE < u.ip.size && !Mapped(u, u.num, last);
      assert Peek(0);
    } else {
      forall bn | 0 <= bn && bn * BSIZE < u.ip.size
        ensures Mapped(u, u.num, bn)
      {
        assert bn <= last && bn * BSIZE < n;
        MappedTouched(u, w0, w, n, bn);
      }
    }
  }

  /** Exactly the blocks that the entries reach were allocated. */
  lemma MappedTouched(u: Fs, w0: Ledger, w: Ledger, n: nat, bn: nat)
    requires u.Ok() && Owned(u, w) && 0 < n && bn < MAXFILE
    requires w0.owner.Values == {} && Took(u.sb.DataStart(), w0, w, TouchedBy(u.num, 0, n))
    ensures Mapped(u, u.num, bn) <==> bn * BSIZE < n
  {
    assert w.owner.Values == TouchedBy(u.num, 0, n) by { assert Spot(0); }
    var sl := SlotOf(u.num, bn);
    assert Mapped(u, u.num, bn) <==> sl in w.owner.Values by {
      assert Look(0);
      if sl in w.owner.Values {
        var a :| a in w.owner && w.owner[a] == sl;
      }
    }
    assert sl in TouchedBy(u.num, 0, n) <==> bn < Spans(0, n);
  }
}
