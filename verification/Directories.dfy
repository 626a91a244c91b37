/**
 Directories and paths (source/fs.c): a directory's bytes as a map from names to
 inode numbers, the split of a path into names, and the walk along them with its
 reference counts.  A C string is a sequence of bytes followed by zeros.
 */
module Directories {
  import opened Wrappers
  import opened Blocks
  import opened Folding
  import opened FsLayout
  import opened Ownership
  import opened Files

  const DIRSIZ: nat := 14
  const DIRENT: nat := 16

  // ---------------------------------------------------------------- names

  function At(s: seq<byte>, i: nat): byte { if i < |s| then s[i] else 0 }

  /** Length of a C string that counts no more than DIRSIZ characters. */
  function Len(s: seq<byte>, i: nat): (n: nat)
    requires i <= DIRSIZ
    ensures i <= n <= DIRSIZ && (n < DIRSIZ ==> At(s, n) == 0) && forall k :: i <= k < n ==> At(s, k) != 0
    decreases DIRSIZ - i
  {
    if i < DIRSIZ && At(s, i) != 0 then Len(s, i + 1) else i
  }

  /** The name a string stands for in a directory: up to the zero, and no more than DIRSIZ characters. */
  function Name(s: seq<byte>): seq<byte> {
    seq(Len(s, 0), k requires 0 <= k => At(s, k))
  }

  /** Two strings agree, without a zero, in their first i characters. */
  predicate Agree(s: seq<byte>, t: seq<byte>, i: nat) {
    forall j :: 0 <= j < i ==> At(s, j) == At(t, j) != 0
  }

  lemma AgreeLen(s: seq<byte>, t: seq<byte>, i: nat)
    requires i <= DIRSIZ && Agree(s, t, i)
    ensures Len(s, 0) >= i && Len(t, 0) >= i
  {
    assert forall j :: 0 <= j < i ==> At(s, j) != 0;
    assert forall j :: 0 <= j < i ==> At(t, j) != 0;
  }

  lemma NameSame(s: seq<byte>, t: seq<byte>, i: nat)
    requires i <= DIRSIZ && Agree(s, t, i) && (i == DIRSIZ || At(s, i) == At(t, i) == 0)
    ensures Name(s) == Name(t)
  {
    AgreeLen(s, t, i);
  }

  lemma NameDiffers(s: seq<byte>, t: seq<byte>, i: nat)
    requires i < DIRSIZ && Agree(s, t, i) && At(s, i) != At(t, i)
    ensures Name(s) != Name(t)
  {
    AgreeLen(s, t, i);
    if Len(s, 0) == Len(t, 0) { assert Name(s)[i] == At(s, i) && Name(t)[i] == At(t, i); }
  }

  /** namecmp: equal as far as names go. */
  method Namecmp(s: seq<byte>, t: seq<byte>) returns (same: bool)
    ensures same <==> Name(s) == Name(t)
  {
    var i := 0;
    while i < DIRSIZ && At(s, i) != 0 && At(s, i) == At(t, i)
      invariant 0 <= i <= DIRSIZ && Agree(s, t, i)
    {
      i := i + 1;
    }
    same := i == DIRSIZ || At(s, i) == At(t, i);
    if same { NameSame(s, t, i); } else { NameDiffers(s, t, i); }
  }

  /** strncpy into the name field: the name, and zeros behind it. */
  method Strncpy(t: seq<byte>) returns (r: seq<byte>)
    ensures |r| == DIRSIZ && Name(r) == Name(t)
  {
    r := [];
    var n := 0;
    while n < DIRSIZ && At(t, n) != 0
      invariant 0 <= n <= DIRSIZ && |r| == n && Len(t, n) == Len(t, 0) && forall k :: 0 <= k < n ==> r[k] == At(t, k)
    {
      r := r + [At(t, n)];
      n := n + 1;
    }
    while n < DIRSIZ
      invariant Len(t, 0) <= n <= DIRSIZ && |r| == n
      invariant forall k :: 0 <= k < n ==> r[k] == if k < Len(t, 0) then At(t, k) else 0
    {
      r := r + [0];
      n := n + 1;
    }
    NameSame(r, t, Len(t, 0));
  }

  // ---------------------------------------------------------------- entries

  function Inum(c: seq<byte>, k: nat): nat
    requires DIRENT * k + DIRENT <= |c|
  {
    (c[DIRENT * k] as int) + 256 * (c[DIRENT * k + 1] as int)
  }

  function EntryName(c: seq<byte>, k: nat): seq<byte>
    requires DIRENT * k + DIRENT <= |c|
  {
    Name(c[DIRENT * k + 2..DIRENT * k + DIRENT])
  }

  predicate Binds(c: seq<byte>, k: nat, n: seq<byte>)
    requires DIRENT * k + DIRENT <= |c|
  {
    Inum(c, k) != 0 && EntryName(c, k) == n
  }

  /** The first entry from k on that binds n, or the number of entries. */
  function First(c: seq<byte>, k: nat, n: seq<byte>): (f: nat)
    requires k <= |c| / DIRENT
    ensures k <= f <= |c| / DIRENT && (f < |c| / DIRENT ==> Binds(c, f, n)) && forall j ::
              k <= j < f ==> !Binds(c, j, n)
    decreases |c| / DIRENT - k
  {
    if k < |c| / DIRENT && !Binds(c, k, n) then First(c, k + 1, n) else k
  }

  /** What the directory's bytes bind name n to. */
  function Lookup(c: seq<byte>, n: seq<byte>): Option<nat> {
    var f := First(c, 0, n);
    if f < |c| / DIRENT then Some(Inum(c, f)) else None
  }

  lemma LookupIs(c: seq<byte>, n: seq<byte>, k: nat)
    requires k < |c| / DIRENT && Binds(c, k, n) && forall j :: 0 <= j < k ==> !Binds(c, j, n)
    ensures First(c, 0, n) == k && Lookup(c, n) == Some(Inum(c, k))
  {
    var f := First(c, 0, n);
    assert !(k < f);
  }

  /** The bytes of a directory entry. */
  function Dirent(inum: nat, field: seq<byte>): seq<byte>
    requires |field| == DIRSIZ
  {
    [(inum % 0x1_0000) % 256, (inum % 0x1_0000) / 256] + field
  }

  /** Putting an entry at position k changes that entry only. */
  lemma EntryPut(c: seq<byte>, k: nat, inum: nat, field: seq<byte>, j: nat)
    requires |c| % DIRENT == 0 && k <= |c| / DIRENT && |field| == DIRSIZ
    requires var d := Spliced(c, DIRENT * k, Dirent(inum, field)); j < |d| / DIRENT
    ensures var d := Spliced(c, DIRENT * k, Dirent(inum, field));
            && |d| == (if k < |c| / DIRENT then |c| else |c| + DIRENT)
            && (j == k ==> Inum(d, j) == inum % 0x1_0000 && EntryName(d, j) == Name(field))
            && (j != k ==> j < |c| / DIRENT && Inum(d, j) == Inum(c, j) && EntryName(d, j) == EntryName(c, j))
  {
    var e := Dirent(inum, field);
    var d := Spliced(c, DIRENT * k, e);
    var a, b := DIRENT * k, DIRENT * j;
    if j == k {
      SplicedIn(c, a, e);
      assert d[a + 2..a + DIRENT] == e[2..] == field;
    } else {
      assert b + DIRENT <= a || a + DIRENT <= b;
      SplicedOut(c, a, e, b);
      assert d[b + 2..b + DIRENT] == d[b..b + DIRENT][2..] == c[b..b + DIRENT][2..] == c[b + 2..b + DIRENT];
    }
  }

  lemma SplicedIn(c: seq<byte>, a: nat, e: seq<byte>)
    requires a <= |c|
    ensures a + |e| <= |Spliced(c, a, e)| && Spliced(c, a, e)[a..a + |e|] == e
    ensures forall i :: 0 <= i < |e| ==> Spliced(c, a, e)[a + i] == e[i]
  {
  }

  lemma SplicedOut(c: seq<byte>, a: nat, e: seq<byte>, b: nat)
    requires a <= |c| && |e| == DIRENT && b + DIRENT <= |Spliced(c, a, e)| && (b + DIRENT <= a || a + DIRENT <= b)
    ensures b + DIRENT <= |c| && Spliced(c, a, e)[b..b + DIRENT] == c[b..b + DIRENT]
    ensures forall i :: b <= i < b + DIRENT ==> Spliced(c, a, e)[i] == c[i]
  {
  }

  /** No name is bound twice. */
  ghost predicate Unique(c: seq<byte>) {
    forall j, k ::
      0 <= j < k < |c| / DIRENT && Inum(c, j) != 0 && Inum(c, k) != 0 ==> EntryName(c, j) != EntryName(c, k)
  }

  /** dirlink's write, in a free entry or behind the last one, adds one binding and keeps the others. */
  lemma LinkAdds(c: seq<byte>, k: nat, inum: nat, field: seq<byte>, n: seq<byte>)
    requires |c| % DIRENT == 0 && k <= |c| / DIRENT && (k < |c| / DIRENT ==> Inum(c, k) == 0) && |field| == DIRSIZ
    requires Lookup(c, Name(field)).None?
    ensures var d := Spliced(c, DIRENT * k, Dirent(inum, field));
            Lookup(d, n) == if n == Name(field) && inum % 0x1_0000 != 0 then Some(inum % 0x1_0000) else Lookup(c, n)
  {
    var d := Spliced(c, DIRENT * k, Dirent(inum, field));
    EntryPut(c, k, inum, field, k);
    forall j | 0 <= j < |d| / DIRENT
      ensures Binds(d, j, n) <==>
                  if j == k then inum % 0x1_0000 != 0 && n == Name(field) else j < |c| / DIRENT && Binds(c, j, n)
    {
      EntryPut(c, k, inum, field, j);
    }
    if n == Name(field) && inum % 0x1_0000 != 0 {
      LookupIs(d, n, k);
    } else {
      var f := First(c, 0, n);
      if f < |c| / DIRENT {
        EntryPut(c, k, inum, field, f);
        LookupIs(d, n, f);
      }
    }
  }

  lemma LinkUnique(c: seq<byte>, k: nat, inum: nat, field: seq<byte>)
    requires |c| % DIRENT == 0 && k <= |c| / DIRENT && (k < |c| / DIRENT ==> Inum(c, k) == 0) && |field| == DIRSIZ
    requires Lookup(c, Name(field)).None? && Unique(c)
    ensures Unique(Spliced(c, DIRENT * k, Dirent(inum, field)))
  {
    var d := Spliced(c, DIRENT * k, Dirent(inum, field));
    EntryPut(c, k, inum, field, k);
    forall i, j | 0 <= i < j < |d| / DIRENT && Inum(d, i) != 0 && Inum(d, j) != 0
      ensures EntryName(d, i) != EntryName(d, j)
    {
      EntryPut(c, k, inum, field, i);
      EntryPut(c, k, inum, field, j);
      assert i != k ==> !Binds(c, i, Name(field));
      assert j != k ==> !Binds(c, j, Name(field));
    }
  }

  /** An entry read on its own is the entry of the directory. */
  lemma EntryRead(c: seq<byte>, k: nat, de: seq<byte>)
    requires DIRENT * k + DIRENT <= |c| && de == c[DIRENT * k..DIRENT * k + DIRENT]
    ensures Inum(de, 0) == Inum(c, k) && EntryName(de, 0) == EntryName(c, k)
  {
    assert de[2..DIRENT] == c[DIRENT * k + 2..DIRENT * k + DIRENT];
  }

  // ---------------------------------------------------------------- dirlookup and dirlink

  predicate IsDir(n: Inode) { Type(n) == T_DIR }

  /** readi of one entry. */
  method ReadEntry(fs: FileSys, off: nat, ghost c: seq<byte>) returns (r: int, de: seq<byte>)
    requires fs.Valid() && Dense(fs.View(), fs.num) && Holds(fs.View(), c) && off < |c|
    modifies fs`disk, fs`ip, fs`w, fs`logged, fs`calls
    ensures unchanged(fs)
    ensures r == DIRENT <==> off + DIRENT <= |c|
    ensures r == DIRENT ==> de == c[off..off + DIRENT]
  {
    HoldsMeans(fs.View(), c);
    r, de := fs.Readi(off, DIRENT);
  }

  /** dirlookup: what the directory binds the name to, and where; ok is false where it panics. */
  method Dirlookup(fs: FileSys, name: seq<byte>, ghost c: seq<byte>) returns (ok: bool, r: Option<nat>, off: nat)
    requires fs.Valid() && Dense(fs.View(), fs.num) && Holds(fs.View(), c)
    modifies fs`disk, fs`ip, fs`w, fs`logged, fs`calls
    ensures unchanged(fs)
    ensures ok <==> IsDir(fs.ip) && (|c| % DIRENT == 0 || Lookup(c, Name(name)).Some?)
    ensures ok ==> r == Lookup(c, Name(name))
    ensures ok && r.Some? ==> off == DIRENT * First(c, 0, Name(name))
  {
    ok, r, off := false, None, 0;
    if !IsDir(fs.ip) { return; }
    ghost var k := 0;
    while off < fs.ip.size
      invariant off == DIRENT * k && k <= |c| / DIRENT && unchanged(fs)
                && First(c, 0, Name(name)) == First(c, k, Name(name))
    {
      var n, de := ReadEntry(fs, off, c);
      if n != DIRENT { return; }
      EntryRead(c, k, de);
      if Inum(de, 0) != 0 {
        var same := Namecmp(name, de[2..]);
        assert de[2..] == de[2..DIRENT];
        if same { return true, Some(Inum(de, 0)), off; }
      }
      off := off + DIRENT;
      k := k + 1;
    }
    ok := true;
  }

  /** The first entry from k on that is free, or the number of entries. */
  function FirstFree(c: seq<byte>, k: nat): (f: nat)
    requires k <= |c| / DIRENT
    ensures k <= f <= |c| / DIRENT && (f < |c| / DIRENT ==> Inum(c, f) == 0) && forall j ::
              k <= j < f ==> Inum(c, j) != 0
    decreases |c| / DIRENT - k
  {
    if k < |c| / DIRENT && Inum(c, k) != 0 then FirstFree(c, k + 1) else k
  }

  /** Where dirlink puts an entry. */
  function Place(c: seq<byte>): nat {
    DIRENT * FirstFree(c, 0)
  }

  /** There is a free entry or space behind the last one, and there are blocks enough for the entry's place. */
  ghost predicate RoomForEntry(f: Fs, i: nat, c: seq<byte>)
    requires f.Ok()
  {
    Place(c) + DIRENT <= MAXFILE * BSIZE && Enough(f, TouchedAt(i, Place(c) / BSIZE))
  }

  /** dirlink's loop: the first free entry, or the end. */
  method FindFree(fs: FileSys, ghost c: seq<byte>) returns (ok: bool, off: nat)
    requires fs.Valid() && Dense(fs.View(), fs.num) && Holds(fs.View(), c) && |c| % DIRENT == 0
    modifies fs`disk, fs`ip, fs`w, fs`logged, fs`calls
    ensures unchanged(fs) && ok && off == Place(c)
    ensures off % DIRENT == 0 && off <= |c| && (off < |c| ==> Inum(c, off / DIRENT) == 0)
  {
    ok, off := true, 0;
    ghost var k := 0;
    while off < fs.ip.size
      invariant ok && off == DIRENT * k && off <= |c| && unchanged(fs) && FirstFree(c, k) == FirstFree(c, 0)
    {
      var n, de := ReadEntry(fs, off, c);
      ok := ok && n == DIRENT;
      EntryRead(c, k, de);
      if Inum(de, 0) == 0 { break; }
      off := off + DIRENT;
      k := k + 1;
    }
  }

  /** writei of one entry at off. */
  method WriteEntry(fs: FileSys, off: nat, de: seq<byte>, ghost c: seq<byte>) returns (ok: bool, r: int)
    requires fs.Valid() && Dense(fs.View(), fs.num) && fs.InSync() && Holds(fs.View(), c) && off <= |c|
             && |de| == DIRENT && off % DIRENT == 0
    modifies fs`disk, fs`ip, fs`w, fs`logged, fs`calls
    ensures ok ==>
            && r == 0 && fs.Valid() && Dense(fs.View(), fs.num) && fs.InSync() && SameOthers(old(fs.View()), fs.View())
            && Holds(fs.View(), Spliced(c, off, de)) && fs.ip.h0 == old(fs.ip.h0)
            && (fs.sb.size <= BPB ==> Adds(fs.View(), fs.w, old(fs.logged), fs.logged, 4))
            && Took(fs.sb.DataStart(), old(fs.w), fs.w, TouchedAt(fs.num, off / BSIZE))
            && Grew(old(fs.w), old(fs.logged), fs.w, fs.logged)
    ensures ok <==> off + DIRENT <= MAXFILE * BSIZE && Enough(old(fs.View()), TouchedAt(fs.num, off / BSIZE))
  {
    ghost var f := fs.View();
    HoldsMeans(f, c);
    OneSpan(fs.num, off);
    ok, r := fs.Writei(de, off);
    ok := ok && r == DIRENT;
    if ok { HoldsIs(fs.View(), Spliced(c, off, de)); }
    r := 0;
  }

  /** An entry lies in one block. */
  lemma OneSpan(i: nat, off: nat)
    requires off % DIRENT == 0
    ensures Spans(off, DIRENT) == 1 && TouchedBy(i, off, DIRENT) == TouchedAt(i, off / BSIZE)
  {
  }

  lemma HoldsMeans(f: Fs, c: seq<byte>)
    requires f.Ok() && Holds(f, c)
    ensures f.ip.size == |c| <= MAXFILE * BSIZE && Contents(f, f.num) == c
  {
    assert Peek(0);
  }

  lemma HoldsIs(f: Fs, c: seq<byte>)
    requires f.Ok() && f.ip.size <= MAXFILE * BSIZE && Contents(f, f.num) == c
    ensures Holds(f, c)
  {
  }

  /** Two numbers that do not fit: one is bound to another inode, one to none. */
  lemma LinkTruncates(field: seq<byte>)
    requires |field| == DIRSIZ
    ensures Lookup(Spliced([], 0, Dirent(0x1_0001, field)), Name(field)) == Some(1)
    ensures Lookup(Spliced([], 0, Dirent(0x1_0000, field)), Name(field)) == None
  {
    LinkAdds([], 0, 0x1_0001, field, Name(field));
    LinkAdds([], 0, 0x1_0000, field, Name(field));
  }

  lemma Linked(c: seq<byte>, off: nat, inum: nat, field: seq<byte>)
    requires |c| % DIRENT == 0 && off % DIRENT == 0 && off <= |c| && (off < |c| ==> Inum(c, off / DIRENT) == 0)
             && |field| == DIRSIZ
    requires Lookup(c, Name(field)).None?
    ensures var d := Spliced(c, off, Dirent(inum, field));
            && |d| % DIRENT == 0 && (Unique(c) ==> Unique(d))
            && (forall n :: Lookup(d,
                n) == if n == Name(field) && inum % 0x1_0000 != 0 then Some(inum % 0x1_0000) else Lookup(c, n))
            && (Lookup(d, Name(field)) == Some(inum) <==> 0 < inum < 0x1_0000)
  {
    var k := off / DIRENT;
    assert off == DIRENT * k;
    EntryPut(c, k, inum, field, k);
    if Unique(c) { LinkUnique(c, k, inum, field); }
    forall n
      ensures Lookup(Spliced(c, off, Dirent(inum, field)), n) ==
              if n == Name(field) && inum % 0x1_0000 != 0 then Some(inum % 0x1_0000) else Lookup(c, n)
    {
      LinkAdds(c, k, inum, field, n);
    }
  }

  /**
   dirlink on a directory of whole entries: -1 exactly if the name is bound already, and
   otherwise one new binding, of the low 16 bits of inum; if these are zero there is none.
   ok is false where it panics: not a directory, or the file cannot grow.
   */
  method Dirlink(fs: FileSys, name: seq<byte>, inum: nat, ghost c: seq<byte>) returns (ok: bool, r: int,
                 ghost d: seq<byte>)
    requires fs.Valid() && Dense(fs.View(), fs.num) && fs.InSync() && Holds(fs.View(), c) && |c| % DIRENT == 0
    modifies fs`disk, fs`ip, fs`w, fs`logged, fs`calls
    ensures ok && r != 0 ==> r == -1 && Lookup(c, Name(name)).Some? && unchanged(fs) && d == c
    ensures ok && r == 0 ==>
            && Lookup(c, Name(name)).None? && fs.Valid() && Dense(fs.View(), fs.num) && fs.InSync()
            && Holds(fs.View(), d)
            && SameOthers(old(fs.View()), fs.View()) && |d| % DIRENT == 0 && (Unique(c) ==> Unique(d))
            && (forall n :: Lookup(d,
                n) == if n == Name(name) && inum % 0x1_0000 != 0 then Some(inum % 0x1_0000) else Lookup(c, n))
            && (Lookup(d, Name(name)) == Some(inum) <==> 0 < inum < 0x1_0000)
            && fs.ip.h0 == old(fs.ip.h0) && (fs.sb.size <= BPB ==> Adds(fs.View(), fs.w, old(fs.logged), fs.logged, 4))
            && Grew(old(fs.w), old(fs.logged), fs.w, fs.logged)
            && Took(fs.sb.DataStart(), old(fs.w), fs.w, TouchedAt(fs.num, Place(c) / BSIZE))
            && |d| == if Place(c) < |c| then |c| else |c| + DIRENT
    ensures ok <==>
            IsDir(old(fs.ip)) && (Lookup(c, Name(name)).Some? || RoomForEntry(old(fs.View()), fs.num, c))
  {
    d := c;
    var found: Option<nat>, off: nat;
    ok, found, off := Dirlookup(fs, name, c);
    if !ok { return false, 0, c; }
    if found.Some? { return true, -1, c; }
    ok, off := FindFree(fs, c);
    var field := Strncpy(name);
    ok, r := WriteEntry(fs, off, Dirent(inum, field), c);
    if !ok { return; }
    d := Spliced(c, off, Dirent(inum, field));
    Linked(c, off, inum, field);
  }
}
