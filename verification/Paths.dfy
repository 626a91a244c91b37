/**
 Path names (source/fs.c): the split of a path into names and the walk along them
 from inode to inode, with the reference counts of the inode cache.
 */
module Paths {
  import opened Wrappers
  import opened Blocks
  import opened FsLayout
  import opened Ownership
  import opened Directories
  import opened FileStore
  import Files
  import opened Folding

  const SLASH: byte := 47
  const NINODE: nat := 50
  const ROOTINO: nat := 1

  // ---------------------------------------------------------------- the names in a path

  /** The non-empty stretches between slashes, one character at a time; cur is the stretch begun. */
  function Split(p: seq<byte>, i: nat, cur: seq<byte>): seq<seq<byte>>
    requires i <= |p|
    decreases |p| - i
  {
    if i == |p| then Stretch(cur)
    else if p[i] == SLASH then Stretch(cur) + Split(p, i + 1, [])
    else Split(p, i + 1, cur + [p[i]])
  }

  function Stretch(cur: seq<byte>): seq<seq<byte>> {
    if cur == [] then [] else [cur]
  }

  lemma {:induction false} SplitSlashes(p: seq<byte>, i: nat, j: nat)
    requires i <= j <= |p| && forall k :: i <= k < j ==> p[k] == SLASH
    ensures Split(p, i, []) == Split(p, j, [])
    decreases j - i
  {
    if i < j {
      SplitSlashes(p, i + 1, j);
      assert [] + Split(p, i + 1, []) == Split(p, i + 1, []);
    }
  }

  lemma {:induction false} SplitWord(p: seq<byte>, i: nat, j: nat, cur: seq<byte>)
    requires i <= j <= |p| && forall k :: i <= k < j ==> p[k] != SLASH
    ensures Split(p, i, cur) == Split(p, j, cur + p[i..j])
    decreases j - i
  {
    if i < j {
      SplitWord(p, i + 1, j, cur + [p[i]]);
      assert cur + [p[i]] + p[i + 1..j] == cur + p[i..j];
    } else {
      assert cur + p[i..j] == cur;
    }
  }

  lemma SplitRest(p: seq<byte>, e: nat, j: nat, w: seq<byte>)
    requires e <= j <= |p| && w != [] && (forall k :: e <= k < j ==> p[k] == SLASH) && (e < |p| ==> e < j)
    ensures Split(p, e, w) == [w] + Split(p, j, [])
  {
    if e < |p| {
      SplitSlashes(p, e + 1, j);
    } else {
      assert [w] + [] == [w];
    }
  }

  /** One name, from s to e, and the slashes behind it. */
  lemma SplitFirst(p: seq<byte>, i: nat, s: nat, e: nat, j: nat)
    requires i <= s < e <= j <= |p| && (forall k :: i <= k < s ==> p[k] == SLASH)
             && (forall k :: s <= k < e ==> p[k] != SLASH)
    requires (forall k :: e <= k < j ==> p[k] == SLASH) && (e < |p| ==> e < j)
    ensures Split(p, i, []) == [p[s..e]] + Split(p, j, [])
  {
    var w := p[s..e];
    SplitSlashes(p, i, s);
    SplitWord(p, s, e, []);
    assert [] + p[s..e] == w;
    assert Split(p, i, []) == Split(p, e, w);
    SplitRest(p, e, j, w);
  }

  /** skipelem: the next name, and the position behind it and its slashes. */
  method Skipelem(path: seq<byte>, i: nat) returns (r: Option<nat>, name: seq<byte>)
    requires i <= |path|
    ensures r.None? ==> Split(path, i, []) == []
    ensures r.Some? ==>
            && i < r.value <= |path| && (r.value < |path| ==> path[r.value] != SLASH) && Split(path, i, []) != []
            && Name(name) == Name(Split(path, i, [])[0]) && Split(path, r.value, []) == Split(path, i, [])[1..]
  {
    var s := i;
    while s < |path| && path[s] == SLASH
      invariant i <= s <= |path| && forall k :: i <= k < s ==> path[k] == SLASH
    {
      s := s + 1;
    }
    if s == |path| {
      SplitSlashes(path, i, s);
      return None, [];
    }
    var e := s;
    while e < |path| && path[e] != SLASH
      invariant s <= e <= |path| && forall k :: s <= k < e ==> path[k] != SLASH
    {
      e := e + 1;
    }
    name := if e - s >= DIRSIZ then path[s..s + DIRSIZ] else path[s..e] + [0];
    NameCut(path[s..e], name);
    var j := e;
    while j < |path| && path[j] == SLASH
      invariant e <= j <= |path| && forall k :: e <= k < j ==> path[k] == SLASH
    {
      j := j + 1;
    }
    SplitFirst(path, i, s, e, j);
    r := Some(j);
  }

  /** The buffer skipelem fills stands for the same name as the stretch of the path. */
  lemma NameCut(w: seq<byte>, name: seq<byte>)
    requires name == if |w| >= DIRSIZ then w[..DIRSIZ] else w + [0]
    ensures Name(name) == Name(w)
  {
    var n := Len(w, 0);
    assert forall k :: 0 <= k < n ==> At(name, k) == At(w, k) != 0;
    NameSame(w, name, n);
  }

  // ---------------------------------------------------------------- the inode cache

  datatype Ref = Ref(inum: nat, ref: nat)

  /** Each inode has at most one entry in use. */
  ghost predicate OneEach(s: seq<Ref>) {
    |s| == NINODE && forall i, j :: 0 <= i < j < |s| && s[i].ref > 0 && s[j].ref > 0 ==> s[i].inum != s[j].inum
  }

  /** Entries in use stay what they are, and counts differ by one at `but` only, if at all. */
  ghost predicate OneMore(s: seq<Ref>, t: seq<Ref>, but: Option<nat>) {
    && |t| == |s| && OneEach(t)
    && (forall j :: 0 <= j < |s| ==> t[j].ref == s[j].ref + (if but == Some(j) then 1 else 0))
    && (forall j :: 0 <= j < |s| && s[j].ref > 0 ==> t[j].inum == s[j].inum)
  }

  /** Every entry of the cache is in use. */
  ghost predicate Full(s: seq<Ref>) {
    forall j :: 0 <= j < |s| ==> s[j].ref > 0
  }

  // ---------------------------------------------------------------- where a path leads

  /** Directory i binds the name to j. */
  predicate Leads(m: map<nat, File>, i: nat, name: seq<byte>, j: nat) {
    i in m && m[i].ty == T_DIR && Lookup(m[i].bytes, Name(name)) == Some(j)
  }

  predicate LeadsOn(m: map<nat, File>, names: seq<seq<byte>>, q: seq<nat>, k: nat)
    requires k + 1 < |q| <= |names| + 1
  {
    Leads(m, q[k], names[k], q[k + 1])
  }

  /** Inodes of which each, with the next of the names, leads to the one after it. */
  ghost predicate Chain(m: map<nat, File>, names: seq<seq<byte>>, q: seq<nat>) {
    0 < |q| <= |names| + 1 && forall k :: 0 <= k < |q| - 1 ==> LeadsOn(m, names, q, k)
  }

  /** A chain ends at i that used up the names, or all but the last, for which i is a directory. */
  ghost predicate Reaches(m: map<nat, File>, start: nat, names: seq<seq<byte>>, parent: bool, i: nat) {
    exists q ::
      && Chain(m, names, q) && q[0] == start && q[|q| - 1] == i
      && if parent then |q| == |names| && i in m && m[i].ty == T_DIR else |q| == |names| + 1
  }

  /** A chain ends at what is no directory, or at one without the next name; or there is no name, and so no parent. */
  ghost predicate Stops(m: map<nat, File>, start: nat, names: seq<seq<byte>>, parent: bool) {
    || (parent && names == [])
    || exists q ::
       && Chain(m, names, q) && q[0] == start && |q| <= |names| && q[|q| - 1] in m
       && var x := m[q[|q| - 1]];
         x.ty != T_DIR
         || (!(parent && |q| == |names|) && |x.bytes| % DIRENT == 0 && Lookup(x.bytes, Name(names[|q| - 1])).None?)
  }

  /** A chain ends at an inode without a type, or at a directory that lacks the next name and ends in a part of an
      entry. */
  ghost predicate Breaks(m: map<nat, File>, start: nat, names: seq<seq<byte>>, parent: bool) {
    exists q ::
      && Chain(m, names, q) && q[0] == start && |q| <= |names|
      && (q[|q| - 1] in m ==>
            var x := m[q[|q| - 1]];
            x.ty == T_DIR && !(parent && |q| == |names|) && |x.bytes| % DIRENT != 0
            && Lookup(x.bytes, Name(names[|q| - 1])).None?)
  }

  /** Chains from the same inode are the same as far as both go. */
  lemma {:induction false} ChainsAgree(m: map<nat, File>, names: seq<seq<byte>>, p: seq<nat>, q: seq<nat>, k: nat)
    requires Chain(m, names, p) && Chain(m, names, q) && p[0] == q[0] && k < |p| && k < |q|
    ensures p[k] == q[k]
  {
    if k > 0 {
      ChainsAgree(m, names, p, q, k - 1);
      assert LeadsOn(m, names, p, k - 1) && LeadsOn(m, names, q, k - 1);
    }
  }

  /** A chain that could go on stops short of no other chain. */
  lemma ChainEnds(m: map<nat, File>, names: seq<seq<byte>>, p: seq<nat>, q: seq<nat>)
    requires Chain(m, names, p) && Chain(m, names, q) && p[0] == q[0] && |p| < |q|
    ensures Leads(m, p[|p| - 1], names[|p| - 1], q[|p|])
  {
    ChainsAgree(m, names, p, q, |p| - 1);
    assert LeadsOn(m, names, q, |p| - 1);
  }

  /** Of two chains from the same inode the longer goes on where the shorter ends. */
  lemma TwoChains(m: map<nat, File>, names: seq<seq<byte>>, p: seq<nat>, q: seq<nat>)
    requires Chain(m, names, p) && Chain(m, names, q) && p[0] == q[0]
    ensures |p| < |q| ==> Leads(m, p[|p| - 1], names[|p| - 1], q[|p|])
    ensures |q| < |p| ==> Leads(m, q[|q| - 1], names[|q| - 1], p[|q|])
    ensures |p| == |q| ==> p[|p| - 1] == q[|q| - 1]
  {
    if |p| < |q| { ChainEnds(m, names, p, q); }
    else if |q| < |p| { ChainEnds(m, names, q, p); }
    else { ChainsAgree(m, names, p, q, |p| - 1); }
  }

  lemma ReachesAlone(m: map<nat, File>, start: nat, names: seq<seq<byte>>, parent: bool, i: nat, j: nat)
    requires Reaches(m, start, names, parent, i)
    ensures Reaches(m, start, names, parent, j) ==> i == j
    ensures !Stops(m, start, names, parent) && !Breaks(m, start, names, parent)
  {
    forall p, q | Chain(m, names, p) && Chain(m, names, q) && p[0] == q[0] == start
      ensures |p| < |q| ==> Leads(m, p[|p| - 1], names[|p| - 1], q[|p|])
      ensures |p| == |q| ==> p[|p| - 1] == q[|q| - 1]
    {
      TwoChains(m, names, p, q);
    }
  }

  lemma StopsAlone(m: map<nat, File>, start: nat, names: seq<seq<byte>>, parent: bool)
    requires Stops(m, start, names, parent)
    ensures !Breaks(m, start, names, parent)
  {
    forall p, q | Chain(m, names, p) && Chain(m, names, q) && p[0] == q[0] == start
      ensures |p| < |q| ==> Leads(m, p[|p| - 1], names[|p| - 1], q[|p|])
      ensures |p| == |q| ==> p[|p| - 1] == q[|q| - 1]
    {
      TwoChains(m, names, p, q);
    }
  }

  /** A path leads to one inode, or to none, or the walk panics: exactly one of the three. */
  lemma OneOutcome(m: map<nat, File>, start: nat, names: seq<seq<byte>>, parent: bool)
    ensures Stops(m, start, names, parent) ==> !Breaks(m, start, names, parent)
    ensures forall i, j :: Reaches(m, start, names, parent, i) && Reaches(m, start, names, parent, j) ==> i == j
    ensures (exists i :: Reaches(m, start, names, parent, i))
            <==> !Stops(m, start, names, parent) && !Breaks(m, start, names, parent)
  {
    if Stops(m, start, names, parent) { StopsAlone(m, start, names, parent); }
    forall i, j | Reaches(m, start, names, parent, i)
      ensures Reaches(m, start, names, parent, j) ==> i == j
      ensures !Stops(m, start, names, parent) && !Breaks(m, start, names, parent)
    {
      ReachesAlone(m, start, names, parent, i, j);
    }
    SomeOutcome(m, names, parent, [start]);
  }

  lemma {:induction false} SomeOutcome(m: map<nat, File>, names: seq<seq<byte>>, parent: bool, q: seq<nat>)
    requires Chain(m, names, q) && (parent ==> |q| <= |names| || names == [])
    ensures Stops(m, q[0], names, parent) || Breaks(m, q[0], names, parent)
            || exists i :: Reaches(m, q[0], names, parent, i)
    decreases |names| + 1 - |q|
  {
    var i := q[|q| - 1];
    if |q| <= |names| && i in m && m[i].ty == T_DIR && !(parent && |q| == |names|) {
      var next := Lookup(m[i].bytes, Name(names[|q| - 1]));
      if next.Some? {
        LongerChain(m, names, q, next.value);
        SomeOutcome(m, names, parent, q + [next.value]);
      }
    } else if |q| > |names| || (parent && |q| == |names| && i in m && m[i].ty == T_DIR) {
      assert !(parent && names == []) ==> Reaches(m, q[0], names, parent, i);
    }
  }

  lemma LongerChain(m: map<nat, File>, names: seq<seq<byte>>, q: seq<nat>, j: nat)
    requires Chain(m, names, q) && |q| <= |names| && Leads(m, q[|q| - 1], names[|q| - 1], j)
    ensures Chain(m, names, q + [j])
  {
    forall k | 0 <= k < |q|
      ensures LeadsOn(m, names, q + [j], k)
    {
      if k < |q| - 1 { assert LeadsOn(m, names, q, k); }
    }
  }

  /**
   The cache has no entry left for the last inode of a chain: t is the cache s with one
   reference more on the inode before it, or s itself if it is the first.
   */
  ghost predicate CacheFull(m: map<nat, File>, start: nat, names: seq<seq<byte>>, s: seq<Ref>, t: seq<Ref>) {
    Full(t) && exists q ::
      && Chain(m, names, q) && q[0] == start && (forall j :: 0 <= j < |t| ==> t[j].inum != q[|q| - 1])
      && if |q| == 1 then t == s else HoldsOneMore(s, t, q[|q| - 2])
  }

  ghost predicate HoldsOneMore(s: seq<Ref>, t: seq<Ref>, i: nat) {
    exists j :: 0 <= j < |t| && t[j].inum == i && OneMore(s, t, Some(j))
  }

  /**
   How a walk from the cache s ends: with one reference more on what it found, with all
   counts as before, or with a panic.
   */
  ghost predicate Ends(m: map<nat, File>, start: nat, names: seq<seq<byte>>, parent: bool, s: seq<Ref>, t: seq<Ref>,
                       ok: bool, r: Option<nat>) {
    if !ok then Breaks(m, start, names, parent) || CacheFull(m, start, names, s, t)
    else if r.None? then Stops(m, start, names, parent) && OneMore(s, t, None)
    else r.value < |t| && Reaches(m, start, names, parent, t[r.value].inum) && OneMore(s, t, r)
  }

  lemma LockedType(f: Fs)
    requires f.Ok() && AllSound(f) && GetInode(f.sb, f.disk, f.num) == f.ip
    ensures f.num in Stored(f) ==> Stored(f)[f.num].ty == Type(f.ip)
  {
  }

  /** ilock and the test of the type; ok is false where ilock panics. */
  method LockDir(fs: Files.FileSys, inum: nat, ghost m: map<nat, File>) returns (ok: bool, isdir: bool)
    requires Sound(fs) && Stored(fs.View()) == m
    modifies fs`num, fs`ip
    ensures Sound(fs) && Stored(fs.View()) == m && (ok <==> inum in m)
            && (ok ==> fs.num == inum && (isdir <==> m[inum].ty == T_DIR))
  {
    if inum >= fs.sb.ninodes { return false, false; }
    ok := Ilock(fs, inum);
    isdir := Type(fs.ip) == T_DIR;
    LockedType(fs.View());
  }

  /** dirlookup in the locked directory. */
  method FindIn(fs: Files.FileSys, name: seq<byte>, ghost m: map<nat, File>) returns (ok: bool, r: Option<nat>)
    requires Sound(fs) && Stored(fs.View()) == m && fs.num in m && m[fs.num].ty == T_DIR
    modifies fs`disk, fs`ip, fs`w, fs`logged, fs`calls
    ensures unchanged(fs)
    ensures ok <==> |m[fs.num].bytes| % DIRENT == 0 || Lookup(m[fs.num].bytes, Name(name)).Some?
    ensures ok ==> r == Lookup(m[fs.num].bytes, Name(name))
  {
    ghost var c := m[fs.num].bytes;
    assert InodeSound(fs.View(), fs.num);
    HoldsIs(fs.View(), c);
    var off;
    ok, r, off := Dirlookup(fs, name, c);
  }

  class Icache {
    var slots: seq<Ref>

    /** iget: the inode's entry, or a free one; ok is false where it panics. */
    method Iget(inum: nat) returns (ok: bool, ip: nat)
      requires OneEach(slots)
      modifies this
      ensures !ok <==> forall j :: 0 <= j < NINODE ==> old(slots)[j].ref > 0 && old(slots)[j].inum != inum
      ensures !ok ==> slots == old(slots)
      ensures ok ==> ip < NINODE == |slots| && slots[ip].inum == inum && OneMore(old(slots), slots, Some(ip))
    {
      var empty: Option<nat> := None;
      ip := 0;
      while ip < NINODE
        invariant 0 <= ip <= NINODE && slots == old(slots)
        invariant forall j :: 0 <= j < ip ==> !(slots[j].ref > 0 && slots[j].inum == inum)
        invariant empty.None? ==> forall j :: 0 <= j < ip ==> slots[j].ref > 0
        invariant empty.Some? ==> empty.value < ip && slots[empty.value].ref == 0
      {
        if slots[ip].ref > 0 && slots[ip].inum == inum {
          slots := slots[ip := Ref(inum, slots[ip].ref + 1)];
          return true, ip;
        }
        if empty.None? && slots[ip].ref == 0 { empty := Some(ip); }
        ip := ip + 1;
      }
      if empty.None? { return false, 0; }
      ip := empty.value;
      slots := slots[ip := Ref(inum, 1)];
      ok := true;
    }

    method Idup(ip: nat)
      requires OneEach(slots) && ip < NINODE && slots[ip].ref > 0
      modifies this
      ensures OneMore(old(slots), slots, Some(ip)) && slots[ip].inum == old(slots)[ip].inum
    {
      slots := slots[ip := slots[ip].(ref := slots[ip].ref + 1)];
    }

    /** iput of an inode that still has links. */
    method Iput(ip: nat)
      requires OneEach(slots) && ip < NINODE && slots[ip].ref > 0
      modifies this
      ensures slots == old(slots)[ip := old(slots)[ip].(ref := old(slots)[ip].ref - 1)]
    {
      slots := slots[ip := slots[ip].(ref := slots[ip].ref - 1)];
    }

    /**
     namex: the inode the path leads to through the directories on disk, or the one before
     the last name, with one reference more on it and none anywhere else.  ok is false where
     ilock or dirlookup panics, or iget because the cache is full.
     */
    method Namex(fs: Files.FileSys, path: seq<byte>, parent: bool, cwd: nat) returns (ok: bool, r: Option<nat>,
                 name: seq<byte>)
      requires Sound(fs) && OneEach(slots) && cwd < NINODE && slots[cwd].ref > 0
      modifies this, fs`num, fs`disk, fs`ip, fs`w, fs`logged, fs`calls
      ensures Sound(fs) && Stored(fs.View()) == old(Stored(fs.View())) && fs.disk == old(fs.disk)
      ensures var start := if path != [] && path[0] == SLASH then ROOTINO else old(slots)[cwd].inum;
              Ends(old(Stored(fs.View())), start, Split(path, 0, []), parent, old(slots), slots, ok, r)
      ensures ok && parent && r.Some? ==> Split(path, 0, []) != [] && Name(name) == Name(Last(Split(path, 0, [])))
    {
      var ip: nat;
      name := [];
      if path != [] && path[0] == SLASH {
        ok, ip := Iget(ROOTINO);
        if !ok {
          assert Chain(Stored(fs.View()), Split(path, 0, []), [ROOTINO]);
          return false, None, [];
        }
      } else {
        Idup(cwd);
        ip := cwd;
      }
      ok, r, name := Follow(fs, path, parent, ip, old(slots), Stored(fs.View()));
    }

    /** namex's loop, from the entry it holds at first. */
    method Follow(fs: Files.FileSys, path: seq<byte>, parent: bool, first: nat, ghost s0: seq<Ref>, ghost m: map<nat,
                  File>)
      returns (ok: bool, r: Option<nat>, name: seq<byte>)
      requires Sound(fs) && Stored(fs.View()) == m && first < NINODE && OneEach(slots)
               && OneMore(s0, slots, Some(first))
      modifies this, fs`num, fs`disk, fs`ip, fs`w, fs`logged, fs`calls
      ensures Sound(fs) && Stored(fs.View()) == m && fs.disk == old(fs.disk)
      ensures Ends(m, old(slots)[first].inum, Split(path, 0, []), parent, s0, slots, ok, r)
      ensures ok && parent && r.Some? ==> Split(path, 0, []) != [] && Name(name) == Name(Last(Split(path, 0, [])))
    {
      var ip: nat, i: nat := first, 0;
      name := [];
      ghost var names, q := Split(path, 0, []), [slots[first].inum];
      assert names == Rest(names, 1);
      while true
        invariant i <= |path| && ip < NINODE && OneEach(slots) && OneMore(s0, slots, Some(ip))
        invariant Sound(fs) && Stored(fs.View()) == m && fs.disk == old(fs.disk)
        invariant q != [] && q[0] == old(slots)[first].inum && q[|q| - 1] == slots[ip].inum
        invariant Facing(m, names, parent, path, i, q)
        decreases |path| - i
      {
        ghost var nq;
        var go;
        go, ok, r, name, ip, i, nq := OneElement(fs, path, i, parent, ip, names, q, s0, m);
        if !go { return ok, r, name; }
        q := nq;
      }
    }

    /** One round of namex's loop: the next name of the path, if there is one, and the inode it leads to. */
    method OneElement(fs: Files.FileSys, path: seq<byte>, i: nat, parent: bool, ip: nat, ghost names: seq<seq<byte>>,
                      ghost q: seq<nat>, ghost s0: seq<Ref>, ghost m: map<nat, File>)
      returns (go: bool, ok: bool, r: Option<nat>, name: seq<byte>, next: nat, i': nat, ghost q': seq<nat>)
      requires i <= |path| && ip < NINODE && OneEach(slots) && OneMore(s0, slots, Some(ip))
      requires Sound(fs) && Stored(fs.View()) == m
      requires q != [] && q[|q| - 1] == slots[ip].inum && Facing(m, names, parent, path, i, q)
      modifies this, fs`num, fs`disk, fs`ip, fs`w, fs`logged, fs`calls
      ensures Sound(fs) && Stored(fs.View()) == m && fs.disk == old(fs.disk)
      ensures !go ==> Ends(m, q[0], names, parent, s0, slots, ok, r)
      ensures !go && ok && parent && r.Some? ==> names != [] && Name(name) == Name(Last(names))
      ensures go ==> i < i' <= |path| && next < NINODE && OneEach(slots) && OneMore(s0, slots, Some(next))
      ensures go ==> q' == q + [slots[next].inum] && Facing(m, names, parent, path, i', q')
    {
      next, q', name := ip, q, [];
      var e, nm := Skipelem(path, i);
      if e.None? {
        go, ok, i' := false, true, i;
        NoMoreNames(m, names, parent, path, i, q);
        if parent { Drop(ip, s0); r := None; } else { r := Some(ip); }
        return;
      }
      name, i' := nm, e.value;
      OneNameLess(m, names, parent, path, i, q, e.value, nm);
      go, ok, r, next := OneName(fs, nm, parent, e.value == |path|, ip, names, q, s0, m);
      if go {
        q' := q + [slots[next].inum];
        FacingNext(m, names, parent, path, i, q, e.value, slots[next].inum);
      }
    }

    /** One round of namex's loop: the name nm, first of those left behind the chain q, looked up in the inode held. */
    method OneName(fs: Files.FileSys, nm: seq<byte>, parent: bool, last: bool, ip: nat, ghost names: seq<seq<byte>>,
                   ghost q: seq<nat>, ghost s0: seq<Ref>, ghost m: map<nat, File>)
      returns (go: bool, ok: bool, r: Option<nat>, next: nat)
      requires Sound(fs) && Stored(fs.View()) == m && ip < NINODE && OneEach(slots) && OneMore(s0, slots, Some(ip))
      requires Chain(m, names, q) && |q| <= |names| && q[|q| - 1] == slots[ip].inum
      requires Name(nm) == Name(names[|q| - 1]) && (last <==> |q| == |names|)
      modifies this, fs`num, fs`disk, fs`ip, fs`w, fs`logged, fs`calls
      ensures Sound(fs) && Stored(fs.View()) == m && fs.disk == old(fs.disk)
      ensures !go ==> Ends(m, q[0], names, parent, s0, slots, ok, r) && (ok && r.Some? ==> parent && last)
      ensures go ==> ok && next < NINODE && OneEach(slots) && OneMore(s0, slots, Some(next)) && !(parent && last)
      ensures go ==> Leads(m, q[|q| - 1], names[|q| - 1], slots[next].inum)
                     && Chain(m, names, q + [slots[next].inum])
    {
      go, ok, r, next := false, true, None, ip;
      var locked, isdir := LockDir(fs, slots[ip].inum, m);
      if !locked { ok := false; return; }
      if !isdir { Drop(ip, s0); return; }
      if parent && last { r := Some(ip); return; }
      var found, to := FindIn(fs, nm, m);
      if !found { ok := false; return; }
      if to.None? { Drop(ip, s0); return; }
      LongerChain(m, names, q, to.value);
      ghost var s1 := slots;
      ok, next := Step(ip, to.value, s0);
      if !ok { NoEntry(m, names, q, to.value, s0, s1, ip); }
      go := ok;
    }

    /** iunlockput of the entry held. */
    method Drop(ip: nat, ghost s0: seq<Ref>)
      requires ip < NINODE && OneEach(slots) && OneMore(s0, slots, Some(ip))
      modifies this
      ensures OneMore(s0, slots, None)
    {
      ghost var s1 := slots;
      Iput(ip);
      PutBack(s0, s1, slots, ip);
    }

    /** iget of the next inode, then iunlockput of the one held. */
    method Step(ip: nat, inum: nat, ghost s0: seq<Ref>) returns (ok: bool, next: nat)
      requires ip < NINODE && OneEach(slots) && OneMore(s0, slots, Some(ip))
      modifies this
      ensures !ok ==> slots == old(slots) && Full(slots) && forall j :: 0 <= j < |slots| ==> slots[j].inum != inum
      ensures ok ==> next < NINODE && OneEach(slots) && OneMore(s0, slots, Some(next)) && slots[next].inum == inum
    {
      ghost var s1 := slots;
      ok, next := Iget(inum);
      if !ok { return; }
      ghost var s2 := slots;
      Iput(ip);
      Hop(s0, s1, s2, slots, ip, next);
    }
  }

  function Last(q: seq<seq<byte>>): seq<byte>
    requires q != []
  {
    q[|q| - 1]
  }

  /** The names left for a chain of k inodes. */
  function Rest(names: seq<seq<byte>>, k: nat): seq<seq<byte>>
    requires 0 < k <= |names| + 1
  {
    names[k - 1..]
  }

  /** At position i of the path the chain q has used up the names before. */
  ghost predicate Facing(m: map<nat, File>, names: seq<seq<byte>>, parent: bool, path: seq<byte>, i: nat, q: seq<nat>) {
    forall k {:trigger Spot(k)} :: Spot(k) ==>
      && i <= |path| && Chain(m, names, q) && Split(path, i, []) == Rest(names, |q|)
      && (parent ==> |q| <= |names| || names == [])
  }

  lemma NoMoreNames(m: map<nat, File>, names: seq<seq<byte>>, parent: bool, path: seq<byte>, i: nat, q: seq<nat>)
    requires q != [] && Facing(m, names, parent, path, i, q) && i <= |path| && Split(path, i, []) == []
    ensures if parent then Stops(m, q[0], names, parent) else Reaches(m, q[0], names, parent, q[|q| - 1])
  {
    assert Spot(0);
  }

  lemma OneNameLess(m: map<nat, File>, names: seq<seq<byte>>, parent: bool, path: seq<byte>, i: nat, q: seq<nat>,
                    e: nat, nm: seq<byte>)
    requires Facing(m, names, parent, path, i, q) && i <= e <= |path| && Split(path, i, []) != []
             && Split(path, e, []) == Split(path, i, [])[1..]
    requires Name(nm) == Name(Split(path, i, [])[0]) && (e < |path| ==> path[e] != SLASH)
    ensures Chain(m, names, q) && |q| <= |names| && Name(nm) == Name(names[|q| - 1])
            && (e == |path| <==> |q| == |names|)
    ensures |q| == |names| ==> names[|q| - 1] == Last(names)
  {
    assert Spot(0);
    NothingLeft(path, e);
  }

  lemma FacingNext(m: map<nat, File>, names: seq<seq<byte>>, parent: bool, path: seq<byte>, i: nat, q: seq<nat>,
                   e: nat, j: nat)
    requires Facing(m, names, parent, path, i, q) && i <= e <= |path| && Split(path, i, []) != []
             && Split(path, e, []) == Split(path, i, [])[1..]
    requires Chain(m, names, q + [j]) && (parent ==> |q| < |names|)
    ensures Facing(m, names, parent, path, e, q + [j])
  {
    assert Spot(0);
    assert Rest(names, |q + [j]|) == Rest(names, |q|)[1..];
  }

  lemma NoEntry(m: map<nat, File>, names: seq<seq<byte>>, q: seq<nat>, j: nat, s: seq<Ref>, t: seq<Ref>, ip: nat)
    requires Chain(m, names, q) && |q| <= |names| && Chain(m, names, q + [j]) && ip < |t| && t[ip].inum == q[|q| - 1]
    requires OneMore(s, t, Some(ip)) && Full(t) && forall k :: 0 <= k < |t| ==> t[k].inum != j
    ensures CacheFull(m, q[0], names, s, t)
  {
    var p := q + [j];
    assert p[0] == q[0] && p[|p| - 1] == j && p[|p| - 2] == q[|q| - 1];
    assert HoldsOneMore(s, t, p[|p| - 2]);
  }

  lemma {:induction false} Begun(p: seq<byte>, i: nat, cur: seq<byte>)
    requires i <= |p| && cur != []
    ensures Split(p, i, cur) != []
    decreases |p| - i
  {
    if i < |p| && p[i] != SLASH { Begun(p, i + 1, cur + [p[i]]); }
  }

  /** At a place behind the slashes, no name is left exactly at the end of the path. */
  lemma NothingLeft(p: seq<byte>, i: nat)
    requires i <= |p| && (i < |p| ==> p[i] != SLASH)
    ensures Split(p, i, []) == [] <==> i == |p|
  {
    if i < |p| { Begun(p, i + 1, [] + [p[i]]); }
  }

  lemma PutBack(s: seq<Ref>, t: seq<Ref>, u: seq<Ref>, ip: nat)
    requires ip < |t| && OneMore(s, t, Some(ip)) && t[ip].ref > 0 && u == t[ip := t[ip].(ref := t[ip].ref - 1)]
    ensures OneMore(s, u, None)
  {
    assert forall j :: 0 <= j < |u| ==> u[j].inum == t[j].inum && (u[j].ref > 0 ==> t[j].ref > 0);
  }

  lemma Hop(s: seq<Ref>, t: seq<Ref>, u: seq<Ref>, v: seq<Ref>, ip: nat, next: nat)
    requires ip < |t| && next < |u| && OneMore(s, t, Some(ip)) && OneMore(t, u, Some(next)) && u[ip].ref > 0
    requires v == u[ip := u[ip].(ref := u[ip].ref - 1)]
    ensures OneMore(s, v, Some(next)) && OneEach(v) && v[next].inum == u[next].inum
  {
    assert forall j :: 0 <= j < |v| ==> v[j].inum == u[j].inum && (v[j].ref > 0 ==> u[j].ref > 0);
  }
}
