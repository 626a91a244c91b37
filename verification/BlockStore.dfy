/**
 The buffer cache (source/bio.c), the memory disk under it (source/memide.c) and
 the log above it (source/log.c), in their own imperative form.  `flat` is the
 plain sector map that the cache stands for, and `evs` the steps taken on the
 machine of module CrashLog; `trace` collects the disk after every sector write
 the code really issues, so that no write can hide inside a step.
 */
module BlockStore {
  import opened Wrappers
  import opened Blocks
  import opened CrashLog
  import opened LruRing
  import opened Counting
  import opened Folding

  const ROOTDEV: int := 1
  const NODEV: int := 0xFFFF_FFFF

  datatype Buf = Buf(busy: bool, valid: bool, dirty: bool, dev: int, sector: nat, data: Block) {
    predicate Holds(s: nat) {
      dev == ROOTDEV && sector == s
    }
  }

  datatype GetResult = Got(i: nat) | MustSleep(i: nat) | Panic

  // ---------------------------------------------------------------- cache invariant

  ghost predicate BufOk(b: Buf, flat: Disk, pinned: set<nat>) {
    if b.dev == ROOTDEV then
      && b.sector < |flat| && b.valid
      && (b.dirty <==> b.sector in pinned)
      && (!b.busy ==> b.data == flat[b.sector])
    else
      b.dev == NODEV && !b.busy && !b.valid && !b.dirty
  }

  ghost predicate OnePerSector(buf: seq<Buf>) {
    forall i, j ::
      0 <= i < j < |buf| && buf[i].dev == ROOTDEV && buf[j].dev == ROOTDEV ==> buf[i].sector != buf[j].sector
  }

  ghost predicate PinnedCached(buf: seq<Buf>, pinned: set<nat>) {
    forall s :: s in pinned ==> exists i :: 0 <= i < |buf| && buf[i].Holds(s)
  }

  /** At most one buffer per sector; dirty exactly when pinned; released data is the flat map's. */
  ghost predicate Coherent(buf: seq<Buf>, flat: Disk, pinned: set<nat>) {
    && (forall i :: 0 <= i < |buf| ==> BufOk(buf[i], flat, pinned))
    && OnePerSector(buf)
    && PinnedCached(buf, pinned)
  }

  ghost predicate NoneHolds(buf: seq<Buf>, s: nat) {
    forall i :: 0 <= i < |buf| ==> !buf[i].Holds(s)
  }

  ghost predicate NoneUsable(buf: seq<Buf>) {
    forall i :: 0 <= i < |buf| ==> buf[i].busy || buf[i].dirty
  }

  /** b is usable and everything used less recently is not. */
  ghost predicate LastUsable(order: seq<nat>, buf: seq<Buf>, b: nat)
  {
    && (forall j :: 0 <= j < |order| ==> order[j] < |buf|)
    && exists j ::
      0 <= j < |order| && order[j] == b && forall k :: j < k < |order| ==> buf[order[k]].busy || buf[order[k]].dirty
  }

  /** Buffers held before are held still, untouched, and no others are held. */
  ghost predicate HeldSame(a: seq<Buf>, b: seq<Buf>) {
    |a| == |b| && forall j :: 0 <= j < |a| ==> a[j].busy == b[j].busy && (a[j].busy ==> a[j] == b[j])
  }

  ghost predicate NoneBusy(buf: seq<Buf>) {
    forall i :: 0 <= i < |buf| ==> !buf[i].busy
  }

  /** Fewer pinned sectors than buffers: some buffer is clean. */
  lemma CleanBuffer(buf: seq<Buf>, flat: Disk, pinned: set<nat>) returns (i: nat)
    requires Coherent(buf, flat, pinned) && |pinned| < |buf|
    ensures i < |buf| && !buf[i].dirty
  {
    if forall j :: 0 <= j < |buf| ==> buf[j].dirty {
      var q := seq(|buf|, k requires 0 <= k < |buf| => buf[k].sector);
      assert forall j :: 0 <= j < |buf| ==> BufOk(buf[j], flat, pinned) && q[j] in pinned;
      NoMoreThan(q, pinned);
    }
    i :| 0 <= i < |buf| && !buf[i].dirty;
  }

  /** While one clean buffer is held, a second read still finds room if its sector is pinned or nothing is. */
  lemma SecondFits(buf: seq<Buf>, flat: Disk, pinned: set<nat>, l: nat, s: nat)
    requires Coherent(buf, flat, pinned) && |buf| == NBUF && l < NBUF
    requires forall j :: 0 <= j < NBUF && j != l ==> !buf[j].busy
    requires pinned == {} || s in pinned
    ensures !(NoneHolds(buf, s) && NoneUsable(buf))
  {
    if pinned == {} {
      var other := if l == 0 then 1 else 0;
      assert BufOk(buf[other], flat, pinned);
    }
  }

  /** The pinned sectors are the logged ones, and the flat map has their log blocks. */
  ghost predicate LogAgrees(g: Geometry, lh: seq<nat>, disk: Disk, flat: Disk, pinned: set<nat>)
    requires g.Ok()
  {
    && |disk| == |flat| == g.disksize
    && forall k {:trigger Glance(k)} :: Glance(k) ==>
         && ListOk(g, lh) && pinned == Elements(lh)
         && forall k :: 0 <= k < |lh| ==> flat[lh[k]] == LogBlock(g, disk, k)
  }

  lemma SlotAppend(sector: seq<nat>, n: nat, s: nat)
    requires n < |sector|
    ensures var k := IndexIn(sector[..n], s);
            sector[k := s][..if k == n then n + 1 else n] == Append(sector[..n], s)
  {
  }

  function Repeat(ev: Event, m: nat): seq<Event> {
    seq(m, _ => ev)
  }

  /** The pinned sectors left when the first k of the list have been written home. */
  ghost function Left(pinned: set<nat>, lh: seq<nat>, k: nat): set<nat>
    requires k <= |lh|
  {
    if k == 0 then pinned else Left(pinned, lh, k - 1) - {lh[k - 1]}
  }

  lemma {:induction false} LeftIs(pinned: set<nat>, lh: seq<nat>, k: nat)
    requires k <= |lh|
    ensures Left(pinned, lh, k) <= pinned
    ensures forall i :: 0 <= i < k ==> lh[i] !in Left(pinned, lh, k)
    ensures NoRepeats(lh) ==> forall i :: k <= i < |lh| && lh[i] in pinned ==> lh[i] in Left(pinned, lh, k)
    ensures |Left(pinned, lh, k)| <= |pinned|
  {
    if k > 0 {
      LeftIs(pinned, lh, k - 1);
    }
  }

  ghost function Elements(lh: seq<nat>): set<nat> {
    set s | s in lh
  }

  lemma {:induction false} ElementsSize(lh: seq<nat>)
    ensures |Elements(lh)| <= |lh|
  {
    if lh != [] {
      var m := |lh| - 1;
      ElementsSize(lh[..m]);
      assert Elements(lh) == Elements(lh[..m]) + {lh[m]};
    }
  }

  /** How the list of logged sectors, the pinned set and the flat map move together in log_write. */
  lemma AfterLogWrite(g: Geometry, lh: seq<nat>, s: nat, b: Block, d: Disk, flat: Disk, pinned: set<nat>)
    returns (d': Disk, flat': Disk)
    requires g.Ok() && LogAgrees(g, lh, d, flat, pinned) && |lh| < g.Capacity() && g.Home(s)
    ensures IndexIn(lh, s) == |lh| ==> Append(lh, s) == lh + [s]
    ensures IndexIn(lh, s) < |lh| ==> Append(lh, s) == lh && lh[IndexIn(lh, s)] == s
    ensures g.start + 1 + IndexIn(lh, s) !in pinned
    ensures d' == d[g.start + 1 + IndexIn(lh, s) := b]
    ensures flat' == flat[g.start + 1 + IndexIn(lh, s) := b][s := b]
    ensures LogAgrees(g, Append(lh, s), d', flat', pinned + {s})
  {
    assert Glance(0);
    var k, lh' := IndexIn(lh, s), Append(lh, s);
    d' := d[g.start + 1 + k := b];
    flat' := flat[g.start + 1 + k := b];
    flat' := flat'[s := b];
    AppendIs(lh, s);
    forall j | 0 <= j < |lh'|
      ensures flat'[lh'[j]] == LogBlock(g, d', j)
    {
      if j != k {
        assert lh'[j] != lh'[k] && lh'[j] == lh[j];
        assert g.Home(lh[j]);
      }
    }
  }

  // ---------------------------------------------------------------- the log machine underneath

  /** From a formatted disk, `evs` lead to `st` and `trace` is the disk after each write on the way. */
  ghost predicate Reached(g: Geometry, disk0: Disk, evs: seq<Event>, trace: seq<Disk>, st: State)
    requires g.Ok() && |disk0| == g.disksize
  {
    forall k {:trigger Peek(k)} :: Peek(k) ==>
      Formatted(g, disk0) && Runs(g, disk0, evs) && Final(g, disk0, evs) == st && trace == Disks(g, disk0, evs)
  }

  lemma ReachedStep(g: Geometry, disk0: Disk, evs: seq<Event>, trace: seq<Disk>, st: State,
                    ev: Event, trace': seq<Disk>, st': State)
    requires g.Ok() && |disk0| == g.disksize && Reached(g, disk0, evs, trace, st)
    requires |st.disk| == g.disksize && Enabled(g, st, ev) && st' == Step(g, st, ev)
    requires trace' == if Writes(st, ev) then trace + [st'.disk] else trace
    ensures Reached(g, disk0, evs + [ev], trace', st')
  {
    assert Peek(0);
    RunExtend(g, disk0, evs, ev);
  }

  lemma BootStep(g: Geometry, disk0: Disk, evs: seq<Event>, trace: seq<Disk>, d: Disk)
    requires g.Ok() && |disk0| == g.disksize && |d| == g.disksize && Reached(g, disk0, evs, trace, State(d, Down))
    ensures HeadOk(g, d)
    ensures Reached(g, disk0, evs + [Boot], trace, State(d, Installing(Head(g, d), 0)))
  {
    assert HeadOk(g, d) by {
      assert Peek(0);
      InvRun(g, disk0, evs);
    }
    ReachedStep(g, disk0, evs, trace, State(d, Down), Boot, trace, State(d, Installing(Head(g, d), 0)));
  }

  lemma CommitStep(g: Geometry, disk0: Disk, evs: seq<Event>, trace: seq<Disk>, d: Disk, lh: seq<nat>, d': Disk)
    requires g.Ok() && |disk0| == g.disksize && |d| == g.disksize && ListOk(g, lh)
    requires Reached(g, disk0, evs, trace, State(d, Active(lh)))
    requires d' == if lh == [] then d else d[g.start := PutHead(d[g.start], lh)]
    ensures Reached(g, disk0, evs + [Commit], if lh == [] then trace else trace + [d'],
                    State(d', if lh == [] then Idle else Installing(lh, 0)))
  {
    ReachedStep(g, disk0, evs, trace, State(d, Active(lh)), Commit, if lh == [] then trace else trace + [d'],
                State(d', if lh == [] then Idle else Installing(lh, 0)));
  }

  lemma ClearStep(g: Geometry, disk0: Disk, evs: seq<Event>, trace: seq<Disk>, d: Disk, lh: seq<nat>, d': Disk)
    requires g.Ok() && |disk0| == g.disksize && |d| == g.disksize
    requires Reached(g, disk0, evs, trace, State(d, Installing(lh, |lh|)))
    requires d' == d[g.start := PutHead(d[g.start], [])]
    ensures Reached(g, disk0, evs + [Clear], trace + [d'], State(d', Idle))
  {
    ReachedStep(g, disk0, evs, trace, State(d, Installing(lh, |lh|)), Clear, trace + [d'], State(d', Idle));
  }

  /** log_write on values: slot k takes the sector, the log block and the flat map follow, and one Write step is made.
      */
  lemma LogWriteStep(g: Geometry, disk0: Disk, evs: seq<Event>, trace: seq<Disk>, disk: Disk, flat: Disk,
                     pinned: set<nat>, sector: seq<nat>, n: nat, s: nat, b: Block)
    returns (k: nat, disk': Disk, flat': Disk, lh': seq<nat>)
    requires g.Ok() && |disk0| == g.disksize && n < |sector| && n < g.Capacity() && g.Home(s)
    requires LogAgrees(g, sector[..n], disk, flat, pinned)
    requires Reached(g, disk0, evs, trace, State(disk, Active(sector[..n])))
    ensures k <= n && k == IndexIn(sector[..n], s) && g.start + 1 + k !in pinned
    ensures disk' == disk[g.start + 1 + k := b] && flat' == flat[g.start + 1 + k := b][s := b]
    ensures lh' == sector[k := s][..if k == n then n + 1 else n]
    ensures LogAgrees(g, lh', disk', flat', pinned + {s})
    ensures Reached(g, disk0, evs + [Write(s, b)], trace + [disk'], State(disk', Active(lh')))
  {
    k := IndexIn(sector[..n], s);
    lh' := Append(sector[..n], s);
    SlotAppend(sector, n, s);
    disk', flat' := AfterLogWrite(g, sector[..n], s, b, disk, flat, pinned);
    ReachedStep(g, disk0, evs, trace, State(disk, Active(sector[..n])), Write(s, b), trace + [disk'],
        State(disk', Active(lh')));
  }

  // ---------------------------------------------------------------- the store

  class Store {
    const g: Geometry
    var disk: Disk
    var buf: seq<Buf>
    var links: Links
    // struct log
    var busy: bool
    var n: nat
    var sector: seq<nat>

    ghost var order: seq<nat>
    ghost var flat: Disk
    ghost var pinned: set<nat>
    ghost const disk0: Disk
    ghost var evs: seq<Event>
    ghost var trace: seq<Disk>

    /** binit, on the disk image a crash left behind after the steps `before`. */
    constructor (g: Geometry, image: Disk, ghost disk0: Disk, ghost before: seq<Event>)
      requires g.Ok() && |disk0| == g.disksize && Formatted(g, disk0)
      requires Runs(g, disk0, before) && Final(g, disk0, before) == State(image, Down)
      ensures this.g == g && disk == image && evs == before && this.disk0 == disk0
      ensures CacheOk() && LogFieldsOk() && !busy && NoneBusy(buf) && pinned == {} && Tracks(Down)
    {
      this.g, this.disk, this.disk0 := g, image, disk0;
      busy, n, sector := false, 0, seq(LOGSIZE, _ => 0);
      buf := seq(NBUF, _ => Buf(false, false, false, NODEV, 0, seq(BSIZE, _ => 0)));
      var l;
      ghost var o;
      l, o := InitLinks();
      links, order := l, o;
      flat, pinned, evs, trace := image, {}, before, Disks(g, disk0, before);
    }

    ghost predicate CacheOk()
      reads this
    {
      && g.Ok() && |disk| == g.disksize && |flat| == g.disksize && |buf| == NBUF
      && forall k {:trigger Look(k)} :: Look(k) ==>
           && Ring(links, order) && |order| == NBUF
           && Coherent(buf, flat, pinned)
           && (forall s :: 0 <= s < |disk| && s !in pinned ==> flat[s] == disk[s])
    }

    /** The disk is where the recorded steps of the log machine leave it, write by write. */
    ghost predicate Tracks(phase: Phase)
      reads this
    {
      && g.Ok() && |disk0| == g.disksize
      && Reached(g, disk0, evs, trace, State(disk, phase))
    }

    ghost predicate LogFieldsOk()
      reads this
    {
      |sector| == LOGSIZE && n <= LOGSIZE
    }

    function Logged(): seq<nat>
      requires n <= |sector|
      reads this
    {
      sector[..n]
    }

    /** Client processes never hold a buffer of the log region. */
    ghost predicate LogRegionReleased()
      reads this
    {
      forall i :: 0 <= i < |buf| && buf[i].busy ==> g.Home(buf[i].sector)
    }

    ghost predicate Valid()
      reads this
    {
      && CacheOk() && LogFieldsOk() && LogRegionReleased()
      && (!busy ==> n == 0)
      && Tracks(if busy then Active(Logged()) else Idle)
      && LogAgrees(g, Logged(), disk, flat, pinned)
    }

    // -------------------------------------------------------------- source/memide.c, source/bio.c

    method Iderw(i: nat) returns (ok: bool)
      requires i < |buf| && |disk| == g.disksize
      modifies this`buf, this`disk, this`trace
      ensures var b := old(buf)[i];
              ok <==> b.busy && (b.dirty || !b.valid) && b.dev == ROOTDEV && b.sector < g.disksize
      ensures !ok ==> unchanged(this)
      ensures ok && old(buf)[i].dirty ==>
              && buf == old(buf)[i := old(buf)[i].(dirty := false, valid := true)]
              && disk == old(disk)[buf[i].sector := buf[i].data] && trace == old(trace) + [disk]
      ensures ok && !old(buf)[i].dirty ==>
              && disk == old(disk) && trace == old(trace)
              && buf == old(buf)[i := old(buf)[i].(valid := true, data := disk[old(buf)[i].sector])]
    {
      var b := buf[i];
      if !b.busy || (b.valid && !b.dirty) || b.dev != ROOTDEV || b.sector >= |disk| {
        return false;
      }
      if b.dirty {
        disk := disk[b.sector := b.data];
        trace := trace + [disk];
        buf := buf[i := b.(dirty := false, valid := true)];
      } else {
        buf := buf[i := b.(valid := true, data := disk[b.sector])];
      }
      ok := true;
    }

    /** One pass of bget's loop: the cached buffer, or the least recently used clean one. */
    method Bget(s: nat) returns (r: GetResult)
      requires CacheOk()
      modifies this`buf
      ensures r.Got? ==>
              && r.i < NBUF && !old(buf)[r.i].busy
              && if old(buf)[r.i].Holds(s) then buf == old(buf)[r.i := old(buf)[r.i].(busy := true)]
                 else
                   && !old(buf)[r.i].dirty && NoneHolds(old(buf), s)
                   && buf == old(buf)[r.i := Buf(true, false, false, ROOTDEV, s, old(buf)[r.i].data)]
                   && LastUsable(order, old(buf), r.i)
      ensures r.MustSleep? ==> r.i < NBUF && buf == old(buf) && buf[r.i].Holds(s) && buf[r.i].busy
      ensures r.Panic? ==> buf == old(buf) && NoneHolds(buf, s) && NoneUsable(buf)
    {
      assert Look(0);
      ghost var k := 0;
      assert At(order, -1) == HEAD;
      var b := links.next[HEAD];
      while b != HEAD
        invariant 0 <= k <= NBUF && b == At(order, k)
        invariant forall j :: 0 <= j < k ==> !buf[order[j]].Holds(s)
        invariant buf == old(buf)
        decreases NBUF - k
      {
        if buf[b].Holds(s) {
          if !buf[b].busy {
            buf := buf[b := buf[b].(busy := true)];
            return Got(b);
          }
          return MustSleep(b);
        }
        b := links.next[b];
        k := k + 1;
      }
      assert NoneHolds(buf, s) by {
        forall i | 0 <= i < NBUF ensures !buf[i].Holds(s) { Covers(order, NBUF, i); }
      }
      k := NBUF - 1;
      assert At(order, NBUF) == HEAD;
      b := links.prev[HEAD];
      while b != HEAD
        invariant -1 <= k < NBUF && b == At(order, k)
        invariant forall j :: k < j < NBUF ==> buf[order[j]].busy || buf[order[j]].dirty
        invariant buf == old(buf)
        decreases k
      {
        if !buf[b].busy && !buf[b].dirty {
          buf := buf[b := Buf(true, false, false, ROOTDEV, s, buf[b].data)];
          assert order[k] == b;
          return Got(b);
        }
        b := links.prev[b];
        k := k - 1;
      }
      forall i | 0 <= i < NBUF
        ensures buf[i].busy || buf[i].dirty
      {
        Covers(order, NBUF, i);
      }
      return Panic;
    }

    /** A buffer holding the flat map's contents of the sector, whatever was evicted before. */
    method Bread(s: nat) returns (r: GetResult)
      requires CacheOk()
      modifies this`buf, this`disk, this`trace
      ensures disk == old(disk) && trace == old(trace)
      ensures r.Got? ==>
              && CacheOk() && r.i < NBUF && !old(buf)[r.i].busy
              && s < |flat| && buf == old(buf)[r.i := Buf(true, true, s in pinned, ROOTDEV, s, flat[s])]
              && (s !in pinned ==> flat[s] == disk[s])
      ensures r.MustSleep? ==> r.i < NBUF && buf == old(buf) && buf[r.i].Holds(s) && buf[r.i].busy
      ensures r.Panic? ==> s >= g.disksize || (NoneHolds(old(buf), s) && NoneUsable(old(buf)))
    {
      assert Look(0);
      r := Bget(s);
      if !r.Got? { return; }
      var i := r.i;
      if buf[i].valid {
        KeepBusy(old(buf), buf, i, flat, pinned);
      } else {
        assert !old(buf)[i].Holds(s) by { assert BufOk(old(buf)[i], flat, pinned); }
        assert s !in pinned;
        var ok := Iderw(i);
        if !ok { return Panic; }
        Replaced(old(buf), buf, i, flat, pinned);
      }
    }

    method Bwrite(i: nat) returns (ok: bool)
      requires CacheOk() && i < NBUF
      modifies this`buf, this`disk, this`trace, this`flat, this`pinned
      ensures ok == old(buf)[i].busy
      ensures !ok ==> unchanged(this)
      ensures ok ==>
              && CacheOk()
              && var b := old(buf)[i];
                 && b.sector < |old(disk)| && disk == old(disk)[b.sector := b.data] && trace == old(trace) + [disk]
                 && flat == old(flat)[b.sector := b.data] && pinned == old(pinned) - {b.sector}
                 && buf == old(buf)[i := b.(dirty := false)]
    {
      if !buf[i].busy { return false; }
      assert Look(0);
      assert BufOk(buf[i], flat, pinned);
      ghost var b := buf[i];
      buf := buf[i := buf[i].(dirty := true)];
      ok := Iderw(i);
      flat := flat[b.sector := b.data];
      pinned := pinned - {b.sector};
      assert buf == old(buf)[i := b.(dirty := false)];
      Written(old(buf), i, old(flat), old(pinned));
    }

    /** The caller must hand back what the flat map says: an unmodified buffer, or one just logged. */
    method Brelse(i: nat) returns (ok: bool)
      requires CacheOk() && i < NBUF
      requires buf[i].busy ==> buf[i].sector < |flat| && buf[i].data == flat[buf[i].sector]
      modifies this`buf, this`links, this`order
      ensures ok == old(buf)[i].busy
      ensures !ok ==> unchanged(this)
      ensures ok ==> CacheOk() && buf == old(buf)[i := old(buf)[i].(busy := false)]
      ensures ok ==> |order| > 0 && order[0] == i && multiset(order) == multiset(old(order))
      ensures ok ==> exists j :: 0 <= j < |old(order)| && old(order)[j] == i && order == [i] + Without(old(order), j)
    {
      if !buf[i].busy { return false; }
      assert Look(0);
      Covers(order, NBUF, i);
      ghost var j :| 0 <= j < |order| && order[j] == i;
      links, order := Released(links, order, i, j);
      buf := buf[i := buf[i].(busy := false)];
      Replaced(old(buf), buf, i, flat, pinned);
      ok := true;
    }

    // -------------------------------------------------------------- source/log.c

    /** Appends the buffer's block to the log, or replaces its earlier copy there, and pins the buffer. */
    method LogWrite(i: nat) returns (ok: bool)
      requires Valid() && i < NBUF && buf[i].busy && g.Home(buf[i].sector)
      modifies this
      ensures !ok ==> disk == old(disk) && evs == old(evs) && trace == old(trace)
      ensures old(busy) && old(n) < g.Capacity() && !NoneUsable(old(buf)) ==> ok
      ensures ok ==>
              && Valid() && busy && old(busy) && old(n) < g.Capacity()
              && evs == old(evs) + [Write(old(buf)[i].sector, old(buf)[i].data)]
              && HeldSame(old(buf)[i := old(buf)[i].(dirty := true)], buf) && pinned == old(pinned) + {buf[i].sector}
              && g.start + 1 + IndexIn(old(Logged()), buf[i].sector) < |flat| && buf[i].sector < |flat|
              && flat == old(flat)[g.start + 1 + IndexIn(old(Logged()),
                  buf[i].sector) := buf[i].data][buf[i].sector := buf[i].data]
    {
      if n >= LOGSIZE || n >= g.nlog - 1 { return false; }
      if !busy { return false; }
      ok := LogSector(i);
    }

    /** log_write past its two panics. */
    method LogSector(i: nat) returns (ok: bool)
      requires Valid() && busy && n < g.Capacity() && i < NBUF && buf[i].busy && g.Home(buf[i].sector)
      modifies this`sector, this`n, this`buf, this`disk, this`trace, this`flat, this`pinned, this`links, this`order,
          this`evs
      ensures !ok ==> disk == old(disk) && evs == old(evs) && trace == old(trace) && NoneUsable(old(buf))
      ensures ok ==>
              && Valid() && busy
              && evs == old(evs) + [Write(old(buf)[i].sector, old(buf)[i].data)]
              && HeldSame(old(buf)[i := old(buf)[i].(dirty := true)], buf) && pinned == old(pinned) + {buf[i].sector}
              && g.start + 1 + IndexIn(old(Logged()), buf[i].sector) < |flat| && buf[i].sector < |flat|
              && flat == old(flat)[g.start + 1 + IndexIn(old(Logged()),
                  buf[i].sector) := buf[i].data][buf[i].sector := buf[i].data]
    {
      var k := FindSector(n, sector, buf[i].sector);
      ghost var b := buf[i];
      ghost var kk, disk', flat', lh' := LogWriteStep(g, disk0, evs, trace, disk, flat, pinned, sector, n, b.sector,
                    b.data);
      ok := LogAppend(i, k);
      if !ok { return; }
      assert Logged() == lh' && disk == disk' && flat == flat' && pinned == old(pinned) + {b.sector}
             && trace == old(trace) + [disk'];
      evs := evs + [Write(b.sector, b.data)];
    }

    /** The rest of log_write, once slot k for the sector is known. */
    method LogAppend(i: nat, k: nat) returns (ok: bool)
      requires CacheOk() && LogFieldsOk() && LogRegionReleased() && i < NBUF && buf[i].busy
      requires k <= n < LOGSIZE && n < g.nlog - 1 && g.start + 1 + k !in pinned
      modifies this`sector, this`n, this`buf, this`disk, this`trace, this`flat, this`pinned, this`links, this`order
      ensures !ok ==> disk == old(disk) && trace == old(trace) && NoneUsable(old(buf))
      ensures ok ==>
              && CacheOk() && LogFieldsOk() && LogRegionReleased()
              && HeldSame(old(buf)[i := old(buf)[i].(dirty := true)], buf)
              && sector == old(sector)[k := buf[i].sector] && n == (if k == old(n) then k + 1 else old(n))
              && disk == old(disk)[g.start + 1 + k := buf[i].data] && trace == old(trace) + [disk]
              && buf[i].sector < |flat| && flat == old(flat)[g.start + 1 + k := buf[i].data][buf[i].sector := buf[i].data]
              && pinned == old(pinned) + {buf[i].sector}
    {
      sector := sector[k := buf[i].sector];
      ok := LogBlockStore(i, k);
      if !ok { return; }
      if k == n { n := n + 1; }
      Pin(i);
    }

    /** b->flags |= B_DIRTY */
    method Pin(i: nat)
      requires CacheOk() && i < NBUF && buf[i].busy
      modifies this`buf, this`flat, this`pinned
      ensures CacheOk() && buf == old(buf)[i := old(buf)[i].(dirty := true)]
      ensures var s := buf[i].sector;
                s < |old(flat)| && flat == old(flat)[s := buf[i].data] && pinned == old(pinned) + {s}
    {
      assert Look(0);
      Pinned(buf, i, flat, pinned);
      flat := flat[buf[i].sector := buf[i].data];
      pinned := pinned + {buf[i].sector};
      buf := buf[i := buf[i].(dirty := true)];
    }

    /** memmove into a held buffer followed by bwrite. */
    method Overwrite(i: nat, data: Block)
      requires CacheOk() && i < NBUF && buf[i].busy
      modifies this`buf, this`disk, this`trace, this`flat, this`pinned
      ensures CacheOk()
      ensures var s := old(buf)[i].sector;
              && s < |old(disk)| && disk == old(disk)[s := data] && trace == old(trace) + [disk]
              && flat == old(flat)[s := data] && pinned == old(pinned) - {s}
              && buf == old(buf)[i := old(buf)[i].(dirty := false, data := data)]
    {
      assert Look(0);
      assert BufOk(buf[i], flat, pinned);
      buf := buf[i := buf[i].(data := data)];
      Replaced(old(buf), buf, i, flat, pinned);
      var ok := Bwrite(i);
    }

    method OverwriteRelease(i: nat, data: Block)
      requires CacheOk() && i < NBUF && buf[i].busy
      modifies this`buf, this`disk, this`trace, this`flat, this`pinned, this`links, this`order
      ensures CacheOk()
      ensures var s := old(buf)[i].sector;
              && s < |old(disk)| && disk == old(disk)[s := data] && trace == old(trace) + [disk]
              && flat == old(flat)[s := data] && pinned == old(pinned) - {s}
              && buf == old(buf)[i := old(buf)[i].(dirty := false, data := data, busy := false)]
    {
      Overwrite(i, data);
      var ok := Brelse(i);
    }

    /** bread of log block k, copy, bwrite, brelse. */
    method LogBlockStore(i: nat, k: nat) returns (ok: bool)
      requires CacheOk() && LogRegionReleased() && i < NBUF && buf[i].busy && k < g.nlog - 1
      requires g.start + 1 + k !in pinned
      modifies this`buf, this`disk, this`trace, this`flat, this`pinned, this`links, this`order
      ensures !ok ==> disk == old(disk) && trace == old(trace) && NoneUsable(old(buf))
      ensures ok ==>
              && CacheOk() && HeldSame(old(buf), buf) && pinned == old(pinned)
              && disk == old(disk)[g.start + 1 + k := buf[i].data] && trace == old(trace) + [disk]
              && flat == old(flat)[g.start + 1 + k := buf[i].data]
    {
      var r := Bread(g.start + k + 1);
      if !r.Got? { return false; }
      OverwriteRelease(r.i, buf[i].data);
      ok := true;
    }

    method WriteHead() returns (ok: bool)
      requires CacheOk() && LogFieldsOk() && LogRegionReleased() && g.start !in pinned
      requires forall k :: 0 <= k < n ==> sector[k] < 0x8000_0000
      modifies this`buf, this`disk, this`trace, this`flat, this`pinned, this`links, this`order
      ensures !ok ==> disk == old(disk) && trace == old(trace) && NoneUsable(old(buf))
      ensures ok ==>
              && CacheOk() && HeldSame(old(buf), buf) && pinned == old(pinned)
              && disk == old(disk)[g.start := PutHead(old(disk)[g.start], Logged())] && trace == old(trace) + [disk]
              && flat == old(flat)[g.start := disk[g.start]]
    {
      var r := Bread(g.start);
      if !r.Got? { return false; }
      var hb := FillHead(buf[r.i].data, n, sector);
      OverwriteRelease(r.i, hb);
      ok := true;
    }

    /** The copying in one round of install_trans: log block k over its home sector. */
    method CopyHome(k: nat) returns (ok: bool)
      requires CacheOk() && LogFieldsOk() && LogRegionReleased()
      requires k < n && k < g.nlog - 1 && g.Home(sector[k]) && g.start + 1 + k !in pinned
      requires forall j :: 0 <= j < NBUF && buf[j].busy ==> buf[j].sector != sector[k]
      modifies this`buf, this`disk, this`trace, this`flat, this`pinned, this`links, this`order
      ensures !ok ==> disk == old(disk) && trace == old(trace)
      ensures NoneBusy(old(buf)) && |old(pinned)| < NBUF && (old(pinned) == {} || sector[k] in old(pinned)) ==> ok
      ensures ok ==>
              && CacheOk() && HeldSame(old(buf), buf) && pinned == old(pinned) - {sector[k]}
              && disk == old(disk)[sector[k] := old(disk)[g.start + 1 + k]] && trace == old(trace) + [disk]
              && flat == old(flat)[sector[k] := old(flat)[g.start + 1 + k]]
    {
      var l, d;
      ok, l, d := ReadPair(g.start + k + 1, sector[k]);
      if !ok { return; }
      Overwrite(d, buf[l].data);
      ReleaseBoth(l, d);
    }

    /** Two sectors read and held at once. */
    method ReadPair(s: nat, t: nat) returns (ok: bool, l: nat, d: nat)
      requires CacheOk() && s < g.disksize && t < g.disksize && s != t && s !in pinned
      requires forall j :: 0 <= j < NBUF && buf[j].busy ==> buf[j].sector != s && buf[j].sector != t
      modifies this`buf, this`disk, this`trace
      ensures disk == old(disk) && trace == old(trace)
      ensures NoneBusy(old(buf)) && |pinned| < NBUF && (pinned == {} || t in pinned) ==> ok
      ensures ok ==>
              && CacheOk() && l < NBUF && d < NBUF && l != d && !old(buf)[l].busy && !old(buf)[d].busy
              && flat[s] == disk[s]
              && buf == old(buf)[l := Buf(true, true, false, ROOTDEV, s, flat[s])][d := Buf(true, true, t in pinned,
                  ROOTDEV, t, flat[t])]
    {
      l, d := 0, 0;
      assert NoneBusy(buf) && |pinned| < NBUF ==> !NoneUsable(buf) by {
        if NoneBusy(buf) && |pinned| < NBUF {
          assert Look(0);
          var c := CleanBuffer(buf, flat, pinned);
        }
      }
      var r := Bread(s);
      if !r.Got? { return false, 0, 0; }
      l := r.i;
      assert NoneBusy(old(buf)) && (pinned == {} || t in pinned) ==> !(NoneHolds(buf, t) && NoneUsable(buf)) by {
        assert Look(0);
        if NoneBusy(old(buf)) && (pinned == {} || t in pinned) {
          SecondFits(buf, flat, pinned, l, t);
        }
      }
      r := Bread(t);
      if !r.Got? { return false, 0, 0; }
      d := r.i;
      ok := true;
    }

    method ReleaseBoth(l: nat, d: nat)
      requires CacheOk() && l < NBUF && d < NBUF && l != d && buf[l].busy && buf[d].busy
      requires buf[l].sector < |flat| && buf[l].data == flat[buf[l].sector]
      requires buf[d].sector < |flat| && buf[d].data == flat[buf[d].sector]
      modifies this`buf, this`links, this`order
      ensures CacheOk() && buf == old(buf)[l := old(buf)[l].(busy := false)][d := old(buf)[d].(busy := false)]
    {
      var ok := Brelse(l);
      ok := Brelse(d);
    }

    /** One round of install_trans is one Install step. */
    method InstallOne(k: nat) returns (ok: bool)
      requires CacheOk() && LogFieldsOk() && LogRegionReleased()
      requires k < n && ListOk(g, Logged()) && Tracks(Installing(Logged(), k))
      requires forall s :: s in pinned ==> g.Home(s)
      requires forall j :: 0 <= j < NBUF && buf[j].busy ==> buf[j].sector != sector[k]
      modifies this`buf, this`disk, this`trace, this`flat, this`pinned, this`links, this`order, this`evs
      ensures !ok ==> disk == old(disk) && trace == old(trace) && evs == old(evs)
      ensures NoneBusy(old(buf)) && |old(pinned)| < NBUF && (old(pinned) == {} || sector[k] in old(pinned)) ==> ok
      ensures ok ==>
              && CacheOk() && HeldSame(old(buf), buf) && pinned == old(pinned) - {sector[k]}
              && evs == old(evs) + [Install] && Tracks(Installing(Logged(), k + 1))
              && flat == old(flat)[sector[k] := old(flat)[g.start + 1 + k]]
    {
      assert g.Home(Logged()[k]);
      ok := CopyHome(k);
      if !ok { return; }
      ReachedStep(g, disk0, evs, old(trace), State(old(disk), Installing(Logged(), k)), Install, trace,
          State(disk, Installing(Logged(), k + 1)));
      evs := evs + [Install];
    }

    /** A round of install_trans in the middle of its loop, relative to where the loop began. */
    method InstallNth(k: nat, ghost pinned0: set<nat>, ghost buf0: seq<Buf>, ghost evs0: seq<Event>) returns (ok: bool)
      requires CacheOk() && LogFieldsOk() && HeldSame(buf0, buf)
      requires k < n && ListOk(g, Logged()) && Tracks(Installing(Logged(), k))
      requires pinned0 <= Elements(Logged()) && pinned == Left(pinned0, Logged(), k)
      requires forall j :: 0 <= j < |buf0| && buf0[j].busy ==> g.Home(buf0[j].sector) && buf0[j].sector !in Logged()
      requires evs == evs0 + Repeat(Install, k)
      modifies this`buf, this`disk, this`trace, this`flat, this`pinned, this`links, this`order, this`evs
      ensures !ok ==> evs == old(evs) && Tracks(Installing(Logged(), k))
      ensures NoneBusy(buf0) && (pinned0 == {} || (pinned0 == Elements(Logged()) && n < NBUF)) ==> ok
      ensures ok ==>
              && CacheOk() && HeldSame(buf0, buf) && pinned == Left(pinned0, Logged(), k + 1)
              && evs == evs0 + Repeat(Install, k + 1) && Tracks(Installing(Logged(), k + 1))
    {
      LeftIs(pinned0, Logged(), k);
      ElementsSize(Logged());
      assert sector[k] == Logged()[k];
      assert Repeat(Install, k) + [Install] == Repeat(Install, k + 1);
      ok := InstallOne(k);
    }

    /** install_trans; m counts the blocks it copied, all of them unless the cache ran out of buffers. */
    method InstallTrans() returns (ok: bool, ghost m: nat)
      requires CacheOk() && LogFieldsOk() && LogRegionReleased()
      requires ListOk(g, Logged()) && Tracks(Installing(Logged(), 0))
      requires pinned <= Elements(Logged())
      requires forall j :: 0 <= j < NBUF && buf[j].busy ==> buf[j].sector !in Logged()
      modifies this`buf, this`disk, this`trace, this`flat, this`pinned, this`links, this`order, this`evs
      ensures NoneBusy(old(buf)) && (old(pinned) == {} || (old(pinned) == Elements(Logged()) && n < NBUF)) ==> ok
      ensures m <= n && evs == old(evs) + Repeat(Install, m) && Tracks(Installing(Logged(), m))
      ensures ok ==> m == n && CacheOk() && HeldSame(old(buf), buf) && pinned == {}
    {
      ghost var lh := Logged();
      var tail := 0;
      while tail < n
        invariant 0 <= tail <= n
        invariant CacheOk() && HeldSame(old(buf), buf)
        invariant pinned == Left(old(pinned), lh, tail)
        invariant evs == old(evs) + Repeat(Install, tail) && Tracks(Installing(lh, tail))
      {
        m := tail;
        ok := InstallNth(tail, old(pinned), old(buf), old(evs));
        if !ok { return; }
        tail := tail + 1;
      }
      LeftIs(old(pinned), lh, n);
      ok, m := true, n;
    }

    lemma SomeUsable()
      requires CacheOk() && NoneBusy(buf) && |pinned| < NBUF
      ensures !NoneUsable(buf)
    {
      assert Look(0);
      var c := CleanBuffer(buf, flat, pinned);
    }

    /** install_trans(); log.lh.n = 0; write_head(); as both recovery and commit end.  `at` is where a panic stops. */
    method InstallAndClear() returns (ok: bool, ghost at: Phase)
      requires CacheOk() && LogFieldsOk() && LogRegionReleased()
      requires ListOk(g, Logged()) && Tracks(Installing(Logged(), 0))
      requires pinned <= Elements(Logged())
      requires forall j :: 0 <= j < NBUF && buf[j].busy ==> buf[j].sector !in Logged()
      modifies this`n, this`buf, this`disk, this`trace, this`flat, this`pinned, this`links, this`order, this`evs
      ensures NoneBusy(old(buf)) && (old(pinned) == {} || (old(pinned) == Elements(old(Logged())) && old(n) < NBUF)) ==> ok
      ensures old(evs) <= evs && Tracks(at)
      ensures ok ==>
              && at == Idle && CacheOk() && LogFieldsOk() && HeldSame(old(buf), buf) && n == 0 && pinned == {}
              && evs == old(evs) + Repeat(Install, old(n)) + [Clear]
    {
      ghost var lh := Logged();
      ghost var m;
      ok, m := InstallTrans();
      at := Installing(lh, m);
      if !ok { return; }
      n := 0;
      if NoneBusy(buf) { SomeUsable(); }
      ghost var d, tr := disk, trace;
      ok := WriteHead();
      if !ok { return; }
      assert Logged() == [];
      ClearStep(g, disk0, evs, tr, d, lh, disk);
      evs := evs + [Clear];
      at := Idle;
    }

    method ReadHead() returns (ok: bool)
      requires CacheOk() && LogFieldsOk() && LogRegionReleased() && g.start !in pinned && HeadOk(g, disk)
      modifies this`n, this`sector, this`buf, this`disk, this`trace, this`links, this`order
      ensures disk == old(disk) && trace == old(trace)
      ensures !NoneUsable(old(buf)) ==> ok
      ensures ok ==> CacheOk() && LogFieldsOk() && HeldSame(old(buf), buf) && Logged() == Head(g, disk)
    {
      var r := Bread(g.start);
      if !r.Got? { return false; }
      n, sector := CopyHead(buf[r.i].data, sector);
      ok := Brelse(r.i);
    }

    /** recover_from_log on a cache as binit leaves it: k blocks installed, and it never panics. */
    method Recover() returns (ok: bool, ghost k: nat)
      requires CacheOk() && LogFieldsOk() && !busy && NoneBusy(buf) && pinned == {} && Tracks(Down)
      modifies this`n, this`sector, this`buf, this`disk, this`trace, this`flat, this`pinned, this`links, this`order,
          this`evs
      ensures ok && Valid()
      ensures evs == old(evs) + [Boot] + Repeat(Install, k) + [Clear]
    {
      BootStep(g, disk0, evs, trace, disk);
      SomeUsable();
      ok := ReadHead();
      k := n;
      evs := evs + [Boot];
      ghost var at;
      ok, at := InstallAndClear();
      EmptyAgrees(g, disk, flat);
    }

    /** Returns false where the source goes to sleep on the log. */
    method BeginTrans() returns (begun: bool)
      requires Valid()
      modifies this`busy, this`evs
      ensures begun == !old(busy) && Valid() && busy
      ensures begun ==> evs == old(evs) + [Begin] && Logged() == []
      ensures !begun ==> evs == old(evs)
    {
      if busy { return false; }
      busy := true;
      assert Logged() == [];
      ReachedStep(g, disk0, evs, trace, State(disk, Idle), Begin, trace, State(disk, Active([])));
      evs := evs + [Begin];
      begun := true;
    }

    /** commit_trans.  Never panics for a sole user of the cache with at most nine logged sectors. */
    method CommitTrans() returns (ok: bool, ghost at: Phase)
      requires Valid() && busy
      requires forall j :: 0 <= j < NBUF && buf[j].busy ==> buf[j].sector !in Logged()
      modifies this`busy, this`n, this`buf, this`disk, this`trace, this`flat, this`pinned, this`links, this`order,
          this`evs
      ensures NoneBusy(old(buf)) && old(n) < NBUF ==> ok
      ensures old(evs) <= evs && Tracks(at)
      ensures ok ==>
              && Valid() && !busy && HeldSame(old(buf), buf)
              && evs == old(evs) + [Commit] + if old(n) == 0 then [] else Repeat(Install, old(n)) + [Clear]
    {
      assert ListOk(g, Logged()) && pinned == Elements(Logged()) by { assert Glance(0); }
      if n > 0 {
        ok, at := CommitLogged();
        if !ok { return; }
      } else {
        CommitStep(g, disk0, evs, trace, disk, Logged(), disk);
        evs := evs + [Commit];
        at := Idle;
      }
      EmptyAgrees(g, disk, flat);
      assert Logged() == [];
      busy := false;
      ok := true;
    }

    method CommitLogged() returns (ok: bool, ghost at: Phase)
      requires CacheOk() && LogFieldsOk() && LogRegionReleased()
      requires n > 0 && ListOk(g, Logged()) && pinned == Elements(Logged()) && Tracks(Active(Logged()))
      requires forall j :: 0 <= j < NBUF && buf[j].busy ==> buf[j].sector !in Logged()
      modifies this`n, this`buf, this`disk, this`trace, this`flat, this`pinned, this`links, this`order, this`evs
      ensures NoneBusy(old(buf)) && old(n) < NBUF ==> ok
      ensures old(evs) <= evs && Tracks(at)
      ensures ok ==>
              && at == Idle && CacheOk() && LogFieldsOk() && HeldSame(old(buf), buf) && n == 0 && pinned == {}
              && evs == old(evs) + [Commit] + (Repeat(Install, old(n)) + [Clear])
    {
      at := Active(Logged());
      ok := CommitHead();
      if !ok { return; }
      ok, at := InstallAndClear();
    }

    /** The first write_head of commit_trans: the commit point. */
    method CommitHead() returns (ok: bool)
      requires CacheOk() && LogFieldsOk() && LogRegionReleased()
      requires n > 0 && ListOk(g, Logged()) && pinned == Elements(Logged()) && Tracks(Active(Logged()))
      modifies this`buf, this`disk, this`trace, this`flat, this`pinned, this`links, this`order, this`evs
      ensures NoneBusy(old(buf)) && n < NBUF ==> ok
      ensures !ok ==> evs == old(evs) && Tracks(Active(Logged()))
      ensures ok ==>
              && CacheOk() && HeldSame(old(buf), buf) && pinned == old(pinned)
              && evs == old(evs) + [Commit] && Tracks(Installing(Logged(), 0))
    {
      ghost var d, tr := disk, trace;
      ElementsSize(Logged());
      if NoneBusy(buf) && n < NBUF { SomeUsable(); }
      ok := WriteHead();
      if !ok { return; }
      CommitStep(g, disk0, evs, tr, d, Logged(), disk);
      evs := evs + [Commit];
    }
  }

  lemma EmptyAgrees(g: Geometry, disk: Disk, flat: Disk)
    requires g.Ok() && |disk| == |flat| == g.disksize
    ensures LogAgrees(g, [], disk, flat, {})
  {
  }

  /** log_write's search for an earlier entry of the sector. */
  method FindSector(n: nat, sector: seq<nat>, s: nat) returns (k: nat)
    requires n <= |sector|
    ensures k == IndexIn(sector[..n], s)
  {
    k := 0;
    while k < n && sector[k] != s
      invariant 0 <= k <= n
      invariant IndexIn(sector[..n], s) == IndexFrom(sector[..n], s, k)
    {
      k := k + 1;
    }
  }

  /** read_head's loop: the header block's count and that many sector numbers. */
  method CopyHead(b: Block, sector: seq<nat>) returns (n: nat, sector': seq<nat>)
    requires |sector| == LOGSIZE && Word(b, 0) <= LOGSIZE
    ensures n <= LOGSIZE == |sector'| && sector'[..n] == GetHead(b)
  {
    n, sector' := Word(b, 0), sector;
    var i := 0;
    while i < n
      invariant 0 <= i <= n && |sector'| == LOGSIZE
      invariant forall j :: 0 <= j < i ==> sector'[j] == GetHead(b)[j]
    {
      sector' := sector'[i := Word(b, 1 + i)];
      i := i + 1;
    }
  }

  /** write_head's loop over the in-memory header. */
  method FillHead(b: Block, n: nat, sector: seq<nat>) returns (hb: Block)
    requires n <= LOGSIZE == |sector| && forall k :: 0 <= k < n ==> sector[k] < 0x8000_0000
    ensures hb == PutHead(b, sector[..n])
  {
    hb := PutWord(b, 0, n);
    var k := 0;
    while k < n
      invariant 0 <= k <= n
      invariant hb == PutWords(PutWord(b, 0, n), 1, sector[..k])
    {
      hb := PutWord(hb, 1 + k, sector[k]);
      k := k + 1;
      assert sector[..k][..k - 1] == sector[..k - 1];
    }
  }

  /** binit's loop: every buffer linked in at the front in turn. */
  method InitLinks() returns (links: Links, ghost order: seq<nat>)
    ensures Ring(links, order) && |order| == NBUF
  {
    links, order := Links(seq(NBUF + 1, _ => HEAD), seq(NBUF + 1, _ => HEAD)), [];
    var b := 0;
    while b < NBUF
      invariant 0 <= b <= NBUF && Ring(links, order) && |order| == b
      invariant forall i :: 0 <= i < |order| ==> order[i] < b
    {
      LinkFirstIs(links, order, b);
      links, order := LinkFirst(links, b), [b] + order;
      b := b + 1;
    }
  }

  /** brelse's relinking of buffer order[j]. */
  method Released(links: Links, ghost order: seq<nat>, b: nat, ghost j: nat) returns (links': Links,
                  ghost order': seq<nat>)
    requires Ring(links, order) && j < |order| && order[j] == b
    ensures order' == [b] + Without(order, j) && Ring(links', order')
    ensures multiset(order') == multiset(order)
  {
    MoveFirstIs(links, order, j);
    links' := Unlink(links, b);
    links' := LinkFirst(links', b);
    order' := [b] + Without(order, j);
  }

  lemma KeepBusy(buf: seq<Buf>, buf': seq<Buf>, i: nat, flat: Disk, pinned: set<nat>)
    requires Coherent(buf, flat, pinned) && i < |buf| && buf[i].dev == ROOTDEV
    requires buf' == buf[i := buf[i].(busy := true)]
    ensures Coherent(buf', flat, pinned)
  {
    Replaced(buf, buf', i, flat, pinned);
  }

  /** Changing one buffer keeps the cache coherent if that buffer is fine and displaces no pinned sector. */
  lemma Replaced(buf: seq<Buf>, buf': seq<Buf>, i: nat, flat: Disk, pinned: set<nat>)
    requires Coherent(buf, flat, pinned) && i < |buf|
    requires |buf'| == |buf| && buf' == buf[i := buf'[i]] && BufOk(buf'[i], flat, pinned)
    requires buf'[i].dev == ROOTDEV
    requires buf[i].Holds(buf'[i].sector) || (!buf[i].dirty && NoneHolds(buf, buf'[i].sector))
    ensures Coherent(buf', flat, pinned)
  {
    forall s | s in pinned
      ensures exists j :: 0 <= j < |buf'| && buf'[j].Holds(s)
    {
      var j :| 0 <= j < |buf| && buf[j].Holds(s);
      assert BufOk(buf[j], flat, pinned);
      assert buf'[j].Holds(s);
    }
  }

  /** log_write's last step: the buffer becomes dirty, so its sector is pinned at the buffer's contents. */
  lemma Pinned(buf: seq<Buf>, i: nat, flat: Disk, pinned: set<nat>)
    requires Coherent(buf, flat, pinned) && i < |buf| && buf[i].busy
    ensures buf[i].sector < |flat|
    ensures Coherent(buf[i := buf[i].(dirty := true)], flat[buf[i].sector := buf[i].data], pinned + {buf[i].sector})
  {
    var s := buf[i].sector;
    assert BufOk(buf[i], flat, pinned);
    var buf', flat', pinned' := buf[i := buf[i].(dirty := true)], flat[s := buf[i].data], pinned + {s};
    forall j | 0 <= j < |buf'|
      ensures BufOk(buf'[j], flat', pinned')
    {
      assert BufOk(buf[j], flat, pinned);
    }
    forall t | t in pinned'
      ensures exists j :: 0 <= j < |buf'| && buf'[j].Holds(t)
    {
      if t == s {
        assert buf'[i].Holds(t);
      } else {
        var j :| 0 <= j < |buf| && buf[j].Holds(t);
        assert buf'[j].Holds(t);
      }
    }
  }

  lemma Written(buf: seq<Buf>, i: nat, flat: Disk, pinned: set<nat>)
    requires Coherent(buf, flat, pinned) && i < |buf| && buf[i].busy
    ensures buf[i].sector < |flat|
    ensures Coherent(buf[i := buf[i].(dirty := false)], flat[buf[i].sector := buf[i].data], pinned - {buf[i].sector})
  {
    var s := buf[i].sector;
    assert BufOk(buf[i], flat, pinned);
    var buf', flat', pinned' := buf[i := buf[i].(dirty := false)], flat[s := buf[i].data], pinned - {s};
    forall j | 0 <= j < |buf'|
      ensures BufOk(buf'[j], flat', pinned')
    {
      assert BufOk(buf[j], flat, pinned);
    }
    forall t | t in pinned'
      ensures exists j :: 0 <= j < |buf'| && buf'[j].Holds(t)
    {
      var j :| 0 <= j < |buf| && buf[j].Holds(t);
      assert buf'[j].Holds(t);
    }
  }

  // ---------------------------------------------------------------- what the store stands for

  /** Between operations the flat map, which is what every bread returns, is the atomic store's visible contents. */
  lemma FlatIsSpec(st: Store)
    requires st.Valid()
    ensures |SpecExec(Spec(st.disk0, None), st.evs).contents| == st.g.disksize == |st.flat|
    ensures forall s :: st.g.Home(s) ==> st.flat[s] == Visible(SpecExec(Spec(st.disk0, None), st.evs), s)
  {
    assert Look(0) && Peek(0) && Glance(0);
    InvRun(st.g, st.disk0, st.evs);
    var lh := st.Logged();
    forall s | st.g.Home(s)
      ensures st.flat[s] == Visible(SpecExec(Spec(st.disk0, None), st.evs), s)
    {
      if s in lh {
        var k :| 0 <= k < |lh| && lh[k] == s;
        assert st.flat[lh[k]] == LogBlock(st.g, st.disk, k);
      }
    }
  }

  /** Every disk image the code has written so far recovers to a state of the atomic store on the way here. */
  lemma StoreCrashSafe(st: Store, phase: Phase, j: nat) returns (m: nat)
    requires st.Tracks(phase) && j < |st.trace|
    ensures m <= |st.evs| && |st.trace[j]| == st.g.disksize && HeadOk(st.g, st.trace[j])
    ensures SameHome(st.g, Recovered(st.g, st.trace[j]), SpecExec(Spec(st.disk0, None), st.evs[..m]).contents)
  {
    assert Peek(0);
    m := EveryImageRecovers(st.g, st.disk0, st.evs, j);
  }
}
