/**
 The file system on top of the log: the calls of log_write that a transaction of
 module Files makes, carried out on the cache and log of module BlockStore.
 */
module Transactions {
  import opened Wrappers
  import opened Blocks
  import opened Counting
  import opened Folding
  import opened CrashLog
  import opened LruRing
  import opened BlockStore
  import opened FsLayout
  import opened Ownership
  import Files
  import FileStore
  import Directories

  // ---------------------------------------------------------------- a transaction as steps of the log

  function Writes(calls: seq<Files.Call>): seq<Event> {
    seq(|calls|, k requires 0 <= k < |calls| => Write(calls[k].s, calls[k].b))
  }

  /** begin_trans, the calls, and commit_trans with n sectors logged. */
  function Steps(calls: seq<Files.Call>, n: nat): seq<Event> {
    [Begin] + Writes(calls) + [Commit] + if n == 0 then [] else Repeat(Install, n) + [Clear]
  }

  lemma {:induction false} SpecAppend(sp: Spec, a: seq<Event>, b: seq<Event>)
    ensures SpecExec(sp, a + b) == SpecExec(SpecExec(sp, a), b)
  {
    if b == [] {
      assert a + b == a;
    } else {
      var c := b[..|b| - 1];
      assert (a + b)[..|a + b| - 1] == a + c;
      SpecAppend(sp, a, c);
    }
  }

  /** The writes of a transaction collect in the open map as the calls do on the sectors. */
  lemma {:induction false} WritesCollect(sp: Spec, calls: seq<Files.Call>)
    requires sp.open.Some? && forall k :: 0 <= k < |calls| ==> calls[k].s < |sp.contents|
    ensures var r := SpecExec(sp, Writes(calls));
            && r.contents == sp.contents && r.open.Some?
            && Overlay(sp.contents, r.open.value) == Files.Apply(Overlay(sp.contents, sp.open.value), calls)
  {
    if calls != [] {
      var pre, c := calls[..|calls| - 1], calls[|calls| - 1];
      WritesCollect(sp, pre);
      assert Writes(calls)[..|calls| - 1] == Writes(pre);
      var r, q := SpecExec(sp, Writes(pre)), SpecExec(sp, Writes(calls));
      assert q == SpecStep(r, Write(c.s, c.b));
      assert Overlay(sp.contents, q.open.value) == Files.Put(Overlay(sp.contents, r.open.value), c);
    }
  }

  predicate Quiet(ev: Event) { ev.Install? || ev.Clear? }

  lemma {:induction false} QuietKeeps(sp: Spec, evs: seq<Event>)
    requires forall k :: 0 <= k < |evs| ==> Quiet(evs[k])
    ensures SpecExec(sp, evs) == sp
  {
    if evs != [] { QuietKeeps(sp, evs[..|evs| - 1]); }
  }

  /** After any part of a transaction the committed contents are those before it or those after it. */
  lemma StepsPrefix(sp: Spec, calls: seq<Files.Call>, n: nat, m: nat)
    requires sp.open.None? && m <= |Steps(calls, n)| && forall k :: 0 <= k < |calls| ==> calls[k].s < |sp.contents|
    ensures var r := SpecExec(sp, Steps(calls, n)[..m]);
            && (r.contents == sp.contents || r.contents == Files.Apply(sp.contents, calls))
            && (m == |Steps(calls, n)| ==> r == Spec(Files.Apply(sp.contents, calls), None))
  {
    var all := Steps(calls, n);
    if m == 0 {
      assert all[..m] == [];
    } else if m <= 1 + |calls| {
      OpenPart(sp, calls[..m - 1]);
      assert all[..m] == [Begin] + Writes(calls[..m - 1]);
    } else {
      ClosedPart(sp, calls);
      var head, tail := [Begin] + Writes(calls) + [Commit], all[2 + |calls|..m];
      assert all[..m] == head + tail;
      SpecAppend(sp, head, tail);
      QuietKeeps(SpecExec(sp, head), tail);
    }
  }

  lemma OpenPart(sp: Spec, calls: seq<Files.Call>)
    requires sp.open.None? && forall k :: 0 <= k < |calls| ==> calls[k].s < |sp.contents|
    ensures var r := SpecExec(sp, [Begin] + Writes(calls));
            && r.contents == sp.contents && r.open.Some?
            && Overlay(sp.contents, r.open.value) == Files.Apply(sp.contents, calls)
  {
    SpecAppend(sp, [Begin], Writes(calls));
    assert [Begin][..0] == [];
    var o := SpecExec(sp, [Begin]);
    assert o == Spec(sp.contents, Some(map[]));
    WritesCollect(o, calls);
    assert Overlay(sp.contents, map[]) == sp.contents;
  }

  lemma ClosedPart(sp: Spec, calls: seq<Files.Call>)
    requires sp.open.None? && forall k :: 0 <= k < |calls| ==> calls[k].s < |sp.contents|
    ensures SpecExec(sp, [Begin] + Writes(calls) + [Commit]) == Spec(Files.Apply(sp.contents, calls), None)
  {
    OpenPart(sp, calls);
    var evs := [Begin] + Writes(calls) + [Commit];
    assert evs[..|evs| - 1] == [Begin] + Writes(calls);
  }

  // ---------------------------------------------------------------- images

  lemma {:induction false} DisksGrow(g: Geometry, d: Disk, evs: seq<Event>, m: nat)
    requires g.Ok() && |d| == g.disksize && Runs(g, d, evs) && m <= |evs|
    ensures Runs(g, d, evs[..m]) && Disks(g, d, evs[..m]) <= Disks(g, d, evs)
    decreases |evs|
  {
    if m == |evs| {
      assert evs[..m] == evs;
    } else {
      var pre := evs[..|evs| - 1];
      DisksGrow(g, d, pre, m);
      assert pre[..m] == evs[..m];
    }
  }

  /** An image written after the first part of a run is that of a longer part, and recovers as that part says. */
  lemma LateImage(g: Geometry, d: Disk, before: seq<Event>, evs: seq<Event>, j: nat) returns (m: nat)
    requires g.Ok() && Formatted(g, d) && Runs(g, d, evs) && |before| <= |evs| && before == evs[..|before|]
             && Runs(g, d, before)
    requires |Disks(g, d, before)| <= j < |Disks(g, d, evs)|
    ensures |before| < m <= |evs| && ImageOk(g, Disks(g, d, evs)[j], SpecExec(Spec(d, None), evs[..m]).contents)
  {
    forall i | 0 <= i <= |before|
      ensures Runs(g, d, evs[..i]) && |Disks(g, d, evs[..i])| <= |Disks(g, d, before)|
    {
      DisksGrow(g, d, before, i);
      assert evs[..i] == before[..i];
    }
    m := EveryImageRecovers(g, d, evs, j);
  }

  /** An image that recovers to given contents. */
  ghost predicate ImageOk(g: Geometry, image: Disk, contents: Disk) {
    g.Ok() && |image| == g.disksize == |contents| && HeadOk(g, image) && SameHome(g, Recovered(g, image), contents)
  }

  /** Every image written during a transaction recovers to the contents before it or after it. */
  lemma ImageOfTransaction(g: Geometry, d: Disk, before: seq<Event>, calls: seq<Files.Call>, n: nat, j: nat)
    requires g.Ok() && Formatted(g, d) && Runs(g, d, before + Steps(calls, n)) && Runs(g, d, before)
    requires |Disks(g, d, before)| <= j < |Disks(g, d, before + Steps(calls, n))|
    requires SpecExec(Spec(d, None), before).open.None? && forall k :: 0 <= k < |calls| ==> calls[k].s < g.disksize
    ensures var image, was := Disks(g, d, before + Steps(calls, n))[j], SpecExec(Spec(d, None), before).contents;
            ImageOk(g, image, was) || ImageOk(g, image, Files.Apply(was, calls))
  {
    var steps, sp := Steps(calls, n), SpecExec(Spec(d, None), before);
    var m := LateImage(g, d, before, before + steps, j);
    var i := m - |before|;
    assert (before + steps)[..m] == before + steps[..i];
    SpecAppend(Spec(d, None), before, steps[..i]);
    StepsPrefix(sp, calls, n, i);
  }

  // ---------------------------------------------------------------- room in the cache

  /** Six pinned sectors and three held buffers leave one of the ten. */
  lemma RoomForOne(buf: seq<Buf>, flat: Disk, pinned: set<nat>, a: nat, b: nat, c: nat)
    requires Coherent(buf, flat, pinned) && |buf| == NBUF && |pinned| <= 6
    requires forall i :: 0 <= i < NBUF && buf[i].busy ==> i == a || i == b || i == c
    ensures !NoneUsable(buf)
  {
    if NoneUsable(buf) {
      var q := seq(NBUF, k requires 0 <= k < NBUF => Tag(buf, |flat|, a, b, c, k));
      var s := pinned + {|flat|, |flat| + 1, |flat| + 2};
      forall i | 0 <= i < NBUF
        ensures q[i] in s && q[i] == Tag(buf, |flat|, a, b, c, i)
        ensures i != a && i != b && i != c ==> buf[i].dev == ROOTDEV && buf[i].sector < |flat|
      {
        assert BufOk(buf[i], flat, pinned);
      }
      assert |s| <= |pinned| + 3;
      assert NoRepeats(q);
      NoMoreThan(q, s);
    }
  }

  /** A number for buffer k: its sector, or one beyond the disk if it is one of three. */
  function Tag(buf: seq<Buf>, n: nat, a: nat, b: nat, c: nat, k: nat): nat
    requires k < |buf|
  {
    if k == a then n else if k == b then n + 1 else if k == c then n + 2 else buf[k].sector
  }

  lemma {:induction false} ListSize(lh: seq<nat>)
    requires NoRepeats(lh)
    ensures |lh| == |Elements(lh)|
  {
    NoMoreThan(lh, Elements(lh));
    ElementsSize(lh);
  }

  /** A held buffer's data may be changed. */
  lemma Scribbled(buf: seq<Buf>, flat: Disk, pinned: set<nat>, i: nat, b: Block)
    requires Coherent(buf, flat, pinned) && i < |buf| && buf[i].busy
    ensures Coherent(buf[i := buf[i].(data := b)], flat, pinned)
  {
    assert BufOk(buf[i], flat, pinned);
    Replaced(buf, buf[i := buf[i].(data := b)], i, flat, pinned);
  }

  /** A transaction that is open, with m of the cache's buffers held. */
  ghost predicate Open(st: Store)
    reads st
  {
    st.Valid() && st.busy && NoneBusy(st.buf)
  }

  /** What a call of log_write needs: sectors outside the log. */
  ghost predicate HomeCall(g: Geometry, c: Files.Call) {
    g.Home(c.s) && (c.other.Some? ==> g.Home(c.other.value) && c.other.value != c.s)
  }

  /** bread of a sector that nobody holds, with at most two buffers held: it is there. */
  method ReadFree(st: Store, s: nat, ghost a: nat, ghost b: nat) returns (i: nat)
    requires st.Valid() && st.g.Home(s) && |st.pinned| <= 6
    requires forall k :: 0 <= k < NBUF && st.buf[k].busy ==> (k == a || k == b) && st.buf[k].sector != s
    modifies st
    ensures st.Valid() && i < NBUF && !old(st.buf)[i].busy && s < |st.flat|
    ensures st.buf == old(st.buf)[i := Buf(true, true, s in st.pinned, ROOTDEV, s, st.flat[s])]
    ensures st.flat == old(st.flat) && st.evs == old(st.evs) && st.trace == old(st.trace) && st.busy == old(st.busy)
    ensures st.n == old(st.n) && st.sector == old(st.sector) && st.pinned == old(st.pinned)
  {
    assert !NoneUsable(st.buf) by { assert Look(0); RoomForOne(st.buf, st.flat, st.pinned, a, b, b); }
    var r := st.Bread(s);
    i := r.i;
  }

  /** The caller's change to a buffer it holds. */
  method Scribble(st: Store, i: nat, b: Block)
    requires st.Valid() && i < NBUF && st.buf[i].busy
    modifies st`buf
    ensures st.Valid() && st.buf == old(st.buf)[i := old(st.buf)[i].(data := b)]
  {
    assert Coherent(st.buf[i := st.buf[i].(data := b)], st.flat, st.pinned) by {
      assert Look(0);
      Scribbled(st.buf, st.flat, st.pinned, i, b);
    }
    st.buf := st.buf[i := st.buf[i].(data := b)];
  }

  /** brelse of a buffer that shows the flat map's contents. */
  method Release(st: Store, i: nat)
    requires st.Valid() && i < NBUF && st.buf[i].busy && st.buf[i].sector < |st.flat|
             && st.buf[i].data == st.flat[st.buf[i].sector]
    modifies st`buf, st`links, st`order
    ensures st.Valid() && st.buf == old(st.buf)[i := old(st.buf)[i].(busy := false)]
  {
    var _ := st.Brelse(i);
  }

  // ---------------------------------------------------------------- a transaction on the store

  lemma FewPinned(st: Store)
    requires st.Valid() && |st.pinned| <= 7
    ensures st.n == |st.pinned| && st.pinned == Elements(st.Logged())
  {
    assert Glance(0);
    ListSize(st.Logged());
  }

  /** Buffer i has the new contents of c's sector, o shows the sector held besides, and no other buffer is held. */
  ghost predicate InHand(buf: seq<Buf>, flat: Disk, c: Files.Call, i: nat, o: nat) {
    && |buf| == NBUF && i < NBUF && o < NBUF && buf[i].busy && buf[i].sector == c.s && buf[i].data == c.b
    && (c.other.Some? ==> o != i && buf[o].busy && buf[o].sector == c.other.value && c.other.value < |flat| && buf[o].data == flat[c.other.value])
    && forall k :: 0 <= k < NBUF && buf[k].busy ==> k == i || (c.other.Some? && k == o)
  }

  /** One call of log_write in an open transaction, as its caller makes it; it never panics. */
  method LogCall(st: Store, c: Files.Call) returns (ok: bool)
    requires Open(st) && HomeCall(st.g, c) && |st.pinned| <= 6 && st.g.nlog - 1 >= 7
    modifies st
    ensures ok && Open(st) && st.evs == old(st.evs) + [Write(c.s, c.b)] && st.pinned == old(st.pinned) + {c.s}
  {
    var i, o := TakeInHand(st, c);
    ok := LogHeld(st, c, i, o);
  }

  method TakeInHand(st: Store, c: Files.Call) returns (i: nat, o: nat)
    requires Open(st) && HomeCall(st.g, c) && |st.pinned| <= 6
    modifies st
    ensures st.Valid() && st.busy && InHand(st.buf, st.flat, c, i, o) && st.evs == old(st.evs)
            && st.pinned == old(st.pinned)
  {
    o := 0;
    if c.other.Some? { o := ReadFree(st, c.other.value, 0, 0); }
    i := ReadFree(st, c.s, o, o);
    Scribble(st, i, c.b);
  }

  method LogHeld(st: Store, c: Files.Call, i: nat, o: nat) returns (ok: bool)
    requires st.Valid() && st.busy && InHand(st.buf, st.flat, c, i, o) && HomeCall(st.g, c) && |st.pinned| <= 6
             && st.g.nlog - 1 >= 7
    modifies st
    ensures ok && Open(st) && st.evs == old(st.evs) + [Write(c.s, c.b)] && st.pinned == old(st.pinned) + {c.s}
  {
    ok := LogIt(st, c, i, o);
    ReleaseAll(st, i, o, c);
  }

  /** log_write itself finds room in the log and a clean buffer for the log block. */
  method LogIt(st: Store, c: Files.Call, i: nat, ghost o: nat) returns (ok: bool)
    requires st.Valid() && st.busy && InHand(st.buf, st.flat, c, i, o) && HomeCall(st.g, c) && |st.pinned| <= 6
             && st.g.nlog - 1 >= 7
    modifies st
    ensures ok && st.Valid() && st.busy && InHand(st.buf, st.flat, c, i, o) && c.s < |st.flat| && st.flat[c.s] == c.b
    ensures st.evs == old(st.evs) + [Write(c.s, c.b)] && st.pinned == old(st.pinned) + {c.s}
  {
    RoomInLog(st, c, i, o);
    ghost var b, f, k := st.buf, st.flat, IndexIn(st.Logged(), c.s);
    ok := st.LogWrite(i);
    StillInHand(b, st.buf, st.g, f, st.flat, c, i, o, k);
  }

  lemma RoomInLog(st: Store, c: Files.Call, i: nat, o: nat)
    requires st.Valid() && InHand(st.buf, st.flat, c, i, o) && |st.pinned| <= 6 && st.g.nlog - 1 >= 7
    ensures st.n < st.g.Capacity() && !NoneUsable(st.buf) && IndexIn(st.Logged(), c.s) < st.g.nlog - 1
            && |st.flat| == st.g.disksize
  {
    FewPinned(st);
    assert Look(0);
    RoomForOne(st.buf, st.flat, st.pinned, i, o, o);
  }

  lemma StillInHand(b: seq<Buf>, b': seq<Buf>, g: Geometry, f: Disk, f': Disk, c: Files.Call, i: nat, o: nat, k: nat)
    requires InHand(b, f, c, i, o) && HeldSame(b[i := b[i].(dirty := true)], b') && HomeCall(g, c) && g.Ok()
             && k < g.nlog - 1
    requires |f| == g.disksize && f' == f[g.start + 1 + k := c.b][c.s := c.b]
    ensures InHand(b', f', c, i, o) && c.s < |f'| && f'[c.s] == c.b
  {
  }

  /** Both buffers go back. */
  method ReleaseAll(st: Store, i: nat, o: nat, c: Files.Call)
    requires st.Valid() && InHand(st.buf, st.flat, c, i, o) && c.s < |st.flat| && st.flat[c.s] == c.b
    modifies st`buf, st`links, st`order
    ensures st.Valid() && NoneBusy(st.buf)
  {
    Release(st, i);
    if c.other.Some? { Release(st, o); }
  }

  lemma FewSectors(calls: seq<Files.Call>, pinned: set<nat>, k: nat)
    requires k <= |calls| && pinned <= Files.Sectors(calls[..k])
    ensures |pinned| <= |Files.Sectors(calls[..k])|
    ensures k < |calls| ==> Files.Sectors(calls[..k]) + {calls[k].s} <= Files.Sectors(calls[..k + 1])
  {
    Files.SubsetSize(pinned, Files.Sectors(calls[..k]));
    if k < |calls| { assert calls[..k + 1][..k] == calls[..k]; }
  }

  /** All calls of a transaction that fits the log. */
  method Replay(st: Store, calls: seq<Files.Call>) returns (ok: bool)
    requires Open(st) && st.pinned == {} && st.g.nlog - 1 >= 7 && Files.Fits(calls)
    requires forall k :: 0 <= k < |calls| ==> HomeCall(st.g, calls[k])
    modifies st
    ensures ok && Open(st) && st.evs == old(st.evs) + Writes(calls) && st.pinned <= Files.Sectors(calls)
  {
    ok := true;
    var k := 0;
    assert Writes(calls[..0]) == [];
    while k < |calls|
      invariant 0 <= k <= |calls| && ok && Open(st)
      invariant st.evs == old(st.evs) + Writes(calls[..k]) && st.pinned <= Files.Sectors(calls[..k])
    {
      FewSectors(calls, st.pinned, k);
      var logged := LogCall(st, calls[k]);
      ok := ok && logged;
      assert Writes(calls[..k + 1]) == Writes(calls[..k]) + [Write(calls[k].s, calls[k].b)];
      k := k + 1;
    }
    assert calls[..k] == calls;
  }

  /** The contents of the atomic store that the log stands for. */
  ghost function Committed(st: Store): Disk
    reads st
  {
    SpecExec(Spec(st.disk0, None), st.evs).contents
  }

  ghost predicate Resting(st: Store)
    reads st
  {
    st.Valid() && !st.busy && NoneBusy(st.buf)
  }

  /**
   A whole transaction by a sole user of the cache: no call of log_write, and not the
   commit, panics, and every image written on the way recovers to the contents before
   the transaction or after it.
   */
  method Transact(st: Store, calls: seq<Files.Call>) returns (ok: bool)
    requires Resting(st) && st.g.nlog - 1 >= 7 && Files.Fits(calls) && |Files.Sectors(calls)| <= 7
    requires forall k :: 0 <= k < |calls| ==> HomeCall(st.g, calls[k])
    modifies st
    ensures ok && Resting(st) && old(st.trace) <= st.trace
    ensures Committed(st) == Files.Apply(old(Committed(st)), calls)
    ensures forall j :: |old(st.trace)| <= j < |st.trace| ==>
              ImageOk(st.g, st.trace[j], old(Committed(st))) || ImageOk(st.g, st.trace[j], Committed(st))
  {
    ghost var evs, trace, disk := st.evs, st.trace, st.disk;
    var n := Perform(st, calls);
    Performed(st.g, st.disk0, evs, trace, disk, st.trace, st.disk, calls, n);
    ok := true;
  }

  method Perform(st: Store, calls: seq<Files.Call>) returns (n: nat)
    requires Resting(st) && st.g.nlog - 1 >= 7 && Files.Fits(calls) && |Files.Sectors(calls)| <= 7
    requires forall k :: 0 <= k < |calls| ==> HomeCall(st.g, calls[k])
    modifies st
    ensures Resting(st) && st.evs == old(st.evs) + Steps(calls, n)
  {
    ghost var evs := st.evs;
    assert st.pinned == {} by { assert Glance(0); assert st.Logged() == []; }
    var begun := st.BeginTrans();
    var ok := Replay(st, calls);
    Files.SubsetSize(st.pinned, Files.Sectors(calls));
    FewPinned(st);
    n := st.n;
    assert st.evs == evs + ([Begin] + Writes(calls));
    ghost var at;
    ok, at := st.CommitTrans();
    assert st.evs == evs + Steps(calls, n);
  }

  lemma {:induction false} Performed(g: Geometry, d: Disk, before: seq<Event>, trace: seq<Disk>, disk: Disk,
                                     trace': seq<Disk>, disk': Disk, calls: seq<Files.Call>, n: nat)
    requires g.Ok() && |d| == g.disksize && Reached(g, d, before, trace, State(disk, Idle))
    requires Reached(g, d, before + Steps(calls, n), trace', State(disk', Idle))
    requires forall k :: 0 <= k < |calls| ==> calls[k].s < g.disksize
    ensures trace <= trace'
    ensures var old0, new0 := SpecExec(Spec(d, None), before).contents,
                SpecExec(Spec(d, None), before + Steps(calls, n)).contents;
            && new0 == Files.Apply(old0, calls)
            && forall j :: |trace| <= j < |trace'| ==> ImageOk(g, trace'[j], old0) || ImageOk(g, trace'[j], new0)
  {
    assert Formatted(g, d) && Runs(g, d, before) && Runs(g, d, before + Steps(calls, n))
           && trace == Disks(g, d, before) && trace' == Disks(g, d, before + Steps(calls, n))
           && Final(g, d, before) == State(disk, Idle)
    by { assert Peek(0); }
    var all, sp := before + Steps(calls, n), SpecExec(Spec(d, None), before);
    InvRun(g, d, before);
    DisksGrow(g, d, all, |before|);
    assert all[..|before|] == before;
    SpecAppend(Spec(d, None), before, Steps(calls, n));
    StepsPrefix(sp, calls, n, |Steps(calls, n)|);
    assert Steps(calls, n)[..|Steps(calls, n)|] == Steps(calls, n);
    forall j | |trace| <= j < |trace'|
      ensures ImageOk(g, trace'[j], sp.contents) || ImageOk(g, trace'[j], Files.Apply(sp.contents, calls))
    {
      ImageOfTransaction(g, d, before, calls, n, j);
    }
  }

  // ---------------------------------------------------------------- filewrite through the log

  lemma {:induction false} ApplyHome(g: Geometry, d: Disk, e: Disk, calls: seq<Files.Call>)
    requires |d| == |e| == g.disksize && SameHome(g, d, e)
    ensures SameHome(g, Files.Apply(d, calls), Files.Apply(e, calls))
  {
    if calls != [] { ApplyHome(g, d, e, calls[..|calls| - 1]); }
  }

  /** A transaction all of whose sectors lie outside the log. */
  predicate AllHome(g: Geometry, calls: seq<Files.Call>) {
    forall k :: 0 <= k < |calls| ==> g.Home(calls[k].s) && (calls[k].other.Some? ==> g.Home(calls[k].other.value))
  }

  /** Some stage of the trail that the image recovers to. */
  ghost predicate Recovers(g: Geometry, image: Disk, trail: seq<Files.Stage>) {
    exists q :: 0 <= q < |trail| && ImageOk(g, image, trail[q].g.disk)
  }

  /** The chunks of one filewrite, transaction by transaction. */
  method Carry(st: Store, chunks: seq<seq<Files.Call>>, ghost trail: seq<Files.Stage>) returns (ok: bool)
    requires Resting(st) && st.g.nlog - 1 >= 7 && |trail| == |chunks| + 1
    requires forall k :: 0 <= k < |trail| ==> |trail[k].g.disk| == st.g.disksize && trail[k].g.sb.size <= BPB
    requires forall k ::
               0 <= k < |chunks| ==> AllHome(st.g, chunks[k]) && Files.Between(trail[k], trail[k + 1], chunks[k])
    requires SameHome(st.g, Committed(st), trail[0].g.disk)
    modifies st
    ensures ok && Resting(st) && old(st.trace) <= st.trace && SameHome(st.g, Committed(st), trail[|chunks|].g.disk)
    ensures forall j :: |old(st.trace)| <= j < |st.trace| ==> Recovers(st.g, st.trace[j], trail)
  {
    ok := true;
    var k := 0;
    while k < |chunks|
      invariant 0 <= k <= |chunks| && ok && Resting(st) && old(st.trace) <= st.trace
      invariant |Committed(st)| == st.g.disksize && SameHome(st.g, Committed(st), trail[k].g.disk)
      invariant forall j :: |old(st.trace)| <= j < |st.trace| ==> Recovers(st.g, st.trace[j], trail)
    {
      ghost var was, trace := Committed(st), st.trace;
      assert Files.Between(trail[k], trail[k + 1], chunks[k]) && AllHome(st.g, chunks[k]);
      var done := Transact(st, chunks[k]);
      ok := ok && done;
      ApplyHome(st.g, was, trail[k].g.disk, chunks[k]);
      forall j | |old(st.trace)| <= j < |st.trace|
        ensures Recovers(st.g, st.trace[j], trail)
      {
        if j < |trace| { assert st.trace[j] == trace[j]; }
        else { OneOfTwo(st.g, st.trace[j], was, Committed(st), trail, k); }
      }
      k := k + 1;
    }
  }

  lemma OneOfTwo(g: Geometry, image: Disk, was: Disk, now: Disk, trail: seq<Files.Stage>, k: nat)
    requires k + 1 < |trail| && (ImageOk(g, image, was) || ImageOk(g, image, now))
    requires |was| == |now| == |trail[k].g.disk| == |trail[k + 1].g.disk| == g.disksize
    requires SameHome(g, was, trail[k].g.disk) && SameHome(g, now, trail[k + 1].g.disk)
    ensures Recovers(g, image, trail)
  {
    assert ImageOk(g, image, was) ==> ImageOk(g, image, trail[k].g.disk);
    assert ImageOk(g, image, now) ==> ImageOk(g, image, trail[k + 1].g.disk);
  }

  // ---------------------------------------------------------------- the log's place on the disk

  /** initlog: the log is the last nlog sectors of the file system. */
  predicate Hosts(g: Geometry, sb: Super) {
    g.Ok() && g.start + g.nlog == sb.size <= g.disksize && sb.DataStart() <= g.start
  }

  /** No block of the log is in use. */
  ghost predicate OwnersHome(g: Geometry, w: Ledger) {
    forall a :: a in w.owner ==> a < g.start
  }

  /** balloc stays off the log exactly if some block below the log is free. */
  method BallocHome(fs: Files.FileSys, g: Geometry) returns (r: Option<nat>)
    requires fs.Valid() && Hosts(g, fs.sb)
    modifies fs`disk, fs`w, fs`logged, fs`calls
    ensures r.None? <==> forall c :: 0 <= c < fs.sb.size ==> BitOf(fs.sb, old(fs.disk), c)
    ensures r.Some? ==> (g.Home(r.value) <==> exists c :: 0 <= c < g.start && !BitOf(fs.sb, old(fs.disk), c))
    ensures r.Some? ==>
                fs.View().Ok() && Owned(fs.View(), fs.w) && fs.w == old(fs.w).(loose := old(fs.w).loose + {r.value})
    ensures r.Some? ==> r.value < fs.sb.size && !BitOf(fs.sb, old(fs.disk), r.value)
    ensures r.Some? ==> fs.disk[r.value] == Zeros() && forall c :: 0 <= c < r.value ==> BitOf(fs.sb, old(fs.disk), c)
  {
    ghost var d := fs.disk;
    r := fs.Balloc(None);
    if r.None? { assert Peek(0); }
  }

  lemma SmallImage(sb: Super, d: Disk, g: Geometry)
    requires sb == Super(15, 8) && d == ImageOf(sb, 5) && g == Geometry(5, 10, 15)
    ensures Blank(sb, d) && Hosts(g, sb) && !BitOf(sb, d, 5) && forall b :: 0 <= b < 5 ==> BitOf(sb, d, b)
  {
    ImageBlank(sb);
  }

  /** A small disk, just formatted, on which balloc gives away a sector of the log: log_write may not be called on it.
      */
  method LogSectorTaken() returns (fs: Files.FileSys, g: Geometry, r: Option<nat>)
    ensures Hosts(g, fs.sb) && fs.View().Ok() && Owned(fs.View(), fs.w) && r == Some(g.start) && !g.Home(g.start)
    ensures fs.w == Ledger(map[], {g.start}, {}) && fs.disk[g.start] == Zeros() && BitOf(fs.sb, fs.disk, g.start)
  {
    var sb := Super(15, 8);
    var d := ImageOf(sb, 5);
    g := Geometry(5, 10, 15);
    SmallImage(sb, d, g);
    fs := new Files.FileSys(sb, d);
    r := BallocHome(fs, g);
    assert Look(0);
  }

  lemma {:induction false} SectorsHome(g: Geometry, calls: seq<Files.Call>)
    ensures (forall x :: x in Files.Sectors(calls) ==> g.Home(x)) <==> AllHome(g, calls)
  {
    if calls != [] {
      var pre, c := calls[..|calls| - 1], calls[|calls| - 1];
      SectorsHome(g, pre);
      assert AllHome(g, calls) <==> AllHome(g, pre) && AllHome(g, [c]) by {
        assert calls == pre + [c];
        if AllHome(g, pre) && AllHome(g, [c]) {
          forall k | 0 <= k < |calls|
            ensures g.Home(calls[k].s) && (calls[k].other.Some? ==> g.Home(calls[k].other.value))
          {
            if k < |pre| { assert calls[k] == pre[k]; } else { assert calls[k] == [c][0]; }
          }
        }
        if AllHome(g, calls) {
          forall k | 0 <= k < |pre|
            ensures g.Home(pre[k].s) && (pre[k].other.Some? ==> g.Home(pre[k].other.value))
          {
            assert calls[k] == pre[k];
          }
        }
      }
    }
  }

  /** A chunk stays off the log exactly if no block of the log is in use after it. */
  lemma {:induction false} ChunkHome(g: Geometry, a: Files.Stage, b: Files.Stage, calls: seq<Files.Call>)
    requires Hosts(g, a.g.sb) && Files.Between(a, b, calls) && a.g.sb.size <= BPB && OwnersHome(g, a.w)
    requires forall x :: x in b.w.owner ==> x < b.g.sb.size
    ensures AllHome(g, calls) <==> OwnersHome(g, b.w)
  {
    SectorsHome(g, calls);
    HomeSets(g, b.g.sb, a.w.owner.Keys, b.w.owner.Keys, Files.Sectors(calls));
  }

  lemma HomeSets(g: Geometry, sb: Super, was: set<nat>, now: set<nat>, sectors: set<nat>)
    requires Hosts(g, sb) && was <= now <= was + sectors && (forall x :: x in was ==> x < g.start)
    requires (forall x :: x in now ==> x < sb.size) && forall x :: x in sectors ==> x < sb.DataStart() || x in now
    ensures (forall x :: x in sectors ==> g.Home(x)) <==> forall x :: x in now ==> x < g.start
  {
    if forall x :: x in sectors ==> g.Home(x) {
      forall x | x in now
        ensures x < g.start
      {
        assert x in was || x in sectors;
      }
    }
  }

  lemma OwnersInSize(f: Fs, w: Ledger)
    requires f.Ok() && Owned(f, w)
    ensures forall x :: x in w.owner ==> x < f.sb.size
  {
    assert Look(0);
  }

  // ---------------------------------------------------------------- what a recovered disk holds

  /** A disk seen as a file system, with one inode locked. */
  function SeenOn(sb: Super, num: nat, d: Disk): Fs
    requires sb.Ok(d) && num < sb.ninodes
  {
    Fs(sb, d, num, GetInode(sb, d, num))
  }

  /** Sectors below the log are all that a file system off the log consists of. */
  lemma SameBelow(g: Geometry, f: Fs, w: Ledger, d: Disk)
    requires f.Ok() && Hosts(g, f.sb) && |d| == |f.disk| == g.disksize && SameHome(g, d, f.disk)
    requires Owned(f, w) && OwnersHome(g, w) && GetInode(f.sb, f.disk, f.num) == f.ip
    ensures var u := SeenOn(f.sb, f.num, d);
            && u.Ok() && u.ip == f.ip && SameVals(f, u) && Owned(u, w)
            && (forall i :: 0 <= i < f.sb.ninodes ==> Node(u, i) == Node(f, i))
            && forall sl ::
              IsSlot(f, sl) && Val(f, sl) != 0 ==> Val(f, sl) < |f.disk| && d[Val(f, sl)] == f.disk[Val(f, sl)]
  {
    var u := SeenOn(f.sb, f.num, d);
    forall i | 0 <= i < f.sb.ninodes
      ensures GetInode(f.sb, d, i) == GetInode(f.sb, f.disk, i)
    {
      LayoutApart(f.sb, i, 0);
      assert g.Home(f.sb.IBlock(i));
    }
    forall b | 0 <= b < f.sb.size
      ensures BitOf(u.sb, u.disk, b) == BitOf(f.sb, f.disk, b)
    {
      LayoutApart(f.sb, 0, b);
      assert g.Home(f.sb.BBlock(b));
    }
    forall sl | IsSlot(f, sl) && Val(f, sl) != 0
      ensures Val(f, sl) < |f.disk| && d[Val(f, sl)] == f.disk[Val(f, sl)]
    {
      Files.OwnerOf(f, w, sl);
    }
    forall sl | IsSlot(f, sl)
      ensures Val(u, sl) == Val(f, sl)
    {
      SameSlot(g, f, w, d, u, sl);
    }
    KeepOwned(f, u, w);
  }

  lemma SameSlot(g: Geometry, f: Fs, w: Ledger, d: Disk, u: Fs, sl: Slot)
    requires f.Ok() && u.Ok() && u.sb == f.sb && u.disk == d && |d| == |f.disk| && SameHome(g, d, f.disk)
             && |d| == g.disksize
    requires Owned(f, w) && OwnersHome(g, w) && IsSlot(f, sl) && Node(u, sl.inum) == Node(f, sl.inum)
    ensures Val(u, sl) == Val(f, sl)
  {
    var p := Slot(sl.inum, INDIRECT);
    assert IsSlot(f, p) && Val(f, p) == Node(f, sl.inum).addrs[INDIRECT];
    if Val(f, p) != 0 { Files.OwnerOf(f, w, p); }
  }

  /** If a stage of filewrite is off the log, a disk with the same home sectors is that stage. */
  lemma StageSeen(g: Geometry, f: Fs, st: Files.Stage, c: seq<byte>, off: nat, src: seq<byte>, d: Disk)
    requires Files.At(f, st.g, st.w, c, off, src, st.i) && Hosts(g, st.g.sb) && OwnersHome(g, st.w)
    requires |d| == |st.g.disk| == g.disksize && SameHome(g, d, st.g.disk) && st.g.Ok()
    ensures Files.At(f, SeenOn(st.g.sb, st.g.num, d), st.w, c, off, src, st.i)
  {
    Files.AtMeans(f, st.g, st.w, c, off, src, st.i);
    SameBelow(g, st.g, st.w, d);
    var u := SeenOn(st.g.sb, st.g.num, d);
    SeenSame(st.g, u);
    Files.AtAgain(f, st.g, u, st.w, c, off, src, st.i);
  }

  lemma SeenSame(f: Fs, u: Fs)
    requires f.Ok() && u.Ok() && u.sb == f.sb && u.num == f.num && u.ip == f.ip && |u.disk| == |f.disk|
             && SameVals(f, u)
    requires forall i :: 0 <= i < f.sb.ninodes ==> Node(u, i) == Node(f, i)
    requires forall sl ::
               IsSlot(f, sl) && Val(f, sl) != 0 ==> Val(f, sl) < |f.disk| && u.disk[Val(f, sl)] == f.disk[Val(f, sl)]
    ensures Files.SameOthers(f, u)
    ensures Files.Dense(f, f.num) ==> Files.Dense(u, f.num) && Files.Contents(u, f.num) == Files.Contents(f, f.num)
  {
    if Files.Dense(f, f.num) { SameFile(f, u); }
  }

  lemma SameFile(f: Fs, u: Fs)
    requires f.Ok() && u.Ok() && u.sb == f.sb && u.num == f.num && u.ip == f.ip && |u.disk| == |f.disk|
             && SameVals(f, u)
    requires forall sl ::
               IsSlot(f, sl) && Val(f, sl) != 0 ==> Val(f, sl) < |f.disk| && u.disk[Val(f, sl)] == f.disk[Val(f, sl)]
    requires Files.Dense(f, f.num)
    ensures Files.Dense(u, f.num) && Files.Contents(u, f.num) == Files.Contents(f, f.num)
  {
    assert Peek(0);
    forall bn | 0 <= bn && bn * BSIZE < f.ip.size
      ensures Files.Mapped(u, f.num, bn)
    {
      assert Files.Mapped(f, f.num, bn) && IsSlot(f, Files.SlotOf(f.num, bn));
    }
    forall k | 0 <= k < f.ip.size
      ensures Files.ByteAt(u, f.num, k) == Files.ByteAt(f, f.num, k)
    {
      assert Files.Mapped(f, f.num, k / BSIZE) && IsSlot(f, Files.SlotOf(f.num, k / BSIZE));
    }
  }

  // ---------------------------------------------------------------- filewrite and crashes

  /** The recovered image is a file system with some whole number of chunks written, and every other file as it was. */
  ghost predicate WholeChunks(g: Geometry, f: Fs, image: Disk, c: seq<byte>, off: nat, src: seq<byte>) {
    && g.Ok() && |image| == g.disksize && HeadOk(g, image) && f.sb.Ok(Recovered(g, image)) && f.num < f.sb.ninodes
    && exists w, q :: Files.At(f, SeenOn(f.sb, f.num, Recovered(g, image)), w, c, off, src, Files.Whole(|src|, q))
  }

  /** Whether every chunk stays off the log. */
  predicate ChunksHome(g: Geometry, chunks: seq<seq<Files.Call>>) {
    forall k :: 0 <= k < |chunks| ==> AllHome(g, chunks[k])
  }

  /**
   filewrite carried out on the cache and the log by their sole user.  k bytes go in, all
   of them or a number of whole chunks, if there are blocks enough.  If the blocks it
   needs are free below the log, and only then, it gets them all there (`home`): no
   log_write and no commit panics, and a crash at any of its sector writes leaves, after
   recovery, the file system after some whole number of chunks.  Otherwise the disk runs
   full, or the header sector of the log becomes a block of the file.
   */
  method FilewriteLogged(fs: Files.FileSys, st: Store, src: seq<byte>, off: word) returns (ok: bool, r: int, home: bool,
                         ghost k: nat)
    requires fs.Valid() && Files.Dense(fs.View(), fs.num) && fs.InSync() && |src| < 0x8000_0000 && fs.sb.size <= BPB
    requires Resting(st) && st.g.nlog - 1 >= 7 && Hosts(st.g, fs.sb) && |fs.disk| == st.g.disksize
    requires SameHome(st.g, Committed(st), fs.disk) && OwnersHome(st.g, fs.w)
    modifies fs, st
    ensures k == if off > old(fs.ip.size) || off > MAXFILE * BSIZE then 0
                 else if off + |src| <= MAXFILE * BSIZE then |src|
                 else (MAXFILE * BSIZE - off) / 1536 * 1536
    ensures ok <==> Files.Enough(old(fs.View()), Files.TouchedBy(fs.num, off, k))
    ensures home <==> RoomBelow(st.g, old(fs.View()), Files.TouchedBy(fs.num, off, k))
    ensures home ==> ok
    ensures !home ==> unchanged(st)
    ensures !ok ==> fs.Full()
    ensures ok ==>
            && r == (if k == |src| then |src| else -1) && k <= |src|
            && fs.Valid() && Files.Dense(fs.View(), fs.num) && fs.InSync()
            && Files.SameOthers(old(fs.View()), fs.View())
            && (k > 0 ==> off <= old(fs.ip.size) && Files.Contents(fs.View(), fs.num)
                          == Files.Spliced(old(Files.Contents(fs.View(), fs.num)), off, src[..k]))
            && (k == 0 ==> Files.Contents(fs.View(), fs.num) == old(Files.Contents(fs.View(), fs.num)))
    ensures ok ==> (home <==> OwnersHome(st.g, fs.w))
    ensures ok && !home ==> st.g.start in fs.w.owner
    ensures home ==> Resting(st) && old(st.trace) <= st.trace && SameHome(st.g, Committed(st), fs.disk)
    ensures home ==>
            forall j :: |old(st.trace)| <= j < |st.trace| ==>
              WholeChunks(st.g, old(fs.View()), st.trace[j], old(Files.Contents(fs.View(), fs.num)), off, src)
  {
    ghost var f, c, w := fs.View(), Files.Contents(fs.View(), fs.num), fs.w;
    var off', chunks;
    ghost var went, trail;
    home, k := false, Files.Goes(off, |src|, f.ip.size);
    ok, r, off', went, chunks, trail := fs.Filewrite(src, off);
    ReachSlots(f, off, |src|);
    NoRoom(st.g, f, w, Reach(f, off, |src|));
    if !ok { return; }
    HomeIff(st.g, f, w, fs.View(), fs.w, Reach(f, off, |src|));
    home := ChunksHome(st.g, chunks);
    TrailHome(st.g, f, c, off, src, trail, chunks);
    if home {
      var carried := Carry(st, chunks, trail);
      forall j | |old(st.trace)| <= j < |st.trace|
        ensures WholeChunks(st.g, f, st.trace[j], c, off, src)
      {
        SomeStage(st.g, f, c, off, src, trail, st.trace[j]);
      }
    }
  }

  // ---------------------------------------------------------------- when a write stays off the log

  /** The free blocks below the log. */
  ghost function FreeBelow(g: Geometry, f: Fs): set<nat>
    requires f.Ok() && g.start <= f.sb.size
  {
    set b | f.sb.DataStart() <= b < g.start && !BitOf(f.sb, f.disk, b)
  }

  /** There are as many free blocks below the log as there are empty ones among the slots s. */
  ghost predicate RoomBelow(g: Geometry, f: Fs, s: set<Slot>)
    requires f.Ok() && g.start <= f.sb.size
  {
    |Files.Vacant(f, s)| <= |FreeBelow(g, f)|
  }

  /** The slots that filewrite of n bytes at off fills as far as they are empty. */
  function Reach(f: Fs, off: nat, n: nat): set<Slot> {
    Files.TouchedBy(f.num, off, Files.Goes(off, n, f.ip.size))
  }

  lemma ReachSlots(f: Fs, off: nat, n: nat)
    requires f.Ok()
    ensures forall sl :: sl in Reach(f, off, n) ==> IsSlot(f, sl)
  {
    Files.GoesFits(off, n, f.ip.size);
    Files.TouchedSlots(f, off, Files.Goes(off, n, f.ip.size));
  }

  /** Blocks in use, and blocks free below the log. */
  lemma UsedAndFree(g: Geometry, f: Fs, w: Ledger)
    requires f.Ok() && Owned(f, w) && w.loose == {} && w.gone == {} && Hosts(g, f.sb) && OwnersHome(g, w)
    ensures |w.owner.Keys| + |FreeBelow(g, f)| == g.start - f.sb.DataStart()
  {
    UsedOrFree(g, f, w);
    assert Range(f.sb.DataStart(), g.start) == w.owner.Keys + FreeBelow(g, f);
  }

  lemma UsedOrFree(g: Geometry, f: Fs, w: Ledger)
    requires f.Ok() && Owned(f, w) && w.loose == {} && w.gone == {} && Hosts(g, f.sb) && OwnersHome(g, w)
    ensures forall b :: b in w.owner <==> f.sb.DataStart() <= b < g.start && b !in FreeBelow(g, f)
  {
    assert Look(0);
  }

  lemma HomeIff(g: Geometry, f: Fs, w0: Ledger, h: Fs, w: Ledger, s: set<Slot>)
    requires f.Ok() && Owned(f, w0) && w0.loose == {} && w0.gone == {} && Hosts(g, f.sb) && OwnersHome(g, w0)
    requires forall sl :: sl in s ==> IsSlot(f, sl)
    requires h.Ok() && h.sb == f.sb && Owned(h, w) && Files.Took(f.sb.DataStart(), w0, w, s)
    ensures OwnersHome(g, w) <==> RoomBelow(g, f, s)
    ensures !OwnersHome(g, w) ==> g.start in w.owner
  {
    Files.VacantCount(f, w0, s);
    UsedAndFree(g, f, w0);
    Files.OwnersCount(h, w);
    Files.SlotsTaken(h, w);
    assert w.owner.Values == w0.owner.Values + s by { assert Spot(0); }
    FirstFit(g, f.sb.DataStart(), w0, w, s);
  }

  /** As blocks come lowest first, the log's come into use exactly when those below it are not enough. */
  lemma FirstFit(g: Geometry, start: nat, w0: Ledger, w: Ledger, s: set<Slot>)
    requires OwnersHome(g, w0) && Files.Took(start, w0, w, s) && start <= g.start && forall a ::
               a in w.owner ==> start <= a
    ensures OwnersHome(g, w) <==> |w.owner.Keys| <= g.start - start
    ensures !OwnersHome(g, w) ==> g.start in w.owner
  {
    var low := Range(start, g.start);
    if OwnersHome(g, w) {
      Files.SubsetSize(w.owner.Keys, low);
    } else {
      var a :| a in w.owner && a >= g.start;
      Lower(start, w0, w, s, a);
      assert forall b :: b in low + {a} ==> b in w.owner.Keys;
      Files.SubsetSize(low + {a}, w.owner.Keys);
    }
  }

  lemma Lower(start: nat, w0: Ledger, w: Ledger, s: set<Slot>, a: nat)
    requires Files.Took(start, w0, w, s) && a in w.owner && a !in w0.owner
    ensures forall b :: start <= b <= a ==> b in w.owner
  {
    assert Spot(0);
  }

  /** On a disk that runs full there is no room below the log either. */
  lemma NoRoom(g: Geometry, f: Fs, w0: Ledger, s: set<Slot>)
    requires f.Ok() && Owned(f, w0) && w0.loose == {} && w0.gone == {} && Hosts(g, f.sb) && OwnersHome(g, w0)
    requires forall sl :: sl in s ==> IsSlot(f, sl)
    ensures RoomBelow(g, f, s) ==> Files.Enough(f, s)
  {
    assert FreeBelow(g, f) <= Files.FreeBlocks(f);
    Files.SubsetSize(FreeBelow(g, f), Files.FreeBlocks(f));
  }

  /** Recovery clears the log's header sector, so a block of a file there keeps only contents that begin with a zero
      word. */
  lemma HeaderOverwritten(g: Geometry, image: Disk, b: Block)
    requires g.Ok() && |image| == g.disksize && HeadOk(g, image) && Word(b, 0) != 0
    ensures |Recovered(g, image)| == g.disksize && Recovered(g, image)[g.start] != b
  {
    var lh := Head(g, image);
    HeadRoundTrip(Installed(g, image, lh, |lh|)[g.start], []);
  }

  /** Along the trail the log stays untouched exactly if none of its blocks is in use at the end. */
  lemma TrailHome(g: Geometry, f: Fs, c: seq<byte>, off: nat, src: seq<byte>, trail: seq<Files.Stage>,
                  chunks: seq<seq<Files.Call>>)
    requires Files.Trail(f, c, off, src, trail, chunks) && trail[0].g == f && f.Ok() && f.sb.size <= BPB
             && Hosts(g, f.sb)
    requires |f.disk| == g.disksize && OwnersHome(g, trail[0].w)
    ensures ChunksHome(g, chunks) <==> OwnersHome(g, trail[|trail| - 1].w)
    ensures forall q :: 0 <= q < |trail| ==> StageOk(g, f, c, off, src, trail[q])
    ensures forall q :: 0 <= q < |chunks| ==> Files.Between(trail[q], trail[q + 1], chunks[q])
    ensures ChunksHome(g, chunks) ==> forall q :: 0 <= q < |trail| ==> OwnersHome(g, trail[q].w)
  {
    assert Look(0);
    forall q | 0 <= q < |trail|
      ensures StageOk(g, f, c, off, src, trail[q])
    {
      StageIs(g, f, c, off, src, trail[q]);
    }
    HomeSoFar(g, f, c, off, src, trail, chunks, |chunks|);
    assert chunks[..|chunks|] == chunks;
  }

  ghost predicate StageOk(g: Geometry, f: Fs, c: seq<byte>, off: nat, src: seq<byte>, st: Files.Stage) {
    && Files.At(f, st.g, st.w, c, off, src, st.i) && st.g.Ok() && st.g.sb == f.sb && st.g.num == f.num
    && |st.g.disk| == |f.disk|
    && (forall x :: x in st.w.owner ==> x < f.sb.size) && exists q :: st.i == Files.Whole(|src|, q)
  }

  lemma StageIs(g: Geometry, f: Fs, c: seq<byte>, off: nat, src: seq<byte>, st: Files.Stage)
    requires Files.At(f, st.g, st.w, c, off, src, st.i) && exists q :: st.i == Files.Whole(|src|, q)
    ensures StageOk(g, f, c, off, src, st)
  {
    Files.AtMeans(f, st.g, st.w, c, off, src, st.i);
    OwnersInSize(st.g, st.w);
  }

  lemma {:induction false} HomeSoFar(g: Geometry, f: Fs, c: seq<byte>, off: nat, src: seq<byte>,
                                     trail: seq<Files.Stage>, chunks: seq<seq<Files.Call>>, m: nat)
    requires |trail| == |chunks| + 1 && m <= |chunks| && Hosts(g, f.sb) && f.sb.size <= BPB && OwnersHome(g, trail[0].w)
    requires forall q :: 0 <= q < |trail| ==> StageOk(g, f, c, off, src, trail[q])
    requires forall q :: 0 <= q < |chunks| ==> Files.Between(trail[q], trail[q + 1], chunks[q])
    ensures OwnersHome(g, trail[m].w) <==> ChunksHome(g, chunks[..m])
    ensures ChunksHome(g, chunks[..m]) ==> forall q :: 0 <= q <= m ==> OwnersHome(g, trail[q].w)
  {
    if m > 0 {
      HomeSoFar(g, f, c, off, src, trail, chunks, m - 1);
      var a, b := trail[m - 1], trail[m];
      assert Files.Between(a, b, chunks[m - 1]) && StageOk(g, f, c, off, src, a) && StageOk(g, f, c, off, src, b);
      if OwnersHome(g, a.w) { ChunkHome(g, a, b, chunks[m - 1]); }
      OneChunkMore(g, chunks, m);
    }
  }

  lemma OneChunkMore(g: Geometry, chunks: seq<seq<Files.Call>>, m: nat)
    requires 0 < m <= |chunks|
    ensures ChunksHome(g, chunks[..m]) <==> ChunksHome(g, chunks[..m - 1]) && AllHome(g, chunks[m - 1])
  {
    assert forall k :: 0 <= k < m - 1 ==> chunks[..m][k] == chunks[..m - 1][k];
    assert chunks[..m][m - 1] == chunks[m - 1];
  }

  lemma SomeStage(g: Geometry, f: Fs, c: seq<byte>, off: nat, src: seq<byte>, trail: seq<Files.Stage>, image: Disk)
    requires f.Ok() && |f.disk| == g.disksize && Hosts(g, f.sb) && Recovers(g, image, trail)
    requires forall q :: 0 <= q < |trail| ==> StageOk(g, f, c, off, src, trail[q]) && OwnersHome(g, trail[q].w)
    ensures WholeChunks(g, f, image, c, off, src)
  {
    var q :| 0 <= q < |trail| && ImageOk(g, image, trail[q].g.disk);
    StageSeen(g, f, trail[q], c, off, src, Recovered(g, image));
  }

  // ---------------------------------------------------------------- other transactions

  /** The image recovers to a file system that holds the files m. */
  ghost predicate Shows(g: Geometry, sb: Super, image: Disk, m: map<nat, FileStore.File>) {
    && g.Ok() && |image| == g.disksize && HeadOk(g, image) && sb.Ok(Recovered(g, image)) && 0 < sb.ninodes
    && FileStore.AllSound(SeenOn(sb, 0, Recovered(g, image)))
    && FileStore.Stored(SeenOn(sb, 0, Recovered(g, image))) == m
  }

  /** Disks equal outside the log hold the same files if no file has a block of the log. */
  lemma FilesSeen(g: Geometry, f: Fs, w: Ledger, d: Disk)
    requires f.Ok() && Hosts(g, f.sb) && |d| == |f.disk| == g.disksize && SameHome(g, d, f.disk)
    requires Owned(f, w) && OwnersHome(g, w) && GetInode(f.sb, f.disk, f.num) == f.ip && FileStore.AllSound(f)
    ensures f.sb.Ok(d) && FileStore.AllSound(SeenOn(f.sb, 0, d))
            && FileStore.Stored(SeenOn(f.sb, 0, d)) == FileStore.Stored(f)
  {
    SameBelow(g, f, w, d);
    var u := SeenOn(f.sb, f.num, d);
    forall i | 0 <= i < f.sb.ninodes
      ensures FileStore.InodeSound(u, i) && FileStore.FileOf(u, i) == FileStore.FileOf(f, i) && Node(u, i) == Node(f, i)
    {
      assert FileStore.InodeSound(f, i);
      FileSeen(f, u, i);
    }
    FileStore.RelockAll(u, 0);
  }

  lemma FileSeen(f: Fs, u: Fs, i: nat)
    requires f.Ok() && u.Ok() && u.sb == f.sb && |u.disk| == |f.disk| && SameVals(f, u) && i < f.sb.ninodes
             && Node(u, i) == Node(f, i)
    requires forall sl ::
               IsSlot(f, sl) && Val(f, sl) != 0 ==> Val(f, sl) < |f.disk| && u.disk[Val(f, sl)] == f.disk[Val(f, sl)]
    requires FileStore.InodeSound(f, i)
    ensures FileStore.InodeSound(u, i) && FileStore.FileOf(u, i) == FileStore.FileOf(f, i)
  {
    forall n | 0 <= n < MAXFILE && Val(f, Files.SlotOf(i, n)) != 0
      ensures Val(u, Files.SlotOf(i, n)) == Val(f, Files.SlotOf(i, n)) &&
              (Val(f, Files.SlotOf(i, n)) < |f.disk| ==> u.disk[Val(f, Files.SlotOf(i, n))] == f.disk[Val(f,
                  Files.SlotOf(i, n))])
    {
      assert IsSlot(f, Files.SlotOf(i, n));
    }
    FileStore.SameInode(f, u, i);
  }

  lemma ImageShows(g: Geometry, f: Fs, w: Ledger, image: Disk)
    requires f.Ok() && Hosts(g, f.sb) && |f.disk| == g.disksize && ImageOk(g, image, f.disk)
    requires Owned(f, w) && OwnersHome(g, w) && GetInode(f.sb, f.disk, f.num) == f.ip && FileStore.AllSound(f)
    ensures Shows(g, f.sb, image, FileStore.Stored(f))
  {
    FilesSeen(g, f, w, Recovered(g, image));
  }

  /** The store is at rest and holds the file system, of which no block lies in the log. */
  ghost predicate Stands(fs: Files.FileSys, st: Store)
    reads fs, st
  {
    && FileStore.Sound(fs) && fs.sb.size <= BPB && Resting(st) && st.g.nlog - 1 >= 7 && Hosts(st.g, fs.sb)
    && |fs.disk| == st.g.disksize
    && SameHome(st.g, Committed(st), fs.disk) && OwnersHome(st.g, fs.w)
  }

  /** Every image written since recovers to the files m or to the files m'. */
  ghost predicate OneOrOther(g: Geometry, sb: Super, trace: seq<Disk>, from: nat, m: map<nat, FileStore.File>,
                             m': map<nat, FileStore.File>) {
    forall j :: from <= j < |trace| ==> Shows(g, sb, trace[j], m) || Shows(g, sb, trace[j], m')
  }

  /** The transaction recorded in fs, which began with f. */
  method CommitCalls(fs: Files.FileSys, st: Store, ghost f: Fs, ghost w: Ledger)
    requires f.Ok() && Owned(f, w) && OwnersHome(st.g, w) && GetInode(f.sb, f.disk, f.num) == f.ip
             && FileStore.AllSound(f) && f.sb == fs.sb
    requires FileStore.Sound(fs) && fs.base == f.disk && OwnersHome(st.g, fs.w)
    requires |fs.logged| <= 6 && (forall x :: x in fs.logged ==> st.g.Home(x))
    requires Resting(st) && st.g.nlog - 1 >= 7 && Hosts(st.g, f.sb) && |f.disk| == st.g.disksize
             && SameHome(st.g, Committed(st), f.disk)
    modifies st
    ensures Resting(st) && old(st.trace) <= st.trace && |fs.disk| == st.g.disksize
            && SameHome(st.g, Committed(st), fs.disk)
    ensures OneOrOther(st.g, fs.sb, st.trace, |old(st.trace)|, FileStore.Stored(f), FileStore.Stored(fs.View()))
  {
    ghost var was := Committed(st);
    Files.KeptMeans(fs.base, fs.disk, fs.calls, fs.logged);
    Files.SixFit(fs.calls);
    SectorsHome(st.g, fs.calls);
    var done := Transact(st, fs.calls);
    ApplyHome(st.g, was, f.disk, fs.calls);
    forall j | |old(st.trace)| <= j < |st.trace|
      ensures Shows(st.g, fs.sb, st.trace[j], FileStore.Stored(f))
              || Shows(st.g, fs.sb, st.trace[j], FileStore.Stored(fs.View()))
    {
      EitherShows(st.g, f, w, fs.View(), fs.w, was, Committed(st), st.trace[j]);
    }
  }

  lemma EitherShows(g: Geometry, f: Fs, w: Ledger, h: Fs, v: Ledger, was: Disk, now: Disk, image: Disk)
    requires f.Ok() && Hosts(g, f.sb) && |f.disk| == g.disksize == |was| && SameHome(g, was, f.disk)
    requires Owned(f, w) && OwnersHome(g, w) && GetInode(f.sb, f.disk, f.num) == f.ip && FileStore.AllSound(f)
    requires h.Ok() && h.sb == f.sb && |h.disk| == g.disksize == |now| && SameHome(g, now, h.disk)
    requires Owned(h, v) && OwnersHome(g, v) && GetInode(h.sb, h.disk, h.num) == h.ip && FileStore.AllSound(h)
    requires ImageOk(g, image, was) || ImageOk(g, image, now)
    ensures Shows(g, f.sb, image, FileStore.Stored(f)) || Shows(g, f.sb, image, FileStore.Stored(h))
  {
    if ImageOk(g, image, was) {
      assert ImageOk(g, image, f.disk);
      ImageShows(g, f, w, image);
    } else {
      assert ImageOk(g, image, h.disk);
      ImageShows(g, h, v, image);
    }
  }

  /** The transaction in which an unlinked file goes: after a crash it is there, whole, or gone. */
  method RemoveLogged(fs: Files.FileSys, st: Store)
    requires Stands(fs, st) && fs.num in FileStore.Stored(fs.View())
    modifies fs, st
    ensures Stands(fs, st) && FileStore.Stored(fs.View()) == old(FileStore.Stored(fs.View())) - {fs.num}
            && old(st.trace) <= st.trace
    ensures OneOrOther(st.g, fs.sb, st.trace, |old(st.trace)|, old(FileStore.Stored(fs.View())),
                FileStore.Stored(fs.View()))
  {
    ghost var f, w := fs.View(), fs.w;
    RemoveCalls(fs, f, w);
    RemoveSectors(st.g, f, w, fs.logged);
    CommitCalls(fs, st, f, w);
  }

  /** begin_trans, itrunc, the type reset and iupdate. */
  method RemoveCalls(fs: Files.FileSys, ghost f: Fs, ghost w: Ledger)
    requires FileStore.Sound(fs) && f == fs.View() && w == fs.w && f.num in FileStore.Stored(f) && f.sb.size <= BPB
    modifies fs
    ensures FileStore.Sound(fs) && fs.num == f.num && fs.sb == f.sb
            && FileStore.Stored(fs.View()) == FileStore.Stored(f) - {f.num}
    ensures fs.base == f.disk && Files.Into({}, fs.logged, {f.sb.BBlock(0), f.sb.IBlock(f.num)} + Files.PointerSet(f))
    ensures fs.w.owner.Keys <= w.owner.Keys
  {
    FileStore.Begin(fs, f);
    var ok := FileStore.RemoveLocked(fs);
  }

  lemma RemoveSectors(g: Geometry, f: Fs, w: Ledger, l: set<nat>)
    requires f.Ok() && Owned(f, w) && Hosts(g, f.sb) && OwnersHome(g, w)
    requires Files.Into({}, l, {f.sb.BBlock(0), f.sb.IBlock(f.num)} + Files.PointerSet(f))
    ensures |l| <= 6 && forall x :: x in l ==> g.Home(x)
  {
    var e := {f.sb.BBlock(0), f.sb.IBlock(f.num)};
    Files.IntoMeans({}, l, e + Files.PointerSet(f));
    Files.UnionSize(e, Files.PointerSet(f));
    Files.SubsetSize(l, e + Files.PointerSet(f));
    LayoutApart(f.sb, f.num, 0);
    if f.ip.addrs[INDIRECT] != 0 { Files.PointerBlock(f, w); Files.SlotsTaken(f, w); }
  }

  /**
   The transaction in which a file is made and linked into directory dir under a name not
   bound there: after a crash both the file and its name are there, or neither is.
   */
  method CreateLogged(fs: Files.FileSys, st: Store, dir: nat, ty: nat, name: seq<byte>) returns (ok: bool, inum: nat,
                      home: bool)
    requires Stands(fs, st) && 0 < ty < 0x8000 && dir in FileStore.Stored(fs.View())
    requires IsFreshIn(FileStore.Stored(fs.View())[dir], name)
    modifies fs, st
    ensures ok <==>
            && (exists i :: 1 <= i < fs.sb.ninodes && i !in old(FileStore.Stored(fs.View())))
            && Directories.RoomForEntry(old(fs.View()), dir, old(FileStore.Stored(fs.View()))[dir].bytes)
    ensures ok ==>
            && 1 <= inum < fs.sb.ninodes && inum !in old(FileStore.Stored(fs.View()))
            && forall i :: 1 <= i < inum ==> i in old(FileStore.Stored(fs.View()))
    ensures !home ==> unchanged(st)
    ensures home <==> ok && RoomBelow(st.g, old(fs.View()), EntrySlots(old(FileStore.Stored(fs.View())), dir))
    ensures ok ==> FileStore.Sound(fs) && (home <==> OwnersHome(st.g, fs.w))
    ensures ok && |FreeBelow(st.g, old(fs.View()))| >= 2 ==> home
    ensures ok ==>
                inum !in old(FileStore.Stored(fs.View()))
                && Created(old(FileStore.Stored(fs.View())), FileStore.Stored(fs.View()), dir, inum, ty, name)
    ensures ok && home ==> Stands(fs, st) && old(st.trace) <= st.trace
    ensures ok && home ==>
                OneOrOther(st.g, fs.sb, st.trace, |old(st.trace)|, old(FileStore.Stored(fs.View())),
                    FileStore.Stored(fs.View()))
  {
    ghost var f, w, m := fs.View(), fs.w, FileStore.Stored(fs.View());
    ok, inum, home := MakeLinked(fs, st, dir, ty, name, f, w, m);
    if !ok || !home { return; }
    SoundNowMeans(fs);
    CommitCalls(fs, st, f, w);
    assert SoundNow(fs);
    SoundNowMeans(fs);
  }

  /** A directory of whole entries in which the name is not bound. */
  predicate IsFreshIn(x: FileStore.File, name: seq<byte>) {
    x.ty == T_DIR && |x.bytes| % Directories.DIRENT == 0
    && Directories.Lookup(x.bytes, Directories.Name(name)).None?
  }

  /** The calls of log_write of that transaction. */
  method MakeLinked(fs: Files.FileSys, st: Store, dir: nat, ty: nat, name: seq<byte>, ghost f: Fs, ghost w: Ledger,
                    ghost m: map<nat, FileStore.File>) returns (ok: bool, inum: nat, home: bool)
    requires FileStore.Sound(fs) && fs.sb.size <= BPB && Hosts(st.g, fs.sb) && OwnersHome(st.g, fs.w)
    requires f == fs.View() && w == fs.w && m == FileStore.Stored(f) && 0 < ty < 0x8000 && dir in m
             && IsFreshIn(m[dir], name)
    modifies fs
    ensures ok <==>
            (exists i :: 1 <= i < fs.sb.ninodes && i !in m) && Directories.RoomForEntry(f, dir, m[dir].bytes)
    ensures ok ==> 1 <= inum < fs.sb.ninodes && inum !in m && forall i :: 1 <= i < inum ==> i in m
    ensures home <==> ok && RoomBelow(st.g, f, EntrySlots(m, dir))
    ensures ok && |FreeBelow(st.g, f)| >= 2 ==> home
    ensures ok ==> FileStore.Sound(fs) && (home <==> OwnersHome(st.g, fs.w))
    ensures ok ==> Created(m, FileStore.Stored(fs.View()), dir, inum, ty, name)
    ensures home ==> fs.base == f.disk && |fs.logged| <= 6 && forall x :: x in fs.logged ==> st.g.Home(x)
  {
    home := false;
    ok, inum := MakeAndLink(fs, dir, ty, name, f, w, m);
    if !ok { return; }
    home := AllHome(st.g, fs.calls);
    SoundNowMeans(fs);
    CreateHome(st.g, f, w, fs.View(), fs.w, fs.base, fs.calls, fs.logged, m, dir, inum, ty, name,
        Directories.Place(m[dir].bytes) / BSIZE);
  }

  /** ialloc and dirlink. */
  method MakeAndLink(fs: Files.FileSys, dir: nat, ty: nat, name: seq<byte>, ghost f: Fs, ghost w: Ledger,
                     ghost m: map<nat, FileStore.File>) returns (ok: bool, inum: nat)
    requires FileStore.Sound(fs) && f == fs.View() && w == fs.w && m == FileStore.Stored(f) && 0 < ty < 0x8000
             && dir in m && IsFreshIn(m[dir], name)
    modifies fs
    ensures ok <==>
            (exists i :: 1 <= i < fs.sb.ninodes && i !in m) && Directories.RoomForEntry(f, dir, m[dir].bytes)
    ensures ok ==> 1 <= inum < fs.sb.ninodes && inum !in m && forall i :: 1 <= i < inum ==> i in m
    ensures ok ==> SoundNow(fs) && fs.base == f.disk
    ensures ok ==> Making(m, w, {f.sb.IBlock(inum)}, fs.View(), fs.w, fs.logged, dir, inum, ty, name,
                Directories.Place(m[dir].bytes) / BSIZE)
  {
    ok, inum := MakeInode(fs, ty, f, w, m);
    if !ok { return; }
    ok := LinkIn(fs, dir, inum, ty, name, m, f, w, {f.sb.IBlock(inum)});
  }

  /** The slots that a new entry in the directory fills as far as they are empty. */
  function EntrySlots(m: map<nat, FileStore.File>, dir: nat): set<Slot>
    requires dir in m
  {
    Files.TouchedAt(dir, Directories.Place(m[dir].bytes) / BSIZE)
  }

  ghost predicate SoundNow(fs: Files.FileSys)
    reads fs
  {
    forall k {:trigger Spot(k)} :: Spot(k) ==> FileStore.Sound(fs)
  }

  lemma SoundNowMeans(fs: Files.FileSys)
    ensures SoundNow(fs) <==> FileStore.Sound(fs)
  {
    if SoundNow(fs) { assert Spot(0); }
  }

  /** A sound file system that holds the files m. */
  ghost predicate HoldsFiles(fs: Files.FileSys, m: map<nat, FileStore.File>)
    reads fs
  {
    forall k {:trigger Spot(k)} :: Spot(k) ==> FileStore.Sound(fs) && FileStore.Stored(fs.View()) == m
  }

  /** begin_trans and ialloc. */
  method MakeInode(fs: Files.FileSys, ty: nat, ghost f: Fs, ghost w: Ledger, ghost m: map<nat,
                   FileStore.File>) returns (ok: bool, inum: nat)
    requires FileStore.Sound(fs) && f == fs.View() && w == fs.w && m == FileStore.Stored(f) && 0 < ty < 0x8000
    modifies fs
    ensures inum == FileStore.LowestFree(m, 1, f.sb.ninodes) && (ok <==> inum < f.sb.ninodes)
    ensures ok ==> fs.base == f.disk && inum !in m && fs.num < fs.sb.ninodes
    ensures ok ==> HoldsFiles(fs, m[inum := FileStore.File(ty, [])]) && fs.logged == {f.sb.IBlock(inum)} && fs.w == w
  {
    FileStore.Begin(fs, f);
    ok, inum := FileStore.Ialloc(fs, ty);
  }

  /** The map gained an empty file and the directory one binding, of the number's low 16 bits. */
  ghost predicate Created(m: map<nat, FileStore.File>, m': map<nat, FileStore.File>, dir: nat, inum: nat, ty: nat,
                          name: seq<byte>) {
    forall k {:trigger Spot(k)} :: Spot(k) ==>
      && dir in m && dir in m' && m' == m[inum := FileStore.File(ty, [])][dir := m'[dir]] && m'[dir].ty == m[dir].ty
      && forall n :: Directories.Lookup(m'[dir].bytes, n) ==
                     if n == Directories.Name(name)
                     && inum % 0x1_0000 != 0 then Some(inum % 0x1_0000) else Directories.Lookup(m[dir].bytes, n)
  }

  /** What ialloc and dirlink did to the files, the ledger and the log. */
  ghost predicate Making(m: map<nat, FileStore.File>, w: Ledger, l: set<nat>, h: Fs, v: Ledger, logged: set<nat>,
                         dir: nat, inum: nat, ty: nat, name: seq<byte>, bn: nat) {
    forall k {:trigger Spot(k)} :: Spot(k) ==>
      && h.Ok() && FileStore.AllSound(h) && Created(m, FileStore.Stored(h), dir, inum, ty, name)
      && (h.sb.size <= BPB ==> Files.Adds(h, v, l, logged, 4))
      && Files.Grew(w, l, v, logged) && Files.Took(h.sb.DataStart(), w, v, Files.TouchedAt(dir, bn))
  }

  lemma MakingIs(m: map<nat, FileStore.File>, w: Ledger, l: set<nat>, h: Fs, v: Ledger, logged: set<nat>,
                 dir: nat, inum: nat, ty: nat, name: seq<byte>, bn: nat)
    requires h.Ok() && FileStore.AllSound(h) && Created(m, FileStore.Stored(h), dir, inum, ty, name)
             && (h.sb.size <= BPB ==> Files.Adds(h, v, l, logged, 4))
    requires Files.Grew(w, l, v, logged) && Files.Took(h.sb.DataStart(), w, v, Files.TouchedAt(dir, bn))
    ensures Making(m, w, l, h, v, logged, dir, inum, ty, name, bn)
  {
  }

  lemma MakingMeans(m: map<nat, FileStore.File>, w: Ledger, l: set<nat>, h: Fs, v: Ledger, logged: set<nat>,
                    dir: nat, inum: nat, ty: nat, name: seq<byte>, bn: nat)
    requires Making(m, w, l, h, v, logged, dir, inum, ty, name, bn)
    ensures h.Ok() && FileStore.AllSound(h) && Created(m, FileStore.Stored(h), dir, inum, ty, name)
            && (h.sb.size <= BPB ==> Files.Adds(h, v, l, logged, 4))
    ensures Files.Grew(w, l, v, logged) && Files.Took(h.sb.DataStart(), w, v, Files.TouchedAt(dir, bn))
  {
    assert Spot(0);
  }

  /** ilock of the directory and dirlink; f is the file system before the inode was made. */
  method LinkIn(fs: Files.FileSys, dir: nat, inum: nat, ty: nat, name: seq<byte>, ghost m: map<nat, FileStore.File>,
                ghost f: Fs, ghost w: Ledger, ghost l: set<nat>)
    returns (ok: bool)
    requires w == fs.w && l == fs.logged && dir in m && inum !in m && HoldsFiles(fs, m[inum := FileStore.File(ty, [])])
    requires m[dir].ty == T_DIR && |m[dir].bytes| % Directories.DIRENT == 0
             && Directories.Lookup(m[dir].bytes, Directories.Name(name)).None?
    requires f.Ok() && Owned(f, w) && f.sb == fs.sb && dir < f.sb.ninodes
    modifies fs`num, fs`disk, fs`ip, fs`w, fs`logged, fs`calls
    ensures ok <==> Directories.RoomForEntry(f, dir, m[dir].bytes)
    ensures ok ==> SoundNow(fs) && Making(m, w, l, fs.View(), fs.w, fs.logged, dir, inum, ty, name,
                Directories.Place(m[dir].bytes) / BSIZE)
  {
    ghost var c := m[dir].bytes;
    LockDir(fs, dir, m[inum := FileStore.File(ty, [])]);
    ghost var e := fs.View();
    SameRoom(f, e, w, dir, c);
    var r;
    ghost var d;
    ok, r, d := Directories.Dirlink(fs, name, inum, c);
    if !ok { return; }
    LinkSeen(e, fs.View(), m, dir, inum, ty, name, d);
    SoundNowMeans(fs);
    MakingIs(m, w, l, fs.View(), fs.w, fs.logged, dir, inum, ty, name, Directories.Place(c) / BSIZE);
  }

  /** ilock of the directory. */
  method LockDir(fs: Files.FileSys, dir: nat, ghost m: map<nat, FileStore.File>)
    requires HoldsFiles(fs, m) && dir in m
    modifies fs`num, fs`ip
    ensures fs.Valid() && fs.InSync() && Files.Dense(fs.View(), fs.num) && fs.num == dir && Type(fs.ip) == m[dir].ty
    ensures Files.Holds(fs.View(), m[dir].bytes)
    ensures FileStore.AllSound(fs.View()) && FileStore.Stored(fs.View()) == m
  {
    assert FileStore.Sound(fs) && FileStore.Stored(fs.View()) == m by { assert Spot(0); }
    assert dir in FileStore.Stored(fs.View());
    var locked := FileStore.Ilock(fs, dir);
    assert FileStore.InodeSound(fs.View(), dir) && FileStore.Stored(fs.View())[dir] == m[dir];
    Directories.HoldsIs(fs.View(), m[dir].bytes);
  }

  /** What dirlink made of the files. */
  lemma LinkSeen(e: Fs, h: Fs, m: map<nat, FileStore.File>, dir: nat, inum: nat, ty: nat, name: seq<byte>, d: seq<byte>)
    requires e.Ok() && h.Ok() && FileStore.AllSound(e) && Files.SameOthers(e, h) && e.num == dir && dir in m
    requires FileStore.Stored(e) == m[inum := FileStore.File(ty, [])] && inum !in m && Files.Dense(h, h.num)
    requires Files.Holds(h, d) && Type(h.ip) == Type(e.ip) == m[dir].ty == T_DIR
    requires forall n :: Directories.Lookup(d, n) ==
                         if n == Directories.Name(name) && inum % 0x1_0000 != 0 then Some(inum % 0x1_0000)
                         else Directories.Lookup(m[dir].bytes, n)
    ensures FileStore.AllSound(h) && Created(m, FileStore.Stored(h), dir, inum, ty, name)
  {
    Directories.HoldsMeans(h, d);
    FileStore.OneFile(e, h);
  }

  /** Room depends on the ledger alone. */
  lemma SameRoom(f: Fs, e: Fs, w: Ledger, dir: nat, c: seq<byte>)
    requires f.Ok() && e.Ok() && e.sb == f.sb && Owned(f, w) && Owned(e, w) && w.loose == {} && w.gone == {}
    ensures Directories.RoomForEntry(e, dir, c) <==> Directories.RoomForEntry(f, dir, c)
  {
    Files.SlotsTaken(f, w);
    Files.SlotsTaken(e, w);
    Files.UsedOrFree(f, w);
    Files.UsedOrFree(e, w);
    assert Files.FreeBlocks(e) == Files.FreeBlocks(f);
    var s := Files.TouchedAt(dir, Directories.Place(c) / BSIZE);
    assert Files.Vacant(e, s) == Files.Vacant(f, s);
  }

  lemma CreateHome(g: Geometry, f: Fs, w: Ledger, h: Fs, v: Ledger, base: Disk, calls: seq<Files.Call>, l: set<nat>,
                   m: map<nat, FileStore.File>, dir: nat, inum: nat, ty: nat, name: seq<byte>, bn: nat)
    requires f.Ok() && Owned(f, w) && w.loose == {} && w.gone == {} && Hosts(g, f.sb) && OwnersHome(g, w)
    requires h.Ok() && h.sb == f.sb && Owned(h, v) && inum < f.sb.ninodes && Files.Kept(base, h.disk, calls, l)
    requires f.sb.size <= BPB && FileStore.AllSound(h)
             && Making(m, w, {f.sb.IBlock(inum)}, h, v, l, dir, inum, ty, name, bn)
    ensures Created(m, FileStore.Stored(h), dir, inum, ty, name)
    ensures |l| <= 6 && (AllHome(g, calls) <==> OwnersHome(g, v))
            && (AllHome(g, calls) ==> forall x :: x in l ==> g.Home(x))
    requires dir < f.sb.ninodes && bn < MAXFILE
    ensures OwnersHome(g, v) <==> RoomBelow(g, f, Files.TouchedAt(dir, bn))
    ensures |FreeBelow(g, f)| >= 2 ==> OwnersHome(g, v)
  {
    MakingMeans(m, w, {f.sb.IBlock(inum)}, h, v, l, dir, inum, ty, name, bn);
    CreateSectors(g, f, w, h, v, l, inum);
    Files.KeptMeans(base, h.disk, calls, l);
    SectorsHome(g, calls);
    HomeIff(g, f, w, h, v, Files.TouchedAt(dir, bn));
    if |FreeBelow(g, f)| >= 2 { TwoBlocks(g, f, dir, bn); }
  }

  lemma CreateSectors(g: Geometry, f: Fs, w: Ledger, h: Fs, v: Ledger, l: set<nat>, inum: nat)
    requires f.Ok() && Hosts(g, f.sb) && OwnersHome(g, w) && h.Ok() && h.sb == f.sb && Owned(h, v)
             && inum < f.sb.ninodes
    requires Files.Adds(h, v, {f.sb.IBlock(inum)}, l, 4) && Files.Grew(w, {f.sb.IBlock(inum)}, v, l)
    ensures |l| <= 6 && (OwnersHome(g, v) <==> forall x :: x in l ==> g.Home(x))
  {
    var e :| Files.InUse(h, v, e) && |e| <= 4 && l <= {f.sb.IBlock(inum)} + e;
    Files.UnionSize({f.sb.IBlock(inum)}, e);
    Files.SubsetSize(l, {f.sb.IBlock(inum)} + e);
    LayoutApart(f.sb, inum, 0);
    Files.SlotsTaken(h, v);
  }

  /** A directory entry needs at most a block and an indirect block. */
  lemma TwoBlocks(g: Geometry, f: Fs, dir: nat, bn: nat)
    requires f.Ok() && Hosts(g, f.sb) && |FreeBelow(g, f)| >= 2
    ensures RoomBelow(g, f, Files.TouchedAt(dir, bn))
  {
    Files.TouchedOne(dir, bn);
    assert |Files.TouchedAt(dir, bn)| <= 2;
    Files.SlotSubset(Files.Vacant(f, Files.TouchedAt(dir, bn)), Files.TouchedAt(dir, bn));
  }
}
