/**
 The redo log on disk as a machine whose steps are single sector writes
 (source/log.c over source/memide.c).  A crash may fall between any two steps,
 during recovery too.  `Spec` is an atomic store that knows nothing of logs or
 sectors being written one at a time; `CrashAtomicity` ties the two together.
 */
module CrashLog {
  import opened Wrappers
  import opened Blocks
  import opened Counting

  const LOGSIZE: nat := 10

  /** Where the log lies: header at `start`, log blocks in the `nlog - 1` sectors after it. */
  datatype Geometry = Geometry(start: nat, nlog: nat, disksize: nat) {
    predicate Ok() {
      1 <= nlog && start + nlog <= disksize < 0x8000_0000
    }

    /** A sector outside the log region. */
    predicate Home(s: int) {
      0 <= s < disksize && (s < start || start + nlog <= s)
    }

    /** How many sectors one transaction may log: the guard at the top of log_write. */
    function Capacity(): nat
      requires Ok()
    {
      if nlog - 1 < LOGSIZE then nlog - 1 else LOGSIZE
    }
  }

  /** The sector list of a header, in memory or on disk. */
  predicate ListOk(g: Geometry, lh: seq<nat>)
    requires g.Ok()
  {
    |lh| <= g.Capacity() && NoRepeats(lh) && forall i :: 0 <= i < |lh| ==> g.Home(lh[i])
  }

  // ---------------------------------------------------------------- header sector

  /** write_head's effect on the header sector: the count and that many sector numbers. */
  function PutHead(b: Block, lh: seq<nat>): Block
    requires |lh| <= LOGSIZE && forall i :: 0 <= i < |lh| ==> lh[i] < 0x8000_0000
  {
    PutWords(PutWord(b, 0, |lh|), 1, lh)
  }

  /** read_head: the sector list stored in a header sector. */
  function GetHead(b: Block): seq<nat>
    requires Word(b, 0) <= LOGSIZE
  {
    seq(Word(b, 0), i requires 0 <= i < Word(b, 0) => Word(b, 1 + i))
  }

  /** Reading a header back gives exactly the list that was written. */
  lemma HeadRoundTrip(b: Block, lh: seq<nat>)
    requires |lh| <= LOGSIZE && forall i :: 0 <= i < |lh| ==> lh[i] < 0x8000_0000
    ensures Word(PutHead(b, lh), 0) == |lh|
    ensures GetHead(PutHead(b, lh)) == lh
  {
  }

  /** The i-th block of the log, right after the header. */
  function LogBlock(g: Geometry, d: Disk, i: nat): Block
    requires g.start + 1 + i < |d|
  {
    d[g.start + 1 + i]
  }

  predicate HeadOk(g: Geometry, d: Disk)
    requires g.Ok()
  {
    |d| == g.disksize && Word(d[g.start], 0) <= LOGSIZE && ListOk(g, GetHead(d[g.start]))
  }

  function Head(g: Geometry, d: Disk): seq<nat>
    requires g.Ok() && HeadOk(g, d)
  {
    GetHead(d[g.start])
  }

  // ---------------------------------------------------------------- recovery in one go

  /** install_trans, first k blocks. */
  function Installed(g: Geometry, d: Disk, lh: seq<nat>, k: nat): (r: Disk)
    requires g.Ok() && |d| == g.disksize && ListOk(g, lh) && k <= |lh|
    ensures |r| == |d|
  {
    if k == 0 then d
    else
      var e := Installed(g, d, lh, k - 1);
      e[lh[k - 1] := e[g.start + k]]
  }

  /** recover_from_log run to its end without interruption. */
  function Recovered(g: Geometry, d: Disk): (r: Disk)
    requires g.Ok() && HeadOk(g, d)
    ensures |r| == |d|
  {
    var e := Installed(g, d, Head(g, d), |Head(g, d)|);
    e[g.start := PutHead(e[g.start], [])]
  }

  /** Contents the log promises for the home sectors, whether or not installed yet. */
  ghost predicate Promises(g: Geometry, d: Disk, contents: Disk)
    requires g.Ok() && HeadOk(g, d) && |contents| == g.disksize
  {
    && (forall i :: 0 <= i < |Head(g, d)| ==> LogBlock(g, d, i) == contents[Head(g, d)[i]])
    && (forall s :: g.Home(s) && s !in Head(g, d) ==> d[s] == contents[s])
  }

  ghost predicate SameHome(g: Geometry, d: Disk, e: Disk)
  {
    |d| == g.disksize && |e| == g.disksize && forall s :: g.Home(s) ==> d[s] == e[s]
  }

  lemma {:induction false} InstalledIs(g: Geometry, d: Disk, lh: seq<nat>, k: nat)
    requires g.Ok() && |d| == g.disksize && ListOk(g, lh) && k <= |lh|
    ensures forall i :: 0 <= i < k ==> Installed(g, d, lh, k)[lh[i]] == LogBlock(g, d, i)
    ensures forall s :: 0 <= s < |d| && s !in lh[..k] ==> Installed(g, d, lh, k)[s] == d[s]
  {
    if k > 0 {
      InstalledIs(g, d, lh, k - 1);
      var e := Installed(g, d, lh, k - 1);
      assert lh[..k] == lh[..k - 1] + [lh[k - 1]];
      assert e[g.start + k] == d[g.start + k];
    }
  }

  /** Uninterrupted recovery delivers what the log promised and leaves an empty header. */
  lemma RecoveredIs(g: Geometry, d: Disk, contents: Disk)
    requires g.Ok() && HeadOk(g, d) && |contents| == g.disksize
    requires Promises(g, d, contents)
    ensures SameHome(g, Recovered(g, d), contents)
    ensures HeadOk(g, Recovered(g, d)) && Head(g, Recovered(g, d)) == []
  {
    var lh := Head(g, d);
    InstalledIs(g, d, lh, |lh|);
    assert lh[..|lh|] == lh;
    var e := Installed(g, d, lh, |lh|);
    HeadRoundTrip(e[g.start], []);
    forall s | g.Home(s)
      ensures Recovered(g, d)[s] == contents[s]
    {
      assert Recovered(g, d)[s] == e[s];
      if s in lh {
        var i :| 0 <= i < |lh| && lh[i] == s;
        assert e[lh[i]] == LogBlock(g, d, i);
      }
    }
  }

  // ---------------------------------------------------------------- the step machine

  /** What the running kernel knows; lost by a crash. */
  datatype Phase =
    | Down                                   // crashed or not booted
    | Idle                                   // no transaction
    | Active(lh: seq<nat>)                   // between begin_trans and commit_trans
    | Installing(lh: seq<nat>, k: nat)       // header on disk, first k blocks copied home

  datatype State = State(disk: Disk, phase: Phase)

  datatype Event =
    | Begin
    | Write(sector: nat, data: Block)        // log_write's sector write
    | Commit                                 // write_head in commit_trans
    | Install                                // one bwrite in install_trans
    | Clear                                  // write_head with n == 0
    | Crash
    | Boot                                   // read_head in recover_from_log

  /** The first position from i on that holds s, or the end of the list. */
  function IndexFrom(lh: seq<nat>, s: nat, i: nat): (k: nat)
    requires i <= |lh|
    ensures i <= k <= |lh|
    ensures k < |lh| ==> lh[k] == s
    ensures forall j :: i <= j < k ==> lh[j] != s
    decreases |lh| - i
  {
    if i == |lh| || lh[i] == s then i else IndexFrom(lh, s, i + 1)
  }

  function IndexIn(lh: seq<nat>, s: nat): (k: nat)
    ensures k <= |lh|
    ensures k < |lh| ==> lh[k] == s
    ensures k == |lh| ==> s !in lh
  {
    IndexFrom(lh, s, 0)
  }

  predicate Enabled(g: Geometry, st: State, ev: Event)
    requires g.Ok() && |st.disk| == g.disksize
  {
    match ev
    case Begin => st.phase.Idle?
    case Write(s, _) => st.phase.Active? && |st.phase.lh| < g.Capacity() && g.Home(s)
    case Commit => st.phase.Active? && ListOk(g, st.phase.lh)
    case Install => st.phase.Installing? && st.phase.k < |st.phase.lh| <= g.Capacity()
    && st.phase.lh[st.phase.k] < g.disksize
    case Clear => st.phase.Installing? && st.phase.k == |st.phase.lh|
    case Crash => true
    case Boot => st.phase.Down? && Word(st.disk[g.start], 0) <= LOGSIZE
  }

  function Append(lh: seq<nat>, s: nat): seq<nat>
  {
    if IndexIn(lh, s) < |lh| then lh else lh + [s]
  }

  function Step(g: Geometry, st: State, ev: Event): (r: State)
    requires g.Ok() && |st.disk| == g.disksize && Enabled(g, st, ev)
    ensures |r.disk| == g.disksize
  {
    var d := st.disk;
    match ev
    case Begin => State(d, Active([]))
    case Write(s, b) => State(d[g.start + 1 + IndexIn(st.phase.lh, s) := b], Active(Append(st.phase.lh, s)))
    case Commit =>
      if st.phase.lh == [] then State(d, Idle)
      else State(d[g.start := PutHead(d[g.start], st.phase.lh)], Installing(st.phase.lh, 0))
    case Install =>
      State(d[st.phase.lh[st.phase.k] := d[g.start + 1 + st.phase.k]], Installing(st.phase.lh, st.phase.k + 1))
    case Clear => State(d[g.start := PutHead(d[g.start], [])], Idle)
    case Crash => State(d, Down)
    case Boot => State(d, Installing(GetHead(d[g.start]), 0))
  }

  /** The state after a run, or None if some event was not enabled when its turn came. */
  function Exec(g: Geometry, st: State, evs: seq<Event>): (r: Option<State>)
    requires g.Ok() && |st.disk| == g.disksize
    ensures r.Some? ==> |r.value.disk| == g.disksize
  {
    if evs == [] then Some(st)
    else
      var pre := Exec(g, st, evs[..|evs| - 1]);
      if pre.Some? && Enabled(g, pre.value, evs[|evs| - 1]) then Some(Step(g, pre.value, evs[|evs| - 1])) else None
  }

  /** A run from a disk that has not booted yet. */
  predicate Runs(g: Geometry, d: Disk, evs: seq<Event>)
    requires g.Ok() && |d| == g.disksize
  {
    Exec(g, State(d, Down), evs).Some?
  }

  function Final(g: Geometry, d: Disk, evs: seq<Event>): (r: State)
    requires g.Ok() && |d| == g.disksize && Runs(g, d, evs)
    ensures |r.disk| == g.disksize
  {
    Exec(g, State(d, Down), evs).value
  }

  /** Whether an event writes a sector. */
  predicate Writes(st: State, ev: Event) {
    match ev
    case Write(_, _) => true
    case Commit => st.phase.Active? && st.phase.lh != []
    case Install => true
    case Clear => true
    case Begin => false
    case Crash => false
    case Boot => false
  }

  /** The disk after each sector write of a run, in order. */
  function Disks(g: Geometry, d: Disk, evs: seq<Event>): seq<Disk>
    requires g.Ok() && |d| == g.disksize && Runs(g, d, evs)
  {
    if evs == [] then []
    else
      var pre := evs[..|evs| - 1];
      Disks(g, d, pre) + if Writes(Final(g, d, pre), evs[|evs| - 1]) then [Final(g, d, evs).disk] else []
  }

  lemma RunExtend(g: Geometry, d: Disk, evs: seq<Event>, ev: Event)
    requires g.Ok() && |d| == g.disksize && Runs(g, d, evs) && Enabled(g, Final(g, d, evs), ev)
    ensures Runs(g, d, evs + [ev])
    ensures Final(g, d, evs + [ev]) == Step(g, Final(g, d, evs), ev)
    ensures Disks(g, d, evs + [ev]) ==
            Disks(g, d, evs) + if Writes(Final(g, d, evs), ev) then [Final(g, d, evs + [ev]).disk] else []
  {
    assert (evs + [ev])[..|evs|] == evs;
  }

  // ---------------------------------------------------------------- the atomic store

  /** Committed contents, and the writes of the open transaction if there is one. */
  datatype Spec = Spec(contents: Disk, open: Option<map<nat, Block>>)

  function Overlay(d: Disk, m: map<nat, Block>): (r: Disk)
    ensures |r| == |d|
    ensures forall s :: 0 <= s < |d| ==> r[s] == if s in m then m[s] else d[s]
  {
    seq(|d|, s requires 0 <= s < |d| => if s in m then m[s] else d[s])
  }

  /** A commit takes effect at once; a crash forgets the open transaction; nothing else matters. */
  function SpecStep(sp: Spec, ev: Event): (r: Spec)
    ensures |r.contents| == |sp.contents|
  {
    match ev
    case Begin => sp.(open := Some(map[]))
    case Write(s, b) => if sp.open.Some? then sp.(open := Some(sp.open.value[s := b])) else sp
    case Commit => if sp.open.Some? then Spec(Overlay(sp.contents, sp.open.value), None) else sp
    case Crash => sp.(open := None)
    case Install => sp
    case Clear => sp
    case Boot => sp
  }

  function SpecExec(sp: Spec, evs: seq<Event>): (r: Spec)
    ensures |r.contents| == |sp.contents|
  {
    if evs == [] then sp else SpecStep(SpecExec(sp, evs[..|evs| - 1]), evs[|evs| - 1])
  }

  /** What a reader sees: the open transaction's own writes over the committed contents. */
  function Visible(sp: Spec, s: nat): Block
    requires s < |sp.contents|
  {
    if sp.open.Some? && s in sp.open.value then sp.open.value[s] else sp.contents[s]
  }

  // ---------------------------------------------------------------- invariant

  ghost predicate PhaseInv(g: Geometry, st: State, sp: Spec)
    requires g.Ok() && HeadOk(g, st.disk) && |sp.contents| == g.disksize
  {
    match st.phase
    case Down => sp.open.None?
    case Idle => sp.open.None? && Head(g, st.disk) == []
    case Active(lh) =>
      && sp.open.Some? && Head(g, st.disk) == [] && ListOk(g, lh)
      && sp.open.value.Keys == (set s | s in lh)
      && forall i :: 0 <= i < |lh| ==> LogBlock(g, st.disk, i) == sp.open.value[lh[i]]
    case Installing(lh, k) =>
      && sp.open.None? && Head(g, st.disk) == lh && k <= |lh|
      && forall i :: 0 <= i < k ==> st.disk[lh[i]] == sp.contents[lh[i]]
  }

  ghost predicate Inv(g: Geometry, st: State, sp: Spec)
    requires g.Ok()
  {
    && HeadOk(g, st.disk) && |sp.contents| == g.disksize
    && Promises(g, st.disk, sp.contents)
    && PhaseInv(g, st, sp)
  }

  lemma {:induction false} AppendIs(lh: seq<nat>, s: nat)
    ensures IndexIn(lh, s) < |Append(lh, s)| && Append(lh, s)[IndexIn(lh, s)] == s
    ensures lh <= Append(lh, s)
    ensures NoRepeats(lh) ==> NoRepeats(Append(lh, s))
    ensures forall x :: x in Append(lh, s) <==> x in lh || x == s
  {
  }

  /** A write to the log blocks keeps the header and every home sector. */
  lemma LogBlockWrite(g: Geometry, d: Disk, i: nat, b: Block, contents: Disk)
    requires g.Ok() && HeadOk(g, d) && |contents| == g.disksize && Promises(g, d, contents)
    requires Head(g, d) == [] && i < g.Capacity()
    ensures var d' := d[g.start + 1 + i := b];
            HeadOk(g, d') && Head(g, d') == [] && Promises(g, d', contents)
  {
    var d' := d[g.start + 1 + i := b];
    assert d'[g.start] == d[g.start];
    assert forall t :: g.Home(t) ==> d'[t] == d[t];
  }

  lemma LoggedAfterWrite(g: Geometry, d: Disk, lh: seq<nat>, open: map<nat, Block>, s: nat, b: Block)
    requires g.Ok() && |d| == g.disksize && ListOk(g, lh) && |lh| < g.Capacity() && g.Home(s)
    requires open.Keys == set x | x in lh
    requires forall i :: 0 <= i < |lh| ==> LogBlock(g, d, i) == open[lh[i]]
    ensures ListOk(g, Append(lh, s)) && open[s := b].Keys == set x | x in Append(lh, s)
    ensures var d' := d[g.start + 1 + IndexIn(lh, s) := b];
            forall j :: 0 <= j < |Append(lh, s)| ==> LogBlock(g, d', j) == open[s := b][Append(lh, s)[j]]
  {
    var i, lh' := IndexIn(lh, s), Append(lh, s);
    AppendIs(lh, s);
    var d' := d[g.start + 1 + i := b];
    assert open[s := b].Keys == set x | x in lh';
    forall j | 0 <= j < |lh'|
      ensures LogBlock(g, d', j) == open[s := b][lh'[j]]
    {
      if j != i {
        assert lh'[j] != lh'[i];
      }
    }
  }

  lemma InvWrite(g: Geometry, st: State, sp: Spec, s: nat, b: Block)
    requires g.Ok() && Inv(g, st, sp) && Enabled(g, st, Write(s, b))
    ensures Inv(g, Step(g, st, Write(s, b)), SpecStep(sp, Write(s, b)))
  {
    LogBlockWrite(g, st.disk, IndexIn(st.phase.lh, s), b, sp.contents);
    LoggedAfterWrite(g, st.disk, st.phase.lh, sp.open.value, s, b);
  }

  /** The commit point: once the header lists the logged sectors, the log promises them. */
  lemma HeadWrite(g: Geometry, d: Disk, lh: seq<nat>, contents: Disk, open: map<nat, Block>)
    requires g.Ok() && HeadOk(g, d) && |contents| == g.disksize && Promises(g, d, contents)
    requires Head(g, d) == [] && ListOk(g, lh) && open.Keys == set x | x in lh
    requires forall i :: 0 <= i < |lh| ==> LogBlock(g, d, i) == open[lh[i]]
    ensures var d' := d[g.start := PutHead(d[g.start], lh)];
            HeadOk(g, d') && Head(g, d') == lh && Promises(g, d', Overlay(contents, open))
  {
    HeadRoundTrip(d[g.start], lh);
    var d' := d[g.start := PutHead(d[g.start], lh)];
    var contents' := Overlay(contents, open);
    forall k | 0 <= k < |lh|
      ensures LogBlock(g, d', k) == contents'[lh[k]]
    {
      assert lh[k] in open;
      assert g.Home(lh[k]);
    }
  }

  lemma InvCommit(g: Geometry, st: State, sp: Spec)
    requires g.Ok() && Inv(g, st, sp) && Enabled(g, st, Commit)
    ensures Inv(g, Step(g, st, Commit), SpecStep(sp, Commit))
  {
    if st.phase.lh == [] {
      assert Overlay(sp.contents, sp.open.value) == sp.contents;
    } else {
      HeadWrite(g, st.disk, st.phase.lh, sp.contents, sp.open.value);
    }
  }

  /** Copying one logged block home keeps the header, the log blocks and the promise. */
  lemma HomeWrite(g: Geometry, d: Disk, k: nat, contents: Disk)
    requires g.Ok() && HeadOk(g, d) && |contents| == g.disksize && Promises(g, d, contents)
    requires k < |Head(g, d)|
    ensures var d' := d[Head(g, d)[k] := LogBlock(g, d, k)];
            && HeadOk(g, d') && Head(g, d') == Head(g, d) && Promises(g, d', contents)
            && d'[Head(g, d)[k]] == contents[Head(g, d)[k]]
  {
    var lh := Head(g, d);
    var d' := d[lh[k] := LogBlock(g, d, k)];
    assert g.Home(lh[k]);
    assert d'[g.start] == d[g.start];
  }

  lemma InvInstall(g: Geometry, st: State, sp: Spec)
    requires g.Ok() && Inv(g, st, sp) && Enabled(g, st, Install)
    ensures Inv(g, Step(g, st, Install), sp)
  {
    HomeWrite(g, st.disk, st.phase.k, sp.contents);
  }

  lemma InvClear(g: Geometry, st: State, sp: Spec)
    requires g.Ok() && Inv(g, st, sp) && Enabled(g, st, Clear)
    ensures Inv(g, Step(g, st, Clear), sp)
  {
    HeadRoundTrip(st.disk[g.start], []);
    var lh := st.phase.lh;
    forall s | g.Home(s)
      ensures st.disk[s] == sp.contents[s]
    {
      if s in lh {
        var i :| 0 <= i < |lh| && lh[i] == s;
      }
    }
  }

  /** One step of the log keeps the agreement with one step of the atomic store. */
  lemma InvStep(g: Geometry, st: State, sp: Spec, ev: Event)
    requires g.Ok() && Inv(g, st, sp) && Enabled(g, st, ev)
    ensures Inv(g, Step(g, st, ev), SpecStep(sp, ev))
  {
    match ev
    case Write(s, b) => InvWrite(g, st, sp, s, b);
    case Commit => InvCommit(g, st, sp);
    case Install => InvInstall(g, st, sp);
    case Clear => InvClear(g, st, sp);
    case _ =>
  }

  /** A disk as mkfs leaves it: the header sector says the log is empty. */
  predicate Formatted(g: Geometry, d: Disk)
    requires g.Ok()
  {
    |d| == g.disksize && Word(d[g.start], 0) == 0
  }

  lemma {:induction false} InvRun(g: Geometry, d: Disk, evs: seq<Event>)
    requires g.Ok() && Formatted(g, d) && Runs(g, d, evs)
    ensures Inv(g, Final(g, d, evs), SpecExec(Spec(d, None), evs))
  {
    if evs != [] {
      var pre := evs[..|evs| - 1];
      InvRun(g, d, pre);
      InvStep(g, Final(g, d, pre), SpecExec(Spec(d, None), pre), evs[|evs| - 1]);
    }
  }

  // ---------------------------------------------------------------- main results

  /**
   Crash atomicity.  After any run of transactions, crashes and reboots, stopped
   between any two sector writes, completing recovery leaves every home sector
   with the contents of the atomic store: committed transactions in full, the
   open one not at all.
   */
  lemma CrashAtomicity(g: Geometry, d: Disk, evs: seq<Event>)
    requires g.Ok() && Formatted(g, d) && Runs(g, d, evs)
    ensures var now := Final(g, d, evs).disk;
            && HeadOk(g, now)
            && SameHome(g, Recovered(g, now), SpecExec(Spec(d, None), evs).contents)
            && Head(g, Recovered(g, now)) == []
  {
    InvRun(g, d, evs);
    var now := Final(g, d, evs).disk;
    RecoveredIs(g, now, SpecExec(Spec(d, None), evs).contents);
  }

  /** Each disk image left behind by a sector write is the image after some prefix of the run, and recovers as that
      prefix says. */
  lemma {:induction false} EveryImageRecovers(g: Geometry, d: Disk, evs: seq<Event>, j: nat) returns (m: nat)
    requires g.Ok() && Formatted(g, d) && Runs(g, d, evs) && j < |Disks(g, d, evs)|
    ensures m <= |evs| && Runs(g, d, evs[..m]) && Final(g, d, evs[..m]).disk == Disks(g, d, evs)[j]
    ensures j < |Disks(g, d, evs[..m])| && HeadOk(g, Disks(g, d, evs)[j])
    ensures SameHome(g, Recovered(g, Disks(g, d, evs)[j]), SpecExec(Spec(d, None), evs[..m]).contents)
  {
    var pre := evs[..|evs| - 1];
    if j < |Disks(g, d, pre)| {
      m := EveryImageRecovers(g, d, pre, j);
      assert pre[..m] == evs[..m];
    } else {
      m := |evs|;
      assert evs[..m] == evs;
      CrashAtomicity(g, d, evs);
    }
  }

  /** Whenever the log is idle the home sectors themselves are the committed contents. */
  lemma IdleIsCommitted(g: Geometry, d: Disk, evs: seq<Event>)
    requires g.Ok() && Formatted(g, d) && Runs(g, d, evs)
    requires Final(g, d, evs).phase.Idle?
    ensures SameHome(g, Final(g, d, evs).disk, SpecExec(Spec(d, None), evs).contents)
  {
    InvRun(g, d, evs);
  }

  /** Recovery cut off after k blocks and started again ends as if never cut off. */
  lemma RecoveryRestartable(g: Geometry, d: Disk, k: nat)
    requires g.Ok() && HeadOk(g, d) && k <= |Head(g, d)|
    ensures var cut := Installed(g, d, Head(g, d), k);
            HeadOk(g, cut) && Recovered(g, cut) == Recovered(g, d)
  {
    var lh := Head(g, d);
    var cut := Installed(g, d, lh, k);
    InstalledIs(g, d, lh, k);
    assert cut[g.start] == d[g.start];
    assert Head(g, cut) == lh;
    InstalledIs(g, d, lh, |lh|);
    InstalledIs(g, cut, lh, |lh|);
    var a, b := Installed(g, d, lh, |lh|), Installed(g, cut, lh, |lh|);
    assert lh[..|lh|] == lh;
    forall s | 0 <= s < |d|
      ensures a[s] == b[s]
    {
      if s in lh {
        var i :| 0 <= i < |lh| && lh[i] == s;
        assert a[lh[i]] == LogBlock(g, d, i) && b[lh[i]] == LogBlock(g, cut, i);
      } else {
        assert s !in lh[..k];
      }
    }
    assert a == b;
  }
}
