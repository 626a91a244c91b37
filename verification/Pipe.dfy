/**
 The pipe's ring buffer (source/pipe.c).  Each method is what one process does
 between getting p->lock and giving it up, in release or in sleep, so any
 interleaving of readers and writers is a sequence of calls.  Module PipeRuns puts
 these steps into the interleavings of module Procs.
 */
module Pipe {
  import opened Blocks

  const PIPESIZE: nat := 512
  const WRAP: nat := 0x1_0000_0000

  /** Unsigned 32-bit addition. */
  function Add32(x: nat, y: nat): (r: nat)
    ensures r < WRAP
  {
    (x + y) % WRAP
  }

  /**
   The counters are only known modulo 2^32, yet comparing them tells the true
   distance between them as long as that is at most 512.
   */
  lemma CountersTell(sent: nat, got: nat)
    requires got <= sent <= got + PIPESIZE
    ensures (sent % WRAP == got % WRAP) <==> sent == got
    ensures (sent % WRAP == Add32(got % WRAP, PIPESIZE)) <==> sent == got + PIPESIZE
    ensures (sent % WRAP) % PIPESIZE == sent % PIPESIZE
    ensures (sent % WRAP - got % WRAP) % WRAP == sent - got
  {
    var a, b := sent / WRAP, got / WRAP;
    assert sent == a * WRAP + sent % WRAP && got == b * WRAP + got % WRAP;
    assert sent == (a * 8388608) * PIPESIZE + sent % WRAP;
    SlotOf(a * 8388608, sent % WRAP);
  }

  lemma SlotOf(k: nat, r: nat)
    ensures (k * PIPESIZE + r) % PIPESIZE == r % PIPESIZE
  {
  }

  lemma NextCounter(n: nat)
    ensures Add32(n % WRAP, 1) == (n + 1) % WRAP
  {
  }

  /** Two positions less than a ring apart fall into different slots. */
  lemma SlotsApart(i: nat, j: nat)
    requires i < j < i + PIPESIZE
    ensures i % PIPESIZE != j % PIPESIZE
  {
  }

  // ---------------------------------------------------------------- the ring on values

  /** struct pipe: the ring, its two 32-bit counters and the open ends. */
  datatype Buf = Buf(data: seq<byte>, nread: nat, nwrite: nat, readopen: bool, writeopen: bool) {
    predicate Empty() { nread == nwrite }
    predicate Full() { nwrite == Add32(nread, PIPESIZE) }
    predicate ReadersWait() { Empty() && writeopen }
    predicate WritersWait() { Full() && readopen }
  }

  /** data[nwrite++ % PIPESIZE] = x */
  function PutIn(b: Buf, x: byte): Buf
    requires |b.data| == PIPESIZE
  {
    b.(data := b.data[b.nwrite % PIPESIZE := x], nwrite := Add32(b.nwrite, 1))
  }

  /** data[nread++ % PIPESIZE] */
  function NextOut(b: Buf): byte
    requires |b.data| == PIPESIZE
  {
    b.data[b.nread % PIPESIZE]
  }

  function TakeOut(b: Buf): Buf {
    b.(nread := Add32(b.nread, 1))
  }

  /** What was read is the first part of what was written; the rest is in the ring. */
  ghost predicate Holds(b: Buf, sent: seq<byte>, got: seq<byte>) {
    && |b.data| == PIPESIZE
    && got <= sent && |sent| <= |got| + PIPESIZE
    && b.nwrite == |sent| % WRAP && b.nread == |got| % WRAP
    && forall i :: |got| <= i < |sent| ==> b.data[i % PIPESIZE] == sent[i]
  }

  /** The code's tests of the counters tell whether the ring is empty or full. */
  lemma TestsTell(b: Buf, sent: seq<byte>, got: seq<byte>)
    requires Holds(b, sent, got)
    ensures (b.Empty() <==> got == sent) && (b.Full() <==> |sent| == |got| + PIPESIZE)
    ensures !(b.Empty() && b.Full())
  {
    CountersTell(|sent|, |got|);
  }

  lemma PutHolds(b: Buf, sent: seq<byte>, got: seq<byte>, x: byte)
    requires Holds(b, sent, got) && !b.Full()
    ensures Holds(PutIn(b, x), sent + [x], got) && !PutIn(b, x).Empty()
  {
    TestsTell(b, sent, got);
    CountersTell(|sent|, |got|);
    NextCounter(|sent|);
    forall i | |got| <= i < |sent|
      ensures i % PIPESIZE != |sent| % PIPESIZE
    {
      SlotsApart(i, |sent|);
    }
    TestsTell(PutIn(b, x), sent + [x], got);
  }

  lemma TakeHolds(b: Buf, sent: seq<byte>, got: seq<byte>)
    requires Holds(b, sent, got) && !b.Empty()
    ensures Holds(TakeOut(b), sent, got + [NextOut(b)]) && !TakeOut(b).Full()
  {
    TestsTell(b, sent, got);
    CountersTell(|got|, |got|);
    NextCounter(|got|);
    TestsTell(TakeOut(b), sent, got + [NextOut(b)]);
  }

  // ---------------------------------------------------------------- the ring in place

  datatype WriteResult = Wrote | WriteSleeps | NoReader
  datatype ReadResult = Read | ReadSleeps | Killed

  class Ring {
    const data: array<byte>
    var nread: nat
    var nwrite: nat
    var readopen: bool
    var writeopen: bool

    // all bytes ever put in and taken out
    ghost var sent: seq<byte>
    ghost var got: seq<byte>

    ghost function View(): Buf
      reads this, data
    {
      Buf(data[..], nread, nwrite, readopen, writeopen)
    }

    ghost predicate Valid()
      reads this, data
    {
      data.Length == PIPESIZE && Holds(View(), sent, got)
    }

    constructor ()
      ensures Valid() && fresh(data) && sent == [] && got == [] && readopen && writeopen
    {
      data := new byte[PIPESIZE];
      nread, nwrite, readopen, writeopen := 0, 0, true, true;
      sent, got := [], [];
    }

    predicate Full()
      reads this
    {
      nwrite == Add32(nread, PIPESIZE)
    }

    predicate Empty()
      reads this
    {
      nread == nwrite
    }

    method Put(x: byte)
      requires Valid() && !Full()
      modifies this`nwrite, this`sent, data
      ensures Valid() && sent == old(sent) + [x] && View() == PutIn(old(View()), x)
    {
      PutHolds(View(), sent, got, x);
      data[nwrite % PIPESIZE] := x;
      nwrite := Add32(nwrite, 1);
      sent := sent + [x];
    }

    method Take() returns (x: byte)
      requires Valid() && !Empty()
      modifies this`nread, this`got
      ensures Valid() && got == old(got) + [x] && x == NextOut(old(View())) && View() == TakeOut(old(View()))
    {
      TakeHolds(View(), sent, got);
      x := data[nread % PIPESIZE];
      nread := Add32(nread, 1);
      got := got + [x];
    }

    /**
     pipewrite from byte i on, up to its release or its next sleep.  Sleeping with i bytes
     done, or woken by kill, it is called again with that i.
     */
    method Write(addr: seq<byte>, i: nat) returns (r: WriteResult, i': nat)
      requires Valid() && i <= |addr|
      modifies this`nwrite, this`sent, data
      ensures Valid() && i <= i' <= |addr|
      ensures sent == old(sent) + addr[i..i'] && got == old(got)
      ensures r.Wrote? <==> i' == |addr|
      ensures !r.Wrote? ==> |sent| == |got| + PIPESIZE
      ensures r.WriteSleeps? ==> readopen
      ensures r.NoReader? ==> !readopen
    {
      i' := i;
      while i' < |addr|
        invariant i <= i' <= |addr| && Valid()
        invariant sent == old(sent) + addr[i..i'] && got == old(got)
      {
        TestsTell(View(), sent, got);
        if Full() {
          return if !readopen then NoReader else WriteSleeps, i';
        }
        Put(addr[i']);
        i' := i' + 1;
      }
      r := Wrote;
    }

    /** piperead, up to its release or its next sleep. */
    method ReadBytes(n: nat, killed: bool) returns (r: ReadResult, out: seq<byte>)
      requires Valid()
      modifies this`nread, this`got
      ensures Valid() && sent == old(sent) && got == old(got) + out
      ensures !r.Read? <==> old(got) == old(sent) && writeopen
      ensures !r.Read? ==> out == [] && (r.Killed? <==> killed)
      ensures r.Read? ==> |out| == if |old(sent)| - |old(got)| < n then |old(sent)| - |old(got)| else n
    {
      out := [];
      TestsTell(View(), sent, got);
      if Empty() && writeopen {
        if killed { return Killed, []; }
        return ReadSleeps, [];
      }
      var i := 0;
      while i < n && !Empty()
        invariant i == |out| <= n && Valid()
        invariant sent == old(sent) && got == old(got) + out
      {
        TestsTell(View(), sent, got);
        var x := Take();
        out := out + [x];
        i := i + 1;
      }
      TestsTell(View(), sent, got);
      r := Read;
    }

    /** pipeclose; true if the pipe is to be freed. */
    method Close(writable: bool) returns (free: bool)
      requires Valid()
      modifies this`readopen, this`writeopen
      ensures Valid() && sent == old(sent) && got == old(got)
      ensures writeopen == (old(writeopen) && !writable) && readopen == (old(readopen) && writable)
      ensures free <==> !readopen && !writeopen
    {
      if writable {
        writeopen := false;
      } else {
        readopen := false;
      }
      free := !readopen && !writeopen;
    }
  }
}

/**
 A pipe among the processes of module Procs: the steps of its readers and writers
 under p->lock, interleaved with everything else that any CPU does.  Testing a counter
 and acting on the test are different steps, and only the lock keeps the test true.
 */
module PipeRuns {
  import opened Wrappers
  import opened Blocks
  import opened Procs
  import opened Pipe
  import opened Folding

  /**
   The processes, the pipe, all bytes ever put in and taken out, and the processes
   that have seen room, or a byte, since they got p->lock and have not used it yet.
   */
  datatype Sys = Sys(s: State, b: Buf, sent: seq<byte>, got: seq<byte>, room: set<nat>, some: set<nat>)

  datatype PAction =
    | Other(a: Action)
    | SeeRoom(c: nat)
    | PutByte(c: nat, x: byte)
    | SeeByte(c: nat)
    | TakeByte(c: nat)
    | ShutEnd(c: nat, writable: bool)

  /** The action is not about the conditions or ends of pipe id. */
  predicate Elsewhere(id: nat, a: Action) {
    !((a.SetCond? || a.CloseEnd?) && (a.ch == OfPipeRead(id) || a.ch == OfPipeWrite(id)))
  }

  predicate Locked(id: nat, s: State, c: nat) {
    On(s, c) && Me(s, c).loc.Holding? && Me(s, c).loc.l == PipeLock(id)
  }

  function EndOf(id: nat, writable: bool): Chan {
    if writable then OfPipeWrite(id) else OfPipeRead(id)
  }

  predicate PEnabled(id: nat, ps: Sys, a: PAction) {
    |ps.b.data| == PIPESIZE &&
    match a
    case Other(b) => Enabled(ps.s, b) && Elsewhere(id, b)
    case SeeRoom(c) => Locked(id, ps.s, c) && !ps.b.Full()
    case PutByte(c, _) => Locked(id, ps.s, c) && Who(ps.s, c) in ps.room
    case SeeByte(c) => Locked(id, ps.s, c) && !ps.b.Empty()
    case TakeByte(c) => Locked(id, ps.s, c) && Who(ps.s, c) in ps.some
    case ShutEnd(c, writable) => Locked(id, ps.s, c) && Enabled(ps.s, CloseEnd(c, EndOf(id, writable)))
  }

  /** The condition of a channel becomes `now`, if it is not so already. */
  function TurnTo(s: State, c: nat, ch: Chan, now: bool): State
    requires IsEnd(ch) && Locked(PipeOf(ch), s, c)
  {
    if (ch !in s.blocked) == now then s else Step(s, SetCond(c, ch, now))
  }

  function PipeOf(ch: Chan): nat
    requires IsEnd(ch)
  {
    ch.id
  }

  /** Both conditions follow the pipe's new state. */
  function Follow(id: nat, s: State, c: nat, b: Buf): State
    requires Locked(id, s, c)
  {
    TurnTo(TurnTo(s, c, OfPipeRead(id), !b.ReadersWait()), c, OfPipeWrite(id), !b.WritersWait())
  }

  /** Those that still hold p->lock; whoever gave it up starts over with the test. */
  function Still(id: nat, s: State, ps: set<nat>): set<nat> {
    set p | p in ps && p < |s.procs| && HoldsLk(s.procs[p].loc, PipeLock(id))
  }

  function Shut(b: Buf, writable: bool): Buf {
    if writable then b.(writeopen := false) else b.(readopen := false)
  }

  function PStep(id: nat, ps: Sys, a: PAction): Sys
    requires PEnabled(id, ps, a)
  {
    match a
    case Other(b) =>
      var t := Step(ps.s, b);
      ps.(s := t, room := Still(id, t, ps.room), some := Still(id, t, ps.some))
    case SeeRoom(c) => ps.(room := ps.room + {Who(ps.s, c)})
    case PutByte(c, x) =>
      var b := PutIn(ps.b, x);
      ps.(s := Follow(id, ps.s, c, b), b := b, sent := ps.sent + [x], room := ps.room - {Who(ps.s, c)})
    case SeeByte(c) => ps.(some := ps.some + {Who(ps.s, c)})
    case TakeByte(c) =>
      var b := TakeOut(ps.b);
      ps.(s := Follow(id, ps.s, c, b), b := b, got := ps.got + [NextOut(ps.b)], some := ps.some - {Who(ps.s, c)})
    case ShutEnd(c, writable) =>
      var b := Shut(ps.b, writable);
      ps.(s := Follow(id, Step(ps.s, CloseEnd(c, EndOf(id, writable))), c, b), b := b)
  }

  // ---------------------------------------------------------------- agreement

  /** The conditions and ends of the pipe are what its state says. */
  predicate CondsTell(id: nat, s: State, b: Buf) {
    && (OfPipeRead(id) in s.blocked <==> b.ReadersWait()) && (OfPipeWrite(id) in s.blocked <==> b.WritersWait())
    && (OfPipeRead(id) in s.closed <==> !b.readopen) && (OfPipeWrite(id) in s.closed <==> !b.writeopen)
  }

  /** What was seen is still so. */
  ghost predicate SeenStill(id: nat, ps: Sys) {
    && (forall p :: p in ps.room ==> p < |ps.s.procs| && HoldsLk(ps.s.procs[p].loc, PipeLock(id)) && !ps.b.Full())
    && (forall p :: p in ps.some ==> p < |ps.s.procs| && HoldsLk(ps.s.procs[p].loc, PipeLock(id)) && !ps.b.Empty())
  }

  ghost predicate Agree(id: nat, ps: Sys) {
    Holds(ps.b, ps.sent, ps.got) && CondsTell(id, ps.s, ps.b) && SeenStill(id, ps)
  }

  lemma LifeKeeps(s: State, a: Action)
    requires Enabled(s, a) && IsLife(a)
    ensures Step(s, a).blocked == s.blocked && Step(s, a).closed == s.closed
  {
  }

  lemma SyncKeeps(s: State, a: Action)
    requires Enabled(s, a) && !IsLife(a) && !IsTurn(a)
    ensures Step(s, a).blocked == s.blocked && Step(s, a).closed == s.closed
  {
  }

  lemma TurnKeeps(id: nat, s: State, a: Action)
    requires Enabled(s, a) && IsTurn(a) && Elsewhere(id, a)
    ensures var t := Step(s, a);
            forall ch ::
              ch == OfPipeRead(id) || ch == OfPipeWrite(id) ==>
                  (ch in t.blocked <==> ch in s.blocked) && (ch in t.closed <==> ch in s.closed)
  {
  }

  lemma OtherKeeps(id: nat, ps: Sys, a: Action)
    requires Agree(id, ps) && Enabled(ps.s, a) && Elsewhere(id, a)
    ensures Agree(id, PStep(id, ps, Other(a)))
  {
    if IsLife(a) { LifeKeeps(ps.s, a); } else if IsTurn(a) { TurnKeeps(id, ps.s, a); } else { SyncKeeps(ps.s, a); }
  }

  lemma TurnIs(s: State, c: nat, ch: Chan, now: bool)
    requires IsEnd(ch) && Locked(PipeOf(ch), s, c)
    ensures var t := TurnTo(s, c, ch, now);
            && Locked(PipeOf(ch), t, c) && Who(t, c) == Who(s, c) && t.closed == s.closed && t.pt == s.pt
            && (ch !in t.blocked <==> now)
            && (forall x :: x != ch ==> (x in t.blocked <==> x in s.blocked))
            && Me(t, c).loc.owed <= Me(s, c).loc.owed + (if now && ch in s.blocked then {ch} else {})
            && |t.procs| == |s.procs| && (forall p,
                l :: 0 <= p < |s.procs| ==> HoldsLk(t.procs[p].loc, l) == HoldsLk(s.procs[p].loc, l))
  {
  }

  lemma FollowIs(id: nat, s: State, c: nat, b: Buf)
    requires Locked(id, s, c)
    ensures var t := Follow(id, s, c, b);
            && Locked(id, t, c) && Who(t, c) == Who(s, c) && t.closed == s.closed && t.pt == s.pt
            && (OfPipeRead(id) in t.blocked <==> b.ReadersWait()) && (OfPipeWrite(id) in t.blocked <==> b.WritersWait())
            && Me(t, c).loc.owed <= Me(s, c).loc.owed + (if OfPipeRead(id) in s.blocked
                                                                       && !b.ReadersWait() then {OfPipeRead(id)} else {})
                                                     + (if OfPipeWrite(id) in s.blocked
                                                                       && !b.WritersWait() then {OfPipeWrite(id)} else {})
            && |t.procs| == |s.procs| && (forall p,
                l :: 0 <= p < |s.procs| ==> HoldsLk(t.procs[p].loc, l) == HoldsLk(s.procs[p].loc, l))
  {
    TurnIs(s, c, OfPipeRead(id), !b.ReadersWait());
    TurnIs(TurnTo(s, c, OfPipeRead(id), !b.ReadersWait()), c, OfPipeWrite(id), !b.WritersWait());
  }

  /** Whoever holds p->lock besides is the same process. */
  lemma SoleHolder(id: nat, s: State, c: nat, p: nat)
    requires LkInv(s) && Locked(id, s, c) && p < |s.procs| && HoldsLk(s.procs[p].loc, PipeLock(id))
    ensures p == Who(s, c)
  {
    assert HolderOk(s, p, PipeLock(id)) && HolderOk(s, Who(s, c), PipeLock(id));
  }

  lemma SeenAlone(id: nat, ps: Sys, c: nat)
    requires LkInv(ps.s) && Agree(id, ps) && Locked(id, ps.s, c)
    ensures forall p :: p in ps.room || p in ps.some ==> p == Who(ps.s, c)
  {
    forall p | p in ps.room || p in ps.some
      ensures p == Who(ps.s, c)
    {
      SoleHolder(id, ps.s, c, p);
    }
  }

  lemma AgreeStep(id: nat, ps: Sys, a: PAction)
    requires Agree(id, ps) && LkInv(ps.s) && PEnabled(id, ps, a)
    ensures Agree(id, PStep(id, ps, a))
  {
    match a
    case Other(b) => OtherKeeps(id, ps, b);
    case SeeRoom(c) =>
    case PutByte(c, x) =>
      SeenAlone(id, ps, c);
      PutHolds(ps.b, ps.sent, ps.got, x);
      FollowIs(id, ps.s, c, PutIn(ps.b, x));
    case SeeByte(c) =>
    case TakeByte(c) =>
      SeenAlone(id, ps, c);
      TakeHolds(ps.b, ps.sent, ps.got);
      FollowIs(id, ps.s, c, TakeOut(ps.b));
    case ShutEnd(c, writable) => AgreeShut(id, ps, c, writable);
  }

  lemma AgreeShut(id: nat, ps: Sys, c: nat, writable: bool)
    requires Agree(id, ps) && PEnabled(id, ps, ShutEnd(c, writable))
    ensures Agree(id, PStep(id, ps, ShutEnd(c, writable)))
  {
    var t := Step(ps.s, CloseEnd(c, EndOf(id, writable)));
    assert Locked(id, t, c);
    FollowIs(id, t, c, Shut(ps.b, writable));
  }

  // ---------------------------------------------------------------- runs

  /** A pipe just made, on a machine just booted. */
  predicate PBoot(id: nat, ps: Sys) {
    && Boot(ps.s) && |ps.b.data| == PIPESIZE && ps.b == Buf(ps.b.data, 0, 0, true, true)
    && ps.sent == [] && ps.got == [] && ps.room == {} && ps.some == {}
    && OfPipeRead(id) in ps.s.blocked && OfPipeWrite(id) !in ps.s.blocked
  }

  function PExec(id: nat, ps: Sys, run: seq<PAction>): Option<Sys> {
    if run == [] then Some(ps) else PNext(id, PExec(id, ps, run[..|run| - 1]), run[|run| - 1])
  }

  function PNext(id: nat, pre: Option<Sys>, a: PAction): Option<Sys> {
    if pre.Some? && PEnabled(id, pre.value, a) then Some(PStep(id, pre.value, a)) else None
  }

  ghost predicate PReachable(id: nat, ps: Sys) {
    exists boot, run :: PBoot(id, boot) && PExec(id, boot, run) == Some(ps)
  }

  /** The steps of module Procs that a run consists of. */
  lemma {:induction false} Underneath(id: nat, boot: Sys, run: seq<PAction>) returns (r: seq<Action>)
    requires PBoot(id, boot) && PExec(id, boot, run).Some?
    ensures var ps := PExec(id, boot, run).value; Exec(boot.s, r) == Some(ps.s) && Agree(id, ps)
  {
    if run == [] {
      r := [];
    } else {
      var pre, a := PExec(id, boot, run[..|run| - 1]).value, run[|run| - 1];
      r := Underneath(id, boot, run[..|run| - 1]);
      assert LkInv(pre.s) by { InvRun(boot.s, r); }
      AgreeStep(id, pre, a);
      r := StepUnderneath(id, boot.s, r, pre, a);
    }
  }

  lemma StepUnderneath(id: nat, boot: State, r: seq<Action>, ps: Sys, a: PAction) returns (r': seq<Action>)
    requires Exec(boot, r) == Some(ps.s) && PEnabled(id, ps, a)
    ensures Exec(boot, r') == Some(PStep(id, ps, a).s)
  {
    match a
    case Other(b) =>
      r' := r + [b];
      ExecOne(boot, r, b);
    case SeeRoom(c) => r' := r;
    case PutByte(c, x) => r' := FollowUnderneath(id, boot, r, ps.s, c, PutIn(ps.b, x));
    case SeeByte(c) => r' := r;
    case TakeByte(c) => r' := FollowUnderneath(id, boot, r, ps.s, c, TakeOut(ps.b));
    case ShutEnd(c, writable) =>
      var b := CloseEnd(c, EndOf(id, writable));
      ExecOne(boot, r, b);
      r' := FollowUnderneath(id, boot, r + [b], Step(ps.s, b), c, Shut(ps.b, writable));
  }

  lemma TurnUnderneath(boot: State, r: seq<Action>, s: State, c: nat, ch: Chan, now: bool) returns (r': seq<Action>)
    requires IsEnd(ch) && Locked(PipeOf(ch), s, c) && Exec(boot, r) == Some(s)
    ensures Exec(boot, r') == Some(TurnTo(s, c, ch, now))
  {
    if (ch !in s.blocked) == now {
      r' := r;
    } else {
      var a := SetCond(c, ch, now);
      assert Enabled(s, a);
      r' := r + [a];
      ExecOne(boot, r, a);
    }
  }

  lemma FollowUnderneath(id: nat, boot: State, r: seq<Action>, s: State, c: nat, b: Buf) returns (r': seq<Action>)
    requires Locked(id, s, c) && Exec(boot, r) == Some(s)
    ensures Exec(boot, r') == Some(Follow(id, s, c, b))
  {
    TurnIs(s, c, OfPipeRead(id), !b.ReadersWait());
    r' := TurnUnderneath(boot, r, s, c, OfPipeRead(id), !b.ReadersWait());
    r' := TurnUnderneath(boot, r', TurnTo(s, c, OfPipeRead(id), !b.ReadersWait()), c, OfPipeWrite(id),
        !b.WritersWait());
  }

  lemma PInv(id: nat, ps: Sys)
    requires PReachable(id, ps)
    ensures Reachable(ps.s) && Agree(id, ps)
  {
    var boot, run :| PBoot(id, boot) && PExec(id, boot, run) == Some(ps);
    var r := Underneath(id, boot, run);
  }

  /**
   In every interleaving the ring, at the places the wrapped counters name, holds what
   was written and not yet read, and what was read is a prefix of what was written.
   */
  lemma PipeFifo(id: nat, ps: Sys)
    requires PReachable(id, ps)
    ensures Holds(ps.b, ps.sent, ps.got)
    ensures ps.got <= ps.sent && |ps.sent| <= |ps.got| + PIPESIZE
  {
    PInv(id, ps);
  }

  /** The byte that a step of piperead takes is the next one in the order in which they were written. */
  lemma NextByte(id: nat, ps: Sys, c: nat)
    requires PReachable(id, ps) && PEnabled(id, ps, TakeByte(c))
    ensures |ps.got| < |ps.sent| && PStep(id, ps, TakeByte(c)).got == ps.sent[..|ps.got| + 1]
  {
    PInv(id, ps);
    TakeHolds(ps.b, ps.sent, ps.got);
  }

  /** A step of pipewrite never overwrites a byte that was not read yet. */
  lemma NeverOverwrites(id: nat, ps: Sys, c: nat, x: byte)
    requires PReachable(id, ps) && PEnabled(id, ps, PutByte(c, x))
    ensures |ps.sent| < |ps.got| + PIPESIZE
    ensures forall i :: |ps.got| <= i < |ps.sent| ==> PStep(id, ps, PutByte(c, x)).b.data[i % PIPESIZE] == ps.sent[i]
  {
    PInv(id, ps);
    TestsTell(ps.b, ps.sent, ps.got);
    PutHolds(ps.b, ps.sent, ps.got, x);
    forall i | |ps.got| <= i < |ps.sent|
      ensures PStep(id, ps, PutByte(c, x)).b.data[i % PIPESIZE] == ps.sent[i]
    {
      assert (ps.sent + [x])[i] == ps.sent[i];
    }
  }

  /** Whenever p->lock is free, a process asleep in piperead means an empty pipe with both ends open. */
  lemma SleepingReader(id: nat, ps: Sys, p: nat)
    requires PReachable(id, ps) && PipeLock(id) !in ps.s.lk && p < |ps.s.procs|
    requires ps.s.procs[p].state == SLEEPING && ps.s.procs[p].chan == OfPipeRead(id)
    ensures ps.got == ps.sent && ps.b.writeopen && ps.b.readopen
  {
    PInv(id, ps);
    SleeperWaits(ps.s, p, OfPipeRead(id));
    TestsTell(ps.b, ps.sent, ps.got);
  }

  /** And one asleep in pipewrite means a full pipe with both ends open. */
  lemma SleepingWriter(id: nat, ps: Sys, p: nat)
    requires PReachable(id, ps) && PipeLock(id) !in ps.s.lk && p < |ps.s.procs|
    requires ps.s.procs[p].state == SLEEPING && ps.s.procs[p].chan == OfPipeWrite(id)
    ensures |ps.sent| == |ps.got| + PIPESIZE && ps.b.readopen && ps.b.writeopen
  {
    PInv(id, ps);
    SleeperWaits(ps.s, p, OfPipeWrite(id));
    TestsTell(ps.b, ps.sent, ps.got);
  }

  lemma SleeperWaits(s: State, p: nat, ch: Chan)
    requires Reachable(s) && p < |s.procs| && IsClient(ch) && LockOf(ch) !in s.lk && s.procs[p].state == SLEEPING
             && s.procs[p].chan == ch
    ensures ch in s.blocked && ch !in s.closed
  {
    InvReachable(s);
    assert NotLost(s, p, ch);
  }

  // ---------------------------------------------------------------- the code keeps to the protocol

  /** A writer never comes to owe a wakeup to anyone but readers, nor a reader to anyone but writers. */
  lemma DebtOf(id: nat, ps: Sys, a: PAction)
    requires PReachable(id, ps) && PEnabled(id, ps, a) && (a.PutByte? || a.TakeByte?)
    ensures On(PStep(id, ps, a).s, a.c) && Me(PStep(id, ps, a).s, a.c).loc.Holding?
    ensures Me(PStep(id, ps, a).s, a.c).loc.owed <= Me(ps.s,
                a.c).loc.owed + {if a.PutByte? then OfPipeRead(id) else OfPipeWrite(id)}
  {
    PInv(id, ps);
    FollowIs(id, ps.s, a.c, PStep(id, ps, a).b);
  }

  /** pipewrite's return of -1: bytes may have gone in without a wakeup, but no reader can be waiting for them. */
  lemma NoReaderLeaves(id: nat, ps: Sys, c: nat)
    requires PReachable(id, ps) && Locked(id, ps.s, c) && !ps.b.readopen && Me(ps.s, c).loc.owed <= {OfPipeRead(id)}
    ensures PEnabled(id, ps, Other(ReleaseLk(c)))
    ensures NobodyOn(ps.s, OfPipeRead(id))
  {
    PInv(id, ps);
    NobodyAtClosed(ps.s, OfPipeRead(id));
  }

  lemma NobodyAtClosed(s: State, ch: Chan)
    requires Reachable(s) && IsClient(ch) && ch in s.closed
    ensures NobodyOn(s, ch)
  {
    InvReachable(s);
    forall p | 0 <= p < |s.procs|
      ensures !(s.procs[p].state == SLEEPING && s.procs[p].chan == ch)
    {
      assert NotLost(s, p, ch);
    }
  }

  lemma POne(id: nat, ps: Sys, run: seq<PAction>, t: Sys, a: PAction)
    requires PExec(id, ps, run) == Some(t) && PEnabled(id, t, a)
    ensures PExec(id, ps, run + [a]) == Some(PStep(id, t, a))
  {
    assert (run + [a])[..|run|] == run;
  }

  /** A state that a run of the code, by itself, leads to. */
  ghost predicate After(id: nat, ps: Sys, run: seq<PAction>, t: Sys) {
    forall k {:trigger Look(k)} :: Look(k) ==> PExec(id, ps, run) == Some(t) && Agree(id, t) && Inv(t.s)
  }

  lemma AfterMeans(id: nat, ps: Sys, run: seq<PAction>, t: Sys)
    requires After(id, ps, run, t)
    ensures Agree(id, t) && PExec(id, ps, run) == Some(t)
  {
    assert Look(0);
  }

  lemma AfterNone(id: nat, ps: Sys)
    requires PReachable(id, ps)
    ensures After(id, ps, [], ps)
  {
    PInv(id, ps);
    InvReachable(ps.s);
  }

  lemma InvTurn(s: State, c: nat, ch: Chan, now: bool)
    requires Inv(s) && IsEnd(ch) && Locked(PipeOf(ch), s, c)
    ensures Inv(TurnTo(s, c, ch, now))
  {
    if (ch !in s.blocked) != now {
      assert Enabled(s, SetCond(c, ch, now));
      InvSync(s, SetCond(c, ch, now));
    }
  }

  lemma InvFollow(id: nat, s: State, c: nat, b: Buf)
    requires Inv(s) && Locked(id, s, c)
    ensures Inv(Follow(id, s, c, b))
  {
    InvTurn(s, c, OfPipeRead(id), !b.ReadersWait());
    TurnIs(s, c, OfPipeRead(id), !b.ReadersWait());
    InvTurn(TurnTo(s, c, OfPipeRead(id), !b.ReadersWait()), c, OfPipeWrite(id), !b.WritersWait());
  }

  lemma InvPStep(id: nat, ps: Sys, a: PAction)
    requires Inv(ps.s) && PEnabled(id, ps, a)
    ensures Inv(PStep(id, ps, a).s)
  {
    match a
    case Other(b) => if IsLife(b) { InvLife(ps.s, b); } else { InvSync(ps.s, b); }
    case SeeRoom(c) =>
    case PutByte(c, x) => InvFollow(id, ps.s, c, PutIn(ps.b, x));
    case SeeByte(c) =>
    case TakeByte(c) => InvFollow(id, ps.s, c, TakeOut(ps.b));
    case ShutEnd(c, writable) =>
      InvSync(ps.s, CloseEnd(c, EndOf(id, writable)));
      InvFollow(id, Step(ps.s, CloseEnd(c, EndOf(id, writable))), c, Shut(ps.b, writable));
  }

  lemma AfterOne(id: nat, ps: Sys, run: seq<PAction>, t: Sys, a: PAction)
    requires After(id, ps, run, t) && PEnabled(id, t, a)
    ensures After(id, ps, run + [a], PStep(id, t, a))
  {
    assert Look(0);
    POne(id, ps, run, t, a);
    AgreeStep(id, t, a);
    InvPStep(id, t, a);
  }

  /** The loop of pipewrite as long as there is room. */
  function Puts(c: nat, xs: seq<byte>): seq<PAction> {
    if xs == [] then [] else Puts(c, xs[..|xs| - 1]) + [SeeRoom(c)] + [PutByte(c, xs[|xs| - 1])]
  }

  /** The loop of piperead as long as there are bytes. */
  function Takes(c: nat, n: nat): seq<PAction> {
    if n == 0 then [] else Takes(c, n - 1) + [SeeByte(c)] + [TakeByte(c)]
  }

  /** The lock is held, and no wakeup is owed but for channel ch. */
  predicate Within(id: nat, t: Sys, c: nat, ch: Chan) {
    Locked(id, t.s, c) && Me(t.s, c).loc.owed <= {ch} && t.s.pt == None
  }

  /** The same by the process that was on c in ps, with the same ends open. */
  predicate Inside(id: nat, ps: Sys, t: Sys, c: nat, ch: Chan) {
    && Within(id, t, c, ch) && On(ps.s, c) && Who(t.s, c) == Who(ps.s, c)
    && t.b.readopen == ps.b.readopen && t.b.writeopen == ps.b.writeopen
  }

  lemma {:induction false} PutsObey(id: nat, ps: Sys, run: seq<PAction>, run': seq<PAction>, t: Sys, c: nat,
                                    xs: seq<byte>) returns (u: Sys)
    requires run' == run + Puts(c, xs) && After(id, ps, run, t) && Inside(id, ps, t, c, OfPipeRead(id))
             && |t.sent| + |xs| <= |t.got| + PIPESIZE
    ensures After(id, ps, run', u) && Inside(id, ps, u, c, OfPipeRead(id)) && u.sent == t.sent + xs && u.got == t.got
    decreases |xs|
  {
    if xs == [] {
      u := t;
      assert run' == run;
    } else {
      var most, x := xs[..|xs| - 1], xs[|xs| - 1];
      var pre := run + Puts(c, most);
      assert run' == pre + [SeeRoom(c)] + [PutByte(c, x)];
      var v := PutsObey(id, ps, run, pre, t, c, most);
      u := PutObeys(id, ps, pre, run', v, c, x);
    }
  }

  lemma PutObeys(id: nat, ps: Sys, run: seq<PAction>, run': seq<PAction>, t: Sys, c: nat, x: byte) returns (u: Sys)
    requires run' == run + [SeeRoom(c)] + [PutByte(c, x)] && After(id, ps, run, t)
             && Inside(id, ps, t, c, OfPipeRead(id)) && |t.sent| < |t.got| + PIPESIZE
    ensures After(id, ps, run', u) && Inside(id, ps, u, c, OfPipeRead(id)) && u.sent == t.sent + [x] && u.got == t.got
  {
    AfterMeans(id, ps, run, t);
    TestsTell(t.b, t.sent, t.got);
    AfterOne(id, ps, run, t, SeeRoom(c));
    var v := PStep(id, t, SeeRoom(c));
    AfterOne(id, ps, run + [SeeRoom(c)], v, PutByte(c, x));
    u := PStep(id, v, PutByte(c, x));
    PutHolds(v.b, v.sent, v.got, x);
    FollowIs(id, v.s, c, PutIn(v.b, x));
    TestsTell(v.b, v.sent, v.got);
  }

  lemma {:induction false} TakesObey(id: nat, ps: Sys, run: seq<PAction>, run': seq<PAction>, t: Sys, c: nat,
                                     n: nat) returns (u: Sys)
    requires run' == run + Takes(c, n) && After(id, ps, run, t) && Inside(id, ps, t, c, OfPipeWrite(id))
             && |t.got| + n <= |t.sent|
    ensures After(id, ps, run', u) && Inside(id, ps, u, c, OfPipeWrite(id)) && u.sent == t.sent
            && |u.got| == |t.got| + n
    decreases n
  {
    if n == 0 {
      u := t;
      assert run' == run;
    } else {
      var pre := run + Takes(c, n - 1);
      assert run' == pre + [SeeByte(c)] + [TakeByte(c)];
      var v := TakesObey(id, ps, run, pre, t, c, n - 1);
      u := TakeObeys(id, ps, pre, run', v, c);
    }
  }

  lemma TakeObeys(id: nat, ps: Sys, run: seq<PAction>, run': seq<PAction>, t: Sys, c: nat) returns (u: Sys)
    requires run' == run + [SeeByte(c)] + [TakeByte(c)] && After(id, ps, run, t)
             && Inside(id, ps, t, c, OfPipeWrite(id)) && |t.got| < |t.sent|
    ensures After(id, ps, run', u) && Inside(id, ps, u, c, OfPipeWrite(id))
    ensures u.sent == t.sent && |u.got| == |t.got| + 1
  {
    AfterMeans(id, ps, run, t);
    TestsTell(t.b, t.sent, t.got);
    AfterOne(id, ps, run, t, SeeByte(c));
    var v := PStep(id, t, SeeByte(c));
    AfterOne(id, ps, run + [SeeByte(c)], v, TakeByte(c));
    u := PStep(id, v, TakeByte(c));
    TakeHolds(v.b, v.sent, v.got);
    FollowIs(id, v.s, c, TakeOut(v.b));
    TestsTell(v.b, v.sent, v.got);
  }

  // ---------------------------------------------------------------- beginnings and ends

  function Wake(c: nat, ch: Chan): seq<PAction> {
    [Other(WakeAcquire(c, ch))] + [Other(Wakeup1(c))] + [Other(WakeRelease(c))]
  }

  function Sleeps(c: nat, ch: Chan): seq<PAction> {
    [Other(SleepAcquire(c, ch))] + [Other(SleepReleaseLk(c))] + [Other(SleepMark(c))]
  }

  /** The process can enter the pipe's code: it holds no lock, and p->lock and ptable.lock are free. */
  predicate Outside(id: nat, ps: Sys, c: nat) {
    On(ps.s, c) && Me(ps.s, c).loc.Free? && PipeLock(id) !in ps.s.lk && ps.s.pt == None
  }

  lemma Enter(id: nat, ps: Sys, c: nat, ch: Chan) returns (t: Sys)
    requires PReachable(id, ps) && Outside(id, ps, c)
    ensures After(id, ps, [Other(AcquireLk(c, PipeLock(id)))], t) && Inside(id, ps, t, c, ch)
            && Me(t.s, c).loc == Holding(PipeLock(id), {})
    ensures t.b == ps.b && t.sent == ps.sent && t.got == ps.got && |t.s.procs| == |ps.s.procs|
    ensures forall p, x :: 0 <= p < |ps.s.procs| && WaitsOn(t.s.procs[p], x) ==> WaitsOn(ps.s.procs[p], x)
  {
    var a := Other(AcquireLk(c, PipeLock(id)));
    AfterNone(id, ps);
    PInv(id, ps);
    AfterOne(id, ps, [], ps, a);
    assert [] + [a] == [a];
    t := PStep(id, ps, a);
  }

  lemma Wakes(id: nat, ps: Sys, run: seq<PAction>, t: Sys, c: nat, ch: Chan) returns (u: Sys)
    requires After(id, ps, run, t) && Within(id, t, c, ch) && IsEnd(ch)
    ensures After(id, ps, run + Wake(c, ch), u) && Within(id, u, c, ch) && Who(u.s, c) == Who(t.s, c)
            && Me(u.s, c).loc == Holding(PipeLock(id), {})
    ensures Me(u.s, c).saw == Me(t.s, c).saw && NobodyOn(u.s, ch) && u.b == t.b && u.sent == t.sent && u.got == t.got
            && u.s.closed == t.s.closed
  {
    AfterMeans(id, ps, run, t);
    var s1, s2, s3 := WakeSteps(t.s, c, ch);
    var t1 := PStep(id, t, Other(WakeAcquire(c, ch)));
    AfterOne(id, ps, run, t, Other(WakeAcquire(c, ch)));
    AfterOne(id, ps, run + [Other(WakeAcquire(c, ch))], t1, Other(Wakeup1(c)));
    var t2 := PStep(id, t1, Other(Wakeup1(c)));
    AfterOne(id, ps, run + [Other(WakeAcquire(c, ch))] + [Other(Wakeup1(c))], t2, Other(WakeRelease(c)));
    u := PStep(id, t2, Other(WakeRelease(c)));
    assert run + Wake(c, ch) == run + [Other(WakeAcquire(c, ch))] + [Other(Wakeup1(c))] + [Other(WakeRelease(c))];
  }

  lemma Leaves(id: nat, ps: Sys, run: seq<PAction>, run': seq<PAction>, t: Sys, c: nat) returns (u: Sys)
    requires run' == run + [Other(ReleaseLk(c))] && After(id, ps, run, t) && Locked(id, t.s, c)
             && Me(t.s, c).loc.owed <= t.s.closed
    ensures After(id, ps, run', u) && On(u.s, c) && Who(u.s, c) == Who(t.s, c) && Me(u.s, c).loc.Free?
    ensures PipeLock(id) !in u.s.lk && u.b == t.b && u.sent == t.sent && u.got == t.got
    ensures forall ch :: NobodyOn(t.s, ch) ==> NobodyOn(u.s, ch)
  {
    AfterMeans(id, ps, run, t);
    AfterOne(id, ps, run, t, Other(ReleaseLk(c)));
    u := PStep(id, t, Other(ReleaseLk(c)));
  }

  lemma FallsAsleep(id: nat, ps: Sys, run: seq<PAction>, run': seq<PAction>, t: Sys, c: nat, ch: Chan) returns (u: Sys)
    requires run' == run + Sleeps(c, ch) && After(id, ps, run, t) && On(t.s, c) && IsEnd(ch) && PipeOf(ch) == id
    requires Me(t.s, c).loc == Holding(PipeLock(id), {}) && Me(t.s, c).saw == Some(Seen(ch, true)) && ch !in t.s.closed
             && t.s.pt == None
    ensures After(id, ps, run', u) && Who(t.s, c) < |u.s.procs|
    ensures u.s.procs[Who(t.s, c)].state == SLEEPING && u.s.procs[Who(t.s, c)].chan == ch
    ensures PipeLock(id) !in u.s.lk && u.b == t.b && u.sent == t.sent && u.got == t.got
    ensures forall x :: x != ch && NobodyOn(t.s, x) ==> NobodyOn(u.s, x)
  {
    AfterMeans(id, ps, run, t);
    var s1, s2, s3 := SleepSteps(t.s, c, ch);
    AfterOne(id, ps, run, t, Other(SleepAcquire(c, ch)));
    var t1 := PStep(id, t, Other(SleepAcquire(c, ch)));
    AfterOne(id, ps, run + [Other(SleepAcquire(c, ch))], t1, Other(SleepReleaseLk(c)));
    var t2 := PStep(id, t1, Other(SleepReleaseLk(c)));
    AfterOne(id, ps, run + [Other(SleepAcquire(c, ch))] + [Other(SleepReleaseLk(c))], t2, Other(SleepMark(c)));
    u := PStep(id, t2, Other(SleepMark(c)));
    assert run + Sleeps(c, ch) == run + [Other(SleepAcquire(c,
               ch))] + [Other(SleepReleaseLk(c))] + [Other(SleepMark(c))];
  }

  // ---------------------------------------------------------------- pipewrite, piperead and pipeclose as a whole

  /** How many of n bytes there is room for. */
  function Fits(ps: Sys, n: nat): nat
    requires |ps.got| <= |ps.sent| <= |ps.got| + PIPESIZE
  {
    var room := PIPESIZE - (|ps.sent| - |ps.got|);
    if n <= room then n else room
  }

  /** pipewrite from its acquire to its release or its first sleep. */
  function PipeWrite(id: nat, c: nat, addr: seq<byte>, k: nat, readopen: bool): seq<PAction>
    requires k <= |addr|
  {
    [Other(AcquireLk(c, PipeLock(id)))] + Puts(c, addr[..k]) +
    (if k == |addr| then Wake(c, OfPipeRead(id)) + [Other(ReleaseLk(c))]
     else if readopen then [Other(See(c, OfPipeWrite(id)))] + Wake(c, OfPipeRead(id)) + Sleeps(c, OfPipeWrite(id))
     else [Other(ReleaseLk(c))])
  }

  /**
   All of pipewrite is a run the protocol allows: the bytes there is room for go in, and it
   returns, or sleeps on a full pipe having woken the readers, or returns -1 if there are none.
   */
  lemma WriteObeys(id: nat, ps: Sys, c: nat, addr: seq<byte>) returns (k: nat, u: Sys)
    requires PReachable(id, ps) && Outside(id, ps, c) && ps.b.writeopen
    ensures |ps.got| <= |ps.sent| <= |ps.got| + PIPESIZE && k == Fits(ps, |addr|)
    ensures After(id, ps, PipeWrite(id, c, addr, k, ps.b.readopen), u) && PipeLock(id) !in u.s.lk
    ensures u.sent == ps.sent + addr[..k] && u.got == ps.got && On(ps.s, c) && Who(ps.s, c) < |u.s.procs|
    ensures var x := u.s.procs[Who(ps.s, c)];
            if k < |addr| && ps.b.readopen then x.state == SLEEPING && x.chan == OfPipeWrite(id) else x.loc.Free?
    ensures k == |addr| || ps.b.readopen ==> NobodyOn(u.s, OfPipeRead(id))
  {
    PInv(id, ps);
    k := Fits(ps, |addr|);
    var t := Enter(id, ps, c, OfPipeRead(id));
    var r0 := [Other(AcquireLk(c, PipeLock(id)))];
    var v := PutsObey(id, ps, r0, r0 + Puts(c, addr[..k]), t, c, addr[..k]);
    u := WriteEnds(id, ps, r0 + Puts(c, addr[..k]), v, c, addr, k);
  }

  lemma WriteEnds(id: nat, ps: Sys, run: seq<PAction>, t: Sys, c: nat, addr: seq<byte>, k: nat) returns (u: Sys)
    requires After(id, ps, run, t) && Inside(id, ps, t, c, OfPipeRead(id)) && k <= |addr|
    requires run == [Other(AcquireLk(c, PipeLock(id)))] + Puts(c, addr[..k]) && t.b.writeopen
    requires k < |addr| ==> |t.sent| == |t.got| + PIPESIZE
    ensures After(id, ps, PipeWrite(id, c, addr, k, ps.b.readopen), u) && PipeLock(id) !in u.s.lk
    ensures u.sent == t.sent && u.got == t.got && Who(ps.s, c) < |u.s.procs|
    ensures var x := u.s.procs[Who(ps.s, c)];
            if k < |addr| && ps.b.readopen then x.state == SLEEPING && x.chan == OfPipeWrite(id) else x.loc.Free?
    ensures k == |addr| || ps.b.readopen ==> NobodyOn(u.s, OfPipeRead(id))
  {
    AfterMeans(id, ps, run, t);
    TestsTell(t.b, t.sent, t.got);
    var rd, wr, all := OfPipeRead(id), OfPipeWrite(id), PipeWrite(id, c, addr, k, ps.b.readopen);
    if k == |addr| {
      var v := Wakes(id, ps, run, t, c, rd);
      assert run + Wake(c, rd) + [Other(ReleaseLk(c))] == all;
      u := Leaves(id, ps, run + Wake(c, rd), all, v, c);
    } else if ps.b.readopen {
      var v := Reads(id, ps, run, t, c, wr, rd);
      var w := Wakes(id, ps, run + [Other(See(c, wr))], v, c, rd);
      assert run + [Other(See(c, wr))] + Wake(c, rd) + Sleeps(c, wr) == all;
      u := FallsAsleep(id, ps, run + [Other(See(c, wr))] + Wake(c, rd), all, w, c, wr);
    } else {
      u := Leaves(id, ps, run, all, t, c);
    }
  }

  /** Reading the condition of ch, on which the process is to sleep. */
  lemma Reads(id: nat, ps: Sys, run: seq<PAction>, t: Sys, c: nat, ch: Chan, owed: Chan) returns (u: Sys)
    requires After(id, ps, run, t) && Inside(id, ps, t, c, owed) && IsEnd(ch) && PipeOf(ch) == id && ch in t.s.blocked
    ensures After(id, ps, run + [Other(See(c, ch))], u) && Inside(id, ps, u, c, owed)
            && Me(u.s, c).saw == Some(Seen(ch, true))
    ensures Me(u.s, c).loc == Me(t.s, c).loc && u.b == t.b && u.sent == t.sent && u.got == t.got
            && u.s.closed == t.s.closed
  {
    AfterMeans(id, ps, run, t);
    AfterOne(id, ps, run, t, Other(See(c, ch)));
    u := PStep(id, t, Other(See(c, ch)));
  }

  /** piperead of up to n bytes, k of which are there, from its acquire to its release or its first sleep. */
  function PipeRead(id: nat, c: nat, k: nat, wait: bool, killed: bool): seq<PAction> {
    [Other(AcquireLk(c, PipeLock(id)))] +
    (if wait then if killed then [Other(ReleaseLk(c))] else [Other(See(c, OfPipeRead(id)))] + Sleeps(c, OfPipeRead(id))
     else Takes(c, k) + Wake(c, OfPipeWrite(id)) + [Other(ReleaseLk(c))])
  }

  /** All of piperead: it returns the next bytes and wakes the writers, or waits on an empty pipe with a writer. */
  lemma ReadObeys(id: nat, ps: Sys, c: nat, n: nat) returns (k: nat, u: Sys)
    requires PReachable(id, ps) && Outside(id, ps, c) && ps.b.readopen
    ensures |ps.got| <= |ps.sent| && k == if n <= |ps.sent| - |ps.got| then n else |ps.sent| - |ps.got|
    ensures var wait := ps.got == ps.sent && ps.b.writeopen;
            && After(id, ps, PipeRead(id, c, k, wait, Me(ps.s, c).killed), u) && PipeLock(id) !in u.s.lk
            && u.sent == ps.sent && u.got == ps.sent[..|ps.got| + k] && Who(ps.s, c) < |u.s.procs|
            && (if wait && !Me(ps.s, c).killed
                then u.s.procs[Who(ps.s, c)].state == SLEEPING && u.s.procs[Who(ps.s, c)].chan == OfPipeRead(id)
                else u.s.procs[Who(ps.s, c)].loc.Free?)
            && (!wait ==> NobodyOn(u.s, OfPipeWrite(id)))
  {
    PInv(id, ps);
    TestsTell(ps.b, ps.sent, ps.got);
    k := if n <= |ps.sent| - |ps.got| then n else |ps.sent| - |ps.got|;
    var t := Enter(id, ps, c, OfPipeWrite(id));
    if ps.got == ps.sent && ps.b.writeopen {
      assert ps.got == ps.sent[..|ps.got| + k];
      u := ReadWaits(id, ps, t, c, k);
    } else {
      u := ReadTakes(id, ps, t, c, k);
    }
  }

  lemma ReadTakes(id: nat, ps: Sys, t: Sys, c: nat, k: nat) returns (u: Sys)
    requires After(id, ps, [Other(AcquireLk(c, PipeLock(id)))], t) && Inside(id, ps, t, c, OfPipeWrite(id))
             && |t.got| + k <= |t.sent|
    ensures After(id, ps, PipeRead(id, c, k, false, Me(ps.s, c).killed), u) && PipeLock(id) !in u.s.lk
            && NobodyOn(u.s, OfPipeWrite(id))
    ensures u.sent == t.sent && u.got == t.sent[..|t.got| + k] && Who(ps.s, c) < |u.s.procs|
            && u.s.procs[Who(ps.s, c)].loc.Free?
  {
    var r0 := [Other(AcquireLk(c, PipeLock(id)))];
    var v := TakesObey(id, ps, r0, r0 + Takes(c, k), t, c, k);
    var w := Wakes(id, ps, r0 + Takes(c, k), v, c, OfPipeWrite(id));
    var all := PipeRead(id, c, k, false, Me(ps.s, c).killed);
    assert r0 + Takes(c, k) + Wake(c, OfPipeWrite(id)) + [Other(ReleaseLk(c))] == all;
    u := Leaves(id, ps, r0 + Takes(c, k) + Wake(c, OfPipeWrite(id)), all, w, c);
    GotIs(id, ps, all, u);
  }

  lemma GotIs(id: nat, ps: Sys, run: seq<PAction>, u: Sys)
    requires After(id, ps, run, u)
    ensures |u.got| <= |u.sent| && u.got == u.sent[..|u.got|]
  {
    AfterMeans(id, ps, run, u);
  }

  lemma ReadWaits(id: nat, ps: Sys, t: Sys, c: nat, k: nat) returns (u: Sys)
    requires After(id, ps, [Other(AcquireLk(c, PipeLock(id)))], t) && Inside(id, ps, t, c, OfPipeWrite(id))
    requires t.b == ps.b && Me(t.s, c).loc == Holding(PipeLock(id), {}) && ps.b.ReadersWait() && ps.b.readopen
    ensures After(id, ps, PipeRead(id, c, k, true, Me(ps.s, c).killed), u) && PipeLock(id) !in u.s.lk
    ensures u.sent == t.sent && u.got == t.got && Who(ps.s, c) < |u.s.procs|
    ensures if Me(ps.s, c).killed then u.s.procs[Who(ps.s, c)].loc.Free?
            else u.s.procs[Who(ps.s, c)].state == SLEEPING && u.s.procs[Who(ps.s, c)].chan == OfPipeRead(id)
  {
    var r0, rd := [Other(AcquireLk(c, PipeLock(id)))], OfPipeRead(id);
    AfterMeans(id, ps, r0, t);
    if Me(ps.s, c).killed {
      u := Leaves(id, ps, r0, PipeRead(id, c, k, true, true), t, c);
    } else {
      var v := Reads(id, ps, r0, t, c, rd, OfPipeWrite(id));
      assert r0 + [Other(See(c, rd))] + Sleeps(c, rd) == PipeRead(id, c, k, true, false);
      u := FallsAsleep(id, ps, r0 + [Other(See(c, rd))], PipeRead(id, c, k, true, false), v, c, rd);
    }
  }

  function PipeClose(id: nat, c: nat, writable: bool): seq<PAction> {
    [Other(AcquireLk(c, PipeLock(id)))] + [ShutEnd(c, writable)] + Wake(c, EndOf(id, !writable)) + [Other(ReleaseLk(c))]
  }

  /** All of pipeclose: the end is closed and nobody is left asleep at the other. */
  lemma CloseObeys(id: nat, ps: Sys, c: nat, writable: bool) returns (u: Sys)
    requires PReachable(id, ps) && Outside(id, ps, c)
    requires forall p :: 0 <= p < |ps.s.procs| ==> !WaitsOn(ps.s.procs[p], EndOf(id, writable))
    ensures After(id, ps, PipeClose(id, c, writable), u) && PipeLock(id) !in u.s.lk && u.b == Shut(ps.b, writable)
    ensures u.sent == ps.sent && u.got == ps.got && On(u.s, c) && Me(u.s, c).loc.Free?
            && NobodyOn(u.s, EndOf(id, !writable))
  {
    var r0, other := [Other(AcquireLk(c, PipeLock(id)))], EndOf(id, !writable);
    var t := Enter(id, ps, c, other);
    AfterMeans(id, ps, r0, t);
    assert Enabled(t.s, CloseEnd(c, EndOf(id, writable)));
    AfterOne(id, ps, r0, t, ShutEnd(c, writable));
    var v := Shutting(id, t, c, writable);
    var w := Wakes(id, ps, r0 + [ShutEnd(c, writable)], v, c, other);
    assert r0 + [ShutEnd(c, writable)] + Wake(c, other) + [Other(ReleaseLk(c))] == PipeClose(id, c, writable);
    u := Leaves(id, ps, r0 + [ShutEnd(c, writable)] + Wake(c, other), PipeClose(id, c, writable), w, c);
  }

  lemma Shutting(id: nat, t: Sys, c: nat, writable: bool) returns (v: Sys)
    requires Agree(id, t) && On(t.s, c) && Me(t.s, c).loc == Holding(PipeLock(id), {}) && t.s.pt == None
             && PEnabled(id, t, ShutEnd(c, writable))
    ensures v == PStep(id, t, ShutEnd(c, writable)) && Within(id, v, c, EndOf(id, !writable))
            && Who(v.s, c) == Who(t.s, c)
    ensures v.b == Shut(t.b, writable) && v.sent == t.sent && v.got == t.got
  {
    v := PStep(id, t, ShutEnd(c, writable));
    FollowIs(id, Step(t.s, CloseEnd(c, EndOf(id, writable))), c, Shut(t.b, writable));
  }
}
