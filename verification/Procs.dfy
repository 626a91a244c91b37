/**
 Processes, CPUs and the sleep/wakeup protocol (source/proc.c) as an interleaving
 of steps taken by any number of CPUs.  A step is one acquire, one release, one
 swtch or one stretch of code that runs under ptable.lock; acquire is an atomic
 test-and-set, and ptable.lock stays with the CPU across swtch.
 */
module Procs {
  import opened Wrappers
  import opened Counting

  datatype PState = UNUSED | EMBRYO | SLEEPING | RUNNABLE | RUNNING | ZOMBIE

  /** The spinlocks handed to sleep(), other than ptable.lock. */
  datatype Lock = LogLock | IcacheLock | BcacheLock | PipeLock(id: nat)

  /** Sleep channels: the addresses passed to sleep() and wakeup(). */
  datatype Chan =
    | NoChan
    | OfLog                 // begin_trans waiting for !log.busy
    | OfInode(i: nat)       // ilock waiting for !I_BUSY
    | OfBuf(b: nat)         // bget waiting for !B_BUSY
    | OfPipeRead(id: nat)   // piperead waiting for data or no writer
    | OfPipeWrite(id: nat)  // pipewrite waiting for room or no reader
    | OfProc(p: nat)        // wait() of process p; its lock is ptable.lock

  /** A channel whose waiters use a lock of their own. */
  predicate IsClient(ch: Chan) {
    !ch.NoChan? && !ch.OfProc?
  }

  /** A channel that waits for a busy flag: log.busy, I_BUSY or B_BUSY. */
  predicate IsFlag(ch: Chan) {
    ch.OfLog? || ch.OfInode? || ch.OfBuf?
  }

  /** A channel of one end of a pipe: readers wait on the first, writers on the second. */
  predicate IsEnd(ch: Chan) {
    ch.OfPipeRead? || ch.OfPipeWrite?
  }

  function LockOf(ch: Chan): Lock
    requires IsClient(ch)
  {
    match ch
    case OfLog => LogLock
    case OfInode(_) => IcacheLock
    case OfBuf(_) => BcacheLock
    case OfPipeRead(id) => PipeLock(id)
    case OfPipeWrite(id) => PipeLock(id)
  }

  /** Where a switched-out process goes on when the scheduler picks it again. */
  datatype Resume = AfterSleep(ch: Chan) | AfterWait | AfterYield | NewProc | Dead

  /** Control point of a process. */
  datatype Loc =
    | Free                                            // no spinlock held
    | Holding(l: Lock, owed: set<Chan>)               // owed: conditions made true, wakeup still to come
    | Waking(l: Lock, owed: set<Chan>, ch: Chan)      // in wakeup(ch), ptable.lock acquired
    | Woken(l: Lock, owed: set<Chan>)                 // in wakeup, after wakeup1
    | SleepA(ch: Chan)                                // in sleep, ptable.lock acquired, lk still held
    | SleepB(ch: Chan)                                // in sleep, lk released
    | ReAcq(ch: Chan)                                 // in sleep, about to reacquire lk
    | YieldA | ExitA | WaitA                          // ptable.lock acquired
    | ForkA(np: nat)                                  // allocproc returned np
    | ForkB(np: nat)                                  // np->parent set
    | InSched(k: Resume)                              // in sched, still on its own stack
    | Switched(k: Resume)                             // context saved, not executing
    | Resumed(k: Resume)                              // switched in, ptable.lock handed over

  /** A condition that was read under its lock; wait: it was false. */
  datatype Seen = Seen(ch: Chan, wait: bool)

  /**
   `host` is the CPU that last dispatched the process, `holds` are the busy flags it has set
   and not cleared, and `saw` is what it last read of a condition and has not acted on; the
   source has these only implicitly.
   */
  datatype Proc = Proc(
    state: PState, chan: Chan, parent: Option<nat>, pid: nat, killed: bool, loc: Loc, host: nat, holds: set<Chan>,
        saw: Option<Seen>)

  datatype Ctl =
    | SchedOut    // scheduler, lock not held
    | SchedIn     // scheduler, scanning under ptable.lock
    | SchedBack   // just switched back, curr_proc not cleared yet
    | OnProc      // on the kernel stack of curr_proc

  datatype Cpu = Cpu(ctl: Ctl, cur: Option<nat>)

  /**
   `lk` maps each held client lock to its holder; `blocked` are the channels whose
   awaited condition is false: a flag that is set, or an end of a pipe that has to wait;
   `closed` are the ends of pipes that were closed; `returned` lists the pids wait has returned.
   */
  datatype State = State(
    procs: seq<Proc>, cpus: seq<Cpu>, initproc: nat,
    pt: Option<nat>, lk: map<Lock, nat>, blocked: set<Chan>, closed: set<Chan>,
    nextpid: nat, returned: seq<nat>)

  datatype Action =
    | SchedAcquire(c: nat)
    | SchedRelease(c: nat)
    | SchedPick(c: nat, p: nat)
    | SchedClear(c: nat)
    | AcquireLk(c: nat, l: Lock)
    | ReleaseLk(c: nat)
    | SetCond(c: nat, ch: Chan, now: bool)
    | See(c: nat, ch: Chan)
    | SetFlag(c: nat, ch: Chan)
    | GiveFlag(c: nat, ch: Chan)
    | CloseEnd(c: nat, ch: Chan)
    | WakeAcquire(c: nat, ch: Chan)
    | Wakeup1(c: nat)
    | WakeRelease(c: nat)
    | SleepAcquire(c: nat, ch: Chan)
    | SleepReleaseLk(c: nat)
    | SleepMark(c: nat)
    | Swtch(c: nat)
    | Resume(c: nat)
    | ReAcquire(c: nat)
    | YieldAcquire(c: nat)
    | YieldMark(c: nat)
    | ForkAlloc(c: nat, np: nat)
    | ForkFail(c: nat)
    | ForkParent(c: nat)
    | ForkRun(c: nat)
    | ExitAcquire(c: nat)
    | ExitMark(c: nat)
    | WaitAcquire(c: nat)
    | WaitReap(c: nat, z: nat)
    | WaitNone(c: nat)
    | WaitSleep(c: nat)
    | Kill(c: nat, pid: nat)

  // ---------------------------------------------------------------- reading a state

  predicate HoldsPt(loc: Loc) {
    loc.Waking? || loc.Woken? || loc.SleepA? || loc.SleepB? || loc.YieldA? || loc.ExitA? || loc.WaitA? ||
    loc.InSched? || loc.Resumed?
  }

  predicate HoldsLk(loc: Loc, l: Lock) {
    ((loc.Holding? || loc.Waking? || loc.Woken?) && loc.l == l) ||
    (loc.SleepA? && IsClient(loc.ch) && LockOf(loc.ch) == l)
  }

  predicate Owes(loc: Loc, ch: Chan) {
    (loc.Holding? || loc.Waking? || loc.Woken?) && ch in loc.owed
  }

  /** CPU c executes process p's code. */
  predicate On(s: State, c: nat) {
    c < |s.cpus| && s.cpus[c].ctl == OnProc && s.cpus[c].cur.Some? && s.cpus[c].cur.value < |s.procs|
  }

  function Me(s: State, c: nat): Proc
    requires On(s, c)
  {
    s.procs[s.cpus[c].cur.value]
  }

  function Who(s: State, c: nat): nat
    requires On(s, c)
  {
    s.cpus[c].cur.value
  }

  predicate HasKids(s: State, q: nat) {
    exists z :: 0 <= z < |s.procs| && s.procs[z].parent == Some(q)
  }

  predicate HasZombie(s: State, q: nat) {
    exists z :: 0 <= z < |s.procs| && s.procs[z].parent == Some(q) && s.procs[z].state == ZOMBIE
  }

  // ---------------------------------------------------------------- steps

  /** fork, exit, wait and kill. */
  predicate IsLife(a: Action) {
    a.ForkAlloc? || a.ForkFail? || a.ForkParent? || a.ForkRun? || a.ExitAcquire? || a.ExitMark? ||
    a.WaitAcquire? || a.WaitReap? || a.WaitNone? || a.WaitSleep? || a.Kill?
  }

  predicate LifeEnabled(s: State, a: Action)
    requires IsLife(a)
  {
    match a
    case ForkAlloc(c, np) => On(s, c) && Me(s, c).loc.Free? && s.pt == None && np < |s.procs|
    && s.procs[np].state == UNUSED
    case ForkFail(c) => On(s, c) && Me(s, c).loc.ForkA? && Me(s, c).loc.np < |s.procs|
    case ForkParent(c) => On(s, c) && Me(s, c).loc.ForkA? && Me(s, c).loc.np < |s.procs|
    case ForkRun(c) => On(s, c) && Me(s, c).loc.ForkB? && Me(s, c).loc.np < |s.procs|
    case ExitAcquire(c) => On(s, c) && Me(s, c).loc.Free? && Who(s, c) != s.initproc && s.pt == None
    case ExitMark(c) => On(s, c) && Me(s, c).loc.ExitA? && Who(s, c) != s.initproc
    case WaitAcquire(c) => On(s, c) && Me(s, c).loc.Free? && s.pt == None
    case WaitReap(c, z) =>
      On(s, c) && Me(s, c).loc.WaitA? && z < |s.procs| && s.procs[z].parent == Some(Who(s, c))
      && s.procs[z].state == ZOMBIE
    case WaitNone(c) => On(s, c) && Me(s, c).loc.WaitA? && !HasZombie(s, Who(s, c))
    && (!HasKids(s, Who(s, c)) || Me(s, c).killed)
    case WaitSleep(c) => On(s, c) && Me(s, c).loc.WaitA? && !HasZombie(s, Who(s, c)) && HasKids(s, Who(s, c))
    && !Me(s, c).killed
    case Kill(c, pid) => On(s, c) && Me(s, c).loc.Free? && s.pt == None
  }

  predicate SyncEnabled(s: State, a: Action)
    requires !IsLife(a)
  {
    match a
    case SchedAcquire(c) => c < |s.cpus| && s.cpus[c].ctl == SchedOut && s.pt == None
    case SchedRelease(c) => c < |s.cpus| && s.cpus[c].ctl == SchedIn
    case SchedPick(c, p) => c < |s.cpus| && s.cpus[c].ctl == SchedIn && p < |s.procs| && s.procs[p].state == RUNNABLE
    && s.procs[p].loc.Switched?
    case SchedClear(c) => c < |s.cpus| && s.cpus[c].ctl == SchedBack
    case AcquireLk(c, l) => On(s, c) && Me(s, c).loc.Free? && l !in s.lk
    // the client wakes every channel whose condition it made true before letting go of the lock, except closed ends
    case ReleaseLk(c) => On(s, c) && Me(s, c).loc.Holding? && Me(s, c).loc.owed <= s.closed
    case SetCond(c, ch, _) => On(s, c) && Me(s, c).loc.Holding? && IsEnd(ch) && LockOf(ch) == Me(s, c).loc.l
    // a condition is read under its lock; what was read decides the next step, which does not look again
    case See(c, ch) => On(s, c) && Me(s, c).loc.Holding? && IsClient(ch) && LockOf(ch) == Me(s, c).loc.l
    // a busy flag is set by a process that saw it clear, and cleared by the process that set it
    case SetFlag(c, ch) => On(s, c) && Me(s, c).loc.Holding? && IsFlag(ch) && Me(s, c).saw == Some(Seen(ch, false))
    case GiveFlag(c, ch) => On(s, c) && Me(s, c).loc.Holding? && IsFlag(ch) && LockOf(ch) == Me(s, c).loc.l
    && ch in Me(s, c).holds
    // the last reference to an end of a pipe goes only when no process waits in a read or write through it
    case CloseEnd(c, ch) =>
      On(s, c) && Me(s, c).loc.Holding? && IsEnd(ch) && LockOf(ch) == Me(s, c).loc.l &&
      forall p :: 0 <= p < |s.procs| ==> !WaitsOn(s.procs[p], ch)
    case WakeAcquire(c, ch) => On(s, c) && Me(s, c).loc.Holding? && IsClient(ch) && s.pt == None
    case Wakeup1(c) => On(s, c) && Me(s, c).loc.Waking?
    case WakeRelease(c) => On(s, c) && Me(s, c).loc.Woken?
    // the client sleeps only after seeing its condition false
    case SleepAcquire(c, ch) =>
      On(s, c) && Me(s, c).loc.Holding? && Me(s, c).loc.owed == {} && IsClient(ch)
      && Me(s, c).saw == Some(Seen(ch, true)) &&
      ch !in s.closed && s.pt == None
    case SleepReleaseLk(c) => On(s, c) && Me(s, c).loc.SleepA? && IsClient(Me(s, c).loc.ch)
    case SleepMark(c) => On(s, c) && Me(s, c).loc.SleepB?
    case Swtch(c) => On(s, c) && Me(s, c).loc.InSched?
    case Resume(c) => On(s, c) && Me(s, c).loc.Resumed?
    case ReAcquire(c) => On(s, c) && Me(s, c).loc.ReAcq? && IsClient(Me(s, c).loc.ch)
    && LockOf(Me(s, c).loc.ch) !in s.lk
    case YieldAcquire(c) => On(s, c) && Me(s, c).loc.Free? && s.pt == None
    case YieldMark(c) => On(s, c) && Me(s, c).loc.YieldA?
  }

  predicate Enabled(s: State, a: Action) {
    if IsLife(a) then LifeEnabled(s, a) else SyncEnabled(s, a)
  }

  /** The running process moves on and forgets what it read. */
  function Leave(s: State, c: nat, loc: Loc): (r: State)
    requires On(s, c)
  {
    s.(procs := s.procs[Who(s, c) := Me(s, c).(loc := loc, saw := None)])
  }

  /** The running process moves to another control point. */
  function Go(s: State, c: nat, loc: Loc): (r: State)
    requires On(s, c)
  {
    s.(procs := s.procs[Who(s, c) := Me(s, c).(loc := loc)])
  }

  /** A lock holder makes a condition true, and owes a wakeup, or makes it false. */
  function Turn(s: State, c: nat, ch: Chan, now: bool, holds: set<Chan>): State
    requires On(s, c) && Me(s, c).loc.Holding?
  {
    var loc := Me(s, c).loc;
    var to := Holding(loc.l, if now then loc.owed + {ch} else loc.owed - {ch});
    s.(procs := s.procs[Who(s, c) := Me(s, c).(loc := to, holds := holds, saw := None)],
       blocked := if now then s.blocked - {ch} else s.blocked + {ch})
  }

  /** wakeup1: everything asleep on the channel becomes runnable. */
  function WakeAll(procs: seq<Proc>, ch: Chan): (r: seq<Proc>)
    ensures |r| == |procs|
    ensures forall p :: 0 <= p < |procs| ==> r[p] == Awoken(procs[p], ch)
  {
    seq(|procs|, p requires 0 <= p < |procs| => Awoken(procs[p], ch))
  }

  function Awoken(x: Proc, ch: Chan): Proc {
    if x.state == SLEEPING && x.chan == ch then x.(state := RUNNABLE) else x
  }

  /** exit's loop: children of `from` pass to `to`. */
  function Reparent(procs: seq<Proc>, from: nat, to: nat): (r: seq<Proc>)
    ensures |r| == |procs|
    ensures forall p ::
              0 <= p < |procs| ==>
                  r[p] == if procs[p].parent == Some(from) then procs[p].(parent := Some(to)) else procs[p]
  {
    seq(|procs|, p requires 0 <= p < |procs| => if procs[p].parent == Some(from) then procs[p].(parent := Some(to)) else procs[p])
  }

  /** exit under ptable.lock: wake the parent, hand children to init (waking it for a zombie), become a zombie. */
  function ExitProcs(s: State, me: nat): (r: seq<Proc>)
    requires me < |s.procs|
    ensures |r| == |s.procs|
  {
    var a := if s.procs[me].parent.Some? then WakeAll(s.procs, OfProc(s.procs[me].parent.value)) else s.procs;
    var b := Reparent(a, me, s.initproc);
    var d := if HasZombie(s, me) then WakeAll(b, OfProc(s.initproc)) else b;
    d[me := d[me].(state := ZOMBIE, loc := InSched(Dead))]
  }

  /** kill's loop stops at the first table entry with the pid, or at the end of the table. */
  function FirstPid(procs: seq<Proc>, pid: nat, i: nat): (k: nat)
    requires i <= |procs|
    ensures i <= k <= |procs| && (k < |procs| ==> procs[k].pid == pid)
    ensures forall j :: i <= j < k ==> procs[j].pid != pid
    decreases |procs| - i
  {
    if i == |procs| || procs[i].pid == pid then i else FirstPid(procs, pid, i + 1)
  }

  function LifeStep(s: State, a: Action): State
    requires IsLife(a) && LifeEnabled(s, a)
  {
    match a
    case ForkAlloc(c, np) =>
      var t := s.(procs := s.procs[np := s.procs[np].(state := EMBRYO, pid := s.nextpid, loc := Switched(NewProc),
              holds := {})], nextpid := s.nextpid + 1);
      Go(t, c, ForkA(np))
    case ForkFail(c) =>
      var np := Me(s, c).loc.np;
      Go(s.(procs := s.procs[np := s.procs[np].(state := UNUSED)]), c, Free)
    case ForkParent(c) =>
      var np := Me(s, c).loc.np;
      Go(s.(procs := s.procs[np := s.procs[np].(parent := Some(Who(s, c)))]), c, ForkB(np))
    case ForkRun(c) =>
      var np := Me(s, c).loc.np;
      Go(s.(procs := s.procs[np := s.procs[np].(state := RUNNABLE)]), c, Free)
    case ExitAcquire(c) => Go(s, c, ExitA).(pt := Some(c))
    case ExitMark(c) => s.(procs := ExitProcs(s, Who(s, c)))
    case WaitAcquire(c) => Go(s, c, WaitA).(pt := Some(c))
    case WaitReap(c, z) =>
      var t := s.(procs := s.procs[z := s.procs[z].(state := UNUSED, pid := 0, parent := None, killed := false)],
                  returned := s.returned + [s.procs[z].pid], pt := None);
      Go(t, c, Free)
    case WaitNone(c) => Go(s, c, Free).(pt := None)
    case WaitSleep(c) =>
      s.(procs := s.procs[Who(s, c) := Me(s, c).(chan := OfProc(Who(s, c)), state := SLEEPING,
          loc := InSched(AfterWait))])
    case Kill(c, pid) =>
      var k := FirstPid(s.procs, pid, 0);
      if k == |s.procs| then s
      else
        var x := s.procs[k];
        s.(procs := s.procs[k := x.(killed := true, state := if x.state == SLEEPING then RUNNABLE else x.state)])
  }

  /** Scheduling, locks, sleep, wakeup and yield. */
  function SyncStep(s: State, a: Action): State
    requires !IsLife(a) && SyncEnabled(s, a)
  {
    match a
    case SchedAcquire(c) => s.(pt := Some(c), cpus := s.cpus[c := Cpu(SchedIn, None)])
    case SchedRelease(c) => s.(pt := None, cpus := s.cpus[c := Cpu(SchedOut, None)])
    case SchedPick(c, p) =>
      s.(cpus := s.cpus[c := Cpu(OnProc, Some(p))],
         procs := s.procs[p := s.procs[p].(state := RUNNING, loc := Resumed(s.procs[p].loc.k), host := c)])
    case SchedClear(c) => s.(cpus := s.cpus[c := Cpu(SchedIn, None)])
    case AcquireLk(c, l) => Go(s, c, Holding(l, {})).(lk := s.lk[l := Who(s, c)])
    case ReleaseLk(c) => Leave(s, c, Free).(lk := s.lk - {Me(s, c).loc.l})
    case SetCond(c, ch, now) => Turn(s, c, ch, now, Me(s, c).holds)
    case See(c, ch) => s.(procs := s.procs[Who(s, c) := Me(s, c).(saw := Some(Seen(ch, ch in s.blocked)))])
    case SetFlag(c, ch) => Turn(s, c, ch, false, Me(s, c).holds + {ch})
    case GiveFlag(c, ch) => Turn(s, c, ch, true, Me(s, c).holds - {ch})
    case CloseEnd(c, ch) => s.(closed := s.closed + {ch})
    case WakeAcquire(c, ch) => Go(s, c, Waking(Me(s, c).loc.l, Me(s, c).loc.owed, ch)).(pt := Some(c))
    case Wakeup1(c) =>
      var loc := Me(s, c).loc;
      var t := Go(s, c, Woken(loc.l, loc.owed - {loc.ch}));
      t.(procs := WakeAll(t.procs, loc.ch))
    case WakeRelease(c) => Go(s, c, Holding(Me(s, c).loc.l, Me(s, c).loc.owed)).(pt := None)
    case SleepAcquire(c, ch) => Leave(s, c, SleepA(ch)).(pt := Some(c))
    case SleepReleaseLk(c) => Leave(s, c, SleepB(Me(s, c).loc.ch)).(lk := s.lk - {LockOf(Me(s, c).loc.ch)})
    case SleepMark(c) =>
      var ch := Me(s, c).loc.ch;
      s.(procs := s.procs[Who(s, c) := Me(s, c).(chan := ch, state := SLEEPING, loc := InSched(AfterSleep(ch)))])
    case Swtch(c) => Go(s, c, Switched(Me(s, c).loc.k)).(cpus := s.cpus[c := Cpu(SchedBack, s.cpus[c].cur)])
    case Resume(c) =>
      (match Me(s, c).loc.k
       case AfterSleep(ch) => s.(pt := None, procs := s.procs[Who(s, c) := Me(s, c).(chan := NoChan, loc := ReAcq(ch))])
       case AfterWait => s.(procs := s.procs[Who(s, c) := Me(s, c).(chan := NoChan, loc := WaitA)])
       case AfterYield => Go(s, c, Free).(pt := None)
       case NewProc => Go(s, c, Free).(pt := None)
       case Dead => s)
    case ReAcquire(c) => Go(s, c,
        Holding(LockOf(Me(s, c).loc.ch), {})).(lk := s.lk[LockOf(Me(s, c).loc.ch) := Who(s, c)])
    case YieldAcquire(c) => Go(s, c, YieldA).(pt := Some(c))
    case YieldMark(c) => s.(procs := s.procs[Who(s, c) := Me(s, c).(state := RUNNABLE, loc := InSched(AfterYield))])
  }

  function Step(s: State, a: Action): State
    requires Enabled(s, a)
  {
    if IsLife(a) then LifeStep(s, a) else SyncStep(s, a)
  }

  // ---------------------------------------------------------------- CPUs, stacks and locks

  /** Which control points go with which state. */
  predicate LocOk(x: Proc, p: nat) {
    match x.state
    case UNUSED => x.loc.Switched?
    case EMBRYO => x.loc == Switched(NewProc)
    case RUNNING => !x.loc.Switched? && !x.loc.InSched? && x.loc != Resumed(Dead)
    case RUNNABLE => x.loc == InSched(AfterYield) || (x.loc.Switched? && !x.loc.k.Dead?)
    case ZOMBIE => x.loc == InSched(Dead) || x.loc == Switched(Dead)
    case SLEEPING =>
      (x.loc.Switched? || x.loc.InSched?) &&
      ((x.loc.k.AfterSleep? && x.chan == x.loc.k.ch && IsClient(x.chan)) || (x.loc.k.AfterWait? && x.chan == OfProc(p)))
  }

  /** The channel in a sleeping control point is a client channel. */
  predicate ChanOk(x: Proc) {
    match x.loc
    case SleepA(ch) => IsClient(ch)
    case SleepB(ch) => IsClient(ch)
    case ReAcq(ch) => IsClient(ch)
    case InSched(k) => k.AfterSleep? ==> IsClient(k.ch)
    case Switched(k) => k.AfterSleep? ==> IsClient(k.ch)
    case Resumed(k) => k.AfterSleep? ==> IsClient(k.ch)
    case _ => true
  }

  predicate ProcOk(s: State, p: nat)
    requires p < |s.procs|
  {
    var x := s.procs[p];
    LocOk(x, p) && ChanOk(x) &&
    (!x.loc.Switched? ==> x.host < |s.cpus| && s.cpus[x.host] == Cpu(OnProc, Some(p)))
  }

  /** CPU c is inside ptable.lock's critical section. */
  predicate InSection(s: State, c: nat)
    requires c < |s.cpus|
  {
    s.cpus[c].ctl == SchedIn || s.cpus[c].ctl == SchedBack || (On(s, c) && HoldsPt(Me(s, c).loc))
  }

  predicate CpuOk(s: State, c: nat)
    requires c < |s.cpus|
  {
    var u := s.cpus[c];
    && (u.ctl == SchedOut || u.ctl == SchedIn ==> u.cur == None)
    && (u.ctl == OnProc || u.ctl == SchedBack ==> u.cur.Some? && u.cur.value < |s.procs| && s.procs[u.cur.value].host == c)
    && (u.ctl == OnProc ==> !s.procs[u.cur.value].loc.Switched?)
    && (u.ctl == SchedBack ==> s.procs[u.cur.value].loc.Switched? && !s.procs[u.cur.value].state.UNUSED? && !s.procs[u.cur.value].state.EMBRYO?)
    && (s.pt == Some(c) <==> InSection(s, c))
  }

  predicate LockOk(s: State, l: Lock) {
    l in s.lk ==> s.lk[l] < |s.procs| && HoldsLk(s.procs[s.lk[l]].loc, l)
  }

  predicate HolderOk(s: State, p: nat, l: Lock)
    requires p < |s.procs|
  {
    HoldsLk(s.procs[p].loc, l) ==> l in s.lk && s.lk[l] == p
  }

  ghost predicate CpuInv(s: State) {
    && (s.pt.Some? ==> s.pt.value < |s.cpus|)
    && (forall c :: 0 <= c < |s.cpus| ==> CpuOk(s, c))
    && (forall p :: 0 <= p < |s.procs| ==> ProcOk(s, p))
  }

  ghost predicate LkInv(s: State) {
    && (forall l :: LockOk(s, l))
    && (forall p, l :: 0 <= p < |s.procs| ==> HolderOk(s, p, l))
  }

  // ---------------------------------------------------------------- no lost wakeup

  /** Process x waits on ch, or is inside sleep() on its way to. */
  predicate WaitsOn(x: Proc, ch: Chan) {
    (x.state == SLEEPING && x.chan == ch) || x.loc == SleepA(ch) || x.loc == SleepB(ch)
  }

  /** If p waits on ch although the condition holds, the lock's holder still owes the wakeup. */
  predicate NotLost(s: State, p: nat, ch: Chan)
    requires p < |s.procs|
  {
    IsClient(ch) && WaitsOn(s.procs[p], ch) ==>
    && ch !in s.closed
    && (ch !in s.blocked ==> LockOf(ch) in s.lk && s.lk[LockOf(ch)] < |s.procs| && Owes(s.procs[s.lk[LockOf(ch)]].loc,
        ch))
  }

  ghost predicate SleepInv(s: State) {
    forall p, ch :: 0 <= p < |s.procs| ==> NotLost(s, p, ch)
  }

  // ---------------------------------------------------------------- frames

  /** A process other than the running one: its stack stays as it was. */
  predicate StackKept(x: Proc, y: Proc, p: nat) {
    (x.loc == y.loc || (x.loc.Switched? && y.loc.Switched?)) && x.host == y.host && LocOk(y, p) && ChanOk(y)
  }

  predicate Unborn(x: Proc) {
    x.state == UNUSED || x.state == EMBRYO
  }

  /** CPU c moved, with the process on it; every other CPU and stack is where it was. */
  lemma CpuFrame(s: State, t: State, c: nat)
    requires CpuInv(s) && On(s, c)
    requires |t.procs| == |s.procs| && |t.cpus| == |s.cpus| && t.cpus == s.cpus[c := t.cpus[c]]
    requires forall p :: 0 <= p < |s.procs| && p != Who(s, c) ==>
             StackKept(s.procs[p], t.procs[p], p) && (Unborn(t.procs[p]) ==> Unborn(s.procs[p]) || s.pt == Some(c))
    requires ProcOk(t, Who(s, c)) && CpuOk(t, c)
    requires t.pt == s.pt || (t.pt == None && s.pt == Some(c)) || (t.pt == Some(c) && s.pt == None)
    ensures CpuInv(t)
  {
    var me := Who(s, c);
    assert CpuOk(s, c) && ProcOk(s, me);
    forall d | 0 <= d < |t.cpus|
      ensures CpuOk(t, d)
    {
      assert CpuOk(s, d);
    }
    forall p | 0 <= p < |t.procs|
      ensures ProcOk(t, p)
    {
      assert ProcOk(s, p);
    }
  }

  /** The running process moved to another control point, and nothing else but locks and conditions changed. */
  lemma CpuGo(s: State, t: State, c: nat)
    requires CpuInv(s) && On(s, c)
    requires t.cpus == s.cpus && |t.procs| == |s.procs| && t.procs == s.procs[Who(s, c) := t.procs[Who(s, c)]]
    requires var y := t.procs[Who(s, c)];
               y.host == Me(s, c).host && LocOk(y, Who(s, c)) && ChanOk(y) && !y.loc.Switched?
    requires t.pt == if HoldsPt(t.procs[Who(s, c)].loc) then Some(c) else if s.pt == Some(c) then None else s.pt
    requires HoldsPt(t.procs[Who(s, c)].loc) ==> s.pt == None || s.pt == Some(c)
    ensures CpuInv(t)
  {
    assert CpuOk(s, c) && ProcOk(s, Who(s, c));
    forall p | 0 <= p < |s.procs| && p != Who(s, c)
      ensures StackKept(s.procs[p], t.procs[p], p) && (Unborn(t.procs[p]) ==> Unborn(s.procs[p]))
    {
      assert ProcOk(s, p);
    }
    CpuFrame(s, t, c);
  }

  lemma LkSame(s: State, t: State)
    requires LkInv(s) && t.lk == s.lk && |t.procs| == |s.procs|
    requires forall p, l :: 0 <= p < |s.procs| ==> HoldsLk(t.procs[p].loc, l) == HoldsLk(s.procs[p].loc, l)
    ensures LkInv(t)
  {
    forall l ensures LockOk(t, l) { assert LockOk(s, l); }
    forall p, l | 0 <= p < |t.procs| ensures HolderOk(t, p, l) { assert HolderOk(s, p, l); }
  }

  /** The running process took a free lock. */
  lemma LkTake(s: State, t: State, me: nat, l0: Lock)
    requires LkInv(s) && me < |s.procs| && t.lk == s.lk[l0 := me] && l0 !in s.lk
    requires |t.procs| == |s.procs| && t.procs == s.procs[me := t.procs[me]]
    requires forall l :: !HoldsLk(s.procs[me].loc, l)
    requires forall l :: HoldsLk(t.procs[me].loc, l) <==> l == l0
    ensures LkInv(t)
  {
    forall l ensures LockOk(t, l) { assert LockOk(s, l); }
    forall p, l | 0 <= p < |t.procs| ensures HolderOk(t, p, l) { assert HolderOk(s, p, l); }
  }

  /** The running process let its lock go. */
  lemma LkDrop(s: State, t: State, me: nat, l0: Lock)
    requires LkInv(s) && me < |s.procs| && t.lk == s.lk - {l0}
    requires |t.procs| == |s.procs| && t.procs == s.procs[me := t.procs[me]]
    requires forall l :: HoldsLk(s.procs[me].loc, l) <==> l == l0
    requires forall l :: !HoldsLk(t.procs[me].loc, l)
    ensures LkInv(t)
  {
    assert HolderOk(s, me, l0);
    forall l ensures LockOk(t, l) { assert LockOk(s, l); }
    forall p, l | 0 <= p < |t.procs| ensures HolderOk(t, p, l) { assert HolderOk(s, p, l); }
  }

  /** No new waiter, no new condition, no debt dropped. */
  lemma SleepFrame(s: State, t: State)
    requires SleepInv(s) && t.lk == s.lk && t.blocked == s.blocked && t.closed == s.closed && |t.procs| == |s.procs|
    requires forall p, ch :: 0 <= p < |s.procs| && IsClient(ch) && WaitsOn(t.procs[p], ch) ==> WaitsOn(s.procs[p], ch)
    requires forall p, ch :: 0 <= p < |s.procs| && Owes(s.procs[p].loc, ch) ==> Owes(t.procs[p].loc, ch)
    ensures SleepInv(t)
  {
    forall p, ch | 0 <= p < |t.procs|
      ensures NotLost(t, p, ch)
    {
      assert NotLost(s, p, ch);
    }
  }

  /** CPUs, locks and sleepers together. */
  ghost predicate CoreInv(s: State) {
    CpuInv(s) && LkInv(s) && SleepInv(s)
  }

  // ---------------------------------------------------------------- each step keeps it

  lemma CoreSched(s: State, a: Action)
    requires CoreInv(s) && Enabled(s, a) && (a.SchedAcquire? || a.SchedRelease? || a.SchedClear?)
    ensures CoreInv(Step(s, a))
  {
    var t := Step(s, a);
    assert CpuOk(s, a.c);
    forall d | 0 <= d < |t.cpus|
      ensures CpuOk(t, d)
    {
      assert CpuOk(s, d);
    }
    forall p | 0 <= p < |t.procs|
      ensures ProcOk(t, p)
    {
      assert ProcOk(s, p);
    }
    LkSame(s, t);
    SleepFrame(s, t);
  }

  lemma CorePick(s: State, c: nat, p: nat)
    requires CoreInv(s) && Enabled(s, SchedPick(c, p))
    ensures CoreInv(Step(s, SchedPick(c, p)))
  {
    var t := Step(s, SchedPick(c, p));
    assert CpuOk(s, c) && ProcOk(s, p);
    forall d | 0 <= d < |t.cpus|
      ensures CpuOk(t, d)
    {
      assert CpuOk(s, d);
    }
    forall q | 0 <= q < |t.procs|
      ensures ProcOk(t, q)
    {
      assert ProcOk(s, q);
    }
    LkSame(s, t);
    SleepFrame(s, t);
  }

  lemma CoreAcquire(s: State, c: nat, l: Lock)
    requires CoreInv(s) && Enabled(s, AcquireLk(c, l))
    ensures CoreInv(Step(s, AcquireLk(c, l)))
  {
    var t := Step(s, AcquireLk(c, l));
    Take(s, t, c, l);
  }

  lemma CoreReAcquire(s: State, c: nat)
    requires CoreInv(s) && Enabled(s, ReAcquire(c))
    ensures CoreInv(Step(s, ReAcquire(c)))
  {
    Take(s, Step(s, ReAcquire(c)), c, LockOf(Me(s, c).loc.ch));
  }

  /** Taking a free lock: nobody can be waiting on a true condition of it. */
  lemma Take(s: State, t: State, c: nat, l: Lock)
    requires CoreInv(s) && On(s, c) && (Me(s, c).loc.Free? || Me(s, c).loc.ReAcq?) && l !in s.lk
    requires t == Go(s, c, Holding(l, {})).(lk := s.lk[l := Who(s, c)])
    ensures CoreInv(t)
  {
    var me := Who(s, c);
    assert CpuOk(s, c) && ProcOk(s, me);
    CpuGo(s, t, c);
    LkTake(s, t, me, l);
    forall p, ch | 0 <= p < |t.procs|
      ensures NotLost(t, p, ch)
    {
      assert NotLost(s, p, ch);
      if IsClient(ch) { assert LockOk(s, LockOf(ch)); }
    }
  }

  lemma CoreRelease(s: State, c: nat)
    requires CoreInv(s) && Enabled(s, ReleaseLk(c))
    ensures CoreInv(Step(s, ReleaseLk(c)))
  {
    Drop(s, Step(s, ReleaseLk(c)), c, Me(s, c).loc.l);
  }

  lemma CoreSleepRelease(s: State, c: nat)
    requires CoreInv(s) && Enabled(s, SleepReleaseLk(c))
    ensures CoreInv(Step(s, SleepReleaseLk(c)))
  {
    Drop(s, Step(s, SleepReleaseLk(c)), c, LockOf(Me(s, c).loc.ch));
  }

  /** Letting go of a lock with no wakeup owed to an end that is open. */
  lemma Drop(s: State, t: State, c: nat, l: Lock)
    requires CoreInv(s) && On(s, c) && HoldsLk(Me(s, c).loc, l)
    requires (Me(s, c).loc.Holding? && Me(s, c).loc.owed <= s.closed && t == Leave(s, c, Free).(lk := s.lk - {l})) ||
             (Me(s, c).loc.SleepA? && t == Leave(s, c, SleepB(Me(s, c).loc.ch)).(lk := s.lk - {l}))
    ensures CoreInv(t)
  {
    var me := Who(s, c);
    assert CpuOk(s, c) && ProcOk(s, me) && HolderOk(s, me, l);
    CpuGo(s, t, c);
    LkDrop(s, t, me, l);
    forall p, ch | 0 <= p < |t.procs|
      ensures NotLost(t, p, ch)
    {
      assert NotLost(s, p, ch);
      if IsClient(ch) { assert LockOk(s, LockOf(ch)); }
    }
  }

  lemma CoreTurn(s: State, c: nat, ch: Chan, now: bool, holds: set<Chan>)
    requires CoreInv(s) && On(s, c) && Me(s, c).loc.Holding? && IsClient(ch) && LockOf(ch) == Me(s, c).loc.l
    ensures CoreInv(Turn(s, c, ch, now, holds))
  {
    var t, me := Turn(s, c, ch, now, holds), Who(s, c);
    assert CpuOk(s, c) && ProcOk(s, me) && HolderOk(s, me, LockOf(ch));
    CpuGo(s, t, c);
    LkSame(s, t);
    forall p, x | 0 <= p < |t.procs|
      ensures NotLost(t, p, x)
    {
      assert NotLost(s, p, x);
    }
  }

  lemma CoreClose(s: State, c: nat, ch: Chan)
    requires CoreInv(s) && Enabled(s, CloseEnd(c, ch))
    ensures CoreInv(Step(s, CloseEnd(c, ch)))
  {
    var t := Step(s, CloseEnd(c, ch));
    forall d | 0 <= d < |t.cpus| ensures CpuOk(t, d) { assert CpuOk(s, d); }
    forall p | 0 <= p < |t.procs| ensures ProcOk(t, p) { assert ProcOk(s, p); }
    LkSame(s, t);
    forall p, x | 0 <= p < |t.procs|
      ensures NotLost(t, p, x)
    {
      assert NotLost(s, p, x);
    }
  }

  /** Steps of a lock holder that change no process but the caller's control point. */
  lemma CoreWakeEdge(s: State, a: Action)
    requires CoreInv(s) && Enabled(s, a) && (a.WakeAcquire? || a.WakeRelease? || a.See?)
    ensures CoreInv(Step(s, a))
  {
    var t := Step(s, a);
    assert CpuOk(s, a.c) && ProcOk(s, Who(s, a.c));
    CpuGo(s, t, a.c);
    LkSame(s, t);
    SleepFrame(s, t);
  }

  lemma CoreGo(s: State, a: Action)
    requires CoreInv(s) && Enabled(s, a)
    requires a.YieldAcquire? || a.ExitAcquire? || a.WaitAcquire? || a.WaitNone?
    ensures CoreInv(Step(s, a))
  {
    var t := Step(s, a);
    assert CpuOk(s, a.c) && ProcOk(s, Who(s, a.c));
    CpuGo(s, t, a.c);
    LkSame(s, t);
    SleepFrame(s, t);
  }

  lemma CoreMark(s: State, a: Action)
    requires CoreInv(s) && Enabled(s, a) && (a.YieldMark? || a.WaitSleep? || a.SleepMark?)
    ensures CoreInv(Step(s, a))
  {
    var t := Step(s, a);
    assert CpuOk(s, a.c) && ProcOk(s, Who(s, a.c));
    CpuGo(s, t, a.c);
    LkSame(s, t);
    SleepFrame(s, t);
  }

  lemma CoreResume(s: State, c: nat)
    requires CoreInv(s) && Enabled(s, Resume(c))
    ensures CoreInv(Step(s, Resume(c)))
  {
    var t := Step(s, Resume(c));
    assert CpuOk(s, c) && ProcOk(s, Who(s, c));
    CpuGo(s, t, c);
    LkSame(s, t);
    SleepFrame(s, t);
  }

  lemma CoreSwtch(s: State, c: nat)
    requires CoreInv(s) && Enabled(s, Swtch(c))
    ensures CoreInv(Step(s, Swtch(c)))
  {
    var t := Step(s, Swtch(c));
    assert CpuOk(s, c) && ProcOk(s, Who(s, c));
    forall p | 0 <= p < |s.procs| && p != Who(s, c)
      ensures StackKept(s.procs[p], t.procs[p], p) && (Unborn(t.procs[p]) ==> Unborn(s.procs[p]))
    {
      assert ProcOk(s, p);
    }
    CpuFrame(s, t, c);
    LkSame(s, t);
    SleepFrame(s, t);
  }

  lemma CoreSleepAcquire(s: State, c: nat, ch: Chan)
    requires CoreInv(s) && Enabled(s, SleepAcquire(c, ch)) && ch in s.blocked && LockOf(ch) == Me(s, c).loc.l
    ensures CoreInv(Step(s, SleepAcquire(c, ch)))
  {
    var t, me := Step(s, SleepAcquire(c, ch)), Who(s, c);
    assert CpuOk(s, c) && ProcOk(s, me) && HolderOk(s, me, LockOf(ch));
    CpuGo(s, t, c);
    LkSame(s, t);
    forall p, x | 0 <= p < |t.procs|
      ensures NotLost(t, p, x)
    {
      assert NotLost(s, p, x);
    }
  }

  /** Processes other than the one on c are not inside sleep while c holds ptable.lock. */
  lemma AloneInSection(s: State, c: nat, p: nat)
    requires CpuInv(s) && On(s, c) && s.pt == Some(c) && p < |s.procs| && p != Who(s, c)
    ensures !HoldsPt(s.procs[p].loc)
    ensures forall d :: 0 <= d < |s.cpus| && s.cpus[d].cur == Some(p) ==> s.cpus[d].ctl == OnProc && d != c
  {
    assert ProcOk(s, p) && CpuOk(s, c);
    if !s.procs[p].loc.Switched? {
      assert CpuOk(s, s.procs[p].host);
    }
    forall d | 0 <= d < |s.cpus| && s.cpus[d].cur == Some(p)
      ensures s.cpus[d].ctl == OnProc && d != c
    {
      assert CpuOk(s, d);
    }
  }

  lemma WokenAt(s: State, c: nat, p: nat)
    requires CpuInv(s) && Enabled(s, Wakeup1(c)) && p < |s.procs| && p != Who(s, c)
    ensures var x, y := s.procs[p], Step(s, Wakeup1(c)).procs[p];
            StackKept(x, y, p) && (Unborn(y) ==> Unborn(x)) && !WaitsOn(y, Me(s, c).loc.ch)
  {
    assert CpuOk(s, c) && ProcOk(s, p);
    AloneInSection(s, c, p);
    var loc := Me(s, c).loc;
    assert Step(s, Wakeup1(c)).procs[p] == Awoken(s.procs[p], loc.ch);
  }

  lemma CoreWakeup1(s: State, c: nat)
    requires CoreInv(s) && Enabled(s, Wakeup1(c))
    ensures CoreInv(Step(s, Wakeup1(c)))
  {
    var t, me, ch := Step(s, Wakeup1(c)), Who(s, c), Me(s, c).loc.ch;
    assert CpuOk(s, c) && ProcOk(s, me);
    forall p | 0 <= p < |s.procs| && p != me
      ensures StackKept(s.procs[p], t.procs[p], p) && (Unborn(t.procs[p]) ==> Unborn(s.procs[p]))
              && !WaitsOn(t.procs[p], ch)
    {
      WokenAt(s, c, p);
    }
    CpuFrame(s, t, c);
    LkSame(s, t);
    forall p, x | 0 <= p < |t.procs|
      ensures NotLost(t, p, x)
    {
      assert NotLost(s, p, x);
    }
  }

  // ---------------------------------------------------------------- the process tree

  predicate Live(x: Proc) {
    x.state == RUNNABLE || x.state == RUNNING || x.state == SLEEPING
  }

  /** A process that is not init has a live parent, until wait has freed it. */
  predicate ParentOk(s: State, p: nat)
    requires p < |s.procs|
  {
    var x := s.procs[p];
    p != s.initproc && (Live(x) || x.state == ZOMBIE) ==>
    x.parent.Some? && x.parent.value < |s.procs| && x.parent.value != p && Live(s.procs[x.parent.value])
  }

  predicate SleepsInWait(x: Proc, p: nat) {
    x.state == SLEEPING && x.chan == OfProc(p)
  }

  /** A zombie's parent is not asleep in wait. */
  predicate ZombieSeen(s: State, z: nat)
    requires z < |s.procs|
  {
    var x := s.procs[z];
    x.state == ZOMBIE && x.parent.Some? && x.parent.value < |s.procs| ==>
        !SleepsInWait(s.procs[x.parent.value], x.parent.value)
  }

  predicate Forking(x: Proc) {
    x.loc.ForkA? || x.loc.ForkB?
  }

  predicate ForkOk(s: State, p: nat)
    requires p < |s.procs|
  {
    var loc := s.procs[p].loc;
    Forking(s.procs[p]) ==>
    loc.np < |s.procs| && s.procs[loc.np].state == EMBRYO && (loc.ForkB? ==> s.procs[loc.np].parent == Some(p))
  }

  predicate ForkApart(s: State, p: nat, q: nat)
    requires p < |s.procs| && q < |s.procs|
  {
    Forking(s.procs[p]) && Forking(s.procs[q]) && s.procs[p].loc.np == s.procs[q].loc.np ==> p == q
  }

  ghost predicate TreeInv(s: State) {
    && s.initproc < |s.procs| && Live(s.procs[s.initproc])
    && (forall p :: 0 <= p < |s.procs| ==> ParentOk(s, p))
    && (forall z :: 0 <= z < |s.procs| ==> ZombieSeen(s, z))
    && (forall p :: 0 <= p < |s.procs| ==> ForkOk(s, p))
    && (forall p, q :: 0 <= p < |s.procs| && 0 <= q < |s.procs| ==> ForkApart(s, p, q))
  }

  predicate PidOk(s: State, p: nat)
    requires p < |s.procs|
  {
    && s.procs[p].pid < s.nextpid && (s.procs[p].state != UNUSED ==> 0 < s.procs[p].pid)
    && (0 < s.procs[p].pid ==> s.procs[p].pid !in s.returned)
  }

  predicate PidApart(s: State, p: nat, q: nat)
    requires p < |s.procs| && q < |s.procs|
  {
    p != q && 0 < s.procs[p].pid ==> s.procs[p].pid != s.procs[q].pid
  }

  ghost predicate PidInv(s: State) {
    && 0 < s.nextpid
    && (forall p :: 0 <= p < |s.procs| ==> PidOk(s, p))
    && (forall p, q :: 0 <= p < |s.procs| && 0 <= q < |s.procs| ==> PidApart(s, p, q))
    && NoRepeats(s.returned)
    && (forall i :: 0 <= i < |s.returned| ==> 0 < s.returned[i] < s.nextpid)
  }

  /** Nothing about the family of x changed, except that it may have woken up or moved on. */
  predicate KinKept(x: Proc, y: Proc, p: nat) {
    && x.parent == y.parent && x.pid == y.pid
    && (x.state == y.state || (Live(x) && Live(y)))
    && (SleepsInWait(y, p) ==> SleepsInWait(x, p))
    && (if Forking(x) then y.loc == x.loc else !Forking(y))
  }

  lemma TreeFrame(s: State, t: State)
    requires TreeInv(s) && PidInv(s)
    requires |t.procs| == |s.procs| && t.initproc == s.initproc && t.nextpid == s.nextpid && t.returned == s.returned
    requires forall p :: 0 <= p < |s.procs| ==> KinKept(s.procs[p], t.procs[p], p)
    ensures TreeInv(t) && PidInv(t)
  {
    assert KinKept(s.procs[s.initproc], t.procs[s.initproc], s.initproc);
    forall p | 0 <= p < |t.procs|
      ensures ParentOk(t, p) && ZombieSeen(t, p) && ForkOk(t, p) && PidOk(t, p)
    {
      assert ParentOk(s, p) && ZombieSeen(s, p) && ForkOk(s, p) && PidOk(s, p);
    }
    forall p, q | 0 <= p < |t.procs| && 0 <= q < |t.procs|
      ensures ForkApart(t, p, q) && PidApart(t, p, q)
    {
      assert ForkApart(s, p, q) && PidApart(s, p, q);
    }
  }

  lemma TreeSched(s: State, a: Action)
    requires CpuInv(s) && TreeInv(s) && PidInv(s) && Enabled(s, a)
    requires a.SchedAcquire? || a.SchedRelease? || a.SchedPick? || a.SchedClear? || a.Swtch? || a.Resume?
    ensures TreeInv(Step(s, a)) && PidInv(Step(s, a))
  {
    if a.Swtch? || a.Resume? { KinSwitched(s, a); } else { KinScheduled(s, a); }
    TreeFrame(s, Step(s, a));
  }

  lemma KinScheduled(s: State, a: Action)
    requires CpuInv(s) && Enabled(s, a) && (a.SchedAcquire? || a.SchedRelease? || a.SchedPick? || a.SchedClear?)
    ensures |Step(s, a).procs| == |s.procs| && forall p ::
              0 <= p < |s.procs| ==> KinKept(s.procs[p], Step(s, a).procs[p], p)
  {
    forall p | 0 <= p < |s.procs| ensures LocOk(s.procs[p], p) { assert ProcOk(s, p); }
  }

  lemma KinSwitched(s: State, a: Action)
    requires CpuInv(s) && Enabled(s, a) && (a.Swtch? || a.Resume?)
    ensures |Step(s, a).procs| == |s.procs| && forall p ::
              0 <= p < |s.procs| ==> KinKept(s.procs[p], Step(s, a).procs[p], p)
  {
    forall p | 0 <= p < |s.procs| ensures LocOk(s.procs[p], p) { assert ProcOk(s, p); }
  }

  lemma TreeLocks(s: State, a: Action)
    requires CpuInv(s) && TreeInv(s) && PidInv(s) && Enabled(s, a) && IsLock(a)
    ensures TreeInv(Step(s, a)) && PidInv(Step(s, a))
  {
    if IsTurn(a) { KinTurns(s, a); } else { KinLocks(s, a); }
    TreeFrame(s, Step(s, a));
  }

  predicate IsTurn(a: Action) {
    a.SetCond? || a.SetFlag? || a.GiveFlag? || a.CloseEnd?
  }

  lemma KinTurns(s: State, a: Action)
    requires Enabled(s, a) && IsTurn(a)
    ensures var t := Step(s, a);
            && |t.procs| == |s.procs| && t.initproc == s.initproc && t.nextpid == s.nextpid && t.returned == s.returned
            && forall p :: 0 <= p < |s.procs| ==> KinKept(s.procs[p], t.procs[p], p)
  {
  }

  lemma KinLocks(s: State, a: Action)
    requires Enabled(s, a) && IsLock(a) && !IsTurn(a)
    ensures var t := Step(s, a);
            && |t.procs| == |s.procs| && t.initproc == s.initproc && t.nextpid == s.nextpid && t.returned == s.returned
            && forall p :: 0 <= p < |s.procs| ==> KinKept(s.procs[p], t.procs[p], p)
  {
  }

  lemma TreeSleep(s: State, a: Action)
    requires CpuInv(s) && TreeInv(s) && PidInv(s) && Enabled(s, a)
    requires a.Wakeup1? || a.SleepAcquire? || a.SleepReleaseLk? || a.SleepMark? || a.YieldAcquire? || a.YieldMark?
    ensures TreeInv(Step(s, a)) && PidInv(Step(s, a))
  {
    assert ProcOk(s, Who(s, a.c));
    if a.Wakeup1? { KinWakes(s, a); } else if a.SleepMark? || a.YieldMark? { KinMark(s, a); } else { KinSleep(s, a); }
    TreeFrame(s, Step(s, a));
  }

  lemma KinWakes(s: State, a: Action)
    requires Enabled(s, a) && a.Wakeup1?
    ensures var t := Step(s, a);
            && |t.procs| == |s.procs| && t.initproc == s.initproc && t.nextpid == s.nextpid && t.returned == s.returned
            && forall p :: 0 <= p < |s.procs| ==> KinKept(s.procs[p], t.procs[p], p)
  {
  }

  lemma KinSleep(s: State, a: Action)
    requires Enabled(s, a) && (a.SleepAcquire? || a.SleepReleaseLk? || a.YieldAcquire?)
    requires LocOk(Me(s, a.c), Who(s, a.c)) && ChanOk(Me(s, a.c))
    ensures var t := Step(s, a);
            && |t.procs| == |s.procs| && t.initproc == s.initproc && t.nextpid == s.nextpid && t.returned == s.returned
            && forall p :: 0 <= p < |s.procs| ==> KinKept(s.procs[p], t.procs[p], p)
  {
  }

  lemma KinMark(s: State, a: Action)
    requires Enabled(s, a) && (a.SleepMark? || a.YieldMark?)
    requires LocOk(Me(s, a.c), Who(s, a.c)) && ChanOk(Me(s, a.c))
    ensures var t := Step(s, a);
            && |t.procs| == |s.procs| && t.initproc == s.initproc && t.nextpid == s.nextpid && t.returned == s.returned
            && forall p :: 0 <= p < |s.procs| ==> KinKept(s.procs[p], t.procs[p], p)
  {
  }

  lemma TreeQuiet(s: State, a: Action)
    requires CpuInv(s) && TreeInv(s) && PidInv(s) && Enabled(s, a)
    requires a.ExitAcquire? || a.WaitAcquire? || a.WaitNone? || a.Kill?
    ensures TreeInv(Step(s, a)) && PidInv(Step(s, a))
  {
    TreeFrame(s, Step(s, a));
  }

  /** wait goes to sleep only after seeing that no child is a zombie. */
  lemma TreeWaitSleep(s: State, c: nat)
    requires CpuInv(s) && TreeInv(s) && PidInv(s) && Enabled(s, WaitSleep(c))
    ensures TreeInv(Step(s, WaitSleep(c))) && PidInv(Step(s, WaitSleep(c)))
  {
    var t, me := Step(s, WaitSleep(c)), Who(s, c);
    assert ProcOk(s, me);
    forall p | 0 <= p < |t.procs|
      ensures ParentOk(t, p) && ZombieSeen(t, p) && ForkOk(t, p) && PidOk(t, p)
    {
      assert ParentOk(s, p) && ZombieSeen(s, p) && ForkOk(s, p) && PidOk(s, p);
    }
    forall p, q | 0 <= p < |t.procs| && 0 <= q < |t.procs|
      ensures ForkApart(t, p, q) && PidApart(t, p, q)
    {
      assert ForkApart(s, p, q) && PidApart(s, p, q);
    }
  }

  lemma TreeForkAlloc(s: State, c: nat, np: nat)
    requires CpuInv(s) && TreeInv(s) && Enabled(s, ForkAlloc(c, np))
    ensures TreeInv(Step(s, ForkAlloc(c, np)))
  {
    var t, me := Step(s, ForkAlloc(c, np)), Who(s, c);
    assert ProcOk(s, me) && CpuOk(s, c) && ForkOk(s, me) && ParentOk(s, me);
    forall p | 0 <= p < |t.procs|
      ensures ParentOk(t, p) && ZombieSeen(t, p) && ForkOk(t, p)
    {
      assert ParentOk(s, p) && ZombieSeen(s, p) && ForkOk(s, p) && ForkApart(s, p, me);
    }
    forall p, q | 0 <= p < |t.procs| && 0 <= q < |t.procs|
      ensures ForkApart(t, p, q)
    {
      assert ForkApart(s, p, q) && ForkOk(s, p) && ForkOk(s, q);
    }
  }

  lemma TreeForkFail(s: State, c: nat)
    requires CpuInv(s) && TreeInv(s) && Enabled(s, ForkFail(c))
    ensures TreeInv(Step(s, ForkFail(c)))
  {
    assert ProcOk(s, Who(s, c)) && ForkOk(s, Who(s, c));
    ForkFailed(s, Step(s, ForkFail(c)), Who(s, c), Me(s, c).loc.np);
  }

  lemma ForkFailed(s: State, t: State, me: nat, np: nat)
    requires TreeInv(s) && me < |s.procs| && np < |s.procs| && t.initproc == s.initproc && s.procs[me].loc == ForkA(np)
             && Live(s.procs[me])
    requires t.procs == s.procs[np := s.procs[np].(state := UNUSED)][me := s.procs[me].(loc := Free)]
    ensures TreeInv(t)
  {
    assert ForkOk(s, me) && ParentOk(s, me);
    forall p | 0 <= p < |t.procs|
      ensures ParentOk(t, p) && ZombieSeen(t, p) && ForkOk(t, p)
    {
      assert ParentOk(s, p) && ZombieSeen(s, p) && ForkOk(s, p) && ForkApart(s, p, me);
    }
    forall p, q | 0 <= p < |t.procs| && 0 <= q < |t.procs|
      ensures ForkApart(t, p, q)
    {
      assert ForkApart(s, p, q) && ForkOk(s, p) && ForkOk(s, q);
    }
  }

  lemma TreeForkParent(s: State, c: nat)
    requires CpuInv(s) && TreeInv(s) && Enabled(s, ForkParent(c))
    ensures TreeInv(Step(s, ForkParent(c)))
  {
    assert ProcOk(s, Who(s, c)) && ForkOk(s, Who(s, c));
    ForkFathered(s, Step(s, ForkParent(c)), Who(s, c), Me(s, c).loc.np);
  }

  lemma ForkFathered(s: State, t: State, me: nat, np: nat)
    requires TreeInv(s) && me < |s.procs| && np < |s.procs| && t.initproc == s.initproc && s.procs[me].loc == ForkA(np)
             && Live(s.procs[me])
    requires t.procs == s.procs[np := s.procs[np].(parent := Some(me))][me := s.procs[me].(loc := ForkB(np))]
    ensures TreeInv(t)
  {
    assert ForkOk(s, me) && ParentOk(s, me);
    forall p | 0 <= p < |t.procs|
      ensures ParentOk(t, p) && ZombieSeen(t, p) && ForkOk(t, p)
    {
      assert ParentOk(s, p) && ZombieSeen(s, p) && ForkOk(s, p) && ForkApart(s, p, me);
    }
    forall p, q | 0 <= p < |t.procs| && 0 <= q < |t.procs|
      ensures ForkApart(t, p, q)
    {
      assert ForkApart(s, p, q) && ForkOk(s, p) && ForkOk(s, q);
    }
  }

  lemma TreeForkRun(s: State, c: nat)
    requires CpuInv(s) && TreeInv(s) && Enabled(s, ForkRun(c))
    ensures TreeInv(Step(s, ForkRun(c)))
  {
    assert ProcOk(s, Who(s, c)) && ForkOk(s, Who(s, c)) && ProcOk(s, Me(s, c).loc.np);
    ForkStarted(s, Step(s, ForkRun(c)), Who(s, c), Me(s, c).loc.np);
  }

  lemma ForkStarted(s: State, t: State, me: nat, np: nat)
    requires TreeInv(s) && me < |s.procs| && np < |s.procs| && t.initproc == s.initproc && s.procs[me].loc == ForkB(np)
             && Live(s.procs[me])
    requires s.procs[np].loc == Switched(NewProc)
    requires t.procs == s.procs[np := s.procs[np].(state := RUNNABLE)][me := s.procs[me].(loc := Free)]
    ensures TreeInv(t)
  {
    assert ForkOk(s, me) && ParentOk(s, me);
    forall p | 0 <= p < |t.procs|
      ensures ParentOk(t, p) && ZombieSeen(t, p) && ForkOk(t, p)
    {
      assert ParentOk(s, p) && ZombieSeen(s, p) && ForkOk(s, p) && ForkApart(s, p, me);
    }
    forall p, q | 0 <= p < |t.procs| && 0 <= q < |t.procs|
      ensures ForkApart(t, p, q)
    {
      assert ForkApart(s, p, q) && ForkOk(s, p) && ForkOk(s, q);
    }
  }

  lemma TreeReap(s: State, c: nat, z: nat)
    requires CpuInv(s) && TreeInv(s) && Enabled(s, WaitReap(c, z))
    ensures TreeInv(Step(s, WaitReap(c, z)))
  {
    assert ProcOk(s, Who(s, c)) && ParentOk(s, z) && ProcOk(s, z);
    ZombieReaped(s, Step(s, WaitReap(c, z)), Who(s, c), z);
  }

  lemma ZombieReaped(s: State, t: State, me: nat, z: nat)
    requires TreeInv(s) && me < |s.procs| && z < |s.procs| && z != me && t.initproc == s.initproc
             && s.procs[me].loc.WaitA? && Live(s.procs[me])
    requires s.procs[z].state == ZOMBIE && !Forking(s.procs[z])
    requires t.procs == s.procs[z := s.procs[z].(state := UNUSED, pid := 0, parent := None,
                 killed := false)][me := s.procs[me].(loc := Free)]
    ensures TreeInv(t)
  {
    assert ForkOk(s, me) && ParentOk(s, me);
    forall p | 0 <= p < |t.procs|
      ensures ParentOk(t, p) && ZombieSeen(t, p) && ForkOk(t, p)
    {
      assert ParentOk(s, p) && ZombieSeen(s, p) && ForkOk(s, p) && ForkApart(s, p, me);
    }
    forall p, q | 0 <= p < |t.procs| && 0 <= q < |t.procs|
      ensures ForkApart(t, p, q)
    {
      assert ForkApart(s, p, q) && ForkOk(s, p) && ForkOk(s, q);
    }
  }

  /** fork takes a pid never used before. */
  lemma PidFork(s: State, a: Action)
    requires CpuInv(s) && TreeInv(s) && PidInv(s) && Enabled(s, a)
    requires a.ForkAlloc? || a.ForkFail? || a.ForkParent? || a.ForkRun?
    ensures PidInv(Step(s, a))
  {
    var t, me := Step(s, a), Who(s, a.c);
    assert ProcOk(s, me) && ForkOk(s, me);
    forall p | 0 <= p < |t.procs|
      ensures PidOk(t, p)
    {
      assert PidOk(s, p);
    }
    forall p, q | 0 <= p < |t.procs| && 0 <= q < |t.procs|
      ensures PidApart(t, p, q)
    {
      assert PidApart(s, p, q) && PidOk(s, p) && PidOk(s, q);
    }
  }

  /** wait returns a pid that no other process has. */
  lemma PidReap(s: State, c: nat, z: nat)
    requires CpuInv(s) && PidInv(s) && Enabled(s, WaitReap(c, z))
    ensures PidInv(Step(s, WaitReap(c, z)))
  {
    var t, me := Step(s, WaitReap(c, z)), Who(s, c);
    assert ProcOk(s, me) && PidOk(s, z);
    forall p | 0 <= p < |t.procs|
      ensures PidOk(t, p)
    {
      assert PidOk(s, p) && PidApart(s, p, z);
    }
    forall p, q | 0 <= p < |t.procs| && 0 <= q < |t.procs|
      ensures PidApart(t, p, q)
    {
      assert PidApart(s, p, q) && PidOk(s, p) && PidOk(s, q);
    }
  }

  /** What exit's pass over the table does to one entry. */
  lemma ExitAt(s: State, me: nat, p: nat)
    requires me < |s.procs| && p < |s.procs| && me != s.initproc && s.procs[me].state == RUNNING
    ensures var x, y := s.procs[p], ExitProcs(s, me)[p];
            && y.parent == (if x.parent == Some(me) then Some(s.initproc) else x.parent)
            && y.pid == x.pid && y.host == x.host && y.chan == x.chan && y.holds == x.holds
            && (if p == me then y.state == ZOMBIE && y.loc == InSched(Dead)
                else y.loc == x.loc && (y.state == x.state || (x.state == SLEEPING && y.state == RUNNABLE)))
            && (s.procs[me].parent == Some(p) ==> !SleepsInWait(y, p))
            && (p == s.initproc && HasZombie(s, me) ==> !SleepsInWait(y, p))
  {
    var x := s.procs[p];
    var a := if s.procs[me].parent.Some? then WakeAll(s.procs, OfProc(s.procs[me].parent.value)) else s.procs;
    assert a[p] == if s.procs[me].parent.Some? then Awoken(x, OfProc(s.procs[me].parent.value)) else x;
    var b := Reparent(a, me, s.initproc);
    var d := if HasZombie(s, me) then WakeAll(b, OfProc(s.initproc)) else b;
    assert d[p] == if HasZombie(s, me) then Awoken(b[p], OfProc(s.initproc)) else b[p];
    assert ExitProcs(s, me)[p] == if p == me then d[p].(state := ZOMBIE, loc := InSched(Dead)) else d[p];
  }

  lemma TreeExit(s: State, c: nat)
    requires CpuInv(s) && TreeInv(s) && PidInv(s) && Enabled(s, ExitMark(c))
    ensures TreeInv(Step(s, ExitMark(c))) && PidInv(Step(s, ExitMark(c)))
  {
    var t, me := Step(s, ExitMark(c)), Who(s, c);
    assert ProcOk(s, me) && ParentOk(s, me);
    ExitAt(s, me, s.initproc);
    forall p | 0 <= p < |t.procs|
      ensures ParentOk(t, p)
    {
      TreeExitParent(s, me, t, p);
    }
    forall p | 0 <= p < |t.procs|
      ensures ZombieSeen(t, p)
    {
      TreeExitZombie(s, me, t, p);
    }
    TreeExitForks(s, me, t);
    TreeExitPids(s, me, t);
  }

  lemma TreeExitForks(s: State, me: nat, t: State)
    requires CpuInv(s) && TreeInv(s) && me < |s.procs| && me != s.initproc && s.procs[me].state == RUNNING
             && !Forking(s.procs[me])
    requires t == s.(procs := ExitProcs(s, me))
    ensures forall p :: 0 <= p < |t.procs| ==> ForkOk(t, p)
    ensures forall p, q :: 0 <= p < |t.procs| && 0 <= q < |t.procs| ==> ForkApart(t, p, q)
  {
    forall p | 0 <= p < |t.procs|
      ensures ForkOk(t, p)
    {
      assert ForkOk(s, p) && ProcOk(s, p);
      ExitAt(s, me, p);
      if Forking(s.procs[p]) { ExitAt(s, me, s.procs[p].loc.np); }
    }
    forall p, q | 0 <= p < |t.procs| && 0 <= q < |t.procs|
      ensures ForkApart(t, p, q)
    {
      ExitAt(s, me, p);
      ExitAt(s, me, q);
      assert ForkApart(s, p, q);
    }
  }

  lemma TreeExitPids(s: State, me: nat, t: State)
    requires PidInv(s) && me < |s.procs| && me != s.initproc && s.procs[me].state == RUNNING
    requires t == s.(procs := ExitProcs(s, me))
    ensures PidInv(t)
  {
    forall p | 0 <= p < |t.procs|
      ensures PidOk(t, p)
    {
      assert PidOk(s, p);
      ExitAt(s, me, p);
    }
    forall p, q | 0 <= p < |t.procs| && 0 <= q < |t.procs|
      ensures PidApart(t, p, q)
    {
      ExitAt(s, me, p);
      ExitAt(s, me, q);
      assert PidApart(s, p, q);
    }
  }

  lemma TreeExitParent(s: State, me: nat, t: State, p: nat)
    requires TreeInv(s) && me < |s.procs| && p < |s.procs| && me != s.initproc && s.procs[me].state == RUNNING
    requires t == s.(procs := ExitProcs(s, me))
    ensures ParentOk(t, p)
  {
    assert ParentOk(s, p) && ParentOk(s, me);
    ExitAt(s, me, p);
    ExitAt(s, me, s.initproc);
    if s.procs[p].parent.Some? && s.procs[p].parent.value < |s.procs| {
      ExitAt(s, me, s.procs[p].parent.value);
    }
  }

  lemma TreeExitZombie(s: State, me: nat, t: State, z: nat)
    requires TreeInv(s) && me < |s.procs| && z < |s.procs| && me != s.initproc && s.procs[me].state == RUNNING
    requires t == s.(procs := ExitProcs(s, me))
    ensures ZombieSeen(t, z)
  {
    assert ZombieSeen(s, z) && ParentOk(s, me);
    ExitAt(s, me, z);
    ExitAt(s, me, s.initproc);
    if s.procs[z].parent.Some? && s.procs[z].parent.value < |s.procs| {
      ExitAt(s, me, s.procs[z].parent.value);
    }
  }

  // ---------------------------------------------------------------- fork, exit, wait and kill keep CPUs and sleepers

  /** Other processes changed state, but none of them runs, waits or holds anything it did not. */
  lemma CoreOthers(s: State, t: State, c: nat)
    requires CoreInv(s) && On(s, c) && t.cpus == s.cpus && t.lk == s.lk && t.blocked == s.blocked
             && t.closed == s.closed && |t.procs| == |s.procs|
    requires forall p :: 0 <= p < |s.procs| && p != Who(s, c) ==>
             && StackKept(s.procs[p], t.procs[p], p) && (Unborn(t.procs[p]) ==> Unborn(s.procs[p]) || s.pt == Some(c))
             && (t.procs[p].state == SLEEPING ==> s.procs[p].state == SLEEPING && t.procs[p].chan == s.procs[p].chan)
    requires ProcOk(t, Who(s, c)) && CpuOk(t, c)
    requires t.pt == s.pt || (t.pt == None && s.pt == Some(c))
    requires var x, y := Me(s, c).loc, t.procs[Who(s, c)];
             (x.Free? || x.ForkA? || x.ForkB? || x.ExitA? || x.WaitA?) && y.state != SLEEPING &&
             (y.loc.Free? || y.loc.ForkA? || y.loc.ForkB? || y.loc.InSched?)
    ensures CoreInv(t)
  {
    CpuFrame(s, t, c);
    LkSame(s, t);
    SleepFrame(s, t);
  }

  lemma CoreForkAlloc(s: State, c: nat, np: nat)
    requires CoreInv(s) && Enabled(s, ForkAlloc(c, np))
    ensures CoreInv(Step(s, ForkAlloc(c, np)))
  {
    var t := Step(s, ForkAlloc(c, np));
    assert CpuOk(s, c) && ProcOk(s, Who(s, c));
    forall p | 0 <= p < |s.procs| ensures LocOk(s.procs[p], p) && ChanOk(s.procs[p]) { assert ProcOk(s, p); }
    CoreOthers(s, t, c);
  }

  /** One process that is not running yet changed its state, and the running one its control point. */
  lemma CoreForked(s: State, t: State, c: nat, np: nat)
    requires CoreInv(s) && On(s, c) && np < |s.procs| && np != Who(s, c) && s.procs[np].loc == Switched(NewProc)
             && (Me(s, c).loc.ForkA? || Me(s, c).loc.ForkB?)
    requires CpuOk(s, c) && ProcOk(s, Who(s, c)) && s.procs[np].state == EMBRYO
    requires |t.procs| == |s.procs| && t == s.(procs := s.procs[np := t.procs[np]][Who(s, c) := t.procs[Who(s, c)]])
    requires t.procs[Who(s, c)] == Me(s, c).(loc := t.procs[Who(s, c)].loc)
             && (t.procs[Who(s, c)].loc.Free? || t.procs[Who(s, c)].loc.ForkB?)
    requires var x, y := s.procs[np], t.procs[np];
               y == x.(state := y.state, parent := y.parent)
               && (y.state == UNUSED || y.state == EMBRYO || y.state == RUNNABLE)
    ensures CoreInv(t)
  {
    forall p | 0 <= p < |s.procs| && p != Who(s, c)
      ensures StackKept(s.procs[p], t.procs[p], p) && (Unborn(t.procs[p]) ==> Unborn(s.procs[p]))
      ensures t.procs[p].state == SLEEPING ==> s.procs[p].state == SLEEPING && t.procs[p].chan == s.procs[p].chan
    {
      assert ProcOk(s, p);
    }
    CoreOthers(s, t, c);
  }

  lemma CoreForkFail(s: State, c: nat)
    requires CoreInv(s) && TreeInv(s) && Enabled(s, ForkFail(c))
    ensures CoreInv(Step(s, ForkFail(c)))
  {
    assert CpuOk(s, c) && ProcOk(s, Who(s, c)) && ForkOk(s, Who(s, c));
    assert ProcOk(s, Me(s, c).loc.np);
    CoreForked(s, Step(s, ForkFail(c)), c, Me(s, c).loc.np);
  }

  lemma CoreForkParent(s: State, c: nat)
    requires CoreInv(s) && TreeInv(s) && Enabled(s, ForkParent(c))
    ensures CoreInv(Step(s, ForkParent(c)))
  {
    assert CpuOk(s, c) && ProcOk(s, Who(s, c)) && ForkOk(s, Who(s, c));
    assert ProcOk(s, Me(s, c).loc.np);
    CoreForked(s, Step(s, ForkParent(c)), c, Me(s, c).loc.np);
  }

  lemma CoreForkRun(s: State, c: nat)
    requires CoreInv(s) && TreeInv(s) && Enabled(s, ForkRun(c))
    ensures CoreInv(Step(s, ForkRun(c)))
  {
    assert CpuOk(s, c) && ProcOk(s, Who(s, c)) && ForkOk(s, Who(s, c));
    assert ProcOk(s, Me(s, c).loc.np);
    CoreForked(s, Step(s, ForkRun(c)), c, Me(s, c).loc.np);
  }

  lemma CoreReap(s: State, c: nat, z: nat)
    requires CoreInv(s) && Enabled(s, WaitReap(c, z))
    ensures CoreInv(Step(s, WaitReap(c, z)))
  {
    var t, me := Step(s, WaitReap(c, z)), Who(s, c);
    assert CpuOk(s, c) && ProcOk(s, me) && ProcOk(s, z);
    AloneInSection(s, c, z);
    forall p | 0 <= p < |s.procs| ensures LocOk(s.procs[p], p) && ChanOk(s.procs[p]) { assert ProcOk(s, p); }
    CoreOthers(s, t, c);
  }

  lemma CoreKill(s: State, c: nat, pid: nat)
    requires CoreInv(s) && Enabled(s, Kill(c, pid))
    ensures CoreInv(Step(s, Kill(c, pid)))
  {
    var t, me := Step(s, Kill(c, pid)), Who(s, c);
    assert CpuOk(s, c) && ProcOk(s, me);
    forall p | 0 <= p < |s.procs|
      ensures LocOk(s.procs[p], p) && ChanOk(s.procs[p]) && !s.procs[p].loc.InSched?
    {
      NotInSched(s, p);
    }
    CoreOthers(s, t, c);
  }

  lemma NotInSched(s: State, p: nat)
    requires CpuInv(s) && s.pt == None && p < |s.procs|
    ensures LocOk(s.procs[p], p) && ChanOk(s.procs[p]) && !s.procs[p].loc.InSched?
  {
    assert ProcOk(s, p);
    if !s.procs[p].loc.Switched? { assert CpuOk(s, s.procs[p].host); }
  }

  lemma CoreExit(s: State, c: nat)
    requires CoreInv(s) && TreeInv(s) && Enabled(s, ExitMark(c))
    ensures CoreInv(Step(s, ExitMark(c)))
  {
    var t, me := Step(s, ExitMark(c)), Who(s, c);
    assert CpuOk(s, c) && ProcOk(s, me);
    ExitAt(s, me, me);
    forall p | 0 <= p < |s.procs| && p != me
      ensures StackKept(s.procs[p], t.procs[p], p) && (Unborn(t.procs[p]) ==> Unborn(s.procs[p]))
      ensures t.procs[p].state == SLEEPING ==> s.procs[p].state == SLEEPING && t.procs[p].chan == s.procs[p].chan
    {
      ExitOther(s, c, p);
    }
    CoreOthers(s, t, c);
  }

  lemma ExitOther(s: State, c: nat, p: nat)
    requires CpuInv(s) && Enabled(s, ExitMark(c)) && p < |s.procs| && p != Who(s, c)
    ensures var x, y := s.procs[p], Step(s, ExitMark(c)).procs[p];
            StackKept(x, y, p) && (Unborn(y) ==> Unborn(x))
            && (y.state == SLEEPING ==> x.state == SLEEPING && y.chan == x.chan)
  {
    assert ProcOk(s, p) && CpuOk(s, c) && ProcOk(s, Who(s, c));
    AloneInSection(s, c, p);
    ExitAt(s, Who(s, c), p);
  }

  // ---------------------------------------------------------------- whole runs

  ghost predicate Inv(s: State) {
    CoreInv(s) && TreeInv(s) && PidInv(s) && FlagInv(s)
  }

  predicate IsSched(a: Action) {
    a.SchedAcquire? || a.SchedRelease? || a.SchedPick? || a.SchedClear? || a.Swtch? || a.Resume?
  }

  predicate IsLock(a: Action) {
    a.AcquireLk? || a.ReleaseLk? || a.SetCond? || a.See? || a.SetFlag? || a.GiveFlag? || a.CloseEnd? || a.ReAcquire? ||
    a.WakeAcquire? || a.WakeRelease?
  }

  lemma CoreSchedules(s: State, a: Action)
    requires CoreInv(s) && Enabled(s, a) && IsSched(a)
    ensures CoreInv(Step(s, a))
  {
    match a
    case SchedAcquire(c) => CoreSched(s, a);
    case SchedRelease(c) => CoreSched(s, a);
    case SchedPick(c, p) => CorePick(s, c, p);
    case SchedClear(c) => CoreSched(s, a);
    case Swtch(c) => CoreSwtch(s, c);
    case Resume(c) => CoreResume(s, c);
  }

  lemma CoreLocks(s: State, a: Action)
    requires CoreInv(s) && Enabled(s, a) && IsLock(a) && !IsTurn(a)
    ensures CoreInv(Step(s, a))
  {
    match a
    case AcquireLk(c, l) => CoreAcquire(s, c, l);
    case ReleaseLk(c) => CoreRelease(s, c);
    case See(c, ch) => CoreWakeEdge(s, a);
    case ReAcquire(c) => CoreReAcquire(s, c);
    case WakeAcquire(c, ch) => CoreWakeEdge(s, a);
    case WakeRelease(c) => CoreWakeEdge(s, a);
  }

  lemma CoreTurns(s: State, a: Action)
    requires CoreInv(s) && FlagInv(s) && Enabled(s, a) && IsTurn(a)
    ensures CoreInv(Step(s, a))
  {
    match a
    case SetCond(c, ch, now) => CoreTurn(s, c, ch, now, Me(s, c).holds);
    case SetFlag(c, ch) => assert SeenOk(s, Who(s, c)); CoreTurn(s, c, ch, false, Me(s, c).holds + {ch});
    case GiveFlag(c, ch) => CoreTurn(s, c, ch, true, Me(s, c).holds - {ch});
    case CloseEnd(c, ch) => CoreClose(s, c, ch);
  }

  lemma CoreSleeps(s: State, a: Action)
    requires CoreInv(s) && FlagInv(s) && Enabled(s, a) && !IsLife(a) && !IsSched(a) && !IsLock(a)
    ensures CoreInv(Step(s, a))
  {
    match a
    case Wakeup1(c) => CoreWakeup1(s, c);
    case SleepAcquire(c, ch) => assert SeenOk(s, Who(s, c)); CoreSleepAcquire(s, c, ch);
    case SleepReleaseLk(c) => CoreSleepRelease(s, c);
    case SleepMark(c) => CoreMark(s, a);
    case YieldAcquire(c) => CoreGo(s, a);
    case YieldMark(c) => CoreMark(s, a);
  }

  lemma InvSync(s: State, a: Action)
    requires Inv(s) && Enabled(s, a) && !IsLife(a)
    ensures Inv(Step(s, a))
  {
    FlagStep(s, a);
    if IsSched(a) {
      CoreSchedules(s, a);
      TreeSched(s, a);
    } else if IsLock(a) {
      if IsTurn(a) { CoreTurns(s, a); } else { CoreLocks(s, a); }
      TreeLocks(s, a);
    } else {
      CoreSleeps(s, a);
      TreeSleep(s, a);
    }
  }

  lemma CoreLife(s: State, a: Action)
    requires CoreInv(s) && TreeInv(s) && Enabled(s, a) && IsLife(a)
    ensures CoreInv(Step(s, a))
  {
    match a
    case ForkAlloc(c, np) => CoreForkAlloc(s, c, np);
    case ForkFail(c) => CoreForkFail(s, c);
    case ForkParent(c) => CoreForkParent(s, c);
    case ForkRun(c) => CoreForkRun(s, c);
    case ExitAcquire(c) => CoreGo(s, a);
    case ExitMark(c) => CoreExit(s, c);
    case WaitAcquire(c) => CoreGo(s, a);
    case WaitReap(c, z) => CoreReap(s, c, z);
    case WaitNone(c) => CoreGo(s, a);
    case WaitSleep(c) => CoreMark(s, a);
    case Kill(c, pid) => CoreKill(s, c, pid);
  }

  predicate IsFork(a: Action) {
    a.ForkAlloc? || a.ForkFail? || a.ForkParent? || a.ForkRun?
  }

  lemma TreeForks(s: State, a: Action)
    requires CpuInv(s) && TreeInv(s) && Enabled(s, a) && IsFork(a)
    ensures TreeInv(Step(s, a))
  {
    match a
    case ForkAlloc(c, np) => TreeForkAlloc(s, c, np);
    case ForkFail(c) => TreeForkFail(s, c);
    case ForkParent(c) => TreeForkParent(s, c);
    case ForkRun(c) => TreeForkRun(s, c);
  }

  lemma TreeEnds(s: State, a: Action)
    requires CpuInv(s) && TreeInv(s) && PidInv(s) && Enabled(s, a) && IsLife(a) && !IsFork(a)
    ensures TreeInv(Step(s, a)) && PidInv(Step(s, a))
  {
    match a
    case ExitAcquire(c) => TreeQuiet(s, a);
    case ExitMark(c) => TreeExit(s, c);
    case WaitAcquire(c) => TreeQuiet(s, a);
    case WaitReap(c, z) => TreeReap(s, c, z); PidReap(s, c, z);
    case WaitNone(c) => TreeQuiet(s, a);
    case WaitSleep(c) => TreeWaitSleep(s, c);
    case Kill(c, pid) => TreeQuiet(s, a);
  }

  lemma InvLife(s: State, a: Action)
    requires Inv(s) && Enabled(s, a) && IsLife(a)
    ensures Inv(Step(s, a))
  {
    CoreLife(s, a);
    FlagStep(s, a);
    if IsFork(a) {
      TreeForks(s, a);
      PidFork(s, a);
    } else {
      TreeEnds(s, a);
    }
  }

  /** After userinit: init is ready to run for the first time, every CPU is about to enter its scheduler. */
  predicate Boot(s: State) {
    && s.initproc < |s.procs|
    && (forall p :: 0 <= p < |s.procs| ==>
          s.procs[p] == if p == s.initproc then Proc(RUNNABLE, NoChan, None, 1, false, Switched(NewProc), 0, {}, None)
                        else Proc(UNUSED, NoChan, None, 0, false, Switched(NewProc), 0, {}, None))
    && (forall c :: 0 <= c < |s.cpus| ==> s.cpus[c] == Cpu(SchedOut, None))
    && s.pt == None && s.lk == map[] && s.nextpid == 2 && s.returned == [] && s.closed == {}
  }

  /** The state after a sequence of steps of any CPUs, or None if one was not enabled. */
  function Exec(s: State, run: seq<Action>): Option<State> {
    if run == [] then Some(s)
    else
      var pre := Exec(s, run[..|run| - 1]);
      if pre.Some? && Enabled(pre.value, run[|run| - 1]) then Some(Step(pre.value, run[|run| - 1])) else None
  }

  ghost predicate Reachable(s: State) {
    exists boot, run :: Boot(boot) && Exec(boot, run) == Some(s)
  }

  lemma {:induction false} InvRun(boot: State, run: seq<Action>)
    requires Boot(boot) && Exec(boot, run).Some?
    ensures Inv(Exec(boot, run).value)
  {
    if run != [] {
      var pre := Exec(boot, run[..|run| - 1]).value;
      InvRun(boot, run[..|run| - 1]);
      if IsLife(run[|run| - 1]) { InvLife(pre, run[|run| - 1]); } else { InvSync(pre, run[|run| - 1]); }
    }
  }

  lemma InvReachable(s: State)
    requires Reachable(s)
    ensures Inv(s)
  {
    var boot, run :| Boot(boot) && Exec(boot, run) == Some(s);
    InvRun(boot, run);
  }

  // ---------------------------------------------------------------- main results

  /** No lost wakeup: while a channel's lock is free, nobody sleeps on it although the awaited condition holds. */
  lemma NoLostWakeup(s: State, p: nat, ch: Chan)
    requires Reachable(s) && p < |s.procs| && IsClient(ch)
    requires LockOf(ch) !in s.lk && ch !in s.blocked
    ensures !(s.procs[p].state == SLEEPING && s.procs[p].chan == ch)
  {
    InvReachable(s);
    assert NotLost(s, p, ch);
  }

  /** When ptable.lock is free, a process is RUNNING exactly when one CPU has it as current, and only one. */
  lemma CpuAgreement(s: State, p: nat)
    requires Reachable(s) && s.pt == None && p < |s.procs|
    ensures s.procs[p].state == RUNNING <==> exists c :: 0 <= c < |s.cpus| && s.cpus[c].cur == Some(p)
    ensures forall c, d ::
              0 <= c < |s.cpus| && 0 <= d < |s.cpus| && s.cpus[c].cur == Some(p) && s.cpus[d].cur == Some(p) ==> c == d
  {
    InvReachable(s);
    assert ProcOk(s, p);
    forall c | 0 <= c < |s.cpus| && s.cpus[c].cur == Some(p)
      ensures s.procs[p].state == RUNNING && s.procs[p].host == c
    {
      assert CpuOk(s, c);
    }
  }

  lemma ReapAlone(s: State, c: nat, z: nat)
    requires CpuInv(s) && Enabled(s, WaitReap(c, z))
    ensures forall d :: 0 <= d < |s.cpus| ==> s.cpus[d].cur != Some(z)
  {
    assert CpuOk(s, c) && ProcOk(s, z) && ProcOk(s, Who(s, c));
    AloneInSection(s, c, z);
    forall d | 0 <= d < |s.cpus|
      ensures s.cpus[d].cur != Some(z)
    {
      assert CpuOk(s, d);
    }
  }

  /** wait frees a child's kernel stack only when no CPU has the child as current, let alone runs on its stack. */
  lemma ReapSafe(s: State, c: nat, z: nat)
    requires Reachable(s) && Enabled(s, WaitReap(c, z))
    ensures forall d :: 0 <= d < |s.cpus| ==> s.cpus[d].cur != Some(z)
  {
    assert CpuInv(s) by { InvReachable(s); }
    ReapAlone(s, c, z);
  }

  /** What a scheduler holding the lock finds RUNNABLE has its context saved and is current on no CPU. */
  lemma PickSafe(s: State, c: nat, p: nat)
    requires Reachable(s) && c < |s.cpus| && s.cpus[c].ctl == SchedIn && p < |s.procs| && s.procs[p].state == RUNNABLE
    ensures s.procs[p].loc.Switched?
    ensures forall d :: 0 <= d < |s.cpus| ==> s.cpus[d].cur != Some(p)
  {
    InvReachable(s);
    assert CpuOk(s, c) && ProcOk(s, p);
    assert s.procs[p].host < |s.cpus| ==> CpuOk(s, s.procs[p].host);
    forall d | 0 <= d < |s.cpus|
      ensures s.cpus[d].cur != Some(p)
    {
      assert CpuOk(s, d);
    }
  }

  /** How a busy flag is given back, as commit_trans, iunlock and brelse do it with the flag's lock held. */
  function GiveBack(c: nat, ch: Chan): seq<Action> {
    [GiveFlag(c, ch), WakeAcquire(c, ch), Wakeup1(c), WakeRelease(c), ReleaseLk(c)]
  }

  /** That meets the client's obligation, and leaves no sleeper on the channel. */
  lemma GiveBackObeys(s: State, c: nat, ch: Chan)
    requires On(s, c) && IsFlag(ch) && ch in Me(s, c).holds && Me(s, c).loc == Holding(LockOf(ch), {}) && s.pt == None
    ensures Exec(s, GiveBack(c, ch)).Some?
    ensures var t := Exec(s, GiveBack(c, ch)).value;
            && ch !in t.blocked && LockOf(ch) !in t.lk && t.pt == None
            && forall p :: 0 <= p < |t.procs| ==> !(t.procs[p].state == SLEEPING && t.procs[p].chan == ch)
  {
    var s1, s2, s3, s4 := GiveSteps(s, c, ch);
    var r1 := [GiveFlag(c, ch)];
    ExecOne(s, [], GiveFlag(c, ch));
    assert [] + r1 == r1;
    ExecOne(s, r1, WakeAcquire(c, ch));
    ExecOne(s, r1 + [WakeAcquire(c, ch)], Wakeup1(c));
    ExecOne(s, r1 + [WakeAcquire(c, ch)] + [Wakeup1(c)], WakeRelease(c));
    ExecOne(s, r1 + [WakeAcquire(c, ch)] + [Wakeup1(c)] + [WakeRelease(c)], ReleaseLk(c));
    assert r1 + [WakeAcquire(c, ch)] + [Wakeup1(c)] + [WakeRelease(c)] + [ReleaseLk(c)] == GiveBack(c, ch);
  }

  lemma GiveSteps(s: State, c: nat, ch: Chan) returns (s1: State, s2: State, s3: State, s4: State)
    requires On(s, c) && IsFlag(ch) && ch in Me(s, c).holds && Me(s, c).loc == Holding(LockOf(ch), {}) && s.pt == None
    ensures Enabled(s, GiveFlag(c, ch)) && s1 == Step(s, GiveFlag(c, ch))
    ensures Enabled(s1, WakeAcquire(c, ch)) && s2 == Step(s1, WakeAcquire(c, ch))
    ensures Enabled(s2, Wakeup1(c)) && s3 == Step(s2, Wakeup1(c))
    ensures Enabled(s3, WakeRelease(c)) && s4 == Step(s3, WakeRelease(c)) && Enabled(s4, ReleaseLk(c))
    ensures var t := Step(s4, ReleaseLk(c));
            && ch !in t.blocked && LockOf(ch) !in t.lk && t.pt == None
            && forall p :: 0 <= p < |t.procs| ==> !(t.procs[p].state == SLEEPING && t.procs[p].chan == ch)
  {
    s1 := MadeTrue(s, c, ch);
    s2 := WakeEntered(s1, c, ch);
    s3 := AllWoken(s2, c, ch);
    s4 := Left(s3, c, ch);
  }

  lemma MadeTrue(s: State, c: nat, ch: Chan) returns (t: State)
    requires On(s, c) && IsFlag(ch) && ch in Me(s, c).holds && Me(s, c).loc == Holding(LockOf(ch), {}) && s.pt == None
    ensures Enabled(s, GiveFlag(c, ch)) && t == Step(s, GiveFlag(c, ch))
    ensures On(t, c) && Me(t, c).loc == Holding(LockOf(ch), {ch}) && t.pt == None && ch !in t.blocked
  {
    t := Step(s, GiveFlag(c, ch));
  }

  lemma WakeEntered(s: State, c: nat, ch: Chan) returns (t: State)
    requires On(s, c) && IsClient(ch) && Me(s, c).loc == Holding(LockOf(ch), {ch}) && s.pt == None
    ensures Enabled(s, WakeAcquire(c, ch)) && t == Step(s, WakeAcquire(c, ch))
    ensures On(t, c) && Me(t, c).loc == Waking(LockOf(ch), {ch}, ch) && t.blocked == s.blocked
  {
    t := Step(s, WakeAcquire(c, ch));
  }

  lemma AllWoken(s: State, c: nat, ch: Chan) returns (t: State)
    requires On(s, c) && IsClient(ch) && Me(s, c).loc == Waking(LockOf(ch), {ch}, ch)
    ensures Enabled(s, Wakeup1(c)) && t == Step(s, Wakeup1(c))
    ensures On(t, c) && Me(t, c).loc == Woken(LockOf(ch), {}) && t.blocked == s.blocked
    ensures forall p :: 0 <= p < |t.procs| ==> !(t.procs[p].state == SLEEPING && t.procs[p].chan == ch)
  {
    t := Step(s, Wakeup1(c));
  }

  lemma Left(s: State, c: nat, ch: Chan) returns (t: State)
    requires On(s, c) && IsClient(ch) && Me(s, c).loc == Woken(LockOf(ch), {})
    requires forall p :: 0 <= p < |s.procs| ==> !(s.procs[p].state == SLEEPING && s.procs[p].chan == ch)
    ensures Enabled(s, WakeRelease(c)) && t == Step(s, WakeRelease(c)) && Enabled(t, ReleaseLk(c))
    ensures var u := Step(t, ReleaseLk(c));
            && u.pt == None && u.blocked == s.blocked && LockOf(ch) !in u.lk
            && forall p :: 0 <= p < |u.procs| ==> !(u.procs[p].state == SLEEPING && u.procs[p].chan == ch)
  {
    t := Step(s, WakeRelease(c));
  }

  /** At most one CPU is inside ptable.lock, wherever control went through swtch. */
  lemma SectionExclusive(s: State, c: nat, d: nat)
    requires Reachable(s) && c < |s.cpus| && d < |s.cpus| && InSection(s, c) && InSection(s, d)
    ensures c == d
  {
    InvReachable(s);
    assert CpuOk(s, c) && CpuOk(s, d);
  }

  /** Every process other than init has a parent that is alive, and a zombie's parent is not asleep in wait. */
  lemma ExitWait(s: State, p: nat)
    requires Reachable(s) && p < |s.procs| && p != s.initproc && (Live(s.procs[p]) || s.procs[p].state == ZOMBIE)
    ensures s.procs[p].parent.Some? && s.procs[p].parent.value < |s.procs| && Live(s.procs[s.procs[p].parent.value])
    ensures s.procs[p].state == ZOMBIE ==> !SleepsInWait(s.procs[s.procs[p].parent.value], s.procs[p].parent.value)
  {
    InvReachable(s);
    assert ParentOk(s, p) && ZombieSeen(s, p);
  }

  /**
   kill marks the process with the pid, and no other, and if it was asleep makes it
   RUNNABLE; if there is none it changes nothing.
   */
  lemma KillTells(s: State, c: nat, pid: nat)
    requires Reachable(s) && Enabled(s, Kill(c, pid)) && pid > 0
    ensures var t := Step(s, Kill(c, pid));
            && t == s.(procs := t.procs) && |t.procs| == |s.procs|
            && forall p :: 0 <= p < |s.procs| ==>
                 var x := s.procs[p];
                 t.procs[p] == if x.pid != pid then x
                               else if x.state == SLEEPING then x.(killed := true, state := RUNNABLE)
                               else x.(killed := true)
  {
    assert PidInv(s) by { InvReachable(s); }
    OnePid(s, pid);
  }

  lemma OnePid(s: State, pid: nat)
    requires PidInv(s) && pid > 0
    ensures forall p, q :: 0 <= p < |s.procs| && 0 <= q < |s.procs| && p != q && s.procs[p].pid == pid ==>
              s.procs[q].pid != pid
  {
    forall p, q | 0 <= p < |s.procs| && 0 <= q < |s.procs| && p != q && s.procs[p].pid == pid
      ensures s.procs[q].pid != pid
    {
      assert PidApart(s, p, q);
    }
  }

  /** wait returns the pid of a child that is a zombie, whose entry is free afterwards and can be used again. */
  lemma ReapTells(s: State, c: nat, z: nat)
    requires Reachable(s) && Enabled(s, WaitReap(c, z))
    ensures var t := Step(s, WaitReap(c, z));
            && t.returned == s.returned + [s.procs[z].pid] && t.procs[z].state == UNUSED && t.pt == None
            && s.procs[z].parent == Some(Who(s, c)) && s.procs[z].state == ZOMBIE
            && (forall p :: 0 <= p < |s.procs| ==> t.procs[p].pid != s.procs[z].pid)
            && forall p :: 0 <= p < |s.procs| && p != z && p != Who(s, c) ==> t.procs[p] == s.procs[p]
  {
    assert PidInv(s) && CpuInv(s) by { InvReachable(s); }
    assert ProcOk(s, Who(s, c)) && PidOk(s, z);
    OnePid(s, s.procs[z].pid);
  }

  /** Whom exit wakes: who sleeps in wait for its parent, or for init if it leaves a zombie child. */
  predicate ExitWakes(s: State, me: nat, x: Proc)
    requires me < |s.procs|
  {
    && x.state == SLEEPING
    && ((s.procs[me].parent.Some? && x.chan == OfProc(s.procs[me].parent.value))
        || (HasZombie(s, me) && x.chan == OfProc(s.initproc)))
  }

  /** exit leaves a zombie, hands its children to init, and wakes nobody but its parent and init. */
  lemma ExitTells(s: State, c: nat, p: nat)
    requires Enabled(s, ExitMark(c)) && p < |s.procs|
    ensures var t, me := Step(s, ExitMark(c)), Who(s, c);
            && t == s.(procs := t.procs) && |t.procs| == |s.procs|
            && t.procs[p].parent == (if s.procs[p].parent == Some(me) then Some(s.initproc) else s.procs[p].parent)
            && t.procs[p].pid == s.procs[p].pid && t.procs[p].killed == s.procs[p].killed
            && t.procs[p].state == if p == me then ZOMBIE
                                   else if ExitWakes(s, me, s.procs[p]) then RUNNABLE else s.procs[p].state
  {
    var me, x := Who(s, c), s.procs[p];
    var a := if s.procs[me].parent.Some? then WakeAll(s.procs, OfProc(s.procs[me].parent.value)) else s.procs;
    assert a[p] == if s.procs[me].parent.Some? then Awoken(x, OfProc(s.procs[me].parent.value)) else x;
    var b := Reparent(a, me, s.initproc);
    var d := if HasZombie(s, me) then WakeAll(b, OfProc(s.initproc)) else b;
    assert d[p] == if HasZombie(s, me) then Awoken(b[p], OfProc(s.initproc)) else b[p];
    assert ExitProcs(s, me)[p] == if p == me then d[p].(state := ZOMBIE, loc := InSched(Dead)) else d[p];
  }

  /** fork, as one CPU runs it. */
  function Fork(c: nat, np: nat): seq<Action> { [ForkAlloc(c, np), ForkParent(c), ForkRun(c)] }

  /** A child with a new pid, ready to run for the first time, whose parent is the caller; nothing else changed. */
  lemma ForkTells(s: State, c: nat, np: nat)
    requires Reachable(s) && Enabled(s, ForkAlloc(c, np))
    ensures Exec(s, Fork(c, np)) == Some(Forked(s, c, np)) && np != Who(s, c)
    ensures forall p :: 0 <= p < |s.procs| ==> s.procs[p].pid != s.nextpid
  {
    assert CpuInv(s) && PidInv(s) by { InvReachable(s); }
    assert ProcOk(s, Who(s, c));
    forall p | 0 <= p < |s.procs|
      ensures s.procs[p].pid != s.nextpid
    {
      assert PidOk(s, p);
    }
    ForkSteps(s, c, np);
  }

  function Forked(s: State, c: nat, np: nat): State
    requires On(s, c) && np < |s.procs|
  {
    var child := s.procs[np].(state := RUNNABLE, pid := s.nextpid, loc := Switched(NewProc), holds := {},
                              parent := Some(Who(s, c)));
    s.(procs := s.procs[np := child], nextpid := s.nextpid + 1)
  }

  lemma ForkSteps(s: State, c: nat, np: nat)
    requires Enabled(s, ForkAlloc(c, np)) && np != Who(s, c)
    ensures Exec(s, Fork(c, np)) == Some(Forked(s, c, np))
  {
    var t := Step(s, ForkAlloc(c, np));
    var u := ForkMiddle(t, c, np);
    ForkLast(s, t, u, c, np);
    var a, b, d := ForkAlloc(c, np), ForkParent(c), ForkRun(c);
    ExecOne(s, [], a);
    assert [] + [a] == [a];
    ExecOne(s, [a], b);
    ExecOne(s, [a] + [b], d);
    assert [a] + [b] + [d] == Fork(c, np);
  }

  lemma ForkMiddle(t: State, c: nat, np: nat) returns (u: State)
    requires On(t, c) && np < |t.procs| && Me(t, c).loc == ForkA(np) && np != Who(t, c)
    ensures Enabled(t, ForkParent(c)) && u == Step(t, ForkParent(c)) && On(u, c) && Who(u, c) == Who(t, c)
    ensures u == t.(procs := t.procs[np := t.procs[np].(parent := Some(Who(t, c)))]
                                    [Who(t, c) := Me(t, c).(loc := ForkB(np))])
  {
    u := Step(t, ForkParent(c));
  }

  lemma ForkLast(s: State, t: State, u: State, c: nat, np: nat)
    requires Enabled(s, ForkAlloc(c, np)) && np != Who(s, c) && t == Step(s, ForkAlloc(c, np))
    requires On(t, c) && Who(t, c) == Who(s, c) && On(u, c) && Who(u, c) == Who(s, c)
    requires u == t.(procs := t.procs[np := t.procs[np].(parent := Some(Who(t, c)))]
                                     [Who(t, c) := Me(t, c).(loc := ForkB(np))])
    ensures Enabled(u, ForkRun(c)) && Step(u, ForkRun(c)) == Forked(s, c, np)
  {
    assert Step(u, ForkRun(c)).procs == Forked(s, c, np).procs;
  }

  /** No pid is returned by wait twice, and none that was returned belongs to a process again. */
  lemma PidsReturnedOnce(s: State)
    requires Reachable(s)
    ensures NoRepeats(s.returned)
    ensures forall p :: 0 <= p < |s.procs| && s.procs[p].state != UNUSED ==> s.procs[p].pid !in s.returned
  {
    InvReachable(s);
    forall p | 0 <= p < |s.procs| && s.procs[p].state != UNUSED
      ensures s.procs[p].pid !in s.returned
    {
      assert PidOk(s, p);
    }
  }

  // ---------------------------------------------------------------- busy flags

  /** What a process has read of a condition still holds: the lock it holds sees to that. */
  predicate SeenOk(s: State, p: nat)
    requires p < |s.procs|
  {
    var x := s.procs[p];
    x.saw.Some? ==>
        IsClient(x.saw.value.ch) && HoldsLk(x.loc, LockOf(x.saw.value.ch))
        && (x.saw.value.wait <==> x.saw.value.ch in s.blocked)
  }

  /** A flag that a process holds is set, and no other process holds it. */
  ghost predicate FlagInv(s: State) {
    && (forall p, ch :: 0 <= p < |s.procs| && ch in s.procs[p].holds ==> IsFlag(ch) && ch in s.blocked)
    && (forall p, q, ch :: 0 <= p < |s.procs| && 0 <= q < |s.procs| && ch in s.procs[p].holds && ch in s.procs[q].holds ==> p == q)
    && (forall p :: 0 <= p < |s.procs| ==> SeenOk(s, p))
  }

  ghost predicate FlagKept(x: Proc, y: Proc) {
    && y.holds <= x.holds
    && (y.saw.Some? ==> y.saw == x.saw && forall l :: HoldsLk(x.loc, l) ==> HoldsLk(y.loc, l))
  }

  /** Nobody comes to hold a flag or to have read a condition, and no condition changes. */
  ghost predicate FlagsKept(s: State, t: State) {
    && |t.procs| == |s.procs| && t.blocked == s.blocked
    && (forall p :: 0 <= p < |s.procs| ==> FlagKept(s.procs[p], t.procs[p]))
  }

  lemma FlagsKeptExit(s: State, c: nat)
    requires Enabled(s, ExitMark(c)) && Me(s, c).state == RUNNING
    ensures FlagsKept(s, Step(s, ExitMark(c)))
  {
    var t := Step(s, ExitMark(c));
    forall p | 0 <= p < |s.procs|
      ensures FlagKept(s.procs[p], t.procs[p])
    {
      ExitAt(s, Who(s, c), p);
    }
  }

  lemma FlagsKeptFork(s: State, a: Action)
    requires CpuInv(s) && Enabled(s, a) && (a.ForkAlloc? || a.ForkFail? || a.ForkParent? || a.ForkRun?)
    ensures FlagsKept(s, Step(s, a))
  {
    assert a.ForkAlloc? ==> ProcOk(s, a.np);
  }

  lemma FlagsKeptWait(s: State, a: Action)
    requires Enabled(s, a) && (a.ExitAcquire? || a.WaitAcquire? || a.WaitReap? || a.WaitNone? || a.WaitSleep?
                               || a.Kill?)
    ensures FlagsKept(s, Step(s, a))
  {
  }

  lemma FlagsKeptSched(s: State, a: Action)
    requires Enabled(s, a) && IsSched(a)
    ensures FlagsKept(s, Step(s, a))
  {
  }

  lemma FlagsKeptLock(s: State, a: Action)
    requires Enabled(s, a) && (a.AcquireLk? || a.ReleaseLk? || a.ReAcquire?)
    ensures FlagsKept(s, Step(s, a))
  {
  }

  lemma FlagsKeptEdge(s: State, a: Action)
    requires Enabled(s, a) && (a.CloseEnd? || a.WakeAcquire? || a.WakeRelease?)
    ensures FlagsKept(s, Step(s, a))
  {
  }

  lemma FlagsKeptSleep(s: State, a: Action)
    requires Enabled(s, a) && !IsLife(a) && !IsSched(a) && !IsLock(a)
    ensures FlagsKept(s, Step(s, a))
  {
  }

  lemma KeptMeans(s: State, t: State)
    requires FlagInv(s) && FlagsKept(s, t)
    ensures FlagInv(t)
  {
    forall p | 0 <= p < |t.procs| ensures SeenOk(t, p) { assert SeenOk(s, p); }
  }

  /** A condition changes only under its lock, so no other process is between reading it and acting on it. */
  lemma SeenTurn(s: State, c: nat, ch: Chan, now: bool, holds: set<Chan>, p: nat)
    requires FlagInv(s) && CpuInv(s) && LkInv(s) && On(s, c) && Me(s, c).loc.Holding?
    requires IsClient(ch) && LockOf(ch) == Me(s, c).loc.l && p < |s.procs|
    ensures SeenOk(Turn(s, c, ch, now, holds), p)
  {
    assert SeenOk(s, p) && ProcOk(s, p);
    assert HolderOk(s, p, LockOf(ch)) && HolderOk(s, Who(s, c), LockOf(ch));
  }

  lemma FlagTurn(s: State, a: Action)
    requires FlagInv(s) && CpuInv(s) && LkInv(s) && Enabled(s, a) && (a.SetCond? || a.SetFlag? || a.GiveFlag?)
    ensures FlagInv(Step(s, a))
  {
    var t, me := Step(s, a), Who(s, a.c);
    assert SeenOk(s, me);
    forall p | 0 <= p < |t.procs|
      ensures SeenOk(t, p)
    {
      SeenTurn(s, a.c, a.ch, !a.SetFlag? && (a.GiveFlag? || a.now), t.procs[me].holds, p);
    }
  }

  lemma FlagSee(s: State, c: nat, ch: Chan)
    requires FlagInv(s) && Enabled(s, See(c, ch))
    ensures FlagInv(Step(s, See(c, ch)))
  {
    var t := Step(s, See(c, ch));
    forall p | 0 <= p < |t.procs| ensures SeenOk(t, p) { assert SeenOk(s, p); }
  }

  lemma FlagStep(s: State, a: Action)
    requires FlagInv(s) && CpuInv(s) && LkInv(s) && Enabled(s, a)
    ensures FlagInv(Step(s, a))
  {
    if a.SetCond? || a.SetFlag? || a.GiveFlag? {
      FlagTurn(s, a);
    } else if a.See? {
      FlagSee(s, a.c, a.ch);
    } else {
      FlagsStay(s, a);
      KeptMeans(s, Step(s, a));
    }
  }

  lemma FlagsStay(s: State, a: Action)
    requires CpuInv(s) && Enabled(s, a) && !(a.SetCond? || a.SetFlag? || a.GiveFlag? || a.See?)
    ensures FlagsKept(s, Step(s, a))
  {
    if a.ExitMark? {
      assert ProcOk(s, Who(s, a.c));
      FlagsKeptExit(s, a.c);
    } else if IsFork(a) {
      FlagsKeptFork(s, a);
    } else if IsLife(a) {
      FlagsKeptWait(s, a);
    } else if IsSched(a) {
      FlagsKeptSched(s, a);
    } else if a.AcquireLk? || a.ReleaseLk? || a.ReAcquire? {
      FlagsKeptLock(s, a);
    } else if IsLock(a) {
      FlagsKeptEdge(s, a);
    } else {
      FlagsKeptSleep(s, a);
    }
  }

  /** In every interleaving at most one process holds log.busy, or I_BUSY of an inode, or B_BUSY of a buffer. */
  lemma FlagExclusive(s: State, p: nat, q: nat, ch: Chan)
    requires Reachable(s) && p < |s.procs| && q < |s.procs| && ch in s.procs[p].holds && ch in s.procs[q].holds
    ensures p == q && IsFlag(ch) && ch in s.blocked
  {
    InvReachable(s);
    OneHolder(s, p, q, ch);
  }

  lemma OneHolder(s: State, p: nat, q: nat, ch: Chan)
    requires FlagInv(s) && p < |s.procs| && q < |s.procs| && ch in s.procs[p].holds && ch in s.procs[q].holds
    ensures p == q && IsFlag(ch) && ch in s.blocked
  {
  }

  /** How begin_trans, ilock and bget take a flag that is clear, and what they do while it is set. */
  function TakeClear(c: nat, ch: Chan): seq<Action>
    requires IsFlag(ch)
  {
    [AcquireLk(c, LockOf(ch)), See(c, ch), SetFlag(c, ch), ReleaseLk(c)]
  }

  function WaitClear(c: nat, ch: Chan): seq<Action>
    requires IsFlag(ch)
  {
    [AcquireLk(c, LockOf(ch)), See(c, ch), SleepAcquire(c, ch), SleepReleaseLk(c), SleepMark(c)]
  }

  lemma ExecOne(s: State, run: seq<Action>, a: Action)
    ensures Exec(s, run + [a]) ==
            if Exec(s, run).Some? && Enabled(Exec(s, run).value, a) then Some(Step(Exec(s, run).value, a)) else None
  {
    assert (run + [a])[..|run|] == run;
  }

  /** The lock of a channel taken, nothing else changed. */
  lemma LockTaken(s: State, c: nat, ch: Chan) returns (t: State)
    requires On(s, c) && Me(s, c).loc.Free? && IsFlag(ch) && LockOf(ch) !in s.lk
    ensures Exec(s, [AcquireLk(c, LockOf(ch))]) == Some(t)
    ensures On(t, c) && Who(t, c) == Who(s, c) && Me(t, c).loc == Holding(LockOf(ch), {})
    ensures t.blocked == s.blocked && t.closed == s.closed && t.pt == s.pt
  {
    ExecOne(s, [], AcquireLk(c, LockOf(ch)));
    assert [] + [AcquireLk(c, LockOf(ch))] == [AcquireLk(c, LockOf(ch))];
    t := Step(s, AcquireLk(c, LockOf(ch)));
  }

  lemma SeenIt(t: State, c: nat, ch: Chan) returns (u: State)
    requires On(t, c) && IsClient(ch) && Me(t, c).loc == Holding(LockOf(ch), {})
    ensures Enabled(t, See(c, ch)) && u == Step(t, See(c, ch))
    ensures On(u, c) && Who(u, c) == Who(t, c) && Me(u, c).loc == Me(t, c).loc
            && Me(u, c).saw == Some(Seen(ch, ch in t.blocked))
    ensures u.blocked == t.blocked && u.closed == t.closed && u.pt == t.pt
  {
    u := Step(t, See(c, ch));
  }

  lemma TakeSteps(t: State, c: nat, ch: Chan) returns (u: State, v: State)
    requires On(t, c) && IsFlag(ch) && Me(t, c).loc == Holding(LockOf(ch), {}) && Me(t, c).saw == Some(Seen(ch, false))
    ensures Enabled(t, SetFlag(c, ch)) && u == Step(t, SetFlag(c, ch))
    ensures Enabled(u, ReleaseLk(c)) && v == Step(u, ReleaseLk(c))
    ensures Who(t, c) < |v.procs| && ch in v.procs[Who(t, c)].holds && ch in v.blocked
  {
    u := Step(t, SetFlag(c, ch));
    v := Step(u, ReleaseLk(c));
  }

  /** Taking a clear flag is a run the protocol allows, and ends with the flag held. */
  lemma TakeObeys(s: State, c: nat, ch: Chan) returns (v: State)
    requires On(s, c) && Me(s, c).loc.Free? && IsFlag(ch) && LockOf(ch) !in s.lk && ch !in s.blocked
    ensures Exec(s, TakeClear(c, ch)) == Some(v) && Who(s, c) < |v.procs| && ch in v.procs[Who(s, c)].holds
            && ch in v.blocked
  {
    var t := LockTaken(s, c, ch);
    var r := SeenIt(t, c, ch);
    var u;
    u, v := TakeSteps(r, c, ch);
    var a := AcquireLk(c, LockOf(ch));
    ExecOne(s, [a], See(c, ch));
    ExecOne(s, [a] + [See(c, ch)], SetFlag(c, ch));
    ExecOne(s, [a] + [See(c, ch)] + [SetFlag(c, ch)], ReleaseLk(c));
    assert [a] + [See(c, ch)] + [SetFlag(c, ch)] + [ReleaseLk(c)] == TakeClear(c, ch);
  }

  lemma SleepSteps(t: State, c: nat, ch: Chan) returns (u: State, w: State, v: State)
    requires On(t, c) && IsClient(ch) && Me(t, c).loc == Holding(LockOf(ch), {})
             && Me(t, c).saw == Some(Seen(ch, true)) && ch !in t.closed && t.pt == None
    ensures Enabled(t, SleepAcquire(c, ch)) && u == Step(t, SleepAcquire(c, ch))
    ensures Enabled(u, SleepReleaseLk(c)) && w == Step(u, SleepReleaseLk(c))
    ensures Enabled(w, SleepMark(c)) && v == Step(w, SleepMark(c))
    ensures Who(t, c) < |v.procs| && v.procs[Who(t, c)].state == SLEEPING && v.procs[Who(t, c)].chan == ch
            && LockOf(ch) !in v.lk
    ensures |v.procs| == |t.procs| && forall p :: 0 <= p < |t.procs| && p != Who(t, c) ==> v.procs[p] == t.procs[p]
  {
    u := Step(t, SleepAcquire(c, ch));
    assert On(u, c) && Who(u, c) == Who(t, c) && Me(u, c).loc == SleepA(ch);
    w, v := SleepRest(u, c, ch);
  }

  lemma SleepRest(u: State, c: nat, ch: Chan) returns (w: State, v: State)
    requires On(u, c) && IsClient(ch) && Me(u, c).loc == SleepA(ch)
    ensures Enabled(u, SleepReleaseLk(c)) && w == Step(u, SleepReleaseLk(c))
    ensures Enabled(w, SleepMark(c)) && v == Step(w, SleepMark(c))
    ensures Who(u, c) < |v.procs| && v.procs[Who(u, c)].state == SLEEPING && v.procs[Who(u, c)].chan == ch
            && LockOf(ch) !in v.lk
    ensures |v.procs| == |u.procs| && forall p :: 0 <= p < |u.procs| && p != Who(u, c) ==> v.procs[p] == u.procs[p]
  {
    w := Step(u, SleepReleaseLk(c));
    assert On(w, c) && Who(w, c) == Who(u, c) && Me(w, c).loc == SleepB(ch) && LockOf(ch) !in w.lk;
    v := Step(w, SleepMark(c));
  }

  /** Finding the flag set, the taker goes to sleep; that is a run the protocol allows too. */
  lemma WaitObeys(s: State, c: nat, ch: Chan) returns (v: State)
    requires On(s, c) && Me(s, c).loc.Free? && IsFlag(ch) && LockOf(ch) !in s.lk && ch in s.blocked && ch !in s.closed
             && s.pt == None
    ensures Exec(s, WaitClear(c, ch)) == Some(v) && Who(s, c) < |v.procs|
    ensures v.procs[Who(s, c)].state == SLEEPING && v.procs[Who(s, c)].chan == ch && LockOf(ch) !in v.lk
  {
    var t := LockTaken(s, c, ch);
    var r := SeenIt(t, c, ch);
    var u, w;
    u, w, v := SleepSteps(r, c, ch);
    var a := AcquireLk(c, LockOf(ch));
    ExecOne(s, [a], See(c, ch));
    ExecOne(s, [a] + [See(c, ch)], SleepAcquire(c, ch));
    ExecOne(s, [a] + [See(c, ch)] + [SleepAcquire(c, ch)], SleepReleaseLk(c));
    ExecOne(s, [a] + [See(c, ch)] + [SleepAcquire(c, ch)] + [SleepReleaseLk(c)], SleepMark(c));
    assert [a] + [See(c, ch)] + [SleepAcquire(c, ch)] + [SleepReleaseLk(c)] + [SleepMark(c)] == WaitClear(c, ch);
  }

  /** A whole wakeup(ch) by a process that holds a client lock. */
  lemma WakeSteps(s: State, c: nat, ch: Chan) returns (s1: State, s2: State, t: State)
    requires On(s, c) && Me(s, c).loc.Holding? && IsClient(ch) && s.pt == None
    ensures Enabled(s, WakeAcquire(c, ch)) && s1 == Step(s, WakeAcquire(c, ch))
    ensures Enabled(s1, Wakeup1(c)) && s2 == Step(s1, Wakeup1(c))
    ensures Enabled(s2, WakeRelease(c)) && t == Step(s2, WakeRelease(c))
    ensures On(t, c) && Who(t, c) == Who(s, c) && Me(t, c).loc == Holding(Me(s, c).loc.l, Me(s, c).loc.owed - {ch})
            && Me(t, c).saw == Me(s, c).saw
    ensures t.pt == None && t.lk == s.lk && t.blocked == s.blocked && t.closed == s.closed
    ensures NobodyOn(t, ch)
  {
    s1 := Step(s, WakeAcquire(c, ch));
    s2 := Woke(s1, c);
    t := Step(s2, WakeRelease(c));
  }

  ghost predicate NobodyOn(s: State, ch: Chan) {
    forall p :: 0 <= p < |s.procs| ==> !(s.procs[p].state == SLEEPING && s.procs[p].chan == ch)
  }

  lemma Woke(s: State, c: nat) returns (t: State)
    requires On(s, c) && Me(s, c).loc.Waking?
    ensures Enabled(s, Wakeup1(c)) && t == Step(s, Wakeup1(c))
    ensures On(t, c) && Who(t, c) == Who(s, c) && Me(t, c).saw == Me(s, c).saw
    ensures Me(t, c).loc == Woken(Me(s, c).loc.l, Me(s, c).loc.owed - {Me(s, c).loc.ch})
    ensures t.pt == s.pt && t.lk == s.lk && t.blocked == s.blocked && t.closed == s.closed
    ensures NobodyOn(t, Me(s, c).loc.ch)
  {
    t := Step(s, Wakeup1(c));
  }
}
