/** Deadlock freedom of the mutexes.  Each thread function is reduced to its lock skeleton: program
    points, the locks held at each point, and edges that acquire, release or wait.  A skeleton whose
    edges respect one fixed order of the locks can never take part in a cycle of blocked threads. */
module LockOrder {

  datatype Lock = PoolMutex | JobQueueMutex | RefillQueueMutex | StatsMutex | StateMutex {
    function Rank(): nat {
      match this
      case PoolMutex => 0
      case JobQueueMutex => 1
      case RefillQueueMutex => 2
      case StatsMutex => 3
      case StateMutex => 4
    }
  }

  /** The set of locks a thread holds. */
  datatype Held = Held(pool: bool, job: bool, refill: bool, stats: bool, state: bool) {
    predicate Has(l: Lock) {
      match l
      case PoolMutex => pool
      case JobQueueMutex => job
      case RefillQueueMutex => refill
      case StatsMutex => stats
      case StateMutex => state
    }

    function Set(l: Lock, b: bool): Held {
      match l
      case PoolMutex => this.(pool := b)
      case JobQueueMutex => this.(job := b)
      case RefillQueueMutex => this.(refill := b)
      case StatsMutex => this.(stats := b)
      case StateMutex => this.(state := b)
    }

    /** Every lock in the set is below `l`. */
    predicate Below(l: Lock) {
      && (pool ==> PoolMutex.Rank() < l.Rank()) && (job ==> JobQueueMutex.Rank() < l.Rank())
      && (refill ==> RefillQueueMutex.Rank() < l.Rank()) && (stats ==> StatsMutex.Rank() < l.Rank())
      && (state ==> StateMutex.Rank() < l.Rank())
    }
  }

  const NOTHING := Held(false, false, false, false, false)

  function Only(l: Lock): Held { NOTHING.Set(l, true) }
  function Both(l: Lock, m: Lock): Held { Only(l).Set(m, true) }

  datatype Op = Acquire(l: Lock) | Release(l: Lock) | Wait(l: Lock) | Skip

  datatype Edge = Edge(from: nat, op: Op, to: nat)

  /** `held[p]` are the locks held at point `p`; the thread starts at point 0. */
  datatype Skeleton = Skeleton(held: seq<Held>, edges: seq<Edge>)

  predicate EdgeOk(held: seq<Held>, e: Edge) {
    && e.from < |held| && e.to < |held|
    && match e.op
       case Acquire(l) => held[e.from].Below(l) && held[e.to] == held[e.from].Set(l, true)
       case Release(l) => held[e.from].Has(l) && held[e.to] == held[e.from].Set(l, false)
       case Wait(l) => held[e.from] == Only(l) == held[e.to]
       case Skip => held[e.to] == held[e.from]
  }

  ghost predicate EdgesOk(held: seq<Held>, es: seq<Edge>) {
    forall k :: 0 <= k < |es| ==> EdgeOk(held, es[k])
  }

  /** Acquisitions go up in rank, releases release, and a thread waits holding the waited mutex only. */
  ghost predicate Ordered(p: Skeleton) {
    && |p.held| > 0 && p.held[0] == NOTHING
    && EdgesOk(p.held, p.edges)
  }

  // ---- the lock skeletons of the program ----

  /** src/job_receiver.c:88-171 */
  function Receiver(): Skeleton {
    Skeleton(ReceiverHeld(), Arriving() + Enqueueing())
  }

  function ReceiverHeld(): seq<Held> {
    [NOTHING, Only(StateMutex), NOTHING, Only(StatsMutex), NOTHING, Only(JobQueueMutex), NOTHING, Only(StatsMutex),
     NOTHING, Both(JobQueueMutex, StatsMutex), Only(JobQueueMutex), Only(StateMutex), NOTHING, Only(JobQueueMutex),
     NOTHING]
  }

  function Arriving(): seq<Edge> {
    [Edge(0, Acquire(StateMutex), 1), Edge(1, Release(StateMutex), 2),              // stop check
     Edge(2, Skip, 8),                                                              // stopped
     Edge(2, Acquire(StatsMutex), 3), Edge(3, Release(StatsMutex), 4),              // arrival
     Edge(0, Skip, 8), Edge(8, Acquire(StateMutex), 11), Edge(11, Release(StateMutex), 12),  // end
     Edge(12, Acquire(JobQueueMutex), 13), Edge(13, Release(JobQueueMutex), 14)]
  }

  function Enqueueing(): seq<Edge> {
    [Edge(4, Acquire(JobQueueMutex), 5),
     Edge(5, Release(JobQueueMutex), 6),                                            // queue full
     Edge(6, Acquire(StatsMutex), 7), Edge(7, Release(StatsMutex), 0),
     Edge(5, Acquire(StatsMutex), 9), Edge(9, Release(StatsMutex), 10), Edge(10, Release(JobQueueMutex), 0)]
  }

  /** src/printer.c:40-183; `r` is the mutex the printer was given for the refill queue. */
  function Printer(r: Lock): Skeleton {
    Skeleton(PrinterHeld(r), LookingForWork() + WaitingForJob() + WaitingForPaper(r) + Serving() + Leaving(r))
  }

  function PrinterHeld(r: Lock): seq<Held> {
    [NOTHING, Only(StateMutex), NOTHING, Only(JobQueueMutex), Only(JobQueueMutex), NOTHING, Only(r), Only(r),
     Both(r, StateMutex), Only(r), NOTHING, Only(StatsMutex), NOTHING, Only(StatsMutex), NOTHING, Only(StateMutex),
     NOTHING, Only(JobQueueMutex), NOTHING, Only(StateMutex), NOTHING, Only(r), NOTHING]
  }

  function LookingForWork(): seq<Edge> {
    [Edge(0, Acquire(StateMutex), 1), Edge(1, Release(StateMutex), 2),              // stop check
     Edge(2, Acquire(JobQueueMutex), 3),
     Edge(3, Release(JobQueueMutex), 18),                                           // leave
     Edge(3, Release(JobQueueMutex), 5)]                                            // not enough paper
  }

  function WaitingForJob(): seq<Edge> {
    [Edge(3, Wait(JobQueueMutex), 4), Edge(4, Release(JobQueueMutex), 0)]
  }

  function WaitingForPaper(r: Lock): seq<Edge> {
    [Edge(5, Acquire(r), 6),
     Edge(6, Wait(r), 7), Edge(7, Acquire(StateMutex), 8), Edge(8, Release(StateMutex), 9),
     Edge(9, Release(r), 18), Edge(9, Skip, 6),
     Edge(6, Release(r), 10), Edge(10, Acquire(StatsMutex), 11), Edge(11, Release(StatsMutex), 0)]
  }

  function Serving(): seq<Edge> {
    [Edge(3, Release(JobQueueMutex), 12),                                           // job taken and printed
     Edge(12, Acquire(StatsMutex), 13), Edge(13, Release(StatsMutex), 14),
     Edge(14, Acquire(StateMutex), 15), Edge(15, Release(StateMutex), 16),
     Edge(16, Acquire(JobQueueMutex), 17), Edge(17, Release(JobQueueMutex), 0), Edge(17, Release(JobQueueMutex), 18)]
  }

  function Leaving(r: Lock): seq<Edge> {
    [Edge(18, Acquire(StateMutex), 19), Edge(19, Release(StateMutex), 20),
     Edge(20, Acquire(r), 21), Edge(21, Release(r), 22)]
  }

  /** src/paper_refiller.c:43-115 */
  function Refiller(): Skeleton {
    Skeleton(
      [NOTHING, Only(RefillQueueMutex), Both(RefillQueueMutex, StateMutex), Only(RefillQueueMutex), NOTHING, NOTHING,
       Only(RefillQueueMutex), Only(StatsMutex), NOTHING, Only(RefillQueueMutex)],
      [Edge(0, Acquire(RefillQueueMutex), 1), Edge(1, Acquire(StateMutex), 2), Edge(2, Release(StateMutex), 3),
       Edge(3, Release(RefillQueueMutex), 4),                                       // leave
       Edge(3, Wait(RefillQueueMutex), 1),                                          // nothing to refill
       Edge(3, Release(RefillQueueMutex), 5),
       Edge(5, Acquire(RefillQueueMutex), 6), Edge(6, Release(RefillQueueMutex), 0),
       Edge(5, Acquire(StatsMutex), 7), Edge(7, Release(StatsMutex), 8),
       Edge(8, Acquire(RefillQueueMutex), 9), Edge(9, Release(RefillQueueMutex), 0)])
  }

  /** src/signalcatcher.c:35-63 */
  function StopHandler(): Skeleton {
    Skeleton(
      [NOTHING, Only(StateMutex), NOTHING, Only(StatsMutex), NOTHING, Only(JobQueueMutex),
       Both(JobQueueMutex, StatsMutex), Only(JobQueueMutex), NOTHING, Only(RefillQueueMutex), NOTHING],
      [Edge(0, Acquire(StateMutex), 1), Edge(1, Release(StateMutex), 2),
       Edge(2, Acquire(StatsMutex), 3), Edge(3, Release(StatsMutex), 4),
       Edge(4, Acquire(JobQueueMutex), 5), Edge(5, Acquire(StatsMutex), 6),
       Edge(6, Release(StatsMutex), 7), Edge(7, Release(JobQueueMutex), 8),
       Edge(8, Acquire(RefillQueueMutex), 9), Edge(9, Release(RefillQueueMutex), 10)])
  }

  /** src/autoscaling.c:32-235 */
  function Autoscaler(): Skeleton {
    Skeleton(
      [NOTHING, Only(StateMutex), NOTHING, Only(JobQueueMutex), NOTHING, Only(PoolMutex), NOTHING, Only(PoolMutex),
       NOTHING, Only(PoolMutex), Both(PoolMutex, JobQueueMutex), Only(PoolMutex), Only(PoolMutex), NOTHING,
       Only(PoolMutex)],
      Deciding() + Scaling())
  }

  function Deciding(): seq<Edge> {
    [Edge(0, Acquire(StateMutex), 1), Edge(1, Release(StateMutex), 2),
     Edge(2, Acquire(JobQueueMutex), 3), Edge(3, Release(JobQueueMutex), 4),
     Edge(4, Acquire(PoolMutex), 5), Edge(5, Release(PoolMutex), 6),                // should scale up?
     Edge(6, Acquire(PoolMutex), 7), Edge(7, Release(PoolMutex), 8), Edge(8, Skip, 0)]  // should scale down?
  }

  function Scaling(): seq<Edge> {
    [Edge(6, Acquire(PoolMutex), 9), Edge(9, Release(PoolMutex), 0),                // scale up
     Edge(9, Acquire(JobQueueMutex), 10), Edge(10, Release(JobQueueMutex), 11), Edge(11, Release(PoolMutex), 0),
     Edge(8, Acquire(PoolMutex), 12), Edge(12, Release(PoolMutex), 0),              // scale down
     Edge(12, Release(PoolMutex), 13), Edge(13, Acquire(PoolMutex), 14),
     Edge(14, Acquire(JobQueueMutex), 10)]
  }

  /** The thread functions of the program; autoscaled printers use the job queue's mutex for the refill queue. */
  ghost predicate InProgram(p: Skeleton) {
    || p == Receiver() || p == Printer(RefillQueueMutex) || p == Printer(JobQueueMutex)
    || p == Refiller() || p == StopHandler() || p == Autoscaler()
  }

  lemma ArrivingIsOrdered() ensures EdgesOk(ReceiverHeld(), Arriving()) {}
  lemma EnqueueingIsOrdered() ensures EdgesOk(ReceiverHeld(), Enqueueing()) {}

  lemma LookingIsOrdered(r: Lock)
    requires r == RefillQueueMutex || r == JobQueueMutex
    ensures EdgesOk(PrinterHeld(r), LookingForWork())
  {
  }

  lemma SleepingIsOrdered(r: Lock)
    requires r == RefillQueueMutex || r == JobQueueMutex
    ensures EdgesOk(PrinterHeld(r), WaitingForJob())
  {
  }

  lemma WaitingIsOrdered(r: Lock)
    requires r == RefillQueueMutex || r == JobQueueMutex
    ensures EdgesOk(PrinterHeld(r), WaitingForPaper(r))
  {
  }

  lemma ServingIsOrdered(r: Lock)
    requires r == RefillQueueMutex || r == JobQueueMutex
    ensures EdgesOk(PrinterHeld(r), Serving())
  {
  }

  lemma LeavingIsOrdered(r: Lock)
    requires r == RefillQueueMutex || r == JobQueueMutex
    ensures EdgesOk(PrinterHeld(r), Leaving(r))
  {
  }

  lemma Joined(held: seq<Held>, a: seq<Edge>, b: seq<Edge>)
    requires EdgesOk(held, a) && EdgesOk(held, b)
    ensures EdgesOk(held, a + b)
  {
  }

  lemma RefillerIsOrdered() ensures Ordered(Refiller()) {}
  lemma StopHandlerIsOrdered() ensures Ordered(StopHandler()) {}
  lemma DecidingIsOrdered() ensures EdgesOk(Autoscaler().held, Deciding()) {}
  lemma ScalingIsOrdered() ensures EdgesOk(Autoscaler().held, Scaling()) {}

  /** Every thread function of the program respects the order, autoscaled printers included. */
  lemma ProgramIsOrdered(p: Skeleton)
    requires InProgram(p)
    ensures Ordered(p)
  {
    ArrivingIsOrdered();
    EnqueueingIsOrdered();
    Joined(ReceiverHeld(), Arriving(), Enqueueing());
    RefillerIsOrdered();
    StopHandlerIsOrdered();
    DecidingIsOrdered();
    ScalingIsOrdered();
    Joined(Autoscaler().held, Deciding(), Scaling());
    forall r | r == RefillQueueMutex || r == JobQueueMutex ensures Ordered(Printer(r)) {
      LookingIsOrdered(r);
      SleepingIsOrdered(r);
      WaitingIsOrdered(r);
      ServingIsOrdered(r);
      LeavingIsOrdered(r);
      Joined(PrinterHeld(r), LookingForWork(), WaitingForJob());
      Joined(PrinterHeld(r), LookingForWork() + WaitingForJob(), WaitingForPaper(r));
      Joined(PrinterHeld(r), LookingForWork() + WaitingForJob() + WaitingForPaper(r), Serving());
      Joined(PrinterHeld(r), LookingForWork() + WaitingForJob() + WaitingForPaper(r) + Serving(), Leaving(r));
    }
  }

  // ---- systems of threads ----

  /** Where a thread stands: running at a point, blocked on a mutex on its way to a point, or asleep on
      a condition variable whose mutex it will need again. */
  datatype Mode = Running(at: nat) | Blocked(l: Lock, to: nat) | Asleep(l: Lock, to: nat)

  datatype Thread = Thread(code: Skeleton, holds: Held, mode: Mode)

  /** A step of one thread: it follows edge `k`, or gets the mutex it waits for, or is woken. */
  datatype Step = Follow(i: nat, k: nat) | Obtain(i: nat) | Wake(i: nat)

  predicate IsFree(ts: seq<Thread>, l: Lock) {
    forall i :: 0 <= i < |ts| ==> !ts[i].holds.Has(l)
  }

  predicate CanStep(ts: seq<Thread>, a: Step) {
    a.i < |ts| &&
    var t := ts[a.i];
    match a
    case Follow(_, k) => t.mode.Running? && k < |t.code.edges| && t.code.edges[k].from == t.mode.at
    case Obtain(_) => t.mode.Blocked? && IsFree(ts, t.mode.l)
    case Wake(_) => t.mode.Asleep?
  }

  function Stepped(t: Thread, a: Step): Thread
    requires match a
      case Follow(_, k) => k < |t.code.edges|
      case Obtain(_) => t.mode.Blocked?
      case Wake(_) => t.mode.Asleep?
  {
    match a
    case Follow(_, k) =>
      var e := t.code.edges[k];
      (match e.op
       case Acquire(l) => t.(mode := Blocked(l, e.to))
       case Release(l) => t.(holds := t.holds.Set(l, false), mode := Running(e.to))
       case Wait(l) => t.(holds := t.holds.Set(l, false), mode := Asleep(l, e.to))
       case Skip => t.(mode := Running(e.to)))
    case Obtain(_) => t.(holds := t.holds.Set(t.mode.l, true), mode := Running(t.mode.to))
    case Wake(_) => t.(mode := Blocked(t.mode.l, t.mode.to))
  }

  ghost predicate ThreadOk(t: Thread) {
    && Ordered(t.code)
    && match t.mode
       case Running(at) => at < |t.code.held| && t.holds == t.code.held[at]
       case Blocked(l, to) => to < |t.code.held| && t.holds.Below(l) && t.holds.Set(l, true) == t.code.held[to]
       case Asleep(l, to) => to < |t.code.held| && t.holds == NOTHING && t.code.held[to] == Only(l)
  }

  /** Every thread is where its skeleton says, and no mutex is held twice. */
  ghost predicate SystemOk(ts: seq<Thread>) {
    && (forall i :: 0 <= i < |ts| ==> ThreadOk(ts[i]))
    && (forall i, j, l: Lock :: 0 <= i < j < |ts| && ts[i].holds.Has(l) ==> !ts[j].holds.Has(l))
  }

  lemma StepKeepsThread(t: Thread, a: Step)
    requires ThreadOk(t)
    requires match a
      case Follow(_, k) => t.mode.Running? && k < |t.code.edges| && t.code.edges[k].from == t.mode.at
      case Obtain(_) => t.mode.Blocked?
      case Wake(_) => t.mode.Asleep?
    ensures ThreadOk(Stepped(t, a))
  {
    if a.Follow? {
      assert EdgeOk(t.code.held, t.code.edges[a.k]);
    }
  }

  lemma StepKeepsSystem(ts: seq<Thread>, a: Step)
    requires SystemOk(ts) && CanStep(ts, a)
    ensures SystemOk(ts[a.i := Stepped(ts[a.i], a)])
  {
    StepKeepsThread(ts[a.i], a);
    var t, t' := ts[a.i], Stepped(ts[a.i], a);
    forall l: Lock | t'.holds.Has(l) && !t.holds.Has(l) ensures IsFree(ts, l) {
    }
  }

  ghost predicate IsRun(ts: seq<Thread>, run: seq<Step>)
    decreases run
  {
    run == [] || (CanStep(ts, run[0]) && IsRun(ts[run[0].i := Stepped(ts[run[0].i], run[0])], run[1..]))
  }

  ghost function After(ts: seq<Thread>, run: seq<Step>): seq<Thread>
    requires IsRun(ts, run)
    decreases run
  {
    if run == [] then ts else After(ts[run[0].i := Stepped(ts[run[0].i], run[0])], run[1..])
  }

  lemma {:induction false} RunKeepsSystem(ts: seq<Thread>, run: seq<Step>)
    requires SystemOk(ts) && IsRun(ts, run)
    ensures SystemOk(After(ts, run))
    decreases run
  {
    if run != [] {
      StepKeepsSystem(ts, run[0]);
      RunKeepsSystem(ts[run[0].i := Stepped(ts[run[0].i], run[0])], run[1..]);
    }
  }

  /** Threads of the program, any number of each, not yet started. */
  ghost predicate Starting(ts: seq<Thread>) {
    forall i :: 0 <= i < |ts| ==> InProgram(ts[i].code) && ts[i].holds == NOTHING && ts[i].mode == Running(0)
  }

  // ---- no deadlock ----

  /** Thread `j` holds the mutex thread `i` is blocked on. */
  predicate BlockedBy(ts: seq<Thread>, i: nat, j: nat) {
    i < |ts| && j < |ts| && ts[i].mode.Blocked? && ts[j].holds.Has(ts[i].mode.l)
  }

  /** Each thread of `path` is blocked by the next. */
  ghost predicate IsChain(ts: seq<Thread>, path: seq<nat>) {
    forall k :: 0 <= k < |path| - 1 ==> BlockedBy(ts, path[k], path[k + 1])
  }

  lemma WantsHigher(ts: seq<Thread>, i: nat, j: nat)
    requires SystemOk(ts) && BlockedBy(ts, i, j) && ts[j].mode.Blocked?
    ensures ts[i].mode.l.Rank() < ts[j].mode.l.Rank()
  {
    assert ThreadOk(ts[j]);
  }

  lemma {:induction false} RanksClimb(ts: seq<Thread>, path: seq<nat>)
    requires SystemOk(ts) && IsChain(ts, path) && |path| > 1
    requires path[|path| - 1] < |ts| && ts[path[|path| - 1]].mode.Blocked?
    ensures BlockedBy(ts, path[0], path[1])
    ensures ts[path[0]].mode.l.Rank() < ts[path[|path| - 1]].mode.l.Rank()
  {
    assert BlockedBy(ts, path[0], path[1]);
    if |path| > 2 {
      var rest := path[1..];
      forall k | 0 <= k < |rest| - 1 ensures BlockedBy(ts, rest[k], rest[k + 1]) {
        assert BlockedBy(ts, path[k + 1], path[k + 2]);
      }
      RanksClimb(ts, rest);
    }
    WantsHigher(ts, path[0], path[1]);
  }

  /** Deadlock freedom: in no reachable state does a chain of blocked threads close into a cycle. */
  lemma NoDeadlock(start: seq<Thread>, run: seq<Step>, path: seq<nat>)
    requires Starting(start) && IsRun(start, run) && |path| > 1
    ensures var ts := After(start, run); IsChain(ts, path) ==> path[0] != path[|path| - 1]
  {
    forall i | 0 <= i < |start| ensures ThreadOk(start[i]) {
      ProgramIsOrdered(start[i].code);
    }
    RunKeepsSystem(start, run);
    var ts := After(start, run);
    if IsChain(ts, path) && path[0] == path[|path| - 1] {
      assert BlockedBy(ts, path[0], path[1]);
      RanksClimb(ts, path);
    }
  }

  /** A thread that waits on a condition variable holds no mutex at all. */
  lemma SleepersHoldNothing(start: seq<Thread>, run: seq<Step>, i: nat)
    requires Starting(start) && IsRun(start, run) && i < |start|
    ensures var ts := After(start, run); i < |ts| && (ts[i].mode.Asleep? ==> ts[i].holds == NOTHING)
  {
    forall i | 0 <= i < |start| ensures ThreadOk(start[i]) {
      ProgramIsOrdered(start[i].code);
    }
    RunKeepsSystem(start, run);
    SameSize(start, run);
    assert ThreadOk(After(start, run)[i]);
  }

  lemma {:induction false} SameSize(ts: seq<Thread>, run: seq<Step>)
    requires IsRun(ts, run)
    ensures |After(ts, run)| == |ts|
    decreases run
  {
    if run != [] {
      SameSize(ts[run[0].i := Stepped(ts[run[0].i], run[0])], run[1..]);
    }
  }

  /** From every blocked thread a chain of blocked threads leads to one that can obtain its mutex, or
      that is not blocked and holds the mutex its predecessor waits for. */
  lemma {:induction false} SomebodyMoves(ts: seq<Thread>, i: nat) returns (path: seq<nat>)
    requires SystemOk(ts) && i < |ts| && ts[i].mode.Blocked?
    ensures |path| > 0 && path[0] == i && IsChain(ts, path)
    ensures var j := path[|path| - 1]; j < |ts| && (CanStep(ts, Obtain(j)) || !ts[j].mode.Blocked?)
    decreases 5 - ts[i].mode.l.Rank()
  {
    if IsFree(ts, ts[i].mode.l) {
      path := [i];
    } else {
      var h: nat :| h < |ts| && ts[h].holds.Has(ts[i].mode.l);
      assert BlockedBy(ts, i, h);
      if ts[h].mode.Blocked? {
        WantsHigher(ts, i, h);
        var rest := SomebodyMoves(ts, h);
        path := [i] + rest;
        LongerChain(ts, i, rest);
      } else {
        path := [i, h];
      }
    }
  }

  lemma LongerChain(ts: seq<Thread>, i: nat, rest: seq<nat>)
    requires |rest| > 0 && IsChain(ts, rest) && BlockedBy(ts, i, rest[0])
    ensures IsChain(ts, [i] + rest)
  {
    var path := [i] + rest;
    forall k | 0 <= k < |path| - 1 ensures BlockedBy(ts, path[k], path[k + 1]) {
      assert k > 0 ==> BlockedBy(ts, rest[k - 1], rest[k]);
    }
  }
}
