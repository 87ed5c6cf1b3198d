/** Runs without spurious wake-ups are finite, stop included, and when no thread can move every job
    has been served, dropped or removed, but for one that may come too late to be removed. */
module Drain {
  import opened Records
  import opened Machine
  import opened Sums
  import Control
  import Timing
  import Refilling
  import Books
  import opened Runs

  /** The actions of the receiver, the printers and the refiller. */
  predicate Progress(a: Action) {
    a.PrinterRuns? || a.ReceiverRuns? || a.RefillerRuns? || a.ReceiverDies? || a.RefillerDies?
  }

  predicate Spontaneous(a: Action) { a.PrinterSpurious? || a.RefillerSpurious? }

  // ---- the ranking measure, for n printers ----

  // One queued job pays for its service and for a refill that it makes necessary.
  function QueuedRank(n: nat): nat { 2 * n + 19 }
  function RequestRank(n: nat): nat { 2 * n + 6 }
  function CreditRank(n: nat): nat { 2 * n + 12 }
  function JobRank(n: nat): nat { 5 * n + 26 }

  function PcRank(n: nat, pc: PrinterPc): nat {
    match pc
    case PTop => 2 * n + 7
    case PJobLock(_) => 2 * n + 6
    case PJobWait(signalled) => if signalled then 2 * n + 8 else 2 * n + 5
    case PRefillLock(_) => 4 * n + 17
    case PRefillWait(_, _, signalled) => if signalled then 2 * n + 10 else 2 * n + 8
    case PRefillHold(_, _) => 2 * n + 9
    case PRefillDone(_) => 2 * n + 8
    case PStart(_) => 4 * n + 24
    case PPrint(_) => 4 * n + 23
    case PDepart(_) => 2 * n + 10
    case PAfter => 2 * n + 9
    case PExitCheck(_) => 2 * n + 8
    case PServed => 2 * n + 4
    case PExit => 2 * n + 3
    case PExited => 0
  }

  predicate Requesting(pc: PrinterPc) {
    pc.PRefillLock? || pc.PRefillWait? || pc.PRefillHold?
  }

  /** A printer that is not full may still ask for a refill, unless it is leaving. */
  function PrinterRank(c: Config, p: Printer): nat {
    PcRank(c.printers, p.pc) +
    if p.paper < c.capacity && !Requesting(p.pc) && !Control.HasLeft(p.pc) then CreditRank(c.printers) else 0
  }

  function Ranks(c: Config): Printer -> int { (p: Printer) => PrinterRank(c, p) }

  function ReceiverRank(c: Config, s: State): int {
    var n := c.printers;
    match s.receiver
    case RStamp(_) => 3 * n + 1
    case RCount(_) => 3 * n
    case REnter(_) => 3 * n - 1
    case RDrop(_) => 3 * n - 2
    case RHold(_, _, _) => 3 * n - 2 - QueuedRank(n)
    case RLoop => 3 * n + 4
    case RBroken => 3 * n + 3
    case RFinish => 3 * n + 2
    case RBroadcast => 3 * n + 1
    case RDone => 0
    case RCancelled => 0
  }

  function RefillerRank(n: nat, pc: RefillerPc): nat {
    match pc
    case FLock => 2 * n + 3
    case FCheck => 2 * n + 2
    case FWait(signalled) => if signalled then 2 * n + 3 else 2 * n + 1
    case FPlan(_, _) => 4 * n + 7
    case FFill(_, _, _) => 4 * n + 6
    case FRecord(_, _, _) => 4 * n + 5
    case FNotify => 4 * n + 4
    case FExited => 0
    case FCancelled(_) => 0
  }

  function StopRank(n: nat, pc: StopPc): nat {
    match pc
    case HIdle => 5 * n + 7
    case HStamp => 5 * n + 6
    case HLock => 5 * n + 5
    case HEmpty => 5 * n + 4
    case HRefill => 2 * n + 3
    case HDone => 0
  }

  /** `w * k`, as a sum. */
  function Scale(w: nat, k: int): nat {
    if k <= 0 then 0 else w + Scale(w, k - 1)
  }

  function Rank(c: Config, s: State): int {
    var n := c.printers;
    Scale(JobRank(n), c.jobs - s.index) + ReceiverRank(c, s) + Scale(QueuedRank(n), |s.queue|)
    + Scale(RequestRank(n), |s.refillQueue|) + RefillerRank(n, s.refiller) + StopRank(n, s.stop)
    + Sum(Ranks(c), s.printers)
  }

  // ---- how the measure changes ----

  lemma PutRank(c: Config, ps: seq<Printer>, i: nat, p: Printer)
    requires i < |ps|
    ensures Sum(Ranks(c), ps[i := p]) == Sum(Ranks(c), ps) - PrinterRank(c, ps[i]) + PrinterRank(c, p)
  {
    SumUpdate(Ranks(c), ps, i, p);
  }

  lemma SignalJobsRank(c: Config, ps: seq<Printer>)
    ensures Sum(Ranks(c), SignalJobs(ps)) <= Sum(Ranks(c), ps) + |ps| * 3
  {
    SumBounded(Ranks(c), ps, SignalJobs(ps), 3);
  }

  lemma SignalPaperRank(c: Config, ps: seq<Printer>)
    ensures Sum(Ranks(c), SignalPaper(ps)) <= Sum(Ranks(c), ps) + |ps| * 2
  {
    SumBounded(Ranks(c), ps, SignalPaper(ps), 2);
  }

  lemma {:induction false} RanksNonNegative(c: Config, ps: seq<Printer>)
    ensures Sum(Ranks(c), ps) >= 0
  {
    if ps != [] {
      RanksNonNegative(c, ps[1..]);
    }
  }

  lemma {:induction false} ScaleIsProduct(w: nat, k: nat)
    ensures Scale(w, k) == w * k
  {
    if k > 0 {
      ScaleIsProduct(w, k - 1);
    }
  }

  lemma ReceiverRankNonNegative(c: Config, s: State)
    requires c.Valid() && Control.Shape(c, s)
    ensures Scale(JobRank(c.printers), c.jobs - s.index) + ReceiverRank(c, s) >= 0
  {
    assert Control.InIteration(s.receiver) ==> Scale(JobRank(c.printers), c.jobs - s.index) >= JobRank(c.printers);
  }

  lemma RankNonNegative(c: Config, s: State)
    requires Inv(c, s)
    ensures Rank(c, s) >= 0
  {
    RanksNonNegative(c, s.printers);
    ReceiverRankNonNegative(c, s);
  }

  // ---- every section lowers the measure ----

  ghost predicate Lowers(c: Config, s: State, s': State) {
    Rank(c, s') < Rank(c, s)
  }

  /** Only printer `i` has changed, and its own rank has dropped. */
  ghost predicate LowersOwn(c: Config, s: State, s': State, i: nat) {
    && i < |s.printers| && |s'.printers| == |s.printers|
    && s'.printers == s.printers[i := s'.printers[i]]
    && s'.index == s.index && s'.receiver == s.receiver && s'.queue == s.queue
    && s'.refillQueue == s.refillQueue && s'.refiller == s.refiller && s'.stop == s.stop
    && PrinterRank(c, s'.printers[i]) < PrinterRank(c, s.printers[i])
  }

  lemma LowersOwnDecreases(c: Config, s: State, s': State, i: nat)
    requires LowersOwn(c, s, s', i)
    ensures Lowers(c, s, s')
  {
    PutRank(c, s.printers, i, s'.printers[i]);
  }

  lemma PassesLower(c: Config, s: State, i: nat, t: nat)
    requires i < |s.printers| && PrinterEnabled(s, i)
    requires var pc := s.printers[i].pc; pc.PTop? || pc.PJobWait? || pc.PAfter? || pc.PExitCheck? || pc.PServed?
    ensures LowersOwn(c, s, PrinterNext(s, i, t), i)
  {
  }

  lemma WaitsLower(c: Config, s: State, i: nat, t: nat)
    requires i < |s.printers| && PrinterEnabled(s, i)
    requires var pc := s.printers[i].pc; pc.PRefillWait? || pc.PRefillHold? || pc.PRefillDone?
    requires Refilling.Paper(c, s, i, s.printers[i])
    ensures LowersOwn(c, s, PrinterNext(s, i, t), i)
  {
  }

  lemma ServesLower(c: Config, s: State, i: nat, t: nat)
    requires i < |s.printers| && PrinterEnabled(s, i)
    requires var pc := s.printers[i].pc; pc.PStart? || pc.PPrint? || pc.PDepart?
    ensures LowersOwn(c, s, PrinterNext(s, i, t), i)
  {
  }

  lemma StaysLower(c: Config, s: State, i: nat, t: nat)
    requires c.Valid() && i < |s.printers| && s.printers[i].pc.PJobLock? && !Control.Takes(s, i)
    requires Timing.Queue(c, s)
    ensures LowersOwn(c, s, PrinterJobSection(s, i, t), i)
  {
    Control.OnlyMoves(s, i, t);
    var p := s.printers[i];
    assert PrinterRank(c, p.(pc := Control.Looked(s, i))) < PrinterRank(c, p);
  }

  lemma TakeDecreases(c: Config, s: State, i: nat, t: nat)
    requires i < |s.printers| && s.printers[i].pc.PJobLock? && s.queue != []
    ensures Lowers(c, s, PrinterDequeue(s, i, t))
  {
    var s' := PrinterDequeue(s, i, t);
    PutRank(c, s.printers, i, s'.printers[i]);
    assert PrinterRank(c, s'.printers[i]) < PrinterRank(c, s.printers[i]) + QueuedRank(c.printers);
  }

  lemma RequestDecreases(c: Config, s: State, i: nat, t: nat)
    requires i < |s.printers| && s.printers[i].pc.PRefillLock? && Refilling.Paper(c, s, i, s.printers[i])
    ensures Lowers(c, s, PrinterRequest(s, i, t))
  {
    var s' := PrinterRequest(s, i, t);
    PutRank(c, s.printers, i, s'.printers[i]);
  }

  lemma ExitDecreases(c: Config, s: State, i: nat)
    requires |s.printers| == c.printers && i < |s.printers| && s.printers[i].pc.PExit?
    ensures Lowers(c, s, PrinterExit(s, i))
  {
    var p := s.printers[i].(pc := PExited);
    PutRank(c, s.printers, i, p);
    SignalPaperRank(c, s.printers[i := p]);
    assert PrinterRank(c, p) == 0 && PrinterRank(c, s.printers[i]) == 2 * c.printers + 3;
  }

  lemma PrinterDecreases(c: Config, s: State, i: nat, t: nat)
    requires c.Valid() && |s.printers| == c.printers && Timing.Queue(c, s)
    requires i < |s.printers| && PrinterEnabled(s, i) && Refilling.Paper(c, s, i, s.printers[i])
    ensures Lowers(c, s, PrinterNext(s, i, t))
  {
    var pc := s.printers[i].pc;
    if pc.PJobLock? && Control.Takes(s, i) {
      TakeDecreases(c, s, i, t);
    } else if pc.PRefillLock? {
      RequestDecreases(c, s, i, t);
    } else if pc.PExit? {
      ExitDecreases(c, s, i);
    } else {
      if pc.PJobLock? {
        StaysLower(c, s, i, t);
      } else if pc.PRefillWait? || pc.PRefillHold? || pc.PRefillDone? {
        WaitsLower(c, s, i, t);
      } else if pc.PStart? || pc.PPrint? || pc.PDepart? {
        ServesLower(c, s, i, t);
      } else {
        PassesLower(c, s, i, t);
      }
      LowersOwnDecreases(c, s, PrinterNext(s, i, t), i);
    }
  }

  /** Only the receiver and the queue have changed, apart from a broadcast to the printers. */
  lemma ReceiverLowers(c: Config, s: State, s': State, broadcast: bool)
    requires |s.printers| == c.printers
    requires s'.printers == if broadcast then SignalJobs(s.printers) else s.printers
    requires s'.refillQueue == s.refillQueue && s'.refiller == s.refiller && s'.stop == s.stop
    requires Scale(JobRank(c.printers), c.jobs - s'.index) + ReceiverRank(c, s')
             + Scale(QueuedRank(c.printers), |s'.queue|) + (if broadcast then 3 * c.printers else 0)
             < Scale(JobRank(c.printers), c.jobs - s.index) + ReceiverRank(c, s) + Scale(QueuedRank(c.printers), |s.queue|)
    ensures Lowers(c, s, s')
  {
    SignalJobsRank(c, s.printers);
  }

  lemma EnterDecreases(c: Config, s: State, t: nat, t2: nat)
    requires |s.printers| == c.printers && s.receiver.REnter?
    ensures Lowers(c, s, ReceiverEnter(c, s, t, t2))
  {
    ReceiverLowers(c, s, ReceiverEnter(c, s, t, t2), false);
  }

  lemma RecordDecreases(c: Config, s: State)
    requires Control.Shape(c, s) && s.receiver.RHold?
    ensures Lowers(c, s, ReceiverRecord(s))
  {
    ReceiverLowers(c, s, ReceiverRecord(s), true);
  }

  lemma ReceiverDecreases(c: Config, s: State, t: nat, t2: nat, need: nat)
    requires |s.printers| == c.printers && ReceiverEnabled(c, s, need)
    requires s.receiver.RLoop? || s.receiver.RBroken? || s.receiver.RFinish? || s.receiver.RBroadcast?
    ensures Lowers(c, s, ReceiverNext(c, s, t, t2, need))
  {
    ReceiverLowers(c, s, ReceiverNext(c, s, t, t2, need), s.receiver.RBroadcast?);
  }

  lemma ArrivalDecreases(c: Config, s: State, t: nat)
    requires |s.printers| == c.printers >= 1
    ensures s.receiver.RStamp? ==> Lowers(c, s, ReceiverStamp(s, t))
    ensures s.receiver.RCount? ==> Lowers(c, s, ReceiverCount(s))
  {
  }

  lemma DropDecreases(c: Config, s: State)
    requires Control.Shape(c, s) && s.receiver.RDrop?
    ensures Lowers(c, s, ReceiverDrop(s))
  {
    ReceiverLowers(c, s, ReceiverDrop(s), false);
  }

  /** Only the refiller and the request queue have changed, apart from a broadcast to the printers. */
  lemma RefillerLowers(c: Config, s: State, s': State, broadcast: bool)
    requires |s.printers| == c.printers
    requires s'.printers == if broadcast then SignalPaper(s.printers) else s.printers
    requires s'.index == s.index && s'.receiver == s.receiver && s'.queue == s.queue && s'.stop == s.stop
    requires Scale(RequestRank(c.printers), |s'.refillQueue|) + RefillerRank(c.printers, s'.refiller)
             + (if broadcast then 2 * c.printers else 0)
             < Scale(RequestRank(c.printers), |s.refillQueue|) + RefillerRank(c.printers, s.refiller)
    ensures Lowers(c, s, s')
  {
    SignalPaperRank(c, s.printers);
  }

  lemma CheckDecreases(c: Config, s: State, t: nat)
    requires |s.printers| == c.printers && s.refiller.FCheck?
    ensures Lowers(c, s, RefillerCheck(s, t))
  {
    RefillerLowers(c, s, RefillerCheck(s, t), s.terminate || s.allServed);
  }

  lemma RefillerDecreases(c: Config, s: State, t: nat)
    requires |s.printers| == c.printers && RefillerEnabled(s) && !s.refiller.FFill? && !s.refiller.FCheck?
    ensures Lowers(c, s, RefillerNext(c, s, t))
  {
    RefillerLowers(c, s, RefillerNext(c, s, t), s.refiller.FNotify?);
  }

  lemma FillDecreases(c: Config, s: State, t: nat)
    requires s.refiller.FFill? && s.refiller.i < |s.printers|
    requires Refilling.Paper(c, s, s.refiller.i, s.printers[s.refiller.i])
    ensures Lowers(c, s, RefillerFill(s, t))
  {
    var s' := RefillerFill(s, t);
    PutRank(c, s.printers, s.refiller.i, s'.printers[s.refiller.i]);
  }

  lemma EmptyDecreases(c: Config, s: State, t: nat)
    requires |s.printers| == c.printers && s.stop.HEmpty?
    ensures Lowers(c, s, StopEmpty(s, t))
  {
    SignalJobsRank(c, s.printers);
  }

  lemma WakeDecreases(c: Config, s: State)
    requires |s.printers| == c.printers && s.stop.HRefill?
    ensures Lowers(c, s, StopWakeAll(s))
  {
    SignalPaperRank(c, s.printers);
  }

  lemma StopDecreases(c: Config, s: State, t: nat)
    requires s.stop.HIdle? || s.stop.HStamp? || s.stop.HLock?
    ensures Lowers(c, s, StopNext(s, t))
  {
  }

  lemma StepDecreases(c: Config, s: State, a: Action)
    requires c.Valid() && Control.Shape(c, s) && Timing.Queue(c, s) && Refilling.Inv(c, s)
    requires Enabled(c, s, a) && !Spontaneous(a)
    ensures Lowers(c, s, Next(c, s, a))
  {
    match a
    case PrinterRuns(i, t) => PrinterDecreases(c, s, i, t);
    case ReceiverRuns(t, t2, need) =>
      if s.receiver.REnter? { EnterDecreases(c, s, t, t2); }
      else if s.receiver.RHold? { RecordDecreases(c, s); }
      else if s.receiver.RDrop? { DropDecreases(c, s); }
      else if s.receiver.RStamp? || s.receiver.RCount? { ArrivalDecreases(c, s, t); }
      else { ReceiverDecreases(c, s, t, t2, need); }
    case RefillerRuns(t) =>
      if s.refiller.FFill? { FillDecreases(c, s, t); }
      else if s.refiller.FCheck? { CheckDecreases(c, s, t); }
      else { RefillerDecreases(c, s, t); }
    case StopRuns(t) =>
      if s.stop.HEmpty? { EmptyDecreases(c, s, t); }
      else if s.stop.HRefill? { WakeDecreases(c, s); }
      else { StopDecreases(c, s, t); }
    case RefillerDies => RefillerLowers(c, s, Next(c, s, a), false);
    case ReceiverDies =>
  }

  /** Every section of every thread lowers the measure, which is never negative. */
  lemma NextDecreases(c: Config, s: State, a: Action)
    requires Inv(c, s) && Enabled(c, s, a) && !Spontaneous(a)
    ensures Lowers(c, s, Next(c, s, a)) && Rank(c, Next(c, s, a)) >= 0
  {
    NextHolds(c, s, a);
    RankNonNegative(c, Next(c, s, a));
    StepDecreases(c, s, a);
  }

  ghost predicate NoneSpontaneous(run: seq<Action>) {
    forall k :: 0 <= k < |run| ==> !Spontaneous(run[k])
  }

  lemma {:induction false} RunIsBounded(c: Config, s: State, run: seq<Action>)
    requires Inv(c, s) && IsRun(c, s, run) && NoneSpontaneous(run)
    ensures |run| <= Rank(c, s)
    decreases run
  {
    RankNonNegative(c, s);
    if run != [] {
      var s' := Next(c, s, run[0]);
      NextHolds(c, s, run[0]);
      NextDecreases(c, s, run[0]);
      RunIsBounded(c, s', run[1..]);
    }
  }

  lemma {:induction false} FreshRank(c: Config, ps: seq<Printer>)
    requires forall k :: 0 <= k < |ps| ==> ps[k] == FreshPrinter(c)
    ensures Sum(Ranks(c), ps) == |ps| * (2 * c.printers + 7)
  {
    if ps != [] {
      FreshRank(c, ps[1..]);
    }
  }

  lemma InitRank(c: Config, created: nat, start: nat)
    ensures Rank(c, Init(c, created, start)) ==
            Scale(JobRank(c.printers), c.jobs) + c.printers * (2 * c.printers + 7) + 10 * c.printers + 14
  {
    FreshRank(c, Init(c, created, start).printers);
  }

  lemma Collect(n: nat, jobs: nat)
    ensures Scale(JobRank(n), jobs) + n * (2 * n + 7) + 10 * n + 14 == jobs * (5 * n + 26) + n * (2 * n + 17) + 14
  {
    ScaleIsProduct(JobRank(n), jobs);
    assert n * (2 * n + 17) == n * (2 * n + 7) + n * 10;
  }

  lemma StartRank(c: Config, created: nat, start: nat)
    ensures Rank(c, Init(c, created, start)) == c.jobs * (5 * c.printers + 26) + c.printers * (2 * c.printers + 17) + 14
  {
    InitRank(c, created, start);
    Collect(c.printers, c.jobs);
  }

  /** Termination: without spurious wake-ups no schedule is longer than this, whether the run is stopped or not. */
  lemma RunsAreFinite(c: Config, created: nat, start: nat, run: seq<Action>)
    requires c.Valid() && created <= start
    requires IsRun(c, Init(c, created, start), run) && NoneSpontaneous(run)
    ensures |run| <= c.jobs * (5 * c.printers + 26) + c.printers * (2 * c.printers + 17) + 14
  {
    InitHolds(c, created, start);
    RunIsBounded(c, Init(c, created, start), run);
    StartRank(c, created, start);
  }

  // ---- where a run ends ----

  /** A step of the program in state `s`: anything but a spurious wake-up and the arrival of a stop request. */
  predicate OfProgram(s: State, a: Action) {
    Progress(a) || (a.StopRuns? && !s.stop.HIdle?)
  }

  /** No thread of the program can take a step. */
  ghost predicate Quiescent(c: Config, s: State) {
    forall a :: OfProgram(s, a) ==> !Enabled(c, s, a)
  }

  /** No thread of the program but printer `x` can take a step, and `x` has yet to ask for paper. */
  ghost predicate QuiescentBut(c: Config, s: State, x: int) {
    && (forall a :: OfProgram(s, a) && !(a.PrinterRuns? && a.i == x) ==> !Enabled(c, s, a))
    && (0 <= x < |s.printers| ==> s.printers[x].pc.PRefillLock?)
  }

  lemma ReceiverIsDone(c: Config, s: State, x: int)
    requires Inv(c, s) && QuiescentBut(c, s, x)
    ensures s.jobOwner.Free? && (s.stop.HIdle? || s.stop.HLock? || s.stop.HRefill? || s.stop.HDone?)
    ensures s.receiver.RDone? || s.receiver.RCancelled?
  {
    assert s.stop.HIdle? || !Enabled(c, s, StopRuns(s.now));
    assert !Enabled(c, s, ReceiverRuns(s.now, s.now, 1));
  }

  lemma RefillQueueIsFree(c: Config, s: State, x: int)
    requires Inv(c, s) && QuiescentBut(c, s, x)
    ensures s.refillOwner.Free? && (s.refiller.FWait? || s.refiller.FExited? || s.refiller.FCancelled?)
    ensures s.stop.HIdle? || s.stop.HDone?
  {
    ReceiverIsDone(c, s, x);
    assert !Enabled(c, s, RefillerRuns(s.now));
    forall i | 0 <= i < |s.printers| ensures !s.printers[i].pc.PRefillHold? {
      assert i != x ==> !Enabled(c, s, PrinterRuns(i, s.now));
    }
    assert s.refiller.FPlan? || s.refiller.FFill? ==> Refilling.InFlight(s.refiller, s.refiller.i);
    assert s.stop.HIdle? || !Enabled(c, s, StopRuns(s.now));
  }

  lemma PrinterAtRest(c: Config, s: State, x: int, i: nat)
    requires Inv(c, s) && QuiescentBut(c, s, x) && i < |s.printers| && i != x
    ensures var pc := s.printers[i].pc;
      pc.PExited? || (pc.PRefillWait? && !pc.signalled)
  {
    ReceiverIsDone(c, s, x);
    RefillQueueIsFree(c, s, x);
    assert !Enabled(c, s, PrinterRuns(i, s.now));
    assert s.printers[i].pc == PJobWait(false) && s.allArrived ==> Control.OwesJobBroadcast(s);
  }

  /** A refiller that can still serve leaves no printer asleep for paper. */
  lemma RefillerStarves(c: Config, s: State, x: int, i: nat)
    requires Inv(c, s) && QuiescentBut(c, s, x) && i < |s.printers|
    requires s.printers[i].pc.PRefillWait? && !s.printers[i].pc.signalled
    ensures s.terminate || s.allServed
  {
    RefillQueueIsFree(c, s, x);
    assert !Enabled(c, s, RefillerRuns(s.now));
    assert Refilling.Paper(c, s, i, s.printers[i]);
  }

  lemma RunHasEnded(c: Config, s: State, x: int, i: nat)
    requires Inv(c, s) && QuiescentBut(c, s, x) && i < |s.printers| && i != x
    ensures s.terminate || s.allServed
  {
    PrinterAtRest(c, s, x, i);
    if !s.printers[i].pc.PExited? {
      RefillerStarves(c, s, x, i);
    }
    assert Control.PrinterFlags(s, s.printers[i].pc);
  }

  /** When nothing can move in a run without a stop, all jobs have arrived and the queue is empty. */
  lemma QueueIsEmpty(c: Config, s: State, x: int, i: nat)
    requires Inv(c, s) && !s.terminate && QuiescentBut(c, s, x) && i < |s.printers| && i != x
    ensures s.queue == [] && s.index == c.jobs && s.receiver.RDone? && s.allServed
  {
    RunHasEnded(c, s, x, i);
    ReceiverIsDone(c, s, x);
  }

  /** ... and the refiller is gone. */
  lemma RefillerIsGone(c: Config, s: State, x: int)
    requires Inv(c, s) && QuiescentBut(c, s, x) && (s.terminate || s.allServed)
    ensures s.refiller.FExited? || s.refiller.FCancelled?
  {
    RefillQueueIsFree(c, s, x);
    assert !Enabled(c, s, RefillerRuns(s.now));
    forall i | 0 <= i < |s.printers| ensures !s.printers[i].pc.PExit? {
      if i != x {
        PrinterAtRest(c, s, x, i);
      }
    }
  }

  lemma {:induction false} NoneInService(ps: seq<Printer>)
    requires forall k :: 0 <= k < |ps| ==> !Timing.InService(ps[k].pc)
    ensures Gather(Books.InServiceIds, ps) == multiset{}
  {
    if ps != [] {
      NoneInService(ps[1..]);
    }
  }

  /** Where every run ends.  Each counted job was served, dropped or removed, except for one that may have
      been enqueued behind the stop handler's back; a printer may be left asleep for paper, the refiller
      being gone. */
  ghost predicate Drained(c: Config, s: State) {
    && s.stats.arrived == s.stats.served + s.stats.dropped + s.stats.removed + |s.queue|
    && (!s.terminate ==> s.queue == [] && s.stats.removed == 0 && s.stats.arrived == c.jobs && s.receiver.RDone?)
    && (s.terminate ==> |s.queue| <= 1 && s.stop.HDone?)
    && (forall i :: 0 <= i < |s.printers| ==>
          s.printers[i].pc.PExited? || (s.printers[i].pc.PRefillWait? && !s.printers[i].pc.signalled))
    && (s.refiller.FExited? || s.refiller.FCancelled?)
  }

  lemma CountsAtRest(c: Config, s: State)
    requires Books.Jobs(s) && Books.Departures(s) && (s.receiver.RDone? || s.receiver.RCancelled?)
    requires forall i :: 0 <= i < |s.printers| ==> !Timing.InService(s.printers[i].pc)
    ensures s.stats.arrived == s.stats.served + s.stats.dropped + s.stats.removed + |s.queue|
    ensures s.stats.arrived == s.index
  {
    NoneInService(s.printers);
    assert |multiset(s.hist.enqueued) + multiset(s.hist.dropped)| == |multiset(UpTo(s.stats.arrived))|;
    assert |s.hist.left + Ids(s.queue)| == |s.hist.enqueued|;
    assert |multiset(s.hist.left)| == |multiset(Books.ServedIds(s.hist.served)) + multiset(s.hist.removed)|;
  }

  /** A state in which no thread can move is drained, stop or no stop. */
  lemma QuiescentIsDrained(c: Config, s: State)
    requires Inv(c, s) && Quiescent(c, s)
    ensures Drained(c, s)
  {
    RunHasEnded(c, s, -1, 0);
    RefillerIsGone(c, s, -1);
    ReceiverIsDone(c, s, -1);
    RefillQueueIsFree(c, s, -1);
    forall i | 0 <= i < |s.printers|
      ensures s.printers[i].pc.PExited? || (s.printers[i].pc.PRefillWait? && !s.printers[i].pc.signalled)
    {
      PrinterAtRest(c, s, -1, i);
    }
    CountsAtRest(c, s);
    if !s.terminate {
      QueueIsEmpty(c, s, -1, 0);
    }
  }

  /** Each step is one of the program, in the state it is taken in. */
  ghost predicate ProgramRun(c: Config, s: State, run: seq<Action>)
    requires IsRun(c, s, run)
    decreases run
  {
    run == [] || (OfProgram(s, run[0]) && ProgramRun(c, Next(c, s, run[0]), run[1..]))
  }

  lemma Prepend(c: Config, s: State, a: Action, rest: seq<Action>)
    requires Enabled(c, s, a) && OfProgram(s, a) && IsRun(c, Next(c, s, a), rest)
    requires ProgramRun(c, Next(c, s, a), rest)
    ensures IsRun(c, s, [a] + rest) && ProgramRun(c, s, [a] + rest)
    ensures After(c, s, [a] + rest) == After(c, Next(c, s, a), rest)
  {
    assert ([a] + rest)[0] == a && ([a] + rest)[1..] == rest;
  }

  /** From every state some run of the program ends drained.  That every run does follows from the bound
      on their length and from what holds where none can go on: see RunsAreFinite and QuiescentIsDrained. */
  lemma {:induction false} EveryStateDrains(c: Config, s: State) returns (run: seq<Action>)
    requires Inv(c, s)
    ensures IsRun(c, s, run) && ProgramRun(c, s, run) && Drained(c, After(c, s, run))
    decreases Rank(c, s)
  {
    if Quiescent(c, s) {
      QuiescentIsDrained(c, s);
      run := [];
    } else {
      var a :| OfProgram(s, a) && Enabled(c, s, a);
      RankNonNegative(c, s);
      NextDecreases(c, s, a);
      NextHolds(c, s, a);
      var s' := Next(c, s, a);
      var rest := EveryStateDrains(c, s');
      Prepend(c, s, a, rest);
      run := [a] + rest;
    }
  }
}
