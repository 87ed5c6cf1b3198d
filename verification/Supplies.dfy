/** The paper supply: requests are taken on in the order in which they were made, and the recorded waits
    and refills are those that took place. */
module Supplies {
  import opened Records
  import opened Machine
  import opened Runs
  import opened Sums
  import Control
  import Refilling

  function WaitBy(i: nat): PaperWait -> int {
    (w: PaperWait) => if w.printer == i then w.until - w.since else 0
  }

  function Spent(r: Refill): int { r.until - r.since }
  function Papers(r: Refill): int { r.papers }

  /** The refiller has a request in its hands. */
  predicate Holding(pc: RefillerPc) { pc.FPlan? || pc.FFill? || pc.FRecord? || pc.FCancelled? }

  ghost predicate Requests(s: State) {
    && s.supply.taken + s.refillQueue == s.supply.asked
    && (Holding(s.refiller) ==> s.supply.taken != [] && s.supply.taken[|s.supply.taken| - 1] == s.refiller.i)
  }

  ghost predicate Waits(s: State) {
    && |s.stats.perPrinter| == MAX_PRINTERS
    && forall i :: 0 <= i < MAX_PRINTERS ==> s.stats.perPrinter[i].emptyTime == Sum(WaitBy(i), s.supply.waits)
  }

  /** The statistics count every refill, the one just completed as soon as it is recorded. */
  ghost predicate Refills(s: State) {
    && s.stats.refillEvents + (if s.refiller.FRecord? then 1 else 0) == |s.supply.refills|
    && s.stats.refillTime + (if s.refiller.FRecord? then s.refiller.duration else 0) == Sum(Spent, s.supply.refills)
    && s.stats.papersRefilled + (if s.refiller.FRecord? then s.refiller.papers else 0) == Sum(Papers, s.supply.refills)
  }

  ghost predicate Kept(s: State) {
    Requests(s) && Waits(s) && Refills(s)
  }

  // ---- sections that have nothing to do with paper ----

  ghost predicate Dry(s: State, s': State) {
    && s'.supply == s.supply && s'.refillQueue == s.refillQueue
    && (s'.refiller == s.refiller || (!Holding(s.refiller) && !Holding(s'.refiller)))
    && s'.stats.refillEvents == s.stats.refillEvents && s'.stats.refillTime == s.stats.refillTime
    && s'.stats.papersRefilled == s.stats.papersRefilled
    && |s'.stats.perPrinter| == |s.stats.perPrinter|
    && forall k :: 0 <= k < |s.stats.perPrinter| ==>
         s'.stats.perPrinter[k].emptyTime == s.stats.perPrinter[k].emptyTime
  }

  lemma DryKeeps(s: State, s': State)
    requires Kept(s) && Dry(s, s')
    ensures Kept(s')
  {
  }

  lemma PassingIsDry(s: State, j: nat, t: nat)
    requires j < |s.printers|
    requires var pc := s.printers[j].pc; pc.PTop? || pc.PJobWait? || pc.PAfter? || pc.PExitCheck? || pc.PServed?
    ensures Dry(s, PrinterNext(s, j, t))
  {
  }

  lemma JobSectionIsDry(s: State, j: nat, t: nat)
    requires j < |s.printers| && s.printers[j].pc.PJobLock?
    ensures Dry(s, PrinterJobSection(s, j, t))
  {
    if Control.Takes(s, j) {
      assert PrinterJobSection(s, j, t) == PrinterDequeue(s, j, t);
    } else {
      Control.OnlyMoves(s, j, t);
    }
  }

  lemma WakingIsDry(s: State, j: nat, t: nat)
    requires j < |s.printers| && (s.printers[j].pc.PRefillWait? || s.printers[j].pc.PRefillHold?)
    ensures Dry(s, PrinterNext(s, j, t))
  {
  }

  lemma ServingIsDry(s: State, j: nat, t: nat)
    requires j < |s.printers| && (s.printers[j].pc.PStart? || s.printers[j].pc.PPrint?)
    ensures Dry(s, PrinterNext(s, j, t))
  {
  }

  lemma DepartIsDry(s: State, j: nat)
    requires j < |s.printers| && s.printers[j].pc.PDepart?
    ensures Dry(s, PrinterDepart(s, j))
  {
  }

  lemma ExitIsDry(s: State, j: nat)
    requires j < |s.printers|
    ensures Dry(s, PrinterExit(s, j))
  {
  }

  lemma EnterIsDry(c: Config, s: State, t: nat, t2: nat)
    requires s.receiver.REnter?
    ensures Dry(s, ReceiverEnter(c, s, t, t2))
  {
  }

  lemma RecordIsDry(s: State)
    requires s.receiver.RHold?
    ensures Dry(s, ReceiverRecord(s))
  {
  }

  lemma ArrivalIsDry(s: State, t: nat, need: nat)
    ensures Dry(s, ReceiverReadFlag(s, need)) && Dry(s, ReceiverBreak(s)) && Dry(s, ReceiverFinish(s))
    ensures Dry(s, ReceiverWakeAll(s))
    ensures s.receiver.RStamp? ==> Dry(s, ReceiverStamp(s, t))
    ensures s.receiver.RCount? ==> Dry(s, ReceiverCount(s))
    ensures s.receiver.RDrop? ==> Dry(s, ReceiverDrop(s))
  {
  }

  lemma ReceiverIsDry(c: Config, s: State, t: nat, t2: nat, need: nat)
    requires ReceiverEnabled(c, s, need)
    ensures Dry(s, ReceiverNext(c, s, t, t2, need))
  {
    ArrivalIsDry(s, t, need);
    if s.receiver.REnter? {
      EnterIsDry(c, s, t, t2);
    } else if s.receiver.RHold? {
      RecordIsDry(s);
    }
    hide Dry;
  }

  lemma StopIsDry(s: State, t: nat)
    ensures Dry(s, StopRaise(s)) && Dry(s, StopStamp(s, t)) && Dry(s, StopLock(s)) && Dry(s, StopWakeAll(s))
  {
  }

  lemma EmptyIsDry(s: State, t: nat)
    ensures Dry(s, StopEmpty(s, t))
  {
  }

  lemma LockingIsDry(s: State)
    ensures s.refiller.FLock? || s.refiller.FWait? ==> Dry(s, RefillerLock(s))
    ensures s.refiller.FNotify? ==> Dry(s, RefillerNotify(s))
  {
  }

  lemma RestingIsDry(s: State, t: nat)
    requires s.refiller.FCheck? && (s.terminate || s.allServed || s.refillQueue == [])
    ensures Dry(s, RefillerCheck(s, t))
  {
  }

  // ---- sections that move paper ----

  lemma RequestKeeps(s: State, j: nat, t: nat)
    requires Kept(s) && j < |s.printers| && s.printers[j].pc.PRefillLock?
    ensures Kept(PrinterRequest(s, j, t))
  {
    assert s.supply.taken + (s.refillQueue + [j]) == (s.supply.taken + s.refillQueue) + [j];
  }

  lemma PaperStatsKeep(s: State, j: nat, t: nat)
    requires Kept(s) && j < |s.printers| && s.printers[j].pc.PRefillDone?
    ensures Kept(PrinterPaperStats(s, j, t))
  {
    var s', w := PrinterPaperStats(s, j, t), PaperWait(j, s.printers[j].pc.since, t);
    forall i | 0 <= i < MAX_PRINTERS ensures s'.stats.perPrinter[i].emptyTime == Sum(WaitBy(i), s'.supply.waits) {
      SumAppend(WaitBy(i), s.supply.waits, w);
    }
  }

  lemma TakeKeeps(s: State, t: nat)
    requires Kept(s) && s.refiller.FCheck? && !s.terminate && !s.allServed && s.refillQueue != []
    ensures Kept(RefillerCheck(s, t))
  {
    var q := s.refillQueue;
    assert (s.supply.taken + [q[0]]) + q[1..] == s.supply.taken + q;
  }

  lemma PlanKeeps(c: Config, s: State)
    requires Kept(s) && s.refiller.FPlan? && s.refiller.i < |s.printers|
    ensures Kept(RefillerPlan(c, s))
  {
  }

  lemma FillKeeps(s: State, t: nat)
    requires Kept(s) && s.refiller.FFill? && s.refiller.i < |s.printers|
    ensures Kept(RefillerFill(s, t))
  {
    var r := Refill(s.refiller.i, s.refiller.papers, s.refiller.since, t);
    SumAppend(Spent, s.supply.refills, r);
    SumAppend(Papers, s.supply.refills, r);
  }

  lemma RecordKeeps(s: State)
    requires Kept(s) && s.refiller.FRecord?
    ensures Kept(RefillerRecord(s))
  {
  }

  // ---- every section ----

  lemma PrinterKeeps(s: State, j: nat, t: nat)
    requires Kept(s) && j < |s.printers| && PrinterEnabled(s, j)
    ensures Kept(PrinterNext(s, j, t))
  {
    match s.printers[j].pc
    case PRefillLock(_) => RequestKeeps(s, j, t);
    case PRefillDone(_) => PaperStatsKeep(s, j, t);
    case PJobLock(_) => JobSectionIsDry(s, j, t); DryKeeps(s, PrinterNext(s, j, t));
    case PRefillWait(_, _, _) => WakingIsDry(s, j, t); DryKeeps(s, PrinterNext(s, j, t));
    case PRefillHold(_, _) => WakingIsDry(s, j, t); DryKeeps(s, PrinterNext(s, j, t));
    case PStart(_) => ServingIsDry(s, j, t); DryKeeps(s, PrinterNext(s, j, t));
    case PPrint(_) => ServingIsDry(s, j, t); DryKeeps(s, PrinterNext(s, j, t));
    case PDepart(_) => DepartIsDry(s, j); DryKeeps(s, PrinterNext(s, j, t));
    case PExit => ExitIsDry(s, j); DryKeeps(s, PrinterNext(s, j, t));
    case PTop => PassingIsDry(s, j, t); DryKeeps(s, PrinterNext(s, j, t));
    case PJobWait(_) => PassingIsDry(s, j, t); DryKeeps(s, PrinterNext(s, j, t));
    case PAfter => PassingIsDry(s, j, t); DryKeeps(s, PrinterNext(s, j, t));
    case PExitCheck(_) => PassingIsDry(s, j, t); DryKeeps(s, PrinterNext(s, j, t));
    case PServed => PassingIsDry(s, j, t); DryKeeps(s, PrinterNext(s, j, t));
  }

  lemma RefillerKeeps(c: Config, s: State, t: nat)
    requires Kept(s) && RefillerEnabled(s)
    ensures Kept(RefillerNext(c, s, t))
  {
    match s.refiller
    case FPlan(_, _) => PlanKeeps(c, s);
    case FFill(_, _, _) => FillKeeps(s, t);
    case FRecord(_, _, _) => RecordKeeps(s);
    case FCheck =>
      if !s.terminate && !s.allServed && s.refillQueue != [] {
        TakeKeeps(s, t);
      } else {
        RestingIsDry(s, t);
        DryKeeps(s, RefillerCheck(s, t));
      }
    case FLock => LockingIsDry(s); DryKeeps(s, RefillerNext(c, s, t));
    case FWait(_) => LockingIsDry(s); DryKeeps(s, RefillerNext(c, s, t));
    case FNotify => LockingIsDry(s); DryKeeps(s, RefillerNext(c, s, t));
  }

  lemma StopKeeps(s: State, t: nat)
    requires Kept(s) && StopEnabled(s)
    ensures Kept(StopNext(s, t))
  {
    StopIsDry(s, t);
    EmptyIsDry(s, t);
    hide Dry;
    DryKeeps(s, StopNext(s, t));
  }

  lemma EnvironmentKeeps(c: Config, s: State, a: Action)
    requires Kept(s) && Enabled(c, s, a)
    requires a.ReceiverDies? || a.RefillerDies? || a.PrinterSpurious? || a.RefillerSpurious?
    ensures Kept(Next(c, s, a))
  {
  }

  lemma NextKeeps(c: Config, s: State, a: Action)
    requires Kept(s) && Enabled(c, s, a)
    ensures Kept(Next(c, s, a))
  {
    match a
    case PrinterRuns(i, t) => PrinterKeeps(s, i, t);
    case ReceiverRuns(t, t2, need) =>
      ReceiverIsDry(c, s, t, t2, need);
      DryKeeps(s, Next(c, s, a));
    case RefillerRuns(t) => RefillerKeeps(c, s, t);
    case StopRuns(t) => StopKeeps(s, t);
    case _ => EnvironmentKeeps(c, s, a);
  }

  lemma {:induction false} RunKeeps(c: Config, s: State, run: seq<Action>)
    requires Kept(s) && IsRun(c, s, run)
    ensures Kept(After(c, s, run))
    decreases run
  {
    if run != [] {
      NextKeeps(c, s, run[0]);
      RunKeeps(c, Next(c, s, run[0]), run[1..]);
    }
  }

  lemma InitKeeps(c: Config, created: nat, start: nat)
    ensures Kept(Init(c, created, start))
  {
    forall i | 0 <= i < MAX_PRINTERS ensures InitStats(start).perPrinter[i] == NO_WORK {
    }
  }

  lemma ReachableKeeps(c: Config, s: State)
    requires Reachable(c, s)
    ensures Kept(s)
  {
    var created: nat, start: nat, run: seq<Action> :| ReachedBy(c, s, created, start, run);
    InitKeeps(c, created, start);
    RunKeeps(c, Init(c, created, start), run);
  }

  // ---- the refill queue is served in order ----

  /** In every reachable state the printers taken on, followed by those in the refill queue, are the printers
      that asked, in the order in which they did; the refiller is at work for the last one taken on. */
  lemma RefillFifo(c: Config, s: State)
    requires Reachable(c, s)
    ensures s.supply.taken + s.refillQueue == s.supply.asked
    ensures s.refiller.FPlan? || s.refiller.FFill? || s.refiller.FRecord? || s.refiller.FCancelled? ==>
      s.supply.taken != [] && s.supply.taken[|s.supply.taken| - 1] == s.refiller.i
  {
    ReachableKeeps(c, s);
  }

  /** What a step can do to the refill queue: the printer that runs joins it at its end, or the refiller takes
      on the printer at its head; the histories say just that. */
  ghost predicate QueueMoves(s: State, s': State, a: Action) {
    || (s'.refillQueue == s.refillQueue && s'.supply.asked == s.supply.asked && s'.supply.taken == s.supply.taken)
    || (a.PrinterRuns? && a.i < |s.printers| && s.printers[a.i].pc.PRefillLock?
        && s'.refillQueue == s.refillQueue + [a.i]
        && s'.supply.asked == s.supply.asked + [a.i] && s'.supply.taken == s.supply.taken)
    || (a.RefillerRuns? && s.refiller.FCheck? && s'.refiller.FPlan?
        && s.refillQueue == [s'.refiller.i] + s'.refillQueue
        && s'.supply.asked == s.supply.asked && s'.supply.taken == s.supply.taken + [s'.refiller.i])
  }

  lemma DryMovesNothing(s: State, s': State, a: Action)
    requires Dry(s, s')
    ensures QueueMoves(s, s', a)
  {
  }

  lemma PrinterMovesQueue(s: State, j: nat, t: nat)
    requires j < |s.printers| && PrinterEnabled(s, j)
    ensures QueueMoves(s, PrinterNext(s, j, t), PrinterRuns(j, t))
  {
    var a := PrinterRuns(j, t);
    match s.printers[j].pc
    case PRefillLock(_) => assert PrinterNext(s, j, t) == PrinterRequest(s, j, t);
    case PRefillDone(_) => assert PrinterNext(s, j, t) == PrinterPaperStats(s, j, t);
    case PJobLock(_) => JobSectionIsDry(s, j, t); DryMovesNothing(s, PrinterNext(s, j, t), a);
    case PRefillWait(_, _, _) => WakingIsDry(s, j, t); DryMovesNothing(s, PrinterNext(s, j, t), a);
    case PRefillHold(_, _) => WakingIsDry(s, j, t); DryMovesNothing(s, PrinterNext(s, j, t), a);
    case PStart(_) => ServingIsDry(s, j, t); DryMovesNothing(s, PrinterNext(s, j, t), a);
    case PPrint(_) => ServingIsDry(s, j, t); DryMovesNothing(s, PrinterNext(s, j, t), a);
    case PDepart(_) => DepartIsDry(s, j); DryMovesNothing(s, PrinterNext(s, j, t), a);
    case PExit => ExitIsDry(s, j); DryMovesNothing(s, PrinterNext(s, j, t), a);
    case PTop => PassingIsDry(s, j, t); DryMovesNothing(s, PrinterNext(s, j, t), a);
    case PJobWait(_) => PassingIsDry(s, j, t); DryMovesNothing(s, PrinterNext(s, j, t), a);
    case PAfter => PassingIsDry(s, j, t); DryMovesNothing(s, PrinterNext(s, j, t), a);
    case PExitCheck(_) => PassingIsDry(s, j, t); DryMovesNothing(s, PrinterNext(s, j, t), a);
    case PServed => PassingIsDry(s, j, t); DryMovesNothing(s, PrinterNext(s, j, t), a);
  }

  lemma RefillerMovesQueue(c: Config, s: State, t: nat)
    requires RefillerEnabled(s)
    ensures QueueMoves(s, RefillerNext(c, s, t), RefillerRuns(t))
  {
    if s.refiller.FCheck? {
      assert RefillerNext(c, s, t) == RefillerCheck(s, t);
    }
  }

  lemma NextMovesQueue(c: Config, s: State, a: Action)
    requires Enabled(c, s, a)
    ensures QueueMoves(s, Next(c, s, a), a)
  {
    match a
    case PrinterRuns(i, t) => PrinterMovesQueue(s, i, t);
    case ReceiverRuns(t, t2, need) =>
      ReceiverIsDry(c, s, t, t2, need);
      DryMovesNothing(s, Next(c, s, a), a);
    case RefillerRuns(t) => RefillerMovesQueue(c, s, t);
    case StopRuns(t) =>
      StopIsDry(s, t);
      EmptyIsDry(s, t);
      hide Dry;
      DryMovesNothing(s, Next(c, s, a), a);
    case _ =>
  }

  lemma {:induction false} HistoryGrows(c: Config, s: State, run: seq<Action>)
    requires IsRun(c, s, run)
    ensures s.supply.asked <= After(c, s, run).supply.asked
    decreases run
  {
    if run != [] {
      NextMovesQueue(c, s, run[0]);
      HistoryGrows(c, Next(c, s, run[0]), run[1..]);
    }
  }

  /** A request with `k` others before it is the one taken on after exactly those `k`, in whatever run. */
  lemma RequestsAreServedInOrder(c: Config, s: State, run: seq<Action>, k: nat)
    requires Reachable(c, s) && IsRun(c, s, run) && k < |s.refillQueue|
    ensures var s' := After(c, s, run);
      var n := |s.supply.taken| + k;
      if |s'.supply.taken| > n then s'.supply.taken[n] == s.refillQueue[k]
      else |s'.refillQueue| > n - |s'.supply.taken| && s'.refillQueue[n - |s'.supply.taken|] == s.refillQueue[k]
  {
    ReachableKeeps(c, s);
    RunKeeps(c, s, run);
    HistoryGrows(c, s, run);
    var s', n := After(c, s, run), |s.supply.taken| + k;
    assert s.supply.asked[n] == s.refillQueue[k] && s'.supply.asked[n] == s.supply.asked[n];
  }

  /** The records of the paper supply are what took place: refills, their papers and time, and each printer's
      time without paper. */
  lemma SupplyIsRecorded(c: Config, s: State)
    requires Reachable(c, s)
    ensures |s.stats.perPrinter| == 5
    ensures forall i :: 0 <= i < 5 ==> s.stats.perPrinter[i].emptyTime == Sum(WaitBy(i), s.supply.waits)
    ensures !s.refiller.FRecord? ==>
      && s.stats.refillEvents == |s.supply.refills|
      && s.stats.refillTime == Sum(Spent, s.supply.refills)
      && s.stats.papersRefilled == Sum(Papers, s.supply.refills)
  {
    ReachableKeeps(c, s);
  }
}
