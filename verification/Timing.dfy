/** Timestamps: every job's life cycle is ordered, the queue-length integral is computed up to a time
    no earlier than any accounted arrival, and the service times recorded for a printer fit into the
    run. */
module Timing {
  import opened Records
  import opened Machine
  import Control

  ghost predicate JobOk(c: Config, s: State, j: Job) {
    1 <= j.need <= c.maxNeed && s.stats.start <= j.systemArrival <= s.now
  }

  ghost predicate QueuedOk(c: Config, s: State, j: Job) {
    JobOk(c, s, j) && j.systemArrival <= j.queueArrival <= s.now
  }

  /** The time up to which the queue-length integral has been computed, and the number of jobs it covers. */
  function AccountedTo(s: State): nat {
    if s.receiver.RHold? then s.receiver.lastBefore else s.last
  }

  function Accounted(s: State): int {
    if s.receiver.RHold? then |s.queue| - 1 else |s.queue|
  }

  ghost predicate Queue(c: Config, s: State) {
    && (forall k :: 0 <= k < |s.queue| ==> QueuedOk(c, s, s.queue[k]))
    && s.last <= s.now
    && (s.receiver.RHold? ==>
        && |s.queue| == s.receiver.length + 1
        && s.queue[s.receiver.length] == s.receiver.job
        && s.receiver.lastBefore <= s.receiver.job.queueArrival <= s.last)
    && (forall k :: 0 <= k < Accounted(s) && k < |s.queue| ==> s.queue[k].queueArrival <= AccountedTo(s))
    && (c.queueCapacity != -1 ==> |s.queue| <= c.queueCapacity)
  }

  predicate HasJob(pc: ReceiverPc) { pc.RCount? || pc.REnter? || pc.RHold? || pc.RDrop? }

  ghost predicate Receiver(c: Config, s: State) {
    && s.stats.start <= s.previousArrival <= s.now
    && (s.receiver.RStamp? ==> 1 <= s.receiver.need <= c.maxNeed)
    && (HasJob(s.receiver) ==>
        && JobOk(c, s, s.receiver.job) && s.receiver.job.id == s.index + 1
        && s.previousArrival <= s.receiver.job.systemArrival)
  }

  predicate InService(pc: PrinterPc) { pc.PStart? || pc.PPrint? || pc.PDepart? }

  ghost predicate Service(c: Config, s: State, pc: PrinterPc) {
    InService(pc) ==>
      && QueuedOk(c, s, pc.job)
      && pc.job.queueArrival <= pc.job.queueDeparture <= s.now
      && (!pc.PStart? ==> pc.job.queueDeparture <= pc.job.serviceArrival <= s.now)
      && (pc.PDepart? ==> pc.job.serviceArrival <= pc.job.serviceDeparture <= s.now)
  }

  /** The time up to which the records of a printer with this program counter reach at most. */
  function RecordedTo(s: State, pc: PrinterPc): int {
    match pc
    case PPrint(job) => job.serviceArrival
    case PDepart(job) => s.now - (job.serviceDeparture - job.serviceArrival)
    case PRefillWait(_, since, _) => since
    case PRefillHold(_, since) => since
    case PRefillDone(since) => since
    case _ => s.now
  }

  /** The times recorded for a printer, serving and without paper, fit before what it is doing now. */
  ghost predicate Utilised(s: State, pc: PrinterPc, ps: PrinterStats) {
    && 0 <= ps.serviceTime && 0 <= ps.emptyTime
    && ps.serviceTime + ps.emptyTime <= RecordedTo(s, pc) - s.stats.start
    && RecordedTo(s, pc) <= s.now
  }

  /** The refill time recorded fits before the current refill. */
  ghost predicate Refills(s: State) {
    && 0 <= s.stats.refillTime <= s.now - s.stats.start
    && (s.refiller.FPlan? || s.refiller.FFill? ==>
        s.refiller.since <= s.now && s.stats.refillTime <= s.refiller.since - s.stats.start)
    && (s.refiller.FRecord? ==>
        0 <= s.refiller.duration && s.stats.refillTime + s.refiller.duration <= s.now - s.stats.start)
  }

  ghost predicate Services(c: Config, s: State) {
    && (forall i :: 0 <= i < |s.printers| ==> Service(c, s, s.printers[i].pc))
    && (forall i :: 0 <= i < |s.printers| && i < |s.stats.perPrinter| ==>
          Utilised(s, s.printers[i].pc, s.stats.perPrinter[i]))
  }

  /** A served job went through its life cycle in order, within the run. */
  ghost predicate InOrder(s: State, j: Job) {
    s.stats.start <= j.systemArrival <= j.queueArrival <= j.queueDeparture
      <= j.serviceArrival <= j.serviceDeparture <= s.now
  }

  ghost predicate Served(s: State) {
    forall k :: 0 <= k < |s.hist.served| ==> InOrder(s, s.hist.served[k].job)
  }

  ghost predicate Inv(c: Config, s: State) {
    Queue(c, s) && Receiver(c, s) && Services(c, s) && Refills(s) && Served(s)
  }

  ghost predicate Base(c: Config, s: State) {
    c.Valid() && Control.Shape(c, s) && Control.Locks(s) && Inv(c, s)
  }

  lemma InitKeeps(c: Config, created: nat, start: nat)
    requires c.Valid() && created <= start
    ensures Inv(c, Init(c, created, start))
  {
  }

  // ---- printer sections ----

  lemma PrinterPasses(c: Config, s: State, i: nat, t: nat)
    requires Base(c, s) && s.now <= t && i < |s.printers| && PrinterEnabled(s, i)
    requires s.printers[i].pc.PTop? || s.printers[i].pc.PJobWait? || s.printers[i].pc.PAfter?
    ensures Inv(c, PrinterNext(s, i, t))
  {
  }

  lemma PrinterLeaves(c: Config, s: State, i: nat, t: nat)
    requires Base(c, s) && s.now <= t && i < |s.printers| && PrinterEnabled(s, i)
    requires s.printers[i].pc.PExitCheck? || s.printers[i].pc.PServed?
    ensures Inv(c, PrinterNext(s, i, t))
  {
  }

  lemma PrinterDeparts(c: Config, s: State, i: nat)
    requires Base(c, s) && i < |s.printers| && s.printers[i].pc.PDepart?
    ensures Inv(c, PrinterDepart(s, i))
  {
  }

  lemma PrinterServes(c: Config, s: State, i: nat, t: nat)
    requires Base(c, s) && s.now <= t && i < |s.printers| && PrinterEnabled(s, i)
    requires s.printers[i].pc.PPrint?
    ensures Inv(c, PrinterPrint(s, i, t))
  {
  }

  lemma PrinterBegins(c: Config, s: State, i: nat, t: nat)
    requires Base(c, s) && s.now <= t && i < |s.printers| && s.printers[i].pc.PStart?
    ensures Inv(c, PrinterBegin(s, i, t))
  {
  }

  lemma PrinterWaits(c: Config, s: State, i: nat, t: nat)
    requires Base(c, s) && s.now <= t && i < |s.printers| && PrinterEnabled(s, i)
    requires s.printers[i].pc.PRefillWait?
    ensures Inv(c, PrinterPaperWoken(s, i))
  {
  }

  lemma PrinterResumes(c: Config, s: State, i: nat, t: nat)
    requires Base(c, s) && s.now <= t && i < |s.printers| && s.printers[i].pc.PRefillDone?
    ensures Inv(c, PrinterPaperStats(s, i, t))
  {
  }

  lemma PrinterRechecks(c: Config, s: State, i: nat, t: nat)
    requires Base(c, s) && s.now <= t && i < |s.printers| && PrinterEnabled(s, i)
    requires s.printers[i].pc.PRefillHold?
    ensures Inv(c, PrinterNext(s, i, t))
  {
  }

  lemma PrinterRequests(c: Config, s: State, i: nat, t: nat)
    requires Base(c, s) && s.now <= t && i < |s.printers| && PrinterEnabled(s, i)
    requires s.printers[i].pc.PRefillLock?
    ensures Inv(c, PrinterNext(s, i, t))
  {
  }

  lemma PrinterExits(c: Config, s: State, i: nat, t: nat)
    requires Base(c, s) && s.now <= t && i < |s.printers| && PrinterEnabled(s, i)
    requires s.printers[i].pc.PExit?
    ensures Inv(c, PrinterNext(s, i, t))
  {
  }

  lemma PrinterMoves(c: Config, s: State, i: nat, pc: PrinterPc)
    requires Base(c, s) && i < |s.printers| && s.jobOwner.Free? && s.printers[i].pc.PJobLock? && Control.GoesTo(s, i, pc)
    ensures Inv(c, Put(s, i, s.printers[i].(pc := pc)))
  {
  }

  lemma PrinterStays(c: Config, s: State, i: nat, t: nat)
    requires Base(c, s) && s.now <= t && i < |s.printers| && PrinterEnabled(s, i)
    requires s.printers[i].pc.PJobLock? && !Control.Takes(s, i)
    ensures Inv(c, PrinterJobSection(s, i, t))
  {
    Control.OnlyMoves(s, i, t);
    PrinterMoves(c, s, i, Control.Looked(s, i));
  }

  lemma PrinterTakes(c: Config, s: State, i: nat, t: nat)
    requires Base(c, s) && s.now <= t && i < |s.printers| && PrinterEnabled(s, i)
    requires s.printers[i].pc.PJobLock? && Control.Takes(s, i)
    ensures Inv(c, PrinterDequeue(s, i, t))
  {
  }

  // ---- receiver sections ----

  lemma ReceiverArrives(c: Config, s: State, t: nat, t2: nat, need: nat)
    requires Base(c, s) && s.now <= t <= t2 && ReceiverEnabled(c, s, need)
    requires s.receiver.RLoop?
    ensures Inv(c, ReceiverNext(c, s, t, t2, need))
  {
    if s.index < c.jobs {
      assert ReceiverNext(c, s, t, t2, need) == ReceiverReadFlag(s, need);
    } else {
      assert ReceiverNext(c, s, t, t2, need) == ReceiverFinish(s);
    }
  }

  lemma ReceiverBreaks(c: Config, s: State)
    requires Base(c, s) && s.receiver.RBroken?
    ensures Inv(c, ReceiverBreak(s))
  {
  }

  lemma ReceiverStamps(c: Config, s: State, t: nat, t2: nat, need: nat)
    requires Base(c, s) && s.now <= t <= t2 && ReceiverEnabled(c, s, need)
    requires s.receiver.RStamp? || s.receiver.RCount? || s.receiver.RDrop?
    ensures Inv(c, ReceiverNext(c, s, t, t2, need))
  {
  }

  lemma ReceiverRecords(c: Config, s: State, t: nat, t2: nat, need: nat)
    requires Base(c, s) && s.now <= t <= t2 && ReceiverEnabled(c, s, need)
    requires s.receiver.RHold?
    ensures Inv(c, ReceiverNext(c, s, t, t2, need))
  {
  }

  lemma ReceiverEnds(c: Config, s: State, t: nat, t2: nat, need: nat)
    requires Base(c, s) && s.now <= t <= t2 && ReceiverEnabled(c, s, need)
    requires s.receiver.RFinish? || s.receiver.RBroadcast?
    ensures Inv(c, ReceiverNext(c, s, t, t2, need))
  {
  }

  lemma ReceiverEnqueues(c: Config, s: State, t: nat, t2: nat)
    requires Base(c, s) && s.now <= t <= t2 && s.jobOwner.Free? && s.receiver.REnter?
    requires c.queueCapacity == -1 || |s.queue| < c.queueCapacity
    ensures Inv(c, ReceiverEnter(c, s, t, t2))
  {
  }

  lemma ReceiverRefuses(c: Config, s: State, t: nat, t2: nat)
    requires Base(c, s) && s.now <= t <= t2 && s.jobOwner.Free? && s.receiver.REnter?
    requires c.queueCapacity != -1 && |s.queue| >= c.queueCapacity
    ensures Inv(c, ReceiverEnter(c, s, t, t2))
  {
  }

  // ---- refiller and stop handler sections ----

  lemma RefillerLocks(c: Config, s: State, t: nat)
    requires Base(c, s) && s.now <= t && RefillerEnabled(s)
    requires s.refiller.FLock? || s.refiller.FWait? || s.refiller.FPlan?
    ensures Inv(c, RefillerNext(c, s, t))
  {
  }

  lemma RefillerFills(c: Config, s: State, t: nat)
    requires Base(c, s) && s.now <= t && RefillerEnabled(s)
    requires s.refiller.FFill?
    ensures Inv(c, RefillerFill(s, t))
  {
  }

  lemma RefillerRecords(c: Config, s: State)
    requires Base(c, s) && s.refiller.FRecord?
    ensures Inv(c, RefillerRecord(s))
  {
  }

  lemma RefillerNotifies(c: Config, s: State, t: nat)
    requires Base(c, s) && s.now <= t && RefillerEnabled(s)
    requires s.refiller.FNotify?
    ensures Inv(c, RefillerNext(c, s, t))
  {
  }

  lemma RefillerTakes(c: Config, s: State, t: nat)
    requires Base(c, s) && s.now <= t && s.refiller.FCheck?
    requires !s.terminate && !s.allServed && s.refillQueue != []
    ensures Inv(c, RefillerCheck(s, t))
  {
  }

  lemma RefillerRests(c: Config, s: State, t: nat)
    requires Base(c, s) && s.now <= t && s.refiller.FCheck?
    requires !s.terminate && !s.allServed && s.refillQueue == []
    ensures Inv(c, RefillerCheck(s, t))
  {
  }

  lemma RefillerLeaves(c: Config, s: State, t: nat)
    requires Base(c, s) && s.now <= t && s.refiller.FCheck? && (s.terminate || s.allServed)
    ensures Inv(c, RefillerCheck(s, t))
  {
  }

  lemma StopFlags(c: Config, s: State, t: nat)
    requires Base(c, s) && s.now <= t && StopEnabled(s)
    requires s.stop.HIdle? || s.stop.HStamp? || s.stop.HLock?
    ensures Inv(c, StopNext(s, t))
  {
  }

  lemma StopEmpties(c: Config, s: State, t: nat)
    requires Base(c, s) && s.now <= t && StopEnabled(s)
    requires s.stop.HEmpty?
    ensures Inv(c, StopNext(s, t))
  {
  }

  lemma StopWakes(c: Config, s: State, t: nat)
    requires Base(c, s) && s.now <= t && StopEnabled(s)
    requires s.stop.HRefill?
    ensures Inv(c, StopNext(s, t))
  {
  }

  lemma CancelOrWake(c: Config, s: State, a: Action)
    requires Base(c, s) && Enabled(c, s, a)
    requires a.ReceiverDies? || a.RefillerDies? || a.RefillerSpurious?
    ensures Inv(c, Next(c, s, a))
  {
  }

  lemma SpuriousWake(c: Config, s: State, i: nat)
    requires Base(c, s) && i < |s.printers|
    ensures Inv(c, Put(s, i, Spurious(s.printers[i])))
  {
  }

  lemma PrinterKeeps(c: Config, s: State, i: nat, t: nat)
    requires Base(c, s) && s.now <= t && i < |s.printers| && PrinterEnabled(s, i)
    ensures Inv(c, PrinterNext(s, i, t))
  {
    match s.printers[i].pc {
      case PJobLock(_) => if Control.Takes(s, i) { PrinterTakes(c, s, i, t); } else { PrinterStays(c, s, i, t); }
      case PExitCheck(_) => PrinterLeaves(c, s, i, t);
      case PServed => PrinterLeaves(c, s, i, t);
      case PStart(_) => PrinterBegins(c, s, i, t);
      case PPrint(_) => PrinterServes(c, s, i, t);
      case PDepart(_) => PrinterDeparts(c, s, i);
      case PRefillWait(_, _, _) => PrinterWaits(c, s, i, t);
      case PRefillHold(_, _) => PrinterRechecks(c, s, i, t);
      case PRefillDone(_) => PrinterResumes(c, s, i, t);
      case PRefillLock(_) => PrinterRequests(c, s, i, t);
      case PExit => PrinterExits(c, s, i, t);
      case _ => PrinterPasses(c, s, i, t);
    }
  }

  lemma ReceiverKeeps(c: Config, s: State, t: nat, t2: nat, need: nat)
    requires Base(c, s) && s.now <= t <= t2 && ReceiverEnabled(c, s, need)
    ensures Inv(c, ReceiverNext(c, s, t, t2, need))
  {
    match s.receiver {
      case REnter(_) =>
        if c.queueCapacity != -1 && |s.queue| >= c.queueCapacity { ReceiverRefuses(c, s, t, t2); }
        else { ReceiverEnqueues(c, s, t, t2); }
      case RHold(_, _, _) => ReceiverRecords(c, s, t, t2, need);
      case RFinish => ReceiverEnds(c, s, t, t2, need);
      case RBroadcast => ReceiverEnds(c, s, t, t2, need);
      case RLoop => ReceiverArrives(c, s, t, t2, need);
      case RBroken => ReceiverBreaks(c, s);
      case _ => ReceiverStamps(c, s, t, t2, need);
    }
  }

  /** Every section of every thread keeps the invariant. */
  lemma NextKeeps(c: Config, s: State, a: Action)
    requires Base(c, s) && Enabled(c, s, a)
    ensures Inv(c, Next(c, s, a))
  {
    match a
    case PrinterRuns(i, t) => PrinterKeeps(c, s, i, t);
    case ReceiverRuns(t, t2, need) => ReceiverKeeps(c, s, t, t2, need);
    case RefillerRuns(t) =>
      match s.refiller {
        case FCheck =>
          if s.terminate || s.allServed { RefillerLeaves(c, s, t); }
          else if s.refillQueue != [] { RefillerTakes(c, s, t); }
          else { RefillerRests(c, s, t); }
        case FFill(_, _, _) => RefillerFills(c, s, t);
        case FRecord(_, _, _) => RefillerRecords(c, s);
        case FNotify => RefillerNotifies(c, s, t);
        case _ => RefillerLocks(c, s, t);
      }
    case StopRuns(t) =>
      match s.stop {
        case HEmpty => StopEmpties(c, s, t);
        case HRefill => StopWakes(c, s, t);
        case _ => StopFlags(c, s, t);
      }
    case PrinterSpurious(i) => SpuriousWake(c, s, i);
    case _ => CancelOrWake(c, s, a);
  }
}
