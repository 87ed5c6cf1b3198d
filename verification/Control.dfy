/** Control invariants: who holds which mutex, what the flags mean, and no lost wake-up on the job
    queue or on the refill queue. */
module Control {
  import opened Records
  import opened Machine

  ghost predicate Shape(c: Config, s: State) {
    && |s.printers| == c.printers
    && |s.stats.perPrinter| == MAX_PRINTERS
    && s.index <= c.jobs
    && (InIteration(s.receiver) ==> s.index < c.jobs)
  }

  predicate InIteration(pc: ReceiverPc) {
    pc.RStamp? || pc.RCount? || pc.REnter? || pc.RHold? || pc.RDrop?
  }

  /** A mutex is held between sections exactly by the thread whose program counter says so. */
  ghost predicate Locks(s: State) {
    && (s.jobOwner.ByReceiver? <==> s.receiver.RHold?)
    && (s.jobOwner.ByStop? <==> s.stop.HEmpty?)
    && (s.jobOwner.Free? || s.jobOwner.ByReceiver? || s.jobOwner.ByStop?)
    && (s.refillOwner.ByRefiller? <==> s.refiller.FCheck?)
    && (forall i :: 0 <= i < |s.printers| ==> (s.printers[i].pc.PRefillHold? <==> s.refillOwner == ByPrinter(i)))
    && (s.refillOwner.Free? || s.refillOwner.ByRefiller?
        || (s.refillOwner.ByPrinter? && s.refillOwner.i < |s.printers|))
  }

  predicate HasLeft(pc: PrinterPc) { pc.PServed? || pc.PExit? || pc.PExited? }

  ghost predicate Flags(c: Config, s: State) {
    && (s.terminate <==> !s.stop.HIdle?)
    && (s.terminate ==> s.allArrived)
    && (s.receiverCancel ==> s.terminate)
    && (s.receiver.RBroken? || s.receiver.RFinish? || s.receiver.RCancelled? ==> s.terminate)
    && (!s.terminate ==> (s.allArrived <==> s.receiver.RBroadcast? || s.receiver.RDone?))
    && (s.receiver.RBroadcast? || s.receiver.RDone? ==> s.allArrived)
    && (!s.terminate && s.allArrived ==> s.index == c.jobs)
    && (s.refillerCancel ==> s.terminate || s.allServed)
    && (s.refiller.FExited? || s.refiller.FCancelled? ==> s.terminate || s.allServed)
  }

  /** What a printer's program counter says about the flags. */
  ghost predicate PrinterFlags(s: State, pc: PrinterPc) {
    && (pc.PJobLock? && pc.term ==> s.terminate)
    && (pc.PExitCheck? && pc.arrived ==> s.allArrived)
    && (pc.PExit? || pc.PExited? ==> s.allServed)
    && (HasLeft(pc) ==> s.terminate || (s.allArrived && s.queue == []))
  }

  ghost predicate Exits(s: State) {
    && (forall i :: 0 <= i < |s.printers| ==> PrinterFlags(s, s.printers[i].pc))
    && (s.allServed ==> s.terminate || (s.allArrived && s.queue == []))
  }

  /** The receiver or the stop handler will still broadcast on the job queue. */
  predicate OwesJobBroadcast(s: State) {
    || s.receiver.RFinish? || s.receiver.RBroadcast?
    || s.stop.HStamp? || s.stop.HLock? || s.stop.HEmpty?
  }

  /** A printer asleep on the job queue has nothing to do, and will be woken when the run ends. */
  ghost predicate JobWakeups(s: State) {
    forall i :: 0 <= i < |s.printers| && s.printers[i].pc == PJobWait(false) ==>
      && (s.queue == [] || s.receiver.RHold?)
      && (s.allArrived ==> OwesJobBroadcast(s))
  }

  /** A leaving printer or the stop handler will still broadcast to the refiller. */
  ghost predicate OwesRefillBroadcast(s: State) {
    || s.stop.HStamp? || s.stop.HLock? || s.stop.HEmpty? || s.stop.HRefill?
    || exists i :: 0 <= i < |s.printers| && s.printers[i].pc.PExit?
  }

  ghost predicate RefillerWakeups(s: State) {
    s.refiller == FWait(false) ==>
      && s.refillQueue == []
      && (s.terminate || s.allServed ==> OwesRefillBroadcast(s))
  }

  predicate BeforeEmpty(pc: StopPc) { pc.HIdle? || pc.HStamp? || pc.HLock? || pc.HEmpty? }

  /** The receiver has passed its stop check and has not yet enqueued or dropped the job. */
  predicate MayEnqueue(pc: ReceiverPc) { pc.RStamp? || pc.RCount? || pc.REnter? }

  /** After the stop handler emptied the queue at most one job is in it or on its way. */
  ghost predicate AfterStop(s: State) {
    !BeforeEmpty(s.stop) ==> |s.queue| + (if MayEnqueue(s.receiver) then 1 else 0) <= 1
  }

  ghost predicate Inv(c: Config, s: State) {
    && Shape(c, s) && Locks(s) && Flags(c, s) && Exits(s)
    && JobWakeups(s) && RefillerWakeups(s) && AfterStop(s)
  }

  lemma InitKeeps(c: Config, created: nat, start: nat)
    ensures Inv(c, Init(c, created, start))
  {
  }

  // ---- printer sections ----

  lemma PrinterPasses(c: Config, s: State, i: nat, t: nat)
    requires Inv(c, s) && s.now <= t && i < |s.printers| && PrinterEnabled(s, i)
    requires s.printers[i].pc.PTop? || s.printers[i].pc.PJobWait? || s.printers[i].pc.PAfter?
    ensures Inv(c, PrinterNext(s, i, t))
  {
  }

  lemma PrinterLeaves(c: Config, s: State, i: nat, t: nat)
    requires Inv(c, s) && s.now <= t && i < |s.printers| && PrinterEnabled(s, i)
    requires s.printers[i].pc.PExitCheck? || s.printers[i].pc.PServed? || s.printers[i].pc.PDepart?
    ensures Inv(c, PrinterNext(s, i, t))
  {
  }

  lemma PrinterServes(c: Config, s: State, i: nat, t: nat)
    requires Inv(c, s) && s.now <= t && i < |s.printers| && PrinterEnabled(s, i)
    requires s.printers[i].pc.PStart? || s.printers[i].pc.PPrint?
    ensures Inv(c, PrinterNext(s, i, t))
  {
  }

  lemma PrinterWaits(c: Config, s: State, i: nat, t: nat)
    requires Inv(c, s) && s.now <= t && i < |s.printers| && PrinterEnabled(s, i)
    requires s.printers[i].pc.PRefillWait? || s.printers[i].pc.PRefillDone?
    ensures Inv(c, PrinterNext(s, i, t))
  {
  }

  lemma PrinterRechecks(c: Config, s: State, i: nat, t: nat)
    requires Inv(c, s) && s.now <= t && i < |s.printers| && PrinterEnabled(s, i)
    requires s.printers[i].pc.PRefillHold?
    ensures Inv(c, PrinterNext(s, i, t))
  {
  }

  lemma PrinterRequests(c: Config, s: State, i: nat, t: nat)
    requires Inv(c, s) && s.now <= t && i < |s.printers| && PrinterEnabled(s, i)
    requires s.printers[i].pc.PRefillLock?
    ensures Inv(c, PrinterNext(s, i, t))
  {
  }

  lemma PrinterExits(c: Config, s: State, i: nat, t: nat)
    requires Inv(c, s) && s.now <= t && i < |s.printers| && PrinterEnabled(s, i)
    requires s.printers[i].pc.PExit?
    ensures Inv(c, PrinterNext(s, i, t))
  {
  }

  /** The printer takes the job at the front. */
  predicate Takes(s: State, i: nat)
    requires i < |s.printers| && s.printers[i].pc.PJobLock?
  {
    !s.printers[i].pc.term && s.queue != [] && s.queue[0].need <= s.printers[i].paper
  }

  /** Where a printer that takes no job goes: out, to sleep, or to the refill queue. */
  predicate GoesTo(s: State, i: nat, pc: PrinterPc)
    requires i < |s.printers| && s.printers[i].pc.PJobLock?
  {
    || (pc.PServed? && (s.printers[i].pc.term || (s.allArrived && s.queue == [])))
    || (pc == PJobWait(false) && s.queue == [] && !s.allArrived)
    || (pc.PRefillLock? && s.queue != [] && pc.need == s.queue[0].need > s.printers[i].paper)
  }

  lemma PrinterMoves(c: Config, s: State, i: nat, pc: PrinterPc)
    requires Inv(c, s) && i < |s.printers| && s.jobOwner.Free? && s.printers[i].pc.PJobLock? && GoesTo(s, i, pc)
    ensures Inv(c, Put(s, i, s.printers[i].(pc := pc)))
  {
  }

  /** The program counter of a printer that takes no job. */
  function Looked(s: State, i: nat): PrinterPc
    requires i < |s.printers| && s.printers[i].pc.PJobLock?
  {
    if s.printers[i].pc.term || (s.allArrived && s.queue == []) then PServed
    else if s.queue == [] then PJobWait(false)
    else PRefillLock(s.queue[0].need)
  }

  lemma OnlyMoves(s: State, i: nat, t: nat)
    requires i < |s.printers| && s.printers[i].pc.PJobLock? && !Takes(s, i)
    ensures PrinterJobSection(s, i, t) == Put(s, i, s.printers[i].(pc := Looked(s, i)))
    ensures GoesTo(s, i, Looked(s, i))
  {
  }

  lemma PrinterStays(c: Config, s: State, i: nat, t: nat)
    requires Inv(c, s) && s.now <= t && i < |s.printers| && PrinterEnabled(s, i)
    requires s.printers[i].pc.PJobLock? && !Takes(s, i)
    ensures Inv(c, PrinterJobSection(s, i, t))
  {
    OnlyMoves(s, i, t);
    PrinterMoves(c, s, i, Looked(s, i));
  }

  lemma PrinterTakes(c: Config, s: State, i: nat, t: nat)
    requires Inv(c, s) && s.now <= t && i < |s.printers| && PrinterEnabled(s, i)
    requires s.printers[i].pc.PJobLock? && Takes(s, i)
    ensures Inv(c, PrinterDequeue(s, i, t))
  {
  }

  // ---- receiver sections ----

  lemma ReceiverArrives(c: Config, s: State, t: nat, t2: nat, need: nat)
    requires Inv(c, s) && s.now <= t <= t2 && ReceiverEnabled(c, s, need)
    requires s.receiver.RLoop? || s.receiver.RBroken?
    ensures Inv(c, ReceiverNext(c, s, t, t2, need))
  {
  }

  lemma ReceiverStamps(c: Config, s: State, t: nat, t2: nat, need: nat)
    requires Inv(c, s) && s.now <= t <= t2 && ReceiverEnabled(c, s, need)
    requires s.receiver.RStamp? || s.receiver.RCount? || s.receiver.RDrop?
    ensures Inv(c, ReceiverNext(c, s, t, t2, need))
  {
  }

  lemma ReceiverRecords(c: Config, s: State, t: nat, t2: nat, need: nat)
    requires Inv(c, s) && s.now <= t <= t2 && ReceiverEnabled(c, s, need)
    requires s.receiver.RHold?
    ensures Inv(c, ReceiverNext(c, s, t, t2, need))
  {
  }

  lemma ReceiverEnds(c: Config, s: State, t: nat, t2: nat, need: nat)
    requires Inv(c, s) && s.now <= t <= t2 && ReceiverEnabled(c, s, need)
    requires s.receiver.RFinish? || s.receiver.RBroadcast?
    ensures Inv(c, ReceiverNext(c, s, t, t2, need))
  {
  }

  lemma ReceiverEnqueues(c: Config, s: State, t: nat, t2: nat)
    requires Inv(c, s) && s.now <= t <= t2 && s.jobOwner.Free? && s.receiver.REnter?
    requires c.queueCapacity == -1 || |s.queue| < c.queueCapacity
    ensures Inv(c, ReceiverEnter(c, s, t, t2))
  {
  }

  lemma ReceiverRefuses(c: Config, s: State, t: nat, t2: nat)
    requires Inv(c, s) && s.now <= t <= t2 && s.jobOwner.Free? && s.receiver.REnter?
    requires c.queueCapacity != -1 && |s.queue| >= c.queueCapacity
    ensures Inv(c, ReceiverEnter(c, s, t, t2))
  {
  }

  // ---- refiller and stop handler sections ----

  lemma RefillerLocks(c: Config, s: State, t: nat)
    requires Inv(c, s) && s.now <= t && RefillerEnabled(s)
    requires s.refiller.FLock? || s.refiller.FWait? || s.refiller.FPlan?
    ensures Inv(c, RefillerNext(c, s, t))
  {
  }

  lemma RefillerFills(c: Config, s: State, t: nat)
    requires Inv(c, s) && s.now <= t && RefillerEnabled(s)
    requires s.refiller.FFill? || s.refiller.FRecord?
    ensures Inv(c, RefillerNext(c, s, t))
  {
  }

  lemma RefillerNotifies(c: Config, s: State, t: nat)
    requires Inv(c, s) && s.now <= t && RefillerEnabled(s)
    requires s.refiller.FNotify?
    ensures Inv(c, RefillerNext(c, s, t))
  {
  }

  lemma RefillerTakes(c: Config, s: State, t: nat)
    requires Inv(c, s) && s.now <= t && s.refiller.FCheck?
    requires !s.terminate && !s.allServed && s.refillQueue != []
    ensures Inv(c, RefillerCheck(s, t))
  {
  }

  lemma RefillerRests(c: Config, s: State, t: nat)
    requires Inv(c, s) && s.now <= t && s.refiller.FCheck?
    requires s.terminate || s.allServed || s.refillQueue == []
    ensures Inv(c, RefillerCheck(s, t))
  {
  }

  lemma StopFlags(c: Config, s: State, t: nat)
    requires Inv(c, s) && s.now <= t && StopEnabled(s)
    requires s.stop.HIdle? || s.stop.HStamp? || s.stop.HLock?
    ensures Inv(c, StopNext(s, t))
  {
  }

  lemma StopEmpties(c: Config, s: State, t: nat)
    requires Inv(c, s) && s.now <= t && StopEnabled(s)
    requires s.stop.HEmpty?
    ensures Inv(c, StopNext(s, t))
  {
  }

  lemma StopWakes(c: Config, s: State, t: nat)
    requires Inv(c, s) && s.now <= t && StopEnabled(s)
    requires s.stop.HRefill?
    ensures Inv(c, StopNext(s, t))
  {
  }

  lemma CancelOrWake(c: Config, s: State, a: Action)
    requires Inv(c, s) && Enabled(c, s, a)
    requires a.ReceiverDies? || a.RefillerDies? || a.RefillerSpurious?
    ensures Inv(c, Next(c, s, a))
  {
  }

  lemma SpuriousWake(c: Config, s: State, i: nat)
    requires Inv(c, s) && i < |s.printers|
    ensures Inv(c, Put(s, i, Spurious(s.printers[i])))
  {
  }

  lemma PrinterKeeps(c: Config, s: State, i: nat, t: nat)
    requires Inv(c, s) && s.now <= t && i < |s.printers| && PrinterEnabled(s, i)
    ensures Inv(c, PrinterNext(s, i, t))
  {
    match s.printers[i].pc {
      case PJobLock(_) => if Takes(s, i) { PrinterTakes(c, s, i, t); } else { PrinterStays(c, s, i, t); }
      case PExitCheck(_) => PrinterLeaves(c, s, i, t);
      case PServed => PrinterLeaves(c, s, i, t);
      case PStart(_) => PrinterServes(c, s, i, t);
      case PPrint(_) => PrinterServes(c, s, i, t);
      case PDepart(_) => PrinterLeaves(c, s, i, t);
      case PRefillWait(_, _, _) => PrinterWaits(c, s, i, t);
      case PRefillHold(_, _) => PrinterRechecks(c, s, i, t);
      case PRefillDone(_) => PrinterWaits(c, s, i, t);
      case PRefillLock(_) => PrinterRequests(c, s, i, t);
      case PExit => PrinterExits(c, s, i, t);
      case _ => PrinterPasses(c, s, i, t);
    }
  }

  lemma ReceiverKeeps(c: Config, s: State, t: nat, t2: nat, need: nat)
    requires Inv(c, s) && s.now <= t <= t2 && ReceiverEnabled(c, s, need)
    ensures Inv(c, ReceiverNext(c, s, t, t2, need))
  {
    match s.receiver {
      case REnter(_) =>
        if c.queueCapacity != -1 && |s.queue| >= c.queueCapacity { ReceiverRefuses(c, s, t, t2); }
        else { ReceiverEnqueues(c, s, t, t2); }
      case RHold(_, _, _) => ReceiverRecords(c, s, t, t2, need);
      case RFinish => ReceiverEnds(c, s, t, t2, need);
      case RBroadcast => ReceiverEnds(c, s, t, t2, need);
      case RLoop => ReceiverArrives(c, s, t, t2, need);
      case RBroken => ReceiverArrives(c, s, t, t2, need);
      case _ => ReceiverStamps(c, s, t, t2, need);
    }
  }

  /** Every section of every thread keeps the invariant. */
  lemma NextKeeps(c: Config, s: State, a: Action)
    requires Inv(c, s) && Enabled(c, s, a)
    ensures Inv(c, Next(c, s, a))
  {
    match a
    case PrinterRuns(i, t) => PrinterKeeps(c, s, i, t);
    case ReceiverRuns(t, t2, need) => ReceiverKeeps(c, s, t, t2, need);
    case RefillerRuns(t) =>
      match s.refiller {
        case FCheck =>
          if !s.terminate && !s.allServed && s.refillQueue != [] { RefillerTakes(c, s, t); }
          else { RefillerRests(c, s, t); }
        case FFill(_, _, _) => RefillerFills(c, s, t);
        case FRecord(_, _, _) => RefillerFills(c, s, t);
        case FNotify => RefillerNotifies(c, s, t);
        case _ => RefillerLocks(c, s, t);
      }
    case StopRuns(t) =>
      match s.stop {
        case HEmpty => StopEmpties(c, s, t);
        case HRefill => StopWakes(c, s, t);
        case _ => StopFlags(c, s, t);
      }
    case PrinterSpurious(i) => SpuriousWake(c, s, i);
    case _ => CancelOrWake(c, s, a);
  }
}
