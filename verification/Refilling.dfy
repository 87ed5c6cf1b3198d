/** Refilling: each printer is at most once in the refill queue or in the refiller's hands, it does not
    print meanwhile, and a printer asleep for paper is served or was served and will be woken. */
module Refilling {
  import opened Records
  import opened Machine
  import opened Control
  import Timing

  /** The refiller has taken the request of printer `i` and not served it; it may have been cancelled. */
  predicate InFlight(pc: RefillerPc, i: nat) {
    (pc.FPlan? && pc.i == i) || (pc.FFill? && pc.i == i) || pc == FCancelled(i)
  }

  /** Printer `i` is waiting in the refill queue or is in the refiller's hands. */
  predicate Pending(s: State, i: nat) {
    i in s.refillQueue || InFlight(s.refiller, i)
  }

  ghost predicate Requests(s: State) {
    && (forall k :: 0 <= k < |s.refillQueue| ==> s.refillQueue[k] < |s.printers|)
    && (forall k, l :: 0 <= k < l < |s.refillQueue| ==> s.refillQueue[k] != s.refillQueue[l])
    && (forall i: nat :: InFlight(s.refiller, i) ==> i < |s.printers| && i !in s.refillQueue)
  }

  predicate WaitsForPaper(pc: PrinterPc) { pc.PRefillWait? || pc.PRefillHold? }

  ghost predicate Paper(c: Config, s: State, i: nat, p: Printer) {
    && 0 <= p.paper <= c.capacity
    && p.paper + p.used == c.capacity + p.added
    && (Pending(s, i) ==> (WaitsForPaper(p.pc) || HasLeft(p.pc)) && p.paper < c.maxNeed)
    && (WaitsForPaper(p.pc) ==> p.pc.need <= c.maxNeed)
    && (WaitsForPaper(p.pc) && Pending(s, i) ==> p.paper < p.pc.need)
    && (WaitsForPaper(p.pc) && !Pending(s, i) ==> p.paper == c.capacity)
    && (p.pc.PRefillWait? && !p.pc.signalled && !Pending(s, i) ==> s.refiller.FRecord? || s.refiller.FNotify?)
    && (p.pc.PRefillDone? ==> p.paper == c.capacity)
    && (p.pc.PRefillLock? ==> p.paper < p.pc.need <= c.maxNeed)
    && (p.pc.PStart? || p.pc.PPrint? ==> 1 <= p.pc.job.need <= p.paper)
    && (s.refiller.FFill? && s.refiller.i == i ==> s.refiller.papers == c.capacity - p.paper)
  }

  ghost predicate Papers(c: Config, s: State) {
    forall i :: 0 <= i < |s.printers| ==> Paper(c, s, i, s.printers[i])
  }

  ghost predicate Inv(c: Config, s: State) {
    Requests(s) && Papers(c, s)
  }

  ghost predicate Base(c: Config, s: State) {
    c.Valid() && Control.Shape(c, s) && Timing.Queue(c, s) && Inv(c, s)
  }

  lemma InitKeeps(c: Config, created: nat, start: nat)
    requires c.Valid()
    ensures Inv(c, Init(c, created, start))
  {
  }

  // ---- printer sections ----

  lemma PrinterPasses(c: Config, s: State, i: nat, t: nat)
    requires Base(c, s) && s.now <= t && i < |s.printers| && PrinterEnabled(s, i)
    requires s.printers[i].pc.PTop? || s.printers[i].pc.PJobWait? || s.printers[i].pc.PAfter?
    ensures Inv(c, PrinterNext(s, i, t))
  {
  }

  lemma PrinterLeaves(c: Config, s: State, i: nat, t: nat)
    requires Base(c, s) && s.now <= t && i < |s.printers| && PrinterEnabled(s, i)
    requires s.printers[i].pc.PExitCheck? || s.printers[i].pc.PServed?
    ensures Inv(c, PrinterNext(s, i, t))
  {
  }

  lemma PrinterDeparts(c: Config, s: State, i: nat)
    requires Base(c, s) && i < |s.printers| && s.printers[i].pc.PDepart?
    ensures Inv(c, PrinterDepart(s, i))
  {
  }

  lemma PrinterServes(c: Config, s: State, i: nat, t: nat)
    requires Base(c, s) && s.now <= t && i < |s.printers| && PrinterEnabled(s, i)
    requires s.printers[i].pc.PPrint?
    ensures Inv(c, PrinterPrint(s, i, t))
  {
  }

  lemma PrinterBegins(c: Config, s: State, i: nat, t: nat)
    requires Base(c, s) && s.now <= t && i < |s.printers| && s.printers[i].pc.PStart?
    ensures Inv(c, PrinterBegin(s, i, t))
  {
  }

  lemma PrinterWaits(c: Config, s: State, i: nat, t: nat)
    requires Base(c, s) && s.now <= t && i < |s.printers| && PrinterEnabled(s, i)
    requires s.printers[i].pc.PRefillWait?
    ensures Inv(c, PrinterPaperWoken(s, i))
  {
  }

  lemma PrinterResumes(c: Config, s: State, i: nat, t: nat)
    requires Base(c, s) && s.now <= t && i < |s.printers| && s.printers[i].pc.PRefillDone?
    ensures Inv(c, PrinterPaperStats(s, i, t))
  {
  }

  lemma PrinterRechecks(c: Config, s: State, i: nat, t: nat)
    requires Base(c, s) && s.now <= t && i < |s.printers| && PrinterEnabled(s, i)
    requires s.printers[i].pc.PRefillHold?
    ensures Inv(c, PrinterNext(s, i, t))
  {
  }

  lemma PrinterRequests(c: Config, s: State, i: nat, t: nat)
    requires Base(c, s) && i < |s.printers| && s.printers[i].pc.PRefillLock?
    ensures Inv(c, PrinterRequest(s, i, t))
  {
  }

  lemma PrinterExits(c: Config, s: State, i: nat, t: nat)
    requires Base(c, s) && s.now <= t && i < |s.printers| && PrinterEnabled(s, i)
    requires s.printers[i].pc.PExit?
    ensures Inv(c, PrinterNext(s, i, t))
  {
  }

  lemma PrinterMoves(c: Config, s: State, i: nat, pc: PrinterPc)
    requires Base(c, s) && i < |s.printers| && s.jobOwner.Free? && s.printers[i].pc.PJobLock? && GoesTo(s, i, pc)
    ensures Inv(c, Put(s, i, s.printers[i].(pc := pc)))
  {
  }

  lemma PrinterStays(c: Config, s: State, i: nat, t: nat)
    requires Base(c, s) && s.now <= t && i < |s.printers| && PrinterEnabled(s, i)
    requires s.printers[i].pc.PJobLock? && !Takes(s, i)
    ensures Inv(c, PrinterJobSection(s, i, t))
  {
    OnlyMoves(s, i, t);
    PrinterMoves(c, s, i, Looked(s, i));
  }

  lemma PrinterTakes(c: Config, s: State, i: nat, t: nat)
    requires Base(c, s) && s.now <= t && i < |s.printers| && PrinterEnabled(s, i)
    requires s.printers[i].pc.PJobLock? && Takes(s, i)
    ensures Inv(c, PrinterDequeue(s, i, t))
  {
  }

  // ---- receiver sections ----

  lemma ReceiverArrives(c: Config, s: State, t: nat, t2: nat, need: nat)
    requires Base(c, s) && s.now <= t <= t2 && ReceiverEnabled(c, s, need)
    requires s.receiver.RLoop?
    ensures Inv(c, ReceiverNext(c, s, t, t2, need))
  {
    if s.index < c.jobs {
      assert ReceiverNext(c, s, t, t2, need) == ReceiverReadFlag(s, need);
    } else {
      assert ReceiverNext(c, s, t, t2, need) == ReceiverFinish(s);
    }
  }

  lemma ReceiverBreaks(c: Config, s: State)
    requires Base(c, s) && s.receiver.RBroken?
    ensures Inv(c, ReceiverBreak(s))
  {
  }

  lemma ReceiverStamps(c: Config, s: State, t: nat, t2: nat, need: nat)
    requires Base(c, s) && s.now <= t <= t2 && ReceiverEnabled(c, s, need)
    requires s.receiver.RStamp? || s.receiver.RCount? || s.receiver.RDrop?
    ensures Inv(c, ReceiverNext(c, s, t, t2, need))
  {
  }

  lemma ReceiverRecords(c: Config, s: State, t: nat, t2: nat, need: nat)
    requires Base(c, s) && s.now <= t <= t2 && ReceiverEnabled(c, s, need)
    requires s.receiver.RHold?
    ensures Inv(c, ReceiverNext(c, s, t, t2, need))
  {
  }

  lemma ReceiverEnds(c: Config, s: State, t: nat, t2: nat, need: nat)
    requires Base(c, s) && s.now <= t <= t2 && ReceiverEnabled(c, s, need)
    requires s.receiver.RFinish? || s.receiver.RBroadcast?
    ensures Inv(c, ReceiverNext(c, s, t, t2, need))
  {
  }

  lemma ReceiverEnqueues(c: Config, s: State, t: nat, t2: nat)
    requires Base(c, s) && s.now <= t <= t2 && s.jobOwner.Free? && s.receiver.REnter?
    requires c.queueCapacity == -1 || |s.queue| < c.queueCapacity
    ensures Inv(c, ReceiverEnter(c, s, t, t2))
  {
  }

  lemma ReceiverRefuses(c: Config, s: State, t: nat, t2: nat)
    requires Base(c, s) && s.now <= t <= t2 && s.jobOwner.Free? && s.receiver.REnter?
    requires c.queueCapacity != -1 && |s.queue| >= c.queueCapacity
    ensures Inv(c, ReceiverEnter(c, s, t, t2))
  {
  }

  // ---- refiller and stop handler sections ----

  lemma RefillerLocks(c: Config, s: State, t: nat)
    requires Base(c, s) && s.now <= t && RefillerEnabled(s)
    requires s.refiller.FLock? || s.refiller.FWait? || s.refiller.FPlan?
    ensures Inv(c, RefillerNext(c, s, t))
  {
  }

  lemma RefillerFills(c: Config, s: State, t: nat)
    requires Base(c, s) && s.now <= t && RefillerEnabled(s)
    requires s.refiller.FFill?
    ensures Inv(c, RefillerFill(s, t))
  {
  }

  lemma RefillerRecords(c: Config, s: State)
    requires Base(c, s) && s.refiller.FRecord?
    ensures Inv(c, RefillerRecord(s))
  {
  }

  lemma RefillerNotifies(c: Config, s: State, t: nat)
    requires Base(c, s) && s.now <= t && RefillerEnabled(s)
    requires s.refiller.FNotify?
    ensures Inv(c, RefillerNext(c, s, t))
  {
  }

  lemma RefillerTakes(c: Config, s: State, t: nat)
    requires Base(c, s) && s.now <= t && s.refiller.FCheck?
    requires !s.terminate && !s.allServed && s.refillQueue != []
    ensures Inv(c, RefillerCheck(s, t))
  {
  }

  lemma RefillerRests(c: Config, s: State, t: nat)
    requires Base(c, s) && s.now <= t && s.refiller.FCheck?
    requires s.terminate || s.allServed || s.refillQueue == []
    ensures Inv(c, RefillerCheck(s, t))
  {
  }

  lemma StopFlags(c: Config, s: State, t: nat)
    requires Base(c, s) && s.now <= t && StopEnabled(s)
    requires s.stop.HIdle? || s.stop.HStamp? || s.stop.HLock?
    ensures Inv(c, StopNext(s, t))
  {
  }

  lemma StopEmpties(c: Config, s: State, t: nat)
    requires Base(c, s) && s.now <= t && StopEnabled(s)
    requires s.stop.HEmpty?
    ensures Inv(c, StopNext(s, t))
  {
  }

  lemma StopWakes(c: Config, s: State, t: nat)
    requires Base(c, s) && s.now <= t && StopEnabled(s)
    requires s.stop.HRefill?
    ensures Inv(c, StopNext(s, t))
  {
  }

  lemma CancelOrWake(c: Config, s: State, a: Action)
    requires Base(c, s) && Enabled(c, s, a)
    requires a.ReceiverDies? || a.RefillerDies? || a.RefillerSpurious?
    ensures Inv(c, Next(c, s, a))
  {
    assert forall i: nat :: InFlight(Next(c, s, a).refiller, i) <==> InFlight(s.refiller, i);
  }

  lemma SpuriousWake(c: Config, s: State, i: nat)
    requires Base(c, s) && i < |s.printers|
    ensures Inv(c, Put(s, i, Spurious(s.printers[i])))
  {
  }

  lemma PrinterKeeps(c: Config, s: State, i: nat, t: nat)
    requires Base(c, s) && s.now <= t && i < |s.printers| && PrinterEnabled(s, i)
    ensures Inv(c, PrinterNext(s, i, t))
  {
    match s.printers[i].pc {
      case PJobLock(_) => if Takes(s, i) { PrinterTakes(c, s, i, t); } else { PrinterStays(c, s, i, t); }
      case PExitCheck(_) => PrinterLeaves(c, s, i, t);
      case PServed => PrinterLeaves(c, s, i, t);
      case PStart(_) => PrinterBegins(c, s, i, t);
      case PPrint(_) => PrinterServes(c, s, i, t);
      case PDepart(_) => PrinterDeparts(c, s, i);
      case PRefillWait(_, _, _) => PrinterWaits(c, s, i, t);
      case PRefillHold(_, _) => PrinterRechecks(c, s, i, t);
      case PRefillDone(_) => PrinterResumes(c, s, i, t);
      case PRefillLock(_) => PrinterRequests(c, s, i, t);
      case PExit => PrinterExits(c, s, i, t);
      case _ => PrinterPasses(c, s, i, t);
    }
  }

  lemma ReceiverKeeps(c: Config, s: State, t: nat, t2: nat, need: nat)
    requires Base(c, s) && s.now <= t <= t2 && ReceiverEnabled(c, s, need)
    ensures Inv(c, ReceiverNext(c, s, t, t2, need))
  {
    match s.receiver {
      case REnter(_) =>
        if c.queueCapacity != -1 && |s.queue| >= c.queueCapacity { ReceiverRefuses(c, s, t, t2); }
        else { ReceiverEnqueues(c, s, t, t2); }
      case RHold(_, _, _) => ReceiverRecords(c, s, t, t2, need);
      case RFinish => ReceiverEnds(c, s, t, t2, need);
      case RBroadcast => ReceiverEnds(c, s, t, t2, need);
      case RLoop => ReceiverArrives(c, s, t, t2, need);
      case RBroken => ReceiverBreaks(c, s);
      case _ => ReceiverStamps(c, s, t, t2, need);
    }
  }

  /** Every section of every thread keeps the invariant. */
  lemma NextKeeps(c: Config, s: State, a: Action)
    requires Base(c, s) && Enabled(c, s, a)
    ensures Inv(c, Next(c, s, a))
  {
    match a
    case PrinterRuns(i, t) => PrinterKeeps(c, s, i, t);
    case ReceiverRuns(t, t2, need) => ReceiverKeeps(c, s, t, t2, need);
    case RefillerRuns(t) =>
      match s.refiller {
        case FCheck =>
          if !s.terminate && !s.allServed && s.refillQueue != [] { RefillerTakes(c, s, t); }
          else { RefillerRests(c, s, t); }
        case FFill(_, _, _) => RefillerFills(c, s, t);
        case FRecord(_, _, _) => RefillerRecords(c, s);
        case FNotify => RefillerNotifies(c, s, t);
        case _ => RefillerLocks(c, s, t);
      }
    case StopRuns(t) =>
      match s.stop {
        case HEmpty => StopEmpties(c, s, t);
        case HRefill => StopWakes(c, s, t);
        case _ => StopFlags(c, s, t);
      }
    case PrinterSpurious(i) => SpuriousWake(c, s, i);
    case _ => CancelOrWake(c, s, a);
  }
}
