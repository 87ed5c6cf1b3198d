/** What a section of one thread leaves alone in the printers of the others. */
module Interference {
  import opened Records
  import opened Machine
  import opened Drain
  import Control
  import Refilling

  predicate Gone(pc: PrinterPc) { pc.PExit? || pc.PExited? }

  /** The printer may have been woken or refilled, nothing else. */
  predicate Untouched(p: Printer, p': Printer) {
    && p'.used == p.used && p'.printed == p.printed && p'.added >= p.added
    && p'.idle == p.idle && p'.lastDone == p.lastDone
    && (p'.pc == p.pc || p'.pc == WakeForJob(p).pc || p'.pc == WakeForPaper(p).pc)
  }

  /** The clock goes forward and the stop handler has not run; only a printer's exit requests a cancellation. */
  ghost predicate KeepsClock(s: State, s': State) {
    && s.now <= s'.now && s'.stats.start == s.stats.start && s'.stats.duration == s.stats.duration
    && s'.stop == s.stop && s'.receiverCancel == s.receiverCancel
    && (s.refillerCancel ==> s'.refillerCancel)
    && (s'.refillerCancel ==> s.refillerCancel || SomeExited(s'))
  }

  ghost predicate SomeExited(s: State) {
    exists i :: 0 <= i < |s.printers| && s.printers[i].pc.PExited?
  }

  /** The jobs served are the same, unless printer `x` has recorded the departure of its job. */
  predicate Serves(s: State, s': State, x: int) {
    || s'.hist.served == s.hist.served
    || (0 <= x < |s.printers| && s.printers[x].pc.PDepart?
        && s'.hist.served == s.hist.served + [Service(s.printers[x].pc.job, x)])
  }

  /** A section of printer `j` other than its exit changes no other printer; only a leaving printer
      sets the flag, and a printer that has left stays gone. */
  ghost predicate TouchesOwn(s: State, s': State, j: nat) {
    && j < |s.printers| == |s'.printers|
    && s'.printers == s.printers[j := s'.printers[j]]
    && (s'.allServed ==> s.allServed || Gone(s'.printers[j].pc))
    && (Gone(s.printers[j].pc) ==> Gone(s'.printers[j].pc))
    && Serves(s, s', j) && s'.terminate == s.terminate
    && (s'.printers[j].pc.PExited? ==> s.printers[j].pc.PExited?)
  }

  lemma PassingTouchesOwn(s: State, j: nat, t: nat)
    requires j < |s.printers| && s.now <= t
    requires var pc := s.printers[j].pc; pc.PTop? || pc.PJobWait? || pc.PAfter? || pc.PExitCheck? || pc.PServed?
    ensures TouchesOwn(s, PrinterNext(s, j, t), j) && KeepsClock(s, PrinterNext(s, j, t))
  {
  }

  lemma JobSectionTouchesOwn(s: State, j: nat, t: nat)
    requires j < |s.printers| && s.now <= t && s.printers[j].pc.PJobLock?
    ensures TouchesOwn(s, PrinterJobSection(s, j, t), j) && KeepsClock(s, PrinterJobSection(s, j, t))
  {
    if Control.Takes(s, j) {
      assert PrinterJobSection(s, j, t) == PrinterDequeue(s, j, t);
    } else {
      Control.OnlyMoves(s, j, t);
    }
  }

  lemma RefillingTouchesOwn(s: State, j: nat, t: nat)
    requires j < |s.printers| && s.now <= t
    requires var pc := s.printers[j].pc; pc.PRefillLock? || pc.PRefillWait? || pc.PRefillHold? || pc.PRefillDone?
    ensures TouchesOwn(s, PrinterNext(s, j, t), j) && KeepsClock(s, PrinterNext(s, j, t))
  {
  }

  lemma ServingTouchesOwn(s: State, j: nat, t: nat)
    requires j < |s.printers| && s.now <= t
    requires var pc := s.printers[j].pc; pc.PStart? || pc.PPrint? || pc.PDepart?
    ensures TouchesOwn(s, PrinterNext(s, j, t), j) && KeepsClock(s, PrinterNext(s, j, t))
  {
  }

  lemma PrinterTouchesOwn(s: State, j: nat, t: nat)
    requires j < |s.printers| && s.now <= t && PrinterEnabled(s, j) && !s.printers[j].pc.PExit?
    ensures TouchesOwn(s, PrinterNext(s, j, t), j) && KeepsClock(s, PrinterNext(s, j, t))
  {
    match s.printers[j].pc
    case PJobLock(_) => JobSectionTouchesOwn(s, j, t);
    case PRefillLock(_) => RefillingTouchesOwn(s, j, t);
    case PRefillWait(_, _, _) => RefillingTouchesOwn(s, j, t);
    case PRefillHold(_, _) => RefillingTouchesOwn(s, j, t);
    case PRefillDone(_) => RefillingTouchesOwn(s, j, t);
    case PStart(_) => ServingTouchesOwn(s, j, t);
    case PPrint(_) => ServingTouchesOwn(s, j, t);
    case PDepart(_) => ServingTouchesOwn(s, j, t);
    case _ => PassingTouchesOwn(s, j, t);
  }

  /** No printer but possibly `x` is more than woken or refilled. */
  ghost predicate LeavesAlone(s: State, s': State, x: int) {
    && |s'.printers| == |s.printers| && Serves(s, s', x) && s'.terminate == s.terminate
    && (s'.allServed ==> s.allServed || (0 <= x < |s.printers| && Gone(s'.printers[x].pc)))
    && forall i :: 0 <= i < |s.printers| && i != x ==> Untouched(s.printers[i], s'.printers[i])
  }

  lemma PrinterLeavesAlone(s: State, j: nat, t: nat)
    requires j < |s.printers| && s.now <= t && PrinterEnabled(s, j)
    ensures LeavesAlone(s, PrinterNext(s, j, t), j) && KeepsClock(s, PrinterNext(s, j, t))
    ensures Gone(s.printers[j].pc) ==> Gone(PrinterNext(s, j, t).printers[j].pc)
    ensures PrinterNext(s, j, t).printers[j].pc.PExited? ==> PrinterNext(s, j, t).refillerCancel
  {
    if !s.printers[j].pc.PExit? {
      PrinterTouchesOwn(s, j, t);
    }
  }

  lemma EnterLeavesAlone(c: Config, s: State, t: nat, t2: nat)
    requires s.now <= t <= t2 && s.receiver.REnter?
    ensures LeavesAlone(s, ReceiverEnter(c, s, t, t2), -1) && KeepsClock(s, ReceiverEnter(c, s, t, t2))
  {
    assert ReceiverEnter(c, s, t, t2).printers == s.printers;
  }

  lemma RecordLeavesAlone(s: State)
    requires s.receiver.RHold?
    ensures LeavesAlone(s, ReceiverRecord(s), -1) && KeepsClock(s, ReceiverRecord(s))
  {
  }

  lemma ArrivalLeavesAlone(c: Config, s: State, t: nat, t2: nat, need: nat)
    requires s.now <= t && (s.receiver.RStamp? || s.receiver.RCount? || s.receiver.RDrop? || s.receiver.RBroadcast?)
    ensures LeavesAlone(s, ReceiverNext(c, s, t, t2, need), -1) && KeepsClock(s, ReceiverNext(c, s, t, t2, need))
  {
  }

  lemma EndLeavesAlone(s: State, need: nat)
    ensures LeavesAlone(s, ReceiverReadFlag(s, need), -1) && KeepsClock(s, ReceiverReadFlag(s, need))
    ensures LeavesAlone(s, ReceiverBreak(s), -1) && KeepsClock(s, ReceiverBreak(s))
    ensures LeavesAlone(s, ReceiverFinish(s), -1) && KeepsClock(s, ReceiverFinish(s))
  {
  }

  lemma ReceiverLeavesAlone(c: Config, s: State, t: nat, t2: nat, need: nat)
    requires s.now <= t <= t2
    ensures LeavesAlone(s, ReceiverNext(c, s, t, t2, need), -1) && KeepsClock(s, ReceiverNext(c, s, t, t2, need))
  {
    match s.receiver
    case REnter(_) => EnterLeavesAlone(c, s, t, t2);
    case RHold(_, _, _) => RecordLeavesAlone(s);
    case RStamp(_) => ArrivalLeavesAlone(c, s, t, t2, need);
    case RCount(_) => ArrivalLeavesAlone(c, s, t, t2, need);
    case RDrop(_) => ArrivalLeavesAlone(c, s, t, t2, need);
    case RBroadcast => ArrivalLeavesAlone(c, s, t, t2, need);
    case _ => EndLeavesAlone(s, need);
  }

  lemma EmptyLeavesAlone(s: State, t: nat)
    ensures LeavesAlone(s, StopEmpty(s, t), -1)
  {
  }

  lemma WakeLeavesAlone(s: State)
    ensures LeavesAlone(s, StopWakeAll(s), -1)
  {
  }

  lemma StampLeavesAlone(s: State, t: nat)
    ensures LeavesAlone(s, StopStamp(s, t), -1) && LeavesAlone(s, StopLock(s), -1)
  {
  }

  lemma StopLeavesAlone(s: State, t: nat)
    requires !s.stop.HIdle?
    ensures LeavesAlone(s, StopNext(s, t), -1)
  {
    StampLeavesAlone(s, t);
    EmptyLeavesAlone(s, t);
    WakeLeavesAlone(s);
  }

  lemma FillLeavesAlone(c: Config, s: State, t: nat)
    requires Refilling.Papers(c, s) && s.now <= t && s.refiller.FFill? && s.refiller.i < |s.printers|
    ensures LeavesAlone(s, RefillerFill(s, t), -1) && KeepsClock(s, RefillerFill(s, t))
  {
    assert Refilling.Paper(c, s, s.refiller.i, s.printers[s.refiller.i]);
  }

  lemma CheckLeavesAlone(s: State, t: nat)
    requires s.now <= t
    ensures LeavesAlone(s, RefillerCheck(s, t), -1) && KeepsClock(s, RefillerCheck(s, t))
  {
  }

  lemma NotifyLeavesAlone(s: State)
    ensures LeavesAlone(s, RefillerNotify(s), -1) && KeepsClock(s, RefillerNotify(s))
  {
  }

  lemma RefillLeavesAlone(s: State)
    requires s.refiller.FRecord?
    ensures LeavesAlone(s, RefillerRecord(s), -1) && KeepsClock(s, RefillerRecord(s))
  {
  }

  lemma RefillerLeavesAlone(c: Config, s: State, t: nat)
    requires Refilling.Papers(c, s) && s.now <= t && RefillerEnabled(s)
    ensures LeavesAlone(s, RefillerNext(c, s, t), -1) && KeepsClock(s, RefillerNext(c, s, t))
  {
    match s.refiller
    case FCheck => CheckLeavesAlone(s, t);
    case FFill(_, _, _) => FillLeavesAlone(c, s, t);
    case FNotify => NotifyLeavesAlone(s);
    case FRecord(_, _, _) => RefillLeavesAlone(s);
    case _ =>
  }

  lemma NextLeavesAlone(c: Config, s: State, a: Action)
    requires Refilling.Papers(c, s) && Enabled(c, s, a) && (OfProgram(s, a) || Spontaneous(a))
    ensures LeavesAlone(s, Next(c, s, a), if a.PrinterRuns? then a.i else -1)
    ensures !a.StopRuns? ==> KeepsClock(s, Next(c, s, a))
    ensures a.PrinterRuns? && Gone(s.printers[a.i].pc) ==> Gone(Next(c, s, a).printers[a.i].pc)
    ensures a.PrinterRuns? && Next(c, s, a).printers[a.i].pc.PExited? ==> Next(c, s, a).refillerCancel
  {
    match a
    case PrinterRuns(j, t) => PrinterLeavesAlone(s, j, t);
    case ReceiverRuns(t, t2, need) => ReceiverLeavesAlone(c, s, t, t2, need);
    case RefillerRuns(t) => RefillerLeavesAlone(c, s, t);
    case StopRuns(t) => StopLeavesAlone(s, t);
    case _ =>
  }
}
