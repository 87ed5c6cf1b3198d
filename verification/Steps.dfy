/** Laws of a single step, over every action: timestamps are readings of the clock at the moment they are
    taken, printers leave for the three reasons there are, and a broadcast wakes everybody. */
module Steps {
  import opened Records
  import opened Machine
  import Control

  // ---- timestamps ----

  /** What printer `i` stamps when it runs at time `t`, what it reads of the flags, and what it carries over. */
  ghost predicate PrinterStamps(s: State, s': State, i: nat, t: nat) {
    && i < |s.printers| && i < |s'.printers|
    && var p, q := s.printers[i].pc, s'.printers[i].pc;
    && (q.PStart? && !p.PStart? ==>
        s.queue != [] && q.job == s.queue[0].(queueDeparture := s'.now) && s'.now == s'.last == t)
    && (q.PPrint? && !p.PPrint? ==> p.PStart? && q.job == p.job.(serviceArrival := s'.now) && s'.now == t)
    && (q.PDepart? && !p.PDepart? ==> p.PPrint? && q.job == p.job.(serviceDeparture := s'.now) && s'.now == t)
    && (p.PTop? ==> q == PJobLock(s.terminate))
    && (p.PAfter? ==> q == PExitCheck(s.allArrived))
    && (p.PRefillLock? && q.PRefillWait? ==> q.since == s'.now == t && q.need == p.need)
    && ((p.PRefillWait? || p.PRefillHold?) && (q.PRefillWait? || q.PRefillHold? || q.PRefillDone?) ==> q.since == p.since)
    && (p.PRefillDone? ==>
        s'.now == t && s'.supply.waits == s.supply.waits + [PaperWait(i, p.since, s'.now)])
    && (!p.PRefillDone? ==> s'.supply.waits == s.supply.waits)
    && s'.supply.refills == s.supply.refills
    && (s'.now == s.now || s'.now == t)
  }

  lemma PassingStamps(s: State, i: nat, t: nat)
    requires i < |s.printers|
    requires var pc := s.printers[i].pc; pc.PTop? || pc.PJobWait? || pc.PAfter? || pc.PExitCheck? || pc.PServed?
    ensures PrinterStamps(s, PrinterNext(s, i, t), i, t)
  {
  }

  lemma JobSectionStamps(s: State, i: nat, t: nat)
    requires i < |s.printers| && s.printers[i].pc.PJobLock?
    ensures PrinterStamps(s, PrinterJobSection(s, i, t), i, t)
  {
    if Control.Takes(s, i) {
      assert PrinterJobSection(s, i, t) == PrinterDequeue(s, i, t);
    } else {
      Control.OnlyMoves(s, i, t);
    }
  }

  lemma RequestStamps(s: State, i: nat, t: nat)
    requires i < |s.printers| && s.printers[i].pc.PRefillLock?
    ensures PrinterStamps(s, PrinterRequest(s, i, t), i, t)
  {
  }

  lemma RefillingStamps(s: State, i: nat, t: nat)
    requires i < |s.printers|
    requires var pc := s.printers[i].pc; pc.PRefillWait? || pc.PRefillHold? || pc.PRefillDone?
    ensures PrinterStamps(s, PrinterNext(s, i, t), i, t)
  {
  }

  lemma ServingStamps(s: State, i: nat, t: nat)
    requires i < |s.printers|
    requires var pc := s.printers[i].pc; pc.PStart? || pc.PPrint? || pc.PDepart?
    ensures PrinterStamps(s, PrinterNext(s, i, t), i, t)
  {
  }

  lemma ExitStamps(s: State, i: nat, t: nat)
    requires i < |s.printers| && s.printers[i].pc.PExit?
    ensures PrinterStamps(s, PrinterExit(s, i), i, t)
  {
  }

  lemma PrinterRunStamps(s: State, i: nat, t: nat)
    requires i < |s.printers| && PrinterEnabled(s, i)
    ensures PrinterStamps(s, PrinterNext(s, i, t), i, t)
  {
    match s.printers[i].pc
    case PJobLock(_) => JobSectionStamps(s, i, t);
    case PRefillLock(_) => RequestStamps(s, i, t);
    case PRefillWait(_, _, _) => RefillingStamps(s, i, t);
    case PRefillHold(_, _) => RefillingStamps(s, i, t);
    case PRefillDone(_) => RefillingStamps(s, i, t);
    case PStart(_) => ServingStamps(s, i, t);
    case PPrint(_) => ServingStamps(s, i, t);
    case PDepart(_) => ServingStamps(s, i, t);
    case PExit => ExitStamps(s, i, t);
    case _ => PassingStamps(s, i, t);
  }

  /** What the receiver stamps, and when it moves on to the next job and sets the arrival flag. */
  ghost predicate ReceiverStamps(s: State, s': State, t: nat, t2: nat, need: nat) {
    var p, q := s.receiver, s'.receiver;
    && (q.RStamp? && !p.RStamp? ==> q.need == need)
    && (q.RCount? && !p.RCount? ==>
        p.RStamp? && q.job == Job(s.index + 1, p.need, s'.now, 0, 0, 0, 0) && s'.now == t)
    && (q.RHold? && !p.RHold? ==>
        && p.REnter? && q.job == p.job.(queueArrival := t) && s'.now == s'.last == t2
        && s'.queue == s.queue + [q.job] && q.length == |s.queue| && q.lastBefore == s.last)
    && (p.RHold? ==> s'.last == p.job.queueArrival && s'.queue == s.queue)
    && s'.previousArrival == (if p.RHold? || p.RDrop? then p.job.systemArrival else s.previousArrival)
    && s'.index == (if p.RHold? || p.RDrop? then s.index + 1 else s.index)
    && s'.allArrived == (s.allArrived || p.RBroken? || (q.RBroadcast? && !p.RBroadcast?))
    && (s'.now == s.now || s'.now == t || s'.now == t2)
  }

  lemma EnterStamps(c: Config, s: State, t: nat, t2: nat, need: nat)
    requires s.receiver.REnter?
    ensures ReceiverStamps(s, ReceiverEnter(c, s, t, t2), t, t2, need)
  {
  }

  lemma RecordStamps(s: State, t: nat, t2: nat, need: nat)
    requires s.receiver.RHold?
    ensures ReceiverStamps(s, ReceiverRecord(s), t, t2, need)
  {
  }

  lemma EndStamps(s: State, t: nat, t2: nat, need: nat)
    ensures s.receiver.RLoop? ==> ReceiverStamps(s, ReceiverReadFlag(s, need), t, t2, need)
    ensures s.receiver.RBroken? ==> ReceiverStamps(s, ReceiverBreak(s), t, t2, need)
    ensures s.receiver.RLoop? || s.receiver.RFinish? ==> ReceiverStamps(s, ReceiverFinish(s), t, t2, need)
    ensures s.receiver.RBroadcast? ==> ReceiverStamps(s, ReceiverWakeAll(s), t, t2, need)
  {
  }

  lemma ArrivalStamps(s: State, t: nat, t2: nat, need: nat)
    ensures s.receiver.RStamp? ==> ReceiverStamps(s, ReceiverStamp(s, t), t, t2, need)
    ensures s.receiver.RCount? ==> ReceiverStamps(s, ReceiverCount(s), t, t2, need)
    ensures s.receiver.RDrop? ==> ReceiverStamps(s, ReceiverDrop(s), t, t2, need)
  {
  }

  lemma ReceiverRunStamps(c: Config, s: State, t: nat, t2: nat, need: nat)
    ensures ReceiverStamps(s, ReceiverNext(c, s, t, t2, need), t, t2, need)
  {
    if s.receiver.REnter? {
      EnterStamps(c, s, t, t2, need);
    } else if s.receiver.RHold? {
      RecordStamps(s, t, t2, need);
    } else if s.receiver.RStamp? || s.receiver.RCount? || s.receiver.RDrop? {
      ArrivalStamps(s, t, t2, need);
    } else if s.receiver.RLoop? || s.receiver.RBroken? || s.receiver.RFinish? || s.receiver.RBroadcast? {
      EndStamps(s, t, t2, need);
      hide ReceiverStamps;
    }
  }

  /** What the refiller stamps. */
  ghost predicate RefillerStamps(s: State, s': State, t: nat) {
    var p, q := s.refiller, s'.refiller;
    && (q.FPlan? && !p.FPlan? ==> q.since == s'.now == t)
    && (p.FPlan? && q.FFill? ==> q.i == p.i && q.since == p.since)
    && (p.FFill? ==>
        && q == FRecord(p.i, p.papers, s'.now - p.since) && s'.now == t
        && s'.supply.refills == s.supply.refills + [Refill(p.i, p.papers, p.since, s'.now)])
    && (!p.FFill? ==> s'.supply.refills == s.supply.refills)
    && s'.supply.waits == s.supply.waits
    && (s'.now == s.now || s'.now == t)
  }

  lemma RefillerRunStamps(c: Config, s: State, t: nat)
    requires RefillerEnabled(s)
    ensures RefillerStamps(s, RefillerNext(c, s, t), t)
  {
  }

  /** What the stop handler stamps: the run's duration when it records the stop, the queue when it empties it. */
  ghost predicate StopStamps(s: State, s': State, t: nat) {
    && (s.stop.HStamp? ==> s'.stats.duration == s'.now - s.stats.start && s'.now == t)
    && (!s.stop.HStamp? ==> s'.stats.duration == s.stats.duration)
    && s'.stats.start == s.stats.start
    && (s.stop.HEmpty? ==> s'.last == (if s.queue == [] then s.last else s'.now) && s'.now == t)
    && (!s.stop.HEmpty? ==> s'.last == s.last)
    && (s'.now == s.now || s'.now == t)
  }

  lemma StopRunStamps(s: State, t: nat)
    requires StopEnabled(s)
    ensures StopStamps(s, StopNext(s, t), t)
  {
  }

  /** Every timestamp is the clock reading of the step that takes it, and stays as it was taken; the flags a
      printer acts on are those it has just read. */
  lemma StampsAreClockReadings(c: Config, s: State, a: Action)
    requires Enabled(c, s, a)
    ensures match a
      case PrinterRuns(i, t) => PrinterStamps(s, Next(c, s, a), i, t)
      case ReceiverRuns(t, t2, need) => ReceiverStamps(s, Next(c, s, a), t, t2, need)
      case RefillerRuns(t) => RefillerStamps(s, Next(c, s, a), t)
      case StopRuns(t) => StopStamps(s, Next(c, s, a), t)
      case _ => Next(c, s, a).now == s.now && Next(c, s, a).stats == s.stats && Next(c, s, a).last == s.last
  {
    match a
    case PrinterRuns(i, t) => PrinterRunStamps(s, i, t);
    case ReceiverRuns(t, t2, need) => ReceiverRunStamps(c, s, t, t2, need);
    case RefillerRuns(t) => RefillerRunStamps(c, s, t);
    case StopRuns(t) => StopRunStamps(s, t);
    case _ =>
  }

  // ---- leaving ----

  /** The reasons for which a printer leaves. */
  predicate MustLeave(s: State, i: nat)
    requires i < |s.printers|
  {
    match s.printers[i].pc
    case PJobLock(term) => term || (s.allArrived && s.queue == [])
    case PExitCheck(arrived) => arrived && s.queue == []
    case PRefillHold(_, _) => s.terminate
    case _ => false
  }

  lemma JobSectionLeaves(s: State, i: nat, t: nat)
    requires i < |s.printers| && s.printers[i].pc.PJobLock?
    ensures var s' := PrinterJobSection(s, i, t);
      i < |s'.printers| && (Control.HasLeft(s'.printers[i].pc) <==> MustLeave(s, i))
  {
    if Control.Takes(s, i) {
      assert PrinterJobSection(s, i, t) == PrinterDequeue(s, i, t);
    } else {
      Control.OnlyMoves(s, i, t);
    }
  }

  lemma PassingLeaves(s: State, i: nat, t: nat)
    requires i < |s.printers|
    requires var pc := s.printers[i].pc; pc.PTop? || pc.PJobWait? || pc.PAfter? || pc.PExitCheck?
    ensures var s' := PrinterNext(s, i, t);
      i < |s'.printers| && (Control.HasLeft(s'.printers[i].pc) <==> MustLeave(s, i))
  {
  }

  lemma RefillingLeaves(s: State, i: nat, t: nat)
    requires i < |s.printers|
    requires var pc := s.printers[i].pc; pc.PRefillLock? || pc.PRefillWait? || pc.PRefillHold? || pc.PRefillDone?
    ensures var s' := PrinterNext(s, i, t);
      i < |s'.printers| && (Control.HasLeft(s'.printers[i].pc) <==> MustLeave(s, i))
  {
  }

  lemma ServingLeaves(s: State, i: nat, t: nat)
    requires i < |s.printers|
    requires var pc := s.printers[i].pc; pc.PStart? || pc.PPrint? || pc.PDepart?
    ensures var s' := PrinterNext(s, i, t);
      i < |s'.printers| && (Control.HasLeft(s'.printers[i].pc) <==> MustLeave(s, i))
  {
  }

  /** A printer leaves in its next step exactly when it must: on its way to the queue when it saw a stop or
      the run is over, after a job when the run is over, and out of the refill wait on a stop. */
  lemma LeavesIff(c: Config, s: State, i: nat, t: nat)
    requires Enabled(c, s, PrinterRuns(i, t)) && !Control.HasLeft(s.printers[i].pc)
    ensures var s' := Next(c, s, PrinterRuns(i, t));
      i < |s'.printers| && (Control.HasLeft(s'.printers[i].pc) <==> MustLeave(s, i))
  {
    match s.printers[i].pc
    case PJobLock(_) => JobSectionLeaves(s, i, t);
    case PRefillLock(_) => RefillingLeaves(s, i, t);
    case PRefillWait(_, _, _) => RefillingLeaves(s, i, t);
    case PRefillHold(_, _) => RefillingLeaves(s, i, t);
    case PRefillDone(_) => RefillingLeaves(s, i, t);
    case PStart(_) => ServingLeaves(s, i, t);
    case PPrint(_) => ServingLeaves(s, i, t);
    case PDepart(_) => ServingLeaves(s, i, t);
    case _ => PassingLeaves(s, i, t);
  }

  // ---- broadcasts ----

  ghost predicate NobodyAwaitsJobs(s: State) {
    forall i :: 0 <= i < |s.printers| ==> s.printers[i].pc != PJobWait(false)
  }

  ghost predicate NobodyAwaitsPaper(s: State) {
    forall i :: 0 <= i < |s.printers| ==> !(s.printers[i].pc.PRefillWait? && !s.printers[i].pc.signalled)
  }

  lemma JobBroadcasts(s: State, t: nat)
    ensures s.receiver.RHold? ==> NobodyAwaitsJobs(ReceiverRecord(s))
    ensures NobodyAwaitsJobs(ReceiverWakeAll(s)) && NobodyAwaitsJobs(StopEmpty(s, t))
  {
  }

  lemma PaperBroadcasts(s: State, i: nat)
    ensures NobodyAwaitsPaper(RefillerNotify(s))
    ensures NobodyAwaitsPaper(StopWakeAll(s)) && StopWakeAll(s).refiller != FWait(false)
    ensures i < |s.printers| ==> NobodyAwaitsPaper(PrinterExit(s, i)) && PrinterExit(s, i).refiller != FWait(false)
  {
  }

  lemma LeavingBroadcasts(s: State, t: nat)
    requires s.refiller.FCheck?
    ensures RefillerCheck(s, t).refiller.FExited? ==> NobodyAwaitsPaper(RefillerCheck(s, t))
  {
  }

  lemma PrinterBroadcasts(s: State, i: nat, t: nat)
    requires i < |s.printers|
    ensures s.printers[i].pc.PExit? ==>
      NobodyAwaitsPaper(PrinterNext(s, i, t)) && PrinterNext(s, i, t).refiller != FWait(false)
    ensures s.printers[i].pc.PRefillLock? ==> PrinterNext(s, i, t).refiller != FWait(false)
  {
    PaperBroadcasts(s, i);
    hide NobodyAwaitsPaper;
  }

  lemma RefillerBroadcasts(c: Config, s: State, t: nat)
    requires RefillerEnabled(s)
    ensures s.refiller.FNotify? || RefillerNext(c, s, t).refiller.FExited? ==> NobodyAwaitsPaper(RefillerNext(c, s, t))
  {
    PaperBroadcasts(s, 0);
    if s.refiller.FCheck? {
      LeavingBroadcasts(s, t);
    }
    hide NobodyAwaitsPaper;
  }

  /** The printers are woken by every enqueued job, by the end of the arrivals and by the stop handler when it
      has emptied the queue; sleepers for paper by every refill, by the refiller when it leaves, by the stop
      handler and by every printer that exits; the refiller by every request, and by the last two. */
  lemma BroadcastsWakeEverybody(c: Config, s: State, a: Action)
    requires Enabled(c, s, a)
    ensures var s' := Next(c, s, a);
      && (a.ReceiverRuns? && (s.receiver.RHold? || s.receiver.RBroadcast?) ==> NobodyAwaitsJobs(s'))
      && (a.StopRuns? && s.stop.HEmpty? ==> NobodyAwaitsJobs(s'))
    ensures var s' := Next(c, s, a);
      && (a.RefillerRuns? && (s.refiller.FNotify? || s'.refiller.FExited?) ==> NobodyAwaitsPaper(s'))
      && (a.StopRuns? && s.stop.HRefill? ==> NobodyAwaitsPaper(s') && s'.refiller != FWait(false))
      && (a.PrinterRuns? && s.printers[a.i].pc.PExit? ==> NobodyAwaitsPaper(s') && s'.refiller != FWait(false))
      && (a.PrinterRuns? && s.printers[a.i].pc.PRefillLock? ==> s'.refiller != FWait(false))
  {
    hide NobodyAwaitsJobs, NobodyAwaitsPaper;
    match a
    case PrinterRuns(i, t) => PrinterBroadcasts(s, i, t);
    case ReceiverRuns(t, t2, need) => JobBroadcasts(s, t);
    case RefillerRuns(t) => RefillerBroadcasts(c, s, t);
    case StopRuns(t) =>
      JobBroadcasts(s, t);
      PaperBroadcasts(s, 0);
    case _ =>
  }
}
