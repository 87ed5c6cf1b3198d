/** What the autoscaler and the cancellations rely on: the printers' own reports are true, and a thread is
    cancelled only on request. */
module Reports {
  import opened Records
  import opened Machine
  import opened Runs
  import opened Drain
  import opened Interference
  import Control
  import Timing

  // ---- idle flag and completion time ----

  /** Time at which printer `i` completed the last of the jobs `vs`, 0 if it served none. */
  function LastDone(vs: seq<Service>, i: nat): nat {
    if vs == [] then 0
    else if vs[|vs| - 1].printer == i then vs[|vs| - 1].job.serviceDeparture
    else LastDone(vs[..|vs| - 1], i)
  }

  ghost predicate Reporting(s: State, i: nat, p: Printer) {
    && (p.idle <==> !p.pc.PPrint?)
    && p.lastDone == if p.pc.PDepart? then p.pc.job.serviceDeparture else LastDone(s.hist.served, i)
  }

  ghost predicate AllReport(s: State) {
    forall i :: 0 <= i < |s.printers| ==> Reporting(s, i, s.printers[i])
  }

  ghost predicate ReportsAfter(s': State, i: nat) {
    i < |s'.printers| && Reporting(s', i, s'.printers[i])
  }

  lemma PassingReports(s: State, i: nat, t: nat)
    requires i < |s.printers| && Reporting(s, i, s.printers[i])
    requires var pc := s.printers[i].pc; pc.PTop? || pc.PJobWait? || pc.PAfter? || pc.PExitCheck? || pc.PServed?
    ensures ReportsAfter(PrinterNext(s, i, t), i)
  {
  }

  lemma JobSectionReports(s: State, i: nat, t: nat)
    requires i < |s.printers| && s.printers[i].pc.PJobLock? && Reporting(s, i, s.printers[i])
    ensures ReportsAfter(PrinterJobSection(s, i, t), i)
  {
    if Control.Takes(s, i) {
      assert PrinterJobSection(s, i, t) == PrinterDequeue(s, i, t);
    } else {
      Control.OnlyMoves(s, i, t);
    }
  }

  lemma RefillingReports(s: State, i: nat, t: nat)
    requires i < |s.printers| && Reporting(s, i, s.printers[i])
    requires var pc := s.printers[i].pc; pc.PRefillLock? || pc.PRefillWait? || pc.PRefillHold? || pc.PRefillDone?
    ensures ReportsAfter(PrinterNext(s, i, t), i)
  {
  }

  lemma ServingReports(s: State, i: nat, t: nat)
    requires i < |s.printers| && Reporting(s, i, s.printers[i])
    requires s.printers[i].pc.PStart? || s.printers[i].pc.PPrint?
    ensures ReportsAfter(PrinterNext(s, i, t), i)
  {
  }

  lemma DepartReports(s: State, i: nat)
    requires i < |s.printers| && s.printers[i].pc.PDepart? && Reporting(s, i, s.printers[i])
    ensures ReportsAfter(PrinterDepart(s, i), i)
  {
    var vs, v := s.hist.served, Service(s.printers[i].pc.job, i);
    assert (vs + [v])[|vs|] == v;
  }

  lemma ExitReports(s: State, i: nat)
    requires i < |s.printers| && s.printers[i].pc.PExit? && Reporting(s, i, s.printers[i])
    ensures ReportsAfter(PrinterExit(s, i), i)
  {
  }

  lemma OwnReport(s: State, i: nat, t: nat)
    requires i < |s.printers| && PrinterEnabled(s, i) && Reporting(s, i, s.printers[i])
    ensures ReportsAfter(PrinterNext(s, i, t), i)
  {
    match s.printers[i].pc
    case PJobLock(_) => JobSectionReports(s, i, t);
    case PRefillLock(_) => RefillingReports(s, i, t);
    case PRefillWait(_, _, _) => RefillingReports(s, i, t);
    case PRefillHold(_, _) => RefillingReports(s, i, t);
    case PRefillDone(_) => RefillingReports(s, i, t);
    case PStart(_) => ServingReports(s, i, t);
    case PPrint(_) => ServingReports(s, i, t);
    case PDepart(_) => DepartReports(s, i);
    case PExit => ExitReports(s, i);
    case _ => PassingReports(s, i, t);
  }

  lemma OtherReport(s: State, s': State, x: int, i: nat)
    requires LeavesAlone(s, s', x) && i < |s.printers| && i != x && Reporting(s, i, s.printers[i])
    ensures ReportsAfter(s', i)
  {
    assert Untouched(s.printers[i], s'.printers[i]);
    if s'.hist.served != s.hist.served {
      assert s'.hist.served[..|s'.hist.served| - 1] == s.hist.served;
    }
  }

  lemma NextReports(c: Config, s: State, a: Action)
    requires Inv(c, s) && AllReport(s) && Enabled(c, s, a)
    ensures AllReport(Next(c, s, a))
  {
    var s' := Next(c, s, a);
    if a.StopRuns? && s.stop.HIdle? {
      assert s' == StopRaise(s);
    } else {
      NextLeavesAlone(c, s, a);
      forall i | 0 <= i < |s'.printers| ensures Reporting(s', i, s'.printers[i]) {
        if a.PrinterRuns? && a.i == i {
          OwnReport(s, i, a.t);
        } else {
          OtherReport(s, s', if a.PrinterRuns? then a.i else -1, i);
        }
      }
    }
  }

  // ---- cancellation requests ----

  predicate Stamped(pc: StopPc) { pc.HLock? || pc.HEmpty? || pc.HRefill? || pc.HDone? }

  /** The receiver is cancelled by the stop handler only, the refiller by it and by every printer that exits. */
  ghost predicate Requested(s: State) {
    && (s.receiverCancel <==> Stamped(s.stop))
    && (s.refillerCancel <==> Stamped(s.stop) || SomeExited(s))
  }

  lemma ExitedStay(s: State, s': State)
    requires LeavesAlone(s, s', -1)
    ensures SomeExited(s) <==> SomeExited(s')
  {
    if SomeExited(s) {
      var i :| 0 <= i < |s.printers| && s.printers[i].pc.PExited?;
      assert Untouched(s.printers[i], s'.printers[i]);
    }
    if SomeExited(s') {
      var i :| 0 <= i < |s'.printers| && s'.printers[i].pc.PExited?;
      assert Untouched(s.printers[i], s'.printers[i]);
    }
  }

  lemma StopRequests(s: State, t: nat)
    requires Requested(s) && StopEnabled(s)
    ensures Requested(StopNext(s, t))
  {
    var s' := StopNext(s, t);
    if s.stop.HIdle? {
      assert s' == StopRaise(s);
    } else {
      StopLeavesAlone(s, t);
      ExitedStay(s, s');
    }
  }

  lemma OthersRequest(s: State, s': State, x: int)
    requires Requested(s) && LeavesAlone(s, s', x) && KeepsClock(s, s')
    requires 0 <= x < |s.printers| ==> !s.printers[x].pc.PExited? && (s'.printers[x].pc.PExited? ==> s'.refillerCancel)
    ensures Requested(s')
  {
    if SomeExited(s) {
      var i :| 0 <= i < |s.printers| && s.printers[i].pc.PExited?;
      assert Untouched(s.printers[i], s'.printers[i]);
    }
    if SomeExited(s') {
      var i :| 0 <= i < |s'.printers| && s'.printers[i].pc.PExited?;
      assert i != x ==> Untouched(s.printers[i], s'.printers[i]);
    }
  }

  lemma NextRequests(c: Config, s: State, a: Action)
    requires Inv(c, s) && Requested(s) && Enabled(c, s, a)
    ensures Requested(Next(c, s, a))
  {
    if a.StopRuns? {
      StopRequests(s, a.t);
    } else {
      NextLeavesAlone(c, s, a);
      OthersRequest(s, Next(c, s, a), if a.PrinterRuns? then a.i else -1);
    }
  }

  // ---- every reachable state ----

  lemma {:induction false} RunReports(c: Config, s: State, run: seq<Action>)
    requires Inv(c, s) && AllReport(s) && Requested(s) && IsRun(c, s, run)
    ensures AllReport(After(c, s, run)) && Requested(After(c, s, run))
    decreases run
  {
    if run != [] {
      NextHolds(c, s, run[0]);
      NextReports(c, s, run[0]);
      NextRequests(c, s, run[0]);
      RunReports(c, Next(c, s, run[0]), run[1..]);
    }
  }

  lemma InitReports(c: Config, created: nat, start: nat)
    ensures AllReport(Init(c, created, start)) && Requested(Init(c, created, start))
  {
  }

  lemma ReachableReports(c: Config, s: State)
    requires c.Valid() && Reachable(c, s)
    ensures Inv(c, s) && AllReport(s) && Requested(s)
  {
    var created: nat, start: nat, run: seq<Action> :| ReachedBy(c, s, created, start, run);
    InitHolds(c, created, start);
    InitReports(c, created, start);
    RunHolds(c, Init(c, created, start), run);
    RunReports(c, Init(c, created, start), run);
  }

  /** A printer reports to be idle exactly when it is not printing, and as its completion time that of the
      job it has just printed, or else of the last job recorded for it, or 0 before its first. */
  lemma ReportsAreTrue(c: Config, s: State, i: nat)
    requires c.Valid() && Reachable(c, s) && i < |s.printers|
    ensures s.printers[i].idle <==> !s.printers[i].pc.PPrint?
    ensures s.printers[i].pc.PDepart? ==> s.printers[i].lastDone == s.printers[i].pc.job.serviceDeparture
    ensures !s.printers[i].pc.PDepart? ==> s.printers[i].lastDone == LastDone(s.hist.served, i)
    ensures s.printers[i].lastDone <= s.now
  {
    ReachableReports(c, s);
    assert Reporting(s, i, s.printers[i]);
    assert Timing.Service(c, s, s.printers[i].pc);
    LastDoneIsPast(s, s.hist.served, i);
  }

  lemma {:induction false} LastDoneIsPast(s: State, vs: seq<Service>, i: nat)
    requires forall k :: 0 <= k < |vs| ==> Timing.InOrder(s, vs[k].job)
    ensures LastDone(vs, i) <= s.now
  {
    if vs != [] {
      assert Timing.InOrder(s, vs[|vs| - 1].job);
      LastDoneIsPast(s, vs[..|vs| - 1], i);
    }
  }

  /** Exactly when a thread can be cancelled: the receiver in its sleep, once the stop handler has recorded
      the stop; the refiller in its sleep, from then on and from the first exit of a printer. */
  lemma CancelledOnRequest(c: Config, s: State)
    requires c.Valid() && Reachable(c, s)
    ensures Enabled(c, s, ReceiverDies) <==>
      (s.stop.HLock? || s.stop.HEmpty? || s.stop.HRefill? || s.stop.HDone?) && s.receiver.RLoop? && s.index < c.jobs
    ensures Enabled(c, s, RefillerDies) <==>
      && s.refiller.FFill?
      && (s.stop.HLock? || s.stop.HEmpty? || s.stop.HRefill? || s.stop.HDone?
          || exists i :: 0 <= i < |s.printers| && s.printers[i].pc.PExited?)
  {
    hide Inv, AllReport;
    ReachableReports(c, s);
  }
}
