/** What a stop request does: after it a printer completes at most one more job, and a printer is left
    asleep for paper only if it asked after the stop. */
module Stopping {
  import opened Records
  import opened Machine
  import opened Runs
  import opened Drain
  import opened Sums
  import opened Interference
  import Control
  import Timing

  // ---- the work left after a stop ----

  /** The printer has passed its last look at the flag on its way to a job, or is serving one. */
  function StillServes(p: Printer): int {
    if Timing.InService(p.pc) || p.pc == PJobLock(false) then 1 else 0
  }

  /** Jobs served, and jobs that may still be. */
  function Work(s: State): int {
    |s.hist.served| + Sum(StillServes, s.printers)
  }

  predicate Sleeping(pc: PrinterPc) { pc.PRefillWait? && !pc.signalled }

  /** A section of printer `j` in a stopped run: no work is added, and only a new request puts it to sleep. */
  ghost predicate WindsDown(s: State, s': State, j: nat) {
    && j < |s.printers| && j < |s'.printers|
    && |s'.hist.served| + StillServes(s'.printers[j]) <= |s.hist.served| + StillServes(s.printers[j])
    && (Sleeping(s'.printers[j].pc) ==> s.now <= s'.printers[j].pc.since)
  }

  lemma LookingWindsDown(s: State, j: nat, t: nat)
    requires j < |s.printers| && s.terminate
    requires var pc := s.printers[j].pc; pc.PTop? || pc.PJobWait? || pc.PAfter? || pc.PExitCheck? || pc.PServed?
    ensures WindsDown(s, PrinterNext(s, j, t), j)
  {
  }

  lemma JobSectionWindsDown(s: State, j: nat, t: nat)
    requires j < |s.printers| && s.printers[j].pc.PJobLock?
    ensures WindsDown(s, PrinterJobSection(s, j, t), j)
  {
    if Control.Takes(s, j) {
      assert PrinterJobSection(s, j, t) == PrinterDequeue(s, j, t);
    } else {
      Control.OnlyMoves(s, j, t);
    }
  }

  lemma RequestWindsDown(s: State, j: nat, t: nat)
    requires j < |s.printers| && s.now <= t && s.printers[j].pc.PRefillLock?
    ensures WindsDown(s, PrinterRequest(s, j, t), j)
  {
  }

  lemma RefillingWindsDown(s: State, j: nat, t: nat)
    requires j < |s.printers| && s.terminate
    requires var pc := s.printers[j].pc; pc.PRefillWait? || pc.PRefillHold? || pc.PRefillDone?
    ensures WindsDown(s, PrinterNext(s, j, t), j)
  {
  }

  lemma ServingWindsDown(s: State, j: nat, t: nat)
    requires j < |s.printers|
    requires var pc := s.printers[j].pc; pc.PStart? || pc.PPrint? || pc.PDepart?
    ensures WindsDown(s, PrinterNext(s, j, t), j)
  {
  }

  lemma PrinterWindsDown(s: State, j: nat, t: nat)
    requires j < |s.printers| && s.now <= t && s.terminate && PrinterEnabled(s, j) && !s.printers[j].pc.PExit?
    ensures WindsDown(s, PrinterNext(s, j, t), j)
  {
    match s.printers[j].pc
    case PJobLock(_) => JobSectionWindsDown(s, j, t);
    case PRefillLock(_) => RequestWindsDown(s, j, t);
    case PRefillWait(_, _, _) => RefillingWindsDown(s, j, t);
    case PRefillHold(_, _) => RefillingWindsDown(s, j, t);
    case PRefillDone(_) => RefillingWindsDown(s, j, t);
    case PStart(_) => ServingWindsDown(s, j, t);
    case PPrint(_) => ServingWindsDown(s, j, t);
    case PDepart(_) => ServingWindsDown(s, j, t);
    case _ => LookingWindsDown(s, j, t);
  }

  lemma PrinterAddsNoWork(s: State, j: nat, t: nat)
    requires j < |s.printers| && s.now <= t && s.terminate && PrinterEnabled(s, j)
    ensures Work(PrinterNext(s, j, t)) <= Work(s)
  {
    var s' := PrinterNext(s, j, t);
    if s.printers[j].pc.PExit? {
      SumBounded(StillServes, s.printers, s'.printers, 0);
    } else {
      PrinterTouchesOwn(s, j, t);
      PrinterWindsDown(s, j, t);
      SumUpdate(StillServes, s.printers, j, s'.printers[j]);
    }
  }

  lemma OthersAddNoWork(s: State, s': State)
    requires LeavesAlone(s, s', -1)
    ensures Work(s') <= Work(s)
  {
    SumBounded(StillServes, s.printers, s'.printers, 0);
  }

  /** Once the run is stopped, no section of any thread adds work. */
  lemma NextAddsNoWork(c: Config, s: State, a: Action)
    requires Inv(c, s) && s.terminate && Enabled(c, s, a)
    ensures Work(Next(c, s, a)) <= Work(s) && Next(c, s, a).terminate
  {
    NextLeavesAlone(c, s, a);
    if a.PrinterRuns? {
      PrinterAddsNoWork(s, a.i, a.t);
    } else {
      OthersAddNoWork(s, Next(c, s, a));
    }
  }

  lemma {:induction false} RunAddsNoWork(c: Config, s: State, run: seq<Action>)
    requires Inv(c, s) && s.terminate && IsRun(c, s, run)
    ensures Work(After(c, s, run)) <= Work(s)
    decreases run
  {
    if run != [] {
      NextHolds(c, s, run[0]);
      NextAddsNoWork(c, s, run[0]);
      RunAddsNoWork(c, Next(c, s, run[0]), run[1..]);
    }
  }

  lemma {:induction false} WorkBounds(ps: seq<Printer>)
    ensures 0 <= Sum(StillServes, ps) <= |ps|
  {
    if ps != [] {
      WorkBounds(ps[1..]);
    }
  }

  /** After a stop at most one more job per printer is served, whatever the schedule. */
  lemma StopEndsService(c: Config, s: State, run: seq<Action>)
    requires c.Valid() && Reachable(c, s) && s.terminate && IsRun(c, s, run)
    ensures After(c, s, run).stats.served <= s.stats.served + c.printers
  {
    ReachableHolds(c, s);
    RunHolds(c, s, run);
    RunAddsNoWork(c, s, run);
    WorkBounds(s.printers);
    WorkBounds(After(c, s, run).printers);
  }

  // ---- who may sleep for ever ----

  /** The time of the stop, once it is recorded, and who sleeps when the last broadcast is over. */
  ghost predicate Late(s: State) {
    && (!s.stop.HIdle? && !s.stop.HStamp? ==> s.stats.start + s.stats.duration <= s.now)
    && (s.stop.HDone? ==> forall i :: 0 <= i < |s.printers| && Sleeping(s.printers[i].pc) ==>
          s.stats.start + s.stats.duration <= s.printers[i].pc.since)
  }

  lemma StopKeepsLate(s: State, t: nat)
    requires Late(s) && s.now <= t && StopEnabled(s)
    ensures Late(StopNext(s, t))
  {
  }

  lemma OthersKeepLate(s: State, s': State, x: int)
    requires Late(s) && LeavesAlone(s, s', x) && KeepsClock(s, s')
    requires 0 <= x < |s.printers| && s.terminate && Sleeping(s'.printers[x].pc) ==> s.now <= s'.printers[x].pc.since
    requires s.stop.HDone? ==> s.terminate
    ensures Late(s')
  {
  }

  lemma NextKeepsLate(c: Config, s: State, a: Action)
    requires Inv(c, s) && Late(s) && Enabled(c, s, a)
    ensures Late(Next(c, s, a))
  {
    if a.StopRuns? {
      StopKeepsLate(s, a.t);
    } else {
      NextLeavesAlone(c, s, a);
      if a.PrinterRuns? && s.terminate && !s.printers[a.i].pc.PExit? {
        PrinterWindsDown(s, a.i, a.t);
      }
      OthersKeepLate(s, Next(c, s, a), if a.PrinterRuns? then a.i else -1);
    }
  }

  lemma {:induction false} RunKeepsLate(c: Config, s: State, run: seq<Action>)
    requires Inv(c, s) && Late(s) && IsRun(c, s, run)
    ensures Late(After(c, s, run))
    decreases run
  {
    if run != [] {
      NextHolds(c, s, run[0]);
      NextKeepsLate(c, s, run[0]);
      RunKeepsLate(c, Next(c, s, run[0]), run[1..]);
    }
  }

  /** A printer that sleeps for paper when the stop handler is done asked no earlier than the recorded
      time of the stop: every earlier sleeper was woken and left. */
  lemma SleepersAskedLate(c: Config, s: State, i: nat)
    requires c.Valid() && Reachable(c, s) && s.stop.HDone?
    requires i < |s.printers| && s.printers[i].pc.PRefillWait? && !s.printers[i].pc.signalled
    ensures s.stats.start + s.stats.duration <= s.printers[i].pc.since
  {
    var created: nat, start: nat, run: seq<Action> :| ReachedBy(c, s, created, start, run);
    InitHolds(c, created, start);
    assert Late(Init(c, created, start));
    RunKeepsLate(c, Init(c, created, start), run);
  }
}
