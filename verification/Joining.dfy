/** Which configurations let every printer thread end.  A printer that asks for paper while the last
    job is being served elsewhere is never refilled: the first printer to leave ends the refiller. */
module Joining {
  import opened Records
  import opened Machine
  import opened Runs
  import opened Drain
  import Control
  import Timing
  import Refilling
  import Books
  import Sums
  import opened Interference

  ghost predicate AllExited(s: State) {
    forall i :: 0 <= i < |s.printers| ==> s.printers[i].pc.PExited?
  }

  /** Every run without a stop that comes to its end leaves no printer thread behind. */
  ghost predicate PrintersAlwaysExit(c: Config) {
    forall s :: Reachable(c, s) && !s.terminate && Quiescent(c, s) ==> AllExited(s)
  }

  /** Every stopped run that comes to its end leaves no printer thread behind. */
  ghost predicate StoppedPrintersAlwaysExit(c: Config) {
    forall s :: Reachable(c, s) && s.terminate && Quiescent(c, s) ==> AllExited(s)
  }

  // ---- one printer, or paper for all jobs: every printer exits ----

  /** The flag that ends the refiller is set by a printer on its way out. */
  ghost predicate SetByLeaver(s: State) {
    s.allServed ==> exists i :: 0 <= i < |s.printers| && Gone(s.printers[i].pc)
  }

  /** What printer `p` has printed, against what it was given. */
  ghost predicate Thrifty(c: Config, s: State, p: Printer) {
    && p.added >= 0
    && p.printed <= |s.hist.served|
    && p.used <= p.printed * c.maxNeed + Books.DepartingNeed(p)
    && !Requesting(p.pc)
  }

  /** When a full printer has paper for all jobs, none ever asks for a refill. */
  ghost predicate Frugal(c: Config, s: State) {
    c.maxNeed * c.jobs <= c.capacity ==>
      forall i :: 0 <= i < |s.printers| ==> Thrifty(c, s, s.printers[i])
  }

  lemma ServedAndQueued(c: Config, s: State)
    requires Inv(c, s)
    ensures |s.hist.served| + |s.queue| <= c.jobs
  {
    var left, served := multiset(s.hist.left), multiset(Books.ServedIds(s.hist.served));
    assert |s.hist.left + Ids(s.queue)| == |s.hist.enqueued|;
    assert |left| == |s.hist.left| && |served| == |s.hist.served| && served <= left;
    assert |left| == |served| + |left - served|;
    assert |multiset(s.hist.enqueued) + multiset(s.hist.dropped) + Books.PendingIds(s.receiver)|
           == |multiset(Sums.UpTo(s.stats.arrived))|;
  }

  lemma LeaverStays(s: State, s': State, x: int)
    requires SetByLeaver(s) && LeavesAlone(s, s', x)
    requires 0 <= x < |s.printers| && Gone(s.printers[x].pc) ==> Gone(s'.printers[x].pc)
    ensures SetByLeaver(s')
  {
    if s.allServed {
      var i :| 0 <= i < |s.printers| && Gone(s.printers[i].pc);
      assert Gone(s'.printers[i].pc);
    }
  }

  lemma Multiply(w: nat, k: nat, l: nat)
    requires k < l
    ensures k * w + w <= w * l
  {
    assert w * (k + 1) <= w * l;
  }

  /** With paper for all jobs the job at the front never needs more than the printer has. */
  lemma EnoughPaper(c: Config, s: State, i: nat)
    requires Inv(c, s) && c.maxNeed * c.jobs <= c.capacity
    requires i < |s.printers| && s.printers[i].pc.PJobLock? && s.queue != [] && Thrifty(c, s, s.printers[i])
    ensures s.queue[0].need <= s.printers[i].paper
  {
    var p := s.printers[i];
    ServedAndQueued(c, s);
    assert Refilling.Paper(c, s, i, p) && Timing.QueuedOk(c, s, s.queue[0]);
    Multiply(c.maxNeed, p.printed, c.jobs);
  }

  lemma WaitingIsThrifty(c: Config, s: State, i: nat, t: nat)
    requires i < |s.printers| && PrinterEnabled(s, i) && Thrifty(c, s, s.printers[i])
    requires var pc := s.printers[i].pc; pc.PTop? || pc.PJobWait? || pc.PRefillDone? || pc.PStart?
    ensures var s' := PrinterNext(s, i, t); i < |s'.printers| && Thrifty(c, s', s'.printers[i])
  {
  }

  lemma EndingIsThrifty(c: Config, s: State, i: nat, t: nat)
    requires i < |s.printers| && PrinterEnabled(s, i) && Thrifty(c, s, s.printers[i])
    requires var pc := s.printers[i].pc; pc.PAfter? || pc.PExitCheck? || pc.PServed? || pc.PExit?
    ensures var s' := PrinterNext(s, i, t); i < |s'.printers| && Thrifty(c, s', s'.printers[i])
  {
  }

  lemma JobSectionIsThrifty(c: Config, s: State, i: nat, t: nat)
    requires i < |s.printers| && s.printers[i].pc.PJobLock? && Thrifty(c, s, s.printers[i])
    requires s.queue != [] ==> s.queue[0].need <= s.printers[i].paper
    ensures Thrifty(c, PrinterJobSection(s, i, t), PrinterJobSection(s, i, t).printers[i])
  {
    if Control.Takes(s, i) {
      assert PrinterJobSection(s, i, t) == PrinterDequeue(s, i, t);
    } else {
      Control.OnlyMoves(s, i, t);
    }
  }

  lemma ServingIsThrifty(c: Config, s: State, i: nat, t: nat)
    requires i < |s.printers| && PrinterEnabled(s, i) && Thrifty(c, s, s.printers[i])
    requires s.printers[i].pc.PPrint? || s.printers[i].pc.PDepart?
    requires s.printers[i].pc.PDepart? ==> s.printers[i].pc.job.need <= c.maxNeed
    ensures var s' := PrinterNext(s, i, t); i < |s'.printers| && Thrifty(c, s', s'.printers[i])
  {
    assert (s.printers[i].printed + 1) * c.maxNeed == s.printers[i].printed * c.maxNeed + c.maxNeed;
  }

  lemma ServedNeedIsBounded(c: Config, s: State, i: nat)
    requires Inv(c, s) && i < |s.printers| && s.printers[i].pc.PDepart?
    ensures s.printers[i].pc.job.need <= c.maxNeed
  {
    assert Timing.Service(c, s, s.printers[i].pc);
  }

  lemma OwnStepIsThrifty(c: Config, s: State, i: nat, t: nat)
    requires Inv(c, s) && c.maxNeed * c.jobs <= c.capacity
    requires i < |s.printers| && PrinterEnabled(s, i) && Thrifty(c, s, s.printers[i])
    ensures var s' := PrinterNext(s, i, t); i < |s'.printers| && Thrifty(c, s', s'.printers[i])
  {
    hide Inv;
    var pc := s.printers[i].pc;
    if pc.PJobLock? {
      if s.queue != [] {
        EnoughPaper(c, s, i);
      }
      JobSectionIsThrifty(c, s, i, t);
    } else if pc.PPrint? || pc.PDepart? {
      if pc.PDepart? {
        ServedNeedIsBounded(c, s, i);
      }
      ServingIsThrifty(c, s, i, t);
    } else if pc.PAfter? || pc.PExitCheck? || pc.PServed? || pc.PExit? {
      EndingIsThrifty(c, s, i, t);
    } else {
      WaitingIsThrifty(c, s, i, t);
    }
  }

  lemma UntouchedIsThrifty(c: Config, s: State, s': State, i: nat)
    requires i < |s.printers| && i < |s'.printers| && Untouched(s.printers[i], s'.printers[i])
    requires Thrifty(c, s, s.printers[i]) && |s.hist.served| <= |s'.hist.served|
    ensures Thrifty(c, s', s'.printers[i])
  {
  }

  lemma FrugalStays(c: Config, s: State, a: Action)
    requires Inv(c, s) && Frugal(c, s) && Enabled(c, s, a)
    requires LeavesAlone(s, Next(c, s, a), if a.PrinterRuns? then a.i else -1)
    ensures Frugal(c, Next(c, s, a))
  {
    var s' := Next(c, s, a);
    if c.maxNeed * c.jobs <= c.capacity {
      forall i | 0 <= i < |s'.printers| ensures Thrifty(c, s', s'.printers[i]) {
        if a.PrinterRuns? && a.i == i {
          OwnStepIsThrifty(c, s, i, a.t);
        } else {
          UntouchedIsThrifty(c, s, s', i);
        }
      }
    }
  }

  lemma StepStays(c: Config, s: State, a: Action)
    requires Inv(c, s) && SetByLeaver(s) && Frugal(c, s) && Enabled(c, s, a)
    ensures SetByLeaver(Next(c, s, a)) && Frugal(c, Next(c, s, a))
  {
    if a.StopRuns? && s.stop.HIdle? {
      assert Next(c, s, a) == StopRaise(s);
      assert Frugal(c, StopRaise(s)) by {
        if c.maxNeed * c.jobs <= c.capacity {
          forall i | 0 <= i < |s.printers| ensures Thrifty(c, StopRaise(s), s.printers[i]) {
            UntouchedIsThrifty(c, s, StopRaise(s), i);
          }
        }
      }
    } else {
      NextLeavesAlone(c, s, a);
      LeaverStays(s, Next(c, s, a), if a.PrinterRuns? then a.i else -1);
      FrugalStays(c, s, a);
    }
  }

  lemma {:induction false} RunStays(c: Config, s: State, run: seq<Action>)
    requires Inv(c, s) && SetByLeaver(s) && Frugal(c, s) && IsRun(c, s, run)
    ensures SetByLeaver(After(c, s, run)) && Frugal(c, After(c, s, run))
    decreases run
  {
    if run != [] {
      NextHolds(c, s, run[0]);
      StepStays(c, s, run[0]);
      RunStays(c, Next(c, s, run[0]), run[1..]);
    }
  }

  lemma InitStays(c: Config, created: nat, start: nat)
    ensures SetByLeaver(Init(c, created, start)) && Frugal(c, Init(c, created, start))
  {
  }

  lemma ReachableStays(c: Config, s: State)
    requires c.Valid() && Reachable(c, s)
    ensures Inv(c, s) && SetByLeaver(s) && Frugal(c, s)
  {
    var created: nat, start: nat, run: seq<Action> :| ReachedBy(c, s, created, start, run);
    InitHolds(c, created, start);
    InitStays(c, created, start);
    RunHolds(c, Init(c, created, start), run);
    RunStays(c, Init(c, created, start), run);
  }

  /** With paper for all jobs every printer exits after a stop, too. */
  lemma StoppedExitsAlways(c: Config)
    requires c.Valid() && c.maxNeed * c.jobs <= c.capacity
    ensures StoppedPrintersAlwaysExit(c)
  {
    forall s | Reachable(c, s) && s.terminate && Quiescent(c, s) ensures AllExited(s) {
      ReachableStays(c, s);
      forall i | 0 <= i < |s.printers| ensures s.printers[i].pc.PExited? {
        PrinterAtRest(c, s, -1, i);
        assert Thrifty(c, s, s.printers[i]);
      }
    }
  }

  lemma ExitsAlways(c: Config)
    requires c.Valid() && (c.printers == 1 || c.maxNeed * c.jobs <= c.capacity)
    ensures PrintersAlwaysExit(c)
  {
    forall s | Reachable(c, s) && !s.terminate && Quiescent(c, s) ensures AllExited(s) {
      ReachableStays(c, s);
      forall i | 0 <= i < |s.printers| ensures s.printers[i].pc.PExited? {
        PrinterAtRest(c, s, -1, i);
        if s.printers[i].pc.PRefillWait? {
          RefillerStarves(c, s, -1, i);
        }
      }
    }
  }
}
