/** Runs that leave a printer asleep for paper for ever, in every configuration that allows one: the first
    printer serves alone until it lacks paper, the others then finish the run, stopped or not, and its
    request comes when nobody is left to serve it. */
module Stranding {
  import opened Records
  import opened Machine
  import opened Runs
  import opened Drain
  import Control
  import Timing
  import Refilling
  import Books
  import Sums
  import Interference
  import Joining

  // ---- runs of the program alone ----

  /** Reached from a fresh start without spurious wake-ups; a run that is not stopped in the end never was. */
  ghost predicate Reached(c: Config, s: State) {
    exists created: nat, start: nat, run: seq<Action> :: ReachedBy(c, s, created, start, run) && NoneSpontaneous(run)
  }

  lemma {:induction false} RunThen(c: Config, s: State, run: seq<Action>, a: Action)
    requires IsRun(c, s, run) && Enabled(c, After(c, s, run), a)
    ensures IsRun(c, s, run + [a]) && After(c, s, run + [a]) == Next(c, After(c, s, run), a)
    decreases run
  {
    if run == [] {
      assert run + [a] == [a] && [a][1..] == [];
      assert IsRun(c, Next(c, s, a), []);
    } else {
      var s' := Next(c, s, run[0]);
      RunThen(c, s', run[1..], a);
      assert (run + [a])[1..] == run[1..] + [a] && (run + [a])[0] == run[0];
      assert After(c, s, run) == After(c, s', run[1..]);
    }
  }

  lemma ReachedThen(c: Config, s: State, a: Action)
    requires c.Valid() && Reached(c, s) && Enabled(c, s, a) && !Spontaneous(a)
    ensures Reached(c, Next(c, s, a))
  {
    var created: nat, start: nat, run: seq<Action> :| ReachedBy(c, s, created, start, run) && NoneSpontaneous(run);
    RunThen(c, Init(c, created, start), run, a);
    assert ReachedBy(c, Next(c, s, a), created, start, run + [a]) && NoneSpontaneous(run + [a]);
  }

  // ---- first part: only the receiver and printer 0 run ----

  predicate Serving(pc: PrinterPc) {
    || pc.PTop? || pc.PJobLock? || pc.PJobWait? || pc.PStart? || pc.PPrint? || pc.PDepart? || pc.PAfter? || pc.PExitCheck?
  }

  /** Every job needs as much paper as a job may. */
  ghost predicate Needy(c: Config, s: State) {
    && (forall k :: 0 <= k < |s.queue| ==> s.queue[k].need == c.maxNeed)
    && (s.receiver.RStamp? ==> s.receiver.need == c.maxNeed)
    && (Timing.HasJob(s.receiver) ==> s.receiver.job.need == c.maxNeed)
  }

  /** Printer 0 has taken every job that left the queue, and has not been refilled. */
  ghost predicate Paying(c: Config, s: State, p: Printer) {
    && (Timing.InService(p.pc) ==> p.pc.job.need == c.maxNeed)
    && p.paper == c.capacity - |s.hist.left| * c.maxNeed + (if p.pc.PStart? || p.pc.PPrint? then c.maxNeed else 0)
  }

  ghost predicate Lone(c: Config, s: State) {
    && !s.terminate && s.hist.dropped == [] && !s.receiver.RDrop? && 0 < |s.printers|
    && Needy(c, s) && Paying(c, s, s.printers[0])
    && (Serving(s.printers[0].pc) || s.printers[0].pc.PRefillLock?)
    && (Control.InIteration(s.receiver) ==> s.printers[0].pc == PJobWait(false))
  }

  /** Printer 0 runs out of paper before it runs out of jobs. */
  lemma AllWereTaken(c: Config, s: State)
    requires Control.Flags(c, s) && Books.Order(s) && Books.Arrivals(s)
    requires !s.terminate && s.hist.dropped == [] && s.allArrived && s.queue == []
    ensures |s.hist.left| == c.jobs
  {
    assert multiset(s.hist.enqueued) == multiset(Sums.UpTo(c.jobs));
    assert |multiset(s.hist.enqueued)| == |multiset(Sums.UpTo(c.jobs))|;
    assert s.hist.left == s.hist.enqueued;
  }

  lemma LoneNeverLeaves(c: Config, s: State)
    requires Inv(c, s) && Lone(c, s) && c.maxNeed * c.jobs > c.capacity && s.allArrived && s.queue == []
    ensures !s.printers[0].pc.PJobLock? && !s.printers[0].pc.PExitCheck?
  {
    AllWereTaken(c, s);
    assert Refilling.Paper(c, s, 0, s.printers[0]);
  }

  lemma LonePasses(c: Config, s: State)
    requires Inv(c, s) && Lone(c, s) && c.maxNeed * c.jobs > c.capacity && PrinterEnabled(s, 0)
    requires var pc := s.printers[0].pc; pc.PTop? || pc.PJobWait? || pc.PAfter? || pc.PExitCheck?
    ensures Lone(c, PrinterNext(s, 0, s.now))
  {
    if s.printers[0].pc.PExitCheck? && s.allArrived && s.queue == [] {
      LoneNeverLeaves(c, s);
    }
    assert Control.PrinterFlags(s, s.printers[0].pc);
  }

  lemma LoneServes(c: Config, s: State)
    requires Lone(c, s)
    requires var pc := s.printers[0].pc; pc.PStart? || pc.PPrint? || pc.PDepart?
    ensures Lone(c, PrinterNext(s, 0, s.now))
  {
  }

  lemma LoneStays(c: Config, s: State)
    requires Inv(c, s) && Lone(c, s) && c.maxNeed * c.jobs > c.capacity
    requires s.printers[0].pc.PJobLock? && !Control.Takes(s, 0)
    ensures Lone(c, PrinterJobSection(s, 0, s.now))
  {
    if s.allArrived && s.queue == [] {
      LoneNeverLeaves(c, s);
    }
    assert Control.PrinterFlags(s, s.printers[0].pc);
    Control.OnlyMoves(s, 0, s.now);
  }

  lemma LoneTakes(c: Config, s: State)
    requires Lone(c, s) && s.printers[0].pc.PJobLock? && Control.Takes(s, 0)
    ensures Lone(c, PrinterDequeue(s, 0, s.now))
  {
    assert (|s.hist.left| + 1) * c.maxNeed == |s.hist.left| * c.maxNeed + c.maxNeed;
    assert s.queue[0].need == c.maxNeed;
  }

  lemma LonePrinter(c: Config, s: State)
    requires Inv(c, s) && Lone(c, s) && c.maxNeed * c.jobs > c.capacity
    requires Serving(s.printers[0].pc) && s.printers[0].pc != PJobWait(false)
    ensures PrinterEnabled(s, 0) && Lone(c, PrinterNext(s, 0, s.now))
  {
    var pc := s.printers[0].pc;
    if pc.PJobLock? {
      if Control.Takes(s, 0) { LoneTakes(c, s); } else { LoneStays(c, s); }
    } else if pc.PStart? || pc.PPrint? || pc.PDepart? {
      LoneServes(c, s);
    } else {
      LonePasses(c, s);
    }
  }

  lemma LoneArrives(c: Config, s: State)
    requires Lone(c, s) && s.printers[0].pc == PJobWait(false)
    requires s.receiver.RLoop? || s.receiver.RStamp? || s.receiver.RCount? || s.receiver.RBroadcast?
    ensures Lone(c, ReceiverNext(c, s, s.now, s.now, c.maxNeed))
  {
  }

  lemma LoneEnqueues(c: Config, s: State)
    requires c.Valid() && Control.JobWakeups(s) && Lone(c, s) && s.printers[0].pc == PJobWait(false) && s.receiver.REnter?
    ensures Lone(c, ReceiverEnter(c, s, s.now, s.now))
  {
  }

  lemma LoneRecords(c: Config, s: State)
    requires Lone(c, s) && s.printers[0].pc == PJobWait(false) && s.receiver.RHold?
    ensures Lone(c, ReceiverRecord(s))
  {
  }

  lemma LoneReceiver(c: Config, s: State)
    requires Inv(c, s) && Lone(c, s) && s.printers[0].pc == PJobWait(false)
    ensures Enabled(c, s, ReceiverRuns(s.now, s.now, c.maxNeed))
    ensures Lone(c, ReceiverNext(c, s, s.now, s.now, c.maxNeed))
  {
    assert s.allArrived ==> Control.OwesJobBroadcast(s);
    if s.receiver.REnter? {
      LoneEnqueues(c, s);
    } else if s.receiver.RHold? {
      LoneRecords(c, s);
    } else {
      LoneArrives(c, s);
    }
  }

  /** Printer 0 runs when it can, else the receiver does. */
  lemma LoneStep(c: Config, s: State) returns (a: Action)
    requires Inv(c, s) && Lone(c, s) && c.maxNeed * c.jobs > c.capacity && !s.printers[0].pc.PRefillLock?
    ensures Enabled(c, s, a) && !Spontaneous(a) && Lone(c, Next(c, s, a))
  {
    if s.printers[0].pc == PJobWait(false) {
      LoneReceiver(c, s);
      a := ReceiverRuns(s.now, s.now, c.maxNeed);
    } else {
      LonePrinter(c, s);
      a := PrinterRuns(0, s.now);
    }
  }

  /** Left to itself, printer 0 comes to ask for paper. */
  lemma {:induction false} LoneRun(c: Config, s: State) returns (s': State)
    requires Inv(c, s) && Lone(c, s) && c.maxNeed * c.jobs > c.capacity && Reached(c, s)
    ensures Inv(c, s') && !s'.terminate && s'.printers[0].pc.PRefillLock? && Reached(c, s')
    decreases Rank(c, s)
  {
    assert c.Valid();
    hide Inv;
    if s.printers[0].pc.PRefillLock? {
      s' := s;
    } else {
      var a := LoneStep(c, s);
      RankNonNegative(c, s);
      NextDecreases(c, s, a);
      NextHolds(c, s, a);
      ReachedThen(c, s, a);
      s' := LoneRun(c, Next(c, s, a));
    }
  }

  // ---- second part: everybody but printer 0 runs ----

  lemma OthersStep(c: Config, s: State, a: Action)
    requires Refilling.Papers(c, s) && Enabled(c, s, a) && OfProgram(s, a) && !(a.PrinterRuns? && a.i == 0)
    requires 0 < |s.printers| && s.printers[0].pc.PRefillLock?
    ensures 0 < |Next(c, s, a).printers| && Next(c, s, a).printers[0].pc.PRefillLock?
    ensures Next(c, s, a).terminate == s.terminate
  {
    Interference.NextLeavesAlone(c, s, a);
    assert Interference.Untouched(s.printers[0], Next(c, s, a).printers[0]);
  }

  /** The others finish the run, while printer 0 is about to ask for paper. */
  lemma {:induction false} OthersRun(c: Config, s: State) returns (s': State)
    requires Inv(c, s) && s.printers[0].pc.PRefillLock? && Reached(c, s)
    ensures Inv(c, s') && |s'.printers| == c.printers && QuiescentBut(c, s', 0) && Reached(c, s')
    ensures s'.terminate == s.terminate
    decreases Rank(c, s)
  {
    assert c.Valid() && |s.printers| == c.printers && Refilling.Papers(c, s);
    hide Inv;
    if QuiescentBut(c, s, 0) {
      s' := s;
    } else {
      var a :| OfProgram(s, a) && !(a.PrinterRuns? && a.i == 0) && Enabled(c, s, a);
      RankNonNegative(c, s);
      NextDecreases(c, s, a);
      NextHolds(c, s, a);
      ReachedThen(c, s, a);
      OthersStep(c, s, a);
      s' := OthersRun(c, Next(c, s, a));
    }
  }

  // ---- third part: printer 0 asks ----

  lemma RequestSleeps(c: Config, s: State)
    requires Inv(c, s) && QuiescentBut(c, s, 0) && 0 < |s.printers| && (s.terminate || s.allServed)
    ensures Enabled(c, s, PrinterRuns(0, s.now))
    ensures Quiescent(c, PrinterRequest(s, 0, s.now)) && PrinterRequest(s, 0, s.now).printers[0].pc.PRefillWait?
  {
    var s' := PrinterRequest(s, 0, s.now);
    ReceiverIsDone(c, s, 0);
    RefillerIsGone(c, s, 0);
    RefillQueueIsFree(c, s, 0);
    assert Refilling.Paper(c, s, 0, s.printers[0]);
    assert (s'.receiver.RDone? || s'.receiver.RCancelled?) && (s'.stop.HIdle? || s'.stop.HDone?);
    forall i | 0 <= i < |s'.printers| ensures !PrinterEnabled(s', i) {
      if i != 0 {
        PrinterAtRest(c, s, 0, i);
      }
    }
  }

  lemma RequestReached(c: Config, s: State)
    requires c.Valid() && Reached(c, s) && 0 < |s.printers| && s.printers[0].pc.PRefillLock?
    requires Enabled(c, s, PrinterRuns(0, s.now))
    ensures var s' := PrinterRequest(s, 0, s.now);
      Reached(c, s') && s'.terminate == s.terminate && |s'.printers| == |s.printers|
  {
    ReachedThen(c, s, PrinterRuns(0, s.now));
  }

  /** A run to the point at which printer 0 is about to ask for paper. */
  lemma Asks(c: Config) returns (s: State)
    requires c.Valid() && c.maxNeed * c.jobs > c.capacity
    ensures Inv(c, s) && !s.terminate && s.printers[0].pc.PRefillLock? && Reached(c, s)
  {
    var s0 := Init(c, 0, 0);
    InitHolds(c, 0, 0);
    assert ReachedBy(c, s0, 0, 0, []) && NoneSpontaneous([]);
    s := LoneRun(c, s0);
  }

  /** From there the others finish the run, and the request puts printer 0 to sleep for good. */
  lemma SleepsForGood(c: Config, s: State) returns (s': State)
    requires Inv(c, s) && s.printers[0].pc.PRefillLock? && Reached(c, s) && (s.terminate || c.printers >= 2)
    ensures Reached(c, s') && s'.terminate == s.terminate && Quiescent(c, s')
    ensures |s'.printers| == c.printers && s'.printers[0].pc.PRefillWait?
  {
    assert c.Valid();
    hide Inv, PrinterRequest, Reached, Quiescent;
    var s1 := OthersRun(c, s);
    if !s.terminate {
      RunHasEnded(c, s1, 0, 1);
    }
    RequestSleeps(c, s1);
    RequestReached(c, s1);
    s' := PrinterRequest(s1, 0, s1.now);
  }

  lemma Strands(c: Config) returns (s: State)
    requires c.Valid() && c.printers >= 2 && c.maxNeed * c.jobs > c.capacity
    ensures Reached(c, s) && !s.terminate && Quiescent(c, s)
    ensures |s.printers| == c.printers && s.printers[0].pc.PRefillWait?
  {
    var s1 := Asks(c);
    s := SleepsForGood(c, s1);
  }

  lemma StopReached(c: Config, s: State)
    requires Inv(c, s) && !s.terminate && Reached(c, s)
    ensures Inv(c, StopRaise(s)) && Reached(c, StopRaise(s))
  {
    var a := StopRuns(s.now);
    NextHolds(c, s, a);
    ReachedThen(c, s, a);
    assert Next(c, s, a) == StopRaise(s);
  }

  /** With a stop request in between, one printer is enough. */
  lemma StrandsStopped(c: Config) returns (s: State)
    requires c.Valid() && c.maxNeed * c.jobs > c.capacity
    ensures Reached(c, s) && s.terminate && Quiescent(c, s)
    ensures |s.printers| == c.printers && s.printers[0].pc.PRefillWait?
  {
    var s1 := Asks(c);
    StopReached(c, s1);
    hide Inv;
    s := SleepsForGood(c, StopRaise(s1));
  }

  /** Every printer thread is sure to end exactly when there is one printer, or when a full printer has
      paper for all the jobs there can be. */
  lemma PrintersExitIff(c: Config)
    requires c.Valid()
    ensures Joining.PrintersAlwaysExit(c) <==> c.printers == 1 || c.maxNeed * c.jobs <= c.capacity
  {
    if c.printers == 1 || c.maxNeed * c.jobs <= c.capacity {
      Joining.ExitsAlways(c);
    } else {
      var s := Strands(c);
      assert Reachable(c, s);
      assert !s.printers[0].pc.PExited?;
    }
  }

  /** After a stop every printer thread is sure to end exactly when a full printer has paper for all the
      jobs there can be, however many printers there are. */
  lemma StoppedPrintersExitIff(c: Config)
    requires c.Valid()
    ensures Joining.StoppedPrintersAlwaysExit(c) <==> c.maxNeed * c.jobs <= c.capacity
  {
    if c.maxNeed * c.jobs <= c.capacity {
      Joining.StoppedExitsAlways(c);
    } else {
      var s := StrandsStopped(c);
      assert Reachable(c, s);
      assert !s.printers[0].pc.PExited?;
    }
  }
}
