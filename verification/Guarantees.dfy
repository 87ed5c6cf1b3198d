/** What every reachable state guarantees, for any number of printers and any schedule. */
module Guarantees {
  import opened Records
  import opened Machine
  import opened Sums
  import Control
  import Timing
  import Refilling
  import Books
  import BookKeeping
  import opened Runs
  import Drain

  // ---- wake-ups ----

  /** No lost wake-up on the job queue, stop included. */
  lemma NoLostJobWakeup(c: Config, s: State, i: nat)
    requires c.Valid() && Reachable(c, s) && s.jobOwner.Free?
    requires i < |s.printers| && s.printers[i].pc == PJobWait(false)
    ensures s.queue == [] && (!s.allArrived || Control.OwesJobBroadcast(s))
  {
    ReachableHolds(c, s);
  }

  /** The refiller sleeps only on an empty refill queue, and never through the end of the run. */
  lemma NoLostRefillerWakeup(c: Config, s: State)
    requires c.Valid() && Reachable(c, s) && s.refiller == FWait(false)
    ensures s.refillQueue == []
    ensures !(s.terminate || s.allServed) || Control.OwesRefillBroadcast(s)
  {
    ReachableHolds(c, s);
  }

  /** A printer asleep for paper is queued for a refill, is being refilled, or was refilled and the
      broadcast is still owed. */
  lemma RefillObligation(c: Config, s: State, i: nat)
    requires c.Valid() && Reachable(c, s) && !s.terminate && !s.allServed
    requires i < |s.printers| && s.printers[i].pc.PRefillWait? && !s.printers[i].pc.signalled
    ensures
      || i in s.refillQueue
      || ((s.refiller.FPlan? || s.refiller.FFill?) && s.refiller.i == i)
      || ((s.refiller.FRecord? || s.refiller.FNotify?) && s.printers[i].paper == c.capacity >= s.printers[i].pc.need)
  {
    ReachableHolds(c, s);
    assert Refilling.Paper(c, s, i, s.printers[i]);
  }

  // ---- refilling ----

  /** A printer is at most once in the refill queue or the refiller's hands and prints nothing meanwhile. */
  lemma RefillIsExclusive(c: Config, s: State, i: nat)
    requires c.Valid() && Reachable(c, s) && i < |s.printers|
    ensures multiset(s.refillQueue)[i] + (if Refilling.InFlight(s.refiller, i) then 1 else 0) <= 1
    ensures Refilling.Pending(s, i) ==> !Timing.InService(s.printers[i].pc)
    ensures 0 <= s.printers[i].paper <= c.capacity
  {
    ReachableHolds(c, s);
    assert Refilling.Paper(c, s, i, s.printers[i]);
    AtMostOnce(s.refillQueue, i);
  }

  lemma {:induction false} AtMostOnce(q: seq<nat>, x: nat)
    requires forall k, l :: 0 <= k < l < |q| ==> q[k] != q[l]
    ensures multiset(q)[x] <= 1
  {
    if q != [] {
      AtMostOnce(q[1..], x);
      assert q == [q[0]] + q[1..];
      assert x == q[0] ==> x !in q[1..];
    }
  }

  /** The refiller never finds a full printer: it plans at least `capacity - maxNeed + 1` papers. */
  lemma RefillIsNeeded(c: Config, s: State)
    requires c.Valid() && Reachable(c, s) && s.refiller.FPlan?
    ensures s.refiller.i < |s.printers|
    ensures var s' := RefillerPlan(c, s); s'.refiller.FFill? && s'.refiller.papers >= c.capacity - c.maxNeed + 1
  {
    ReachableHolds(c, s);
    assert Refilling.InFlight(s.refiller, s.refiller.i);
    assert Refilling.Paper(c, s, s.refiller.i, s.printers[s.refiller.i]);
  }

  /** However long the refill took, it leaves the printer exactly full. */
  lemma RefillFills(c: Config, s: State, t: nat)
    requires c.Valid() && Reachable(c, s) && s.refiller.FFill?
    ensures s.refiller.i < |s.printers|
    ensures RefillerFill(s, t).printers[s.refiller.i].paper == c.capacity
  {
    ReachableHolds(c, s);
    assert Refilling.InFlight(s.refiller, s.refiller.i);
    assert Refilling.Paper(c, s, s.refiller.i, s.printers[s.refiller.i]);
  }

  lemma {:induction false} PaperSums(c: Config, ps: seq<Printer>)
    requires forall k :: 0 <= k < |ps| ==> ps[k].paper + ps[k].used == c.capacity + ps[k].added && ps[k].paper <= c.capacity
    ensures Sum(Books.PaperHeld, ps) + Sum(Books.Used, ps) == |ps| * c.capacity + Sum(Books.Added, ps)
    ensures Sum(Books.Added, ps) <= Sum(Books.Used, ps)
  {
    if ps != [] {
      PaperSums(c, ps[1..]);
    }
  }

  lemma PaperOfPrinters(c: Config, s: State)
    requires Refilling.Papers(c, s)
    ensures forall i :: 0 <= i < |s.printers| ==>
      && s.printers[i].paper + s.printers[i].used == c.capacity + s.printers[i].added
      && s.printers[i].paper <= c.capacity
  {
    forall i | 0 <= i < |s.printers|
      ensures s.printers[i].paper + s.printers[i].used == c.capacity + s.printers[i].added
      ensures s.printers[i].paper <= c.capacity
    {
      assert Refilling.Paper(c, s, i, s.printers[i]);
    }
  }

  lemma PaperTotals(c: Config, s: State)
    requires |s.printers| == c.printers && Refilling.Papers(c, s) && Books.Papers(c, s) && c.maxNeed <= c.capacity
    ensures Sum(Books.PaperHeld, s.printers) + Sum(Books.Used, s.printers)
            == c.printers * c.capacity + s.stats.papersRefilled + (if s.refiller.FRecord? then s.refiller.papers else 0)
    ensures s.stats.papersRefilled <= Sum(Books.Used, s.printers)
  {
    PaperOfPrinters(c, s);
    PaperSums(c, s.printers);
  }

  /** Paper is conserved, and the number of refills is bounded by the paper used. */
  lemma PaperIsConserved(c: Config, s: State)
    requires c.Valid() && Reachable(c, s)
    ensures forall i :: 0 <= i < |s.printers| ==>
      s.printers[i].paper + s.printers[i].used == c.capacity + s.printers[i].added
    ensures Sum(Books.PaperHeld, s.printers) + Sum(Books.Used, s.printers)
            == c.printers * c.capacity + s.stats.papersRefilled + (if s.refiller.FRecord? then s.refiller.papers else 0)
    ensures s.stats.refillEvents * (c.capacity - c.maxNeed + 1) <= s.stats.papersRefilled <= Sum(Books.Used, s.printers)
  {
    ReachableHolds(c, s);
    hide Sum, Books.Order, Books.Arrivals, Books.Departures, Books.Area, Books.Totals, Timing.Inv, Control.Exits;
    PaperOfPrinters(c, s);
    PaperTotals(c, s);
  }

  // ---- jobs ----

  /** The places a job can be in. */
  function Places(s: State): multiset<nat> {
    Books.PendingIds(s.receiver) + multiset(Ids(s.queue)) + Gather(Books.InServiceIds, s.printers)
    + multiset(Books.ServedIds(s.hist.served)) + multiset(s.hist.dropped) + multiset(s.hist.removed)
  }

  lemma {:induction false} UpToOnce(n: nat, id: nat)
    ensures multiset(UpTo(n))[id] == if 1 <= id <= n then 1 else 0
  {
    if n == 0 {
      assert UpTo(0) == [];
    } else {
      UpToOnce(n - 1, id);
      UpToNext(n - 1);
    }
  }

  /** Conservation, stop included: every counted job is in exactly one place. */
  lemma JobsAreConserved(c: Config, s: State)
    requires c.Valid() && Reachable(c, s)
    ensures Places(s) == multiset(UpTo(s.stats.arrived))
    ensures forall id: nat :: Places(s)[id] == if 1 <= id <= s.stats.arrived then 1 else 0
  {
    ReachableHolds(c, s);
    assert multiset(s.hist.left + Ids(s.queue)) == multiset(s.hist.enqueued);
    forall id: nat ensures multiset(UpTo(s.stats.arrived))[id] == if 1 <= id <= s.stats.arrived then 1 else 0 {
      UpToOnce(s.stats.arrived, id);
    }
  }

  /** Nothing is on its way to the queue or in service. */
  ghost predicate Settled(s: State) {
    && !Books.PendingArrival(s.receiver)
    && forall i :: 0 <= i < |s.printers| ==> !Timing.InService(s.printers[i].pc)
  }

  /** Once the stop handler has emptied the queue, at most one job is left behind in it. */
  lemma SettledCounts(c: Config, s: State)
    requires c.Valid() && Reachable(c, s) && Settled(s)
    ensures s.stats.arrived == s.stats.served + s.stats.dropped + s.stats.removed + |s.queue|
    ensures !Control.BeforeEmpty(s.stop) ==> |s.queue| <= 1
  {
    ReachableHolds(c, s);
    JobsAreConserved(c, s);
    Drain.NoneInService(s.printers);
    assert |Places(s)| == |multiset(UpTo(s.stats.arrived))|;
  }

  /** First in, first out: in a run without a stop the jobs taken, followed by the jobs queued, are the
      jobs enqueued, and the numbers increase. */
  lemma GlobalFifo(c: Config, s: State)
    requires c.Valid() && Reachable(c, s) && !s.terminate
    ensures s.hist.left + Ids(s.queue) == s.hist.enqueued && Increasing(s.hist.enqueued)
    ensures multiset(s.hist.left) == Gather(Books.InServiceIds, s.printers) + multiset(Books.ServedIds(s.hist.served))
  {
    ReachableHolds(c, s);
  }

  /** The job a printer looked at is the job it takes, and it has the paper for it. */
  lemma TakesTheFront(c: Config, s: State, i: nat, t: nat)
    requires c.Valid() && Reachable(c, s) && Enabled(c, s, PrinterRuns(i, t)) && s.printers[i].pc.PJobLock?
    ensures var s' := Next(c, s, PrinterRuns(i, t));
      s'.printers[i].pc.PStart? ==>
        && s.queue != [] && s'.queue == s.queue[1..] && s'.hist.left == s.hist.left + [s.queue[0].id]
        && s'.printers[i].pc.job == s.queue[0].(queueDeparture := t)
        && 1 <= s'.printers[i].pc.job.need <= s'.printers[i].paper
  {
    ReachableHolds(c, s);
    if Control.Takes(s, i) {
      assert Timing.QueuedOk(c, s, s.queue[0]);
    }
  }

  /** Every job in service has been given to a printer that has the paper for it. */
  lemma JobsInServiceFit(c: Config, s: State, i: nat)
    requires c.Valid() && Reachable(c, s) && i < |s.printers|
    requires s.printers[i].pc.PStart? || s.printers[i].pc.PPrint?
    ensures 1 <= s.printers[i].pc.job.need <= s.printers[i].paper
  {
    ReachableHolds(c, s);
    assert Refilling.Paper(c, s, i, s.printers[i]);
  }

  /** The queue never outgrows its capacity, and a job is refused only when the queue is full. */
  lemma QueueIsBounded(c: Config, s: State, t: nat, t2: nat, need: nat)
    requires c.Valid() && Reachable(c, s) && c.queueCapacity != -1
    ensures |s.queue| <= c.queueCapacity
    ensures Enabled(c, s, ReceiverRuns(t, t2, need)) && s.receiver.REnter? ==>
      (Next(c, s, ReceiverRuns(t, t2, need)).receiver.RDrop? <==> |s.queue| == c.queueCapacity)
  {
    ReachableHolds(c, s);
  }

  /** The recorded maximum is one less than the true peak. */
  lemma PeakIsOneMore(c: Config, s: State)
    requires c.Valid() && Reachable(c, s) && s.jobOwner.Free?
    ensures s.hist.peak == if s.hist.enqueued == [] then 0 else s.stats.maxLength + 1
    ensures |s.queue| <= s.hist.peak
  {
    ReachableHolds(c, s);
  }

  // ---- time ----

  /** Little's law at every moment at which nobody holds the job queue: the queue-length integral is the
      waiting time of the jobs served, in service and queued, plus what was counted for jobs that the
      stop handler then removed. */
  lemma AreaIsWaiting(c: Config, s: State)
    requires c.Valid() && Reachable(c, s) && s.jobOwner.Free?
    ensures s.stats.area == Sum(Books.QueueWait, s.hist.served) + Sum(Books.WaitInService, s.printers)
                            + Elapsed(s.queue, s.last) + s.hist.forgone
    ensures s.hist.forgone >= 0 && (!s.terminate ==> s.hist.forgone == 0)
    ensures s.stats.area >= s.stats.queueWait == Sum(Books.QueueWait, s.hist.served)
  {
    ReachableHolds(c, s);
    assert s.queue[..|s.queue|] == s.queue;
    WaitsNonNegative(c, s);
  }

  lemma WaitsNonNegative(c: Config, s: State)
    requires Inv(c, s) && s.jobOwner.Free?
    ensures Elapsed(s.queue, s.last) >= 0 && Sum(Books.WaitInService, s.printers) >= 0
  {
    BookKeeping.ElapsedNonNegative(s.queue, s.last);
    forall k | 0 <= k < |s.printers| ensures Books.WaitInService(s.printers[k]) >= 0 {
      assert Timing.Service(c, s, s.printers[k].pc);
    }
    NonNegativeSum(Books.WaitInService, s.printers);
  }

  /** Every served job went through its life cycle in order, within the run. */
  lemma LifeCyclesAreOrdered(c: Config, s: State, v: Service)
    requires c.Valid() && Reachable(c, s) && v in s.hist.served
    ensures s.stats.start <= v.job.systemArrival <= v.job.queueArrival <= v.job.queueDeparture
    ensures v.job.queueDeparture <= v.job.serviceArrival <= v.job.serviceDeparture <= s.now
    ensures v.printer < c.printers
  {
    ReachableHolds(c, s);
    var k :| 0 <= k < |s.hist.served| && s.hist.served[k] == v;
    assert Timing.InOrder(s, s.hist.served[k].job);
  }

  /** The statistics are those of the jobs served, in terms of the jobs' own timestamps: the totals of all
      jobs, and for each of the five printers of the table those of its jobs. */
  lemma ServicesAreRecorded(c: Config, s: State)
    requires c.Valid() && Reachable(c, s)
    ensures s.stats.served == |s.hist.served|
    ensures s.stats.systemTime == Sum(Books.SystemTime, s.hist.served)
    ensures s.stats.systemTimeSquared == Sum(Books.SystemTimeSquared, s.hist.served)
    ensures s.stats.queueWait == Sum(Books.QueueWait, s.hist.served)
    ensures |s.stats.perPrinter| == 5
    ensures forall i :: 0 <= i < 5 ==>
      && s.stats.perPrinter[i].served == Sum(Books.JobsBy(i), s.hist.served)
      && s.stats.perPrinter[i].paperUsed == Sum(Books.PapersBy(i), s.hist.served)
      && s.stats.perPrinter[i].serviceTime == Sum(Books.ServiceBy(i), s.hist.served)
    ensures s.stats.maxUsed == Books.HighestUsed(s.hist.served)
  {
    ReachableHolds(c, s);
    forall i | 0 <= i < 5
      ensures s.stats.perPrinter[i].served == Sum(Books.JobsBy(i), s.hist.served)
      ensures s.stats.perPrinter[i].paperUsed == Sum(Books.PapersBy(i), s.hist.served)
      ensures s.stats.perPrinter[i].serviceTime == Sum(Books.ServiceBy(i), s.hist.served)
    {
      assert Books.Row(s.hist.served, i, s.stats.perPrinter[i]);
    }
  }

  /** Time accounting: waiting and service fit into the system time; each printer's time serving and its
      time without paper together fit into the run, and so does the refiller's; the inter-arrival times
      telescope to the last recorded arrival, drops included. */
  lemma TimeIsAccounted(c: Config, s: State)
    requires c.Valid() && Reachable(c, s)
    ensures s.stats.systemTime >= s.stats.queueWait + Sum(Books.ServiceTimeOf, s.stats.perPrinter)
    ensures |s.stats.perPrinter| == MAX_PRINTERS
    ensures forall i :: 0 <= i < |s.printers| && i < MAX_PRINTERS ==>
      && 0 <= s.stats.perPrinter[i].serviceTime && 0 <= s.stats.perPrinter[i].emptyTime
      && s.stats.perPrinter[i].serviceTime + s.stats.perPrinter[i].emptyTime <= s.now - s.stats.start
    ensures 0 <= s.stats.refillTime <= s.now - s.stats.start
    ensures s.stats.interArrival ==
      (if Books.Counted(s.receiver) then s.receiver.job.systemArrival else s.previousArrival) - s.stats.start
  {
    ReachableHolds(c, s);
    forall i | 0 <= i < |s.printers| && i < MAX_PRINTERS
      ensures 0 <= s.stats.perPrinter[i].serviceTime && 0 <= s.stats.perPrinter[i].emptyTime
      ensures s.stats.perPrinter[i].serviceTime + s.stats.perPrinter[i].emptyTime <= s.now - s.stats.start
    {
      assert Timing.Utilised(s, s.printers[i].pc, s.stats.perPrinter[i]);
    }
  }

  // ---- deadlock between sections ----

  /** Whenever a mutex is held between sections, its holder can run. */
  lemma HoldersCanRun(c: Config, s: State)
    requires c.Valid() && Reachable(c, s)
    ensures s.jobOwner.ByReceiver? ==> Enabled(c, s, ReceiverRuns(s.now, s.now, 1))
    ensures s.jobOwner.ByStop? ==> Enabled(c, s, StopRuns(s.now))
    ensures s.refillOwner.ByRefiller? ==> Enabled(c, s, RefillerRuns(s.now))
    ensures s.refillOwner.ByPrinter? ==> Enabled(c, s, PrinterRuns(s.refillOwner.i, s.now))
  {
    ReachableHolds(c, s);
  }
}
