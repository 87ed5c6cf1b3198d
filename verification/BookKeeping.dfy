/** Every section of every thread keeps the books. */
module BookKeeping {
  import opened Records
  import opened Machine
  import opened Sums
  import opened Books
  import Control
  import Timing
  import Refilling

  // ---- sections that leave all books alone ----

  lemma PrinterQuiet(s: State, i: nat, t: nat)
    requires i < |s.printers| && PrinterEnabled(s, i)
    requires var pc := s.printers[i].pc; pc.PTop? || pc.PJobWait? || pc.PAfter? || pc.PExitCheck? || pc.PServed?
    ensures Quiet(s, PrinterNext(s, i, t))
  {
  }

  lemma ExitQuiet(s: State, i: nat)
    requires i < |s.printers| && s.printers[i].pc.PExit?
    ensures Quiet(s, PrinterExit(s, i))
  {
  }

  lemma WaitQuiet(s: State, i: nat, t: nat)
    requires i < |s.printers| && (s.printers[i].pc.PRefillWait? || s.printers[i].pc.PRefillHold?)
    ensures Quiet(s, PrinterNext(s, i, t))
  {
  }

  lemma ResumeQuiet(s: State, i: nat, t: nat)
    requires i < |s.printers| && (s.printers[i].pc.PRefillDone? || s.printers[i].pc.PStart?)
    ensures Quiet(s, PrinterNext(s, i, t))
  {
  }

  lemma RequestQuiet(s: State, i: nat, t: nat)
    requires i < |s.printers| && s.printers[i].pc.PRefillLock?
    ensures Quiet(s, PrinterRequest(s, i, t))
  {
  }

  lemma EndQuiet(s: State, need: nat)
    requires s.receiver.RLoop? || s.receiver.RBroken? || s.receiver.RFinish?
    ensures Quiet(s, ReceiverReadFlag(s, need)) && Quiet(s, ReceiverBreak(s)) && Quiet(s, ReceiverFinish(s))
  {
  }

  lemma StampQuiet(s: State, t: nat)
    requires s.receiver.RStamp?
    ensures Quiet(s, ReceiverStamp(s, t))
  {
  }

  lemma WakeAllQuiet(s: State)
    requires s.receiver.RBroadcast?
    ensures Quiet(s, ReceiverWakeAll(s))
  {
  }

  lemma LeaveQuiet(s: State, t: nat)
    requires s.refiller.FCheck? && (s.terminate || s.allServed)
    ensures Quiet(s, RefillerCheck(s, t))
  {
  }

  lemma RefillerCheckQuiet(s: State, t: nat)
    requires s.refiller.FCheck?
    ensures Quiet(s, RefillerCheck(s, t))
  {
    if s.terminate || s.allServed {
      LeaveQuiet(s, t);
    }
  }

  lemma RefillerQuiet(c: Config, s: State, t: nat)
    requires RefillerEnabled(s) && (s.refiller.FLock? || s.refiller.FWait? || s.refiller.FPlan? || s.refiller.FNotify?)
    ensures Quiet(s, RefillerNext(c, s, t))
  {
  }

  lemma StopQuiet(s: State, t: nat)
    requires StopEnabled(s) && (s.stop.HIdle? || s.stop.HStamp? || s.stop.HLock?)
    ensures Quiet(s, StopNext(s, t))
  {
  }

  lemma StopWakeQuiet(s: State)
    ensures Quiet(s, StopWakeAll(s))
  {
  }

  lemma EnvironmentQuiet(c: Config, s: State, a: Action)
    requires Enabled(c, s, a)
    requires a.ReceiverDies? || a.RefillerDies? || a.PrinterSpurious? || a.RefillerSpurious?
    ensures Quiet(s, Next(c, s, a))
  {
  }

  // ---- the printer takes, prints and completes a job ----

  lemma TakeOrder(s: State, i: nat, t: nat)
    requires Order(s) && i < |s.printers| && s.queue != []
    ensures Order(PrinterDequeue(s, i, t))
  {
    var s' := PrinterDequeue(s, i, t);
    assert Ids(s.queue) == [s.queue[0].id] + Ids(s'.queue);
    MoveHead(s.hist.left, s.queue[0].id, Ids(s'.queue));
    assert s'.hist.left == s.hist.left + [s.queue[0].id];
  }

  lemma MoveHead(a: seq<nat>, x: nat, b: seq<nat>)
    ensures a + ([x] + b) == (a + [x]) + b
  {
  }

  lemma TakeJobs(s: State, i: nat, t: nat)
    requires Jobs(s) && i < |s.printers| && s.queue != [] && !s.receiver.RHold?
    ensures Jobs(PrinterDequeue(s, i, t))
  {
    TakeOrder(s, i, t);
  }

  lemma TakeDepartures(s: State, i: nat, t: nat)
    requires Departures(s) && i < |s.printers| && s.queue != [] && s.printers[i].pc.PJobLock?
    ensures Departures(PrinterDequeue(s, i, t))
  {
    var s' := PrinterDequeue(s, i, t);
    GatherUpdate(InServiceIds, s.printers, i, s'.printers[i]);
    assert Gather(InServiceIds, s'.printers) == Gather(InServiceIds, s.printers) + multiset{s.queue[0].id};
  }

  lemma TakeArea(s: State, i: nat, t: nat)
    requires Area(s) && i < |s.printers| && s.queue != [] && !s.receiver.RHold? && s.printers[i].pc.PJobLock?
    ensures Area(PrinterDequeue(s, i, t))
  {
    var s' := PrinterDequeue(s, i, t);
    SumUpdate(WaitInService, s.printers, i, s'.printers[i]);
    ElapsedShift(s.queue, s.last, t);
    assert s.queue[..|s.queue|] == s.queue && s'.queue[..|s'.queue|] == s'.queue;
  }

  lemma TakeRest(s: State, i: nat, t: nat)
    requires i < |s.printers| && s.queue != [] && s.printers[i].pc.PJobLock?
    ensures SameTallies(s, PrinterDequeue(s, i, t)) && SamePapers(s, PrinterDequeue(s, i, t))
  {
  }

  lemma PrintTallies(c: Config, s: State, i: nat, t: nat)
    requires Tallies(c, s) && i < |s.printers| && s.printers[i].pc.PPrint?
    ensures Tallies(c, PrinterPrint(s, i, t))
  {
  }

  lemma PrintRest(s: State, i: nat, t: nat)
    requires i < |s.printers| && s.printers[i].pc.PPrint?
    ensures var s' := PrinterPrint(s, i, t); SameJobs(s, s') && SameServed(s, s') && SamePapers(s, s')
  {
  }

  lemma DepartDepartures(s: State, i: nat)
    requires Departures(s) && i < |s.printers| && s.printers[i].pc.PDepart?
    ensures Departures(PrinterDepart(s, i))
  {
    var s' := PrinterDepart(s, i);
    var id := s.printers[i].pc.job.id;
    GatherUpdate(InServiceIds, s.printers, i, s'.printers[i]);
    var served := ServedIds(s.hist.served);
    assert ServedIds(s'.hist.served) == served + [id];
    MoveId(Gather(InServiceIds, s.printers), Gather(InServiceIds, s'.printers), served, s.hist.removed, id);
  }

  lemma MoveId(busy: multiset<nat>, busy': multiset<nat>, served: seq<nat>, removed: seq<nat>, id: nat)
    requires busy' + multiset{id} == busy
    ensures busy + multiset(served) + multiset(removed) == busy' + multiset(served + [id]) + multiset(removed)
  {
  }

  lemma DepartArea(s: State, i: nat)
    requires Area(s) && i < |s.printers| && s.printers[i].pc.PDepart?
    ensures Area(PrinterDepart(s, i))
  {
    SumUpdate(WaitInService, s.printers, i, PrinterDepart(s, i).printers[i]);
    SumAppend(QueueWait, s.hist.served, Service(s.printers[i].pc.job, i));
  }

  lemma DepartRow(vs: seq<Service>, v: Service, i: nat, ps: PrinterStats)
    requires Row(vs, i, ps)
    ensures Row(vs + [v], i, if v.printer == i then AddService(ps, v) else ps)
  {
    SumAppend(JobsBy(i), vs, v);
    SumAppend(PapersBy(i), vs, v);
    SumAppend(ServiceBy(i), vs, v);
  }

  lemma DepartRecorded(s: State, i: nat)
    requires Recorded(s) && i < |s.printers| && s.printers[i].pc.PDepart?
    ensures Recorded(PrinterDepart(s, i))
  {
    var v, vs := Service(s.printers[i].pc.job, i), s.hist.served;
    forall k | 0 <= k < MAX_PRINTERS ensures Row(vs + [v], k, PrinterDepart(s, i).stats.perPrinter[k]) {
      DepartRow(vs, v, k, s.stats.perPrinter[k]);
    }
    assert (vs + [v])[..|vs|] == vs;
  }

  lemma DepartTotals(c: Config, s: State, i: nat)
    requires Recorded(s) && Totals(c, s)
    requires i < |s.printers| && |s.printers| == c.printers && s.printers[i].pc.PDepart?
    requires Timing.Service(c, s, s.printers[i].pc)
    ensures Totals(c, PrinterDepart(s, i))
  {
    var s' := PrinterDepart(s, i);
    var v := Service(s.printers[i].pc.job, i);
    SumAppend(SystemTime, s.hist.served, v);
    SumAppend(SystemTimeSquared, s.hist.served, v);
    SumAppend(Listed, s.hist.served, v);
    assert v.SystemTime() >= v.QueueWait() + v.ServiceTime();
    if i < MAX_PRINTERS {
      var ps := s.stats.perPrinter;
      SumUpdate(ServedBy, ps, i, AddService(ps[i], v));
      SumUpdate(ServiceTimeOf, ps, i, AddService(ps[i], v));
      assert s'.stats.perPrinter == ps[i := AddService(ps[i], v)];
    } else {
      assert s'.stats.perPrinter == s.stats.perPrinter;
    }
  }

  lemma DepartRest(s: State, i: nat)
    requires i < |s.printers| && s.printers[i].pc.PDepart?
    ensures SameJobs(s, PrinterDepart(s, i)) && SamePapers(s, PrinterDepart(s, i))
  {
  }

  lemma {:induction false} ElapsedShift(q: seq<Job>, a: int, b: int)
    ensures Elapsed(q, b) == Elapsed(q, a) + (b - a) * |q|
  {
    if q != [] {
      ElapsedShift(q[1..], a, b);
    }
  }

  lemma {:induction false} ElapsedAppend(q: seq<Job>, j: Job, a: int)
    ensures Elapsed(q + [j], a) == Elapsed(q, a) + (a - j.queueArrival)
  {
    if q == [] {
      assert [j][1..] == [];
    } else {
      ElapsedAppend(q[1..], j, a);
      assert (q + [j])[1..] == q[1..] + [j];
    }
  }

  // ---- the receiver counts, enqueues and drops a job ----

  lemma CountJobs(s: State)
    requires Jobs(s) && s.receiver.RCount? && s.receiver.job.id == s.index + 1
    ensures Jobs(ReceiverCount(s))
  {
    UpToNext(s.stats.arrived);
  }

  lemma CountRest(s: State)
    requires s.receiver.RCount?
    ensures var s' := ReceiverCount(s); SameServed(s, s') && SameTallies(s, s') && SamePapers(s, s')
  {
  }

  lemma EnqueueJobs(c: Config, s: State, t: nat, t2: nat)
    requires Jobs(s) && s.receiver.REnter? && s.receiver.job.id == s.index + 1
    requires c.queueCapacity == -1 || |s.queue| < c.queueCapacity
    ensures Jobs(ReceiverEnter(c, s, t, t2))
  {
    var s' := ReceiverEnter(c, s, t, t2);
    assert Ids(s'.queue) == Ids(s.queue) + [s.receiver.job.id];
  }

  lemma EnqueueServed(c: Config, s: State, t: nat, t2: nat)
    requires Served(s) && s.receiver.REnter?
    requires c.queueCapacity == -1 || |s.queue| < c.queueCapacity
    ensures Served(ReceiverEnter(c, s, t, t2))
  {
    var s' := ReceiverEnter(c, s, t, t2);
    assert s'.queue[..|s.queue|] == s.queue == s.queue[..|s.queue|];
  }

  lemma EnqueueRest(c: Config, s: State, t: nat, t2: nat)
    requires s.receiver.REnter?
    ensures SameTallies(s, ReceiverEnter(c, s, t, t2)) && SamePapers(s, ReceiverEnter(c, s, t, t2))
  {
  }

  lemma RefuseJobs(c: Config, s: State, t: nat, t2: nat)
    requires Jobs(s) && s.receiver.REnter? && c.queueCapacity != -1 && |s.queue| >= c.queueCapacity
    ensures Jobs(ReceiverEnter(c, s, t, t2)) && SameServed(s, ReceiverEnter(c, s, t, t2))
  {
  }

  lemma RecordJobs(s: State)
    requires Jobs(s) && s.receiver.RHold?
    ensures Jobs(ReceiverRecord(s))
  {
    assert PendingIds(s.receiver) == PendingIds(RLoop);
  }

  lemma RecordDepartures(s: State)
    requires Departures(s) && s.receiver.RHold?
    ensures Departures(ReceiverRecord(s))
  {
    GatherSame(InServiceIds, s.printers, ReceiverRecord(s).printers);
  }

  lemma RecordArea(c: Config, s: State)
    requires Area(s) && s.receiver.RHold? && Timing.Queue(c, s)
    ensures Area(ReceiverRecord(s))
  {
    var s' := ReceiverRecord(s);
    var n, job := s.receiver.length, s.receiver.job;
    SumSame(WaitInService, s.printers, s'.printers);
    ElapsedShift(s.queue[..n], s.receiver.lastBefore, job.queueArrival);
    ElapsedAppend(s.queue[..n], job, job.queueArrival);
    assert s.queue[..n + 1] == s.queue[..n] + [job];
    assert s'.stats.area == s.stats.area + (job.queueArrival - s.receiver.lastBefore) * n;
  }

  lemma RecordRest(s: State)
    requires s.receiver.RHold?
    ensures SameTallies(s, ReceiverRecord(s)) && SamePapers(s, ReceiverRecord(s))
  {
  }

  lemma DropJobs(s: State)
    requires Jobs(s) && s.receiver.RDrop?
    ensures Jobs(ReceiverDrop(s))
  {
  }

  lemma DropRest(s: State)
    requires s.receiver.RDrop?
    ensures var s' := ReceiverDrop(s); SameServed(s, s') && SameTallies(s, s') && SamePapers(s, s')
  {
  }

  // ---- the refiller adds paper ----

  lemma FillPapers(c: Config, s: State, t: nat)
    requires Papers(c, s) && s.refiller.FFill? && s.refiller.i < |s.printers|
    requires s.refiller.papers >= c.capacity - c.maxNeed + 1
    ensures Papers(c, RefillerFill(s, t))
  {
    var s' := RefillerFill(s, t);
    SumUpdate(Added, s.printers, s.refiller.i, s'.printers[s.refiller.i]);
  }

  lemma FillRest(s: State, t: nat)
    requires s.refiller.FFill? && s.refiller.i < |s.printers|
    ensures var s' := RefillerFill(s, t); SameJobs(s, s') && SameServed(s, s') && SameTallies(s, s')
  {
  }

  lemma RecordPapers(c: Config, s: State)
    requires Papers(c, s) && s.refiller.FRecord?
    ensures Papers(c, RefillerRecord(s))
  {
    var m := c.capacity - c.maxNeed + 1;
    assert (s.stats.refillEvents + 1) * m == s.stats.refillEvents * m + m;
  }

  lemma RecordPapersRest(s: State)
    requires s.refiller.FRecord?
    ensures var s' := RefillerRecord(s); SameJobs(s, s') && SameServed(s, s') && SameTallies(s, s')
  {
  }

  // ---- the stop handler empties the queue ----

  lemma EmptyJobs(s: State, t: nat)
    requires Jobs(s) && !s.receiver.RHold?
    ensures Jobs(StopEmpty(s, t))
  {
    assert s.hist.left + Ids(s.queue) + Ids([]) == s.hist.left + Ids(s.queue);
  }

  lemma {:induction false} ElapsedNonNegative(q: seq<Job>, a: int)
    requires forall k :: 0 <= k < |q| ==> q[k].queueArrival <= a
    ensures Elapsed(q, a) >= 0
  {
    if q != [] {
      ElapsedNonNegative(q[1..], a);
    }
  }

  lemma EmptyDepartures(s: State, t: nat)
    requires Departures(s) && s.terminate
    ensures Departures(StopEmpty(s, t))
  {
    GatherSame(InServiceIds, s.printers, StopEmpty(s, t).printers);
  }

  lemma EmptyArea(c: Config, s: State, t: nat)
    requires Area(s) && !s.receiver.RHold? && Timing.Queue(c, s)
    ensures Area(StopEmpty(s, t))
  {
    var s' := StopEmpty(s, t);
    SumSame(WaitInService, s.printers, s'.printers);
    ElapsedNonNegative(s.queue, s.last);
    assert s.queue[..|s.queue|] == s.queue;
  }

  lemma EmptyRest(s: State, t: nat)
    ensures SameTallies(s, StopEmpty(s, t)) && SamePapers(s, StopEmpty(s, t))
  {
  }

  // ---- every section ----

  lemma PrinterKeeps(c: Config, s: State, i: nat, t: nat)
    requires Base(c, s) && s.now <= t && i < |s.printers| && PrinterEnabled(s, i)
    ensures Inv(c, PrinterNext(s, i, t))
  {
    var pc := s.printers[i].pc;
    if pc.PJobLock? && Control.Takes(s, i) {
      TakeKeeps(c, s, i, t);
    } else if pc.PPrint? {
      PrintKeeps(c, s, i, t);
    } else if pc.PDepart? {
      DepartKeeps(c, s, i);
    } else {
      match pc {
        case PJobLock(_) => PrinterStays(s, i, t);
        case PRefillLock(_) => RequestQuiet(s, i, t);
        case PRefillWait(_, _, _) => WaitQuiet(s, i, t);
        case PRefillHold(_, _) => WaitQuiet(s, i, t);
        case PRefillDone(_) => ResumeQuiet(s, i, t);
        case PStart(_) => ResumeQuiet(s, i, t);
        case PExit => ExitQuiet(s, i);
        case _ => PrinterQuiet(s, i, t);
      }
      QuietKeeps(c, s, PrinterNext(s, i, t));
    }
  }

  lemma PrintKeeps(c: Config, s: State, i: nat, t: nat)
    requires Inv(c, s) && i < |s.printers| && s.printers[i].pc.PPrint?
    ensures Inv(c, PrinterPrint(s, i, t))
  {
    var s' := PrinterPrint(s, i, t);
    PrintTallies(c, s, i, t);
    PrintRest(s, i, t);
    JobsFrame(s, s');
    ServedFrame(s, s');
    PapersFrame(c, s, s');
  }

  lemma DepartKeeps(c: Config, s: State, i: nat)
    requires Base(c, s) && i < |s.printers| && s.printers[i].pc.PDepart?
    ensures Inv(c, PrinterDepart(s, i))
  {
    var s' := PrinterDepart(s, i);
    DepartDepartures(s, i);
    DepartArea(s, i);
    DepartRecorded(s, i);
    DepartTotals(c, s, i);
    DepartRest(s, i);
    JobsFrame(s, s');
    PapersFrame(c, s, s');
  }

  lemma PrinterMoves(s: State, i: nat, pc: PrinterPc)
    requires i < |s.printers| && s.printers[i].pc.PJobLock? && (pc.PServed? || pc.PJobWait? || pc.PRefillLock?)
    ensures Quiet(s, Put(s, i, s.printers[i].(pc := pc)))
  {
  }

  lemma PrinterStays(s: State, i: nat, t: nat)
    requires i < |s.printers| && s.printers[i].pc.PJobLock? && !Control.Takes(s, i)
    ensures Quiet(s, PrinterJobSection(s, i, t))
  {
    Control.OnlyMoves(s, i, t);
    PrinterMoves(s, i, Control.Looked(s, i));
  }

  lemma TakeKeeps(c: Config, s: State, i: nat, t: nat)
    requires Base(c, s) && s.now <= t && i < |s.printers| && PrinterEnabled(s, i)
    requires s.printers[i].pc.PJobLock? && Control.Takes(s, i)
    ensures Inv(c, PrinterNext(s, i, t))
  {
    var s' := PrinterDequeue(s, i, t);
    TakeJobs(s, i, t); TakeDepartures(s, i, t); TakeArea(s, i, t); TakeRest(s, i, t);
    TalliesFrame(c, s, s'); PapersFrame(c, s, s');
  }

  lemma EnterKeeps(c: Config, s: State, t: nat, t2: nat)
    requires Base(c, s) && s.receiver.REnter?
    ensures Inv(c, ReceiverEnter(c, s, t, t2))
  {
    var s' := ReceiverEnter(c, s, t, t2);
    EnqueueRest(c, s, t, t2);
    TalliesFrame(c, s, s');
    PapersFrame(c, s, s');
    if c.queueCapacity != -1 && |s.queue| >= c.queueCapacity {
      RefuseJobs(c, s, t, t2);
      ServedFrame(s, s');
    } else {
      EnqueueJobs(c, s, t, t2);
      EnqueueServed(c, s, t, t2);
    }
  }

  lemma RecordKeeps(c: Config, s: State)
    requires Base(c, s) && s.receiver.RHold?
    ensures Inv(c, ReceiverRecord(s))
  {
    RecordJobs(s);
    RecordDepartures(s);
    RecordArea(c, s);
    RecordRest(s);
    TalliesFrame(c, s, ReceiverRecord(s));
    PapersFrame(c, s, ReceiverRecord(s));
  }

  lemma CountOrDropKeeps(c: Config, s: State, s': State)
    requires Base(c, s)
    requires (s.receiver.RCount? && s' == ReceiverCount(s)) || (s.receiver.RDrop? && s' == ReceiverDrop(s))
    ensures Inv(c, s')
  {
    if s.receiver.RCount? {
      CountJobs(s);
      CountRest(s);
    } else {
      DropJobs(s);
      DropRest(s);
    }
    ServedFrame(s, s');
    TalliesFrame(c, s, s');
    PapersFrame(c, s, s');
  }

  lemma ReceiverKeeps(c: Config, s: State, t: nat, t2: nat, need: nat)
    requires Base(c, s) && s.now <= t <= t2 && ReceiverEnabled(c, s, need)
    ensures Inv(c, ReceiverNext(c, s, t, t2, need))
  {
    match s.receiver
    case RCount(_) => CountOrDropKeeps(c, s, ReceiverCount(s));
    case RDrop(_) => CountOrDropKeeps(c, s, ReceiverDrop(s));
    case REnter(_) => EnterKeeps(c, s, t, t2);
    case RHold(_, _, _) => RecordKeeps(c, s);
    case RStamp(_) => StampQuiet(s, t); QuietKeeps(c, s, ReceiverStamp(s, t));
    case RBroadcast => WakeAllQuiet(s); QuietKeeps(c, s, ReceiverWakeAll(s));
    case _ => EndQuiet(s, need); QuietKeeps(c, s, ReceiverNext(c, s, t, t2, need));
  }

  lemma FillKeeps(c: Config, s: State, t: nat)
    requires Base(c, s) && s.refiller.FFill? && s.refiller.i < |s.printers|
    ensures Inv(c, RefillerFill(s, t))
  {
    var s' := RefillerFill(s, t);
    assert Refilling.Paper(c, s, s.refiller.i, s.printers[s.refiller.i]);
    FillPapers(c, s, t);
    FillRest(s, t);
    JobsFrame(s, s');
    ServedFrame(s, s');
    TalliesFrame(c, s, s');
  }

  lemma RecordRefillKeeps(c: Config, s: State)
    requires Inv(c, s) && s.refiller.FRecord?
    ensures Inv(c, RefillerRecord(s))
  {
    var s' := RefillerRecord(s);
    RecordPapers(c, s);
    RecordPapersRest(s);
    JobsFrame(s, s');
    ServedFrame(s, s');
    TalliesFrame(c, s, s');
  }

  lemma RefillerKeeps(c: Config, s: State, t: nat)
    requires Base(c, s) && s.now <= t && RefillerEnabled(s)
    ensures Inv(c, RefillerNext(c, s, t))
  {
    var s' := RefillerNext(c, s, t);
    match s.refiller
    case FCheck => RefillerCheckQuiet(s, t); QuietKeeps(c, s, s');
    case FFill(_, _, _) => FillKeeps(c, s, t);
    case FRecord(_, _, _) => RecordRefillKeeps(c, s);
    case _ => RefillerQuiet(c, s, t); QuietKeeps(c, s, s');
  }

  lemma EmptyKeeps(c: Config, s: State, t: nat)
    requires Base(c, s) && s.stop.HEmpty?
    ensures Inv(c, StopEmpty(s, t))
  {
    var s' := StopEmpty(s, t);
    EmptyJobs(s, t);
    EmptyDepartures(s, t);
    EmptyArea(c, s, t);
    EmptyRest(s, t);
    TalliesFrame(c, s, s');
    PapersFrame(c, s, s');
  }

  lemma StopKeeps(c: Config, s: State, t: nat)
    requires Base(c, s) && s.now <= t && StopEnabled(s)
    ensures Inv(c, StopNext(s, t))
  {
    var s' := StopNext(s, t);
    match s.stop
    case HEmpty => EmptyKeeps(c, s, t);
    case HRefill => StopWakeQuiet(s); QuietKeeps(c, s, s');
    case _ => StopQuiet(s, t); QuietKeeps(c, s, s');
  }

  lemma NextKeeps(c: Config, s: State, a: Action)
    requires Base(c, s) && Enabled(c, s, a)
    ensures Inv(c, Next(c, s, a))
  {
    match a
    case PrinterRuns(i, t) => PrinterKeeps(c, s, i, t);
    case ReceiverRuns(t, t2, need) => ReceiverKeeps(c, s, t, t2, need);
    case RefillerRuns(t) => RefillerKeeps(c, s, t);
    case StopRuns(t) => StopKeeps(c, s, t);
    case _ => EnvironmentQuiet(c, s, a); QuietKeeps(c, s, Next(c, s, a));
  }
}
