/** The totals of a run: order and conservation of jobs, the queue-length integral, the statistics
    and the papers, each stated against the history of the run. */
module Books {
  import opened Records
  import opened Machine
  import opened Sums
  import Control
  import Timing
  import Refilling

  // ---- readings of the state ----

  /** The arrival has been recorded, the job is neither in the queue nor dropped. */
  predicate PendingArrival(pc: ReceiverPc) { pc.REnter? || pc.RDrop? }

  predicate Counted(pc: ReceiverPc) { pc.REnter? || pc.RHold? || pc.RDrop? }

  function PendingIds(pc: ReceiverPc): multiset<nat> {
    if PendingArrival(pc) then multiset{pc.job.id} else multiset{}
  }

  function ServedIds(vs: seq<Service>): (r: seq<nat>)
    ensures |r| == |vs| && forall k :: 0 <= k < |vs| ==> r[k] == vs[k].job.id
  {
    seq(|vs|, k requires 0 <= k < |vs| => vs[k].job.id)
  }

  function InServiceIds(p: Printer): multiset<nat> {
    if Timing.InService(p.pc) then multiset{p.pc.job.id} else multiset{}
  }

  /** Queue wait of the job printer `p` is serving. */
  function WaitInService(p: Printer): int {
    if Timing.InService(p.pc) then p.pc.job.queueDeparture - p.pc.job.queueArrival else 0
  }

  function Added(p: Printer): int { p.added }
  function Used(p: Printer): int { p.used }
  function PaperHeld(p: Printer): int { p.paper }

  // What the records of a served job should add up to, from the job's timestamps.

  function SystemTime(v: Service): int { v.job.serviceDeparture - v.job.systemArrival }

  function SystemTimeSquared(v: Service): int {
    (v.job.serviceDeparture - v.job.systemArrival) * (v.job.serviceDeparture - v.job.systemArrival)
  }

  function QueueWait(v: Service): int { v.job.queueDeparture - v.job.queueArrival }

  function JobsBy(i: nat): Service -> int {
    (v: Service) => if v.printer == i then 1 else 0
  }

  function PapersBy(i: nat): Service -> int {
    (v: Service) => if v.printer == i then v.job.need else 0
  }

  function ServiceBy(i: nat): Service -> int {
    (v: Service) => if v.printer == i then v.job.serviceDeparture - v.job.serviceArrival else 0
  }

  /** One more than the highest printer in the table that served a job, 0 if none did. */
  function HighestUsed(vs: seq<Service>): nat {
    if vs == [] then 0
    else
      var rest, i := HighestUsed(vs[..|vs| - 1]), vs[|vs| - 1].printer;
      if i < MAX_PRINTERS && i + 1 > rest then i + 1 else rest
  }

  /** Whether the service was recorded in the per-printer table. */
  function Listed(v: Service): int { if v.printer < MAX_PRINTERS then 1 else 0 }

  function ServedBy(ps: PrinterStats): int { ps.served }
  function PaperUsedBy(ps: PrinterStats): int { ps.paperUsed }
  function ServiceTimeOf(ps: PrinterStats): int { ps.serviceTime }

  // ---- the books ----

  /** First in, first out: what left the queue at its front, followed by what is still in it, is what
      was put in, in the order of the job numbers. */
  ghost predicate Order(s: State) {
    && s.hist.left + Ids(s.queue) == s.hist.enqueued
    && Increasing(s.hist.enqueued)
    && (forall k :: 0 <= k < |s.hist.enqueued| ==>
          1 <= s.hist.enqueued[k] <= s.index + (if s.receiver.RHold? then 1 else 0))
  }

  ghost predicate Arrivals(s: State) {
    && s.stats.arrived == s.index + (if Counted(s.receiver) then 1 else 0)
    && multiset(s.hist.enqueued) + multiset(s.hist.dropped) + PendingIds(s.receiver) == multiset(UpTo(s.stats.arrived))
    && s.stats.dropped == |s.hist.dropped|
    && s.stats.interArrival ==
         (if Counted(s.receiver) then s.receiver.job.systemArrival else s.previousArrival) - s.stats.start
  }

  /** The recorded maximum is the true peak minus one, once the receiver has released the queue. */
  ghost predicate Peak(s: State) {
    && |s.queue| <= s.hist.peak
    && (s.receiver.RHold? ==>
        s.hist.peak == (if s.receiver.length > s.stats.maxLength then s.receiver.length else s.stats.maxLength) + 1)
    && (!s.receiver.RHold? ==> s.hist.peak == if s.hist.enqueued == [] then 0 else s.stats.maxLength + 1)
    && (s.hist.enqueued == [] ==> s.stats.maxLength == 0 && !s.receiver.RHold?)
  }

  ghost predicate Departures(s: State) {
    && multiset(s.hist.left) ==
         Gather(InServiceIds, s.printers) + multiset(ServedIds(s.hist.served)) + multiset(s.hist.removed)
    && s.stats.served == |s.hist.served|
    && s.stats.removed == |s.hist.removed|
    && (!s.terminate ==> s.hist.removed == [] && s.hist.forgone == 0)
  }

  /** The queue-length integral is the waiting time it stands for. */
  ghost predicate Area(s: State) {
    && s.stats.queueWait == Sum(QueueWait, s.hist.served)
    && s.hist.forgone >= 0
    && 0 <= Timing.Accounted(s) <= |s.queue|
    && s.stats.area ==
         s.stats.queueWait + Sum(WaitInService, s.printers)
         + Elapsed(s.queue[..Timing.Accounted(s)], Timing.AccountedTo(s)) + s.hist.forgone
  }

  /** The statistics of printer `i` against the printer itself. */
  ghost predicate Agrees(p: Printer, ps: PrinterStats) {
    && ps.served == p.printed
    && ps.paperUsed + (if p.pc.PDepart? then p.pc.job.need else 0) == p.used
  }

  /** Row `i` of the table against the jobs printer `i` has served. */
  ghost predicate Row(vs: seq<Service>, i: nat, ps: PrinterStats) {
    && ps.served == Sum(JobsBy(i), vs)
    && ps.paperUsed == Sum(PapersBy(i), vs)
    && ps.serviceTime == Sum(ServiceBy(i), vs)
  }

  ghost predicate Recorded(s: State) {
    && |s.stats.perPrinter| == MAX_PRINTERS
    && (forall i :: 0 <= i < MAX_PRINTERS ==> Row(s.hist.served, i, s.stats.perPrinter[i]))
    && s.stats.maxUsed == HighestUsed(s.hist.served)
  }

  ghost predicate Totals(c: Config, s: State) {
    && s.stats.systemTime == Sum(SystemTime, s.hist.served)
    && s.stats.systemTimeSquared == Sum(SystemTimeSquared, s.hist.served)
    && |s.stats.perPrinter| == MAX_PRINTERS
    && (forall i :: 0 <= i < |s.printers| && i < MAX_PRINTERS ==> Agrees(s.printers[i], s.stats.perPrinter[i]))
    && s.stats.maxUsed <= MAX_PRINTERS && s.stats.maxUsed <= |s.printers|
    && (forall k :: s.stats.maxUsed <= k < MAX_PRINTERS ==>
          s.stats.perPrinter[k].(emptyTime := 0) == NO_WORK)
    && (forall k :: 0 <= k < |s.hist.served| ==> s.hist.served[k].printer < c.printers)
    && Sum(ServedBy, s.stats.perPrinter) == Sum(Listed, s.hist.served)
    && s.stats.systemTime >= s.stats.queueWait + Sum(ServiceTimeOf, s.stats.perPrinter)
  }

  ghost predicate Tallies(c: Config, s: State) {
    Recorded(s) && Totals(c, s)
  }

  ghost predicate Papers(c: Config, s: State) {
    && s.stats.papersRefilled + (if s.refiller.FRecord? then s.refiller.papers else 0) == Sum(Added, s.printers)
    && (s.refiller.FRecord? ==> s.refiller.papers >= c.capacity - c.maxNeed + 1)
    && s.stats.papersRefilled >= s.stats.refillEvents * (c.capacity - c.maxNeed + 1)
  }

  ghost predicate Jobs(s: State) {
    Order(s) && Arrivals(s) && Peak(s)
  }

  ghost predicate Served(s: State) {
    Departures(s) && Area(s)
  }

  ghost predicate Inv(c: Config, s: State) {
    Jobs(s) && Served(s) && Tallies(c, s) && Papers(c, s)
  }

  ghost predicate Base(c: Config, s: State) {
    c.Valid() && Control.Inv(c, s) && Timing.Inv(c, s) && Refilling.Inv(c, s) && Inv(c, s)
  }

  // ---- what each book depends on ----

  ghost predicate SameJobs(s: State, s': State) {
    && s'.queue == s.queue && s'.index == s.index && s'.previousArrival == s.previousArrival
    && (s'.receiver == s.receiver || (!Counted(s.receiver) && !Counted(s'.receiver)))
    && s'.hist.(served := s.hist.served) == s.hist
    && s'.stats.arrived == s.stats.arrived && s'.stats.dropped == s.stats.dropped
    && s'.stats.interArrival == s.stats.interArrival && s'.stats.start == s.stats.start
    && s'.stats.maxLength == s.stats.maxLength
  }

  /** The part of a printer that `Departures` and `Area` see. */
  datatype Serving = Serving(busy: bool, id: nat, wait: int)

  function ServingOf(p: Printer): Serving {
    if Timing.InService(p.pc) then Serving(true, p.pc.job.id, WaitInService(p)) else Serving(false, 0, 0)
  }

  ghost predicate SameServed(s: State, s': State) {
    && s'.queue == s.queue && s'.last == s.last
    && (s'.receiver == s.receiver || (!s.receiver.RHold? && !s'.receiver.RHold?))
    && s'.hist.left == s.hist.left && s'.hist.served == s.hist.served
    && s'.hist.removed == s.hist.removed && s'.hist.forgone == s.hist.forgone
    && s'.stats.served == s.stats.served && s'.stats.removed == s.stats.removed
    && s'.stats.queueWait == s.stats.queueWait && s'.stats.area == s.stats.area
    && (s.terminate ==> s'.terminate)
    && |s'.printers| == |s.printers|
    && forall k :: 0 <= k < |s.printers| ==> ServingOf(s'.printers[k]) == ServingOf(s.printers[k])
  }

  function DepartingNeed(p: Printer): nat {
    if p.pc.PDepart? then p.pc.job.need else 0
  }

  ghost predicate SameTallies(s: State, s': State) {
    && s'.hist.served == s.hist.served
    && s'.stats.systemTime == s.stats.systemTime && s'.stats.systemTimeSquared == s.stats.systemTimeSquared
    && s'.stats.queueWait == s.stats.queueWait && s'.stats.served == s.stats.served
    && s'.stats.maxUsed == s.stats.maxUsed
    && |s'.stats.perPrinter| == |s.stats.perPrinter|
    && (forall k :: 0 <= k < |s.stats.perPrinter| ==>
          s'.stats.perPrinter[k].(emptyTime := 0) == s.stats.perPrinter[k].(emptyTime := 0))
    && |s'.printers| == |s.printers|
    && forall k :: 0 <= k < |s.printers| ==>
         && DepartingNeed(s'.printers[k]) == DepartingNeed(s.printers[k])
         && s'.printers[k].used == s.printers[k].used && s'.printers[k].printed == s.printers[k].printed
  }

  ghost predicate SamePapers(s: State, s': State) {
    && s'.stats.papersRefilled == s.stats.papersRefilled && s'.stats.refillEvents == s.stats.refillEvents
    && (s'.refiller == s.refiller || (!s.refiller.FRecord? && !s'.refiller.FRecord?))
    && |s'.printers| == |s.printers|
    && forall k :: 0 <= k < |s.printers| ==> Added(s'.printers[k]) == Added(s.printers[k])
  }

  lemma JobsFrame(s: State, s': State)
    requires Jobs(s) && SameJobs(s, s')
    ensures Jobs(s')
  {
  }

  lemma ServedFrame(s: State, s': State)
    requires Served(s) && SameServed(s, s')
    ensures Served(s')
  {
    var ps, ps' := s.printers, s'.printers;
    forall k | 0 <= k < |ps|
      ensures InServiceIds(ps'[k]) == InServiceIds(ps[k]) && WaitInService(ps'[k]) == WaitInService(ps[k])
    {
      assert ServingOf(ps'[k]) == ServingOf(ps[k]);
    }
    GatherSame(InServiceIds, ps, ps');
    SumSame(WaitInService, ps, ps');
  }

  lemma RecordedFrame(s: State, s': State)
    requires Recorded(s) && SameTallies(s, s')
    ensures Recorded(s')
  {
    forall i | 0 <= i < MAX_PRINTERS ensures Row(s'.hist.served, i, s'.stats.perPrinter[i]) {
      assert Row(s.hist.served, i, s.stats.perPrinter[i]);
      assert s'.stats.perPrinter[i].(emptyTime := 0) == s.stats.perPrinter[i].(emptyTime := 0);
    }
  }

  lemma TalliesFrame(c: Config, s: State, s': State)
    requires Tallies(c, s) && SameTallies(s, s')
    ensures Tallies(c, s')
  {
    RecordedFrame(s, s');
    hide Recorded;
    var st, st' := s.stats.perPrinter, s'.stats.perPrinter;
    forall k | 0 <= k < |st|
      ensures ServedBy(st'[k]) == ServedBy(st[k]) && ServiceTimeOf(st'[k]) == ServiceTimeOf(st[k])
      ensures st'[k].paperUsed == st[k].paperUsed
    {
      assert st'[k].(emptyTime := 0) == st[k].(emptyTime := 0);
    }
    SumSame(ServedBy, st, st');
    SumSame(ServiceTimeOf, st, st');
    forall i | 0 <= i < |s'.printers| && i < MAX_PRINTERS
      ensures Agrees(s'.printers[i], st'[i])
    {
      assert Agrees(s.printers[i], st[i]) && DepartingNeed(s'.printers[i]) == DepartingNeed(s.printers[i]);
    }
  }

  lemma PapersFrame(c: Config, s: State, s': State)
    requires Papers(c, s) && SamePapers(s, s')
    ensures Papers(c, s')
  {
    SumSame(Added, s.printers, s'.printers);
  }

  ghost predicate Quiet(s: State, s': State) {
    SameJobs(s, s') && SameServed(s, s') && SameTallies(s, s') && SamePapers(s, s')
  }

  lemma QuietKeeps(c: Config, s: State, s': State)
    requires Inv(c, s) && Quiet(s, s')
    ensures Inv(c, s')
  {
    JobsFrame(s, s');
    ServedFrame(s, s');
    TalliesFrame(c, s, s');
    PapersFrame(c, s, s');
  }

  // ---- the initial state ----

  lemma {:induction false} EmptySums(ps: seq<Printer>)
    requires forall k :: 0 <= k < |ps| ==> ps[k].pc.PTop? && ps[k].added == 0
    ensures Sum(WaitInService, ps) == Sum(Added, ps) == 0 && Gather(InServiceIds, ps) == multiset{}
  {
    if ps != [] {
      EmptySums(ps[1..]);
    }
  }

  lemma {:induction false} NoWorkSums(n: nat)
    ensures Sum(ServedBy, seq(n, _ => NO_WORK)) == Sum(ServiceTimeOf, seq(n, _ => NO_WORK)) == 0
  {
    if n > 0 {
      NoWorkSums(n - 1);
      assert seq(n, _ => NO_WORK)[1..] == seq(n - 1, _ => NO_WORK);
    }
  }

  lemma InitJobs(c: Config, created: nat, start: nat)
    ensures Jobs(Init(c, created, start)) && Papers(c, Init(c, created, start))
  {
    EmptySums(Init(c, created, start).printers);
  }

  lemma InitServed(c: Config, created: nat, start: nat)
    ensures Served(Init(c, created, start))
  {
    EmptySums(Init(c, created, start).printers);
  }

  lemma InitRecorded(c: Config, created: nat, start: nat)
    ensures Recorded(Init(c, created, start))
  {
    forall i | 0 <= i < MAX_PRINTERS ensures InitStats(start).perPrinter[i] == NO_WORK {
    }
  }

  lemma InitTallies(c: Config, created: nat, start: nat)
    ensures Tallies(c, Init(c, created, start))
  {
    InitRecorded(c, created, start);
    hide Recorded;
    NoWorkSums(MAX_PRINTERS);
    assert InitStats(start).perPrinter == seq(MAX_PRINTERS, _ => NO_WORK);
  }

  lemma InitKeeps(c: Config, created: nat, start: nat)
    ensures Inv(c, Init(c, created, start))
  {
    InitJobs(c, created, start);
    InitServed(c, created, start);
    InitTallies(c, created, start);
  }
}
