/** The statistics reported at the end of a run (src/simulation_stats.c), over exact reals, and why the
    recorded sums justify them. */
module Statistics {
  import opened Records
  import opened Machine
  import opened Sums
  import Books
  import Timing
  import opened Runs
  import Drain
  import Guarantees

  const MICROSECONDS := 1000000.0

  // ---- what the program reports ----

  function AverageInterArrival(st: Stats): real {
    if st.arrived <= 1 then 0.0 else st.interArrival as real / MICROSECONDS / (st.arrived - 1) as real
  }

  function AverageQueueWait(st: Stats): real {
    if st.served == 0 then 0.0 else st.queueWait as real / MICROSECONDS / st.served as real
  }

  function AverageSystemTime(st: Stats): real {
    if st.served == 0 then 0.0 else st.systemTime as real / MICROSECONDS / st.served as real
  }

  function AverageQueueLength(st: Stats): real {
    if st.duration == 0 then 0.0 else st.area as real / st.duration as real
  }

  function Utilization(st: Stats, printer: int): real {
    if !(0 <= printer < MAX_PRINTERS) || printer >= |st.perPrinter| || st.duration == 0 then 0.0
    else st.perPrinter[printer].serviceTime as real / st.duration as real
  }

  /** The variance of the system time before the clamp at zero, in square microseconds. */
  function RawVariance(st: Stats): real {
    if st.served <= 1 then 0.0
    else
      var mean := AverageSystemTime(st) * MICROSECONDS;
      st.systemTimeSquared as real / st.served as real - mean * mean
  }

  /** The end of the run: the log records the duration. */
  function Ended(st: Stats, end: nat): Stats {
    st.(duration := end - st.start)
  }

  // ---- Little's law ----

  lemma Cancel(a: real, n: real)
    requires n != 0.0
    ensures a / n * n == a
  {
  }

  /** Average queue length times duration is average queue wait times the number of jobs served. */
  ghost predicate LittlesLawHolds(st: Stats) {
    AverageQueueLength(st) * st.duration as real == AverageQueueWait(st) * 1000000.0 * st.served as real
  }

  /** Little's law: in a run without a stop that has ended drained, the reported averages satisfy it,
      even when the guard on a zero duration answers. */
  lemma LittlesLaw(c: Config, s: State, end: nat)
    requires c.Valid() && Reachable(c, s) && !s.terminate && s.jobOwner.Free? && s.queue == []
    requires forall i :: 0 <= i < |s.printers| ==> !Timing.InService(s.printers[i].pc)
    requires s.now <= end
    ensures LittlesLawHolds(Ended(s.stats, end))
  {
    ReachableHolds(c, s);
    Guarantees.AreaIsWaiting(c, s);
    NobodyWaits(s.printers);
    if end == s.stats.start {
      NoTimeNoWait(s, s.hist.served);
    }
    AreaGivesLaw(Ended(s.stats, end));
  }

  /** Every run without a stop reaches such an end: the law holds wherever the program comes to rest. */
  lemma LittlesLawAtRest(c: Config, s: State, end: nat)
    requires c.Valid() && Reachable(c, s) && !s.terminate && Drain.Quiescent(c, s) && s.now <= end
    ensures LittlesLawHolds(Ended(s.stats, end))
  {
    ReachableHolds(c, s);
    Drain.QuiescentIsDrained(c, s);
    Drain.ReceiverIsDone(c, s, -1);
    LittlesLaw(c, s, end);
  }

  /** In a run that took no time nobody waited. */
  lemma {:induction false} NoTimeNoWait(s: State, vs: seq<Service>)
    requires s.now == s.stats.start && forall k :: 0 <= k < |vs| ==> Timing.InOrder(s, vs[k].job)
    ensures Sum(Books.QueueWait, vs) == 0
  {
    if vs != [] {
      assert Timing.InOrder(s, vs[0].job);
      NoTimeNoWait(s, vs[1..]);
    }
  }

  lemma AreaGivesLaw(st: Stats)
    requires st.area == st.queueWait && (st.served == 0 || st.duration == 0 ==> st.queueWait == 0)
    ensures LittlesLawHolds(st)
  {
    LengthTimesDuration(st);
    WaitTimesServed(st);
  }

  lemma LengthTimesDuration(st: Stats)
    ensures st.duration != 0 ==> AverageQueueLength(st) * st.duration as real == st.area as real
    ensures st.duration == 0 ==> AverageQueueLength(st) * st.duration as real == 0.0
  {
    if st.duration != 0 {
      Cancel(st.area as real, st.duration as real);
    }
  }

  lemma WaitTimesServed(st: Stats)
    ensures st.served != 0 ==> AverageQueueWait(st) * MICROSECONDS * st.served as real == st.queueWait as real
    ensures st.served == 0 ==> AverageQueueWait(st) * MICROSECONDS * st.served as real == 0.0
  {
    if st.served != 0 {
      var w, n := st.queueWait as real / MICROSECONDS, st.served as real;
      Cancel(w, n);
      assert w / n * MICROSECONDS * n == w / n * n * MICROSECONDS;
    }
  }

  lemma {:induction false} NobodyWaits(ps: seq<Printer>)
    requires forall i :: 0 <= i < |ps| ==> !Timing.InService(ps[i].pc)
    ensures Sum(Books.WaitInService, ps) == 0
  {
    if ps != [] {
      NobodyWaits(ps[1..]);
    }
  }

  // ---- the averages ----

  lemma AverageOf(total: int, n: nat, average: real)
    requires n != 0 && average == total as real / MICROSECONDS / n as real
    ensures average * n as real * 1000000.0 == total as real
  {
    Cancel(total as real / MICROSECONDS, n as real);
  }

  lemma AverageQueueWaitOf(st: Stats, n: nat, total: int)
    requires st.served == n && st.queueWait == total && (n == 0 ==> total == 0)
    ensures AverageQueueWait(st) * n as real * 1000000.0 == total as real
    ensures n == 0 ==> AverageQueueWait(st) == 0.0
  {
    if n != 0 {
      AverageOf(total, n, AverageQueueWait(st));
    }
  }

  lemma AverageSystemTimeOf(st: Stats, n: nat, total: int)
    requires st.served == n && st.systemTime == total && (n == 0 ==> total == 0)
    ensures AverageSystemTime(st) * n as real * 1000000.0 == total as real
    ensures n == 0 ==> AverageSystemTime(st) == 0.0
  {
    if n != 0 {
      AverageOf(total, n, AverageSystemTime(st));
    }
  }

  /** The reported averages, in seconds, are those of the jobs served, and 0 when none was. */
  lemma AveragesAreTrue(c: Config, s: State)
    requires c.Valid() && Reachable(c, s)
    ensures s.hist.served == [] ==> AverageQueueWait(s.stats) == 0.0 == AverageSystemTime(s.stats)
    ensures AverageQueueWait(s.stats) * |s.hist.served| as real * 1000000.0 == Sum(Books.QueueWait, s.hist.served) as real
    ensures AverageSystemTime(s.stats) * |s.hist.served| as real * 1000000.0 == Sum(Books.SystemTime, s.hist.served) as real
    ensures s.stats.arrived <= 1 ==> AverageInterArrival(s.stats) == 0.0
  {
    hide AverageQueueWait, AverageSystemTime, Reachable;
    Guarantees.ServicesAreRecorded(c, s);
    AverageQueueWaitOf(s.stats, |s.hist.served|, Sum(Books.QueueWait, s.hist.served));
    AverageSystemTimeOf(s.stats, |s.hist.served|, Sum(Books.SystemTime, s.hist.served));
  }

  /** The reported queue length is the integral over the run: what the jobs have waited, per unit of time. */
  lemma QueueLengthIsTheIntegral(c: Config, s: State, end: nat)
    requires c.Valid() && Reachable(c, s) && s.jobOwner.Free? && s.now <= end
    ensures end == s.stats.start ==> AverageQueueLength(Ended(s.stats, end)) == 0.0
    ensures end > s.stats.start ==>
      AverageQueueLength(Ended(s.stats, end)) * (end - s.stats.start) as real
      == (Sum(Books.QueueWait, s.hist.served) + Sum(Books.WaitInService, s.printers)
          + Elapsed(s.queue, s.last) + s.hist.forgone) as real
  {
    hide AverageQueueLength, Reachable;
    Guarantees.AreaIsWaiting(c, s);
    if end >= s.stats.start {
      AverageQueueLengthOf(s.stats, end);
    }
  }

  lemma AverageQueueLengthOf(st: Stats, end: nat)
    requires st.start <= end
    ensures end == st.start ==> AverageQueueLength(Ended(st, end)) == 0.0
    ensures end > st.start ==> AverageQueueLength(Ended(st, end)) * (end - st.start) as real == st.area as real
  {
    if end > st.start {
      Cancel(st.area as real, (end - st.start) as real);
    }
  }

  // ---- utilisation ----

  /** The reported utilisation of a printer is the time it has spent on its jobs, per unit of time; 0 for
      a printer outside the table and for a run that took no time. */
  lemma UtilizationIsTheShare(c: Config, s: State, end: nat, i: nat)
    requires c.Valid() && Reachable(c, s) && s.now <= end
    ensures i >= 5 || end == s.stats.start ==> Utilization(Ended(s.stats, end), i) == 0.0
    ensures i < 5 && end > s.stats.start ==>
      Utilization(Ended(s.stats, end), i) * (end - s.stats.start) as real == Sum(Books.ServiceBy(i), s.hist.served) as real
  {
    hide Utilization, Reachable;
    Guarantees.ServicesAreRecorded(c, s);
    UtilizationOf(s.stats, end, i);
  }

  lemma UtilizationOf(st: Stats, end: nat, i: nat)
    requires |st.perPrinter| == 5
    ensures i >= 5 || end == st.start ==> Utilization(Ended(st, end), i) == 0.0
    ensures i < 5 && end > st.start ==>
      Utilization(Ended(st, end), i) * (end - st.start) as real == st.perPrinter[i].serviceTime as real
  {
    if i < 5 && end > st.start {
      Cancel(st.perPrinter[i].serviceTime as real, (end - st.start) as real);
    }
  }

  lemma NoUtilizationBelow(st: Stats, i: int)
    requires i < 0
    ensures Utilization(st, i) == 0.0
  {
  }

  /** Every reported utilisation is between 0 and 1. */
  lemma UtilizationIsAFraction(c: Config, s: State, end: nat, printer: int)
    requires c.Valid() && Reachable(c, s) && s.now <= end
    ensures 0.0 <= Utilization(Ended(s.stats, end), printer) <= 1.0
  {
    Guarantees.TimeIsAccounted(c, s);
    ReachableHolds(c, s);
    var st := Ended(s.stats, end);
    if 0 <= printer < MAX_PRINTERS && st.duration != 0 {
      if printer >= c.printers {
        assert st.perPrinter[printer].(emptyTime := 0) == NO_WORK;
      }
      FractionBound(st.perPrinter[printer].serviceTime as real, st.duration as real);
    }
  }

  lemma FractionBound(a: real, d: real)
    requires 0.0 <= a <= d && d > 0.0
    ensures 0.0 <= a / d <= 1.0
  {
  }

  // ---- sums over the printers ----

  /** The loop bound of the reporting functions. */
  function Reported(st: Stats): nat {
    if st.maxUsed < MAX_PRINTERS then st.maxUsed else MAX_PRINTERS
  }

  method TotalPapersUsed(st: Stats) returns (total: int)
    requires |st.perPrinter| == MAX_PRINTERS
    ensures total == Sum(Books.PaperUsedBy, st.perPrinter[..Reported(st)])
  {
    total := 0;
    var i := 0;
    while i < st.maxUsed && i < MAX_PRINTERS
      invariant 0 <= i <= Reported(st)
      invariant total == Sum(Books.PaperUsedBy, st.perPrinter[..i])
    {
      SumAppend(Books.PaperUsedBy, st.perPrinter[..i], st.perPrinter[i]);
      assert st.perPrinter[..i + 1] == st.perPrinter[..i] + [st.perPrinter[i]];
      total := total + st.perPrinter[i].paperUsed;
      i := i + 1;
    }
  }

  method OverallAverageServiceTime(st: Stats) returns (average: real)
    requires |st.perPrinter| == MAX_PRINTERS
    ensures average ==
      if st.served == 0 then 0.0
      else Sum(Books.ServiceTimeOf, st.perPrinter[..Reported(st)]) as real / st.served as real / MICROSECONDS
    ensures average * st.served as real * 1000000.0 ==
      if st.served == 0 then 0.0 else Sum(Books.ServiceTimeOf, st.perPrinter[..Reported(st)]) as real
  {
    if st.served == 0 {
      return 0.0;
    }
    var total := 0;
    var i := 0;
    while i < st.maxUsed && i < MAX_PRINTERS
      invariant 0 <= i <= Reported(st)
      invariant total == Sum(Books.ServiceTimeOf, st.perPrinter[..i])
    {
      SumAppend(Books.ServiceTimeOf, st.perPrinter[..i], st.perPrinter[i]);
      assert st.perPrinter[..i + 1] == st.perPrinter[..i] + [st.perPrinter[i]];
      total := total + st.perPrinter[i].serviceTime;
      i := i + 1;
    }
    average := total as real / st.served as real / MICROSECONDS;
    Cancel(total as real, st.served as real);
    assert average * 1000000.0 == total as real / st.served as real;
  }

  lemma {:induction false} SumPrefix<T>(f: T -> int, q: seq<T>, n: nat)
    requires n <= |q| && forall k :: n <= k < |q| ==> f(q[k]) == 0
    ensures Sum(f, q[..n]) == Sum(f, q)
  {
    if n < |q| {
      var m := |q| - 1;
      assert q == q[..m] + [q[m]] && q[..m][..n] == q[..n];
      SumPrefix(f, q[..m], n);
      SumAppend(f, q[..m], q[m]);
    } else {
      assert q[..n] == q;
    }
  }

  lemma {:induction false} AllListed(vs: seq<Service>)
    requires forall k :: 0 <= k < |vs| ==> vs[k].printer < MAX_PRINTERS
    ensures Sum(Books.Listed, vs) == |vs|
  {
    if vs != [] {
      AllListed(vs[1..]);
    }
  }

  /** Stopping the loops at the highest printer used loses nothing; the jobs in the table are those served
      by its printers, which is all of them when there are no more printers than entries; and the papers
      recorded are the papers used by jobs that have departed. */
  lemma ReportedSumsAreTotal(c: Config, s: State)
    requires c.Valid() && Reachable(c, s)
    ensures |s.stats.perPrinter| == MAX_PRINTERS
    ensures var ps, n := s.stats.perPrinter, Reported(s.stats);
      && Sum(Books.PaperUsedBy, ps[..n]) == Sum(Books.PaperUsedBy, ps)
      && Sum(Books.ServiceTimeOf, ps[..n]) == Sum(Books.ServiceTimeOf, ps)
      && Sum(Books.ServedBy, ps) == Sum(Books.Listed, s.hist.served)
      && (c.printers <= MAX_PRINTERS ==> Sum(Books.ServedBy, ps) == s.stats.served)
    ensures forall i :: 0 <= i < |s.printers| && i < MAX_PRINTERS ==>
      && s.stats.perPrinter[i].served == s.printers[i].printed
      && s.stats.perPrinter[i].paperUsed + Books.DepartingNeed(s.printers[i]) == s.printers[i].used
  {
    ReachableHolds(c, s);
    var ps, n := s.stats.perPrinter, Reported(s.stats);
    forall k | n <= k < |ps| ensures Books.PaperUsedBy(ps[k]) == 0 && Books.ServiceTimeOf(ps[k]) == 0 {
      assert ps[k].(emptyTime := 0) == NO_WORK;
    }
    SumPrefix(Books.PaperUsedBy, ps, n);
    SumPrefix(Books.ServiceTimeOf, ps, n);
    if c.printers <= MAX_PRINTERS {
      AllListed(s.hist.served);
    }
    forall i | 0 <= i < |s.printers| && i < MAX_PRINTERS
      ensures ps[i].served == s.printers[i].printed
      ensures ps[i].paperUsed + Books.DepartingNeed(s.printers[i]) == s.printers[i].used
    {
      assert Books.Agrees(s.printers[i], ps[i]);
    }
  }

  // ---- variance ----

  /** Sum of squared differences between `x` and the system times of `vs`. */
  function SpreadFrom(vs: seq<Service>, x: int): int {
    if vs == [] then 0
    else (Books.SystemTime(vs[0]) - x) * (Books.SystemTime(vs[0]) - x) + SpreadFrom(vs[1..], x)
  }

  /** Sum of squared differences over all pairs. */
  function Spread(vs: seq<Service>): int {
    if vs == [] then 0 else SpreadFrom(vs[1..], Books.SystemTime(vs[0])) + Spread(vs[1..])
  }

  ghost predicate SameTimes(vs: seq<Service>) {
    forall k, l :: 0 <= k < |vs| && 0 <= l < |vs| ==> Books.SystemTime(vs[k]) == Books.SystemTime(vs[l])
  }

  lemma {:induction false} SpreadFromExpands(vs: seq<Service>, x: int)
    ensures SpreadFrom(vs, x) ==
      Sum(Books.SystemTimeSquared, vs) - 2 * x * Sum(Books.SystemTime, vs) + |vs| * (x * x)
  {
    if vs != [] {
      var y, rest := Books.SystemTime(vs[0]), Sum(Books.SystemTime, vs[1..]);
      SpreadFromExpands(vs[1..], x);
      ExpandOne(x, y, |vs| - 1, rest);
    }
  }

  lemma ExpandOne(x: int, y: int, n: int, t: int)
    ensures (y - x) * (y - x) - 2 * x * t + n * (x * x) == y * y - 2 * x * (y + t) + (n + 1) * (x * x)
  {
    assert (y - x) * (y - x) == y * y - 2 * x * y + x * x;
    assert 2 * x * (y + t) == 2 * x * y + 2 * x * t;
    assert (n + 1) * (x * x) == n * (x * x) + x * x;
  }

  /** n times the sum of squares exceeds the squared sum by exactly the spread. */
  lemma {:induction false} SquaresExceedBySpread(vs: seq<Service>)
    ensures |vs| * Sum(Books.SystemTimeSquared, vs)
            - Sum(Books.SystemTime, vs) * Sum(Books.SystemTime, vs) == Spread(vs)
  {
    if vs != [] {
      var x, n := Books.SystemTime(vs[0]), |vs| - 1;
      var t, q := Sum(Books.SystemTime, vs[1..]), Sum(Books.SystemTimeSquared, vs[1..]);
      SquaresExceedBySpread(vs[1..]);
      SpreadFromExpands(vs[1..], x);
      Expand(x, n, t, q);
    }
  }

  lemma Expand(x: int, n: int, t: int, q: int)
    ensures (n + 1) * (x * x + q) - (x + t) * (x + t) == (n * q - t * t) + (q - 2 * x * t + n * (x * x))
  {
  }

  lemma {:induction false} SpreadFromZero(vs: seq<Service>, x: int)
    ensures SpreadFrom(vs, x) >= 0
    ensures SpreadFrom(vs, x) == 0 <==> forall k :: 0 <= k < |vs| ==> Books.SystemTime(vs[k]) == x
  {
    if vs != [] {
      SpreadFromZero(vs[1..], x);
      SquareIsZero(Books.SystemTime(vs[0]) - x);
      assert forall k :: 1 <= k < |vs| ==> vs[k] == vs[1..][k - 1];
    }
  }

  lemma SquareIsZero(x: int)
    ensures x * x >= 0 && (x * x == 0 <==> x == 0)
  {
  }

  lemma {:induction false} SpreadZero(vs: seq<Service>)
    ensures Spread(vs) >= 0 && (Spread(vs) == 0 <==> SameTimes(vs))
  {
    if vs != [] {
      var rest, x := vs[1..], Books.SystemTime(vs[0]);
      SpreadZero(rest);
      SpreadFromZero(rest, x);
      assert forall k :: 1 <= k < |vs| ==> vs[k] == rest[k - 1];
      if SameTimes(vs) {
        assert SameTimes(rest);
      }
    }
  }

  lemma ScaleVariance(n: real, q: real, t: real)
    requires n != 0.0
    ensures (q / n - (t / n) * (t / n)) * (n * n) == n * q - t * t
  {
    var m := t / n;
    assert m * n == t;
    assert q / n * n == q;
    assert m * m * (n * n) == (m * n) * (m * n);
  }

  lemma SignOfProduct(a: real, b: real)
    requires b > 0.0
    ensures (a * b >= 0.0 <==> a >= 0.0) && (a * b == 0.0 <==> a == 0.0)
  {
  }

  /** The variance is the spread of the system times over all pairs of jobs, per squared number of jobs. */
  lemma VarianceIsTheSpread(c: Config, s: State)
    requires c.Valid() && Reachable(c, s)
    ensures s.stats.served <= 1 ==> RawVariance(s.stats) == 0.0
    ensures s.stats.served > 1 ==>
      RawVariance(s.stats) * (s.stats.served as real * s.stats.served as real) == Spread(s.hist.served) as real
  {
    hide RawVariance, Reachable;
    Guarantees.ServicesAreRecorded(c, s);
    VarianceOfJobs(s.stats, s.hist.served);
  }

  lemma VarianceOfJobs(st: Stats, vs: seq<Service>)
    requires st.served == |vs|
    requires st.systemTime == Sum(Books.SystemTime, vs) && st.systemTimeSquared == Sum(Books.SystemTimeSquared, vs)
    ensures st.served <= 1 ==> RawVariance(st) == 0.0
    ensures st.served > 1 ==> RawVariance(st) * (st.served as real * st.served as real) == Spread(vs) as real
  {
    if st.served > 1 {
      SquaresExceedBySpread(vs);
      VarianceTimesSquare(st, Spread(vs));
    }
  }

  /** The variance needs no clamp, and is zero exactly when all jobs spent the same time in the system. */
  lemma VarianceIsExact(c: Config, s: State)
    requires c.Valid() && Reachable(c, s) && s.stats.served > 1
    ensures RawVariance(s.stats) >= 0.0
    ensures RawVariance(s.stats) == 0.0 <==> SameTimes(s.hist.served)
  {
    ReachableHolds(c, s);
    SquaresExceedBySpread(s.hist.served);
    SpreadZero(s.hist.served);
    VarianceOfSums(s.stats, Spread(s.hist.served));
  }

  lemma VarianceOfSums(st: Stats, spread: int)
    requires st.served > 1 && spread >= 0
    requires st.served * st.systemTimeSquared - st.systemTime * st.systemTime == spread
    ensures RawVariance(st) >= 0.0 && (RawVariance(st) == 0.0 <==> spread == 0)
  {
    var n := st.served as real;
    VarianceTimesSquare(st, spread);
    SignOfProduct(RawVariance(st), n * n);
  }

  lemma VarianceTimesSquare(st: Stats, spread: int)
    requires st.served > 1
    requires st.served * st.systemTimeSquared - st.systemTime * st.systemTime == spread
    ensures RawVariance(st) * (st.served as real * st.served as real) == spread as real
  {
    var n, q, t := st.served as real, st.systemTimeSquared as real, st.systemTime as real;
    var mean := AverageSystemTime(st) * MICROSECONDS;
    assert mean == t / n by {
      Cancel(t, n);
      assert t / MICROSECONDS / n * MICROSECONDS == t / n;
    }
    ScaleVariance(n, q, t);
  }

  // ---- inter-arrival time ----

  /** The reported average divides the time from the start of the run to the last arrival by the number
      of gaps between arrivals, so it counts the wait for the first job as well. */
  lemma InterArrivalCountsTheFirstWait(c: Config, s: State)
    requires c.Valid() && Reachable(c, s) && s.stats.arrived > 1 && !Books.Counted(s.receiver)
    ensures AverageInterArrival(s.stats) * (s.stats.arrived - 1) as real * 1000000.0
            == (s.previousArrival - s.stats.start) as real
  {
    Guarantees.TimeIsAccounted(c, s);
    var st := s.stats;
    Cancel(st.interArrival as real / MICROSECONDS, (st.arrived - 1) as real);
  }
}
