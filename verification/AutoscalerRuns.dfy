/** Runs of the autoscaler from a pool of two printers, with reports that printers can give: in one a long
    queue does not keep it from scaling down, in one it loses the power to scale at all, and in one it
    removes a printer that was idle for no time at all. */
module AutoscalerRuns {
  import opened Autoscaling
  import opened ScalingHistory
  import opened StuckPools

  const SECOND := 1000000
  // The command line's shortest time between two jobs.
  const SHORTEST_ARRIVAL := 200000

  // A slot whose printer last completed a job at second `d`.
  function On(d: nat): Slot { Slot(true, true, d * SECOND) }
  function Off(d: nat): Slot { Slot(false, true, d * SECOND) }
  function Busy(d: nat): Slot { Slot(true, false, d * SECOND) }

  // What a printer reports: at rest, or at work on its next job.
  function Idle(d: nat): (bool, nat) { (true, d * SECOND) }
  function Work(d: nat): (bool, nat) { (false, d * SECOND) }

  /** All printers idle, with the seconds of their last completions. */
  function Done(a: nat, b: nat, c: nat, d: nat, e: nat): Report {
    [Idle(a), Idle(b), Idle(c), Idle(d), Idle(e)]
  }

  function At(s: nat, queue: nat, r: Report): Tick {
    Tick(s * SECOND, queue, r, r, s * SECOND)
  }

  /** A pool of at least two, with its times in seconds. */
  function Two(slots: seq<Slot>, active: nat, last: nat, low: nat): Pool {
    Pool(slots, active, 2, last * SECOND, low * SECOND)
  }

  // ---- what printers and queue can show ----

  /** Report `r` can be followed by report `q`, read no later than `now`. */
  predicate Succeeds(r: Report, q: Report, now: nat) {
    forall i :: 0 <= i < MAX_POOL ==> r[i].1 <= q[i].1 <= now
  }

  /** The monitor sleeps for a second between two ticks.  At most one job arrives per shortest inter-arrival
      time, completions only move forward, and the queue gets shorter only if some printer is busy or has
      completed a job since. */
  predicate CanFollow(k: Tick, l: Tick) {
    && k.opTime + SECOND <= l.now && Succeeds(k.atRemoval, l.atCheck, l.now)
    && l.queue <= k.queue + (l.now - k.now) / SHORTEST_ARRIVAL
    && (l.queue < k.queue ==> exists i :: 0 <= i < MAX_POOL && (!l.atCheck[i].0 || l.atCheck[i].1 > k.now))
  }

  ghost predicate Plausible(ks: seq<Tick>) {
    && (forall i :: 0 <= i < |ks| ==> Succeeds(ks[i].atCheck, ks[i].atRemoval, ks[i].opTime))
    && (ks != [] ==> ks[0].queue <= ks[0].now / SHORTEST_ARRIVAL)
    && forall i :: 0 < i < |ks| ==> CanFollow(ks[i - 1], ks[i])
  }

  // ---- traces ----

  ghost predicate Leads(p: Pool, k: Tick, q: Pool) {
    |p.slots| == MAX_POOL && p.activeCount <= MAX_POOL && Ticked(p, k) == q
  }

  /** `pools` are the pools between the ticks of `ks`. */
  ghost predicate IsTrace(ks: seq<Tick>, pools: seq<Pool>) {
    && |pools| == |ks| + 1
    && forall i :: 0 <= i < |ks| ==> Leads(pools[i], ks[i], pools[i + 1])
  }

  lemma {:induction false} Follows(ks: seq<Tick>, pools: seq<Pool>, n: nat)
    requires IsTrace(ks, pools) && PoolOk(pools[0]) && n <= |ks|
    ensures Before(pools[0], ks, n) == pools[n]
  {
    if n > 0 {
      Follows(ks, pools, n - 1);
      BeforeNext(pools[0], ks, n - 1);
      assert Leads(pools[n - 1], ks[n - 1], pools[n]);
    }
  }

  // ---- single ticks ----

  lemma Grows(slots: seq<Slot>, active: nat, last: nat, k: Tick, s: nat, slots': seq<Slot>)
    requires |slots| == MAX_POOL && 2 <= active < MAX_POOL && !slots[active].active
    requires k.now == k.opTime == s * SECOND && s >= last + 3 && k.queue >= ScaleUpThreshold(active)
    requires slots' == slots[active := slots[active].(active := true)]
    ensures Leads(Two(slots, active, last, 0), k, Two(slots', active + 1, s, 0))
  {
  }

  lemma StartsTimer(slots: seq<Slot>, active: nat, last: nat, k: Tick, s: nat, slots': seq<Slot>)
    requires |slots| == MAX_POOL && 2 < active <= MAX_POOL && 0 < last && s >= last + 3
    requires k.now == s * SECOND && k.queue == 0 && slots' == Observe(slots, k.atCheck)
    ensures Leads(Two(slots, active, last, 0), k, Two(slots', active, last, s))
  {
  }

  /** Slot 2 has been idle since second `d`. */
  lemma WantsToShrink(slots: seq<Slot>, active: nat, last: nat, low: nat, k: Tick, s: nat, d: nat)
    requires |slots| == MAX_POOL && 2 < active <= MAX_POOL && slots[2].active && 0 < low && last + 3 <= low
    requires k.now == s * SECOND < WORD && low + 5 <= s && d + 5 <= s && k.queue == 0
    requires k.atCheck[2] == (true, d * SECOND)
    ensures WantsDown(Two(slots, active, last, low), k)
  {
    assert LongIdle(Observe(slots, k.atCheck)[2], k.now);
  }

  /** The highest idle slot `i` goes. */
  lemma Shrinks(slots: seq<Slot>, active: nat, last: nat, low: nat, k: Tick, s: nat, d: nat, i: nat, slots': seq<Slot>)
    requires |slots| == MAX_POOL && 2 < active <= MAX_POOL && slots[2].active && 0 < low && last + 3 <= low
    requires k.now == k.opTime == s * SECOND < WORD && low + 5 <= s && d + 5 <= s && k.queue == 0
    requires k.atCheck[2] == (true, d * SECOND)
    requires 2 <= i < active && slots[i].active && k.atRemoval[i].0
    requires forall j :: i < j < active ==> !(slots[j].active && k.atRemoval[j].0)
    requires slots' == Observe(slots, k.atRemoval)[i := Slot(false, true, k.atRemoval[i].1)]
    ensures Leads(Two(slots, active, last, low), k, Two(slots', active - 1, s, 0))
    ensures Removed(AtRemoval(Two(slots, active, last, low), k)) == i
  {
    WantsToShrink(slots, active, last, low, k, s, d);
  }

  lemma Fails(slots: seq<Slot>, last: nat, low: nat, k: Tick, s: nat)
    requires |slots| == MAX_POOL && slots[4].active && k.now == s * SECOND && s >= last + 3 && k.queue == 20
    ensures Leads(Two(slots, 4, last, low), k, Two(slots, 4, last, low)) && FailedUp(Two(slots, 4, last, low), k)
  {
  }

  lemma StartOfTwo()
    ensures PoolOk(StartUp(2)) && StartUp(2) == Two([On(0), On(0), Off(0), Off(0), Off(0)], 2, 0, 0)
  {
    StartUpIsOk(2);
  }

  // ---- a scale-down in spite of load ----

  /** A burst of load until second 18; slot 4 takes a job at 24 and completes it at 25.  Then the monitor is
      held up for four seconds, in which 20 jobs arrive; slot 2, waiting for paper, counts as idle. */
  function LoadedRun(): seq<Tick> {
    [At(10, 10, [Work(9), Work(9), Idle(0), Idle(0), Idle(0)]),
     At(13, 15, [Work(12), Work(12), Work(12), Idle(0), Idle(0)]),
     At(16, 20, [Work(15), Work(15), Work(15), Work(15), Idle(0)]),
     At(19, 0, Done(18, 18, 18, 18, 18)),
     At(24, 0, Done(18, 18, 18, 18, 18)).(atRemoval := [Idle(18), Idle(18), Idle(18), Idle(18), Work(18)]),
     At(27, 0, Done(18, 18, 18, 18, 25)),
     At(31, 20, [Work(30), Work(30), Idle(18), Idle(18), Work(30)]),
     At(35, 0, Done(34, 34, 18, 18, 34))]
  }

  function LoadedPools(): seq<Pool> {
    [Two([On(0), On(0), Off(0), Off(0), Off(0)], 2, 0, 0),
     Two([On(0), On(0), On(0), Off(0), Off(0)], 3, 10, 0),
     Two([On(0), On(0), On(0), On(0), Off(0)], 4, 13, 0),
     Two([On(0), On(0), On(0), On(0), On(0)], 5, 16, 0),
     Two([On(18), On(18), On(18), On(18), On(18)], 5, 16, 19),
     Two([On(18), On(18), On(18), Off(18), Busy(18)], 4, 24, 0),
     Two([On(18), On(18), On(18), Off(18), On(25)], 4, 24, 27),
     Two([On(18), On(18), On(18), Off(18), On(25)], 4, 24, 27)]
  }

  lemma LoadedTraceGrows()
    ensures var ks, ps := LoadedRun(), LoadedPools();
      Leads(ps[0], ks[0], ps[1]) && Leads(ps[1], ks[1], ps[2]) && Leads(ps[2], ks[2], ps[3])
  {
    var ks, ps := LoadedRun(), LoadedPools();
    Grows(ps[0].slots, 2, 0, ks[0], 10, ps[1].slots);
    Grows(ps[1].slots, 3, 10, ks[1], 13, ps[2].slots);
    Grows(ps[2].slots, 4, 13, ks[2], 16, ps[3].slots);
  }

  lemma LoadedTraceShrinks()
    ensures var ks, ps := LoadedRun(), LoadedPools();
      Leads(ps[3], ks[3], ps[4]) && Leads(ps[4], ks[4], ps[5])
  {
    var ks, ps := LoadedRun(), LoadedPools();
    StartsTimer(ps[3].slots, 5, 16, ks[3], 19, ps[4].slots);
    Shrinks(ps[4].slots, 5, 16, 19, ks[4], 24, 18, 3, ps[5].slots);
  }

  lemma LoadedTraceFails()
    ensures var ks, ps := LoadedRun(), LoadedPools();
      Leads(ps[5], ks[5], ps[6]) && Leads(ps[6], ks[6], ps[7]) && FailedUp(ps[6], ks[6])
  {
    var ks, ps := LoadedRun(), LoadedPools();
    StartsTimer(ps[5].slots, 4, 24, ks[5], 27, ps[6].slots);
    Fails(ps[6].slots, 24, 27, ks[6], 31);
  }

  lemma LoadedStates(n: nat)
    requires n <= 7
    ensures PoolOk(StartUp(2)) && Before(StartUp(2), LoadedRun(), n) == LoadedPools()[n]
  {
    StartOfTwo();
    LoadedTraceGrows();
    LoadedTraceShrinks();
    LoadedTraceFails();
    Follows(LoadedRun()[..7], LoadedPools(), n);
    assert LoadedRun()[..7][..n] == LoadedRun()[..n];
  }

  lemma LoadedIsTimely()
    ensures Timely(StartUp(2), LoadedRun())
  {
    forall i, j | 0 <= i < j < 8 ensures LoadedRun()[i].opTime <= LoadedRun()[j].now {
    }
  }

  lemma FirstBurstIsPlausible()
    ensures var ks := LoadedRun(); CanFollow(ks[0], ks[1]) && CanFollow(ks[1], ks[2]) && CanFollow(ks[2], ks[3])
  {
    assert LoadedRun()[3].atCheck[0].1 > LoadedRun()[2].now;
  }

  lemma LullIsPlausible()
    ensures var ks := LoadedRun(); CanFollow(ks[3], ks[4]) && CanFollow(ks[4], ks[5])
    ensures var k := LoadedRun()[4]; Succeeds(k.atCheck, k.atRemoval, k.opTime)
  {
  }

  lemma SecondBurstIsPlausible()
    ensures var ks := LoadedRun(); CanFollow(ks[5], ks[6]) && CanFollow(ks[6], ks[7])
  {
    assert LoadedRun()[7].atCheck[0].1 > LoadedRun()[6].now;
  }

  lemma LoadedIsPlausible()
    ensures Plausible(LoadedRun())
  {
    FirstBurstIsPlausible();
    LullIsPlausible();
    SecondBurstIsPlausible();
    var ks := LoadedRun();
    hide CanFollow;
    forall i | 0 <= i < |ks| && i != 4 ensures Succeeds(ks[i].atCheck, ks[i].atRemoval, ks[i].opTime) {
    }
  }

  /** A run from start-up in which a queue of 20, in the middle of the five seconds, does not stop the
      scale-down: slot 3 was removed below a busy slot 4, so the scale-up the queue calls for fails. */
  lemma LoadDuringSustainedLow()
    ensures var p, ks := StartUp(2), LoadedRun();
      && PoolOk(p) && Timely(p, ks) && Plausible(ks)
      && ks[6].queue == 20 && ks[6].now + LOW_WAIT > ks[7].now
      && FailedUp(Before(p, ks, 6), ks[6]) && WantsDown(Before(p, ks, 7), ks[7])
  {
    LoadedIsTimely();
    LoadedIsPlausible();
    LoadedStates(6);
    LoadedStates(7);
    LoadedTraceFails();
    WantsToShrink(LoadedPools()[7].slots, 4, 24, 27, LoadedRun()[7], 35, 18);
  }

  // ---- a shorter burst ----

  /** A burst of load until second 15; the last tick is given. */
  function ShortRun(last: Tick): seq<Tick> {
    [At(10, 10, [Work(9), Work(9), Idle(0), Idle(0), Idle(0)]),
     At(13, 15, [Work(12), Work(12), Work(12), Idle(0), Idle(0)]),
     At(16, 0, Done(15, 15, 15, 15, 0)),
     last]
  }

  /** The pool before the last tick. */
  function Rested(): Pool {
    Two([On(15), On(15), On(15), On(15), Off(0)], 4, 13, 16)
  }

  function ShortPools(last: Pool): seq<Pool> {
    [Two([On(0), On(0), Off(0), Off(0), Off(0)], 2, 0, 0),
     Two([On(0), On(0), On(0), Off(0), Off(0)], 3, 10, 0),
     Two([On(0), On(0), On(0), On(0), Off(0)], 4, 13, 0),
     Rested(),
     last]
  }

  lemma ShortStates(k: Tick, q: Pool)
    requires Leads(Rested(), k, q)
    ensures PoolOk(StartUp(2)) && RunTicks(StartUp(2), ShortRun(k)) == q
    ensures Before(StartUp(2), ShortRun(k), 3) == Rested()
  {
    StartOfTwo();
    var ks, ps := ShortRun(k), ShortPools(q);
    Grows(ps[0].slots, 2, 0, ks[0], 10, ps[1].slots);
    Grows(ps[1].slots, 3, 10, ks[1], 13, ps[2].slots);
    StartsTimer(ps[2].slots, 4, 13, ks[2], 16, ps[3].slots);
    Follows(ks, ps, 3);
    Follows(ks, ps, 4);
    assert ks[..4] == ks;
  }

  lemma ShortIsPlausible(k: Tick)
    requires k.now == k.opTime == 21 * SECOND && k.queue == 0
    requires Succeeds(Done(15, 15, 15, 15, 0), k.atCheck, k.now) && Succeeds(k.atCheck, k.atRemoval, k.now)
    ensures Timely(StartUp(2), ShortRun(k)) && Plausible(ShortRun(k))
  {
    var ks := ShortRun(k);
    assert ks[2].atCheck[0].1 > ks[1].now;
  }

  // ---- a pool that gets stuck ----

  /** At the removal the printer of slot 3 has just taken a job. */
  function StickingTick(): Tick {
    At(21, 0, Done(15, 15, 15, 15, 0)).(atRemoval := [Idle(15), Idle(15), Idle(15), Work(15), Idle(0)])
  }

  function Stopped(): Pool {
    Two([On(15), On(15), Off(15), Busy(15), Off(0)], 3, 21, 0)
  }

  lemma StickingLeads()
    ensures Leads(Rested(), StickingTick(), Stopped())
  {
    Shrinks(Rested().slots, 4, 13, 16, StickingTick(), 21, 15, 2, Stopped().slots);
  }

  lemma StickingIsPlausible()
    ensures Timely(StartUp(2), ShortRun(StickingTick())) && Plausible(ShortRun(StickingTick()))
  {
    ShortIsPlausible(StickingTick());
  }

  /** A run from start-up after which the pool never scales again, whatever the load. */
  lemma GetsStuck(ks: seq<Tick>)
    ensures var p, run := StartUp(2), ShortRun(StickingTick()); PoolOk(p) && Timely(p, run) && Plausible(run)
    ensures var q := RunTicks(StartUp(2), ShortRun(StickingTick()));
      Stuck(q) && q.activeCount == 3 && RunTicks(q, ks).activeCount == 3
  {
    StickingIsPlausible();
    hide Timely, Plausible, Leads, ShortRun, StickingTick, Rested, CountActive;
    StickingLeads();
    ShortStates(StickingTick(), Stopped());
    StuckForever(Stopped(), ks);
  }

  // ---- a removal without idle time ----

  /** The printer of slot 3 has completed a job at this very second. */
  function HastyTick(): Tick { At(21, 0, Done(15, 15, 15, 21, 0)) }

  lemma HastyLeads()
    ensures Leads(Rested(), HastyTick(), Two([On(15), On(15), On(15), Off(21), Off(0)], 3, 21, 0))
    ensures WantsDown(Rested(), HastyTick()) && Removed(AtRemoval(Rested(), HastyTick())) == 3
    ensures !LongIdle(AtRemoval(Rested(), HastyTick()).slots[3], HastyTick().now)
  {
    Shrinks(Rested().slots, 4, 13, 16, HastyTick(), 21, 15, 3, [On(15), On(15), On(15), Off(21), Off(0)]);
    WantsToShrink(Rested().slots, 4, 13, 16, HastyTick(), 21, 15);
  }

  lemma HastyIsPlausible()
    ensures Timely(StartUp(2), ShortRun(HastyTick())) && Plausible(ShortRun(HastyTick()))
  {
    ShortIsPlausible(HastyTick());
  }

  /** A run from start-up that ends by removing slot 3, idle for no time: slot 2 passed the idle test. */
  lemma RemovesBriefIdle()
    ensures var p, run := StartUp(2), ShortRun(HastyTick()); PoolOk(p) && Timely(p, run) && Plausible(run)
    ensures var q, k := Before(StartUp(2), ShortRun(HastyTick()), 3), HastyTick();
      WantsDown(q, k) && Removed(AtRemoval(q, k)) == 3 && !LongIdle(AtRemoval(q, k).slots[3], k.now)
  {
    HastyIsPlausible();
    hide Timely, Plausible, Leads, ShortRun, HastyTick, Rested, CountActive, LongIdle, WantsDown, HighestIdle;
    HastyLeads();
    ShortStates(HastyTick(), Two([On(15), On(15), On(15), Off(21), Off(0)], 3, 21, 0));
  }
}
