/** Pools that can never scale again, and pools that do not grow. */
module StuckPools {
  import opened Autoscaling
  import opened ScalingHistory

  /** The slot the next start would use is taken, or there is none, and no slot the removal looks at is active. */
  ghost predicate Stuck(p: Pool)
    requires PoolOk(p)
  {
    && (p.activeCount == MAX_POOL || p.slots[p.activeCount].active)
    && forall k :: p.minCount <= k < p.activeCount ==> !p.slots[k].active
  }

  lemma StuckTick(p: Pool, k: Tick)
    requires PoolOk(p) && Stuck(p)
    ensures var q := Ticked(p, k);
      && PoolOk(q) && q.minCount == p.minCount && q.activeCount == p.activeCount && q.lastScale == p.lastScale
      && forall i :: 0 <= i < MAX_POOL ==> q.slots[i].active == p.slots[i].active
  {
    TickKeepsPool(p, k);
  }

  /** A stuck pool never scales again: under any ticks it keeps its active slots. */
  lemma {:induction false} StuckForever(p: Pool, ks: seq<Tick>)
    requires PoolOk(p) && Stuck(p)
    ensures var q := RunTicks(p, ks);
      && Stuck(q) && q.activeCount == p.activeCount && q.lastScale == p.lastScale
      && forall i :: 0 <= i < MAX_POOL ==> q.slots[i].active == p.slots[i].active
  {
    if ks != [] {
      StuckForever(p, ks[..|ks| - 1]);
      StuckTick(RunTicks(p, ks[..|ks| - 1]), ks[|ks| - 1]);
    }
  }

  lemma OneTick(p: Pool, k: Tick)
    requires PoolOk(p)
    ensures RunTicks(p, [k]) == Ticked(p, k)
  {
    assert [k][..0] == [] && RunTicks(p, []) == p;
  }

  lemma TwoTicks(p: Pool, k: Tick, l: Tick)
    requires PoolOk(p)
    ensures PoolOk(Ticked(p, k)) && RunTicks(p, [k, l]) == Ticked(Ticked(p, k), l)
  {
    TickKeepsPool(p, k);
    OneTick(p, k);
    assert [k, l][..1] == [k];
  }

  /** A long enough queue makes a pool with a free next slot grow. */
  lemma Growing(p: Pool) returns (k: Tick)
    requires PoolOk(p) && p.activeCount < MAX_POOL && !p.slots[p.activeCount].active
    ensures Timely(p, [k]) && Ticked(p, k).activeCount == p.activeCount + 1
  {
    var idle: Report := seq(MAX_POOL, _ => (true, 0));
    var now := p.lastScale + COOLDOWN;
    k := Tick(now, NEVER, idle, idle, now);
  }

  function Everywhere(idle: bool, lastDone: nat): Report {
    seq(MAX_POOL, _ => (idle, lastDone))
  }

  /** While every printer reports to be busy a quiet tick only starts the timer. */
  lemma QuietTick(p: Pool, now: nat)
    requires PoolOk(p) && p.activeCount > p.minCount && p.lastScale + COOLDOWN <= now
    ensures var q := Ticked(p, Tick(now, 0, Everywhere(false, 0), Everywhere(false, 0), now));
      && q.activeCount == p.activeCount && q.minCount == p.minCount && q.lastScale == p.lastScale
      && q.lowStart == (if p.lowStart == 0 then now else p.lowStart)
      && |q.slots| == MAX_POOL && forall i :: 0 <= i < MAX_POOL ==> q.slots[i].active == p.slots[i].active
  {
  }

  /** With the timer run out and every printer idle, an active slot above the minimum goes. */
  lemma IdleTick(p: Pool, now: nat, i: nat)
    requires PoolOk(p) && p.minCount <= i < p.activeCount && p.slots[i].active
    requires p.lastScale + COOLDOWN <= now && p.lowStart != 0 && p.lowStart + LOW_WAIT <= now
    ensures var idle := Everywhere(true, now - IDLE_TIMEOUT);
      Ticked(p, Tick(now, 0, idle, idle, now)).activeCount == p.activeCount - 1
  {
    var k := Tick(now, 0, Everywhere(true, now - IDLE_TIMEOUT), Everywhere(true, now - IDLE_TIMEOUT), now);
    assert LongIdle(Observe(p.slots, k.atCheck)[i], now);
    assert AtRemoval(p, k).slots[i].active && AtRemoval(p, k).slots[i].idle;
  }

  /** Two quiet ticks, a low-queue wait apart: in the first all printers are busy, in the second idle. */
  function Quiet(p: Pool): (Tick, Tick) {
    var start := (if p.lowStart > p.lastScale then p.lowStart else p.lastScale) + COOLDOWN;
    var busy, idle := Everywhere(false, 0), Everywhere(true, start + LOW_WAIT - IDLE_TIMEOUT);
    (Tick(start, 0, busy, busy, start), Tick(start + LOW_WAIT, 0, idle, idle, start + LOW_WAIT))
  }

  lemma QuietIsTimely(p: Pool)
    ensures Timely(p, [Quiet(p).0, Quiet(p).1])
  {
  }

  /** They make a pool with a removable slot shrink. */
  lemma Shrinking(p: Pool, i: nat)
    requires PoolOk(p) && p.minCount <= i < p.activeCount && p.slots[i].active
    ensures var (k, l) := Quiet(p); PoolOk(Ticked(p, k)) && Ticked(Ticked(p, k), l).activeCount == p.activeCount - 1
  {
    var (k, l) := Quiet(p);
    QuietTick(p, k.now);
    TickKeepsPool(p, k);
    assert Ticked(p, k).slots[i].active;
    IdleTick(Ticked(p, k), l.now, i);
  }

  /** A pool that is not stuck can change within two ticks. */
  lemma Unstuck(p: Pool) returns (ks: seq<Tick>)
    requires PoolOk(p) && !Stuck(p)
    ensures Timely(p, ks) && |ks| <= 2 && RunTicks(p, ks).activeCount != p.activeCount
  {
    if p.activeCount < MAX_POOL && !p.slots[p.activeCount].active {
      var k := Growing(p);
      OneTick(p, k);
      ks := [k];
    } else {
      var i: nat :| p.minCount <= i < p.activeCount && p.slots[i].active;
      var (k, l) := Quiet(p);
      Shrinking(p, i);
      QuietIsTimely(p);
      TwoTicks(p, k, l);
      ks := [k, l];
    }
  }

  /** Exactly the stuck pools keep their size under every run of ticks. */
  lemma StuckIff(p: Pool)
    requires PoolOk(p)
    ensures Stuck(p) <==> forall ks :: Timely(p, ks) ==> RunTicks(p, ks).activeCount == p.activeCount
  {
    if Stuck(p) {
      forall ks | Timely(p, ks) ensures RunTicks(p, ks).activeCount == p.activeCount {
        StuckForever(p, ks);
      }
    } else {
      var ks := Unstuck(p);
      assert Timely(p, ks);
    }
  }

  /** The slots below the minimum and the one just above the next are active, one more than the minimum. */
  ghost predicate Frozen(p: Pool) {
    && PoolOk(p)
    && p.activeCount == p.minCount + 1 < MAX_POOL
    && forall k :: 0 <= k < MAX_POOL ==> (p.slots[k].active <==> k < p.minCount || k == p.activeCount)
  }

  lemma FrozenForever(p: Pool, ks: seq<Tick>)
    requires Frozen(p)
    ensures Frozen(RunTicks(p, ks))
  {
    StuckForever(p, ks);
  }

  lemma PrefixIsFree(p: Pool)
    requires PoolOk(p) && IsPrefix(p) && p.minCount < MAX_POOL
    ensures !Stuck(p)
  {
    assert p.slots[p.minCount].active <==> p.minCount < p.activeCount;
  }

  /** A prefix below the maximum gets stuck in one tick exactly by losing its lowest removable slot
      from under one other. */
  lemma PrefixSticks(p: Pool, k: Tick)
    requires PoolOk(p) && IsPrefix(p) && p.minCount < MAX_POOL
    ensures PoolOk(Ticked(p, k))
    ensures Stuck(Ticked(p, k)) <==>
      !RemovesTop(p, k) && p.activeCount == p.minCount + 2 && Removed(AtRemoval(p, k)) == p.minCount
  {
    TickKeepsPool(p, k);
    PrefixStaysPrefix(p, k);
    if RemovesTop(p, k) {
      PrefixIsFree(Ticked(p, k));
    } else {
      GapSticks(p, Ticked(p, k), Removed(AtRemoval(p, k)));
    }
  }

  lemma GapSticks(p: Pool, q: Pool, i: int)
    requires PoolOk(p) && IsPrefix(p) && PoolOk(q) && q.minCount == p.minCount
    requires p.minCount <= i < p.activeCount - 1 && q.activeCount == p.activeCount - 1
    requires forall k :: 0 <= k < MAX_POOL ==> (q.slots[k].active <==> p.slots[k].active && k != i)
    ensures Stuck(q) <==> p.activeCount == p.minCount + 2 && i == p.minCount
  {
    if p.activeCount > p.minCount + 2 {
      var k := if i == p.minCount then p.minCount + 1 else p.minCount;
      assert q.slots[k].active;
    }
  }

  // ---- a pool of one ----

  lemma {:induction false} CountBeyond(slots: seq<Slot>, n: nat, i: nat)
    requires n <= i < |slots| && slots[i].active && forall k :: 0 <= k < n ==> slots[k].active
    ensures CountActive(slots) > n
  {
    if i > 0 {
      CountBeyond(slots[1..], if n == 0 then 0 else n - 1, i - 1);
    }
  }

  /** A pool at its minimum is a prefix. */
  lemma MinimumIsPrefix(p: Pool)
    requires PoolOk(p) && p.activeCount == p.minCount
    ensures IsPrefix(p)
  {
    forall i | p.minCount <= i < MAX_POOL ensures !p.slots[i].active {
      if p.slots[i].active {
        CountBeyond(p.slots, p.minCount, i);
      }
    }
  }

  /** A pool of one grows in a tick exactly when the cooldown is over and 999999 jobs are queued. */
  lemma PoolOfOneGrowsIff(p: Pool, k: Tick)
    requires PoolOk(p) && p.minCount == p.activeCount == 1
    ensures Ticked(p, k).activeCount == if k.now - p.lastScale >= COOLDOWN && k.queue >= NEVER then 2 else 1
  {
    MinimumIsPrefix(p);
  }

  /** The queue lengths a pool of one ignores: with fewer than 999999 jobs it stays a pool of one. */
  lemma {:induction false} PoolOfOneStays(p: Pool, ks: seq<Tick>)
    requires PoolOk(p) && p.minCount == p.activeCount == 1
    requires forall i :: 0 <= i < |ks| ==> ks[i].queue < NEVER
    ensures RunTicks(p, ks).activeCount == 1
  {
    if ks != [] {
      PoolOfOneStays(p, ks[..|ks| - 1]);
    }
  }
}
