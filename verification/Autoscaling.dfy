/** The autoscaler (src/autoscaling.c) and the pool it scales (src/printer.c:188-240) as functions on
    values, and what runs of ticks guarantee.  Times are in microseconds. */
module Autoscaling {

  const MAX_POOL := 5
  const COOLDOWN := 3000000
  const LOW_WAIT := 5000000
  const IDLE_TIMEOUT := 5000000
  const LOW_THRESHOLD := 5
  const NEVER := 999999
  const WORD := 0x1_0000_0000_0000_0000

  /** A slot of the pool: whether its thread runs, and what its printer last reported. */
  datatype Slot = Slot(active: bool, idle: bool, lastDone: nat)

  datatype Pool = Pool(slots: seq<Slot>, activeCount: nat, minCount: nat, lastScale: nat, lowStart: nat)

  /** What the printers report at a moment: idle flag and completion time per slot. */
  type Report = r: seq<(bool, nat)> | |r| == MAX_POOL witness seq(MAX_POOL, _ => (true, 0))

  /** One iteration of the monitoring loop: the clock and queue length it reads, the reports at the
      check and at the removal, and the clock reading a scale operation takes. */
  datatype Tick = Tick(now: nat, queue: nat, atCheck: Report, atRemoval: Report, opTime: nat)

  function Observe(slots: seq<Slot>, report: Report): (r: seq<Slot>)
    requires |slots| == MAX_POOL
    ensures |r| == |slots|
    ensures forall k :: 0 <= k < |slots| ==> r[k] == Slot(slots[k].active, report[k].0, report[k].1)
  {
    seq(|slots|, k requires 0 <= k < |slots| => Slot(slots[k].active, report[k].0, report[k].1))
  }

  // ---- decisions ----

  function ScaleUpThreshold(active: int): int {
    match active
    case 2 => 10
    case 3 => 15
    case 4 => 20
    case _ => NEVER
  }

  predicate ShouldScaleUp(p: Pool, queue: nat, now: nat) {
    && p.activeCount < MAX_POOL
    && now - p.lastScale >= COOLDOWN
    && queue >= ScaleUpThreshold(p.activeCount)
  }

  /** The idle time is an unsigned difference: a job that completed after the clock was read makes it huge. */
  predicate LongIdle(slot: Slot, now: nat) {
    slot.active && slot.idle && (now - slot.lastDone) % WORD >= IDLE_TIMEOUT
  }

  /** The check reaches the low-queue timer. */
  predicate ReachesTimer(p: Pool, now: nat) {
    p.activeCount > p.minCount && now - p.lastScale >= COOLDOWN
  }

  function CheckedTimer(p: Pool, queue: nat, now: nat): nat {
    if !ReachesTimer(p, now) then p.lowStart
    else if queue >= LOW_THRESHOLD then 0
    else if p.lowStart == 0 then now
    else p.lowStart
  }

  predicate ShouldScaleDown(p: Pool, queue: nat, now: nat)
    requires |p.slots| == MAX_POOL
  {
    && ReachesTimer(p, now)
    && queue < LOW_THRESHOLD
    && p.lowStart != 0
    && now - p.lowStart >= LOW_WAIT
    && exists i :: p.minCount <= i < p.activeCount && i < MAX_POOL && LongIdle(p.slots[i], now)
  }

  // ---- operations ----

  function StartPrinter(p: Pool, index: nat): Pool
    requires index < |p.slots|
  {
    if p.activeCount >= MAX_POOL || p.slots[index].active then p
    else p.(slots := p.slots[index := p.slots[index].(active := true)], activeCount := p.activeCount + 1)
  }

  predicate Starts(p: Pool, index: nat)
    requires index < |p.slots|
  {
    p.activeCount < MAX_POOL && !p.slots[index].active
  }

  predicate ScaleUpSucceeds(p: Pool)
    requires |p.slots| == MAX_POOL
  {
    p.activeCount < MAX_POOL && Starts(p, p.activeCount)
  }

  function ScaleUp(p: Pool, time: nat): Pool
    requires |p.slots| == MAX_POOL
  {
    if ScaleUpSucceeds(p) then StartPrinter(p, p.activeCount).(lastScale := time, lowStart := 0) else p
  }

  /** The highest active and idle slot in [low, high), or -1. */
  function HighestIdle(slots: seq<Slot>, low: nat, high: int): (r: int)
    requires high <= |slots|
    ensures r == -1 || low <= r < high
    ensures r == -1 ==> forall k :: low <= k < high ==> !(slots[k].active && slots[k].idle)
    ensures r != -1 ==> slots[r].active && slots[r].idle &&
                        forall k :: r < k < high ==> !(slots[k].active && slots[k].idle)
    decreases high
  {
    if high <= low then -1
    else if slots[high - 1].active && slots[high - 1].idle then high - 1
    else HighestIdle(slots, low, high - 1)
  }

  function Removed(p: Pool): int
    requires |p.slots| == MAX_POOL && p.activeCount <= MAX_POOL
  {
    if p.activeCount <= p.minCount then -1 else HighestIdle(p.slots, p.minCount, p.activeCount)
  }

  function ScaleDown(p: Pool, time: nat): Pool
    requires |p.slots| == MAX_POOL && p.activeCount <= MAX_POOL
  {
    var i := Removed(p);
    if i < 0 then p
    else p.(slots := p.slots[i := p.slots[i].(active := false)], activeCount := p.activeCount - 1,
            lastScale := time, lowStart := 0)
  }

  // ---- one tick ----

  /** The pool as the removal finds it: the timer checked, the printers having reported again. */
  function AtRemoval(p: Pool, k: Tick): Pool
    requires |p.slots| == MAX_POOL
  {
    p.(slots := Observe(p.slots, k.atRemoval), lowStart := CheckedTimer(p, k.queue, k.now))
  }

  predicate WantsDown(p: Pool, k: Tick)
    requires |p.slots| == MAX_POOL
  {
    !ShouldScaleUp(p, k.queue, k.now) && ShouldScaleDown(p.(slots := Observe(p.slots, k.atCheck)), k.queue, k.now)
  }

  function Ticked(p: Pool, k: Tick): Pool
    requires |p.slots| == MAX_POOL && p.activeCount <= MAX_POOL
  {
    if ShouldScaleUp(p, k.queue, k.now) then ScaleUp(p, k.opTime)
    else if WantsDown(p, k) then ScaleDown(AtRemoval(p, k), k.opTime)
    else p.(slots := Observe(p.slots, k.atCheck), lowStart := CheckedTimer(p, k.queue, k.now))
  }

  /** The tick performs a scale operation. */
  predicate Scales(p: Pool, k: Tick)
    requires |p.slots| == MAX_POOL && p.activeCount <= MAX_POOL
  {
    if ShouldScaleUp(p, k.queue, k.now) then ScaleUpSucceeds(p)
    else WantsDown(p, k) && Removed(AtRemoval(p, k)) >= 0
  }

  // ---- the pool's slots ----

  function CountActive(slots: seq<Slot>): nat {
    if slots == [] then 0 else (if slots[0].active then 1 else 0) + CountActive(slots[1..])
  }

  lemma {:induction false} CountUpdate(slots: seq<Slot>, i: nat, slot: Slot)
    requires i < |slots|
    ensures CountActive(slots[i := slot]) ==
            CountActive(slots) - (if slots[i].active then 1 else 0) + (if slot.active then 1 else 0)
  {
    if i == 0 {
      assert slots[i := slot][1..] == slots[1..];
    } else {
      CountUpdate(slots[1..], i - 1, slot);
      assert slots[i := slot][1..] == slots[1..][i - 1 := slot];
    }
  }

  lemma {:induction false} CountSame(a: seq<Slot>, b: seq<Slot>)
    requires |a| == |b| && forall k :: 0 <= k < |a| ==> a[k].active == b[k].active
    ensures CountActive(a) == CountActive(b)
  {
    if a != [] {
      CountSame(a[1..], b[1..]);
    }
  }

  ghost predicate PoolOk(p: Pool) {
    && |p.slots| == MAX_POOL
    && p.activeCount == CountActive(p.slots)
    && p.minCount <= p.activeCount <= MAX_POOL
    && forall k :: 0 <= k < p.minCount ==> p.slots[k].active
  }

  /** A tick keeps the active count equal to the number of active slots, between the minimum and the
      maximum, and never removes a slot below the minimum. */
  lemma TickKeepsPool(p: Pool, k: Tick)
    requires PoolOk(p)
    ensures PoolOk(Ticked(p, k)) && Ticked(p, k).minCount == p.minCount
  {
    CountSame(p.slots, Observe(p.slots, k.atCheck));
    CountSame(p.slots, Observe(p.slots, k.atRemoval));
    if ShouldScaleUp(p, k.queue, k.now) {
      CountUpdate(p.slots, p.activeCount, p.slots[p.activeCount].(active := true));
    } else if WantsDown(p, k) {
      var q := AtRemoval(p, k);
      var i := Removed(q);
      if i >= 0 {
        CountUpdate(q.slots, i, q.slots[i].(active := false));
      }
    }
  }

  /** The idle time required at the check is not required at the removal: the printer removed has been idle
      that long exactly when no idle printer is above some printer that has. */
  lemma RemovedIsLongIdleIff(p: Pool, k: Tick)
    requires PoolOk(p) && WantsDown(p, k) && Removed(AtRemoval(p, k)) >= 0
    ensures var q := AtRemoval(p, k);
      LongIdle(q.slots[Removed(q)], k.now) <==>
        exists i :: p.minCount <= i < p.activeCount && LongIdle(q.slots[i], k.now)
                    && forall j :: i < j < p.activeCount ==> !(q.slots[j].active && q.slots[j].idle)
  {
  }

  // ---- runs ----

  function RunTicks(p: Pool, ks: seq<Tick>): (r: Pool)
    requires PoolOk(p)
    ensures PoolOk(r) && r.minCount == p.minCount
  {
    if ks == [] then p
    else
      var q := RunTicks(p, ks[..|ks| - 1]);
      TickKeepsPool(q, ks[|ks| - 1]);
      Ticked(q, ks[|ks| - 1])
  }

  /** Slots 0, ..., activeCount - 1 are the active ones. */
  ghost predicate IsPrefix(p: Pool) {
    forall k :: 0 <= k < |p.slots| ==> (p.slots[k].active <==> k < p.activeCount)
  }

  /** The tick removes no slot but the highest active one. */
  ghost predicate RemovesTop(p: Pool, k: Tick)
    requires PoolOk(p)
  {
    ShouldScaleUp(p, k.queue, k.now) || !WantsDown(p, k) || Removed(AtRemoval(p, k)) in {-1, p.activeCount - 1}
  }

  /** On a prefix pool below the maximum every start succeeds; the pool stays a prefix exactly when the
      slot removed, if any, is the highest active one. */
  lemma PrefixStaysPrefix(p: Pool, k: Tick)
    requires PoolOk(p) && IsPrefix(p)
    ensures ShouldScaleUp(p, k.queue, k.now) ==> ScaleUpSucceeds(p)
    ensures IsPrefix(Ticked(p, k)) <==> RemovesTop(p, k)
  {
    if !ShouldScaleUp(p, k.queue, k.now) && WantsDown(p, k) {
      var q := AtRemoval(p, k);
      var i := Removed(q);
      if 0 <= i < p.activeCount - 1 {
        assert Ticked(p, k).slots[p.activeCount - 1].active;
      }
    }
  }

  // ---- the pool at start-up ----

  /** The minimum number of printers has been started, nothing has been scaled. */
  function StartUp(minCount: nat): Pool {
    Pool(seq(MAX_POOL, i => Slot(i < minCount, true, 0)), minCount, minCount, 0, 0)
  }

  lemma {:induction false} CountPrefix(slots: seq<Slot>, n: nat)
    requires n <= |slots| && forall k :: 0 <= k < |slots| ==> (slots[k].active <==> k < n)
    ensures CountActive(slots) == n
  {
    if slots != [] {
      CountPrefix(slots[1..], if n == 0 then 0 else n - 1);
    }
  }

  lemma StartUpIsOk(minCount: nat)
    requires minCount <= MAX_POOL
    ensures PoolOk(StartUp(minCount)) && IsPrefix(StartUp(minCount))
  {
    CountPrefix(StartUp(minCount).slots, minCount);
  }
}
