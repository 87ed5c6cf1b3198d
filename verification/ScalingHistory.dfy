/** What the autoscaler's timers guarantee over whole runs of ticks. */
module ScalingHistory {
  import opened Autoscaling

  /** The clock never goes back and is positive; a scale operation reads it after its tick did. */
  ghost predicate Timely(p: Pool, ks: seq<Tick>) {
    && (forall i :: 0 <= i < |ks| ==> 0 < ks[i].now <= ks[i].opTime && p.lastScale <= ks[i].now)
    && forall i, j :: 0 <= i < j < |ks| ==> ks[i].opTime <= ks[j].now
  }

  /** The pool before tick `n`. */
  ghost function Before(p: Pool, ks: seq<Tick>, n: nat): Pool
    requires PoolOk(p) && n <= |ks|
  {
    RunTicks(p, ks[..n])
  }

  lemma BeforeNext(p: Pool, ks: seq<Tick>, n: nat)
    requires PoolOk(p) && n < |ks|
    ensures Before(p, ks, n + 1) == Ticked(Before(p, ks, n), ks[n])
  {
    assert ks[..n + 1][..n] == ks[..n];
  }

  /** The clock reading that precedes tick `n`. */
  ghost function Clock(p: Pool, ks: seq<Tick>, n: nat): nat
    requires n <= |ks|
  {
    if n == 0 then p.lastScale else ks[n - 1].opTime
  }

  lemma ClockMoves(p: Pool, ks: seq<Tick>, n: nat)
    requires Timely(p, ks) && n < |ks|
    ensures Clock(p, ks, n) <= ks[n].now <= ks[n].opTime == Clock(p, ks, n + 1) && 0 < ks[n].now
  {
  }

  // ---- cooldown ----

  /** The recorded times of the scale operations of the first `n` ticks. */
  ghost function ScaleTimes(p: Pool, ks: seq<Tick>, n: nat): seq<nat>
    requires PoolOk(p) && n <= |ks|
  {
    if n == 0 then []
    else
      ScaleTimes(p, ks, n - 1) + if Scales(Before(p, ks, n - 1), ks[n - 1]) then [ks[n - 1].opTime] else []
  }

  ghost predicate Spaced(q: seq<nat>, gap: nat) {
    forall i :: 0 < i < |q| ==> q[i] >= q[i - 1] + gap
  }

  lemma ScaleIsLate(p: Pool, k: Tick)
    requires PoolOk(p) && k.now <= k.opTime
    ensures Scales(p, k) ==> p.lastScale + COOLDOWN <= k.opTime == Ticked(p, k).lastScale
    ensures !Scales(p, k) ==> Ticked(p, k).lastScale == p.lastScale
  {
  }

  lemma AppendSpaced(q: seq<nat>, gap: nat, x: nat)
    requires Spaced(q, gap)
    ensures q == [] || q[|q| - 1] + gap <= x ==> Spaced(q + [x], gap)
  {
  }

  /** The last time recorded, or `first` if there is none. */
  function LastOf(q: seq<nat>, first: nat): nat {
    if q == [] then first else q[|q| - 1]
  }

  lemma CooldownStep(p: Pool, k: Tick, q: seq<nat>, first: nat)
    requires PoolOk(p) && p.lastScale <= k.now <= k.opTime
    requires Spaced(q, COOLDOWN) && p.lastScale == LastOf(q, first)
    ensures var r := q + if Scales(p, k) then [k.opTime] else [];
      Spaced(r, COOLDOWN) && Ticked(p, k).lastScale == LastOf(r, first) <= k.opTime
  {
    ScaleIsLate(p, k);
    AppendSpaced(q, COOLDOWN, k.opTime);
  }

  lemma NextScale(p: Pool, ks: seq<Tick>, n: nat)
    requires PoolOk(p) && n < |ks|
    ensures ScaleTimes(p, ks, n + 1)
            == ScaleTimes(p, ks, n) + if Scales(Before(p, ks, n), ks[n]) then [ks[n].opTime] else []
  {
  }

  /** Consecutive scale operations are recorded at least a cooldown apart. */
  lemma {:induction false} CooldownHolds(p: Pool, ks: seq<Tick>, n: nat)
    requires PoolOk(p) && Timely(p, ks) && n <= |ks|
    ensures Spaced(ScaleTimes(p, ks, n), 3000000)
    ensures Before(p, ks, n).lastScale == LastOf(ScaleTimes(p, ks, n), p.lastScale) <= Clock(p, ks, n)
  {
    if n > 0 {
      var m := n - 1;
      CooldownHolds(p, ks, m);
      ClockMoves(p, ks, m);
      CooldownStep(Before(p, ks, m), ks[m], ScaleTimes(p, ks, m), p.lastScale);
      BeforeNext(p, ks, m);
      NextScale(p, ks, m);
    }
  }

  /** How many elements of `q` lie in the closed interval from `a` to `b`. */
  function InWindow(q: seq<nat>, a: int, b: int): nat {
    if q == [] then 0 else (if a <= q[0] <= b then 1 else 0) + InWindow(q[1..], a, b)
  }

  lemma {:induction false} NoneEarlier(q: seq<nat>, a: int, b: int, a2: int)
    requires a <= a2 && forall k :: 0 <= k < |q| ==> q[k] >= a2
    ensures InWindow(q, a, b) == InWindow(q, a2, b)
  {
    if q != [] {
      NoneEarlier(q[1..], a, b, a2);
    }
  }

  lemma {:induction false} SpacedFromFirst(q: seq<nat>, gap: nat, k: nat)
    requires Spaced(q, gap) && 0 < k < |q|
    ensures q[k] >= q[0] + gap
  {
    if k > 1 {
      SpacedFromFirst(q, gap, k - 1);
    }
  }

  lemma {:induction false} WindowIsSpaced(q: seq<nat>, gap: nat, a: int, b: int)
    requires Spaced(q, gap) && InWindow(q, a, b) >= 1
    ensures (InWindow(q, a, b) - 1) * gap <= b - a
  {
    var rest := q[1..];
    assert Spaced(rest, gap);
    if a <= q[0] <= b {
      forall k | 0 <= k < |rest| ensures rest[k] >= q[0] + gap {
        SpacedFromFirst(q, gap, k + 1);
      }
      NoneEarlier(rest, a, b, q[0] + gap);
      var m := InWindow(rest, a, b);
      if m >= 1 {
        WindowIsSpaced(rest, gap, q[0] + gap, b);
        assert m * gap == (m - 1) * gap + gap;
      }
    } else {
      WindowIsSpaced(rest, gap, a, b);
    }
  }

  /** Any closed window of length `length` holds at most floor(length / cooldown) + 1 scale operations. */
  lemma WindowIsBounded(p: Pool, ks: seq<Tick>, a: int, length: nat)
    requires PoolOk(p) && Timely(p, ks)
    ensures InWindow(ScaleTimes(p, ks, |ks|), a, a + length) <= length / 3000000 + 1
  {
    CooldownHolds(p, ks, |ks|);
    var m := InWindow(ScaleTimes(p, ks, |ks|), a, a + length);
    if m >= 1 {
      WindowIsSpaced(ScaleTimes(p, ks, |ks|), COOLDOWN, a, a + length);
    }
  }

  // ---- sustained low load ----

  /** A running low-queue timer was started after the cooldown, with a printer to spare. */
  ghost predicate TimerOk(p: Pool, now: nat) {
    p.lowStart != 0 ==> p.activeCount > p.minCount && p.lastScale + COOLDOWN <= p.lowStart <= now
  }

  /** The tick attempts a scale-up, and the slot it would start is taken. */
  predicate FailedUp(p: Pool, k: Tick)
    requires |p.slots| == MAX_POOL
  {
    ShouldScaleUp(p, k.queue, k.now) && !ScaleUpSucceeds(p)
  }

  ghost predicate LowTick(p: Pool, k: Tick)
    requires PoolOk(p)
  {
    k.queue < LOW_THRESHOLD && p.activeCount > p.minCount && !Scales(p, k)
  }

  /** The timer that runs before tick `n` was started by tick `j`, and every tick since was low or failed
      to start a printer. */
  ghost predicate LowSince(p: Pool, ks: seq<Tick>, j: nat, n: nat)
    requires PoolOk(p) && n <= |ks|
  {
    && j < n
    && ks[j].now == Before(p, ks, n).lowStart
    && forall i :: j <= i < n ==> LowTick(Before(p, ks, i), ks[i]) || FailedUp(Before(p, ks, i), ks[i])
  }

  lemma TickKeepsTimer(p: Pool, k: Tick)
    requires PoolOk(p) && TimerOk(p, k.now) && 0 < k.now <= k.opTime && p.lastScale <= k.now
    ensures var q := Ticked(p, k); TimerOk(q, k.now) && q.lastScale <= k.opTime
    ensures var q := Ticked(p, k);
      q.lowStart != 0 ==>
        && (LowTick(p, k) || FailedUp(p, k))
        && q.lowStart == if p.lowStart == 0 then k.now else p.lowStart
  {
  }

  lemma LowStarts(p: Pool, ks: seq<Tick>, n: nat)
    requires PoolOk(p) && n < |ks| && Before(p, ks, n + 1).lowStart == ks[n].now
    requires LowTick(Before(p, ks, n), ks[n]) || FailedUp(Before(p, ks, n), ks[n])
    ensures LowSince(p, ks, n, n + 1)
  {
  }

  lemma LowGoesOn(p: Pool, ks: seq<Tick>, j: nat, n: nat)
    requires PoolOk(p) && n < |ks| && LowSince(p, ks, j, n)
    requires Before(p, ks, n + 1).lowStart == Before(p, ks, n).lowStart
    requires LowTick(Before(p, ks, n), ks[n]) || FailedUp(Before(p, ks, n), ks[n])
    ensures LowSince(p, ks, j, n + 1)
  {
  }

  lemma LowSinceNext(p: Pool, ks: seq<Tick>, n: nat, next: nat)
    requires PoolOk(p) && n < |ks| && next == n + 1 && 0 < ks[n].now <= ks[n].opTime
    requires TimerOk(Before(p, ks, n), ks[n].now) && Before(p, ks, n).lastScale <= ks[n].now
    requires Before(p, ks, n).lowStart != 0 ==> exists j: nat :: LowSince(p, ks, j, n)
    requires Before(p, ks, next) == Ticked(Before(p, ks, n), ks[n])
    ensures Before(p, ks, next).lowStart != 0 ==> exists j: nat :: LowSince(p, ks, j, next)
  {
    var before := Before(p, ks, n);
    TickKeepsTimer(before, ks[n]);
    if Before(p, ks, next).lowStart != 0 {
      if before.lowStart == 0 {
        LowStarts(p, ks, n);
      } else {
        var j: nat :| LowSince(p, ks, j, n);
        LowGoesOn(p, ks, j, n);
      }
    }
  }

  lemma {:induction false} TimerRunsLow(p: Pool, ks: seq<Tick>, n: nat)
    requires PoolOk(p) && p.lowStart == 0 && Timely(p, ks) && n <= |ks|
    ensures TimerOk(Before(p, ks, n), Clock(p, ks, n)) && Before(p, ks, n).lastScale <= Clock(p, ks, n)
    ensures Before(p, ks, n).lowStart != 0 ==> exists j: nat :: LowSince(p, ks, j, n)
  {
    if n > 0 {
      var m := n - 1;
      TimerRunsLow(p, ks, m);
      ClockMoves(p, ks, m);
      BeforeNext(p, ks, m);
      TickKeepsTimer(Before(p, ks, m), ks[m]);
      LowSinceNext(p, ks, m, n);
    }
  }

  /** When the autoscaler decides to scale down, the run goes back at least five seconds, and a tick of
      those five seconds saw a short queue and a pool above its minimum and performed no scaling exactly
      when it did not attempt a scale-up that failed. */
  lemma SustainedLow(p: Pool, ks: seq<Tick>, n: nat)
    requires PoolOk(p) && p.lowStart == 0 && Timely(p, ks)
    requires n < |ks| && WantsDown(Before(p, ks, n), ks[n])
    ensures exists j :: 0 <= j < n && ks[j].now + 5000000 <= ks[n].now
    ensures forall i :: 0 <= i < n && ks[i].now + 5000000 > ks[n].now ==>
      (LowTick(Before(p, ks, i), ks[i]) <==> !FailedUp(Before(p, ks, i), ks[i]))
    ensures ks[n].queue < 5 && Before(p, ks, n).activeCount > Before(p, ks, n).minCount
  {
    TimerRunsLow(p, ks, n);
    DownNeedsTimer(Before(p, ks, n), ks[n]);
    var j: nat :| LowSince(p, ks, j, n);
    SpanIsLow(p, ks, j, n);
  }

  lemma DownNeedsTimer(p: Pool, k: Tick)
    requires PoolOk(p) && WantsDown(p, k)
    ensures p.lowStart != 0 && k.now - p.lowStart >= LOW_WAIT
    ensures k.queue < LOW_THRESHOLD && p.activeCount > p.minCount
  {
  }

  lemma LowNeverFails(p: Pool, k: Tick)
    requires PoolOk(p)
    ensures !(LowTick(p, k) && FailedUp(p, k))
  {
  }

  lemma SpanIsLow(p: Pool, ks: seq<Tick>, j: nat, n: nat)
    requires PoolOk(p) && Timely(p, ks) && n < |ks| && LowSince(p, ks, j, n) && ks[j].now + LOW_WAIT <= ks[n].now
    ensures forall i :: 0 <= i < n && ks[i].now + LOW_WAIT > ks[n].now ==>
      (LowTick(Before(p, ks, i), ks[i]) <==> !FailedUp(Before(p, ks, i), ks[i]))
  {
    forall i | 0 <= i < n && ks[i].now + LOW_WAIT > ks[n].now
      ensures LowTick(Before(p, ks, i), ks[i]) <==> !FailedUp(Before(p, ks, i), ks[i])
    {
      assert i >= j;
      LowNeverFails(Before(p, ks, i), ks[i]);
    }
  }

  /** A tick with a long queue leaves the timer running exactly when it attempts a scale-up that fails. */
  lemma TimerSurvivesLoad(p: Pool, k: Tick)
    requires PoolOk(p) && TimerOk(p, k.now) && k.queue >= LOW_THRESHOLD
    ensures Ticked(p, k).lowStart != 0 <==>
      p.lowStart != 0 && FailedUp(p, k)
  {
  }

  // ---- runs that keep a prefix ----

  /** As long as only the highest active slot is removed the pool stays a prefix ... */
  lemma {:induction false} PrefixRuns(p: Pool, ks: seq<Tick>, n: nat)
    requires PoolOk(p) && IsPrefix(p) && n <= |ks|
    requires forall i :: 0 <= i < n ==> RemovesTop(Before(p, ks, i), ks[i])
    ensures IsPrefix(Before(p, ks, n))
  {
    if n > 0 {
      PrefixRuns(p, ks, n - 1);
      BeforeNext(p, ks, n - 1);
      PrefixStaysPrefix(Before(p, ks, n - 1), ks[n - 1]);
    }
  }

  /** ... and no scale-up fails, so that every five seconds before a scale-down are low throughout. */
  lemma PrefixRunsNeverFail(p: Pool, ks: seq<Tick>)
    requires PoolOk(p) && IsPrefix(p)
    requires forall i :: 0 <= i < |ks| ==> RemovesTop(Before(p, ks, i), ks[i])
    ensures forall i :: 0 <= i < |ks| ==> IsPrefix(Before(p, ks, i)) && !FailedUp(Before(p, ks, i), ks[i])
  {
    forall i | 0 <= i < |ks| ensures IsPrefix(Before(p, ks, i)) && !FailedUp(Before(p, ks, i), ks[i]) {
      PrefixRuns(p, ks, i);
      PrefixStaysPrefix(Before(p, ks, i), ks[i]);
    }
  }

  // ---- idle time ----

  /** The idle test accepts printers idle for five seconds and printers that finished after the clock was
      read - their unsigned idle time wraps around. */
  lemma IdleTestWraps(slot: Slot, now: nat)
    requires now < 0x8000_0000_0000_0000 && slot.lastDone < 0x8000_0000_0000_0000
    ensures LongIdle(slot, now) <==>
      slot.active && slot.idle && (slot.lastDone + 5000000 <= now || slot.lastDone > now)
  {
    if slot.lastDone > now {
      assert (now - slot.lastDone) % WORD == now - slot.lastDone + WORD;
    }
  }

  // ---- the decisions and their effect ----

  /** A tick attempts a scale-up exactly when there is room, the cooldown is over, and the queue has reached
      the threshold of the number of active printers: 10, 15 and 20 for two, three and four of them. */
  lemma ScaleUpExactly(p: Pool, queue: nat, now: nat)
    ensures ShouldScaleUp(p, queue, now) <==>
      && p.activeCount < 5 && now - p.lastScale >= 3000000
      && queue >= (if p.activeCount == 2 then 10 else if p.activeCount == 3 then 15
                   else if p.activeCount == 4 then 20 else 999999)
  {
  }

  /** A tick decides to scale down exactly when it attempts no scale-up, the pool is above its minimum, the
      cooldown is over, the queue is short and has been for five seconds by the timer, and some printer of
      the removable range has reported to be idle and to have completed its last job five seconds ago - or
      after the clock was read, since the difference is unsigned. */
  lemma ScaleDownExactly(p: Pool, k: Tick)
    requires |p.slots| == 5 && p.activeCount <= 5
    requires k.now < 0x8000_0000_0000_0000 && forall i :: 0 <= i < 5 ==> k.atCheck[i].1 < 0x8000_0000_0000_0000
    ensures WantsDown(p, k) <==>
      && !ShouldScaleUp(p, k.queue, k.now)
      && p.activeCount > p.minCount && k.now - p.lastScale >= 3000000
      && k.queue < 5 && p.lowStart != 0 && k.now - p.lowStart >= 5000000
      && exists i :: p.minCount <= i < p.activeCount && p.slots[i].active && k.atCheck[i].0
                     && (k.atCheck[i].1 + 5000000 <= k.now || k.atCheck[i].1 > k.now)
  {
    var slots := Observe(p.slots, k.atCheck);
    forall i | 0 <= i < 5
      ensures LongIdle(slots[i], k.now) <==>
        p.slots[i].active && k.atCheck[i].0 && (k.atCheck[i].1 + 5000000 <= k.now || k.atCheck[i].1 > k.now)
    {
      IdleTestWraps(slots[i], k.now);
    }
    if WantsDown(p, k) {
      var i :| p.minCount <= i < p.activeCount && i < MAX_POOL && LongIdle(slots[i], k.now);
      assert p.slots[i].active;
    } else if exists i :: p.minCount <= i < p.activeCount && p.slots[i].active && k.atCheck[i].0
                          && (k.atCheck[i].1 + 5000000 <= k.now || k.atCheck[i].1 > k.now) {
      var i :| p.minCount <= i < p.activeCount && p.slots[i].active && k.atCheck[i].0
               && (k.atCheck[i].1 + 5000000 <= k.now || k.atCheck[i].1 > k.now);
      assert LongIdle(slots[i], k.now);
    }
  }

  /** The pools differ in the activity of slot `i` alone. */
  predicate OnlySlot(p: Pool, q: Pool, i: int) {
    |q.slots| == |p.slots| && forall k :: 0 <= k < |p.slots| && k != i ==> q.slots[k].active == p.slots[k].active
  }

  /** An attempted scale-up starts the printer after the last by number, records its time and stops the timer,
      unless that printer is running: then nothing changes. */
  lemma UpEffect(p: Pool, k: Tick)
    requires PoolOk(p) && ShouldScaleUp(p, k.queue, k.now)
    ensures var q := Ticked(p, k);
      if p.slots[p.activeCount].active then q == p
      else
        && q.activeCount == p.activeCount + 1 && OnlySlot(p, q, p.activeCount) && q.slots[p.activeCount].active
        && q.lastScale == k.opTime && q.lowStart == 0
  {
  }

  /** The removal takes the highest printer above the minimum that is idle at that moment, records its time
      and stops the timer; if none is idle no slot changes. */
  lemma DownEffect(p: Pool, k: Tick)
    requires PoolOk(p) && WantsDown(p, k)
    ensures var q, i := Ticked(p, k), Removed(AtRemoval(p, k));
      if exists j :: p.minCount <= j < p.activeCount && p.slots[j].active && k.atRemoval[j].0 then
        && p.minCount <= i < p.activeCount && p.slots[i].active && k.atRemoval[i].0
        && (forall j :: i < j < p.activeCount ==> !(p.slots[j].active && k.atRemoval[j].0))
        && OnlySlot(p, q, i) && !q.slots[i].active
        && q.activeCount == p.activeCount - 1 && q.lastScale == k.opTime && q.lowStart == 0
      else q.activeCount == p.activeCount && OnlySlot(p, q, -1) && q.lastScale == p.lastScale
  {
    var r := AtRemoval(p, k);
    assert forall j :: 0 <= j < MAX_POOL ==> r.slots[j].active == p.slots[j].active && r.slots[j].idle == k.atRemoval[j].0;
  }

  /** Any other tick changes no slot; above the minimum and out of the cooldown a long queue stops the timer
      and a short one starts it. */
  lemma RestEffect(p: Pool, k: Tick)
    requires PoolOk(p) && !ShouldScaleUp(p, k.queue, k.now) && !WantsDown(p, k)
    ensures var q := Ticked(p, k);
      && q.activeCount == p.activeCount && OnlySlot(p, q, -1) && q.lastScale == p.lastScale
      && q.lowStart ==
           if p.activeCount <= p.minCount || k.now - p.lastScale < 3000000 then p.lowStart
           else if k.queue >= 5 then 0
           else if p.lowStart == 0 then k.now
           else p.lowStart
  {
  }
}
