/** The printer pool as the program updates it in place: a fixed array of slots, counters and timers.
    Every method computes the corresponding function of `Autoscaling`. */
module PrinterPools {
  import opened Autoscaling

  class PrinterPool {
    const slots: array<Slot>
    var activeCount: nat
    const minCount: nat
    var lastScale: nat
    var lowStart: nat

    ghost function View(): Pool
      reads this, slots
    {
      Pool(slots[..], activeCount, minCount, lastScale, lowStart)
    }

    ghost predicate Valid()
      reads this, slots
    {
      slots.Length == MAX_POOL && PoolOk(View())
    }

    /** An initialised pool in which the minimum number of printers has been started. */
    constructor (minPrinters: nat)
      requires 1 <= minPrinters <= MAX_POOL
      ensures Valid() && fresh(slots) && View() == StartUp(minPrinters)
    {
      slots := new Slot[MAX_POOL](_ => Slot(false, true, 0));
      minCount, activeCount, lastScale, lowStart := minPrinters, 0, 0, 0;
      new;
      CountPrefix(slots[..], 0);
      var id := 1;
      while id <= minPrinters
        invariant 1 <= id <= minPrinters + 1 && activeCount == id - 1
        invariant slots.Length == MAX_POOL && activeCount == CountActive(slots[..])
        invariant lastScale == 0 && lowStart == 0
        invariant forall k :: 0 <= k < MAX_POOL ==> slots[k] == Slot(k < activeCount, true, 0)
      {
        ghost var before := slots[..];
        var started := StartPrinter(id);
        assert View().slots == before[id - 1 := before[id - 1].(active := true)];
        id := id + 1;
      }
      StartUpIsOk(minPrinters);
      assert slots[..] == StartUp(minPrinters).slots;
    }

    /** Starts the printer with this number, if the pool has room and the printer is not running. */
    method StartPrinter(id: nat) returns (started: bool)
      requires 1 <= id <= MAX_POOL && slots.Length == MAX_POOL && activeCount == CountActive(slots[..])
      modifies this`activeCount, slots
      ensures started == old(Starts(View(), id - 1))
      ensures started == (old(activeCount) < 5 && !old(slots[id - 1].active))
      ensures activeCount == old(activeCount) + (if started then 1 else 0)
      ensures slots[..] == old(slots[..])[id - 1 := if started then old(slots[id - 1]).(active := true) else old(slots[id - 1])]
      ensures View() == Autoscaling.StartPrinter(old(View()), id - 1)
      ensures activeCount == CountActive(slots[..])
    {
      if activeCount >= MAX_POOL {
        return false;
      }
      var index := id - 1;
      if slots[index].active {
        return false;
      }
      CountUpdate(slots[..], index, slots[index].(active := true));
      ghost var before := slots[..];
      slots[index] := slots[index].(active := true);
      assert slots[..] == before[index := before[index].(active := true)];
      activeCount := activeCount + 1;
      started := true;
    }

    /** The printers' threads report between two sections of the autoscaler. */
    method Receive(report: Report)
      requires Valid()
      modifies slots
      ensures Valid() && View() == old(View()).(slots := Observe(old(slots[..]), report))
    {
      ghost var before := slots[..];
      forall k | 0 <= k < slots.Length {
        slots[k] := slots[k].(idle := report[k].0, lastDone := report[k].1);
      }
      assert slots[..] == Observe(before, report);
      CountSame(before, slots[..]);
    }

    method ShouldScaleUp(queueLength: nat, now: nat) returns (should: bool)
      requires Valid()
      ensures should == Autoscaling.ShouldScaleUp(View(), queueLength, now)
    {
      if activeCount >= MAX_POOL {
        return false;
      }
      if now - lastScale < COOLDOWN {
        return false;
      }
      should := queueLength >= ScaleUpThreshold(activeCount);
    }

    method ShouldScaleDown(queueLength: nat, now: nat) returns (should: bool)
      requires Valid()
      modifies this`lowStart
      ensures should == Autoscaling.ShouldScaleDown(old(View()), queueLength, now)
      ensures View() == old(View()).(lowStart := CheckedTimer(old(View()), queueLength, now)) && Valid()
    {
      if activeCount <= minCount {
        return false;
      }
      if now - lastScale < COOLDOWN {
        return false;
      }
      if queueLength >= LOW_THRESHOLD {
        lowStart := 0;
        return false;
      }
      if lowStart == 0 {
        lowStart := now;
        return false;
      }
      if now - lowStart < LOW_WAIT {
        return false;
      }
      should := false;
      var i := activeCount - 1;
      while i >= minCount
        invariant minCount - 1 <= i < activeCount
        invariant forall k :: i < k < activeCount ==> !LongIdle(slots[k], now)
      {
        if LongIdle(slots[i], now) {
          assert LongIdle(View().slots[i], now);
          return true;
        }
        i := i - 1;
      }
    }

    method ScaleUp(time: nat) returns (done: bool)
      requires Valid()
      modifies this, slots
      ensures Valid() && done == old(ScaleUpSucceeds(View()))
      ensures View() == Autoscaling.ScaleUp(old(View()), time)
    {
      if activeCount >= MAX_POOL {
        return false;
      }
      done := StartPrinter(activeCount + 1);
      if done {
        lastScale := time;
        lowStart := 0;
      }
    }

    method ScaleDown(time: nat) returns (done: bool)
      requires Valid()
      modifies this, slots
      ensures Valid() && done == old(Removed(View()) >= 0)
      ensures View() == Autoscaling.ScaleDown(old(View()), time)
    {
      if activeCount <= minCount {
        return false;
      }
      var toRemove := -1;
      var i := activeCount - 1;
      while i >= minCount && toRemove < 0
        invariant minCount - 1 <= i < activeCount
        invariant toRemove == -1 || (toRemove == i && slots[i].active && slots[i].idle && minCount <= i)
        invariant forall k :: i < k < activeCount ==> !(slots[k].active && slots[k].idle)
        decreases i, if toRemove < 0 then 1 else 0
      {
        if slots[i].active && slots[i].idle {
          toRemove := i;
        } else {
          i := i - 1;
        }
      }
      assert toRemove == Removed(View());
      if toRemove < 0 {
        return false;
      }
      CountUpdate(slots[..], toRemove, slots[toRemove].(active := false));
      ghost var before := slots[..];
      slots[toRemove] := slots[toRemove].(active := false);
      assert slots[..] == before[toRemove := before[toRemove].(active := false)];
      activeCount := activeCount - 1;
      lastScale := time;
      lowStart := 0;
      done := true;
    }

    /** One iteration of the monitoring loop. */
    method RunTick(tick: Tick)
      requires Valid()
      modifies this, slots
      ensures Valid() && View() == Ticked(old(View()), tick)
    {
      var up := ShouldScaleUp(tick.queue, tick.now);
      if up {
        var done := ScaleUp(tick.opTime);
      } else {
        Receive(tick.atCheck);
        var down := ShouldScaleDown(tick.queue, tick.now);
        if down {
          Receive(tick.atRemoval);
          var done := ScaleDown(tick.opTime);
        }
      }
    }

    /** The monitoring loop over any sequence of ticks. */
    method Monitor(ticks: seq<Tick>)
      requires Valid()
      modifies this, slots
      ensures Valid() && View() == RunTicks(old(View()), ticks)
    {
      var i := 0;
      while i < |ticks|
        invariant 0 <= i <= |ticks| && Valid()
        invariant View() == RunTicks(old(View()), ticks[..i])
      {
        RunTick(ticks[i]);
        i := i + 1;
        assert ticks[..i][..i - 1] == ticks[..i - 1];
      }
      assert ticks[..|ticks|] == ticks;
    }
  }
}
