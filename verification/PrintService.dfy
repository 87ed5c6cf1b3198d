/** The print service as the program runs it: shared state updated in place, one method per critical
    section.  Every section method computes its function of `Machine`; `Step` runs one section and keeps
    the invariant, and `Run` follows any schedule. */
module PrintServices {
  import opened Records
  import opened Machine
  import opened EventLogs
  import Runs

  class PrintService {
    const c: Config
    const log: EventLog
    var now: nat
    var terminate: bool
    var allArrived: bool
    var allServed: bool
    var jobOwner: Owner
    var refillOwner: Owner
    var queue: seq<Job>
    var last: nat
    var refillQueue: seq<nat>
    var printers: seq<Printer>
    var receiver: ReceiverPc
    var index: nat
    var previousArrival: nat
    var receiverCancel: bool
    var refiller: RefillerPc
    var refillerCancel: bool
    var stop: StopPc
    ghost var hist: History
    ghost var supply: Supply

    ghost function View(): State
      reads this, log, log.perPrinter
    {
      State(now, terminate, allArrived, allServed, jobOwner, refillOwner, queue, last, refillQueue, printers,
            receiver, index, previousArrival, receiverCancel, refiller, refillerCancel, stop, log.View(), hist, supply)
    }

    ghost predicate Valid()
      reads this, log, log.perPrinter
    {
      log.Valid() && Runs.Inv(c, View())
    }

    /** The section may run: the mutexes it needs are free, and the clock does not go back. */
    ghost predicate Ready(a: Action)
      reads this, log, log.perPrinter
    {
      Valid() && Enabled(c, View(), a)
    }

    constructor (c: Config, created: nat, start: nat)
      requires c.Valid() && created <= start
      ensures Valid() && this.c == c && View() == Init(c, created, start)
      ensures fresh(log) && fresh(log.perPrinter)
    {
      hide Runs.Inv;
      Runs.InitHolds(c, created, start);
      this.c := c;
      log := new EventLog(start);
      now, terminate, allArrived, allServed := start, false, false, false;
      jobOwner, refillOwner, queue, last, refillQueue := Free, Free, [], created, [];
      printers := seq(c.printers, _ => FreshPrinter(c));
      receiver, index, previousArrival, receiverCancel := RLoop, 0, start, false;
      refiller, refillerCancel, stop := FLock, false, HIdle;
      hist, supply := History([], [], [], [], [], 0, 0), Supply([], [], [], []);
    }

    // ---- sections of printer i (src/printer.c) ----

    method PrinterReadFlag(i: nat)
      requires i < |printers| && printers[i].pc.PTop?
      requires Ready(PrinterRuns(i, now))
      modifies this
      ensures Valid() && View() == Machine.PrinterReadFlag(old(View()), i)
    {
      hide Runs.Inv;
      printers := printers[i := printers[i].(pc := PJobLock(terminate))];
      Runs.NextHolds(c, old(View()), PrinterRuns(i, old(now)));
    }

    method PrinterJobSection(i: nat, t: nat)
      requires i < |printers| && printers[i].pc.PJobLock?
      requires Ready(PrinterRuns(i, t))
      modifies this, log
      ensures Valid() && View() == Machine.PrinterJobSection(old(View()), i, t)
    {
      hide Runs.Inv;
      var p := printers[i];
      if p.pc.term || (allArrived && queue == []) {
        printers := printers[i := p.(pc := PServed)];
      } else if queue == [] {
        printers := printers[i := p.(pc := PJobWait(false))];
      } else if queue[0].need > p.paper {
        printers := printers[i := p.(pc := PRefillLock(queue[0].need))];
      } else {
        PrinterDequeue(i, t);
      }
      Runs.NextHolds(c, old(View()), PrinterRuns(i, t));
    }

    method PrinterDequeue(i: nat, t: nat)
      requires i < |printers| && queue != []
      modifies this, log
      ensures View() == Machine.PrinterDequeue(old(View()), i, t)
    {
      var lastBefore := last;
      var job := TakeFront(t);
      log.LogQueueDeparture(job, |queue|, lastBefore);
      last := job.queueDeparture;
      printers := printers[i := printers[i].(pc := PStart(job))];
    }

    /** Unlinks the job at the front; the queue stamps itself and the job is stamped. */
    method TakeFront(t: nat) returns (job: Job)
      requires queue != []
      modifies this
      ensures job == old(queue[0]).(queueDeparture := t)
      ensures View() == old(View()).(now := t, queue := old(queue)[1..], last := t,
                                     hist := old(hist).(left := old(hist).left + [job.id]))
    {
      job := queue[0].(queueDeparture := t);
      queue := queue[1..];
      now, last := t, t;
      NoteLeft(job.id);
    }

    /** History: a job leaves the queue at its front. */
    ghost method NoteLeft(id: nat)
      modifies `hist
      ensures hist == old(hist).(left := old(hist.left) + [id])
    {
      hist := hist.(left := hist.left + [id]);
    }

    method PrinterJobWoken(i: nat)
      requires i < |printers| && printers[i].pc.PJobWait?
      requires Ready(PrinterRuns(i, now))
      modifies this
      ensures Valid() && View() == Machine.PrinterJobWoken(old(View()), i)
    {
      hide Runs.Inv;
      printers := printers[i := printers[i].(pc := PTop)];
      Runs.NextHolds(c, old(View()), PrinterRuns(i, old(now)));
    }

    method PrinterRequest(i: nat, t: nat)
      requires i < |printers| && printers[i].pc.PRefillLock?
      requires Ready(PrinterRuns(i, t))
      modifies this
      ensures Valid() && View() == Machine.PrinterRequest(old(View()), i, t)
    {
      hide Runs.Inv;
      AskAndWait(i, t);
      Runs.NextHolds(c, old(View()), PrinterRuns(i, t));
    }

    method AskAndWait(i: nat, t: nat)
      requires i < |printers| && printers[i].pc.PRefillLock?
      modifies this
      ensures View() == Machine.PrinterRequest(old(View()), i, t)
    {
      var p := printers[i];
      Ask(i, t);
      var pc := if p.pc.need > p.paper then PRefillWait(p.pc.need, t, false) else PRefillDone(t);
      printers := printers[i := p.(pc := pc)];
    }

    /** History: printer `i` asks for paper. */
    ghost method NoteAsked(i: nat)
      modifies `supply
      ensures supply == old(supply).(asked := old(supply.asked) + [i])
    {
      supply := supply.(asked := supply.asked + [i]);
    }

    /** Appends a request and wakes the refiller. */
    method Ask(i: nat, t: nat)
      modifies this
      ensures View() == old(View()).(now := t, refillQueue := old(refillQueue) + [i],
                                     refiller := SignalRefiller(old(refiller)),
                                     supply := old(supply).(asked := old(supply).asked + [i]))
    {
      NoteAsked(i);
      now := t;
      refillQueue := refillQueue + [i];
      refiller := SignalRefiller(refiller);
    }

    method PrinterPaperWoken(i: nat)
      requires i < |printers| && printers[i].pc.PRefillWait?
      requires Ready(PrinterRuns(i, now))
      modifies this
      ensures Valid() && View() == Machine.PrinterPaperWoken(old(View()), i)
    {
      hide Runs.Inv;
      var p := printers[i];
      printers := printers[i := p.(pc := PRefillHold(p.pc.need, p.pc.since))];
      refillOwner := ByPrinter(i);
      Runs.NextHolds(c, old(View()), PrinterRuns(i, old(now)));
    }

    method PrinterRecheck(i: nat)
      requires i < |printers| && printers[i].pc.PRefillHold?
      requires Ready(PrinterRuns(i, now))
      modifies this
      ensures Valid() && View() == Machine.PrinterRecheck(old(View()), i)
    {
      hide Runs.Inv;
      var p := printers[i];
      refillOwner := Free;
      if terminate {
        printers := printers[i := p.(pc := PServed)];
      } else if p.pc.need > p.paper {
        printers := printers[i := p.(pc := PRefillWait(p.pc.need, p.pc.since, false))];
      } else {
        printers := printers[i := p.(pc := PRefillDone(p.pc.since))];
      }
      Runs.NextHolds(c, old(View()), PrinterRuns(i, old(now)));
    }

    method PrinterPaperStats(i: nat, t: nat)
      requires i < |printers| && printers[i].pc.PRefillDone?
      requires Ready(PrinterRuns(i, t))
      modifies this, log, log.perPrinter
      ensures Valid() && View() == Machine.PrinterPaperStats(old(View()), i, t)
    {
      hide Runs.Inv;
      var p := printers[i];
      now := t;
      log.LogPaperWait(i, t - p.pc.since);
      NoteWait(PaperWait(i, p.pc.since, t));
      printers := printers[i := p.(pc := PTop)];
      Runs.NextHolds(c, old(View()), PrinterRuns(i, t));
    }

    /** History: a wait for paper is recorded. */
    ghost method NoteWait(w: PaperWait)
      modifies `supply
      ensures supply == old(supply).(waits := old(supply.waits) + [w])
    {
      supply := supply.(waits := supply.waits + [w]);
    }

    method PrinterBegin(i: nat, t: nat)
      requires i < |printers| && printers[i].pc.PStart?
      requires Ready(PrinterRuns(i, t))
      modifies this
      ensures Valid() && View() == Machine.PrinterBegin(old(View()), i, t)
    {
      hide Runs.Inv;
      var p := printers[i];
      now := t;
      printers := printers[i := p.(pc := PPrint(p.pc.job.(serviceArrival := t)), idle := false)];
      Runs.NextHolds(c, old(View()), PrinterRuns(i, t));
    }

    method PrinterPrint(i: nat, t: nat)
      requires i < |printers| && printers[i].pc.PPrint?
      requires Ready(PrinterRuns(i, t))
      modifies this
      ensures Valid() && View() == Machine.PrinterPrint(old(View()), i, t)
    {
      hide Runs.Inv;
      var p := printers[i];
      var job := p.pc.job;
      now := t;
      printers := printers[i := p.(paper := p.paper - job.need, used := p.used + job.need,
                                   pc := PDepart(job.(serviceDeparture := t)), lastDone := t, idle := true)];
      Runs.NextHolds(c, old(View()), PrinterRuns(i, t));
    }

    method PrinterDepart(i: nat)
      requires i < |printers| && printers[i].pc.PDepart?
      requires Ready(PrinterRuns(i, now))
      modifies this, log, log.perPrinter
      ensures Valid() && View() == Machine.PrinterDepart(old(View()), i)
    {
      hide Runs.Inv;
      var p := printers[i];
      var v := Service(p.pc.job, i);
      printers := printers[i := p.(pc := PAfter, printed := p.printed + 1)];
      log.LogSystemDeparture(v);
      hist := hist.(served := hist.served + [v]);
      Runs.NextHolds(c, old(View()), PrinterRuns(i, old(now)));
    }

    method PrinterAfter(i: nat)
      requires i < |printers| && printers[i].pc.PAfter?
      requires Ready(PrinterRuns(i, now))
      modifies this
      ensures Valid() && View() == Machine.PrinterAfter(old(View()), i)
    {
      hide Runs.Inv;
      printers := printers[i := printers[i].(pc := PExitCheck(allArrived))];
      Runs.NextHolds(c, old(View()), PrinterRuns(i, old(now)));
    }

    method PrinterExitCheck(i: nat)
      requires i < |printers| && printers[i].pc.PExitCheck?
      requires Ready(PrinterRuns(i, now))
      modifies this
      ensures Valid() && View() == Machine.PrinterExitCheck(old(View()), i)
    {
      hide Runs.Inv;
      if printers[i].pc.arrived && queue == [] {
        printers := printers[i := printers[i].(pc := PServed)];
      } else {
        printers := printers[i := printers[i].(pc := PTop)];
      }
      Runs.NextHolds(c, old(View()), PrinterRuns(i, old(now)));
    }

    method PrinterMarkServed(i: nat)
      requires i < |printers| && printers[i].pc.PServed?
      requires Ready(PrinterRuns(i, now))
      modifies this
      ensures Valid() && View() == Machine.PrinterMarkServed(old(View()), i)
    {
      hide Runs.Inv;
      allServed := true;
      printers := printers[i := printers[i].(pc := PExit)];
      Runs.NextHolds(c, old(View()), PrinterRuns(i, old(now)));
    }

    method PrinterExit(i: nat)
      requires i < |printers| && printers[i].pc.PExit?
      requires Ready(PrinterRuns(i, now))
      modifies this
      ensures Valid() && View() == Machine.PrinterExit(old(View()), i)
    {
      hide Runs.Inv;
      Leave(i);
      Runs.NextHolds(c, old(View()), PrinterRuns(i, old(now)));
    }

    method Leave(i: nat)
      requires i < |printers|
      modifies this
      ensures View() == Machine.PrinterExit(old(View()), i)
    {
      printers, refillerCancel := printers[i := printers[i].(pc := PExited)], true;
      WakeForRefill();
    }

    /** Broadcasts on both conditions of the refill queue. */
    method WakeForRefill()
      modifies this
      ensures View() == old(View()).(printers := SignalPaper(old(printers)), refiller := SignalRefiller(old(refiller)))
    {
      refiller := SignalRefiller(refiller);
      printers := SignalPaper(printers);
    }

    // ---- sections of the job receiver (src/job_receiver.c) ----

    method ReceiverReadFlag(need: nat)
      requires receiver.RLoop? && index < c.jobs
      requires Ready(ReceiverRuns(now, now, need))
      modifies this
      ensures Valid() && View() == Machine.ReceiverReadFlag(old(View()), need)
    {
      hide Runs.Inv;
      receiver := if terminate then RBroken else RStamp(need);
      Runs.NextHolds(c, old(View()), ReceiverRuns(old(now), old(now), need));
    }

    method ReceiverBreak()
      requires receiver.RBroken?
      requires Ready(ReceiverRuns(now, now, 1))
      modifies this
      ensures Valid() && View() == Machine.ReceiverBreak(old(View()))
    {
      hide Runs.Inv;
      allArrived := true;
      receiver := RFinish;
      Runs.NextHolds(c, old(View()), ReceiverRuns(old(now), old(now), 1));
    }

    method ReceiverStamp(t: nat)
      requires receiver.RStamp?
      requires Ready(ReceiverRuns(t, t, 1))
      modifies this
      ensures Valid() && View() == Machine.ReceiverStamp(old(View()), t)
    {
      hide Runs.Inv;
      now := t;
      receiver := RCount(Job(index + 1, receiver.need, t, 0, 0, 0, 0));
      Runs.NextHolds(c, old(View()), ReceiverRuns(t, t, 1));
    }

    method ReceiverCount()
      requires receiver.RCount?
      requires Ready(ReceiverRuns(now, now, 1))
      modifies this, log
      ensures Valid() && View() == Machine.ReceiverCount(old(View()))
    {
      hide Runs.Inv;
      log.LogSystemArrival(receiver.job, previousArrival);
      receiver := REnter(receiver.job);
      Runs.NextHolds(c, old(View()), ReceiverRuns(old(now), old(now), 1));
    }

    method ReceiverEnter(t: nat, t2: nat)
      requires receiver.REnter?
      requires Ready(ReceiverRuns(t, t2, 1))
      modifies this
      ensures Valid() && View() == Machine.ReceiverEnter(c, old(View()), t, t2)
    {
      hide Runs.Inv;
      var length := |queue|;
      if c.queueCapacity != -1 && length >= c.queueCapacity {
        receiver := RDrop(receiver.job);
      } else {
        var job := receiver.job.(queueArrival := t);
        var lastBefore := last;
        PutBack(job, t2);
        jobOwner := ByReceiver;
        receiver := RHold(job, length, lastBefore);
      }
      Runs.NextHolds(c, old(View()), ReceiverRuns(t, t2, 1));
    }

    /** History: the job joins the queue. */
    ghost method Note(job: Job)
      modifies `hist
      ensures hist == old(hist).(enqueued := old(hist.enqueued) + [job.id],
                                 peak := if |queue| + 1 > old(hist.peak) then |queue| + 1 else old(hist.peak))
    {
      hist := hist.(enqueued := hist.enqueued + [job.id], peak := if |queue| + 1 > hist.peak then |queue| + 1 else hist.peak);
    }

    /** Links the job at the back; the queue stamps itself. */
    method PutBack(job: Job, t2: nat)
      modifies this
      ensures View() == old(View()).(
        now := t2, queue := old(queue) + [job], last := t2,
        hist := old(hist).(enqueued := old(hist).enqueued + [job.id],
                           peak := if old(|queue|) + 1 > old(hist).peak then old(|queue|) + 1 else old(hist).peak))
    {
      Note(job);
      queue := queue + [job];
      now, last := t2, t2;
    }

    method ReceiverRecord()
      requires receiver.RHold?
      requires Ready(ReceiverRuns(now, now, 1))
      modifies this, log
      ensures Valid() && View() == Machine.ReceiverRecord(old(View()))
    {
      hide Runs.Inv;
      var job := receiver.job;
      Account(job, receiver.length, receiver.lastBefore);
      NextJob(job);
      printers := SignalJobs(printers);
      jobOwner := Free;
      Runs.NextHolds(c, old(View()), ReceiverRuns(old(now), old(now), 1));
    }

    /** The statistics of an arrival; the queue's timestamp goes back to the arrival. */
    method Account(job: Job, length: nat, lastBefore: nat)
      modifies this, log
      ensures View() == old(View()).(
        last := job.queueArrival,
        stats := OnQueueArrival(old(log.View()).(
          maxLength := if length > old(log.maxLength) then length else old(log.maxLength)), job, |queue|, lastBefore))
    {
      log.LogLength(length);
      log.LogQueueArrival(job, |queue|, lastBefore);
      last := job.queueArrival;
    }

    /** End of an iteration of the receiver's loop. */
    method NextJob(job: Job)
      modifies this
      ensures View() == old(View()).(previousArrival := job.systemArrival, index := old(index) + 1, receiver := RLoop)
    {
      previousArrival := job.systemArrival;
      index := index + 1;
      receiver := RLoop;
    }

    method ReceiverDrop()
      requires receiver.RDrop?
      requires Ready(ReceiverRuns(now, now, 1))
      modifies this, log
      ensures Valid() && View() == Machine.ReceiverDrop(old(View()))
    {
      hide Runs.Inv;
      var job := receiver.job;
      log.LogDropped();
      hist := hist.(dropped := hist.dropped + [job.id]);
      NextJob(job);
      Runs.NextHolds(c, old(View()), ReceiverRuns(old(now), old(now), 1));
    }

    method ReceiverFinish()
      requires (receiver.RLoop? && index >= c.jobs) || receiver.RFinish?
      requires Ready(ReceiverRuns(now, now, 1))
      modifies this
      ensures Valid() && View() == Machine.ReceiverFinish(old(View()))
    {
      hide Runs.Inv;
      allArrived := true;
      receiver := RBroadcast;
      Runs.NextHolds(c, old(View()), ReceiverRuns(old(now), old(now), 1));
    }

    method ReceiverWakeAll()
      requires receiver.RBroadcast?
      requires Ready(ReceiverRuns(now, now, 1))
      modifies this
      ensures Valid() && View() == Machine.ReceiverWakeAll(old(View()))
    {
      hide Runs.Inv;
      printers := SignalJobs(printers);
      receiver := RDone;
      Runs.NextHolds(c, old(View()), ReceiverRuns(old(now), old(now), 1));
    }

    // ---- sections of the paper refiller (src/paper_refiller.c) ----

    method RefillerLock()
      requires refiller.FLock? || refiller.FWait?
      requires Ready(RefillerRuns(now))
      modifies this
      ensures Valid() && View() == Machine.RefillerLock(old(View()))
    {
      hide Runs.Inv;
      refillOwner := ByRefiller;
      refiller := FCheck;
      Runs.NextHolds(c, old(View()), RefillerRuns(old(now)));
    }

    method RefillerCheck(t: nat)
      requires refiller.FCheck?
      requires Ready(RefillerRuns(t))
      modifies this
      ensures Valid() && View() == Machine.RefillerCheck(old(View()), t)
    {
      hide Runs.Inv;
      if terminate || allServed {
        RefillerLeave();
      } else if refillQueue != [] {
        RefillerTake(t);
      } else {
        RefillerSleep();
      }
      Runs.NextHolds(c, old(View()), RefillerRuns(t));
    }

    method RefillerLeave()
      modifies this
      ensures View() == old(View()).(refiller := FExited, refillOwner := Free, printers := SignalPaper(old(printers)))
    {
      printers := SignalPaper(printers);
      refillOwner := Free;
      refiller := FExited;
    }

    method RefillerTake(t: nat)
      requires refillQueue != []
      modifies this
      ensures View() == old(View()).(now := t, refiller := FPlan(old(refillQueue)[0], t),
                                     refillQueue := old(refillQueue)[1..], refillOwner := Free,
                                     supply := old(supply).(taken := old(supply).taken + [old(refillQueue)[0]]))
    {
      var i := PopRequest();
      now := t;
      refiller := FPlan(i, t);
      refillOwner := Free;
    }

    method PopRequest() returns (i: nat)
      requires refillQueue != []
      modifies this
      ensures i == old(refillQueue[0])
      ensures View() == old(View()).(refillQueue := old(refillQueue)[1..],
                                     supply := old(supply).(taken := old(supply).taken + [i]))
    {
      i := refillQueue[0];
      NoteTaken(i);
      refillQueue := refillQueue[1..];
    }

    /** History: the refiller takes on printer `i`. */
    ghost method NoteTaken(i: nat)
      modifies `supply
      ensures supply == old(supply).(taken := old(supply.taken) + [i])
    {
      supply := supply.(taken := supply.taken + [i]);
    }

    method RefillerSleep()
      modifies this
      ensures View() == old(View()).(refiller := FWait(false), refillOwner := Free)
    {
      refiller := FWait(false);
      refillOwner := Free;
    }

    method RefillerPlan()
      requires refiller.FPlan? && refiller.i < |printers|
      requires Ready(RefillerRuns(now))
      modifies this
      ensures Valid() && View() == Machine.RefillerPlan(c, old(View()))
    {
      hide Runs.Inv;
      var papers := c.capacity - printers[refiller.i].paper;
      refiller := if papers <= 0 then FNotify else FFill(refiller.i, papers, refiller.since);
      Runs.NextHolds(c, old(View()), RefillerRuns(old(now)));
    }

    method RefillerFill(t: nat)
      requires refiller.FFill? && refiller.i < |printers|
      requires Ready(RefillerRuns(t))
      modifies this
      ensures Valid() && View() == Machine.RefillerFill(old(View()), t)
    {
      hide Runs.Inv;
      FillPrinter(t);
      Runs.NextHolds(c, old(View()), RefillerRuns(t));
    }

    method FillPrinter(t: nat)
      requires refiller.FFill? && refiller.i < |printers|
      modifies this
      ensures View() == Machine.RefillerFill(old(View()), t)
    {
      var i, papers := refiller.i, refiller.papers;
      NoteRefill(Refill(i, papers, refiller.since, t));
      now := t;
      printers := printers[i := printers[i].(paper := printers[i].paper + papers, added := printers[i].added + papers)];
      refiller := FRecord(i, papers, t - refiller.since);
    }

    /** History: a refill is complete. */
    ghost method NoteRefill(r: Refill)
      modifies `supply
      ensures supply == old(supply).(refills := old(supply.refills) + [r])
    {
      supply := supply.(refills := supply.refills + [r]);
    }

    method RefillerRecord()
      requires refiller.FRecord?
      requires Ready(RefillerRuns(now))
      modifies this, log
      ensures Valid() && View() == Machine.RefillerRecord(old(View()))
    {
      hide Runs.Inv;
      log.LogRefill(refiller.papers, refiller.duration);
      refiller := FNotify;
      Runs.NextHolds(c, old(View()), RefillerRuns(old(now)));
    }

    method RefillerNotify()
      requires refiller.FNotify?
      requires Ready(RefillerRuns(now))
      modifies this
      ensures Valid() && View() == Machine.RefillerNotify(old(View()))
    {
      hide Runs.Inv;
      printers := SignalPaper(printers);
      refiller := FLock;
      Runs.NextHolds(c, old(View()), RefillerRuns(old(now)));
    }

    // ---- sections of the stop handler (src/signalcatcher.c) ----

    method StopRaise()
      requires stop.HIdle?
      requires Ready(StopRuns(now))
      modifies this
      ensures Valid() && View() == Machine.StopRaise(old(View()))
    {
      hide Runs.Inv;
      terminate, allArrived := true, true;
      stop := HStamp;
      Runs.NextHolds(c, old(View()), StopRuns(old(now)));
    }

    method StopStamp(t: nat)
      requires stop.HStamp?
      requires Ready(StopRuns(t))
      modifies this, log
      ensures Valid() && View() == Machine.StopStamp(old(View()), t)
    {
      hide Runs.Inv;
      RecordEnd(t);
      receiverCancel, refillerCancel := true, true;
      stop := HLock;
      Runs.NextHolds(c, old(View()), StopRuns(t));
    }

    method RecordEnd(t: nat)
      modifies this, log
      ensures View() == old(View()).(now := t, stats := old(log.View()).(duration := t - old(log.start)))
    {
      now := t;
      log.LogEnd(t);
    }

    method StopLock()
      requires stop.HLock?
      requires Ready(StopRuns(now))
      modifies this
      ensures Valid() && View() == Machine.StopLock(old(View()))
    {
      hide Runs.Inv;
      jobOwner := ByStop;
      stop := HEmpty;
      Runs.NextHolds(c, old(View()), StopRuns(old(now)));
    }

    method StopEmpty(t: nat)
      requires stop.HEmpty?
      requires Ready(StopRuns(t))
      modifies this, log
      ensures Valid() && View() == Machine.StopEmpty(old(View()), t)
    {
      hide Runs.Inv;
      RemoveAll(t);
      LeaveQueue();
      Runs.NextHolds(c, old(View()), StopRuns(t));
    }

    /** Wakes the printers and releases the job queue. */
    method LeaveQueue()
      modifies this
      ensures View() == old(View()).(printers := SignalJobs(old(printers)), jobOwner := Free, stop := HRefill)
    {
      printers := SignalJobs(printers);
      jobOwner := Free;
      stop := HRefill;
    }

    /** Empties the queue at time `t` and counts its jobs as removed. */
    method RemoveAll(t: nat)
      modifies this, log
      ensures View() == old(View()).(
        now := t, queue := [], last := if old(queue) == [] then old(last) else t,
        stats := old(log.View()).(removed := old(log.removed) + old(|queue|)),
        hist := old(hist).(left := old(hist).left + Ids(old(queue)), removed := old(hist).removed + Ids(old(queue)),
                           forgone := old(hist).forgone + Elapsed(old(queue), old(last))))
    {
      ghost var q, st := queue, log.View();
      Retire();
      EmptyQueue(t);
      assert log.View() == st.(removed := st.removed + |q|);
      now := t;
    }

    /** History: the queued jobs count as removed. */
    ghost method Retire()
      modifies `hist
      ensures hist == old(hist).(left := old(hist.left) + Ids(queue), removed := old(hist.removed) + Ids(queue),
                                 forgone := old(hist.forgone) + Elapsed(queue, last))
    {
      hist := hist.(left := hist.left + Ids(queue), removed := hist.removed + Ids(queue),
                    forgone := hist.forgone + Elapsed(queue, last));
    }

    /** Job queue and statistics held: remove the queued jobs one by one. */
    method EmptyQueue(t: nat)
      modifies `queue, `last, log`removed
      ensures queue == [] && last == (if old(queue) == [] then old(last) else t)
      ensures log.removed == old(log.removed) + old(|queue|)
    {
      while queue != []
        invariant |queue| <= old(|queue|)
        invariant last == if |queue| == old(|queue|) then old(last) else t
        invariant log.removed == old(log.removed) + old(|queue|) - |queue|
        decreases |queue|
      {
        queue, last := queue[1..], t;
        log.LogRemoved();
      }
    }

    method StopWakeAll()
      requires stop.HRefill?
      requires Ready(StopRuns(now))
      modifies this
      ensures Valid() && View() == Machine.StopWakeAll(old(View()))
    {
      hide Runs.Inv;
      WakeForRefill();
      stop := HDone;
      Runs.NextHolds(c, old(View()), StopRuns(old(now)));
    }

    // ---- any schedule ----

    method PrinterStep(i: nat, t: nat)
      requires Ready(PrinterRuns(i, t))
      modifies this, log, log.perPrinter
      ensures Valid() && View() == PrinterNext(old(View()), i, t)
    {
      hide Runs.Inv;
      match printers[i].pc
      case PTop => PrinterReadFlag(i);
      case PJobLock(_) => PrinterJobSection(i, t);
      case PJobWait(_) => PrinterJobWoken(i);
      case PRefillLock(_) => PrinterRequest(i, t);
      case PRefillWait(_, _, _) => PrinterPaperWoken(i);
      case PRefillHold(_, _) => PrinterRecheck(i);
      case PRefillDone(_) => PrinterPaperStats(i, t);
      case PStart(_) => PrinterBegin(i, t);
      case PPrint(_) => PrinterPrint(i, t);
      case PDepart(_) => PrinterDepart(i);
      case PAfter => PrinterAfter(i);
      case PExitCheck(_) => PrinterExitCheck(i);
      case PServed => PrinterMarkServed(i);
      case PExit => PrinterExit(i);
    }

    method ReceiverStep(t: nat, t2: nat, need: nat)
      requires Ready(ReceiverRuns(t, t2, need))
      modifies this, log
      ensures Valid() && View() == ReceiverNext(c, old(View()), t, t2, need)
    {
      hide Runs.Inv;
      match receiver
      case RLoop => if index < c.jobs { ReceiverReadFlag(need); } else { ReceiverFinish(); }
      case RBroken => ReceiverBreak();
      case RStamp(_) => ReceiverStamp(t);
      case RCount(_) => ReceiverCount();
      case REnter(_) => ReceiverEnter(t, t2);
      case RHold(_, _, _) => ReceiverRecord();
      case RDrop(_) => ReceiverDrop();
      case RFinish => ReceiverFinish();
      case RBroadcast => ReceiverWakeAll();
    }

    method RefillerStep(t: nat)
      requires Ready(RefillerRuns(t))
      modifies this, log
      ensures Valid() && View() == RefillerNext(c, old(View()), t)
    {
      hide Runs.Inv;
      match refiller
      case FLock => RefillerLock();
      case FWait(_) => RefillerLock();
      case FCheck => RefillerCheck(t);
      case FPlan(_, _) => RefillerPlan();
      case FFill(_, _, _) => RefillerFill(t);
      case FRecord(_, _, _) => RefillerRecord();
      case FNotify => RefillerNotify();
    }

    method StopStep(t: nat)
      requires Ready(StopRuns(t))
      modifies this, log
      ensures Valid() && View() == StopNext(old(View()), t)
    {
      hide Runs.Inv;
      match stop
      case HIdle => StopRaise();
      case HStamp => StopStamp(t);
      case HLock => StopLock();
      case HEmpty => StopEmpty(t);
      case HRefill => StopWakeAll();
    }

    method EnvironmentStep(a: Action)
      requires Ready(a)
      requires a.ReceiverDies? || a.RefillerDies? || a.PrinterSpurious? || a.RefillerSpurious?
      modifies this
      ensures Valid() && View() == Next(c, old(View()), a)
    {
      hide Runs.Inv;
      Runs.NextHolds(c, View(), a);
      match a
      case ReceiverDies => receiver := RCancelled;
      case RefillerDies => refiller := FCancelled(refiller.i);
      case PrinterSpurious(i) => printers := printers[i := Spurious(printers[i])];
      case RefillerSpurious => refiller := FWait(true);
    }

    /** One section of one thread, or an event of the environment. */
    method Step(a: Action)
      requires Ready(a)
      modifies this, log, log.perPrinter
      ensures Valid() && View() == Next(c, old(View()), a)
    {
      hide Runs.Inv;
      match a {
        case PrinterRuns(i, t) => PrinterStep(i, t);
        case ReceiverRuns(t, t2, need) => ReceiverStep(t, t2, need);
        case RefillerRuns(t) => RefillerStep(t);
        case StopRuns(t) => StopStep(t);
        case _ => EnvironmentStep(a);
      }
    }

    /** Any schedule the system can follow. */
    method Run(schedule: seq<Action>)
      requires Valid() && Runs.IsRun(c, View(), schedule)
      modifies this, log, log.perPrinter
      ensures Valid() && View() == Runs.After(c, old(View()), schedule)
    {
      var i := 0;
      while i < |schedule|
        invariant 0 <= i <= |schedule| && Valid()
        invariant Runs.IsRun(c, View(), schedule[i..])
        invariant Runs.After(c, View(), schedule[i..]) == Runs.After(c, old(View()), schedule)
      {
        assert schedule[i..][0] == schedule[i] && schedule[i..][1..] == schedule[i + 1..];
        Step(schedule[i]);
        i := i + 1;
      }
    }
  }
}
