/** The shared state of a run, the program counters of its threads, and one function per critical
    section.  A program counter names the next section the thread will execute; the arguments are
    the thread's local variables.  The functions follow the thread functions of src/printer.c,
    src/paper_refiller.c, src/job_receiver.c and src/signalcatcher.c. */
module Machine {
  import opened Records

  // Who holds a mutex between two sections.  The statistics and flag mutexes are never held
  // across sections, because no section that holds one of them acquires another mutex.
  datatype Owner = Free | ByReceiver | ByStop | ByRefiller | ByPrinter(i: nat)

  datatype PrinterPc =
    | PTop                                                  // read the stop flag
    | PJobLock(term: bool)                                  // acquire the job queue
    | PJobWait(signalled: bool)                             // wait for a job
    | PRefillLock(need: nat)                                // acquire the refill queue
    | PRefillWait(need: nat, since: nat, signalled: bool)   // wait for paper
    | PRefillHold(need: nat, since: nat)                    // woken, refill queue held
    | PRefillDone(since: nat)                               // record the time without paper
    | PStart(job: Job)
    | PPrint(job: Job)
    | PDepart(job: Job)                                     // record the departure
    | PAfter                                                // read the arrival flag
    | PExitCheck(arrived: bool)
    | PServed                                               // set the served flag
    | PExit                                                 // wake everybody, cancel the refiller
    | PExited

  /** `added` is a history variable: the papers the refiller has put into this printer. */
  datatype Printer = Printer(pc: PrinterPc, paper: int, used: int, printed: nat, idle: bool,
                             lastDone: nat, added: int)

  datatype ReceiverPc =
    | RLoop                                                 // loop head and inter-arrival sleep
    | RBroken                                               // stop seen, set the arrival flag
    | RStamp(need: nat)
    | RCount(job: Job)                                      // record the arrival
    | REnter(job: Job)                                      // acquire the job queue
    | RHold(job: Job, length: nat, lastBefore: nat)         // enqueued, job queue held
    | RDrop(job: Job)
    | RFinish                                               // set the arrival flag
    | RBroadcast
    | RDone
    | RCancelled

  datatype RefillerPc =
    | FLock
    | FCheck                                                // refill queue held
    | FWait(signalled: bool)
    | FPlan(i: nat, since: nat)
    | FFill(i: nat, papers: int, since: nat)                // asleep, may be cancelled
    | FRecord(i: nat, papers: int, duration: int)
    | FNotify
    | FExited
    | FCancelled(i: nat)

  datatype StopPc = HIdle | HStamp | HLock | HEmpty | HRefill | HDone

  /** History of a run, read by no section.  `left` lists the jobs that left the queue at its front;
      `forgone` is the queue time already counted for jobs that were then removed. */
  datatype History = History(enqueued: seq<nat>, left: seq<nat>, served: seq<Service>, dropped: seq<nat>,
                             removed: seq<nat>, peak: nat, forgone: int)

  /** A printer's wait for paper, as it is recorded. */
  datatype PaperWait = PaperWait(printer: nat, since: nat, until: nat)

  /** A completed refill. */
  datatype Refill = Refill(printer: nat, papers: int, since: nat, until: nat)

  /** History of the paper supply, read by no section: the printers that asked, those the refiller took
      on, the waits recorded and the refills completed, each in order. */
  datatype Supply = Supply(asked: seq<nat>, taken: seq<nat>, waits: seq<PaperWait>, refills: seq<Refill>)

  datatype State = State(
    now: nat,
    terminate: bool, allArrived: bool, allServed: bool,
    jobOwner: Owner, refillOwner: Owner,
    queue: seq<Job>, last: nat,
    refillQueue: seq<nat>,
    printers: seq<Printer>,
    receiver: ReceiverPc, index: nat, previousArrival: nat, receiverCancel: bool,
    refiller: RefillerPc, refillerCancel: bool,
    stop: StopPc,
    stats: Stats,
    hist: History,
    supply: Supply)

  // ---- condition variables ----

  function WakeForJob(p: Printer): Printer {
    if p.pc.PJobWait? then p.(pc := PJobWait(true)) else p
  }

  function WakeForPaper(p: Printer): Printer {
    if p.pc.PRefillWait? then p.(pc := p.pc.(signalled := true)) else p
  }

  function SignalJobs(ps: seq<Printer>): (r: seq<Printer>)
    ensures |r| == |ps| && forall k :: 0 <= k < |ps| ==> r[k] == WakeForJob(ps[k])
  {
    seq(|ps|, k requires 0 <= k < |ps| => WakeForJob(ps[k]))
  }

  function SignalPaper(ps: seq<Printer>): (r: seq<Printer>)
    ensures |r| == |ps| && forall k :: 0 <= k < |ps| ==> r[k] == WakeForPaper(ps[k])
  {
    seq(|ps|, k requires 0 <= k < |ps| => WakeForPaper(ps[k]))
  }

  function SignalRefiller(pc: RefillerPc): RefillerPc {
    if pc.FWait? then FWait(true) else pc
  }

  // ---- printer i (src/printer.c:35-183) ----

  function Put(s: State, i: nat, p: Printer): State
    requires i < |s.printers|
  {
    s.(printers := s.printers[i := p])
  }

  function PrinterReadFlag(s: State, i: nat): State
    requires i < |s.printers|
  {
    Put(s, i, s.printers[i].(pc := PJobLock(s.terminate)))
  }

  /** Job queue held: leave, wait, ask for paper, or take the job at the front. */
  function PrinterJobSection(s: State, i: nat, t: nat): State
    requires i < |s.printers| && s.printers[i].pc.PJobLock?
  {
    var p := s.printers[i];
    if p.pc.term || (s.allArrived && s.queue == []) then Put(s, i, p.(pc := PServed))
    else if s.queue == [] then Put(s, i, p.(pc := PJobWait(false)))
    else if s.queue[0].need > p.paper then Put(s, i, p.(pc := PRefillLock(s.queue[0].need)))
    else PrinterDequeue(s, i, t)
  }

  function PrinterDequeue(s: State, i: nat, t: nat): State
    requires i < |s.printers| && s.queue != []
  {
    var job := s.queue[0].(queueDeparture := t);
    Put(s, i, s.printers[i].(pc := PStart(job))).(
      now := t, queue := s.queue[1..], last := t,
      stats := OnQueueDeparture(s.stats, job, |s.queue| - 1, s.last),
      hist := s.hist.(left := s.hist.left + [job.id]))
  }

  function PrinterJobWoken(s: State, i: nat): State
    requires i < |s.printers|
  {
    Put(s, i, s.printers[i].(pc := PTop))
  }

  /** Refill queue held: ask for a refill and wait, unless there is paper after all. */
  function PrinterRequest(s: State, i: nat, t: nat): State
    requires i < |s.printers| && s.printers[i].pc.PRefillLock?
  {
    var p := s.printers[i];
    var pc := if p.pc.need > p.paper then PRefillWait(p.pc.need, t, false) else PRefillDone(t);
    Put(s, i, p.(pc := pc)).(now := t, refillQueue := s.refillQueue + [i],
                             refiller := SignalRefiller(s.refiller),
                             supply := s.supply.(asked := s.supply.asked + [i]))
  }

  function PrinterPaperWoken(s: State, i: nat): State
    requires i < |s.printers| && s.printers[i].pc.PRefillWait?
  {
    var p := s.printers[i];
    Put(s, i, p.(pc := PRefillHold(p.pc.need, p.pc.since))).(refillOwner := ByPrinter(i))
  }

  function PrinterRecheck(s: State, i: nat): State
    requires i < |s.printers| && s.printers[i].pc.PRefillHold?
  {
    var p := s.printers[i];
    var pc := if s.terminate then PServed
              else if p.pc.need > p.paper then PRefillWait(p.pc.need, p.pc.since, false)
              else PRefillDone(p.pc.since);
    Put(s, i, p.(pc := pc)).(refillOwner := Free)
  }

  function PrinterPaperStats(s: State, i: nat, t: nat): State
    requires i < |s.printers| && s.printers[i].pc.PRefillDone?
  {
    var p := s.printers[i];
    Put(s, i, p.(pc := PTop)).(
      now := t, stats := OnPaperWait(s.stats, i, t - p.pc.since),
      supply := s.supply.(waits := s.supply.waits + [PaperWait(i, p.pc.since, t)]))
  }

  function PrinterBegin(s: State, i: nat, t: nat): State
    requires i < |s.printers| && s.printers[i].pc.PStart?
  {
    var p := s.printers[i];
    Put(s, i, p.(pc := PPrint(p.pc.job.(serviceArrival := t)), idle := false)).(now := t)
  }

  function PrinterPrint(s: State, i: nat, t: nat): State
    requires i < |s.printers| && s.printers[i].pc.PPrint?
  {
    var p := s.printers[i];
    var job := p.pc.job;
    Put(s, i, p.(pc := PDepart(job.(serviceDeparture := t)), paper := p.paper - job.need,
                 used := p.used + job.need, lastDone := t, idle := true)).(now := t)
  }

  function PrinterDepart(s: State, i: nat): State
    requires i < |s.printers| && s.printers[i].pc.PDepart?
  {
    var p := s.printers[i];
    var v := Service(p.pc.job, i);
    Put(s, i, p.(pc := PAfter, printed := p.printed + 1)).(
      stats := OnSystemDeparture(s.stats, v), hist := s.hist.(served := s.hist.served + [v]))
  }

  function PrinterAfter(s: State, i: nat): State
    requires i < |s.printers|
  {
    Put(s, i, s.printers[i].(pc := PExitCheck(s.allArrived)))
  }

  function PrinterExitCheck(s: State, i: nat): State
    requires i < |s.printers| && s.printers[i].pc.PExitCheck?
  {
    var p := s.printers[i];
    Put(s, i, p.(pc := if p.pc.arrived && s.queue == [] then PServed else PTop))
  }

  function PrinterMarkServed(s: State, i: nat): State
    requires i < |s.printers|
  {
    Put(s, i, s.printers[i].(pc := PExit)).(allServed := true)
  }

  /** The cancellation request follows the broadcast in the source; setting it in the same step
      only lets the refiller die earlier. */
  function PrinterExit(s: State, i: nat): State
    requires i < |s.printers|
  {
    Put(s, i, s.printers[i].(pc := PExited)).(
      printers := SignalPaper(s.printers[i := s.printers[i].(pc := PExited)]),
      refiller := SignalRefiller(s.refiller), refillerCancel := true)
  }

  predicate PrinterEnabled(s: State, i: nat)
    requires i < |s.printers|
  {
    match s.printers[i].pc
    case PJobLock(_) => s.jobOwner.Free?
    case PJobWait(signalled) => signalled && s.jobOwner.Free?
    case PRefillLock(_) => s.refillOwner.Free?
    case PRefillWait(_, _, signalled) => signalled && s.refillOwner.Free?
    case PExitCheck(_) => s.jobOwner.Free?
    case PExit => s.refillOwner.Free?
    case PExited => false
    case _ => true
  }

  function PrinterNext(s: State, i: nat, t: nat): State
    requires i < |s.printers|
  {
    match s.printers[i].pc
    case PTop => PrinterReadFlag(s, i)
    case PJobLock(_) => PrinterJobSection(s, i, t)
    case PJobWait(_) => PrinterJobWoken(s, i)
    case PRefillLock(_) => PrinterRequest(s, i, t)
    case PRefillWait(_, _, _) => PrinterPaperWoken(s, i)
    case PRefillHold(_, _) => PrinterRecheck(s, i)
    case PRefillDone(_) => PrinterPaperStats(s, i, t)
    case PStart(_) => PrinterBegin(s, i, t)
    case PPrint(_) => PrinterPrint(s, i, t)
    case PDepart(_) => PrinterDepart(s, i)
    case PAfter => PrinterAfter(s, i)
    case PExitCheck(_) => PrinterExitCheck(s, i)
    case PServed => PrinterMarkServed(s, i)
    case PExit => PrinterExit(s, i)
    case PExited => s
  }

  // ---- job receiver (src/job_receiver.c:68-173) ----

  /** End of the inter-arrival sleep: read the stop flag. */
  function ReceiverReadFlag(s: State, need: nat): State {
    s.(receiver := if s.terminate then RBroken else RStamp(need))
  }

  function ReceiverBreak(s: State): State {
    s.(allArrived := true, receiver := RFinish)
  }

  function ReceiverStamp(s: State, t: nat): State
    requires s.receiver.RStamp?
  {
    s.(now := t, receiver := RCount(Job(s.index + 1, s.receiver.need, t, 0, 0, 0, 0)))
  }

  function ReceiverCount(s: State): State
    requires s.receiver.RCount?
  {
    s.(stats := OnSystemArrival(s.stats, s.receiver.job, s.previousArrival), receiver := REnter(s.receiver.job))
  }

  /** Job queue held: refuse the job when the queue is full, else append it at time `t`; the append
      itself stamps the queue at `t2`, and the section goes on to the statistics mutex. */
  function ReceiverEnter(c: Config, s: State, t: nat, t2: nat): State
    requires s.receiver.REnter?
  {
    var length := |s.queue|;
    if c.queueCapacity != -1 && length >= c.queueCapacity then s.(receiver := RDrop(s.receiver.job))
    else
      var job := s.receiver.job.(queueArrival := t);
      s.(now := t2, queue := s.queue + [job], last := t2, jobOwner := ByReceiver,
         receiver := RHold(job, length, s.last),
         hist := s.hist.(enqueued := s.hist.enqueued + [job.id],
                         peak := if length + 1 > s.hist.peak then length + 1 else s.hist.peak))
  }

  function ReceiverRecord(s: State): State
    requires s.receiver.RHold?
  {
    var job, length := s.receiver.job, s.receiver.length;
    var st := s.stats.(maxLength := if length > s.stats.maxLength then length else s.stats.maxLength);
    s.(stats := OnQueueArrival(st, job, |s.queue|, s.receiver.lastBefore), last := job.queueArrival,
       previousArrival := job.systemArrival, index := s.index + 1, receiver := RLoop,
       printers := SignalJobs(s.printers), jobOwner := Free)
  }

  function ReceiverDrop(s: State): State
    requires s.receiver.RDrop?
  {
    s.(stats := OnDropped(s.stats), previousArrival := s.receiver.job.systemArrival,
       index := s.index + 1, receiver := RLoop, hist := s.hist.(dropped := s.hist.dropped + [s.receiver.job.id]))
  }

  function ReceiverFinish(s: State): State {
    s.(allArrived := true, receiver := RBroadcast)
  }

  function ReceiverWakeAll(s: State): State {
    s.(printers := SignalJobs(s.printers), receiver := RDone)
  }

  predicate ReceiverEnabled(c: Config, s: State, need: nat) {
    match s.receiver
    case RLoop => s.index < c.jobs ==> 1 <= need <= c.maxNeed
    case REnter(_) => s.jobOwner.Free?
    case RBroadcast => s.jobOwner.Free?
    case RDone => false
    case RCancelled => false
    case _ => true
  }

  function ReceiverNext(c: Config, s: State, t: nat, t2: nat, need: nat): State {
    match s.receiver
    case RLoop => if s.index < c.jobs then ReceiverReadFlag(s, need) else ReceiverFinish(s)
    case RBroken => ReceiverBreak(s)
    case RStamp(_) => ReceiverStamp(s, t)
    case RCount(_) => ReceiverCount(s)
    case REnter(_) => ReceiverEnter(c, s, t, t2)
    case RHold(_, _, _) => ReceiverRecord(s)
    case RDrop(_) => ReceiverDrop(s)
    case RFinish => ReceiverFinish(s)
    case RBroadcast => ReceiverWakeAll(s)
    case RDone => s
    case RCancelled => s
  }

  // ---- paper refiller (src/paper_refiller.c:37-118) ----

  function RefillerLock(s: State): State {
    s.(refiller := FCheck, refillOwner := ByRefiller)
  }

  /** Refill queue held: leave, take the first request, or wait. */
  function RefillerCheck(s: State, t: nat): State {
    if s.terminate || s.allServed then
      s.(refiller := FExited, refillOwner := Free, printers := SignalPaper(s.printers))
    else if s.refillQueue != [] then
      s.(now := t, refiller := FPlan(s.refillQueue[0], t), refillQueue := s.refillQueue[1..], refillOwner := Free,
         supply := s.supply.(taken := s.supply.taken + [s.refillQueue[0]]))
    else s.(refiller := FWait(false), refillOwner := Free)
  }

  function RefillerPlan(c: Config, s: State): State
    requires s.refiller.FPlan? && s.refiller.i < |s.printers|
  {
    var papers := c.capacity - s.printers[s.refiller.i].paper;
    s.(refiller := if papers <= 0 then FNotify else FFill(s.refiller.i, papers, s.refiller.since))
  }

  function RefillerFill(s: State, t: nat): State
    requires s.refiller.FFill? && s.refiller.i < |s.printers|
  {
    var i, papers := s.refiller.i, s.refiller.papers;
    var p := s.printers[i];
    Put(s, i, p.(paper := p.paper + papers, added := p.added + papers)).(
      now := t, refiller := FRecord(i, papers, t - s.refiller.since),
      supply := s.supply.(refills := s.supply.refills + [Refill(i, papers, s.refiller.since, t)]))
  }

  function RefillerRecord(s: State): State
    requires s.refiller.FRecord?
  {
    s.(stats := OnRefilled(s.stats, s.refiller.papers, s.refiller.duration), refiller := FNotify)
  }

  function RefillerNotify(s: State): State {
    s.(printers := SignalPaper(s.printers), refiller := FLock)
  }

  predicate RefillerEnabled(s: State) {
    match s.refiller
    case FLock => s.refillOwner.Free?
    case FWait(signalled) => signalled && s.refillOwner.Free?
    case FPlan(i, _) => i < |s.printers|
    case FFill(i, _, _) => i < |s.printers|
    case FNotify => s.refillOwner.Free?
    case FExited => false
    case FCancelled(_) => false
    case _ => true
  }

  function RefillerNext(c: Config, s: State, t: nat): State
    requires RefillerEnabled(s)
  {
    match s.refiller
    case FLock => RefillerLock(s)
    case FWait(_) => RefillerLock(s)
    case FCheck => RefillerCheck(s, t)
    case FPlan(_, _) => RefillerPlan(c, s)
    case FFill(_, _, _) => RefillerFill(s, t)
    case FRecord(_, _, _) => RefillerRecord(s)
    case FNotify => RefillerNotify(s)
  }

  // ---- stop handler (src/signalcatcher.c:30-66) ----

  function StopRaise(s: State): State {
    s.(terminate := true, allArrived := true, stop := HStamp)
  }

  /** Records the duration and requests both cancellations; the requests only enable later steps. */
  function StopStamp(s: State, t: nat): State {
    s.(now := t, stats := s.stats.(duration := t - s.stats.start), receiverCancel := true,
       refillerCancel := true, stop := HLock)
  }

  function StopLock(s: State): State {
    s.(jobOwner := ByStop, stop := HEmpty)
  }

  /** Job queue and statistics held: remove every queued job and wake the printers. */
  function StopEmpty(s: State, t: nat): State {
    var ids := Ids(s.queue);
    s.(now := t, queue := [], last := if s.queue == [] then s.last else t,
       stats := s.stats.(removed := s.stats.removed + |s.queue|),
       printers := SignalJobs(s.printers), jobOwner := Free, stop := HRefill,
       hist := s.hist.(left := s.hist.left + ids, removed := s.hist.removed + ids,
                       forgone := s.hist.forgone + Elapsed(s.queue, s.last)))
  }

  function StopWakeAll(s: State): State {
    s.(printers := SignalPaper(s.printers), refiller := SignalRefiller(s.refiller), stop := HDone)
  }

  predicate StopEnabled(s: State) {
    match s.stop
    case HLock => s.jobOwner.Free?
    case HRefill => s.refillOwner.Free?
    case HDone => false
    case _ => true
  }

  function StopNext(s: State, t: nat): State {
    match s.stop
    case HIdle => StopRaise(s)
    case HStamp => StopStamp(s, t)
    case HLock => StopLock(s)
    case HEmpty => StopEmpty(s, t)
    case HRefill => StopWakeAll(s)
    case HDone => s
  }

  // ---- readings of the queue ----

  function Ids(q: seq<Job>): (r: seq<nat>)
    ensures |r| == |q| && forall k :: 0 <= k < |q| ==> r[k] == q[k].id
  {
    seq(|q|, k requires 0 <= k < |q| => q[k].id)
  }

  /** Total time the jobs of `q` have waited up to time `at`. */
  function Elapsed(q: seq<Job>, at: int): int {
    if q == [] then 0 else (at - q[0].queueArrival) + Elapsed(q[1..], at)
  }

  // ---- the whole system ----

  /** One atomic section of one thread, or an event of the environment: a cancellation taking
      effect during a sleep, or a spurious wake-up from a condition variable. */
  datatype Action =
    | PrinterRuns(i: nat, t: nat)
    | ReceiverRuns(t: nat, t2: nat, need: nat)
    | RefillerRuns(t: nat)
    | StopRuns(t: nat)
    | ReceiverDies
    | RefillerDies
    | PrinterSpurious(i: nat)
    | RefillerSpurious

  function Spurious(p: Printer): Printer {
    if p.pc.PJobWait? then WakeForJob(p) else WakeForPaper(p)
  }

  predicate Enabled(c: Config, s: State, a: Action) {
    match a
    case PrinterRuns(i, t) => i < |s.printers| && s.now <= t && PrinterEnabled(s, i)
    case ReceiverRuns(t, t2, need) => s.now <= t <= t2 && ReceiverEnabled(c, s, need)
    case RefillerRuns(t) => s.now <= t && RefillerEnabled(s)
    case StopRuns(t) => s.now <= t && StopEnabled(s)
    case ReceiverDies => s.receiverCancel && s.receiver.RLoop? && s.index < c.jobs
    case RefillerDies => s.refillerCancel && s.refiller.FFill?
    case PrinterSpurious(i) => i < |s.printers|
    case RefillerSpurious => s.refiller.FWait?
  }

  function Next(c: Config, s: State, a: Action): State
    requires Enabled(c, s, a)
  {
    match a
    case PrinterRuns(i, t) => PrinterNext(s, i, t)
    case ReceiverRuns(t, t2, need) => ReceiverNext(c, s, t, t2, need)
    case RefillerRuns(t) => RefillerNext(c, s, t)
    case StopRuns(t) => StopNext(s, t)
    case ReceiverDies => s.(receiver := RCancelled)
    case RefillerDies => s.(refiller := FCancelled(s.refiller.i))
    case PrinterSpurious(i) => Put(s, i, Spurious(s.printers[i]))
    case RefillerSpurious => s.(refiller := FWait(true))
  }

  function FreshPrinter(c: Config): Printer {
    Printer(PTop, c.capacity, 0, 0, true, 0, 0)
  }

  /** The state in which the threads start: the queue was initialised at `created`, the log started
      at `start`. */
  function Init(c: Config, created: nat, start: nat): State {
    State(start, false, false, false, Free, Free, [], created, [],
          seq(c.printers, _ => FreshPrinter(c)),
          RLoop, 0, start, false, FLock, false, HIdle, InitStats(start),
          History([], [], [], [], [], 0, 0), Supply([], [], [], []))
  }
}
