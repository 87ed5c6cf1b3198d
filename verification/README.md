# A verified model of the print service

The program simulates a print shop with threads: a job receiver enqueues jobs, printers take and print
them, a refiller brings paper, a signal handler stops the run, and an autoscaler starts and stops
printers. An event log computes queueing statistics on the way. This project models that behaviour in
Dafny and proves what holds in every reachable state, for any number of printers, any job stream and any
schedule. `dafny verify dfyconfig.toml` checks all of it.

## How the parts fit together

* `Records`, `Machine`: the shared state, the program counter of every thread, and one function for each
  critical section. `Next` runs one section of one thread, or an event of the environment (a requested
  cancellation taking effect, a spurious wake-up). Condition variables are wait states with a
  "signalled" bit; a mutex that is kept across two sections has an explicit owner.
* `Control`, `Timing`, `Refilling`, `Books`: the invariant, in four parts. The `...Keeps` lemmas in these
  modules and in `BookKeeping` go through it section by section; `Runs` puts the parts together for
  whole schedules.
* `Guarantees`: what a reader wants to know of a reachable state, derived from the invariant.
* `Steps`, `Supplies`, `Reports`: laws of single steps over every action (timestamps, reasons to leave,
  broadcasts), the order and the records of the paper supply, and the truth of what the printers report.
* `Drain`: the ranking measure, the bound on the length of runs, stopped or not, and where runs end.
* `Interference`, `Stopping`: what a thread's section leaves alone in the others, and what a stop request
  does to the work under way.
* `Joining`, `Stranding`: exactly which configurations let every printer thread end, without a stop and after
  one.
* `PrintServices`, `EventLogs`: the same service as the program runs it, objects whose fields are updated
  in place. Each section method keeps `Valid`, the whole invariant, and computes its function of `Machine`; `Run`
  follows any schedule, so everything proved of runs holds of the object.
* `Statistics`, `Sums`: the reported figures over exact reals, and the sums behind them.
* `LinkedLists`, `TimedQueues`: the sentinel doubly linked list on the heap and the queue over it.
* `Autoscaling`, `ScalingHistory`, `StuckPools`, `AutoscalerRuns`, `PrinterPools`: the autoscaler as
  functions, its behaviour over runs of ticks, the pools that can no longer scale, three runs from start-up,
  and the pool updated in place.
* `LockOrder`: the lock skeleton of every thread function, autoscaled printers included, and the absence
  of deadlock among mutexes.

## Assumptions

* The clock never goes back; the autoscaler's clock is also positive. Allocation and thread creation succeed.
* A job needs at least one paper and at most `maxNeed`, and a full printer holds at least `maxNeed`, as
  the ranges of include/config.h:59 and include/config.h:80 make sure. The queue capacity is -1 or
  positive, and there is at least one printer.
* One run is modelled, from a fresh start. The refill protocol is that of the printers started at the
  beginning (src/cli.c:74-90, src/cli.c:154-156).
* A section is one atomic step. Two pairs of neighbouring actions are merged: the cancellation requests of
  the stop handler with the time stamp before them, and the one of a leaving printer with its broadcast;
  requesting earlier only lets the cancelled thread die earlier. The two clock readings of a dequeue
  (src/timed_queue.c:76, src/printer.c:113) are one, since the second overwrites the first under the
  same mutex. The refill request is modelled with the paper a job needs as a local snapshot, taken while
  the job was looked at; the source reads it again from the job, which another printer may have freed.
* Program counters and the fields `hist`, `supply` and `added` are bookkeeping: no section's decision reads
  `hist`, `supply` or `added`.

## Where the code departs from its intent

* The first printer to leave declares all jobs served (src/printer.c:172-174), which ends the refiller. A
  printer that asks for paper after that is never refilled. `Stranding.PrintersExitIff` says exactly when
  this can happen: with two or more printers, as soon as the largest job times the number of jobs exceeds
  the capacity. Such a printer sleeps for ever when it compares its paper with the need it saw, as the
  model's printers do. The source reads the need again from the job after every broadcast (src/printer.c:78),
  and by then the printer that served the job has freed it (src/printer.c:153), so what the thread does there
  is not defined. Jobs are never lost by it: `Drain.QuiescentIsDrained`.
* A printer can start to wait for paper after the stop handler's last broadcast (src/printer.c:78-79), with
  the refiller gone. `Stranding.StoppedPrintersExitIff`: after a stop all printers are sure to end exactly when
  a full printer has paper for all jobs, and one printer is enough to be left asleep. Only a printer that asked
  after the stop can be (`Stopping.SleepersAskedLate`). The remark on the need it saw applies here as well: the
  stop handler, too, frees the jobs it removes (src/signalcatcher.c:25).
* `max_job_queue_length` is taken before the enqueue and is one less than the peak
  (src/job_receiver.c:127, src/job_receiver.c:149-150).
* The README's scale-up threshold for 2 printers (README.md:82) is the one for going to 3: with one printer
  the threshold is 999999 (src/autoscaling.c:27-28), so a pool of one does not grow before that many jobs are
  queued (`StuckPools.PoolOfOneGrowsIff`).
* Scale-up always starts slot `active_count`, scale-down removes the highest idle slot. After a removal in
  the middle the next start finds its slot taken and fails, and a failed start does not reset the low-queue
  timer. So the five seconds before a scale-down need not all be low: `ScalingHistory.SustainedLow` says which
  of their ticks were, and `AutoscalerRuns.LoadDuringSustainedLow` is a run with a queue of 20 among them.
  A pool can also lose the power to scale for good: `StuckPools.StuckIff` says which pools have,
  `StuckPools.PrefixSticks` how a prefix gets there, and `AutoscalerRuns.GetsStuck` is a run from start-up.
  Neither happens while only the highest active slot is removed (`ScalingHistory.PrefixRunsNeverFail`).
* A printer must be idle for five seconds to be removed (include/config.h:92), but only the check looks at
  that: the removal takes the highest idle printer, however briefly it has been idle
  (`Autoscaling.RemovedIsLongIdleIff`, `AutoscalerRuns.RemovesBriefIdle`).
* The idle time is an unsigned difference and wraps around for a printer that completes a job after the
  clock was read (src/autoscaling.c:95).
* Autoscaled printers use the job queue's mutex as their refill mutex (src/autoscaling.c:119).
* Searching a nonempty list for the null pointer can return the tail sentinel (src/linked_list.c:121-124).
* The average inter-arrival time divides by the number of gaps between arrivals a total that includes the
  wait for the first job (src/simulation_stats.c:19).

## Model

| member | source | states |
|---|---|---|
| `PrintServices.PrintService.constructor` | src/cli.c:143-156 | a fresh service is the initial state of the step system and satisfies the whole invariant |
| `PrintServices.PrintService.PrinterReadFlag` | src/printer.c:42-45 | the in-place section moves the whole shared state as `Machine.PrinterReadFlag` does and keeps the invariant, as every section method does: the printer leaves with a snapshot of the stop flag |
| `PrintServices.PrintService.PrinterJobSection` | src/printer.c:47-118 | under the job queue's mutex the printer leaves, sleeps, goes for paper or takes the front job, in the order of the source's tests, and nothing else changes |
| `PrintServices.PrintService.PrinterDequeue` | src/printer.c:109-118 | front job removed and stamped, statistics updated from the timestamp before the removal and the length after it |
| `PrintServices.PrintService.TakeFront` | src/timed_queue.c:69-79 | the front job leaves, the rest keep their order, the queue's timestamp moves |
| `PrintServices.PrintService.PrinterJobWoken` | src/printer.c:59-60 | a woken printer starts over with the flag check |
| `PrintServices.PrintService.PrinterRequest` | src/printer.c:70-79 | the request is appended and the refiller woken before the printer decides whether to sleep |
| `PrintServices.PrintService.PrinterPaperWoken` | src/printer.c:79 | the woken printer holds the refill mutex again |
| `PrintServices.PrintService.PrinterRecheck` | src/printer.c:81-90 | a woken printer leaves on a stop, else sleeps again while the paper is short, else goes on |
| `PrintServices.PrintService.PrinterPaperStats` | src/printer.c:95-106 | the time without paper is added to this printer's entry only |
| `PrintServices.PrintService.PrinterBegin` | src/printer.c:125-130 | start of service stamped, printer busy |
| `PrintServices.PrintService.PrinterPrint` | src/printer.c:131-140 | the job's papers move from the printer's stock to its total, end of service stamped, printer idle |
| `PrintServices.PrintService.PrinterDepart` | src/printer.c:144-149 | the served job is counted once, for this printer |
| `PrintServices.PrintService.PrinterAfter` | src/printer.c:156-158 | a snapshot of the arrival flag is taken |
| `PrintServices.PrintService.PrinterExitCheck` | src/printer.c:159-165 | leave exactly when the snapshot is set and the queue is empty |
| `PrintServices.PrintService.PrinterMarkServed` | src/printer.c:172-174 | the first printer to leave sets the served flag |
| `PrintServices.PrintService.PrinterExit` | src/printer.c:176-180 | both refill conditions are broadcast, the refiller's cancellation is requested |
| `PrintServices.PrintService.ReceiverReadFlag` | src/job_receiver.c:102-111 | after its sleep the receiver goes on or breaks off by the stop flag |
| `PrintServices.PrintService.ReceiverBreak` | src/job_receiver.c:111-115 | breaking off sets the arrival flag |
| `PrintServices.PrintService.ReceiverStamp` | src/job_receiver.c:96-118 | the job gets the next number and its arrival time |
| `PrintServices.PrintService.ReceiverCount` | src/job_receiver.c:119-122 | the arrival is counted |
| `PrintServices.PrintService.ReceiverEnter` | src/job_receiver.c:125-145 | refuse on a full queue, else append and keep the mutex for the statistics |
| `PrintServices.PrintService.PutBack` | src/timed_queue.c:33-43 | the job joins at the back, the queue's timestamp moves |
| `PrintServices.PrintService.ReceiverRecord` | src/job_receiver.c:147-160 | maximum and integral updated with the length before the append, printers woken, mutex released |
| `PrintServices.PrintService.ReceiverDrop` | src/job_receiver.c:132-139 | the drop is counted; the next inter-arrival time starts from this job all the same |
| `PrintServices.PrintService.ReceiverFinish` | src/job_receiver.c:163-166 | the arrival flag is set |
| `PrintServices.PrintService.ReceiverWakeAll` | src/job_receiver.c:168-171 | every printer asleep for a job is woken |
| `PrintServices.PrintService.RefillerLock` | src/paper_refiller.c:44 | the refiller holds the refill mutex |
| `PrintServices.PrintService.RefillerCheck` | src/paper_refiller.c:46-75 | leave with a broadcast, take the first request, or sleep |
| `PrintServices.PrintService.RefillerPlan` | src/paper_refiller.c:78-87 | papers missing, or the already-full branch |
| `PrintServices.PrintService.RefillerFill` | src/paper_refiller.c:92-101 | the planned papers are added after the sleep |
| `PrintServices.PrintService.RefillerRecord` | src/paper_refiller.c:102-107 | the refill is counted |
| `PrintServices.PrintService.RefillerNotify` | src/paper_refiller.c:112-114 | printers asleep for paper are woken |
| `PrintServices.PrintService.StopRaise` | src/signalcatcher.c:35-38 | both flags are set in one section |
| `PrintServices.PrintService.StopStamp` | src/signalcatcher.c:40-46 | duration recorded, both cancellations requested |
| `PrintServices.PrintService.StopLock` | src/signalcatcher.c:49 | the handler holds the job queue |
| `PrintServices.PrintService.StopEmpty` | src/signalcatcher.c:49-57 | all queued jobs are counted as removed, the queue is empty, every sleeping printer is woken |
| `PrintServices.PrintService.EmptyQueue` | src/signalcatcher.c:18-28 | the loop removes every job, counts each once, and stamps the queue only if it removed something |
| `PrintServices.PrintService.StopWakeAll` | src/signalcatcher.c:59-63 | both refill conditions are broadcast |
| `PrintServices.PrintService.Step` | src/printer.c:35-183 | any enabled section of any thread computes its step and keeps the invariant |
| `PrintServices.PrintService.Run` | src/cli.c:146-173 | any schedule of any length computes the run and keeps the invariant |
| `EventLogs.EventLog.LogSystemArrival` | src/console_handler.c:97-103 | arrival count and inter-arrival total |
| `EventLogs.EventLog.LogDropped` | src/console_handler.c:105-110 | drop count |
| `EventLogs.EventLog.LogQueueArrival` | src/console_handler.c:123-125 | integral grows by the elapsed time times the length without the new job |
| `EventLogs.EventLog.LogLength` | src/job_receiver.c:149-150 | the maximum is taken over the length given, which is the one before the append |
| `EventLogs.EventLog.LogQueueDeparture` | src/console_handler.c:139-141 | integral grows by the elapsed time times the length with the departing job |
| `EventLogs.EventLog.LogSystemDeparture` | src/console_handler.c:163-190 | totals for every printer, per-printer entries only for the first five, in place in the array |
| `EventLogs.EventLog.LogPaperWait` | src/printer.c:96-103 | only the printer's own entry changes |
| `EventLogs.EventLog.LogRefill` | src/paper_refiller.c:102-105 | papers, time and number of refills |
| `EventLogs.EventLog.LogEnd` | src/console_handler.c:61-65 | duration since the start |
| `Runs.NextHolds` | src/printer.c:35-183 | every section of every thread keeps the whole invariant (control, timestamps, paper, books) |
| `Runs.RunHolds` | src/cli.c:146-173 | the invariant holds after any schedule, by induction over the schedule |
| `Runs.ReachableHolds` | src/cli.c:146-173 | every reachable state, for any number of printers, satisfies the invariant; stop, cancellation and spurious wake-ups included |
| `Control.NextKeeps` | src/printer.c:41-61 | mutex ownership, flag meaning, no lost wake-ups, and at most one job after the stop are kept by every section |
| `Timing.NextKeeps` | src/console_handler.c:120-191 | job timestamps stay ordered, the integral never runs ahead of an arrival, recorded service, paper waits and refills fit before the current ones |
| `Refilling.NextKeeps` | src/paper_refiller.c:46-114 | requests stay unique and every printer's paper account stays balanced |
| `BookKeeping.NextKeeps` | src/console_handler.c:97-191 | order, conservation, integral, tallies and paper totals agree with the history after every section |
| `BookKeeping.TakeArea` | src/console_handler.c:136-143 | a dequeue moves the front job's wait from the queue's share of the integral to the service share |
| `BookKeeping.RecordArea` | src/console_handler.c:120-127 | recording an arrival extends the integral over the jobs that were already queued |
| `BookKeeping.EmptyArea` | src/signalcatcher.c:18-28 | emptying the queue leaves the integral and turns the elapsed waits into the forgone part |
| `Guarantees.NoLostJobWakeup` | src/printer.c:41-61 | mutex free and a printer asleep unsignalled: the queue is empty, and either jobs may still arrive or a broadcast is owed, stop included |
| `Guarantees.NoLostRefillerWakeup` | src/paper_refiller.c:46-71 | the refiller sleeps only on an empty refill queue, and never through the end without a broadcast owed |
| `Guarantees.RefillObligation` | src/printer.c:70-90 | a printer asleep for paper is queued, in the refiller's hands, or already full with the broadcast owed |
| `Guarantees.RefillIsExclusive` | src/paper_refiller.c:73-101 | at most one request or refill per printer, no printing meanwhile, paper between 0 and capacity |
| `Guarantees.RefillIsNeeded` | src/paper_refiller.c:78-87 | the already-full branch is never taken; every refill is at least capacity - largest job + 1 |
| `Guarantees.RefillFills` | src/paper_refiller.c:92-101 | a completed refill leaves exactly the capacity, whatever happened during the sleep |
| `Guarantees.PaperIsConserved` | src/paper_refiller.c:101-105 | current + used = capacity + added per printer and in total; events * (capacity - largest job + 1) <= refilled <= used |
| `Guarantees.JobsAreConserved` | src/printer.c:111-153 | every counted job number occurs exactly once among pending, queued, in service, served, dropped, removed, and no other number occurs |
| `Guarantees.SettledCounts` | src/signalcatcher.c:18-57 | with nothing pending or in service arrived = served + dropped + removed + r, and r <= 1 after the stop handler emptied the queue |
| `Guarantees.GlobalFifo` | src/job_receiver.c:90-145 | without a stop, jobs taken followed by jobs queued are the jobs enqueued, with strictly increasing numbers, for any number of printers |
| `Guarantees.TakesTheFront` | src/printer.c:63-112 | the job looked at is the job taken, and the printer has the paper for it |
| `Guarantees.JobsInServiceFit` | src/printer.c:66-132 | every job in service needs at least one paper and no more than its printer holds |
| `Guarantees.QueueIsBounded` | src/job_receiver.c:127-140 | the length never exceeds the capacity, and an arrival is dropped exactly when the queue is full |
| `Guarantees.PeakIsOneMore` | src/job_receiver.c:127-150 | with the mutex free the true peak is the recorded maximum plus one once anything was enqueued |
| `Guarantees.AreaIsWaiting` | src/console_handler.c:120-143 | Little's-law accounting in every state with the mutex free: integral = waits of served jobs + of jobs in service + of queued jobs + forgone, forgone is 0 without a stop, and the integral is never below the recorded wait |
| `Guarantees.ServicesAreRecorded` | src/console_handler.c:163-190 | the totals of system time, its squares and queue wait, and each printer's jobs, papers and service time, are the sums over the jobs served of differences of the jobs' own timestamps; the highest printer used is the highest that served |
| `Guarantees.LifeCyclesAreOrdered` | src/printer.c:109-139 | every served job's six timestamps are in order and within the run |
| `Guarantees.TimeIsAccounted` | src/console_handler.c:97-191 | system time >= queue wait + service times; each printer's service time plus time without paper fits the run, and so does the total refill time; inter-arrival total telescopes across drops |
| `Guarantees.HoldersCanRun` | src/printer.c:79-90 | whoever holds a mutex between two sections can take its next step |
| `Steps.StampsAreClockReadings` | src/job_receiver.c:117-145 | over every action: a timestamp, a wait, a refill time or the run's duration is taken from the clock reading of the step that sets it, a job keeps all its other data, a printer acts on the flags as it has just read them, and the receiver goes on to the next job after queueing or dropping one and sets the arrival flag when it ends |
| `Steps.LeavesIff` | src/printer.c:155-165 | a printer leaves in its next section exactly when it saw a stop or the run is over on its way to the queue, when the run is over after a job, or on a stop while it waits for paper |
| `Steps.BroadcastsWakeEverybody` | src/paper_refiller.c:53-58 | after every section that broadcasts, nobody waits unsignalled on that condition |
| `Supplies.RefillFifo` | src/paper_refiller.c:73-74 | in every reachable state the printers taken on followed by the refill queue are the printers that asked, in that order, and the refiller works for the last one taken on |
| `Supplies.NextMovesQueue` | src/printer.c:74-75 | over every action: a printer that asks joins the refill queue at its end, the refiller takes on the printer at its head, and nothing else moves the queue |
| `Supplies.RequestsAreServedInOrder` | src/paper_refiller.c:60-75 | in whatever run, a request with k others before it is taken on after exactly those k |
| `Supplies.SupplyIsRecorded` | src/paper_refiller.c:102-105 | number, papers and time of refills and each printer's time without paper are those of the refills and waits that took place |
| `Reports.ReportsAreTrue` | src/printer.c:127-140 | a printer reports to be idle exactly when it is not printing, and as completion time that of the job it has just printed or last departed with, 0 before its first |
| `Reports.CancelledOnRequest` | src/signalcatcher.c:43-46 | exactly when the receiver and the refiller can be cancelled: in their sleep, once the stop is recorded, and the refiller also once a printer has exited |
| `Drain.NextDecreases` | src/printer.c:40-169 | every section of every thread, the stop handler included, lowers an explicit non-negative measure |
| `Drain.RunsAreFinite` | src/job_receiver.c:90-171 | without spurious wake-ups no schedule for n printers, stopped or not, is longer than jobs * (5n + 26) + n * (2n + 17) + 14 sections |
| `Drain.QuiescentIsDrained` | src/printer.c:155-183 | when no thread can move: without a stop the queue is empty and arrived = number of jobs = served + dropped; after a stop arrived = served + dropped + removed + r with r <= 1 left in the queue; each printer has exited or sleeps for paper with the refiller gone |
| `Drain.EveryStateDrains` | src/paper_refiller.c:43-115 | from every state satisfying the invariant, stopped or not, some run of the program's own steps ends in such a drained state |
| `Joining.EnoughPaper` | src/printer.c:66 | when a full printer has paper for all jobs, the front job never needs more than the printer has |
| `Joining.ExitsAlways` | src/printer.c:171-183 | with one printer, or paper for all jobs, every printer has exited when nothing can move |
| `Stranding.LoneRun` | src/printer.c:66-75 | otherwise a run brings printer 0 to the point of asking for paper |
| `Stranding.OthersRun` | src/printer.c:171-181 | ... while the others run until none of them can move, in a stopped run or not |
| `Stranding.Strands` | src/printer.c:78-79 | ... and its request then puts it to sleep in a state in which nobody can move |
| `Stranding.PrintersExitIff` | src/printer.c:171-183 | with a printer waiting on the need it saw, every run without a stop ends with all printer threads gone if and only if there is one printer or largest job * jobs <= capacity |
| `Stopping.NextAddsNoWork` | src/printer.c:42-52 | once the run is stopped no section of any thread raises the number of jobs served plus jobs still to be served |
| `Stopping.StopEndsService` | src/printer.c:42-52 | after a stop, under any schedule, at most one more job per printer is served |
| `Stopping.SleepersAskedLate` | src/printer.c:77-89 | a printer asleep for paper when the stop handler is done asked no earlier than the recorded time of the stop |
| `Interference.NextLeavesAlone` | src/printer.c:176-179 | a section of one thread only wakes or refills the printers of others; the served flag is set only by a printer on its way out; nothing but the stop handler touches the stop flag and the duration |
| `Joining.StoppedExitsAlways` | src/printer.c:171-183 | with paper for all jobs every printer has exited at every end of a stopped run |
| `Stranding.StrandsStopped` | src/printer.c:77-89 | otherwise a stopped run, of any number of printers, ends with printer 0 asleep for paper |
| `Stranding.StoppedPrintersExitIff` | src/printer.c:77-89 | with a printer waiting on the need it saw, every stopped run ends with all printer threads gone if and only if largest job * jobs <= capacity |
| `Statistics.LittlesLaw` | src/simulation_stats.c:27-61 | average length * duration = average wait * served at the end of every drained run without a stop, also when the guards on a zero duration or zero jobs answer |
| `Statistics.LittlesLawAtRest` | src/simulation_stats.c:27-61 | the law holds in every reachable state without a stop in which no thread can move |
| `Statistics.AveragesAreTrue` | src/simulation_stats.c:15-32 | average queue wait and system time, times the jobs served and 1000000, are the sums of the jobs' own waits and system times; the guards answer 0 |
| `Statistics.QueueLengthIsTheIntegral` | src/simulation_stats.c:56-61 | average length times the length of the run is what the jobs have waited; 0 for a run that took no time |
| `Statistics.UtilizationIsTheShare` | src/simulation_stats.c:87-95 | a printer's utilisation times the length of the run is the sum of its jobs' service times; 0 outside the table and for a run that took no time |
| `Statistics.UtilizationIsAFraction` | src/simulation_stats.c:87-95 | every reported utilisation is between 0 and 1 |
| `Statistics.TotalPapersUsed` | src/simulation_stats.c:275-283 | the loop sums the entries below the highest printer used |
| `Statistics.OverallAverageServiceTime` | src/simulation_stats.c:285-296 | the loop's sum divided by the jobs served, in seconds |
| `Statistics.ReportedSumsAreTotal` | src/simulation_stats.c:279-294 | stopping at the highest printer used loses nothing; the table's jobs are those served by its printers, all of them if there are no more printers than entries; jobs and papers agree with the printers themselves |
| `Statistics.SquaresExceedBySpread` | src/console_handler.c:169-172 | n * sum of squares - squared sum is the sum of squared differences over all pairs |
| `Statistics.VarianceIsTheSpread` | src/simulation_stats.c:68-79 | the variance times the squared number of jobs is the sum of squared differences of system times over all pairs of jobs; 0 for at most one job |
| `Statistics.VarianceIsExact` | src/simulation_stats.c:68-79 | the variance is never negative before the clamp, and zero exactly when all system times are equal |
| `Statistics.InterArrivalCountsTheFirstWait` | src/simulation_stats.c:15-20 | the reported average times the number of gaps is the time from the start to the last arrival |
| `LinkedLists.LinkedList.constructor` | src/linked_list.c:129-143 | empty list between two linked sentinels |
| `LinkedLists.LinkedList.Length` | src/linked_list.c:6-8 | the counter is the number of members |
| `LinkedLists.LinkedList.IsEmpty` | src/linked_list.c:9-11 | true exactly for the empty sequence |
| `LinkedLists.LinkedList.Append` | src/linked_list.c:13-27 | contents grow at the back; both pointer chains spell the new sequence |
| `LinkedLists.LinkedList.AppendLeft` | src/linked_list.c:29-43 | contents grow at the front |
| `LinkedLists.LinkedList.Pop` | src/linked_list.c:44-53 | the last member, or null and no change |
| `LinkedLists.LinkedList.PopLeft` | src/linked_list.c:55-64 | the first member, or null and no change |
| `LinkedLists.Unlink` | src/linked_list.c:70-71 | rewiring the neighbours of an inner node leaves the chain of the other nodes linked both ways |
| `LinkedLists.LinkedList.Remove` | src/linked_list.c:66-74 | exactly the given member is unlinked; null or an empty list change nothing |
| `LinkedLists.LinkedList.Clear` | src/linked_list.c:76-81 | all members are unlinked |
| `LinkedLists.LinkedList.First` | src/linked_list.c:83-88 | first member or null |
| `LinkedLists.LinkedList.Last` | src/linked_list.c:90-95 | last member or null |
| `LinkedLists.LinkedList.Next` | src/linked_list.c:97-106 | the successor, null at the end and for null |
| `LinkedLists.LinkedList.Prev` | src/linked_list.c:108-117 | the predecessor, null at the front and for null |
| `LinkedLists.LinkedList.Find` | src/linked_list.c:119-127 | the first member with the data; for absent data null, but the tail sentinel when searching a nonempty list for the null pointer |
| `LinkedLists.LinkedList.WalkForward` | src/linked_list.c:83-106 | a first/next walk visits every node once in order and stops |
| `LinkedLists.LinkedList.WalkBackward` | src/linked_list.c:90-117 | a last/prev walk visits every node once in reverse and stops |
| `LinkedLists.PerformAll` | src/linked_list.c:13-81 | under any sequence of operations the pointers spell what the operations do to a sequence |
| `TimedQueues.TimedQueue.constructor` | src/timed_queue.c:7-17 | empty, stamped |
| `TimedQueues.TimedQueue.Enqueue` | src/timed_queue.c:33-43 | append and stamp |
| `TimedQueues.TimedQueue.EnqueueFront` | src/timed_queue.c:45-55 | prepend and stamp |
| `TimedQueues.TimedQueue.Dequeue` | src/timed_queue.c:57-67 | last element; stamped only if there was one |
| `TimedQueues.TimedQueue.DequeueFront` | src/timed_queue.c:69-79 | first element; stamped only if there was one |
| `TimedQueues.TimedQueue.Remove` | src/timed_queue.c:81-88 | the member goes; the stamp moves even if an empty list ignored the removal |
| `TimedQueues.TimedQueue.Clear` | src/timed_queue.c:90-97 | empty and stamped |
| `TimedQueues.TimedQueue.First` | src/timed_queue.c:99-105 | reads the first element without stamping |
| `TimedQueues.TimedQueue.Last` | src/timed_queue.c:107-113 | reads the last element without stamping |
| `Autoscaling.HighestIdle` | src/autoscaling.c:167-174 | the highest active and idle slot of the range, or -1 when there is none |
| `Autoscaling.TickKeepsPool` | src/autoscaling.c:105-204 | a tick keeps active_count the number of active slots, within its bounds, and all slots below the minimum active |
| `Autoscaling.RemovedIsLongIdleIff` | src/autoscaling.c:93-174 | the printer removed has been idle for the configured time exactly when no idle printer is above some printer that has |
| `Autoscaling.RunTicks` | src/autoscaling.c:211-235 | the same over every sequence of ticks |
| `Autoscaling.PrefixStaysPrefix` | src/autoscaling.c:168-188 | on a prefix every start succeeds, and the slots stay a prefix exactly when only the highest active slot is removed |
| `Autoscaling.StartUpIsOk` | src/printer.c:188-240 | the start-up pool satisfies the pool's invariant and is a prefix |
| `StuckPools.StuckForever` | src/autoscaling.c:105-204 | a pool whose next slot is taken or missing and whose removable range holds no active slot keeps its active slots under any ticks |
| `StuckPools.StuckIff` | src/autoscaling.c:105-204 | exactly those pools keep their size under every run of ticks; any other can change within two ticks |
| `StuckPools.FrozenForever` | src/autoscaling.c:110-115 | in particular a pool with slots 0..min-1 and min+1 active never changes again |
| `StuckPools.PrefixSticks` | src/autoscaling.c:168-188 | a prefix below the maximum gets stuck in one tick exactly by losing its lowest removable slot from under one other |
| `StuckPools.PoolOfOneStays` | src/autoscaling.c:19-30 | a pool of one stays a pool of one as long as every queue is shorter than 999999 |
| `StuckPools.PoolOfOneGrowsIff` | src/autoscaling.c:32-53 | a pool of one grows in a tick exactly when the cooldown is over and at least 999999 jobs are queued |
| `AutoscalerRuns.GetsStuck` | src/autoscaling.c:105-204 | a run from start-up with two printers, with reports and queue readings that printers and receiver can produce, ends in a pool that no later ticks change |
| `AutoscalerRuns.LoadDuringSustainedLow` | src/autoscaling.c:227-231 | a run from start-up with two printers, with reports and queue readings that printers and receiver can produce, in which a queue of 20 inside the five seconds does not prevent the scale-down |
| `AutoscalerRuns.RemovesBriefIdle` | src/autoscaling.c:167-179 | such a run in which slot 2 passes the idle test and slot 3, idle for no time, is removed |
| `PrinterPools.PrinterPool.constructor` | src/printer.c:188-207 | after the start loop the pool is the start-up pool: the first slots active, timers at zero |
| `PrinterPools.PrinterPool.StartPrinter` | src/printer.c:209-240 | starts the printer exactly when there is room and its slot is free, and counts it |
| `PrinterPools.PrinterPool.Receive` | src/printer.c:137-140 | the printers' reports change idle flag and completion time only |
| `PrinterPools.PrinterPool.ShouldScaleUp` | src/autoscaling.c:32-53 | room, cooldown and threshold |
| `PrinterPools.PrinterPool.ShouldScaleDown` | src/autoscaling.c:55-103 | the decision and the timer's new value in every branch; the search finds a long-idle slot if there is one |
| `PrinterPools.PrinterPool.ScaleUp` | src/autoscaling.c:105-155 | success exactly when the next slot is free; only success moves the timers |
| `PrinterPools.PrinterPool.ScaleDown` | src/autoscaling.c:157-204 | the highest idle slot above the minimum is removed, or nothing changes |
| `PrinterPools.PrinterPool.RunTick` | src/autoscaling.c:219-231 | one iteration computes one tick and keeps the pool's invariant |
| `PrinterPools.PrinterPool.Monitor` | src/autoscaling.c:211-235 | the loop computes the run of its ticks |
| `ScalingHistory.ScaleUpExactly` | src/autoscaling.c:19-53 | a scale-up is attempted exactly with room below five printers, 3 s after the last scaling, and at a queue of 10, 15 or 20 for two, three or four printers, 999999 for one |
| `ScalingHistory.ScaleDownExactly` | src/autoscaling.c:55-103 | a scale-down is decided exactly above the minimum, 3 s after the last scaling, with a queue below 5 that the timer has seen low for 5 s, and a removable printer idle for 5 s or done after the clock was read |
| `ScalingHistory.UpEffect` | src/autoscaling.c:105-155 | an attempted scale-up starts exactly the next slot, records its time and stops the timer, or changes nothing if that slot is taken |
| `ScalingHistory.DownEffect` | src/autoscaling.c:157-204 | a removal takes exactly the highest idle printer above the minimum, records its time and stops the timer, or changes no slot if none is idle |
| `ScalingHistory.RestEffect` | src/autoscaling.c:55-82 | any other tick changes no slot and starts, keeps or stops the timer by the source's rules |
| `ScalingHistory.CooldownHolds` | src/autoscaling.c:140-144 | in every run consecutive scale operations are recorded at least 3 s apart |
| `ScalingHistory.WindowIsBounded` | src/autoscaling.c:41-45 | a closed window of length T holds at most floor(T / 3 s) + 1 scale operations |
| `ScalingHistory.SustainedLow` | src/autoscaling.c:70-88 | before a scale-down decision the run goes back at least 5 s, and a tick of those 5 s saw a short queue, a pool above its minimum and no scaling exactly when it did not attempt a scale-up that failed |
| `ScalingHistory.TimerSurvivesLoad` | src/autoscaling.c:227-231 | a tick with a long queue leaves the low timer running exactly when it attempts a scale-up that fails |
| `ScalingHistory.PrefixRunsNeverFail` | src/autoscaling.c:168-188 | in a run that removes only the highest active slot every pool is a prefix and no scale-up fails, so every 5 s before a scale-down were low throughout |
| `ScalingHistory.IdleTestWraps` | src/autoscaling.c:93-95 | the unsigned idle test accepts five idle seconds or a completion after the clock was read, and nothing else |
| `LockOrder.ProgramIsOrdered` | src/autoscaling.c:108-138 | every nested acquisition of every thread function goes up one fixed rank, autoscaled printers with their shared mutex included, and no thread waits holding a second mutex |
| `LockOrder.RunKeepsSystem` | src/signalcatcher.c:49-57 | every run of any number of threads keeps each mutex held at most once and each thread's holdings as its code says |
| `LockOrder.NoDeadlock` | src/job_receiver.c:125-160 | in no reachable state of any number of threads does a chain of threads blocked on mutexes close into a cycle |
| `LockOrder.SleepersHoldNothing` | src/printer.c:59-79 | a thread asleep on a condition variable holds no mutex |
| `LockOrder.SomebodyMoves` | src/paper_refiller.c:44-70 | from every blocked thread a chain of blocked threads, each waiting for the next, leads to one that can obtain its mutex or is not blocked |

## Left out

* The web server, the WebSocket handler, HTTP, the log router, printing and JSON: no state of their own
  that the properties need; the handler's statistics updates equal the console's.
* Argument parsing: its ranges are the assumptions above.
* Cancellation of an autoscaled printer by `scale_down`: it can hit a thread inside a condition wait that
  then never releases the mutex (src/autoscaling.c:182), so it is outside the locking and progress models.
* Autoscaled printers in the refill protocol: they wait on a condition variable under a different mutex
  than the refiller's. They are in `LockOrder` only.
* Failure of `malloc` and `pthread_create`, null lists and queues, freeing of nodes and jobs: the heap model
  never reuses a node.
* Machine overflow and floating-point rounding: the squared system time is a 32-bit product in the source
  (src/console_handler.c:169-171) and an unbounded integer here; averages are exact reals, and the standard
  deviation stops at the variance, before the square root. Only the autoscaler's idle time wraps.
* Resets between runs of the server: the flags are never reset there (src/server.c:237-242), so a second run
  is not modelled.
* Drop probability, arrival rate and the per-printer average service time: plain quotients.
* The debugging accessors of the list and queue.
- PrintServices.PrintService.EmptyQueue: stamps all removed jobs with one clock reading, because no property reads the departure time of a removed job.
- LinkedLists.LinkedList.Remove: takes the position of the node as a ghost argument, which is how the contract says that the node is a member of this list.
