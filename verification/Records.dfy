/** The value types the print service works on: jobs, printers and statistics. */
module Records {

  // include/config.h: the per-printer statistics arrays have one entry per possible printer.
  const MAX_PRINTERS := 5

  /** What the command line fixes for a run.  Every job needs between 1 and `maxNeed` papers and
      a full printer can always print it.  `queueCapacity == -1` means unbounded. */
  datatype Config = Config(printers: nat, capacity: nat, maxNeed: nat, queueCapacity: int, jobs: nat) {
    ghost predicate Valid() {
      && 1 <= printers
      && 1 <= maxNeed <= capacity
      && (queueCapacity == -1 || 1 <= queueCapacity)
    }
  }

  /** A print job with the timestamps of its life cycle; a timestamp not yet taken is 0. */
  datatype Job = Job(id: nat, need: nat, systemArrival: nat, queueArrival: nat, queueDeparture: nat,
                     serviceArrival: nat, serviceDeparture: nat)

  /** A job that has left the system, with the index of the printer that served it. */
  datatype Service = Service(job: Job, printer: nat) {
    function SystemTime(): int { job.serviceDeparture - job.systemArrival }
    function QueueWait(): int { job.queueDeparture - job.queueArrival }
    function ServiceTime(): int { job.serviceDeparture - job.serviceArrival }
  }

  datatype PrinterStats = PrinterStats(served: nat, paperUsed: int, serviceTime: int, emptyTime: int)

  /** The statistics record.  The original's per-printer arrays are kept as one sequence of records. */
  datatype Stats = Stats(
    start: nat, duration: int,
    arrived: nat, served: nat, dropped: nat, removed: nat,
    interArrival: int, systemTime: int, systemTimeSquared: int, queueWait: int,
    area: int, maxLength: nat,
    perPrinter: seq<PrinterStats>, maxUsed: nat,
    refillEvents: nat, refillTime: int, papersRefilled: int)

  const NO_WORK := PrinterStats(0, 0, 0, 0)

  function InitStats(start: nat): Stats {
    Stats(start, 0, 0, 0, 0, 0, 0, 0, 0, 0, 0, 0, [NO_WORK, NO_WORK, NO_WORK, NO_WORK, NO_WORK], 0, 0, 0, 0)
  }

  // ---- what each event does to the statistics (src/console_handler.c) ----

  function OnSystemArrival(st: Stats, job: Job, previousArrival: nat): Stats {
    st.(arrived := st.arrived + 1, interArrival := st.interArrival + job.systemArrival - previousArrival)
  }

  function OnDropped(st: Stats): Stats {
    st.(dropped := st.dropped + 1)
  }

  /** `length` is the queue length with the new job in it. */
  function OnQueueArrival(st: Stats, job: Job, length: nat, last: nat): Stats {
    st.(area := st.area + (job.queueArrival - last) * (length - 1))
  }

  /** `length` is the queue length after the job left. */
  function OnQueueDeparture(st: Stats, job: Job, length: nat, last: nat): Stats {
    st.(area := st.area + (job.queueDeparture - last) * (length + 1))
  }

  function AddService(ps: PrinterStats, v: Service): PrinterStats {
    ps.(served := ps.served + 1, paperUsed := ps.paperUsed + v.job.need,
        serviceTime := ps.serviceTime + v.ServiceTime())
  }

  function OnSystemDeparture(st: Stats, v: Service): Stats {
    var st1 := st.(systemTime := st.systemTime + v.SystemTime(),
                   systemTimeSquared := st.systemTimeSquared + v.SystemTime() * v.SystemTime(),
                   served := st.served + 1,
                   queueWait := st.queueWait + v.QueueWait());
    if v.printer < MAX_PRINTERS && v.printer < |st.perPrinter| then
      st1.(perPrinter := st.perPrinter[v.printer := AddService(st.perPrinter[v.printer], v)],
           maxUsed := if v.printer + 1 > st.maxUsed then v.printer + 1 else st.maxUsed)
    else st1
  }

  function OnPaperWait(st: Stats, printer: nat, duration: int): Stats {
    if printer < MAX_PRINTERS && printer < |st.perPrinter| then
      var ps := st.perPrinter[printer];
      st.(perPrinter := st.perPrinter[printer := ps.(emptyTime := ps.emptyTime + duration)])
    else st
  }

  function OnRefilled(st: Stats, papers: int, duration: int): Stats {
    st.(papersRefilled := st.papersRefilled + papers, refillTime := st.refillTime + duration,
        refillEvents := st.refillEvents + 1)
  }
}
