/** The statistics record as the logging back end updates it in place (src/console_handler.c). */
module EventLogs {
  import opened Records

  class EventLog {
    var start: nat
    var duration: int
    var arrived: nat
    var served: nat
    var dropped: nat
    var removed: nat
    var interArrival: int
    var systemTime: int
    var systemTimeSquared: int
    var queueWait: int
    var area: int
    var maxLength: nat
    const perPrinter: array<PrinterStats>
    var maxUsed: nat
    var refillEvents: nat
    var refillTime: int
    var papersRefilled: int

    ghost predicate Valid() {
      perPrinter.Length == MAX_PRINTERS
    }

    ghost function View(): Stats
      reads this, perPrinter
    {
      Stats(start, duration, arrived, served, dropped, removed, interArrival, systemTime, systemTimeSquared,
            queueWait, area, maxLength, perPrinter[..], maxUsed, refillEvents, refillTime, papersRefilled)
    }

    /** Zeroed statistics with the simulation's start time. */
    constructor (now: nat)
      ensures Valid() && fresh(perPrinter) && View() == InitStats(now)
    {
      start, duration, arrived, served, dropped, removed := now, 0, 0, 0, 0, 0;
      interArrival, systemTime, systemTimeSquared, queueWait, area, maxLength := 0, 0, 0, 0, 0, 0;
      perPrinter := new PrinterStats[MAX_PRINTERS](_ => NO_WORK);
      maxUsed, refillEvents, refillTime, papersRefilled := 0, 0, 0, 0;
    }

    method LogSystemArrival(job: Job, previousArrival: nat)
      modifies this
      ensures View() == OnSystemArrival(old(View()), job, previousArrival)
    {
      arrived := arrived + 1;
      interArrival := interArrival + job.systemArrival - previousArrival;
    }

    method LogDropped()
      modifies this
      ensures View() == OnDropped(old(View()))
    {
      dropped := dropped + 1;
    }

    method LogQueueArrival(job: Job, length: nat, last: nat)
      modifies this
      ensures View() == OnQueueArrival(old(View()), job, length, last)
    {
      area := area + (job.queueArrival - last) * (length - 1);
    }

    /** The receiver records the length it found before it enqueued the job. */
    method LogLength(length: nat)
      modifies this
      ensures View() == old(View()).(maxLength := if length > old(maxLength) then length else old(maxLength))
    {
      if length > maxLength {
        maxLength := length;
      }
    }

    method LogRemoved()
      modifies `removed
      ensures removed == old(removed) + 1
    {
      removed := removed + 1;
    }

    method LogQueueDeparture(job: Job, length: nat, last: nat)
      modifies this
      ensures View() == OnQueueDeparture(old(View()), job, length, last)
    {
      area := area + (job.queueDeparture - last) * (length + 1);
    }

    method LogSystemDeparture(v: Service)
      requires Valid()
      modifies this, perPrinter
      ensures View() == OnSystemDeparture(old(View()), v)
    {
      ghost var before := perPrinter[..];
      systemTime := systemTime + v.SystemTime();
      systemTimeSquared := systemTimeSquared + v.SystemTime() * v.SystemTime();
      served := served + 1;
      var index := v.printer;
      if index < MAX_PRINTERS {
        perPrinter[index] := AddService(perPrinter[index], v);
        if index + 1 > maxUsed {
          maxUsed := index + 1;
        }
        assert perPrinter[..] == before[index := AddService(before[index], v)];
      }
      queueWait := queueWait + v.QueueWait();
    }

    method LogPaperWait(printer: nat, waited: int)
      requires Valid()
      modifies perPrinter
      ensures View() == OnPaperWait(old(View()), printer, waited)
    {
      ghost var before := perPrinter[..];
      if printer < MAX_PRINTERS {
        var ps := perPrinter[printer];
        perPrinter[printer] := ps.(emptyTime := ps.emptyTime + waited);
        assert perPrinter[..] == before[printer := ps.(emptyTime := ps.emptyTime + waited)];
      }
    }

    method LogRefill(papers: int, spent: int)
      modifies this
      ensures View() == OnRefilled(old(View()), papers, spent)
    {
      papersRefilled := papersRefilled + papers;
      refillTime := refillTime + spent;
      refillEvents := refillEvents + 1;
    }

    /** The end of the simulation, or the stop request. */
    method LogEnd(now: nat)
      modifies this
      ensures View() == old(View()).(duration := now - old(start))
    {
      duration := now - start;
    }
  }
}
