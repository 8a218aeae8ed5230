/**
 * The process-wide metrics reporter: a success flag, a fatal message and an
 * append-only list of timing points, written out as one JSON document.
 */
module Reporting {
  import opened Environment

  /** One timing observation: a scenario id, the run it belongs to, microseconds. */
  datatype BPoint = BPoint(id: string, iteration: int, value: real)

  /** What WriteOut encodes: the reporter's three fields. */
  datatype ReportDoc = ReportDoc(ok: bool, fatalMsg: string, metrics: seq<BPoint>)

  /** The zero value of a BPoint. */
  const ZERO_POINT := BPoint("", 0, 0.0)

  /** Initialisation makes the metrics slice with this length, not only this capacity. */
  const PREFILLED := 1024

  /** The elapsed time between two clock readings, in microseconds. */
  function Elapsed(start: Instant, now: Instant): (us: real)
    ensures start <= now <==> us >= 0.0
    ensures now == start + 1000 ==> us == 1.0
  {
    (now - start) as real / 1000.0
  }

  class Reporter {
    var ok: bool
    var fatalMsg: string
    var metrics: seq<BPoint>

    /** The first PREFILLED points are the zero points put there by initialisation. */
    ghost predicate Prefilled()
      reads this
    {
      |metrics| >= PREFILLED && forall i :: 0 <= i < PREFILLED ==> metrics[i] == ZERO_POINT
    }

    /** The package initialiser. */
    constructor ()
      ensures ok && fatalMsg == ""
      ensures |metrics| == PREFILLED && Prefilled()
    {
      ok := true;
      fatalMsg := "";
      metrics := seq(PREFILLED, _ => ZERO_POINT);
    }

    /** Records the failure; the caller then writes the report out and exits the process. */
    method Fatal(msg: string) returns (written: ReportDoc)
      modifies this
      ensures !ok && fatalMsg == msg && metrics == old(metrics)
      ensures written == ReportDoc(false, msg, old(metrics))
      ensures old(Prefilled()) ==> Prefilled()
    {
      ok := false;
      fatalMsg := msg;
      written := WriteOut();
    }

    method Metric(id: string, iteration: int, value: real)
      modifies this
      ensures metrics == old(metrics) + [BPoint(id, iteration, value)]
      ensures ok == old(ok) && fatalMsg == old(fatalMsg)
      ensures old(Prefilled()) ==> Prefilled()
    {
      metrics := metrics + [BPoint(id, iteration, value)];
    }

    /** Appends the time elapsed since `start`, read from the clock now. */
    method DeltaMetric(id: string, iteration: int, start: Instant, clock: Clock)
      modifies this, clock
      ensures metrics == old(metrics) + [BPoint(id, iteration, Elapsed(start, clock.reading(old(clock.ticks))))]
      ensures clock.ticks == old(clock.ticks) + 1
      ensures ok == old(ok) && fatalMsg == old(fatalMsg)
      ensures old(Prefilled()) ==> Prefilled()
    {
      var us := FinishTimer(start, clock);
      Metric(id, iteration, us);
    }

    /** The document written to benchmarkresult.json; the reporter is left as it was. */
    method WriteOut() returns (written: ReportDoc)
      ensures written == ReportDoc(ok, fatalMsg, metrics)
    {
      written := ReportDoc(ok, fatalMsg, metrics);
    }

    /** Reads the clock; the reporter is left as it was. */
    method StartTimer(clock: Clock) returns (t: Instant)
      modifies clock
      ensures t == clock.reading(old(clock.ticks)) && clock.ticks == old(clock.ticks) + 1
    {
      t := clock.Now();
    }

    /** Reads the clock and returns the microseconds elapsed since t. */
    method FinishTimer(t: Instant, clock: Clock) returns (us: real)
      modifies clock
      ensures us == Elapsed(t, clock.reading(old(clock.ticks))) && clock.ticks == old(clock.ticks) + 1
    {
      var now := clock.Now();
      us := Elapsed(t, now);
    }
  }
}
