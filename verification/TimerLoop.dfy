/**
 The expiration loop in main of timer_template/timerfd/timerfd.cpp: it adds up the expiration counts it
 reads and reports the time since the start, rounded to milliseconds.
 */
module TimerLoop {
  import opened Integers

  const BILLION: int := 1_000_000_000
  const MILLION: int := 1_000_000

  datatype Timespec = Timespec(sec: int, nsec: int)

  /** One pass of the loop: the count that read() delivers and the clock after it. */
  datatype Reading = Reading(expirations: nat, now: Timespec)

  /** What a pass prints: seconds, the millisecond field, and the values of num_loop and total_loop. */
  datatype Report = Report(secs: int, millis: int, numLoop: int, totalLoop: int)

  ghost predicate Normalised(t: Timespec) { 0 <= t.nsec < BILLION }

  function Nanos(t: Timespec): int { t.sec * BILLION + t.nsec }

  /** A monotonic clock never goes back. */
  ghost predicate Monotonic(start: Timespec, readings: seq<Reading>) {
    && Normalised(start)
    && (forall i | 0 <= i < |readings| :: Normalised(readings[i].now) && Nanos(start) <= Nanos(readings[i].now))
    && (forall i, j | 0 <= i < j < |readings| :: Nanos(readings[i].now) <= Nanos(readings[j].now))
  }

  /** Lines 97-102. */
  method Elapsed(start: Timespec, now: Timespec) returns (secs: int, nsecs: int)
    requires Normalised(start) && Normalised(now)
    ensures 0 <= nsecs < BILLION
    ensures secs * BILLION + nsecs == Nanos(now) - Nanos(start)
  {
    secs := now.sec - start.sec;
    nsecs := now.nsec - start.nsec;
    if nsecs < 0 {
      secs := secs - 1;
      nsecs := nsecs + BILLION;
    }
  }

  /** Milliseconds from start to now, half a millisecond rounding up. */
  function RoundedMillis(start: Timespec, now: Timespec): int {
    (Nanos(now) - Nanos(start) + MILLION / 2) / MILLION
  }

  /** The first k counts, added up. */
  function Expirations(readings: seq<Reading>, k: nat): nat
    requires k <= |readings|
  {
    if k == 0 then 0 else Expirations(readings, k - 1) + readings[k - 1].expirations
  }

  /** The value of total_loop after k passes. */
  function Total(readings: seq<Reading>, k: nat): int
    requires k <= |readings|
  {
    Wrap32(Expirations(readings, k))
  }

  /** The loop reads on for as long as total_loop is short of maxLoop. */
  ghost predicate Consumed(readings: seq<Reading>, maxLoop: int, k: nat) {
    && k <= |readings|
    && (forall i | 0 <= i < k :: Total(readings, i) < maxLoop)
    && (k < |readings| ==> maxLoop <= Total(readings, k))
  }

  ghost predicate Reports(start: Timespec, reading: Reading, total: int, r: Report) {
    && r.secs * BILLION <= Nanos(reading.now) - Nanos(start) < (r.secs + 1) * BILLION
    && r.secs * 1000 + r.millis == RoundedMillis(start, reading.now)
    && r.numLoop == Wrap32(reading.expirations)
    && r.totalLoop == total
  }

  /** Every pass so far reported its own reading and the total up to it. */
  ghost predicate AllReport(start: Timespec, readings: seq<Reading>, reports: seq<Report>) {
    && |reports| <= |readings|
    && forall i | 0 <= i < |reports| :: Reports(start, readings[i], Total(readings, i + 1), reports[i])
  }

  lemma {:induction false} ReportAdded(start: Timespec, readings: seq<Reading>, reports: seq<Report>, r: Report)
    requires AllReport(start, readings, reports) && |reports| < |readings|
    requires Reports(start, readings[|reports|], Total(readings, |reports| + 1), r)
    ensures AllReport(start, readings, reports + [r])
  {
    var all := reports + [r];
    forall i | 0 <= i < |all| ensures Reports(start, readings[i], Total(readings, i + 1), all[i]) {
      if i < |reports| {
        assert all[i] == reports[i];
      }
    }
  }

  /** Rounding the nanosecond part alone and adding whole seconds rounds the whole. */
  lemma {:induction false} RoundParts(secs: int, nsecs: int)
    requires 0 <= nsecs < BILLION
    ensures secs * 1000 + (nsecs + MILLION / 2) / MILLION == (secs * BILLION + nsecs + MILLION / 2) / MILLION
  {
    var x := nsecs + MILLION / 2;
    assert secs * BILLION + x == MILLION * (secs * 1000 + x / MILLION) + x % MILLION;
  }

  /** Lines 97-106. */
  method MakeReport(start: Timespec, reading: Reading, totalLoop: int) returns (r: Report)
    requires Normalised(start) && Normalised(reading.now)
    ensures Reports(start, reading, totalLoop, r)
  {
    var secs, nsecs := Elapsed(start, reading.now);
    RoundParts(secs, nsecs);
    r := Report(secs, (nsecs + MILLION / 2) / MILLION, Wrap32(reading.expirations), totalLoop);
  }

  lemma {:induction false} TotalAdds(readings: seq<Reading>, k: nat)
    requires k < |readings|
    ensures Wrap32(Total(readings, k) + Wrap32(readings[k].expirations)) == Total(readings, k + 1)
  {
    WrapAdds(Expirations(readings, k), readings[k].expirations);
  }

  /** total_loop += num_loop. */
  method AddCount(totalLoop: int, count: nat) returns (sum: int)
    ensures sum == Wrap32(totalLoop + Wrap32(count))
  {
    var numLoop := Wrap32(count);
    sum := Wrap32(totalLoop + numLoop);
  }

  /** Lines 79-107; it ends early only where it would block, when there is no further reading. */
  method Loop(start: Timespec, maxLoop: int, readings: seq<Reading>) returns (reports: seq<Report>, totalLoop: int)
    requires Monotonic(start, readings)
    ensures Consumed(readings, maxLoop, |reports|)
    ensures totalLoop == Total(readings, |reports|)
    ensures AllReport(start, readings, reports)
  {
    reports, totalLoop := [], 0;
    while totalLoop < maxLoop && |reports| < |readings|
      invariant |reports| <= |readings|
      invariant totalLoop == Total(readings, |reports|)
      invariant forall i | 0 <= i < |reports| :: Total(readings, i) < maxLoop
      invariant AllReport(start, readings, reports)
      decreases |readings| - |reports|
    {
      var k := |reports|;
      TotalAdds(readings, k);
      totalLoop := AddCount(totalLoop, readings[k].expirations);
      var r := MakeReport(start, readings[k], totalLoop);
      ReportAdded(start, readings, reports, r);
      reports := reports + [r];
    }
  }

  // ----- the reported counts

  lemma {:induction false} ExpirationsGrow(readings: seq<Reading>, i: nat, j: nat)
    requires i <= j <= |readings|
    ensures Expirations(readings, i) <= Expirations(readings, j)
    decreases j - i
  {
    if i < j {
      ExpirationsGrow(readings, i, j - 1);
    }
  }

  /** What the counts in the reports are meant to be. */
  ghost predicate CountsExact(readings: seq<Reading>, reports: seq<Report>) {
    && |reports| <= |readings|
    && forall i | 0 <= i < |reports| ::
         reports[i].numLoop == readings[i].expirations && reports[i].totalLoop == Expirations(readings, i + 1)
  }

  /** The count of one pass is exact if and only if it is within int, and else its low 32 bits as an int. */
  lemma {:induction false} CountExactly(start: Timespec, reading: Reading, total: int, r: Report)
    requires Reports(start, reading, total, r)
    ensures r.numLoop == reading.expirations <==> reading.expirations <= INT_MAX
    ensures -0x8000_0000 <= r.numLoop < 0x8000_0000 && (reading.expirations - r.numLoop) % 0x1_0000_0000 == 0
  {
    WrapExact(reading.expirations);
    WrapsExactly(reading.expirations);
  }

  /** All reported counts are exact if and only if all expirations together are within int. */
  lemma {:induction false} CountsExactly(start: Timespec, readings: seq<Reading>, reports: seq<Report>)
    requires AllReport(start, readings, reports)
    ensures CountsExact(readings, reports) <==> Expirations(readings, |reports|) <= INT_MAX
  {
    if Expirations(readings, |reports|) <= INT_MAX {
      forall i | 0 <= i < |reports|
        ensures reports[i].numLoop == readings[i].expirations
        ensures reports[i].totalLoop == Expirations(readings, i + 1)
      {
        ExpirationsGrow(readings, i + 1, |reports|);
        WrapExact(readings[i].expirations);
        WrapExact(Expirations(readings, i + 1));
        assert Reports(start, readings[i], Total(readings, i + 1), reports[i]);
      }
    } else {
      var last := |reports| - 1;
      WrapExact(Expirations(readings, last + 1));
      assert Reports(start, readings[last], Total(readings, last + 1), reports[last]);
    }
  }

  ghost predicate AllBelow(readings: seq<Reading>, maxLoop: int, k: nat)
    requires k <= |readings|
  {
    forall i | 0 <= i < k :: Expirations(readings, i) < maxLoop
  }

  /** The loop is meant to consume k readings: up to the first that brings the expirations to maxLoop,
      or all of them when none does. */
  ghost predicate Intended(readings: seq<Reading>, maxLoop: int, k: nat) {
    k <= |readings| && AllBelow(readings, maxLoop, k) && (k < |readings| ==> maxLoop <= Expirations(readings, k))
  }

  lemma {:induction false} TotalOfBelow(x: nat, maxLoop: int)
    requires x < maxLoop
    ensures Wrap32(x) < maxLoop
  {
  }

  /** When the expirations x have reached maxLoop, which is positive or x is zero, so has total_loop,
      exactly if the low 32 bits of x have, and are not negative as an int. */
  lemma {:induction false} TotalReaches(x: nat, maxLoop: int)
    requires maxLoop <= x && (x == 0 || 0 < maxLoop)
    ensures maxLoop <= Wrap32(x) <==> maxLoop <= x % 0x1_0000_0000 <= INT_MAX
  {
  }

  /** The loop is never left early. It is left where it should be if and only if the low 32 bits of the
      expirations have reached maxLoop there and are not negative as an int; else it reads on. */
  lemma {:induction false} StopsExactly(readings: seq<Reading>, maxLoop: int, k: nat)
    requires Intended(readings, maxLoop, k)
    ensures Consumed(readings, maxLoop, k) <==>
            (k < |readings| ==> maxLoop <= Expirations(readings, k) % 0x1_0000_0000 <= INT_MAX)
    ensures forall j | Consumed(readings, maxLoop, j) :: k <= j
  {
    forall i | 0 <= i < k ensures Total(readings, i) < maxLoop {
      assert Expirations(readings, i) < maxLoop;
      TotalOfBelow(Expirations(readings, i), maxLoop);
    }
    if k < |readings| {
      assert k > 0 ==> Expirations(readings, 0) < maxLoop;
      TotalReaches(Expirations(readings, k), maxLoop);
    }
  }

  /** Within int, the loop consumes what it is meant to. */
  lemma {:induction false} StopsAtMaxLoop(readings: seq<Reading>, maxLoop: int, k: nat)
    requires k <= |readings| && Expirations(readings, k) <= INT_MAX
    ensures Consumed(readings, maxLoop, k) <==> Intended(readings, maxLoop, k)
  {
    if Consumed(readings, maxLoop, k) {
      forall i | 0 <= i < k ensures Expirations(readings, i) < maxLoop {
        ExpirationsGrow(readings, i, k);
        WrapExact(Expirations(readings, i));
        assert Total(readings, i) < maxLoop;
      }
      WrapExact(Expirations(readings, k));
    }
    if Intended(readings, maxLoop, k) {
      StopsExactly(readings, maxLoop, k);
    }
  }

  /** An instance where it reads on: a first count of INT_MAX + 1 makes the total negative, and a loop
      that is meant to stop after one expiration does not. */
  lemma {:induction false} TotalOverflows(readings: seq<Reading>)
    requires |readings| == 2 && readings[0].expirations == INT_MAX + 1
    ensures Intended(readings, 1, 1) && Total(readings, 1) < 0 && !Consumed(readings, 1, 1)
  {
    assert Expirations(readings, 0) == 0;
    StopsExactly(readings, 1, 1);
  }

  // ----- the reported times

  /** Reported times do not go back from one pass to the next. */
  lemma {:induction false} ReportsNondecreasing(
    start: Timespec, readings: seq<Reading>, i: nat, j: nat, r: Report, q: Report)
    requires Monotonic(start, readings) && i < j < |readings|
    requires Reports(start, readings[i], Total(readings, i + 1), r)
    requires Reports(start, readings[j], Total(readings, j + 1), q)
    ensures 0 <= r.secs * 1000 + r.millis <= q.secs * 1000 + q.millis
  {
  }

  /** The report is within half a millisecond of the time that has passed, above rather than below at the
      middle; its seconds are the whole ones. */
  lemma {:induction false} ReportRounds(start: Timespec, reading: Reading, total: int, r: Report)
    requires Normalised(start) && Normalised(reading.now) && Reports(start, reading, total, r)
    ensures var elapsed := (reading.now.sec - start.sec) * 1_000_000_000 + reading.now.nsec - start.nsec;
            && -500_000 < (r.secs * 1000 + r.millis) * 1_000_000 - elapsed <= 500_000
            && r.secs * 1_000_000_000 <= elapsed < (r.secs + 1) * 1_000_000_000
  {
  }

  /** The millisecond field has three digits exactly when the time is less than half a millisecond
      short of the next second; otherwise it is 1000 and nothing is carried. */
  lemma {:induction false} MillisField(start: Timespec, reading: Reading, total: int, r: Report)
    requires Normalised(start) && Normalised(reading.now)
    requires Reports(start, reading, total, r)
    ensures 0 <= r.millis <= 1000
    ensures r.millis < 1000 <==> (Nanos(reading.now) - Nanos(start)) % BILLION < 999_500_000
  {
    var elapsed := Nanos(reading.now) - Nanos(start);
    assert elapsed / BILLION == r.secs;
  }

  /** The field does reach 1000: 0.9996 s after the start the report is 0 seconds and 1000 ms. */
  lemma {:induction false} FieldOverflows()
    ensures Reports(Timespec(0, 0), Reading(1, Timespec(0, 999_600_000)), 1, Report(0, 1000, 1, 1))
  {
  }
}
