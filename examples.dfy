/** Clients of a Backoff that replay the scenarios of the package's tests and
    examples, for every draw the random source may make. */
module BackoffExamples {
  import opened Backoff

  /** Initial 10ms: the bases are 10ms, 20ms and 40ms, and each wait lies in
      the upper half of its base. */
  method DoublingWaits(r1: int, r2: int, r3: int) returns (d1: int, d2: int, d3: int)
    requires 0 <= r1 < 5 * Millisecond
    requires 0 <= r2 < 10 * Millisecond
    requires 0 <= r3 < 20 * Millisecond
    ensures 5 * Millisecond <= d1 < 10 * Millisecond
    ensures 10 * Millisecond <= d2 < 20 * Millisecond
    ensures 20 * Millisecond <= d3 < 40 * Millisecond
  {
    var w := new Backoff(0, 10 * Millisecond, 0, 0);
    var e;
    d1, e := w.Advance(r1);
    d2, e := w.Advance(r2);
    d3, e := w.Advance(r3);
  }

  /** Initial 10ms and Peak 15ms: the second wait is clamped to at most
      15ms and the third, whose base is 40ms, is exactly 15ms. */
  method PeakWaits(r1: int, r2: int, r3: int) returns (d1: int, d2: int, d3: int)
    requires 0 <= r1 < 5 * Millisecond
    requires 0 <= r2 < 10 * Millisecond
    requires 0 <= r3 < 20 * Millisecond
    ensures 5 * Millisecond <= d1 < 10 * Millisecond
    ensures 10 * Millisecond <= d2 <= 15 * Millisecond
    ensures d3 == 15 * Millisecond
  {
    var w := new Backoff(15 * Millisecond, 10 * Millisecond, 0, 0);
    var e;
    d1, e := w.Advance(r1);
    d2, e := w.Advance(r2);
    d3, e := w.Advance(r3);
  }

  /** Initial 10ms, then SetNext(5ms) before the second call: the second wait
      is exactly 5ms, and the third is jittered from the base 40ms, because
      the base kept doubling under the override. */
  method OverrideWaits(r1: int, r3: int) returns (d1: int, d2: int, d3: int)
    requires 0 <= r1 < 5 * Millisecond
    requires 0 <= r3 < 20 * Millisecond
    ensures 5 * Millisecond <= d1 < 10 * Millisecond
    ensures d2 == 5 * Millisecond
    ensures 20 * Millisecond <= d3 < 40 * Millisecond
  {
    var w := new Backoff(0, 10 * Millisecond, 0, 0);
    var e;
    d1, e := w.Advance(r1);
    w.SetNext(5 * Millisecond);
    d2, e := w.Advance(0);
    d3, e := w.Advance(r3);
  }

  /** Initial 100ms, Peak 200ms, Limit 5, MaxAge 2s, waiting without a
      context that is ever done: five waits succeed (their total stays below
      one second, far from MaxAge) and the sixth reports the limit. */
  method LimitedWaits(r1: int, r2: int, r3: int, r4: int, r5: int) returns (errs: seq<Option<Error>>)
    requires 0 <= r1 < 50 * Millisecond
    requires 0 <= r2 < 100 * Millisecond
    requires 0 <= r3 < 200 * Millisecond
    requires 0 <= r4 < 400 * Millisecond
    requires 0 <= r5 < 800 * Millisecond
    ensures errs == [None, None, None, None, None, Some(LimitReached)]
  {
    var w := new Backoff(200 * Millisecond, 100 * Millisecond, 5, 2 * Second);
    var e1 := w.Wait(r1, TimerFired);
    var e2 := w.Wait(r2, TimerFired);
    var e3 := w.Wait(r3, TimerFired);
    var e4 := w.Wait(r4, TimerFired);
    var e5 := w.Wait(r5, TimerFired);
    var e6 := w.Wait(0, TimerFired);
    errs := [e1, e2, e3, e4, e5, e6];
  }

  /** Initial 500ms and a context whose deadline passes after 100ms: the
      drawn wait is at least 250ms, so the deadline wins the race, Wait
      reports it, and the attempt still counts. */
  method DeadlineWait(r: int) returns (dur: int, err: Option<Error>, attempts: int)
    requires 0 <= r < 250 * Millisecond
    ensures 250 * Millisecond <= dur < 500 * Millisecond
    ensures err == Some(Context(DeadlineExceeded))
    ensures attempts == 1
  {
    var deadline := 100 * Millisecond;
    var w := new Backoff(0, 500 * Millisecond, 0, 0);
    var e;
    dur, e := w.Advance(r);
    err := if e.Some? then e
           else RaceResult(if deadline < dur then ContextDone(DeadlineExceeded) else TimerFired);
    attempts := w.n;
  }
}
