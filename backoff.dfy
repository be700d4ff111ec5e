/** A model of the exponential backoff clock of package backoff.

    Durations are Go `time.Duration` values: counts of nanoseconds. The random
    draw `defaultRand.Int63n(w)` is not computed here: every operation that
    draws takes the drawn value as a parameter `draw` and requires what
    `Int63n` promises, `0 <= draw < w`, so every property holds for every draw.
 */
module Backoff {

  const Millisecond: int := 1_000_000
  const Second: int := 1_000_000_000

  const WeightDiv: int := 2
  const Multiplier: int := 2
  const DefaultInterval: int := Second

  /** The largest `time.Duration` (an int64). */
  const MaxDuration: int := 0x7FFF_FFFF_FFFF_FFFF

  datatype Option<T> = None | Some(value: T)

  /** What `ctx.Err()` reports once the context is done. */
  datatype ContextError = Canceled | DeadlineExceeded

  /** errLimitReached, errExpired, or the error of the caller's context. */
  datatype Error = LimitReached | Expired | Context(cause: ContextError)

  /** The `(time.Duration, error)` pair that Advance returns. */
  datatype Reply = Reply(d: int, err: Option<Error>)

  /** The exported fields of a Backoff: Peak, Initial, Limit and MaxAge. */
  datatype Config = Config(peak: int, initial: int, limit: int, maxAge: int)

  /** The unexported fields of a Backoff: retry count n, last base d, total age, override next. */
  datatype Clock = Clock(n: int, d: int, age: int, next: int)

  /** The new clock together with the reply of one call of Advance. */
  datatype Outcome = Outcome(clock: Clock, reply: Reply)

  function Min(a: int, b: int): int {
    if a <= b then a else b
  }

  function Pow2(k: nat): (p: nat)
    ensures p >= 1
  {
    if k == 0 then 1 else 2 * Pow2(k - 1)
  }

  /** weighted: the base d shifted down by half of it, plus a draw in [0, d/2).
      The result lies in [d - d/2, d), that is below d and never in the upper
      half [d, 1.5 d) that the doc-comment of weighted announces. */
  function Weighted(d: int, draw: int): (r: int)
    requires d >= WeightDiv
    requires 0 <= draw < d / WeightDiv
    ensures d - d / WeightDiv <= r < d
    ensures d / WeightDiv <= r
  {
    d - d / WeightDiv + draw
  }

  /** Every duration of [d - d/2, d) is produced by some draw: the range of
      Weighted is exactly that interval. */
  lemma WeightedCoversRange(d: int, v: int)
    requires d >= WeightDiv
    requires d - d / WeightDiv <= v < d
    ensures exists draw :: 0 <= draw < d / WeightDiv && Weighted(d, draw) == v
  {
    var draw := v - (d - d / WeightDiv);
    assert Weighted(d, draw) == v;
  }

  /** The base stored by the first advance: Initial when positive, otherwise one second. */
  function FirstBase(initial: int): int {
    if initial > 0 then initial else DefaultInterval
  }

  /** An Initial that weighted can work with: unset (the default applies) or at least WeightDiv. */
  predicate ValidInitial(initial: int) {
    initial <= 0 || WeightDiv <= initial <= MaxDuration
  }

  /** One doubling of the base. It stops at MaxDuration instead of wrapping
      around as the int64 multiplication does (see module Int64Doubling). */
  function Double(d: int): (r: int)
    requires 0 <= d <= MaxDuration
    ensures r == Min(Multiplier * d, MaxDuration)
    ensures d <= r
  {
    if d > MaxDuration / Multiplier then MaxDuration else d * Multiplier
  }

  /** The base after k calls of advance from a fresh clock. */
  function Schedule(initial: int, k: nat): (b: int)
    requires ValidInitial(initial)
    requires k >= 1
    ensures WeightDiv <= b <= MaxDuration
  {
    if k == 1 then FirstBase(initial) else Double(Schedule(initial, k - 1))
  }

  /** The base is the first base times 2^(k-1), until it reaches the largest duration. */
  lemma {:induction false} ScheduleClosedForm(initial: int, k: nat)
    requires ValidInitial(initial)
    requires k >= 1
    ensures Schedule(initial, k) == Min(FirstBase(initial) * Pow2(k - 1), MaxDuration)
  {
    if k > 1 {
      ScheduleClosedForm(initial, k - 1);
      var f := FirstBase(initial);
      assert f * Pow2(k - 1) == Multiplier * (f * Pow2(k - 2));
    }
  }

  /** While the product fits in a duration, the k-th base is exactly Initial * 2^(k-1). */
  lemma ScheduleDoubles(initial: int, k: nat)
    requires ValidInitial(initial)
    requires k >= 1
    requires FirstBase(initial) * Pow2(k - 1) <= MaxDuration
    ensures Schedule(initial, k) == FirstBase(initial) * Pow2(k - 1)
    ensures k > 1 ==> Schedule(initial, k) == Multiplier * Schedule(initial, k - 1)
  {
    ScheduleClosedForm(initial, k);
    if k > 1 {
      ScheduleClosedForm(initial, k - 1);
      var f := FirstBase(initial);
      assert f * Pow2(k - 1) == Multiplier * (f * Pow2(k - 2));
    }
  }

  /** The clock fields as advance leaves them: n counts calls, and after a call
      the base is a duration weighted can divide. Before the first call only
      Initial matters. */
  predicate WellFormed(c: Config, s: Clock) {
    s.n >= 0 &&
    (s.n == 0 ==> ValidInitial(c.initial)) &&
    (s.n > 0 ==> WeightDiv <= s.d <= MaxDuration)
  }

  /** The base the next advance stores. */
  function NextBase(c: Config, s: Clock): (b: int)
    requires WellFormed(c, s)
    ensures WeightDiv <= b <= MaxDuration
  {
    if s.n == 0 then FirstBase(c.initial) else Double(s.d)
  }

  /** The base follows Schedule: after n calls it is the n-th scheduled base. */
  predicate OnSchedule(c: Config, s: Clock) {
    s.n > 0 ==> ValidInitial(c.initial) && s.d == Schedule(c.initial, s.n)
  }

  /** advance: one attempt without the limits. It counts the attempt, moves the
      base, consumes the override and returns the override when positive,
      otherwise the jittered base. */
  function UncheckedStep(c: Config, s: Clock, draw: int): (r: (Clock, int))
    requires WellFormed(c, s)
    requires 0 <= draw < NextBase(c, s) / WeightDiv
    ensures WellFormed(c, r.0)
    ensures r.0.n == s.n + 1 && r.0.d == NextBase(c, s) && r.0.next == 0 && r.0.age == s.age
    ensures s.next > 0 ==> r.1 == s.next
    ensures s.next <= 0 ==> r.0.d - r.0.d / WeightDiv <= r.1 < r.0.d
    ensures 0 < r.1
  {
    var b := NextBase(c, s);
    (Clock(s.n + 1, b, s.age, 0), if s.next > 0 then s.next else Weighted(b, draw))
  }

  /** Advance: refuses once Limit attempts were made; otherwise advances,
      clamps to Peak, adds the duration to age and reports expiry once age
      reaches MaxAge. */
  function Step(c: Config, s: Clock, draw: int): (o: Outcome)
    requires WellFormed(c, s)
    requires 0 <= draw < NextBase(c, s) / WeightDiv
    ensures WellFormed(c, o.clock)
    // the limit: refused, and nothing changes
    ensures o.reply.err == Some(LimitReached) <==> c.limit > 0 && s.n >= c.limit
    ensures o.reply.err == Some(LimitReached) ==> o.clock == s
    // any other call counts one attempt, moves the base and consumes the override
    ensures o.reply.err != Some(LimitReached) ==>
      o.clock.n == s.n + 1 && o.clock.d == NextBase(c, s) && o.clock.next == 0
    // age grows by a positive duration no greater than Peak
    ensures o.reply.err != Some(LimitReached) ==>
      s.age < o.clock.age && (c.peak > 0 ==> o.clock.age <= s.age + c.peak)
    // expiry: the new age reached MaxAge; the attempt is not rolled back
    ensures o.reply.err == Some(Expired) <==>
      o.reply.err != Some(LimitReached) && c.maxAge > 0 && o.clock.age >= c.maxAge
    ensures o.reply.err.Some? ==> o.reply.d == 0 && o.reply.err.value in {LimitReached, Expired}
    // success: a positive duration, within Peak, and exactly what age grew by
    ensures o.reply.err.None? ==>
      0 < o.reply.d && o.clock.age == s.age + o.reply.d && (c.peak > 0 ==> o.reply.d <= c.peak)
    // the override is returned unjittered, clamped to Peak
    ensures o.reply.err.None? && s.next > 0 && (c.peak <= 0 || s.next <= c.peak) ==> o.reply.d == s.next
    ensures o.reply.err.None? && s.next > 0 && c.peak > 0 && s.next > c.peak ==> o.reply.d == c.peak
    // otherwise the jittered base, in [b - b/2, b), unless Peak clamped it
    ensures o.reply.err.None? && s.next <= 0 ==>
      o.reply.d < NextBase(c, s) &&
      (NextBase(c, s) - NextBase(c, s) / WeightDiv <= o.reply.d || o.reply.d == c.peak)
  {
    if c.limit > 0 && s.n >= c.limit then
      Outcome(s, Reply(0, Some(LimitReached)))
    else
      var (s', w) := UncheckedStep(c, s, draw);
      var d := if c.peak > 0 && w > c.peak then c.peak else w;
      var s'' := s'.(age := s'.age + d);
      if c.maxAge > 0 && s''.age >= c.maxAge then
        Outcome(s'', Reply(0, Some(Expired)))
      else
        Outcome(s'', Reply(d, None))
  }

  /** An expired call changes the clock exactly as the same call without
      MaxAge would, and that call returns the duration age grew by. */
  lemma ExpiryDiscardsDuration(c: Config, s: Clock, draw: int)
    requires WellFormed(c, s)
    requires 0 <= draw < NextBase(c, s) / WeightDiv
    requires Step(c, s, draw).reply.err == Some(Expired)
    ensures Step(c.(maxAge := 0), s, draw) ==
      Outcome(Step(c, s, draw).clock, Reply(Step(c, s, draw).clock.age - s.age, None))
  {
  }

  /** Once Advance reported expiry, every later call fails too: age never shrinks. */
  lemma ExpiryIsPermanent(c: Config, s: Clock, draw: int, draw': int)
    requires WellFormed(c, s)
    requires 0 <= draw < NextBase(c, s) / WeightDiv
    requires Step(c, s, draw).reply.err == Some(Expired)
    requires 0 <= draw' < NextBase(c, Step(c, s, draw).clock) / WeightDiv
    ensures Step(c, Step(c, s, draw).clock, draw').reply.err.Some?
  {
  }

  /** Whatever Advance returns, the base stays on the doubling schedule. */
  lemma StepKeepsSchedule(c: Config, s: Clock, draw: int)
    requires WellFormed(c, s)
    requires 0 <= draw < NextBase(c, s) / WeightDiv
    requires OnSchedule(c, s)
    ensures OnSchedule(c, Step(c, s, draw).clock)
  {
  }

  /** The race in Wait, once Advance succeeded: the timer elapsed first, or the context was done. */
  datatype Race = TimerFired | ContextDone(cause: ContextError)

  function RaceResult(race: Race): Option<Error> {
    match race
    case TimerFired => None
    case ContextDone(e) => Some(Context(e))
  }

  /** A Backoff. The exported configuration fields may be set by the owner at
      any time; the unexported ones change only through the methods below. */
  class Backoff {
    var Peak: int
    var Initial: int
    var Limit: int
    var MaxAge: int

    var n: int
    var d: int
    var age: int
    var next: int

    function Cfg(): Config
      reads this
    {
      Config(Peak, Initial, Limit, MaxAge)
    }

    function State(): Clock
      reads this
    {
      Clock(n, d, age, next)
    }

    predicate Valid()
      reads this
    {
      WellFormed(Cfg(), State())
    }

    /** `Backoff{Peak: peak, Initial: initial, Limit: limit, MaxAge: maxAge}`. */
    constructor (peak: int, initial: int, limit: int, maxAge: int)
      ensures Cfg() == Config(peak, initial, limit, maxAge)
      ensures State() == Clock(0, 0, 0, 0)
      ensures Valid() <==> ValidInitial(initial)
    {
      Peak, Initial, Limit, MaxAge := peak, initial, limit, maxAge;
      n, d, age, next := 0, 0, 0, 0;
    }

    /** The next advance returns dur instead of a jittered base when dur > 0. */
    method SetNext(dur: int)
      modifies this`next
      ensures State() == old(State()).(next := dur)
    {
      next := dur;
    }

    /** advance. */
    method AdvanceUnchecked(draw: int) returns (w: int)
      requires Valid()
      requires 0 <= draw < NextBase(Cfg(), State()) / WeightDiv
      modifies this`n, this`d, this`next
      ensures Valid()
      ensures (State(), w) == UncheckedStep(old(Cfg()), old(State()), draw)
    {
      if n == 0 {
        d := DefaultInterval;
        if Initial > 0 {
          d := Initial;
        }
      } else {
        d := Double(d);
      }
      n := n + 1;
      var x := next;
      next := 0;
      if x > 0 {
        return x;
      }
      w := Weighted(d, draw);
    }

    /** Advance. */
    method Advance(draw: int) returns (dur: int, err: Option<Error>)
      requires Valid()
      requires 0 <= draw < NextBase(Cfg(), State()) / WeightDiv
      modifies this`n, this`d, this`age, this`next
      ensures Valid()
      ensures Outcome(State(), Reply(dur, err)) == Step(old(Cfg()), old(State()), draw)
    {
      if Limit > 0 && n >= Limit {
        return 0, Some(LimitReached);
      }
      dur := AdvanceUnchecked(draw);
      if Peak > 0 && dur > Peak {
        dur := Peak;
      }
      age := age + dur;
      if MaxAge > 0 && age >= MaxAge {
        return 0, Some(Expired);
      }
      err := None;
    }

    /** Wait: the error of Advance if any, otherwise the outcome of the race
        between the timer and the context. */
    method Wait(draw: int, race: Race) returns (err: Option<Error>)
      requires Valid()
      requires 0 <= draw < NextBase(Cfg(), State()) / WeightDiv
      modifies this`n, this`d, this`age, this`next
      ensures Valid()
      ensures State() == Step(old(Cfg()), old(State()), draw).clock
      ensures err == (var e := Step(old(Cfg()), old(State()), draw).reply.err;
                      if e.Some? then e else RaceResult(race))
    {
      var dur;
      dur, err := Advance(draw);
      if err.Some? {
        return;
      }
      err := RaceResult(race);
    }
  }
}
