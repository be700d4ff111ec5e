/** Sequences of Advance calls on one clock with a fixed configuration: the
    attempt limit, the doubling schedule and the age over many calls. */
module BackoffRuns {
  import opened Backoff

  /** Each draw lies in the range Int63n gives for the call that uses it. */
  predicate DrawsFit(c: Config, s: Clock, draws: seq<int>)
    requires WellFormed(c, s)
    decreases |draws|
  {
    draws == [] ||
    (0 <= draws[0] < NextBase(c, s) / WeightDiv &&
     DrawsFit(c, Step(c, s, draws[0]).clock, draws[1..]))
  }

  /** Advance called once per draw: the final clock and the replies in order. */
  function Run(c: Config, s: Clock, draws: seq<int>): (r: (Clock, seq<Reply>))
    requires WellFormed(c, s)
    requires DrawsFit(c, s, draws)
    ensures WellFormed(c, r.0)
    ensures |r.1| == |draws|
    ensures s.age <= r.0.age
    decreases |draws|
  {
    if draws == [] then (s, [])
    else
      var o := Step(c, s, draws[0]);
      var rest := Run(c, o.clock, draws[1..]);
      (rest.0, [o.reply] + rest.1)
  }

  /** The i-th call (from 0) is refused exactly when n + i has reached Limit,
      and n counts one per call up to Limit. */
  lemma {:induction false} RunLimit(c: Config, s: Clock, draws: seq<int>)
    requires WellFormed(c, s)
    requires DrawsFit(c, s, draws)
    requires c.limit <= 0 || s.n <= c.limit
    ensures forall i :: 0 <= i < |draws| ==>
      (Run(c, s, draws).1[i].err == Some(LimitReached) <==> c.limit > 0 && s.n + i >= c.limit)
    ensures forall i :: 0 <= i < |draws| && c.limit > 0 && s.n + i >= c.limit ==>
      Run(c, s, draws).1[i] == Reply(0, Some(LimitReached))
    ensures Run(c, s, draws).0.n ==
      if c.limit > 0 then Min(s.n + |draws|, c.limit) else s.n + |draws|
    decreases |draws|
  {
    if draws != [] {
      var o := Step(c, s, draws[0]);
      RunLimit(c, o.clock, draws[1..]);
      var r := Run(c, s, draws);
      var rest := Run(c, o.clock, draws[1..]);
      assert r.1 == [o.reply] + rest.1;
      forall i | 0 <= i < |draws|
        ensures r.1[i].err == Some(LimitReached) <==> c.limit > 0 && s.n + i >= c.limit
        ensures c.limit > 0 && s.n + i >= c.limit ==> r.1[i] == Reply(0, Some(LimitReached))
      {
        if i > 0 {
          assert r.1[i] == rest.1[i - 1];
        }
      }
    }
  }

  /** With Limit = N, from a fresh clock, the first N calls are not refused
      for the limit and the (N+1)-th is, leaving the clock as it was. */
  lemma LimitAfterExactlyN(c: Config, draws: seq<int>)
    requires ValidInitial(c.initial)
    requires c.limit > 0 && |draws| == c.limit + 1
    requires DrawsFit(c, Clock(0, 0, 0, 0), draws)
    ensures forall i :: 0 <= i < c.limit ==>
      Run(c, Clock(0, 0, 0, 0), draws).1[i].err != Some(LimitReached)
    ensures Run(c, Clock(0, 0, 0, 0), draws).1[c.limit] == Reply(0, Some(LimitReached))
    ensures Run(c, Clock(0, 0, 0, 0), draws).0.n == c.limit
  {
    RunLimit(c, Clock(0, 0, 0, 0), draws);
  }

  /** Over any sequence of calls, whatever they return, the base stays the
      n-th scheduled base: Initial * 2^(n-1) until it reaches the largest duration. */
  lemma {:induction false} RunKeepsSchedule(c: Config, s: Clock, draws: seq<int>)
    requires WellFormed(c, s)
    requires DrawsFit(c, s, draws)
    requires OnSchedule(c, s)
    ensures OnSchedule(c, Run(c, s, draws).0)
    decreases |draws|
  {
    if draws != [] {
      StepKeepsSchedule(c, s, draws[0]);
      RunKeepsSchedule(c, Step(c, s, draws[0]).clock, draws[1..]);
    }
  }

  /** From a fresh clock, when the limit does not intervene, k calls of
      Advance leave n == k and the base Initial * 2^(k-1) (capped at the largest duration). */
  lemma FreshRunSchedule(c: Config, draws: seq<int>)
    requires ValidInitial(c.initial)
    requires |draws| >= 1
    requires c.limit <= 0 || |draws| <= c.limit
    requires DrawsFit(c, Clock(0, 0, 0, 0), draws)
    ensures Run(c, Clock(0, 0, 0, 0), draws).0.n == |draws|
    ensures Run(c, Clock(0, 0, 0, 0), draws).0.d == Min(FirstBase(c.initial) * Pow2(|draws| - 1), MaxDuration)
  {
    RunLimit(c, Clock(0, 0, 0, 0), draws);
    RunKeepsSchedule(c, Clock(0, 0, 0, 0), draws);
    ScheduleClosedForm(c.initial, |draws|);
  }

  /** The sum of the durations in a list of replies. */
  function Total(replies: seq<Reply>): int {
    if replies == [] then 0 else replies[0].d + Total(replies[1..])
  }

  /** Without MaxAge no call expires, and age is the running total of the
      durations Advance returned. */
  lemma {:induction false} RunAgeIsTotal(c: Config, s: Clock, draws: seq<int>)
    requires WellFormed(c, s)
    requires DrawsFit(c, s, draws)
    requires c.maxAge <= 0
    ensures forall i :: 0 <= i < |draws| ==> Run(c, s, draws).1[i].err != Some(Expired)
    ensures Run(c, s, draws).0.age == s.age + Total(Run(c, s, draws).1)
    decreases |draws|
  {
    if draws != [] {
      var o := Step(c, s, draws[0]);
      RunAgeIsTotal(c, o.clock, draws[1..]);
      var r := Run(c, s, draws);
      var rest := Run(c, o.clock, draws[1..]);
      assert r.1 == [o.reply] + rest.1;
      assert r.1[1..] == rest.1;
      forall i | 0 <= i < |draws|
        ensures r.1[i].err != Some(Expired)
      {
        if i > 0 {
          assert r.1[i] == rest.1[i - 1];
        }
      }
    }
  }
}
