# Backoff clock, modelled in Dafny

This project models the retry clock of the Go package `backoff`. A `Backoff` value turns repeated calls of `Advance` into exponentially growing wait durations. The first base is `Initial`, or one second when `Initial` is unset, and every later call doubles it. Each base is jittered by a random draw. A one-shot override set by `SetNext` replaces the jittered value on the next call. Three limits apply:

- `Limit` caps the number of attempts: the call after the last allowed attempt returns "retry limit reached" and changes nothing.
- `Peak` clamps every duration.
- `MaxAge` caps the running total of the durations. In the code, `age` is the sum of the clamped durations, not a wall-clock time. A call that brings it to `MaxAge` or beyond reports "operation is expired", and its attempt is not rolled back.

`Wait` calls `Advance`. If `Advance` fails, `Wait` returns that error. Otherwise it waits for the duration unless the caller's context is done first.

Layout:

- `backoff.dfy`, module `Backoff`:
  - the constants;
  - `Weighted` (the jitter);
  - `Double` and `Schedule` (the base);
  - the pure functions `UncheckedStep` (the unexported `advance`) and `Step` (`Advance`), over the configuration `Config` and the unexported fields `Clock`;
  - class `Backoff`, whose methods `SetNext`, `AdvanceUnchecked`, `Advance` and `Wait` update the fields in place. Each of them is proved to leave exactly the state and reply that those functions give.
- `runs.dfy`, module `BackoffRuns`: `Run` feeds a sequence of draws to `Step`. Lemmas by induction cover the attempt limit, the doubling schedule and `age` over many calls.
- `overflow.dfy`, module `Int64Doubling`: the doubling exactly as the int64 arithmetic performs it (see Findings).
- `examples.dfy`, module `BackoffExamples`: clients that replay the scenarios of `backoff_test.go` for every possible draw.

The random draw `defaultRand.Int63n(w)` is a parameter `draw` of every operation. The operation requires what `Int63n` promises, `0 <= draw < w`, so each property holds for every draw.

The doc-comment of `weighted` announces a duration in `[0.5 d, 1.5 d)`. The arithmetic gives `[d - d/2, d)`. The model follows the arithmetic: `Weighted` proves that bound, and `WeightedCoversRange` proves that every value in it is reached by some draw. The code keeps `age` as a field that sums the returned durations, and the model follows the code.

## Model

| member | source | states |
|---|---|---|
| `Backoff.Weighted` | backoff.go:48-54 | for `d >= 2` and a draw in `[0, d/2)`, the jittered duration lies in `[d - d/2, d)`: at least half of `d`, always below `d` |
| `Backoff.WeightedCoversRange` | backoff.go:49-54 | every duration of `[d - d/2, d)` is produced by some draw, so the range is exactly that interval |
| `Backoff.Double` | backoff.go:65 | one doubling of the base is `min(2 d, MaxDuration)` and never decreases the base (corrected form of the int64 doubling, see Findings) |
| `Backoff.NextBase` | backoff.go:59-66 | the base the next advance stores lies in `[2, MaxDuration]`, so weighted can always draw from it |
| `Backoff.Schedule` | backoff.go:59-66 | the base after k calls stays within `[2, MaxDuration]` for every k |
| `Backoff.ScheduleClosedForm` | backoff.go:59-66 | the base after k calls is `min(I * 2^(k-1), MaxDuration)`, where `I` is `Initial` when positive and one second otherwise |
| `Backoff.ScheduleDoubles` | backoff.go:59-66 | while `I * 2^(k-1)` fits in a duration, the k-th base is exactly that, and twice the (k-1)-th |
| `Backoff.UncheckedStep` | backoff.go:58-74 | advance counts one attempt, stores the next base, resets the override to 0 whatever its value, returns a positive override unjittered, and otherwise returns a duration in `[b - b/2, b)` of the new base `b` |
| `Backoff.Step` | backoff.go:83-96 | Advance is refused with LimitReached exactly when `Limit > 0` and `n >= Limit`, and the clock is then unchanged. Any other call counts one attempt, moves the base and clears the override. `age` grows by a positive amount of at most `Peak`. Expired is returned exactly when the new `age` reaches a positive `MaxAge`. An error carries duration 0. A success is positive, at most `Peak`, equal to what `age` grew by, the override itself (or `Peak` if the override exceeds it), or else a jittered base below the base (or exactly `Peak`) |
| `Backoff.ExpiryDiscardsDuration` | backoff.go:87-94 | an expired call leaves the same clock as the same call without `MaxAge`, which returns as its duration what `age` grew by: nothing is rolled back |
| `Backoff.ExpiryIsPermanent` | backoff.go:91-94 | after a call that reported Expired, the next call also fails |
| `Backoff.StepKeepsSchedule` | backoff.go:83-96 | whatever Advance replies, the base stays the n-th scheduled base |
| `Backoff.Backoff.constructor` | backoff.go:24-41 | a new Backoff holds the given Peak, Initial, Limit and MaxAge and zero in every unexported field; it is valid exactly when Initial is unset or at least 2 |
| `Backoff.Backoff.SetNext` | backoff.go:44-46 | sets the override and changes no other field |
| `Backoff.Backoff.AdvanceUnchecked` | backoff.go:58-74 | updates n, d and next in place and returns exactly what `UncheckedStep` gives, keeping the object valid |
| `Backoff.Backoff.Advance` | backoff.go:83-96 | updates n, d, age and next in place and returns exactly the state and reply of `Step`, keeping the object valid |
| `Backoff.Backoff.Wait` | backoff.go:99-110 | advances as `Step` does. It returns Advance's error if there is one, otherwise nothing when the timer fires first and the context's error when the context is done first |
| `BackoffRuns.Run` | backoff.go:83-96 | a sequence of Advance calls yields one reply per call, keeps the clock well formed and never decreases `age` |
| `BackoffRuns.RunLimit` | backoff.go:84-87 | in a sequence of calls, the i-th call is refused for the limit exactly when `n + i >= Limit > 0`, and `n` ends at `min(n + calls, Limit)` (or `n + calls` with no limit) |
| `BackoffRuns.LimitAfterExactlyN` | backoff.go:84-86 | with `Limit = N` on a fresh clock, none of the first N calls is refused for the limit, the (N+1)-th returns `(0, LimitReached)`, and `n` ends at N |
| `BackoffRuns.RunKeepsSchedule` | backoff.go:59-67 | over any sequence of calls, including overrides, expiries and refusals, the base stays the n-th scheduled base |
| `BackoffRuns.FreshRunSchedule` | backoff.go:59-67 | on a fresh clock, k calls the limit does not stop leave `n == k` and base `min(I * 2^(k-1), MaxDuration)` |
| `BackoffRuns.RunAgeIsTotal` | backoff.go:88-95 | without `MaxAge` no call expires, and `age` is the sum of the returned durations |
| `Int64Doubling.Wrap64` | backoff.go:65 | int64 wrap-around yields a value in the int64 range and leaves values already in range alone |
| `Int64Doubling.FirstOverflowIsNegative` | backoff.go:65 | the int64 doubling of a base above half the largest duration is negative |
| `Int64Doubling.AsWrittenAgreesBeforeOverflow` | backoff.go:59-66 | until `I * 2^(k-1)` leaves the int64 range, the int64 doubling and the saturating schedule give the same base |
| `Int64Doubling.AsWrittenDefaultOverflows` | backoff.go:49-73 | with Initial unset, the 34th base is `10^9 * 2^33` and the 35th, as the int64 doubling computes it, is `-1266874889709551616`, below the 2 that weighted needs; the saturating schedule holds the largest duration there |
| `BackoffExamples.DoublingWaits` | backoff_test.go:36-51 | with Initial 10ms, three calls return durations in `[5,10)`, `[10,20)` and `[20,40)` ms |
| `BackoffExamples.PeakWaits` | backoff_test.go:53-70 | with Initial 10ms and Peak 15ms, the second call returns at most 15ms and the third exactly 15ms |
| `BackoffExamples.OverrideWaits` | backoff_test.go:72-92 | after `SetNext(5ms)` the second call returns exactly 5ms, and the third is jittered from the base 40ms, because the base kept doubling underneath |
| `BackoffExamples.LimitedWaits` | backoff_test.go:170-191 | with Initial 100ms, Peak 200ms, Limit 5 and MaxAge 2s, five waits succeed and the sixth reports the retry limit |
| `BackoffExamples.DeadlineWait` | backoff_test.go:94-112 | with Initial 500ms the drawn wait is at least 250ms, longer than the 100ms deadline, so the context wins the race: the reply is the deadline error and the attempt still counts |

## Left out

- The timer and context race inside `Wait` (the `select` on `time.After` and `ctx.Done()`): its outcome is a parameter `race` of `Wait`. Timing, and the random choice Go makes when both are ready, are not modelled.
- The global random source and its seeding from the clock in `init`: the draw is a parameter constrained as `Int63n` constrains its result. Go's generator algorithm is not part of this model.
- `Backoff.Backoff.Advance`: requires `Initial` to be unset or at least 2 even when a positive override means no draw is made on the first call. The code accepts `Initial == 1` in that case.
- `Backoff.Backoff.Wait`: the same requirement on `Initial` as `Advance`.
- `Backoff.Backoff.AdvanceUnchecked`: the same requirement on `Initial` as `Advance`.
- `Backoff.UncheckedStep`: the same requirement on `Initial` as `Advance`, through `WellFormed`.
- `Backoff.Step`: requires `Initial` to be unset or at least 2, through `WellFormed`, as `Advance` does. It also requires a draw in range even on calls that make no draw (limit reached, override present). Such a draw is never used.
- `age` and `n` are unbounded integers. In the code `age` is an int64 and wraps after about 292 years of summed durations, and that wrap is not modelled. The configuration fields are likewise not bounded to the int64 range, except `Initial`.
- The base doubling saturates at the largest duration instead of wrapping, as explained under Findings. The as-written wrap-around is modelled separately in `Int64Doubling`.
- `Start()`, the `age()` method, `ErrExpired` and the `jitter` constant used in `backoff_test.go` do not exist in `backoff.go`: they are not part of this model. `TestAdvanceMaxAge`, `TestStartMaxAge` and the wall-clock checks of `testWait` rest on them and are not replayed.
- A broadcast coordinator that shares one clock among concurrent waiters is not part of this model.

## Findings

| source | as written | input that shows it | evidently intended | confidence | as-written member | corrected member |
|---|---|---|---|---|---|---|
| backoff.go:65 | the base is doubled in int64 arithmetic with no bound, so the first doubling past half of the largest duration wraps to a negative base. weighted then halves it and asks `Int63n` for a draw below a negative bound, which panics | `Backoff{Peak: 200 * time.Millisecond}` with Limit and MaxAge unset: the 35th call of `Advance`, after at most about 7 s of waits, stores the base `-1266874889709551616` | the base stops growing at the largest duration, so Peak alone can bound the waits of an unlimited retry loop | high; not executed | `Int64Doubling.AsWrittenDefaultOverflows` | `Backoff.Schedule` |
