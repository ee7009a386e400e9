/** The pause `_wait_between_requests` (mygengo.py:109-118) takes before each request.
    Clock readings are milliseconds; `None` is the initial `_last_request_time`. */
module RateLimit {
  import opened Outcomes

  /** `Client.TIME_BETWEEN_REQUESTS`, 0.5 s (mygengo.py:79), in milliseconds. */
  const TIME_BETWEEN_REQUESTS_MS: nat := 500

  /** Python truth of `self._last_request_time`: `None` and a reading of 0 are false. */
  predicate Truthy(last: Option<nat>) {
    last.Some? && last.value != 0
  }

  /** The sleep of `_wait_between_requests` as written, entered at clock `now`:
      the least pause that puts `now` 500 ms past the previous reading, and none when
      that reading is false. */
  function WaitDelay(last: Option<nat>, now: nat): (delay: nat)
    ensures !Truthy(last) ==> delay == 0
    ensures Truthy(last) ==> now + delay >= last.value + TIME_BETWEEN_REQUESTS_MS
    ensures delay > 0 ==> Truthy(last) && now + delay == last.value + TIME_BETWEEN_REQUESTS_MS
  {
    if Truthy(last) && now - last.value < TIME_BETWEEN_REQUESTS_MS
    then TIME_BETWEEN_REQUESTS_MS - (now - last.value)
    else 0
  }

  /** The sleep the rate limit is meant to take: tests for a previous request with
      `is not None`, so a reading of 0 counts as one. */
  function IntendedDelay(last: Option<nat>, now: nat): (delay: nat)
    ensures last.None? ==> delay == 0
    ensures last.Some? ==> now + delay >= last.value + TIME_BETWEEN_REQUESTS_MS
    ensures delay > 0 ==> last.Some? && now + delay == last.value + TIME_BETWEEN_REQUESTS_MS
  {
    if last.Some? && now - last.value < TIME_BETWEEN_REQUESTS_MS
    then TIME_BETWEEN_REQUESTS_MS - (now - last.value)
    else 0
  }

  /** One call as written: the sleep, and the value `_last_request_time` is left
      holding (the reading taken on entry, before the sleep). */
  datatype Step = Step(delay: nat, recorded: Option<nat>)

  function AsWrittenStep(last: Option<nat>, now: nat): Step
  {
    Step(WaitDelay(last, now), Some(now))
  }

  /** One call as intended: the recorded time is the moment the request goes out. */
  function IntendedStep(last: Option<nat>, now: nat): Step
  {
    var delay := IntendedDelay(last, now);
    Step(delay, Some(now + delay))
  }

  /** As written, a request entering after the previous one was dispatched leaves at
      least 500 ms after the previous ENTRY reading (when that reading is not 0). */
  lemma EntrySpacing(last: Option<nat>, first: nat, second: nat)
    requires first != 0
    requires second >= first + WaitDelay(last, first)
    ensures var a := AsWrittenStep(last, first);
            second + AsWrittenStep(a.recorded, second).delay >= first + TIME_BETWEEN_REQUESTS_MS
  {
  }

  /** As written, dispatches can be 100 ms apart: requests entering at 1000, 1100
      and 1500 ms leave at 1000, 1500 and 1600 ms, each entering only once the previous
      one has left. */
  lemma DispatchSpacingCounterexample()
    ensures var s1 := AsWrittenStep(None, 1000);
            var s2 := AsWrittenStep(s1.recorded, 1100);
            var s3 := AsWrittenStep(s2.recorded, 1500);
            1000 + s1.delay == 1000 && 1100 + s2.delay == 1500 && 1500 + s3.delay == 1600
  {
  }

  /** As written, a previous request whose reading was 0 does not slow the next one:
      entering 100 ms later, it leaves at once. */
  lemma ZeroReadingCounterexample()
    ensures var s1 := AsWrittenStep(None, 0);
            s1.recorded == Some(0) && AsWrittenStep(s1.recorded, 100).delay == 0
  {
  }

  /** As intended, two requests in a row leave at least 500 ms apart, measured
      dispatch to dispatch, whenever the second enters after the first has left. */
  lemma IntendedSpacing(last: Option<nat>, first: nat, second: nat)
    requires second >= first + IntendedDelay(last, first)
    ensures var a := IntendedStep(last, first);
            var b := IntendedStep(a.recorded, second);
            second + b.delay >= first + a.delay + TIME_BETWEEN_REQUESTS_MS
            && b.recorded == Some(second + b.delay)
  {
  }
}
