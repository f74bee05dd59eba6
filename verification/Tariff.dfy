/** The frozen provider tariff: usage checks, the peak/off-peak price window, the
    verified cost of one call, and the cold upper bound reserved before it is sent.
    Money is counted in units of 1e-8 CNY, in which every tariff division is exact;
    time is counted in nanoseconds since the Unix epoch. */
module Tariff {
  import opened Types

  const HOUR: int := 3_600 * SECOND
  const DAY: int := 24 * HOUR
  const CHINA_OFFSET: int := 8 * HOUR

  // ---------------------------------------------------------------- price window

  function LocalDay(t: int): int { (t + CHINA_OFFSET) / DAY }

  function TimeOfDay(t: int): int { (t + CHINA_OFFSET) % DAY }

  /** 0 is Sunday; day 0 (1970-01-01) was a Thursday. */
  function Weekday(day: int): int { (day + 4) % 7 }

  predicate Workday(day: int) { 1 <= Weekday(day) <= 5 }

  function At(day: int, hour: int): int { day * DAY + hour * HOUR - CHINA_OFFSET }

  /** The tariff itself: doubled on working days 09-12 and 14-18 China time. */
  function Rate(t: int): nat {
    var clock := TimeOfDay(t);
    if Workday(LocalDay(t)) && (9 * HOUR <= clock < 12 * HOUR || 14 * HOUR <= clock < 18 * HOUR) then 2 else 1
  }

  function NextWorkday(day: int): int
    decreases if Weekday(day) == 6 then 2 else if Weekday(day) == 0 then 1 else 0
  {
    if Workday(day) then day else NextWorkday(day + 1)
  }

  /** The first instant after t at which the rate differs from the rate at t (see RateWindow). */
  function NextRateChange(t: int): int {
    var day, clock := LocalDay(t), TimeOfDay(t);
    if Workday(day) && clock < 9 * HOUR then At(day, 9)
    else if Workday(day) && clock < 12 * HOUR then At(day, 12)
    else if Workday(day) && clock < 14 * HOUR then At(day, 14)
    else if Workday(day) && clock < 18 * HOUR then At(day, 18)
    else At(NextWorkday(day + 1), 9)
  }

  lemma DayAndClock(t: int, day: int, clock: int)
    requires t == day * DAY + clock - CHINA_OFFSET && 0 <= clock < DAY
    ensures LocalDay(t) == day && TimeOfDay(t) == clock
  {
    assert t + CHINA_OFFSET == day * DAY + clock;
  }

  lemma {:induction false} NextWorkdaySkipsOnlyRestDays(day: int)
    ensures day <= NextWorkday(day) && Workday(NextWorkday(day))
    ensures forall d :: day <= d < NextWorkday(day) ==> !Workday(d)
    decreases if Weekday(day) == 6 then 2 else if Weekday(day) == 0 then 1 else 0
  {
    if !Workday(day) {
      NextWorkdaySkipsOnlyRestDays(day + 1);
    }
  }

  /** The window returned for t is exactly the maximal interval of constant rate that starts at t. */
  lemma RateWindow(t: int)
    ensures t < NextRateChange(t)
    ensures forall u :: t <= u < NextRateChange(t) ==> Rate(u) == Rate(t)
    ensures Rate(NextRateChange(t)) != Rate(t)
  {
    var day, clock, next := LocalDay(t), TimeOfDay(t), NextRateChange(t);
    assert t == day * DAY + clock - CHINA_OFFSET;
    NextWorkdaySkipsOnlyRestDays(day + 1);
    var work := NextWorkday(day + 1);
    if Workday(day) && clock < 18 * HOUR {
      var hour := if clock < 9 * HOUR then 9
                    else if clock < 12 * HOUR then 12 else if clock < 14 * HOUR then 14 else 18;
      DayAndClock(next, day, hour * HOUR);
      forall u | t <= u < next ensures Rate(u) == Rate(t) {
        DayAndClock(u, day, clock + (u - t));
      }
    } else {
      DayAndClock(next, work, 9 * HOUR);
      forall u | t <= u < next ensures Rate(u) == Rate(t) {
        AfterHours(t, u);
      }
    }
  }

  lemma AfterHours(t: int, u: int)
    requires !(Workday(LocalDay(t)) && TimeOfDay(t) < 18 * HOUR) && t <= u < At(NextWorkday(LocalDay(t) + 1), 9)
    ensures Rate(u) == 1
  {
    var day, d, c := LocalDay(t), LocalDay(u), TimeOfDay(u);
    NextWorkdaySkipsOnlyRestDays(day + 1);
    assert t == day * DAY + TimeOfDay(t) - CHINA_OFFSET && u == d * DAY + c - CHINA_OFFSET;
    assert d >= day;
    if d == day {
      assert c >= TimeOfDay(t);
    } else {
      assert d <= NextWorkday(day + 1);
    }
  }

  /** Accepting a call only when it finished before the next change means: one rate throughout. */
  lemma OneRateThroughout(start: int, finish: int)
    requires start <= finish
    ensures finish < NextRateChange(start) <==> forall u :: start <= u <= finish ==> Rate(u) == Rate(start)
  {
    RateWindow(start);
    if finish >= NextRateChange(start) {
      assert Rate(NextRateChange(start)) != Rate(start);
    }
  }

  /** The window search: walk the four boundaries of a working day, else skip to the next working day. */
  method PriceWindow(stamp: int) returns (factor: int, next: int)
    ensures factor == Rate(stamp) && next == NextRateChange(stamp)
  {
    var day, clock := LocalDay(stamp), TimeOfDay(stamp);
    assert stamp == day * DAY + clock - CHINA_OFFSET;
    if Workday(day) {
      var windows := [(9, 1), (12, 2), (14, 1), (18, 2)];
      for i := 0 to |windows|
        invariant forall k :: 0 <= k < i ==> windows[k].0 * HOUR <= clock
      {
        assert i > 0 ==> windows[i - 1].0 * HOUR <= clock;
        if stamp < At(day, windows[i].0) {
          return windows[i].1, At(day, windows[i].0);
        }
      }
      assert windows[3].0 * HOUR <= clock;
    }
    var following := day + 1;
    while !Workday(following)
      invariant NextWorkday(following) == NextWorkday(day + 1)
      decreases if Weekday(following) == 6 then 2 else if Weekday(following) == 0 then 1 else 0
    {
      following := following + 1;
    }
    return 1, At(following, 9);
  }

  // ---------------------------------------------------------------------- usage

  /** Token counts arrive as 64-bit integers. With `newtype` the subtractions below are
      also proved not to leave that range, whatever the provider sent. */
  predicate UsageConsistent(u: Tokens, maxOutput: int64) {
    && maxOutput > 0
    && u.input >= 0 && 0 <= u.output <= maxOutput && u.total >= 0 && u.hit >= 0 && u.miss >= 0
    && u.hit <= u.input && u.input - u.hit == u.miss
    && u.output <= u.total && u.total - u.output == u.input
  }

  function ReadUsage(raw: UsageJson, maxOutput: int64): Option<Tokens> {
    match raw
    case Usage(Some(input), Some(output), Some(total), Some(hit), Some(miss)) =>
      var u := Tokens(input, output, total, hit, miss);
      if UsageConsistent(u, maxOutput) then Some(u) else None
    case _ => None
  }

  lemma UsageAddsUp(u: Tokens, maxOutput: int64)
    requires UsageConsistent(u, maxOutput)
    ensures u.hit as int + u.miss as int == u.input as int
    ensures u.input as int + u.output as int == u.total as int
  {
    assert (u.input - u.hit) as int == u.input as int - u.hit as int;
    assert (u.total - u.output) as int == u.total as int - u.output as int;
  }

  // ----------------------------------------------------------------------- cost

  /** CNY 1 / 0.02 / 4 per million tokens of cache miss / cache hit / output, times the rate. */
  function UsageCost(u: Tokens, factor: nat): nat
    requires u.miss >= 0 && u.hit >= 0 && u.output >= 0 && (factor == 1 || factor == 2)
  {
    var single := 100 * u.miss as int + 2 * u.hit as int + 400 * u.output as int;
    if factor == 2 then single + single else single
  }

  /** What admission holds back: every prompt token a cold miss, every output token used, at the peak rate. */
  function ColdUpper(requestBytes: nat, outputTokens: nat): nat {
    200 * (2 * requestBytes + 4096) + 800 * outputTokens
  }

  /** The independently recomputed amount of a settlement record, if its evidence is complete and agrees. */
  function VerifiedCost(r: Record, maxOutput: int64): Option<nat> {
    if r.status != Estimated || !r.cny || r.amount.None? then None else
    var usage := ReadUsage(r.rawUsage, maxOutput);
    if usage.None? || !ResponseAgrees(r.response, usage.value, maxOutput) then None else
    if r.started.None? || r.finished.None? || r.finished.value < r.started.value then None else
    if r.finished.value >= NextRateChange(r.started.value) then None else
    var expected := UsageCost(usage.value, Rate(r.started.value));
    if AmountUnits(r.amount.value) == Some(expected) then Some(expected) else None
  }

  /** A recorded provider response may not contradict the usage the record claims. */
  predicate ResponseAgrees(response: ResponseJson, usage: Tokens, maxOutput: int64) {
    match response
    case ResponseAbsent => true
    case ResponseNull => true
    case ResponseMalformed => false
    case Response(_, _, other, _) => other.UsageAbsent? || ReadUsage(other, maxOutput) == Some(usage)
  }

  /** The reservation dominates the bill: if the prompt is no longer than two tokens a byte plus
      the fixed allowance, no verified amount exceeds the cold upper bound. */
  lemma VerifiedCostWithinUpper(r: Record, requestBytes: nat, maxOutput: int64)
    requires VerifiedCost(r, maxOutput).Some?
    requires r.rawUsage.input.value as int <= 2 * requestBytes + 4096
    ensures 0 <= VerifiedCost(r, maxOutput).value <= ColdUpper(requestBytes, maxOutput as int)
  {
    var u := ReadUsage(r.rawUsage, maxOutput).value;
    UsageAddsUp(u, maxOutput);
    var factor := Rate(r.started.value);
    var single := 100 * u.miss as int + 2 * u.hit as int + 400 * u.output as int;
    assert 0 <= single <= 100 * u.input as int + 400 * maxOutput as int;
    assert single <= UsageCost(u, factor) <= 2 * single;
  }

  lemma PeakInstant() returns (start: int)
    ensures Rate(start) == 2 && start < NextRateChange(start)
  {
    start := At(4, 9);
    DayAndClock(start, 4, 9 * HOUR);
    RateWindow(start);
  }

  /** The bound on the prompt cannot be loosened by a single token: whatever the request and its output limit, every
      longer prompt has complete and consistent evidence that is verified above the reservation. */
  lemma LongPromptOvershoots(requestBytes: nat, maxOutput: int64, prompt: int64) returns (r: Record)
    requires maxOutput > 0 && prompt as int > 2 * requestBytes + 4096
             && prompt as int + maxOutput as int < 0x8000_0000_0000_0000
    ensures r.rawUsage.Usage? && r.rawUsage.input == Some(prompt)
    ensures VerifiedCost(r, maxOutput).Some?
            && VerifiedCost(r, maxOutput).value > ColdUpper(requestBytes, maxOutput as int)
  {
    var start := PeakInstant();
    var u := Tokens(prompt, maxOutput, prompt + maxOutput, 0, prompt);
    r := BlankRecord().(status := Estimated, cny := true, amount := Some(Number(UsageCost(u, 2))),
    rawUsage := Usage(Some(prompt), Some(maxOutput), Some(prompt + maxOutput), Some(0), Some(prompt)),
    started := Some(start), finished := Some(start));
    PeakPrice(r, u, maxOutput, start);
  }

  /** Complete evidence of an instantaneous call at the peak rate is priced at twice the single rate. */
  lemma PeakPrice(r: Record, u: Tokens, maxOutput: int64, start: int)
    requires r.status == Estimated && r.cny && r.response.ResponseAbsent? && r.started == Some(start)
             && r.finished == Some(start)
    requires Rate(start) == 2 && start < NextRateChange(start) && ReadUsage(r.rawUsage, maxOutput) == Some(u)
    requires r.amount.Some? && AmountUnits(r.amount.value) == Some(UsageCost(u, 2))
    ensures VerifiedCost(r, maxOutput) == Some(UsageCost(u, 2))
  {
  }

  // ------------------------------------------------------------ never dispatched

  /** Only an explicit rejection before the HTTP request releases a reservation at no cost. */
  predicate ProvesNotDispatched(r: Record, experiment: Experiment) {
    && r.dispatched == Some(false)
    && (r.transport == SnapshotStale
        || (experiment == M3 && (r.transport == CacheWindowExpired || r.transport == ReleaseGate)))
    && r.status == NotDispatched && r.amount == Some(LiteralZero) && r.cny
    && r.costReason == r.transport && r.rawUsage == UsageNull
  }

  lemma NotDispatchedIsNeverABill(r: Record, experiment: Experiment, maxOutput: int64)
    requires ProvesNotDispatched(r, experiment)
    ensures VerifiedCost(r, maxOutput) == None
  {
  }
}
