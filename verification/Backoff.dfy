/**
 Failure backoff and the scheduling decision (crates/connector-sdk/src/backoff.rs,
 crates/collector/src/schedule.rs, `plan_tick` in crates/collector/src/runner.rs).
 Times and durations are whole nanoseconds.
 */
module Backoff {
  import opened Prelude

  const NS_PER_MS: nat := 1_000_000
  const NS_PER_SEC: nat := 1_000_000_000
  const TWO_64: nat := 0x1_0000_0000_0000_0000
  const I64_MAX: nat := 0x7FFF_FFFF_FFFF_FFFF
  const I32_MAX: nat := 0x7FFF_FFFF

  datatype Config = Config(base: nat, max: nat)

  function FromSecs(base: nat, max: nat): Config {
    Config(base * NS_PER_SEC, max * NS_PER_SEC)
  }

  function SaturatingMul(a: nat, b: nat): nat {
    Min(a * b, TWO_64 - 1)
  }

  /** Shift with a shortcut for large exponents, in whole seconds. */
  function ExponentialCapped(errors: int, cfg: Config): nat
    requires errors > 0
  {
    if errors - 1 >= 63 then cfg.max else
    Min(SaturatingMul(cfg.base / NS_PER_SEC, Pow2(errors - 1)), cfg.max / NS_PER_SEC) * NS_PER_SEC
  }

  /** The identifier decides a jitter of -1000..1000 ten-thousandths. */
  function JitterBp(id: nat): (j: int)
    ensures -1000 <= j <= 1000
  {
    id % 2001 - 1000
  }

  /** `ms` times `k` ten-thousandths, rounded down. */
  function Scale(ms: nat, k: nat): nat {
    ms * k / 10_000
  }

  /** The cast back to 64 bits wraps. */
  function ApplyJitter(delay: nat, id: nat, max: nat): nat {
    if delay == 0 then 0 else
    var adjusted := Scale(delay / NS_PER_MS, 10_000 + JitterBp(id));
    var clamped := Max(0, Min(adjusted, max / NS_PER_MS));
    (clamped % TWO_64) * NS_PER_MS
  }

  function RetryBackoff(errors: int, id: nat, cfg: Config): nat {
    if errors <= 0 || cfg.base == 0 then 0
    else ApplyJitter(ExponentialCapped(errors, cfg), id, cfg.max)
  }

  // ----- the unbounded value -----

  /** min(base * 2^(n-1), max) in milliseconds, with no width limit and no shortcut. */
  function CappedMs(errors: int, base: nat, max: nat): nat
    requires errors > 0
  {
    Min(base * Pow2(errors - 1), max) * 1000
  }

  /** The documented delay: the capped value times (1 + jitter), still at most `max`. */
  function IdealMs(errors: int, id: nat, base: nat, max: nat): nat {
    if errors <= 0 then 0 else
    Min(max * 1000, Scale(CappedMs(errors, base, max), 10_000 + JitterBp(id)))
  }

  lemma ProductAtLeast(a: nat, b: nat, c: nat)
    requires a >= 1 && b >= c
    ensures a * b >= c
  {
    assert a * b >= 1 * b;
  }

  lemma Pow2Of63()
    ensures Pow2(63) == TWO_64 / 2
  {
    assert Pow2(8) == 256;
    assert Pow2(16) == 65536;
    Pow2Add(16, 16);
    Pow2Add(32, 16);
    Pow2Add(48, 15);
    assert Pow2(15) == 32768;
  }

  lemma {:induction false} Pow2Add(a: nat, b: nat)
    ensures Pow2(a + b) == Pow2(a) * Pow2(b)
  {
    if b > 0 { Pow2Add(a, b - 1); }
  }

  lemma ExponentialIsIdeal(errors: int, base: nat, max: nat)
    requires errors > 0 && base >= 1 && max < TWO_64
    requires errors <= 63 || base * Pow2(errors - 1) >= max
    ensures ExponentialCapped(errors, FromSecs(base, max)) == CappedMs(errors, base, max) * NS_PER_MS
  {
    assert base * NS_PER_SEC / NS_PER_SEC == base;
    assert max * NS_PER_SEC / NS_PER_SEC == max;
  }

  /**
   The 64-bit shift, the saturation, the large-exponent shortcut, the millisecond
   truncation and the wrapping cast together compute the documented unbounded value
   exactly when that value fits 64 bits of milliseconds.
   */
  lemma RetryBackoffIsIdealIff(errors: int, id: nat, base: nat, max: nat)
    requires max < TWO_64  // seconds are a 64-bit number
    ensures RetryBackoff(errors, id, FromSecs(base, max)) == IdealMs(errors, id, base, max) * NS_PER_MS
            <==> IdealMs(errors, id, base, max) < TWO_64
  {
    if errors > 0 && base == 0 {
      NoBaseNoWait(errors, id, max);
    } else if errors > 0 {
      if errors <= 63 || base * Pow2(errors - 1) >= max {
        ExponentialIsIdeal(errors, base, max);
        JitterWraps(CappedMs(errors, base, max), id, max);
        WrapIff(IdealMs(errors, id, base, max));
      } else {
        ShortcutOvershoots(errors, id, base, max);
      }
    }
  }

  lemma NoBaseNoWait(errors: int, id: nat, max: nat)
    requires errors > 0
    ensures RetryBackoff(errors, id, FromSecs(0, max)) == 0 == IdealMs(errors, id, 0, max)
  {
    assert CappedMs(errors, 0, max) == 0 by { assert 0 * Pow2(errors - 1) == 0; }
  }

  lemma WrapIff(ms: nat)
    ensures ms % TWO_64 * NS_PER_MS == ms * NS_PER_MS <==> ms < TWO_64
  {
  }

  /** Where the shortcut returns more than the doubled base, the documented value is out of range. */
  lemma ShortcutOvershoots(errors: int, id: nat, base: nat, max: nat)
    requires errors > 63 && base >= 1 && base * Pow2(errors - 1) < max
    ensures IdealMs(errors, id, base, max) >= TWO_64
    ensures RetryBackoff(errors, id, FromSecs(base, max)) < TWO_64 * NS_PER_MS
  {
    Pow2Monotone(63, errors - 1);
    Pow2Of63();
    ProductAtLeast(base, Pow2(errors - 1), TWO_64 / 2);
    ScaleBounds(CappedMs(errors, base, max), 10_000 + JitterBp(id));
  }

  /** In particular whenever the cap does. */
  lemma RetryBackoffIsIdeal(errors: int, id: nat, base: nat, max: nat)
    requires max * 1000 < TWO_64
    ensures RetryBackoff(errors, id, FromSecs(base, max)) == IdealMs(errors, id, base, max) * NS_PER_MS
  {
    RetryBackoffIsIdealIff(errors, id, base, max);
  }

  /**
   The whole delay in figures, in nanoseconds: the base doubled per further failure up to `max`, times
   0.9000 to 1.1000 as the identifier modulo 2001 says, at most `max`, in whole milliseconds.
   */
  lemma RetryBackoffInFigures(errors: int, id: nat, base: nat, max: nat)
    requires errors > 0 && max * 1000 < 0x1_0000_0000_0000_0000
    ensures RetryBackoff(errors, id, FromSecs(base, max))
              == Min(max * 1000, Min(base * Pow2(errors - 1), max) * 1000 * (9000 + id % 2001) / 10_000) * 1_000_000
    ensures FromSecs(base, max).base == base * 1_000_000_000 && FromSecs(base, max).max == max * 1_000_000_000
  {
    RetryBackoffIsIdeal(errors, id, base, max);
  }

  /** No failure, no wait. */
  lemma NoFailureNoWait(errors: int, id: nat, cfg: Config)
    requires errors <= 0
    ensures RetryBackoff(errors, id, cfg) == 0
  {
  }

  /** The jitter step on whole milliseconds, for every cap: it wraps at 64 bits. */
  lemma JitterWraps(ms: nat, id: nat, max: nat)
    ensures ApplyJitter(ms * NS_PER_MS, id, max * NS_PER_SEC)
              == Min(max * 1000, Scale(ms, 10_000 + JitterBp(id))) % TWO_64 * NS_PER_MS
  {
    WholeMillis(ms, max);
    assert ms == 0 ==> Scale(ms, 10_000 + JitterBp(id)) == 0;
  }

  lemma WholeMillis(ms: nat, max: nat)
    ensures ms * NS_PER_MS / NS_PER_MS == ms && max * NS_PER_SEC / NS_PER_MS == max * 1000
  {
  }

  /** Never above the cap, never below 90% of the capped delay (in milliseconds). */
  lemma RetryBackoffBounds(errors: int, id: nat, base: nat, max: nat)
    requires errors > 0 && max * 1000 < TWO_64
    ensures var d := RetryBackoff(errors, id, FromSecs(base, max));
            CappedMs(errors, base, max) * 9 / 10 * NS_PER_MS <= d <= max * NS_PER_SEC
  {
    RetryBackoffIsIdeal(errors, id, base, max);
    ScaleBounds(CappedMs(errors, base, max), 10_000 + JitterBp(id));
  }

  lemma ScaleBounds(ms: nat, k: nat)
    requires k >= 9000
    ensures ms * 9 / 10 <= Scale(ms, k)
  {
    assert ms * k >= ms * 9000;
  }

  lemma ScaleMonotone(a: nat, b: nat, k: nat)
    requires a <= b
    ensures Scale(a, k) <= Scale(b, k)
  {
    assert a * k <= b * k;
  }

  lemma CappedMonotone(n: int, m: int, base: nat, max: nat)
    requires 0 < n <= m
    ensures CappedMs(n, base, max) <= CappedMs(m, base, max)
  {
    Pow2Monotone(n - 1, m - 1);
    assert base * Pow2(n - 1) <= base * Pow2(m - 1);
  }

  /** One more failure never shortens the wait of the same connector. */
  lemma RetryBackoffMonotone(n: int, m: int, id: nat, base: nat, max: nat)
    requires n <= m && max * 1000 < TWO_64
    ensures RetryBackoff(n, id, FromSecs(base, max)) <= RetryBackoff(m, id, FromSecs(base, max))
  {
    RetryBackoffIsIdeal(n, id, base, max);
    RetryBackoffIsIdeal(m, id, base, max);
    if n > 0 {
      CappedMonotone(n, m, base, max);
      ScaleMonotone(CappedMs(n, base, max), CappedMs(m, base, max), 10_000 + JitterBp(id));
    }
  }

  lemma CapIsReached(errors: int, max: nat)
    requires errors > 63 && max <= TWO_64 / 2
    ensures 1 * Pow2(errors - 1) >= max && CappedMs(errors, 1, max) == max * 1000
  {
    Pow2Monotone(63, errors - 1);
    Pow2Of63();
  }

  lemma EighthWraps(max: nat)
    requires max == TWO_64 / 8
    ensures max * 1000 % TWO_64 == 0 && Scale(max * 1000, 10_000) == max * 1000
  {
  }

  /** The condition fails for real: with a cap of 2^61 seconds the cast wraps to no wait at all. */
  lemma HugeCapWraps(errors: int, id: nat, max: nat)
    requires max == TWO_64 / 8 && errors > 63 && JitterBp(id) == 0
    ensures RetryBackoff(errors, id, FromSecs(1, max)) == 0 < IdealMs(errors, id, 1, max)
  {
    var ms := max * 1000;
    CapIsReached(errors, max);
    ExponentialIsIdeal(errors, 1, max);
    JitterWraps(ms, id, max);
    EighthWraps(max);
  }

  // ----- the scheduling decision -----

  datatype Kind = Known | ImportOnly | Unknown

  /** A missing or blank schedule, one that does not parse, or a cron expression. */
  datatype Schedule = Unscheduled | Unparsable | Cron(expr: string)

  datatype Connector = Connector(
    id: nat,
    kind: Kind,
    schedule: Schedule,
    lastRun: Option<int>,
    lastSuccess: Option<int>,
    errorCount: int)

  /** The foreign cron library: the next occurrence strictly after a time, if any. */
  type Occurrence = (string, int) -> Option<int>

  predicate StrictlyAfter(occ: Occurrence, expr: string, t: int) {
    occ(expr, t).Some? ==> occ(expr, t).value > t
  }

  /** A delay that does not fit the calendar library's range counts as zero. */
  function AddDuration(when: int, delay: nat): int {
    if delay / NS_PER_MS > I64_MAX then when else when + delay
  }

  function Delay(c: Connector, errors: int, cfg: Config): nat {
    AddDuration(0, RetryBackoff(errors, c.id, cfg))
  }

  datatype Due = Due(yes: bool) | BadSchedule

  function IsDue(c: Connector, now: int, occ: Occurrence): Due {
    if !c.schedule.Cron? then BadSchedule
    else if c.lastRun.None? then Due(true)
    else if c.lastRun.value >= now then Due(false)
    else
      var next := occ(c.schedule.expr, c.lastRun.value);
      Due(next.Some? && next.value <= now)
  }

  predicate IsBackingOff(c: Connector, now: int, cfg: Config) {
    c.errorCount > 0 && c.lastRun.Some?
    && now < AddDuration(c.lastRun.value, RetryBackoff(c.errorCount, c.id, cfg))
  }

  /** The operator's view: when will this connector be tried next? */
  function NextAttemptAt(c: Connector, now: int, cfg: Config, occ: Occurrence): Option<int> {
    if c.schedule.Unscheduled? then None else
    var backoffUntil := if c.lastRun.None? then now
                        else AddDuration(c.lastRun.value, RetryBackoff(c.errorCount, c.id, cfg));
    var cronNext := if !c.schedule.Cron? || c.lastRun.None? then now
                    else occ(c.schedule.expr, c.lastRun.value).GetOr(now);
    Some(Max(cronNext, backoffUntil))
  }

  datatype Plan = SkipImport | SkipUnknownType | SkipUnscheduled | SkipInvalidSchedule
                | NotDue | BackingOff(until: int) | Run

  /** The scheduler's view. */
  function PlanTick(c: Connector, now: int, cfg: Config, occ: Occurrence): Plan {
    if c.kind.ImportOnly? then SkipImport
    else if c.kind.Unknown? then SkipUnknownType
    else if c.schedule.Unscheduled? then SkipUnscheduled
    else match IsDue(c, now, occ)
      case BadSchedule => SkipInvalidSchedule
      case Due(yes) =>
        if !yes then NotDue
        else if IsBackingOff(c, now, cfg) then
          BackingOff(NextAttemptAt(c, now, cfg, occ).GetOr(now))
        else Run
  }

  /**
   Scheduler and operator view agree on a known connector with a valid schedule exactly
   when it never ran, or its next cron occurrence exists, or it is still inside its
   backoff window. Without an occurrence the scheduler says NotDue for ever while the
   operator is told "now".
   */
  lemma ViewsAgreeIff(c: Connector, now: int, cfg: Config, occ: Occurrence)
    requires c.kind.Known? && c.schedule.Cron?
    requires c.lastRun.Some? ==> StrictlyAfter(occ, c.schedule.expr, c.lastRun.value)
    ensures NextAttemptAt(c, now, cfg, occ).Some?
    ensures (PlanTick(c, now, cfg, occ) == Run <==> now >= NextAttemptAt(c, now, cfg, occ).value)
            <==> (c.lastRun.None? || occ(c.schedule.expr, c.lastRun.value).Some?
                  || now < AddDuration(c.lastRun.value, RetryBackoff(c.errorCount, c.id, cfg)))
  {
    if c.lastRun.Some? && occ(c.schedule.expr, c.lastRun.value).Some? {
      assert occ(c.schedule.expr, c.lastRun.value).value > c.lastRun.value;
    }
  }

  /**
   What the operator is told, case by case: nothing without a schedule; now if it never ran; otherwise
   the later of the end of the wait and the next occurrence, or now if there is no occurrence.
   */
  lemma NextAttemptInFigures(c: Connector, now: int, cfg: Config, occ: Occurrence)
    ensures NextAttemptAt(c, now, cfg, occ).None? <==> c.schedule.Unscheduled?
    ensures !c.schedule.Unscheduled? && c.lastRun.None? ==> NextAttemptAt(c, now, cfg, occ) == Some(now)
    ensures !c.schedule.Unscheduled? && c.lastRun.Some? ==>
              var waited := c.lastRun.value + Delay(c, c.errorCount, cfg);
              var next := if c.schedule.Cron? && occ(c.schedule.expr, c.lastRun.value).Some?
                          then occ(c.schedule.expr, c.lastRun.value).value else now;
              NextAttemptAt(c, now, cfg, occ) == Some(if next >= waited then next else waited)
  {
  }

  /** A connector that is backing off is told the operator's own time, and it lies ahead. */
  lemma BackingOffReportsNextAttempt(c: Connector, now: int, cfg: Config, occ: Occurrence)
    ensures var plan := PlanTick(c, now, cfg, occ);
            plan.BackingOff? ==>
              && now < plan.until && NextAttemptAt(c, now, cfg, occ) == Some(plan.until)
              && c.lastRun.Some? && plan.until == c.lastRun.value + Delay(c, c.errorCount, cfg)
  {
    if PlanTick(c, now, cfg, occ).BackingOff? {
      assert c.schedule.Cron?;
      var next := occ(c.schedule.expr, c.lastRun.value);
      assert next.Some? && next.value <= now;
    }
  }

  // ----- runs of a connector that keeps failing -----

  /**
   A scheduler tick at `now`. If it starts an attempt, that attempt fails; `stamp` is the run time it
   leaves in the store (when the failure was recorded, or when it began if only that was, or
   nothing if no write got through), `cleared` whether it had already stored its success,
   which resets the error count, before it failed (the event could not be published), and
   `counted` whether the failure was recorded.
   */
  datatype Tick = Tick(now: int, stamp: Option<int>, cleared: bool, counted: bool)

  predicate Plausible(t: Tick) {
    (t.counted || t.cleared ==> t.stamp.Some?) && (t.stamp.Some? ==> t.now <= t.stamp.value)
  }

  function SaturatingInc(errors: int): int {
    if errors >= I32_MAX then errors else errors + 1
  }

  /** The stored connector after a failed attempt. */
  function AfterFailure(c: Connector, t: Tick): Connector {
    c.(lastRun := if t.stamp.Some? then t.stamp else c.lastRun,
       errorCount := CountAfter(c.errorCount, t))
  }

  /** A recorded failure counts on from the stored count, which a cleared attempt has set to 0. */
  function CountAfter(errors: int, t: Tick): int {
    var stored := if t.cleared then 0 else errors;
    if t.counted then SaturatingInc(stored) else stored
  }

  /** The stored count in figures: one more than before, one after a reset, and never above 2^31 - 1. */
  lemma CountInFigures(errors: int, t: Tick)
    requires 0 <= errors <= 2_147_483_647
    ensures t.counted && !t.cleared ==> CountAfter(errors, t) == if errors < 2_147_483_647 then errors + 1 else errors
    ensures t.counted && t.cleared ==> CountAfter(errors, t) == 1
    ensures !t.counted ==> CountAfter(errors, t) == if t.cleared then 0 else errors
  {
  }

  /** The attempts that a sequence of ticks really starts. */
  function Attempts(c: Connector, ts: seq<Tick>, cfg: Config, occ: Occurrence): seq<Tick>
    decreases |ts|
  {
    if ts == [] then []
    else if PlanTick(c, ts[0].now, cfg, occ).Run?
    then [ts[0]] + Attempts(AfterFailure(c, ts[0]), ts[1..], cfg, occ)
    else Attempts(c, ts[1..], cfg, occ)
  }

  /** The waits that follow the attempts `ts`: one, at the then current error count, for each that left a run time. */
  function Waits(c: Connector, ts: seq<Tick>, cfg: Config): nat
    decreases |ts|
  {
    if ts == [] then 0
    else
      var d := AfterFailure(c, ts[0]);
      (if ts[0].stamp.Some? then Delay(d, d.errorCount, cfg) else 0) + Waits(d, ts[1..], cfg)
  }

  /** The first run time that one of the attempts left. */
  function FirstStamp(ts: seq<Tick>): Option<int> {
    if ts == [] then None else if ts[0].stamp.Some? then ts[0].stamp else FirstStamp(ts[1..])
  }

  lemma {:induction false} StartBound(c: Connector, ts: seq<Tick>, k: nat, cfg: Config, occ: Occurrence)
    requires c.lastRun.Some? && forall i :: 0 <= i < |ts| ==> Plausible(ts[i])
    requires k < |Attempts(c, ts, cfg, occ)|
    ensures var tries := Attempts(c, ts, cfg, occ);
            tries[k].now >= c.lastRun.value + Delay(c, c.errorCount, cfg) + Waits(c, tries[..k], cfg)
    decreases |ts|
  {
    var tries := Attempts(c, ts, cfg, occ);
    if PlanTick(c, ts[0].now, cfg, occ).Run? {
      assert ts[0].now >= c.lastRun.value + Delay(c, c.errorCount, cfg);
      if k > 0 {
        StartBound(AfterFailure(c, ts[0]), ts[1..], k - 1, cfg, occ);
        assert tries[..k][1..] == tries[1..][..k - 1];
      }
    } else {
      StartBound(c, ts[1..], k, cfg, occ);
    }
  }

  /**
   A connector that keeps failing: in every sequence of ticks, every attempt starts no earlier than
   the first run time an earlier attempt left in the store plus the waits of all earlier attempts,
   whatever the base, the cap, the identifier, the cron expression, the tick times and the
   store's lost writes are. An attempt that left nothing in the store causes no wait.
   */
  lemma {:induction false} AttemptsAreSpaced(c: Connector, ts: seq<Tick>, k: nat, cfg: Config, occ: Occurrence)
    requires forall i :: 0 <= i < |ts| ==> Plausible(ts[i])
    requires k < |Attempts(c, ts, cfg, occ)|
    ensures var tries := Attempts(c, ts, cfg, occ); var first := FirstStamp(tries[..k]);
            first.Some? ==> tries[k].now >= first.value + Waits(c, tries[..k], cfg)
    decreases |ts|
  {
    var tries := Attempts(c, ts, cfg, occ);
    if PlanTick(c, ts[0].now, cfg, occ).Run? {
      if k > 0 {
        var d := AfterFailure(c, ts[0]);
        assert tries[..k][1..] == tries[1..][..k - 1];
        if ts[0].stamp.Some? {
          StartBound(d, ts[1..], k - 1, cfg, occ);
        } else {
          AttemptsAreSpaced(d, ts[1..], k - 1, cfg, occ);
        }
      }
    } else {
      AttemptsAreSpaced(c, ts[1..], k, cfg, occ);
    }
  }

  /** The sum of the waits after `errors`, `errors + 1`, ... failures, `k` of them. */
  function WaitSum(c: Connector, errors: int, k: nat, cfg: Config): nat
    decreases k
  {
    if k == 0 then 0 else Delay(c, errors, cfg) + WaitSum(c, SaturatingInc(errors), k - 1, cfg)
  }

  // ----- when recorded failures wait longer and longer -----

  /** The waits of recorded failures of which those marked in `clears` had reset the count before. */
  function RecordedWaits(c: Connector, errors: int, clears: seq<bool>, cfg: Config): nat
    decreases |clears|
  {
    if clears == [] then 0
    else
      var e := SaturatingInc(if clears[0] then 0 else errors);
      Delay(c, e, cfg) + RecordedWaits(c, e, clears[1..], cfg)
  }

  /** The first attempts of the run are recorded failures with exactly these resets. */
  predicate Follows(tries: seq<Tick>, clears: seq<bool>) {
    |clears| <= |tries|
    && forall i :: 0 <= i < |clears| ==> tries[i].counted && tries[i].stamp.Some? && tries[i].cleared == clears[i]
  }

  lemma {:induction false} RecordedWaitsAre(c: Connector, d: Connector, tries: seq<Tick>, clears: seq<bool>, cfg: Config)
    requires c.id == d.id && |tries| == |clears| && Follows(tries, clears)
    ensures Waits(c, tries, cfg) == RecordedWaits(d, c.errorCount, clears, cfg)
    decreases |tries|
  {
    if tries != [] { RecordedWaitsAre(AfterFailure(c, tries[0]), d, tries[1..], clears[1..], cfg); }
  }

  lemma FirstIsStamped(tries: seq<Tick>, clears: seq<bool>)
    requires clears != [] && Follows(tries, clears)
    ensures FirstStamp(tries[..|clears|]) == tries[0].stamp
  {
  }

  /** Recorded failures wait at least for what their resets leave of the backoff, in every run. */
  lemma RecordedFailuresWaitAtLeast(c: Connector, ts: seq<Tick>, clears: seq<bool>, cfg: Config, occ: Occurrence)
    requires forall i :: 0 <= i < |ts| ==> Plausible(ts[i])
    requires clears != [] && |clears| < |Attempts(c, ts, cfg, occ)| && Follows(Attempts(c, ts, cfg, occ), clears)
    ensures var tries := Attempts(c, ts, cfg, occ);
            tries[|clears|].now >= tries[0].stamp.value + RecordedWaits(c, c.errorCount, clears, cfg)
  {
    var tries := Attempts(c, ts, cfg, occ);
    AttemptsAreSpaced(c, ts, |clears|, cfg, occ);
    FirstIsStamped(tries, clears);
    RecordedWaitsAre(c, c, tries[..|clears|], clears, cfg);
  }

  /** Each wait is as long as if no attempt had reset the count: nothing was reset, or the cap hides it. */
  predicate SameWaits(c: Connector, errors: int, promised: int, clears: seq<bool>, cfg: Config)
    decreases |clears|
  {
    clears == []
    || (var e, p := SaturatingInc(if clears[0] then 0 else errors), SaturatingInc(promised);
        Delay(c, e, cfg) == Delay(c, p, cfg) && SameWaits(c, e, p, clears[1..], cfg))
  }

  lemma DelayMonotone(c: Connector, n: int, m: int, base: nat, max: nat)
    requires n <= m && max * 1000 <= I64_MAX
    ensures Delay(c, n, FromSecs(base, max)) <= Delay(c, m, FromSecs(base, max))
  {
    DelayIsBackoff(c, n, base, max);
    DelayIsBackoff(c, m, base, max);
    RetryBackoffMonotone(n, m, c.id, base, max);
  }

  /** Resets only ever shorten the waits, and leave the sum as it is exactly when they leave every wait. */
  lemma {:induction false} ResetsShorten(c: Connector, errors: int, promised: int, clears: seq<bool>, base: nat, max: nat)
    requires 0 <= errors <= promised && max * 1000 <= I64_MAX
    ensures var cfg := FromSecs(base, max);
            && RecordedWaits(c, errors, clears, cfg) <= WaitSum(c, SaturatingInc(promised), |clears|, cfg)
            && (RecordedWaits(c, errors, clears, cfg) == WaitSum(c, SaturatingInc(promised), |clears|, cfg)
                <==> SameWaits(c, errors, promised, clears, cfg))
    decreases |clears|
  {
    if clears != [] {
      var e, p := SaturatingInc(if clears[0] then 0 else errors), SaturatingInc(promised);
      DelayMonotone(c, e, p, base, max);
      ResetsShorten(c, e, p, clears[1..], base, max);
    }
  }

  /** The promise for the pattern `clears`, in every run under every cron library. */
  ghost predicate GrowingWaits(c: Connector, clears: seq<bool>, cfg: Config) {
    forall ts, occ | (forall i :: 0 <= i < |ts| ==> Plausible(ts[i]))
                     && (forall x, t :: StrictlyAfter(occ, x, t)) :: WaitsGrow(c, ts, clears, cfg, occ)
  }

  predicate WaitsGrow(c: Connector, ts: seq<Tick>, clears: seq<bool>, cfg: Config, occ: Occurrence) {
    var tries := Attempts(c, ts, cfg, occ);
    0 < |clears| < |tries| && Follows(tries, clears) ==>
      tries[|clears|].now >= tries[0].stamp.value + WaitSum(c, SaturatingInc(c.errorCount), |clears|, cfg)
  }

  const everyInstant: Occurrence := (x: string, t: int) => Some(t + 1)

  /** Failures that are recorded at once and retried as soon as the backoff allows. */
  function TightRun(c: Connector, at: int, clears: seq<bool>, cfg: Config): (ts: seq<Tick>)
    ensures |ts| == |clears| + 1 && ts[0].now == at && ts[0].stamp == Some(at)
    decreases |clears|
  {
    var t := Tick(at, Some(at), clears != [] && clears[0], true);
    if clears == [] then [t]
    else
      var d := AfterFailure(c, t);
      [t] + TightRun(d, at + Delay(d, d.errorCount, cfg), clears[1..], cfg)
  }

  lemma DelayPositive(c: Connector, errors: int, base: nat, max: nat)
    requires errors > 0 && base > 0 && max > 0 && max * 1000 <= I64_MAX
    ensures Delay(c, errors, FromSecs(base, max)) > 0
  {
    DelayIsBackoff(c, errors, base, max);
    RetryBackoffBounds(errors, c.id, base, max);
    ProductAtLeast(base, Pow2(errors - 1), 1);
  }

  lemma {:induction false} TightRunShape(c: Connector, at: int, clears: seq<bool>, cfg: Config)
    ensures var ts := TightRun(c, at, clears, cfg);
            Follows(ts, clears) && forall i :: 0 <= i < |ts| ==> Plausible(ts[i])
    decreases |clears|
  {
    if clears != [] {
      var d := AfterFailure(c, TightRun(c, at, clears, cfg)[0]);
      TightRunShape(d, at + Delay(d, d.errorCount, cfg), clears[1..], cfg);
    }
  }

  lemma {:induction false} TightRunEnds(c: Connector, at: int, clears: seq<bool>, cfg: Config)
    ensures TightRun(c, at, clears, cfg)[|clears|].now == at + RecordedWaits(c, c.errorCount, clears, cfg)
    decreases |clears|
  {
    if clears != [] {
      var d := AfterFailure(c, TightRun(c, at, clears, cfg)[0]);
      TightRunEnds(d, at + Delay(d, d.errorCount, cfg), clears[1..], cfg);
      RecordedWaitsSameId(c, d, d.errorCount, clears[1..], cfg);
    }
  }

  /** A connector that has just failed is started again as soon as its wait is over. */
  lemma RetriedInTime(c: Connector, base: nat, max: nat)
    requires base > 0 && max > 0 && max * 1000 <= I64_MAX && c.errorCount > 0
    requires c.kind.Known? && c.schedule.Cron? && c.lastRun.Some?
    ensures PlanTick(c, c.lastRun.value + Delay(c, c.errorCount, FromSecs(base, max)), FromSecs(base, max), everyInstant).Run?
  {
    DelayPositive(c, c.errorCount, base, max);
  }

  lemma {:induction false} TightRunRuns(c: Connector, at: int, clears: seq<bool>, base: nat, max: nat)
    requires base > 0 && max > 0 && max * 1000 <= I64_MAX && c.errorCount >= 0
    requires PlanTick(c, at, FromSecs(base, max), everyInstant).Run?
    ensures var ts := TightRun(c, at, clears, FromSecs(base, max));
            Attempts(c, ts, FromSecs(base, max), everyInstant) == ts
    decreases |clears|
  {
    var cfg := FromSecs(base, max);
    var ts := TightRun(c, at, clears, cfg);
    if clears != [] {
      var d := AfterFailure(c, ts[0]);
      RetriedInTime(d, base, max);
      TightRunRuns(d, at + Delay(d, d.errorCount, cfg), clears[1..], base, max);
      assert ts[1..] == TightRun(d, at + Delay(d, d.errorCount, cfg), clears[1..], cfg);
    } else {
      assert ts[1..] == [];
    }
  }

  lemma {:induction false} RecordedWaitsSameId(c: Connector, d: Connector, errors: int, clears: seq<bool>, cfg: Config)
    requires c.id == d.id
    ensures RecordedWaits(c, errors, clears, cfg) == RecordedWaits(d, errors, clears, cfg)
    decreases |clears|
  {
    if clears != [] {
      RecordedWaitsSameId(c, d, SaturatingInc(if clears[0] then 0 else errors), clears[1..], cfg);
    }
  }

  /** A time at which a known connector with a schedule runs, whatever it has gone through. */
  function ReadyAt(c: Connector, cfg: Config): int {
    if c.lastRun.None? then 0 else c.lastRun.value + Delay(c, c.errorCount, cfg) + 1
  }

  lemma {:induction false} NoWaitsAtAll(c: Connector, errors: int, promised: int, clears: seq<bool>, base: nat, max: nat)
    requires base == 0 || max == 0
    ensures SameWaits(c, errors, promised, clears, FromSecs(base, max))
    decreases |clears|
  {
    if clears != [] {
      var e, p := SaturatingInc(if clears[0] then 0 else errors), SaturatingInc(promised);
      NoWait(c, e, base, max);
      NoWait(c, p, base, max);
      NoWaitsAtAll(c, e, p, clears[1..], base, max);
    }
  }

  lemma NoWait(c: Connector, errors: int, base: nat, max: nat)
    requires base == 0 || max == 0
    ensures Delay(c, errors, FromSecs(base, max)) == 0
  {
    if errors > 0 && base > 0 { RetryBackoffBounds(errors, c.id, base, max); }
  }

  lemma TightRunBreaks(c: Connector, clears: seq<bool>, base: nat, max: nat)
    requires c.kind.Known? && c.schedule.Cron? && c.errorCount >= 0 && max * 1000 <= I64_MAX && clears != []
    requires !SameWaits(c, c.errorCount, c.errorCount, clears, FromSecs(base, max))
    ensures !GrowingWaits(c, clears, FromSecs(base, max))
  {
    var cfg := FromSecs(base, max);
    if base == 0 || max == 0 { NoWaitsAtAll(c, c.errorCount, c.errorCount, clears, base, max); }
    var at := ReadyAt(c, cfg);
    assert PlanTick(c, at, cfg, everyInstant).Run?;
    var ts := TightRun(c, at, clears, cfg);
    TightRunRuns(c, at, clears, base, max);
    TightRunShape(c, at, clears, cfg);
    TightRunEnds(c, at, clears, cfg);
    ResetsShorten(c, c.errorCount, c.errorCount, clears, base, max);
    assert forall x, t :: StrictlyAfter(everyInstant, x, t);
    assert !WaitsGrow(c, ts, clears, cfg, everyInstant);
  }

  /**
   When does a connector whose failures are all recorded wait longer and longer? For the first k
   attempts with a given pattern of resets, attempt k+1 starts in every run no earlier than
   the first failure plus the first k growing waits if and only if the resets leave every
   one of these waits as it is: no attempt stored its success before it failed, or the cap
   makes the waits equal.
   */
  lemma RecordedFailuresWaitIff(c: Connector, clears: seq<bool>, base: nat, max: nat)
    requires c.kind.Known? && c.schedule.Cron? && c.errorCount >= 0 && max * 1000 <= I64_MAX && clears != []
    ensures GrowingWaits(c, clears, FromSecs(base, max))
            <==> SameWaits(c, c.errorCount, c.errorCount, clears, FromSecs(base, max))
  {
    var cfg := FromSecs(base, max);
    if SameWaits(c, c.errorCount, c.errorCount, clears, cfg) {
      ResetsShorten(c, c.errorCount, c.errorCount, clears, base, max);
      forall ts, occ | (forall i :: 0 <= i < |ts| ==> Plausible(ts[i])) && (forall x, t :: StrictlyAfter(occ, x, t))
        ensures WaitsGrow(c, ts, clears, cfg, occ)
      {
        var tries := Attempts(c, ts, cfg, occ);
        if |clears| < |tries| && Follows(tries, clears) { RecordedFailuresWaitAtLeast(c, ts, clears, cfg, occ); }
      }
    } else {
      TightRunBreaks(c, clears, base, max);
    }
  }

  /** Without a reset the promise holds for every configuration, wrapped delays included. */
  lemma RecordedFailuresWait(c: Connector, ts: seq<Tick>, k: nat, cfg: Config, occ: Occurrence)
    requires forall i :: 0 <= i < |ts| ==> Plausible(ts[i]) && ts[i].counted && !ts[i].cleared
    requires 0 < k < |Attempts(c, ts, cfg, occ)|
    ensures var tries := Attempts(c, ts, cfg, occ);
            tries[0].stamp.Some? && tries[k].now >= tries[0].stamp.value + WaitSum(c, SaturatingInc(c.errorCount), k, cfg)
  {
    var clears := seq(k, _ => false);
    AttemptsAreTicks(c, ts, cfg, occ);
    RecordedFailuresWaitAtLeast(c, ts, clears, cfg, occ);
    NoResets(c, c.errorCount, k, cfg);
  }

  lemma {:induction false} NoResets(c: Connector, errors: int, k: nat, cfg: Config)
    ensures RecordedWaits(c, errors, seq(k, _ => false), cfg) == WaitSum(c, SaturatingInc(errors), k, cfg)
    decreases k
  {
    var clears: seq<bool> := seq(k, _ => false);
    if k > 0 {
      assert clears[1..] == seq(k - 1, _ => false);
      NoResets(c, SaturatingInc(errors), k - 1, cfg);
    }
  }

  lemma {:induction false} AttemptsAreTicks(c: Connector, ts: seq<Tick>, cfg: Config, occ: Occurrence)
    ensures forall i :: 0 <= i < |Attempts(c, ts, cfg, occ)| ==> Attempts(c, ts, cfg, occ)[i] in ts
    decreases |ts|
  {
    if ts != [] {
      AttemptsAreTicks(if PlanTick(c, ts[0].now, cfg, occ).Run? then AfterFailure(c, ts[0]) else c, ts[1..], cfg, occ);
      assert forall t :: t in ts[1..] ==> t in ts;
    }
  }

  lemma OneMore(k: nat, d: nat)
    requires k > 0
    ensures k * d == d + (k - 1) * d
  {
  }

  lemma {:induction false} AllResets(c: Connector, errors: int, k: nat, cfg: Config)
    ensures RecordedWaits(c, errors, seq(k, _ => true), cfg) == k * Delay(c, 1, cfg)
    decreases k
  {
    var clears: seq<bool> := seq(k, _ => true);
    if k > 0 {
      assert clears[1..] == seq(k - 1, _ => true);
      AllResets(c, 1, k - 1, cfg);
      OneMore(k, Delay(c, 1, cfg));
    }
  }

  /**
   The broker is down: every attempt stores its success, fails to publish and is recorded as failed.
   Then there are runs in which attempt k+1 starts k times the first wait after the first
   failure, for every k; the backoff never grows.
   */
  lemma BrokerDownNeverBacksOff(c: Connector, k: nat, base: nat, max: nat)
    requires c.kind.Known? && c.schedule.Cron? && c.errorCount >= 0
    requires base > 0 && max > 0 && max * 1000 <= I64_MAX && k > 0
    ensures var cfg := FromSecs(base, max);
            exists ts: seq<Tick> :: (forall i :: 0 <= i < |ts| ==> Plausible(ts[i])) && |ts| == k + 1
                         && Attempts(c, ts, cfg, everyInstant) == ts && Follows(ts, seq(k, _ => true))
                         && ts[k].now == ts[0].stamp.value + k * Delay(c, 1, cfg)
  {
    var cfg, clears := FromSecs(base, max), seq(k, _ => true);
    var at := ReadyAt(c, cfg);
    assert PlanTick(c, at, cfg, everyInstant).Run?;
    var ts := TightRun(c, at, clears, cfg);
    TightRunRuns(c, at, clears, base, max);
    TightRunShape(c, at, clears, cfg);
    TightRunEnds(c, at, clears, cfg);
    AllResets(c, c.errorCount, k, cfg);
    assert Attempts(c, ts, cfg, everyInstant) == ts;
  }

  /** With a cap inside the calendar's range the effective wait is the full backoff. */
  lemma DelayIsBackoff(c: Connector, errors: int, base: nat, max: nat)
    requires max * 1000 <= 0x7FFF_FFFF_FFFF_FFFF
    ensures Delay(c, errors, FromSecs(base, max)) == RetryBackoff(errors, c.id, FromSecs(base, max))
  {
    if errors > 0 {
      RetryBackoffBounds(errors, c.id, base, max);
    }
  }
}
