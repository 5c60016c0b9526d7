/**
 Observed pressure of the AI gateway (crates/ai-gateway/src/pressure.rs): a bounded sliding
 window of attempts, a nearest-rank percentile, a threshold table and a hysteresis
 automaton. Times and latencies are whole nanoseconds, ratios are reals.
 */
module Pressure {
  import opened Prelude
  import opened Sorting

  datatype Level = Normal | Elevated | High | Critical {
    function Severity(): nat {
      match this
      case Normal => 0
      case Elevated => 1
      case High => 2
      case Critical => 3
    }
  }

  datatype Class = Success | RateLimited | Timeout | ServerError | Other

  datatype Sample = Sample(at: int, latency: nat, kind: Class)

  /** One row of the threshold table. */
  datatype Bar = Bar(p95: nat, rateLimited: real, timeout: real, serverError: real, queue: nat)

  datatype Thresholds = Thresholds(
    enabled: bool, window: nat, minSamples: nat, cooldown: nat,
    elevated: Bar, high: Bar, critical: Bar)

  const MAX_SAMPLES: nat := 1024

  // ----- the window -----

  predicate Stale(x: Sample, now: int, window: nat) {
    Max(0, now - x.at) > window
  }

  predicate Ordered(log: seq<Sample>, now: int) {
    && (forall i, j :: 0 <= i < j < |log| ==> log[i].at <= log[j].at)
    && (forall i :: 0 <= i < |log| ==> log[i].at <= now)
  }

  /** Pops stale samples off the front. */
  function Prune(s: seq<Sample>, now: int, window: nat): seq<Sample> {
    if s != [] && Stale(s[0], now, window) then Prune(s[1..], now, window) else s
  }

  /** The first sample that is not stale. */
  function FirstFresh(log: seq<Sample>, now: int, window: nat): (k: nat)
    ensures k <= |log|
    ensures forall i :: 0 <= i < k ==> Stale(log[i], now, window)
    ensures k < |log| ==> !Stale(log[k], now, window)
  {
    if log != [] && Stale(log[0], now, window) then 1 + FirstFresh(log[1..], now, window) else 0
  }

  function WindowStart(log: seq<Sample>, now: int, window: nat): (k: nat)
    ensures k <= |log|
  {
    Max(FirstFresh(log, now, window), |log| - MAX_SAMPLES)
  }

  /** The reference: the part of the whole history that counts at `now`. */
  function Window(log: seq<Sample>, now: int, window: nat): seq<Sample> {
    log[WindowStart(log, now, window)..]
  }

  /** It is the longest suffix with at most 1024 samples and no stale one. */
  lemma WindowIsLongestSuffix(log: seq<Sample>, now: int, window: nat, k: nat)
    requires Ordered(log, now) && k <= |log|
    ensures (|log| - k <= 1024 && forall i :: k <= i < |log| ==> now - log[i].at <= window)
            <==> k >= WindowStart(log, now, window)
  {
    var f := FirstFresh(log, now, window);
    if k < f {
      assert Stale(log[k], now, window);
    }
    forall i | f <= i < |log| ensures !Stale(log[i], now, window) {
      assert log[f].at <= log[i].at;
    }
  }

  function FreshOf(log: seq<Sample>, now: int, window: nat): seq<Sample> {
    if log == [] then []
    else (if Stale(log[0], now, window) then [] else [log[0]]) + FreshOf(log[1..], now, window)
  }

  /** Popping from the front equals filtering the whole history, because the clock never goes back. */
  lemma {:induction false} PruneIsFilter(log: seq<Sample>, now: int, window: nat)
    requires Ordered(log, now)
    ensures Prune(log, now, window) == FreshOf(log, now, window)
  {
    if log != [] {
      PruneIsFilter(log[1..], now, window);
      if !Stale(log[0], now, window) {
        assert log[1..] != [] ==> log[1..][0] == log[1] && !Stale(log[1], now, window);
        assert Prune(log[1..], now, window) == log[1..];
        assert [log[0]] + log[1..] == log;
      }
    }
  }

  lemma {:induction false} PruneFrom(log: seq<Sample>, k: nat, now: int, window: nat)
    requires Ordered(log, now) && k <= |log|
    ensures Prune(log[k..], now, window) == log[Max(k, FirstFresh(log, now, window))..]
    decreases |log| - k
  {
    var f := FirstFresh(log, now, window);
    if k < f {
      assert Stale(log[k], now, window);
      assert log[k..][1..] == log[k + 1..];
      PruneFrom(log, k + 1, now, window);
    } else if k < |log| {
      assert log[f].at <= log[k].at;
    }
  }

  lemma FirstFreshGrows(log: seq<Sample>, more: seq<Sample>, t: int, now: int, window: nat)
    requires t <= now && Ordered(log + more, now)
    ensures FirstFresh(log, t, window) <= FirstFresh(log + more, now, window)
  {
    assert forall i :: 0 <= i < |log| ==> (log + more)[i] == log[i];
    assert forall i :: 0 <= i < FirstFresh(log, t, window) ==> Stale((log + more)[i], now, window);
  }

  /** Pruning a window that was right earlier makes it right now. */
  lemma PruneWindow(log: seq<Sample>, t: int, now: int, window: nat)
    requires t <= now && Ordered(log, now)
    ensures Prune(Window(log, t, window), now, window) == Window(log, now, window)
  {
    PruneFrom(log, WindowStart(log, t, window), now, window);
    assert log + [] == log;
    FirstFreshGrows(log, [], t, now, window);
  }

  function Capped(s: seq<Sample>): seq<Sample> {
    if |s| > MAX_SAMPLES then s[|s| - MAX_SAMPLES..] else s
  }

  /** Appending, pruning and capping keep the window right. */
  lemma RecordWindow(log: seq<Sample>, x: Sample, t: int, window: nat)
    requires t <= x.at && Ordered(log + [x], x.at)
    ensures Capped(Prune(Window(log, t, window) + [x], x.at, window)) == Window(log + [x], x.at, window)
  {
    var k, after := WindowStart(log, t, window), log + [x];
    assert log[k..] + [x] == after[k..];
    var from := Max(k, FirstFresh(after, x.at, window));
    PruneFrom(after, k, x.at, window);
    CappedSuffix(after, from);
    assert Max(from, |after| - MAX_SAMPLES) == WindowStart(after, x.at, window) by {
      FirstFreshGrows(log, [x], t, x.at, window);
    }
  }

  lemma OrderedAppend(log: seq<Sample>, t: int, x: Sample)
    requires Ordered(log, t) && t <= x.at
    ensures Ordered(log + [x], x.at)
  {
  }

  lemma StaysWindow(log: seq<Sample>, t: int, x: Sample, window: nat)
    requires Ordered(log, t) && t <= x.at
    ensures Ordered(log + [x], x.at)
    ensures Capped(Prune(Window(log, t, window) + [x], x.at, window)) == Window(log + [x], x.at, window)
  {
    OrderedAppend(log, t, x);
    RecordWindow(log, x, t, window);
  }

  lemma CappedSuffix(s: seq<Sample>, k: nat)
    requires k <= |s|
    ensures Capped(s[k..]) == s[Max(k, |s| - MAX_SAMPLES)..]
  {
  }

  // ----- the percentile -----

  const natLe: (nat, nat) -> bool := (a, b) => a <= b

  /** The nearest rank of the 95th percentile: ceil(0.95 n), at least 1 when there are samples. */
  function Rank(n: nat): (r: nat)
    ensures n > 0 ==> 1 <= r <= n
  {
    (19 * n + 19) / 20
  }

  function Percentile95(values: seq<nat>): nat {
    if values == [] then 0 else
    SortPermutes(natLe, values);
    Sort(natLe, values)[Rank(|values|) - 1]
  }

  function AtMost(v: nat): nat -> bool {
    x => x <= v
  }

  function Below(v: nat): nat -> bool {
    x => x < v
  }

  lemma SortedAtMost(s: seq<nat>, k: nat)
    requires Sorted(natLe, s) && k < |s|
    ensures Count(AtMost(s[k]), s) >= k + 1
  {
    assert s == s[..k + 1] + s[k + 1..];
    forall x | x in s[..k + 1] ensures AtMost(s[k])(x) {
      var i :| 0 <= i < k + 1 && s[i] == x;
      assert i < k ==> natLe(s[i], s[k]);
    }
    CountAll(AtMost(s[k]), s[..k + 1]);
    CountConcat(AtMost(s[k]), s[..k + 1], s[k + 1..]);
  }

  lemma SortedBelow(s: seq<nat>, k: nat)
    requires Sorted(natLe, s) && k < |s|
    ensures Count(Below(s[k]), s) <= k
  {
    assert s == s[..k] + s[k..];
    forall x | x in s[k..] ensures !Below(s[k])(x) {
      var i :| 0 <= i < |s[k..]| && s[k..][i] == x;
      assert i > 0 ==> natLe(s[k], s[k + i]);
    }
    CountAll(Below(s[k]), s[k..]);
    CountConcat(Below(s[k]), s[..k], s[k..]);
  }

  lemma SortedValues(values: seq<nat>)
    ensures Sorted(natLe, Sort(natLe, values))
    ensures |Sort(natLe, values)| == |values| && multiset(Sort(natLe, values)) == multiset(values)
  {
    SortPermutes(natLe, values);
    SortSorts(natLe, values);
  }

  /**
   What the percentile is, without sorting: at least 95 of 100 samples are at or below it, and fewer
   than 95 of 100 are strictly below it.
   */
  lemma PercentileIsOrderStatistic(values: seq<nat>)
    requires values != []
    ensures Count(AtMost(Percentile95(values)), values) >= Rank(|values|)
    ensures Count(Below(Percentile95(values)), values) < Rank(|values|)
    ensures 100 * Count((x: nat) => x <= Percentile95(values), values) >= 95 * |values|
    ensures 100 * Count((x: nat) => x < Percentile95(values), values) < 95 * |values|
  {
    var s, v := Sort(natLe, values), Percentile95(values);
    SortedValues(values);
    assert v == s[Rank(|values|) - 1];
    SortedAtMost(s, Rank(|values|) - 1);
    SortedBelow(s, Rank(|values|) - 1);
    CountPermutation(AtMost(v), s, values);
    CountPermutation(Below(v), s, values);
    SamePredicate(AtMost(v), (x: nat) => x <= v, values);
    SamePredicate(Below(v), (x: nat) => x < v, values);
  }

  lemma {:induction false} SamePredicate(p: nat -> bool, q: nat -> bool, values: seq<nat>)
    requires forall x :: p(x) == q(x)
    ensures Count(p, values) == Count(q, values)
  {
    if values != [] { SamePredicate(p, q, values[1..]); }
  }

  lemma {:induction false} CountDominated(a: seq<nat>, b: seq<nat>, v: nat)
    requires |a| == |b| && forall i :: 0 <= i < |a| ==> a[i] <= b[i]
    ensures Count(AtMost(v), b) <= Count(AtMost(v), a)
  {
    if a != [] { CountDominated(a[1..], b[1..], v); }
  }

  lemma {:induction false} CountBelowAtMost(a: seq<nat>, v: nat, w: nat)
    requires v < w
    ensures Count(AtMost(v), a) <= Count(Below(w), a)
  {
    if a != [] { CountBelowAtMost(a[1..], v, w); }
  }

  /** Raising latencies never lowers the percentile. */
  lemma PercentileMonotone(a: seq<nat>, b: seq<nat>)
    requires |a| == |b| && forall i :: 0 <= i < |a| ==> a[i] <= b[i]
    ensures Percentile95(a) <= Percentile95(b)
  {
    if a != [] && Percentile95(b) < Percentile95(a) {
      PercentileIsOrderStatistic(a);
      PercentileIsOrderStatistic(b);
      CountDominated(a, b, Percentile95(b));
      CountBelowAtMost(a, Percentile95(b), Percentile95(a));
      assert false;
    }
  }

  // ----- the raw level -----

  function Latencies(s: seq<Sample>): seq<nat> {
    seq(|s|, i requires 0 <= i < |s| => s[i].latency)
  }

  function IsClass(c: Class): Sample -> bool {
    (x: Sample) => x.kind == c
  }

  /** Without samples the ratio is not a number and passes no threshold. */
  predicate RatioAtLeast(s: seq<Sample>, c: Class, bar: real) {
    |s| > 0 && Count(IsClass(c), s) as real / |s| as real >= bar
  }

  predicate Reaches(s: seq<Sample>, queue: nat, bar: Bar) {
    || Percentile95(Latencies(s)) >= bar.p95
    || RatioAtLeast(s, RateLimited, bar.rateLimited)
    || RatioAtLeast(s, Timeout, bar.timeout)
    || RatioAtLeast(s, ServerError, bar.serverError)
    || queue >= bar.queue
  }

  /** `count` of `n` is at least the share `bar`. */
  predicate AtLeastShare(count: nat, n: nat, bar: real) {
    count as real >= bar * n as real
  }

  lemma ShareIsQuotient(count: nat, n: nat, bar: real)
    requires n > 0
    ensures count as real / n as real >= bar <==> AtLeastShare(count, n, bar)
  {
    QuotientAtLeast(count as real, n as real, bar);
  }

  lemma QuotientAtLeast(x: real, n: real, bar: real)
    requires n > 0.0
    ensures x / n >= bar <==> x >= bar * n
  {
    var q := x / n;
    assert q * n == x;
    if q >= bar { assert q * n >= bar * n; } else { assert (bar - q) * n > 0.0; }
  }

  lemma RatioInFigures(s: seq<Sample>, c: Class, p: Sample -> bool, bar: real)
    requires |s| > 0 && forall x :: p(x) <==> x.kind == c
    ensures RatioAtLeast(s, c, bar) <==> AtLeastShare(Count(p, s), |s|, bar)
  {
    var n := Count(p, s);
    assert Count(IsClass(c), s) == n by { SameCount(IsClass(c), p, s); }
    ShareIsQuotient(n, |s|, bar);
  }

  lemma {:induction false} SameCount(p: Sample -> bool, q: Sample -> bool, s: seq<Sample>)
    requires forall x :: p(x) == q(x)
    ensures Count(p, s) == Count(q, s)
  {
    if s != [] { SameCount(p, q, s[1..]); }
  }

  /** Which number is held against which bar, without quotients. */
  lemma ReachesInFigures(s: seq<Sample>, queue: nat, bar: Bar)
    requires |s| > 0
    ensures Reaches(s, queue, bar) <==>
              || Percentile95(Latencies(s)) >= bar.p95
              || AtLeastShare(Count((x: Sample) => x.kind.RateLimited?, s), |s|, bar.rateLimited)
              || AtLeastShare(Count((x: Sample) => x.kind.Timeout?, s), |s|, bar.timeout)
              || AtLeastShare(Count((x: Sample) => x.kind.ServerError?, s), |s|, bar.serverError)
              || queue >= bar.queue
  {
    RatioInFigures(s, RateLimited, (x: Sample) => x.kind.RateLimited?, bar.rateLimited);
    RatioInFigures(s, Timeout, (x: Sample) => x.kind.Timeout?, bar.timeout);
    RatioInFigures(s, ServerError, (x: Sample) => x.kind.ServerError?, bar.serverError);
  }

  function RawLevel(s: seq<Sample>, queue: nat, t: Thresholds): Level {
    if |s| < t.minSamples then Normal
    else if Reaches(s, queue, t.critical) then Critical
    else if Reaches(s, queue, t.high) then High
    else if Reaches(s, queue, t.elevated) then Elevated
    else Normal
  }

  /** The override chain as written: each row that is reached replaces the level found so far. */
  method ComputeRawLevel(s: seq<Sample>, queue: nat, t: Thresholds) returns (level: Level)
    ensures level == RawLevel(s, queue, t)
  {
    if |s| < t.minSamples { return Normal; }
    level := Normal;
    if Reaches(s, queue, t.elevated) { level := Elevated; }
    if Reaches(s, queue, t.high) { level := High; }
    if Reaches(s, queue, t.critical) { level := Critical; }
  }

  /** The raw level is at least L exactly when some row at or above L is reached by enough samples. */
  lemma RawLevelIsHighestReached(s: seq<Sample>, queue: nat, t: Thresholds)
    ensures RawLevel(s, queue, t).Severity() >= 3 <==> |s| >= t.minSamples && Reaches(s, queue, t.critical)
    ensures RawLevel(s, queue, t).Severity() >= 2 <==>
              |s| >= t.minSamples && (Reaches(s, queue, t.critical) || Reaches(s, queue, t.high))
    ensures RawLevel(s, queue, t).Severity() >= 1 <==>
              |s| >= t.minSamples
              && (Reaches(s, queue, t.critical) || Reaches(s, queue, t.high) || Reaches(s, queue, t.elevated))
  {
  }

  /** `b` is `a` with some latencies raised and some harmless attempts turned into failures. */
  predicate Worse(a: seq<Sample>, b: seq<Sample>) {
    && |a| == |b|
    && forall i :: 0 <= i < |a| ==>
         a[i].latency <= b[i].latency
         && (a[i].kind == b[i].kind || a[i].kind.Success? || a[i].kind.Other?)
  }

  lemma {:induction false} CountWorse(a: seq<Sample>, b: seq<Sample>, c: Class)
    requires Worse(a, b) && !c.Success? && !c.Other?
    ensures Count(IsClass(c), a) <= Count(IsClass(c), b)
  {
    if a != [] { CountWorse(a[1..], b[1..], c); }
  }

  lemma RatioWorse(a: seq<Sample>, b: seq<Sample>, c: Class, bar: real)
    requires Worse(a, b) && !c.Success? && !c.Other? && RatioAtLeast(a, c, bar)
    ensures RatioAtLeast(b, c, bar)
  {
    CountWorse(a, b, c);
    DivMonotone(Count(IsClass(c), a) as real, Count(IsClass(c), b) as real, |a| as real);
  }

  lemma DivMonotone(x: real, y: real, n: real)
    requires x <= y && n > 0.0
    ensures x / n <= y / n
  {
  }

  lemma ReachesWorse(a: seq<Sample>, b: seq<Sample>, qa: nat, qb: nat, bar: Bar)
    requires Worse(a, b) && qa <= qb && Reaches(a, qa, bar)
    ensures Reaches(b, qb, bar)
  {
    PercentileMonotone(Latencies(a), Latencies(b));
    if RatioAtLeast(a, RateLimited, bar.rateLimited) { RatioWorse(a, b, RateLimited, bar.rateLimited); }
    if RatioAtLeast(a, Timeout, bar.timeout) { RatioWorse(a, b, Timeout, bar.timeout); }
    if RatioAtLeast(a, ServerError, bar.serverError) { RatioWorse(a, b, ServerError, bar.serverError); }
  }

  /**
   Worse samples or a longer queue never lower the raw level, for every threshold table,
   ordered or not.
   */
  lemma RawLevelMonotone(a: seq<Sample>, b: seq<Sample>, qa: nat, qb: nat, t: Thresholds)
    requires Worse(a, b) && qa <= qb
    ensures RawLevel(a, qa, t).Severity() <= RawLevel(b, qb, t).Severity()
  {
    if Reaches(a, qa, t.critical) { ReachesWorse(a, b, qa, qb, t.critical); }
    if Reaches(a, qa, t.high) { ReachesWorse(a, b, qa, qb, t.high); }
    if Reaches(a, qa, t.elevated) { ReachesWorse(a, b, qa, qb, t.elevated); }
    RawLevelIsHighestReached(a, qa, t);
    RawLevelIsHighestReached(b, qb, t);
  }

  // ----- hysteresis -----

  datatype Gauge = Gauge(level: Level, lastChange: int)

  datatype Reading = Reading(now: int, raw: Level)

  function StepDown(l: Level): Level {
    match l
    case Critical => High
    case High => Elevated
    case Elevated => Normal
    case Normal => Normal
  }

  /** Up at once, down one step at a time and only after the cooldown. */
  function Hysteresis(g: Gauge, x: Reading, cooldown: nat): (r: Gauge)
    ensures r.level.Severity() >= x.raw.Severity()
    ensures r.level == x.raw || r.level.Severity() <= g.level.Severity()
    ensures r.level.Severity() >= g.level.Severity() - 1
    ensures r.level.Severity() < g.level.Severity() ==> Max(0, x.now - g.lastChange) >= cooldown
    ensures r.lastChange == (if r.level == g.level then g.lastChange else x.now)
  {
    if x.raw.Severity() > g.level.Severity() then Gauge(x.raw, x.now)
    else if x.raw.Severity() < g.level.Severity() && Max(0, x.now - g.lastChange) >= cooldown
    then Gauge(StepDown(g.level), x.now)
    else g
  }

  function Follow(g: Gauge, xs: seq<Reading>, cooldown: nat): Gauge
    decreases |xs|
  {
    if xs == [] then g else Follow(Hysteresis(g, xs[0], cooldown), xs[1..], cooldown)
  }

  predicate ClockFrom(t: int, xs: seq<Reading>)
    decreases |xs|
  {
    xs == [] || (t <= xs[0].now && ClockFrom(xs[0].now, xs[1..]))
  }

  function LastTime(t: int, xs: seq<Reading>): int {
    if xs == [] then t else xs[|xs| - 1].now
  }

  /** No reading raises the level. */
  predicate NoRaise(g: Gauge, xs: seq<Reading>, cooldown: nat)
    decreases |xs|
  {
    xs == [] || (xs[0].raw.Severity() <= g.level.Severity()
                 && NoRaise(Hysteresis(g, xs[0], cooldown), xs[1..], cooldown))
  }

  lemma {:induction false} DescentTakesTime(g: Gauge, t: int, xs: seq<Reading>, cooldown: nat)
    requires g.lastChange <= t && ClockFrom(t, xs) && NoRaise(g, xs, cooldown)
    ensures var f := Follow(g, xs, cooldown);
            && (g.level.Severity() - f.level.Severity()) * cooldown <= f.lastChange - g.lastChange
            && f.level.Severity() <= g.level.Severity()
            && f.lastChange <= LastTime(t, xs)
    decreases |xs|
  {
    if xs != [] {
      var g1 := Hysteresis(g, xs[0], cooldown);
      DescentTakesTime(g1, xs[0].now, xs[1..], cooldown);
      var f := Follow(g, xs, cooldown);
      assert (g.level.Severity() - f.level.Severity()) * cooldown
          == (g.level.Severity() - g1.level.Severity()) * cooldown
           + (g1.level.Severity() - f.level.Severity()) * cooldown;
    }
  }

  /**
   After a change to level L at time t0 and with no later raise, the level at time t is at
   least L - floor((t - t0) / cooldown).
   */
  lemma DescentBound(g: Gauge, xs: seq<Reading>, cooldown: nat)
    requires cooldown > 0 && ClockFrom(g.lastChange, xs) && NoRaise(g, xs, cooldown)
    ensures Follow(g, xs, cooldown).level.Severity()
              >= g.level.Severity() - (LastTime(g.lastChange, xs) - g.lastChange) / cooldown
  {
    DescentTakesTime(g, g.lastChange, xs, cooldown);
    var f := Follow(g, xs, cooldown);
    DivAtLeast(g.level.Severity() - f.level.Severity(), LastTime(g.lastChange, xs) - g.lastChange, cooldown);
  }

  lemma DivAtLeast(n: nat, t: int, c: nat)
    requires c > 0 && n * c <= t
    ensures n <= t / c
  {
    var q := t / c;
    assert t < (q + 1) * c;
    MulMonotone(q + 1, n, c);
  }

  lemma MulMonotone(a: int, b: int, c: nat)
    ensures a <= b ==> a * c <= b * c
  {
  }

  /** Consecutive readings at least a cooldown apart, all with the same raw level. */
  predicate Spaced(t: int, xs: seq<Reading>, raw: Level, cooldown: nat)
    decreases |xs|
  {
    xs == [] || (xs[0].now - t >= cooldown && xs[0].raw == raw && Spaced(xs[0].now, xs[1..], raw, cooldown))
  }

  /**
   Recovery is exact: with a constant lower raw level and readings at least a cooldown apart, k
   readings lower the level by exactly k until the raw level is reached, and then it stays.
   */
  lemma {:induction false} RecoveryIsExact(g: Gauge, t: int, xs: seq<Reading>, raw: Level, cooldown: nat)
    requires g.lastChange <= t && Spaced(t, xs, raw, cooldown)
    requires raw.Severity() <= g.level.Severity()
    ensures Follow(g, xs, cooldown).level.Severity() == Max(raw.Severity(), g.level.Severity() - |xs|)
    decreases |xs|
  {
    if xs != [] {
      RecoveryIsExact(Hysteresis(g, xs[0], cooldown), xs[0].now, xs[1..], raw, cooldown);
    }
  }

  // ----- worse readings over whole runs -----

  /** The same moments, with a raw level that is never lower. */
  predicate WorseReadings(xs: seq<Reading>, ys: seq<Reading>) {
    && |xs| == |ys|
    && forall i :: 0 <= i < |xs| ==> xs[i].now == ys[i].now && xs[i].raw.Severity() <= ys[i].raw.Severity()
  }

  /** From the same gauge, worse readings never end at a lower level. */
  ghost predicate MonotoneOverRuns(cooldown: nat) {
    forall g: Gauge, xs, ys :: ClockFrom(g.lastChange, xs) && WorseReadings(xs, ys) ==> EndsNoLower(g, xs, ys, cooldown)
  }

  predicate EndsNoLower(g: Gauge, xs: seq<Reading>, ys: seq<Reading>, cooldown: nat) {
    Follow(g, xs, cooldown).level.Severity() <= Follow(g, ys, cooldown).level.Severity()
  }

  lemma {:induction false} NoCooldownIsMonotone(g: Gauge, h: Gauge, xs: seq<Reading>, ys: seq<Reading>)
    requires g.level.Severity() <= h.level.Severity() && WorseReadings(xs, ys)
    ensures Follow(g, xs, 0).level.Severity() <= Follow(h, ys, 0).level.Severity()
    decreases |xs|
  {
    if xs != [] {
      NoCooldownIsMonotone(Hysteresis(g, xs[0], 0), Hysteresis(h, ys[0], 0), xs[1..], ys[1..]);
    }
  }

  lemma Follow3(g: Gauge, x: Reading, y: Reading, z: Reading, cooldown: nat)
    ensures Follow(g, [x, y, z], cooldown)
              == Hysteresis(Hysteresis(Hysteresis(g, x, cooldown), y, cooldown), z, cooldown)
  {
    var g1 := Hysteresis(g, x, cooldown);
    var g2 := Hysteresis(g1, y, cooldown);
    assert [x, y, z][1..] == [y, z] && [y, z][1..] == [z] && [z][1..] == [];
    assert Follow(g2, [z], cooldown) == Hysteresis(g2, z, cooldown);
    assert Follow(g1, [y, z], cooldown) == Follow(g2, [z], cooldown);
  }

  /** An early peak starts the cooldown early: the worse history is the first to recover. */
  lemma EarlyPeakRecoversFirst(cooldown: nat)
    requires cooldown > 0
    ensures var g := Gauge(Normal, 0);
            var xs := [Reading(0, Normal), Reading(1, Critical), Reading(cooldown, Normal)];
            var ys := [Reading(0, Critical), Reading(1, Critical), Reading(cooldown, Normal)];
            && ClockFrom(0, xs) && WorseReadings(xs, ys)
            && Follow(g, xs, cooldown).level == Critical && Follow(g, ys, cooldown).level == High
  {
    var g := Gauge(Normal, 0);
    var x, y, z := Reading(0, Normal), Reading(1, Critical), Reading(cooldown, Normal);
    Follow3(g, x, y, z, cooldown);
    Follow3(g, Reading(0, Critical), y, z, cooldown);
    assert [x, y, z][1..] == [y, z] && [y, z][1..] == [z] && [z][1..] == [];
    assert ClockFrom(1, [z]) && ClockFrom(0, [y, z]);
  }

  /** Over whole runs, worse readings never end at a lower level if and only if there is no cooldown. */
  lemma MonotoneOverRunsIff(cooldown: nat)
    ensures MonotoneOverRuns(cooldown) <==> cooldown == 0
  {
    if cooldown == 0 {
      forall g: Gauge, xs, ys | ClockFrom(g.lastChange, xs) && WorseReadings(xs, ys) ensures EndsNoLower(g, xs, ys, 0) {
        NoCooldownIsMonotone(g, g, xs, ys);
      }
    } else {
      EarlyPeakRecoversFirst(cooldown);
      var g := Gauge(Normal, 0);
      var xs := [Reading(0, Normal), Reading(1, Critical), Reading(cooldown, Normal)];
      var ys := [Reading(0, Critical), Reading(1, Critical), Reading(cooldown, Normal)];
      assert !EndsNoLower(g, xs, ys, cooldown);
    }
  }

  // ----- the object -----

  /** `log` and `clock` are ghosts: every sample ever recorded, and the last time anything was pruned. */
  class ObservedPressure {
    const t: Thresholds
    var samples: seq<Sample>
    var level: Level
    var lastChange: int
    ghost var log: seq<Sample>
    ghost var clock: int

    ghost predicate Valid()
      reads this
    {
      Ordered(log, clock) && samples == Window(log, clock, t.window)
    }

    constructor (t: Thresholds, now: int)
      ensures Valid() && this.t == t && log == [] && clock == now && level == Normal && lastChange == now
    {
      this.t := t;
      samples, level, lastChange, log, clock := [], Normal, now, [], now;
    }

    /** The pruning loop as written. */
    method PruneSamples(now: int)
      modifies this`samples
      ensures samples == Prune(old(samples), now, t.window)
    {
      while samples != [] && Stale(samples[0], now, t.window)
        invariant Prune(samples, now, t.window) == Prune(old(samples), now, t.window)
        decreases |samples|
      {
        samples := samples[1..];
      }
    }

    method CapSamples()
      modifies this`samples
      ensures samples == Capped(old(samples))
    {
      while |samples| > MAX_SAMPLES
        invariant Capped(samples) == Capped(old(samples))
      {
        samples := samples[1..];
      }
    }

    /** The kept samples are exactly the reference window of the whole history. */
    method Record(now: int, kind: Class, latency: nat)
      requires Valid() && clock <= now
      modifies this
      ensures Valid() && log == old(log) + [Sample(now, latency, kind)] && clock == now
      ensures samples == Window(log, now, t.window)
      ensures level == old(level) && lastChange == old(lastChange)
    {
      var x := Sample(now, latency, kind);
      samples := samples + [x];
      PruneSamples(now);
      CapSamples();
      StaysWindow(log, clock, x, t.window);
      log, clock := log + [x], now;
    }

    method ApplyHysteresis(raw: Level, now: int)
      modifies this`level, this`lastChange
      ensures Gauge(level, lastChange) == Hysteresis(Gauge(old(level), old(lastChange)), Reading(now, raw), t.cooldown)
    {
      if raw.Severity() > level.Severity() {
        level, lastChange := raw, now;
      } else if raw.Severity() < level.Severity() && Max(0, now - lastChange) >= t.cooldown {
        level, lastChange := StepDown(level), now;
      }
    }

    method Evaluate(now: int, queue: nat) returns (r: Level)
      requires Valid() && clock <= now
      modifies this
      ensures Valid() && log == old(log)
      ensures !t.enabled ==> r == Normal && samples == old(samples) && level == old(level) && lastChange == old(lastChange)
      ensures t.enabled ==>
                && r == level && clock == now && samples == Window(log, now, t.window)
                && Gauge(level, lastChange) ==
                     Hysteresis(Gauge(old(level), old(lastChange)),
                                Reading(now, RawLevel(Window(log, now, t.window), queue, t)), t.cooldown)
    {
      if !t.enabled { return Normal; }
      PruneSamples(now);
      PruneWindow(log, clock, now, t.window);
      clock := now;
      var raw := ComputeRawLevel(samples, queue, t);
      ApplyHysteresis(raw, now);
      return level;
    }
  }
}
