/**
 The per-domain token bucket (crates/connector-sdk/src/rate_limit.rs). Seconds and tokens
 are reals; a request carries the clock reading under the lock.
 */
module RateLimit {
  import opened Prelude

  type Domain = string  // trimmed, without trailing dots, in lower case

  datatype Config = Config(perSecond: real, burst: real)

  datatype Pair = Pair(burst: real, rate: real)

  /** The numbers really used: a burst of at least 1 and a positive rate. */
  type Limits = p: Pair | p.burst >= 1.0 && p.rate >= 0.001 witness Pair(1.0, 0.001)

  function Effective(c: Config): Limits {
    Pair(if c.burst > 1.0 then c.burst else 1.0, if c.perSecond > 0.001 then c.perSecond else 0.001)
  }

  datatype Bucket = Bucket(tokens: real, last: real)

  function MinReal(a: real, b: real): real {
    if a <= b then a else b
  }

  function Elapsed(last: real, now: real): real {
    if now >= last then now - last else 0.0
  }

  /** The bucket at `now`, refilled; an unknown domain starts full. */
  function Refilled(b: Option<Bucket>, now: real, lim: Limits): Bucket {
    if b.None? then Bucket(lim.burst, now)
    else Bucket(MinReal(b.value.tokens + Elapsed(b.value.last, now) * lim.rate, lim.burst), now)
  }

  /** The bucket after a request and whether it was granted. */
  function Request(b: Option<Bucket>, now: real, lim: Limits): (Bucket, bool) {
    var r := Refilled(b, now, lim);
    if r.tokens >= 1.0 then (r.(tokens := r.tokens - 1.0), true) else (r, false)
  }

  /** A bucket of this limiter, not ahead of the clock. */
  predicate Sound(b: Option<Bucket>, now: real, lim: Limits) {
    b.Some? ==> 0.0 <= b.value.tokens <= lim.burst && b.value.last <= now
  }

  predicate ClockFrom(t: real, ts: seq<real>)
    decreases |ts|
  {
    ts == [] || (t <= ts[0] && ClockFrom(ts[0], ts[1..]))
  }

  /** The bucket after the requests `ts`. */
  function After(b: Option<Bucket>, ts: seq<real>, lim: Limits): Option<Bucket>
    decreases |ts|
  {
    if ts == [] then b else After(Some(Request(b, ts[0], lim).0), ts[1..], lim)
  }

  /** How many of the requests `ts` are granted. */
  function Grants(b: Option<Bucket>, ts: seq<real>, lim: Limits): nat
    decreases |ts|
  {
    if ts == [] then 0
    else (if Request(b, ts[0], lim).1 then 1 else 0) + Grants(Some(Request(b, ts[0], lim).0), ts[1..], lim)
  }

  lemma RequestSound(b: Option<Bucket>, now: real, lim: Limits)
    requires Sound(b, now, lim)
    ensures Sound(Some(Request(b, now, lim).0), now, lim)
    ensures Request(b, now, lim).0.last == now
  {
    if b.Some? {
      assert Elapsed(b.value.last, now) * lim.rate >= 0.0;
    }
  }

  /** Tokens stay between 0 and the burst, over every request sequence. */
  lemma {:induction false} TokensStayInRange(b: Option<Bucket>, t: real, ts: seq<real>, lim: Limits)
    requires Sound(b, t, lim) && ClockFrom(t, ts)
    ensures Sound(After(b, ts, lim), if ts == [] then t else ts[|ts| - 1], lim)
    decreases |ts|
  {
    if ts != [] {
      assert Sound(b, ts[0], lim);
      RequestSound(b, ts[0], lim);
      TokensStayInRange(Some(Request(b, ts[0], lim).0), ts[0], ts[1..], lim);
    }
  }

  // ----- the energy argument, free of products -----

  /** One request to a bucket that just got `add`: the tokens left, and 1 for a grant. */
  function Drip(tokens: real, add: real, burst: real): (real, nat) {
    var filled := MinReal(tokens + add, burst);
    if filled >= 1.0 then (filled - 1.0, 1) else (filled, 0)
  }

  function Drips(tokens: real, adds: seq<real>, burst: real): nat
    decreases |adds|
  {
    if adds == [] then 0
    else Drip(tokens, adds[0], burst).1 + Drips(Drip(tokens, adds[0], burst).0, adds[1..], burst)
  }

  function Sum(adds: seq<real>): real {
    if adds == [] then 0.0 else adds[0] + Sum(adds[1..])
  }

  /** Grants never exceed what was there plus what came in. */
  lemma {:induction false} DripsAreFunded(tokens: real, adds: seq<real>, burst: real)
    requires tokens >= 0.0 && burst >= 0.0 && forall i :: 0 <= i < |adds| ==> adds[i] >= 0.0
    ensures Drips(tokens, adds, burst) as real <= tokens + Sum(adds)
    decreases |adds|
  {
    if adds != [] {
      var (left, granted) := Drip(tokens, adds[0], burst);
      assert left >= 0.0 && left + granted as real <= tokens + adds[0];
      DripsAreFunded(left, adds[1..], burst);
    }
  }

  /** The refill between two clock readings. */
  function Inflow(t: real, now: real, rate: real): real {
    (now - t) * rate
  }

  /** What flows in before each of the requests `ts`. */
  function Inflows(t: real, ts: seq<real>, rate: real): seq<real>
    decreases |ts|
  {
    if ts == [] then [] else [Inflow(t, ts[0], rate)] + Inflows(ts[0], ts[1..], rate)
  }

  lemma {:induction false} InflowsArePositive(t: real, ts: seq<real>, rate: real)
    requires ClockFrom(t, ts) && rate >= 0.0
    ensures forall i :: 0 <= i < |Inflows(t, ts, rate)| ==> Inflows(t, ts, rate)[i] >= 0.0
    decreases |ts|
  {
    if ts != [] {
      assert Inflow(t, ts[0], rate) >= 0.0;
      InflowsArePositive(ts[0], ts[1..], rate);
    }
  }

  lemma Chain(t: real, u: real, v: real, rate: real)
    ensures Inflow(t, u, rate) + Inflow(u, v, rate) == Inflow(t, v, rate)
  {
  }

  lemma {:induction false} InflowsTelescope(t: real, ts: seq<real>, rate: real)
    ensures Sum(Inflows(t, ts, rate)) == Inflow(t, if ts == [] then t else ts[|ts| - 1], rate)
    decreases |ts|
  {
    if ts != [] {
      var adds := Inflows(t, ts, rate);
      InflowsTelescope(ts[0], ts[1..], rate);
      assert adds[1..] == Inflows(ts[0], ts[1..], rate);
      Chain(t, ts[0], ts[|ts| - 1], rate);
    }
  }

  lemma RequestIsDrip(b: Bucket, now: real, lim: Limits)
    requires b.last <= now
    ensures var (c, granted) := Request(Some(b), now, lim);
            && Drip(b.tokens, Inflow(b.last, now, lim.rate), lim.burst).0 == c.tokens
            && Drip(b.tokens, Inflow(b.last, now, lim.rate), lim.burst).1 == (if granted then 1 else 0)
  {
    assert Inflow(b.last, now, lim.rate) == Elapsed(b.last, now) * lim.rate;
  }

  lemma {:induction false} GrantsAreDrips(b: Bucket, ts: seq<real>, lim: Limits)
    requires ClockFrom(b.last, ts)
    ensures Grants(Some(b), ts, lim) == Drips(b.tokens, Inflows(b.last, ts, lim.rate), lim.burst)
    decreases |ts|
  {
    if ts != [] {
      RequestIsDrip(b, ts[0], lim);
      GrantsAreDrips(Request(Some(b), ts[0], lim).0, ts[1..], lim);
      assert Inflows(b.last, ts, lim.rate)[1..] == Inflows(ts[0], ts[1..], lim.rate);
    }
  }

  lemma GrantsAreFunded(b: Bucket, ts: seq<real>, lim: Limits)
    requires b.tokens >= 0.0 && ClockFrom(b.last, ts)
    ensures Grants(Some(b), ts, lim) as real
              <= b.tokens + Inflow(b.last, if ts == [] then b.last else ts[|ts| - 1], lim.rate)
  {
    GrantsAreDrips(b, ts, lim);
    InflowsArePositive(b.last, ts, lim.rate);
    DripsAreFunded(b.tokens, Inflows(b.last, ts, lim.rate), lim.burst);
    InflowsTelescope(b.last, ts, lim.rate);
  }

  lemma FirstIsFunded(b: Option<Bucket>, now: real, lim: Limits)
    requires Sound(b, now, lim)
    ensures var (c, granted) := Request(b, now, lim);
            c.tokens >= 0.0 && c.last == now && c.tokens + (if granted then 1.0 else 0.0) <= lim.burst
  {
    RequestSound(b, now, lim);
  }

  /** One burst plus the refill of the elapsed time bounds the grants of any sequence. */
  lemma GrantsWithinBurst(b: Option<Bucket>, ts: seq<real>, lim: Limits)
    requires ts != [] && Sound(b, ts[0], lim) && ClockFrom(ts[0], ts)
    ensures Grants(b, ts, lim) as real <= lim.burst + Inflow(ts[0], ts[|ts| - 1], lim.rate)
  {
    var (c, granted) := Request(b, ts[0], lim);
    FirstIsFunded(b, ts[0], lim);
    GrantsAreFunded(c, ts[1..], lim);
    assert Grants(b, ts, lim) == (if granted then 1 else 0) + Grants(Some(c), ts[1..], lim);
  }

  lemma {:induction false} ClockSplit(t: real, a: seq<real>, b: seq<real>)
    requires ClockFrom(t, a + b)
    ensures ClockFrom(t, a) && ClockFrom(if a == [] then t else a[|a| - 1], b)
    decreases |a|
  {
    if a == [] {
      assert a + b == b;
    } else {
      assert (a + b)[1..] == a[1..] + b;
      ClockSplit(a[0], a[1..], b);
    }
  }

  /**
   The rate promise: after any earlier requests, the grants among any later stretch of requests
   are at most burst + rate * (length of the stretch).
   */
  lemma AnyWindowIsLimited(earlier: seq<real>, stretch: seq<real>, start: real, lim: Limits)
    requires stretch != [] && ClockFrom(start, earlier + stretch)
    ensures Grants(After(None, earlier, lim), stretch, lim) as real
              <= lim.burst + Inflow(stretch[0], stretch[|stretch| - 1], lim.rate)
  {
    ClockSplit(start, earlier, stretch);
    TokensStayInRange(None, start, earlier, lim);
    GrantsWithinBurst(After(None, earlier, lim), stretch, lim);
  }

  /** One request in figures, with the burst and the rate read off the configuration. */
  lemma RequestInFigures(b: Bucket, now: real, c: Config)
    requires Sound(Some(b), now, Effective(c))
    ensures var burst := if c.burst > 1.0 then c.burst else 1.0;
            var rate := if c.perSecond > 0.001 then c.perSecond else 0.001;
            var filled := b.tokens + Inflow(b.last, now, rate);
            var r := Request(Some(b), now, Effective(c));
            && (r.1 <==> filled >= 1.0)
            && r.0 == Bucket((if filled <= burst then filled else burst) - (if filled >= 1.0 then 1.0 else 0.0), now)
  {
    assert Inflow(b.last, now, Effective(c).rate) == Elapsed(b.last, now) * Effective(c).rate;
  }

  lemma {:induction false} SpentAtOnce(b: Bucket, n: nat, lim: Limits)
    requires 0.0 <= b.tokens <= lim.burst
    ensures Grants(Some(b), seq(n, _ => b.last), lim) == Min(n, b.tokens.Floor)
    decreases n
  {
    var ts: seq<real> := seq(n, _ => b.last);
    if n > 0 {
      assert ts[1..] == seq(n - 1, _ => b.last);
      assert Elapsed(b.last, b.last) * lim.rate == 0.0;
      SpentAtOnce(Request(Some(b), b.last, lim).0, n - 1, lim);
    }
  }

  /** A new domain may spend its whole burst at once, and no more. */
  lemma BurstAtOnce(now: real, n: nat, c: Config)
    ensures var burst := if c.burst > 1.0 then c.burst else 1.0;
            Grants(None, seq(n, _ => now), Effective(c)) == Min(n, burst.Floor)
  {
    var lim := Effective(c);
    var ts: seq<real> := seq(n, _ => now);
    if n > 0 {
      assert ts[1..] == seq(n - 1, _ => now);
      SpentAtOnce(Request(None, now, lim).0, n - 1, lim);
    }
  }

  /** A request at least 1/rate after the previous one, or the first of its domain, is granted. */
  lemma PatientRequestIsGranted(b: Option<Bucket>, now: real, lim: Limits)
    requires Sound(b, now, lim)
    requires b.Some? ==> now - b.value.last >= 1.0 / lim.rate
    ensures Request(b, now, lim).1
  {
    if b.Some? {
      FullUnit(now - b.value.last, lim.rate);
    }
  }

  lemma FullUnit(dt: real, r: real)
    requires r > 0.0 && dt >= 1.0 / r
    ensures dt * r >= 1.0
  {
    assert dt * r >= (1.0 / r) * r;
  }

  // ----- many domains in one map -----

  datatype Ask = Ask(domain: Domain, now: real)

  function Lookup(m: map<Domain, Bucket>, d: Domain): Option<Bucket> {
    if d in m then Some(m[d]) else None
  }

  function PlayAll(m: map<Domain, Bucket>, asks: seq<Ask>, lim: Limits): map<Domain, Bucket>
    decreases |asks|
  {
    if asks == [] then m
    else PlayAll(m[asks[0].domain := Request(Lookup(m, asks[0].domain), asks[0].now, lim).0], asks[1..], lim)
  }

  function TimesOf(asks: seq<Ask>, d: Domain): seq<real> {
    if asks == [] then []
    else (if asks[0].domain == d then [asks[0].now] else []) + TimesOf(asks[1..], d)
  }

  /** Domains do not disturb each other: a domain's bucket depends on its own requests only. */
  lemma {:induction false} DomainsAreIndependent(m: map<Domain, Bucket>, asks: seq<Ask>, d: Domain, lim: Limits)
    ensures Lookup(PlayAll(m, asks, lim), d) == After(Lookup(m, d), TimesOf(asks, d), lim)
    decreases |asks|
  {
    if asks != [] {
      var a := asks[0];
      var m1 := m[a.domain := Request(Lookup(m, a.domain), a.now, lim).0];
      DomainsAreIndependent(m1, asks[1..], d, lim);
      if a.domain == d {
        assert TimesOf(asks, d)[1..] == TimesOf(asks[1..], d);
      } else {
        assert TimesOf(asks, d) == TimesOf(asks[1..], d);
      }
    }
  }

  /** How many of the requests to `d` are granted while requests to other domains come in between. */
  function DomainGrants(m: map<Domain, Bucket>, asks: seq<Ask>, d: Domain, lim: Limits): nat
    decreases |asks|
  {
    if asks == [] then 0
    else
      var (b, granted) := Request(Lookup(m, asks[0].domain), asks[0].now, lim);
      (if granted && asks[0].domain == d then 1 else 0) + DomainGrants(m[asks[0].domain := b], asks[1..], d, lim)
  }

  lemma {:induction false} DomainGrantsAreOwn(m: map<Domain, Bucket>, asks: seq<Ask>, d: Domain, lim: Limits)
    ensures DomainGrants(m, asks, d, lim) == Grants(Lookup(m, d), TimesOf(asks, d), lim)
    decreases |asks|
  {
    if asks != [] {
      var a := asks[0];
      DomainGrantsAreOwn(m[a.domain := Request(Lookup(m, a.domain), a.now, lim).0], asks[1..], d, lim);
      if a.domain == d {
        assert TimesOf(asks, d)[1..] == TimesOf(asks[1..], d);
      } else {
        assert TimesOf(asks, d) == TimesOf(asks[1..], d);
      }
    }
  }

  /** Requests in the order in which the lock is taken, so with a clock that never goes back. */
  predicate AsksFrom(t: real, asks: seq<Ask>)
    decreases |asks|
  {
    asks == [] || (t <= asks[0].now && AsksFrom(asks[0].now, asks[1..]))
  }

  lemma {:induction false} TimesKeepClock(t: real, u: real, asks: seq<Ask>, d: Domain)
    requires u <= t && AsksFrom(t, asks)
    ensures ClockFrom(u, TimesOf(asks, d))
    decreases |asks|
  {
    if asks != [] {
      var a := asks[0];
      if a.domain == d {
        assert TimesOf(asks, d)[1..] == TimesOf(asks[1..], d);
        TimesKeepClock(a.now, a.now, asks[1..], d);
      } else {
        assert TimesOf(asks, d) == TimesOf(asks[1..], d);
        TimesKeepClock(a.now, u, asks[1..], d);
      }
    }
  }

  lemma {:induction false} TimesOfConcat(a: seq<Ask>, b: seq<Ask>, d: Domain)
    ensures TimesOf(a + b, d) == TimesOf(a, d) + TimesOf(b, d)
  {
    if a == [] {
      assert a + b == b;
    } else {
      var head := if a[0].domain == d then [a[0].now] else [];
      assert (a + b)[1..] == a[1..] + b;
      TimesOfConcat(a[1..], b, d);
      assert head + (TimesOf(a[1..], d) + TimesOf(b, d)) == (head + TimesOf(a[1..], d)) + TimesOf(b, d);
    }
  }

  /**
   The limiter's promise, over every interleaving of requests to any domains: among the requests
   of any stretch, domain `d` is granted at most one burst plus the refill between its first and
   its last request there.
   */
  lemma EveryDomainIsLimited(earlier: seq<Ask>, stretch: seq<Ask>, d: Domain, start: real, lim: Limits)
    requires AsksFrom(start, earlier + stretch) && TimesOf(stretch, d) != []
    ensures var ts := TimesOf(stretch, d);
            DomainGrants(PlayAll(map[], earlier, lim), stretch, d, lim) as real
              <= lim.burst + Inflow(ts[0], ts[|ts| - 1], lim.rate)
  {
    DomainGrantsAreOwn(PlayAll(map[], earlier, lim), stretch, d, lim);
    DomainsAreIndependent(map[], earlier, d, lim);
    TimesOfConcat(earlier, stretch, d);
    TimesKeepClock(start, start, earlier + stretch, d);
    AnyWindowIsLimited(TimesOf(earlier, d), TimesOf(stretch, d), start, lim);
  }

  class DomainRateLimiter {
    const cfg: Config
    var buckets: map<Domain, Bucket>

    constructor (cfg: Config)
      ensures this.cfg == cfg && buckets == map[]
    {
      this.cfg := cfg;
      buckets := map[];
    }

    method Acquire(domain: Domain, now: real) returns (ok: bool)
      modifies this
      ensures buckets == old(buckets)[domain := Request(Lookup(old(buckets), domain), now, Effective(cfg)).0]
      ensures ok == Request(Lookup(old(buckets), domain), now, Effective(cfg)).1
    {
      var bucket := if domain in buckets then buckets[domain] else Bucket(Effective(cfg).burst, now);
      var elapsed := Elapsed(bucket.last, now);
      bucket := bucket.(tokens := MinReal(bucket.tokens + elapsed * Effective(cfg).rate, Effective(cfg).burst));
      bucket := bucket.(last := now);
      ok := bucket.tokens >= 1.0;
      if ok { bucket := bucket.(tokens := bucket.tokens - 1.0); }
      buckets := buckets[domain := bucket];
    }
  }
}
