/**
 The chat-completion protocol of the AI gateway (crates/ai-gateway/src/openai.rs and
 crates/ai-gateway/src/admission.rs): admission, the quota protocol of `Quota`, then a retry loop
 under a bounded HTTP semaphore, with every guard given back on every way out, including a
 dropped call.
 */
module Gateway {
  import opened Prelude
  import Pressure
  import Quota

  type CallId = nat

  datatype Priority = P0 | P1 | P2 | P3 | P4 {
    function Level(): nat {
      match this
      case P0 => 0
      case P1 => 1
      case P2 => 2
      case P3 => 3
      case P4 => 4
    }
  }

  /** The degradation table for queued priorities. */
  predicate Blocked(p: Priority, pressure: Pressure.Level) {
    match pressure
    case Normal => false
    case Elevated => p.P4?
    case High => p.Level() >= 2
    case Critical => p.Level() >= 1
  }

  lemma BlockedMonotone(p: Priority, q: Priority, low: Pressure.Level, high: Pressure.Level)
    requires p.Level() <= q.Level() && low.Severity() <= high.Severity()
    ensures Blocked(p, low) ==> Blocked(q, high)
    ensures !Blocked(P0, high)
  {
  }

  /**
   From samples to admission: at the same moment, worse samples or a longer queue never let a call in
   that better ones keep out, and neither does a lower priority.
   */
  lemma WorseSamplesNeverUnblock(p: Priority, q: Priority, a: seq<Pressure.Sample>, b: seq<Pressure.Sample>,
                                 qa: nat, qb: nat, t: Pressure.Thresholds, g: Pressure.Gauge, now: int)
    requires p.Level() <= q.Level() && Pressure.Worse(a, b) && qa <= qb
    ensures var low := Pressure.Hysteresis(g, Pressure.Reading(now, Pressure.RawLevel(a, qa, t)), t.cooldown).level;
            var high := Pressure.Hysteresis(g, Pressure.Reading(now, Pressure.RawLevel(b, qb, t)), t.cooldown).level;
            Blocked(p, low) ==> Blocked(q, high)
  {
    Pressure.RawLevelMonotone(a, b, qa, qb, t);
    var low := Pressure.Hysteresis(g, Pressure.Reading(now, Pressure.RawLevel(a, qa, t)), t.cooldown).level;
    var high := Pressure.Hysteresis(g, Pressure.Reading(now, Pressure.RawLevel(b, qb, t)), t.cooldown).level;
    assert low.Severity() <= high.Severity();
    BlockedMonotone(p, q, low, high);
  }

  datatype Reply = Success | Transient | Permanent

  datatype Verdict = P0Busy | Rejected(pressure: Pressure.Level) | QuotaRefused | Answered | Failed | Dropped

  /** `Admitted` is inside the quota call; `Leaving` has its verdict but still owns its guards; `Closed` owns nothing. */
  datatype Phase = Fresh | Queued | Waiting | Admitted | Ready | Sending | Sleeping
                 | Leaving(verdict: Verdict) | Closed(verdict: Verdict)

  /** `attempts` counts the HTTP attempts of this call. */
  datatype Call = Call(priority: Priority, account: Quota.Account, phase: Phase, attempts: nat)

  datatype Pools = Pools(p0: nat, shared: nat, http: nat)

  /** The quota keeps its own record of each call under the same id. */
  datatype State = State(
    cap: Pools,
    maxRetries: nat,
    free: Pools,
    waiters: int,
    inflight: int,
    quota: Quota.State,
    calls: map<CallId, Call>)

  datatype Config = Config(p0: nat, shared: nat, http: nat, maxRetries: nat)

  function Init(g: Config): State {
    var cap := Pools(Max(g.p0, 1), Max(g.shared, 1), Max(g.http, 1));
    State(cap, g.maxRetries, cap, 0, 0, Quota.EMPTY, map[])
  }

  datatype Event =
    | Arrive(k: CallId, priority: Priority, account: Quota.Account)
    | TryP0(k: CallId)
    | Enqueue(k: CallId)
    | Consult(k: CallId, pressure: Pressure.Level)
    | Obtain(k: CallId)
    | Pay(k: CallId, step: Quota.Event)
    | TakeHttp(k: CallId)
    | Receive(k: CallId, reply: Reply)
    | Wake(k: CallId)
    | Leave(k: CallId)
    | Drop(k: CallId)

  predicate Enabled(s: State, e: Event) {
    if e.Arrive? then e.k !in s.calls else
    e.k in s.calls &&
    var c := s.calls[e.k];
    match e
    case TryP0(_) => c.phase.Fresh? && c.priority.P0?
    case Enqueue(_) => c.phase.Fresh? && !c.priority.P0?
    case Consult(_, _) => c.phase.Queued?
    case Obtain(_) => c.phase.Waiting? && s.free.shared > 0
    case Pay(k, step) =>
      && c.phase.Admitted? && step.k == k && Quota.Enabled(s.quota, step)
      && (step.Begin? ==> step.account == c.account)
    case TakeHttp(_) => c.phase.Ready? && s.free.http > 0
    case Receive(_, _) => c.phase.Sending?
    case Wake(_) => c.phase.Sleeping?
    case Leave(_) => c.phase.Leaving?
    case Drop(_) => c.phase.Waiting? || InLoop(c.phase)
  }

  /** In the retry loop: counted by the in-flight gauge. */
  predicate InLoop(p: Phase) {
    p.Ready? || p.Sending? || p.Sleeping?
  }

  predicate Gauged(p: Phase) {
    InLoop(p) || (p.Leaving? && !p.verdict.QuotaRefused?)
  }

  /** Owns an admission permit. */
  predicate HoldsAdmission(p: Phase) {
    p.Admitted? || InLoop(p) || p.Leaving?
  }

  predicate InQueue(p: Phase) {
    p.Queued? || p.Waiting?
  }

  /** Where the call goes after a step of its quota call that left the quota's record in phase `q`. */
  function AfterPay(step: Quota.Event, q: Quota.Phase): Phase {
    if step.Drop? then Closed(Dropped)
    else if q.Granted? || q.Exempt? then Ready
    else if q.Denied? then Leaving(QuotaRefused)
    else Admitted
  }

  function NextPhase(s: State, e: Event): Phase
    requires Enabled(s, e)
  {
    match e
    case Arrive(_, _, _) => Fresh
    case TryP0(_) => if s.free.p0 > 0 then Admitted else Closed(P0Busy)
    case Enqueue(_) => Queued
    case Consult(k, pressure) => if Blocked(s.calls[k].priority, pressure) then Closed(Rejected(pressure)) else Waiting
    case Obtain(_) => Admitted
    case Pay(k, step) => Quota.StepFrame(s.quota, step); AfterPay(step, Quota.Apply(s.quota, step).calls[k].phase)
    case TakeHttp(_) => Sending
    case Receive(k, reply) =>
      (match reply
       case Success => Leaving(Answered)
       case Permanent => Leaving(Failed)
       case Transient => if s.calls[k].attempts - 1 < s.maxRetries then Sleeping else Leaving(Failed))
    case Wake(_) => Ready
    case Leave(k) => Closed(s.calls[k].phase.verdict)
    case Drop(_) => Closed(Dropped)
  }

  function NextCall(s: State, e: Event): Call
    requires Enabled(s, e)
  {
    if e.Arrive? then Call(e.priority, e.account, Fresh, 0)
    else s.calls[e.k].(phase := NextPhase(s, e), attempts := s.calls[e.k].attempts + One(e.TakeHttp?))
  }

  /** What the step does to the pools, the two gauges and the quota. */
  function Counted(s: State, e: Event): State
    requires Enabled(s, e)
  {
    match e
    case TryP0(_) => if s.free.p0 > 0 then s.(free := s.free.(p0 := s.free.p0 - 1)) else s
    case Enqueue(_) => s.(waiters := s.waiters + 1)
    case Consult(k, pressure) => if Blocked(s.calls[k].priority, pressure) then s.(waiters := s.waiters - 1) else s
    case Obtain(_) => s.(free := s.free.(shared := s.free.shared - 1), waiters := s.waiters - 1)
    case Pay(k, step) => Paid(s, k, step)
    case TakeHttp(_) => s.(free := s.free.(http := s.free.http - 1))
    case Receive(_, _) => s.(free := s.free.(http := s.free.http + 1))
    case Leave(k) => Dismissed(s, k)
    case Drop(k) => Dismissed(s, k)
    case _ => s
  }

  function Paid(s: State, k: CallId, step: Quota.Event): State
    requires Enabled(s, Pay(k, step))
  {
    var after := (if step.Drop? then Dismissed(s, k)
                  else s.(inflight := s.inflight + One(NextPhase(s, Pay(k, step)).Ready?)));
    after.(quota := Quota.Apply(s.quota, step))
  }

  function Apply(s: State, e: Event): State
    requires Enabled(s, e)
  {
    Counted(s, e).(calls := s.calls[e.k := NextCall(s, e)])
  }

  /** All guards of call `k` dropped: the HTTP permit, the in-flight gauge, the admission permit, the waiter. */
  function Dismissed(s: State, k: CallId): State
    requires k in s.calls
  {
    var c := s.calls[k];
    s.(free := Pools(
         s.free.p0 + One(c.priority.P0? && HoldsAdmission(c.phase)),
         s.free.shared + One(!c.priority.P0? && HoldsAdmission(c.phase)),
         s.free.http + One(c.phase.Sending?)),
       inflight := s.inflight - One(Gauged(c.phase)),
       waiters := s.waiters - One(InQueue(c.phase)))
  }

  predicate Feasible(s: State, es: seq<Event>)
    decreases |es|
  {
    es == [] || (Enabled(s, es[0]) && Feasible(Apply(s, es[0]), es[1..]))
  }

  function RunAll(s: State, es: seq<Event>): State
    requires Feasible(s, es)
    decreases |es|
  {
    if es == [] then s else RunAll(Apply(s, es[0]), es[1..])
  }

  // ----- conservation -----

  /** The five things that are counted. */
  datatype Counter = P0Permit | SharedPermit | HttpPermit | Waiter | Inflight

  predicate Has(c: Call, n: Counter) {
    match n
    case P0Permit => c.priority.P0? && HoldsAdmission(c.phase)
    case SharedPermit => !c.priority.P0? && HoldsAdmission(c.phase)
    case HttpPermit => c.phase.Sending?
    case Waiter => InQueue(c.phase)
    case Inflight => Gauged(c.phase)
  }

  function Holders(calls: map<CallId, Call>, n: Counter): set<CallId> {
    set k | k in calls && Has(calls[k], n)
  }

  /** What the state itself says is held. */
  function Taken(s: State, n: Counter): int {
    match n
    case P0Permit => s.cap.p0 - s.free.p0
    case SharedPermit => s.cap.shared - s.free.shared
    case HttpPermit => s.cap.http - s.free.http
    case Waiter => s.waiters
    case Inflight => s.inflight
  }

  /** The quota's record of call `k`. */
  function Bill(q: Quota.State, k: CallId): Option<Quota.Call> {
    if k in q.calls then Some(q.calls[k]) else None
  }

  /** Still inside the quota call. */
  predicate Open(p: Quota.Phase) {
    p.Fresh? || p.Loaded? || p.Reserved? || p.Refused?
  }

  /** The quota let the call through. */
  predicate Cleared(bill: Option<Quota.Call>) {
    bill.Some? && (bill.value.phase.Granted? || bill.value.phase.Exempt?)
  }

  /** How a call's phase, its attempts and the quota's record go together. */
  predicate CallOk(c: Call, bill: Option<Quota.Call>, maxRetries: nat) {
    && (bill.Some? ==> bill.value.account == c.account)
    && match c.phase
       case Fresh => bill.None? && c.attempts == 0
       case Queued => bill.None? && c.attempts == 0 && !c.priority.P0?
       case Waiting => bill.None? && c.attempts == 0 && !c.priority.P0?
       case Admitted => c.attempts == 0 && (bill.Some? ==> Open(bill.value.phase))
       case Ready => Cleared(bill) && c.attempts <= maxRetries
       case Sending => Cleared(bill) && 1 <= c.attempts <= maxRetries + 1
       case Sleeping => Cleared(bill) && 1 <= c.attempts <= maxRetries
       case Leaving(v) => VerdictOk(c, v, bill, maxRetries) && (v.QuotaRefused? || v.Answered? || v.Failed?)
       case Closed(v) => VerdictOk(c, v, bill, maxRetries)
  }

  predicate VerdictOk(c: Call, v: Verdict, bill: Option<Quota.Call>, maxRetries: nat) {
    match v
    case P0Busy => bill.None? && c.attempts == 0 && c.priority.P0?
    case Rejected(p) => bill.None? && c.attempts == 0 && Blocked(c.priority, p)
    case QuotaRefused => bill.Some? && bill.value.phase.Denied? && c.attempts == 0
    case Answered => Cleared(bill) && 1 <= c.attempts <= maxRetries + 1
    case Failed => Cleared(bill) && 1 <= c.attempts <= maxRetries + 1
    case Dropped =>
      && c.attempts <= maxRetries + 1 && (c.attempts > 0 ==> Cleared(bill))
      && (bill.Some? ==> !Open(bill.value.phase))
  }

  ghost predicate Inv(s: State) {
    && Quota.Inv(s.quota)
    && s.quota.calls.Keys <= s.calls.Keys
    && (forall n :: Taken(s, n) == |Holders(s.calls, n)|)
    && (forall k :: k in s.calls ==> CallOk(s.calls[k], Bill(s.quota, k), s.maxRetries))
  }

  lemma HoldersAfter(calls: map<CallId, Call>, k: CallId, c: Call, n: Counter)
    ensures |Holders(calls[k := c], n)| ==
              |Holders(calls, n)| + One(Has(c, n)) - One(k in calls && Has(calls[k], n))
  {
    SizesDiffer(Holders(calls, n), Holders(calls[k := c], n), k);
  }

  /** The bookkeeping of a step follows the phase of the one call that moves. */
  lemma TakenAfter(s: State, e: Event, n: Counter)
    requires Enabled(s, e) && (e.k in s.calls ==> CallOk(s.calls[e.k], Bill(s.quota, e.k), s.maxRetries))
    ensures Taken(Apply(s, e), n) ==
              Taken(s, n) + One(Has(NextCall(s, e), n)) - One(e.k in s.calls && Has(s.calls[e.k], n))
  {
    if e.Pay? { TakenAfterPay(s, e.k, e.step, n); }
  }

  lemma TakenAfterPay(s: State, k: CallId, step: Quota.Event, n: Counter)
    requires Enabled(s, Pay(k, step)) && CallOk(s.calls[k], Bill(s.quota, k), s.maxRetries)
    ensures Taken(Apply(s, Pay(k, step)), n) == Taken(s, n) + One(Has(NextCall(s, Pay(k, step)), n)) - One(Has(s.calls[k], n))
  {
  }

  /** A step moves one call, and the quota only in a paying step, under the same id. */
  lemma StepFrame(s: State, e: Event)
    requires Enabled(s, e)
    ensures Apply(s, e).calls == s.calls[e.k := NextCall(s, e)]
    ensures Apply(s, e).cap == s.cap && Apply(s, e).maxRetries == s.maxRetries
    ensures Apply(s, e).quota == if e.Pay? then Quota.Apply(s.quota, e.step) else s.quota
    ensures forall k :: k != e.k || !e.Pay? ==> Bill(Apply(s, e).quota, k) == Bill(s.quota, k)
  {
    if e.Pay? { Quota.StepFrame(s.quota, e.step); }
  }

  lemma PayKept(s: State, e: Event)
    requires Enabled(s, e) && e.Pay? && Quota.Inv(Quota.Apply(s.quota, e.step))
    requires CallOk(s.calls[e.k], Bill(s.quota, e.k), s.maxRetries)
    ensures CallOk(NextCall(s, e), Bill(Quota.Apply(s.quota, e.step), e.k), s.maxRetries)
  {
    Quota.StepFrame(s.quota, e.step);
    assert Quota.CostOk(Quota.Apply(s.quota, e.step).calls[e.k]);
  }

  lemma CallKept(s: State, e: Event)
    requires Enabled(s, e) && Inv(s) && Quota.Inv(Apply(s, e).quota)
    ensures CallOk(NextCall(s, e), Bill(Apply(s, e).quota, e.k), s.maxRetries)
  {
    if e.Pay? { PayKept(s, e); }
  }

  lemma QuotaKept(s: State, e: Event)
    requires Enabled(s, e) && Inv(s)
    ensures Quota.Inv(Apply(s, e).quota)
  {
    StepFrame(s, e);
    if e.Pay? { Quota.StepKeepsInv(s.quota, e.step); }
  }

  lemma StepKeepsInv(s: State, e: Event)
    requires Enabled(s, e) && Inv(s)
    ensures Inv(Apply(s, e))
  {
    var s' := Apply(s, e);
    QuotaKept(s, e);
    CallKept(s, e);
    StepFrame(s, e);
    assert s'.quota.calls.Keys <= s'.calls.Keys by { if e.Pay? { Quota.StepFrame(s.quota, e.step); } }
    forall n ensures Taken(s', n) == |Holders(s'.calls, n)| {
      TakenAfter(s, e, n);
      HoldersAfter(s.calls, e.k, NextCall(s, e), n);
    }
    forall k | k in s'.calls ensures CallOk(s'.calls[k], Bill(s'.quota, k), s'.maxRetries) {
      if k != e.k { assert Bill(s'.quota, k) == Bill(s.quota, k); }
    }
  }

  lemma {:induction false} RunKeepsInv(s: State, es: seq<Event>)
    requires Inv(s) && Feasible(s, es)
    ensures Inv(RunAll(s, es)) && RunAll(s, es).cap == s.cap && RunAll(s, es).maxRetries == s.maxRetries
    decreases |es|
  {
    if es != [] {
      StepKeepsInv(s, es[0]);
      StepFrame(s, es[0]);
      RunKeepsInv(Apply(s, es[0]), es[1..]);
    }
  }

  lemma InitInv(g: Config)
    ensures Inv(Init(g))
  {
    Quota.EmptyInv();
    forall n ensures Holders(Init(g).calls, n) == {} {}
  }

  /**
   For every interleaving of calls: in each pool the free permits plus the calls that hold one
   equal the capacity, and the waiter and in-flight counters equal the calls in those phases.
   */
  lemma PermitsConserve(g: Config, es: seq<Event>)
    requires Feasible(Init(g), es)
    ensures var s := RunAll(Init(g), es);
            && s.free.p0 + |Holders(s.calls, P0Permit)| == Max(g.p0, 1)
            && s.free.shared + |Holders(s.calls, SharedPermit)| == Max(g.shared, 1)
            && s.free.http + |Holders(s.calls, HttpPermit)| == Max(g.http, 1)
            && s.waiters == |Holders(s.calls, Waiter)|
            && s.inflight == |Holders(s.calls, Inflight)|
  {
    InitInv(g);
    RunKeepsInv(Init(g), es);
    var s := RunAll(Init(g), es);
    assert forall n :: Taken(s, n) == |Holders(s.calls, n)|;
  }

  /** Once every call is over, however it ended, all permits are back. */
  lemma AllPermitsComeBack(g: Config, es: seq<Event>)
    requires Feasible(Init(g), es)
    requires var s := RunAll(Init(g), es); forall k :: k in s.calls ==> s.calls[k].phase.Closed?
    ensures var s := RunAll(Init(g), es);
            s.free == s.cap == Init(g).cap && s.waiters == 0 && s.inflight == 0
  {
    PermitsConserve(g, es);
    InitInv(g);
    RunKeepsInv(Init(g), es);
    var s := RunAll(Init(g), es);
    forall n ensures Holders(s.calls, n) == {} {}
  }

  // ----- every call ends -----

  /** The step drops a call that waits for something. */
  predicate Drops(e: Event) {
    e.Drop? || (e.Pay? && e.step.Drop?)
  }

  /** An admitted call can always go on with its quota call. */
  lemma CanPay(s: State, k: CallId) returns (e: Event)
    requires Inv(s) && k in s.calls && s.calls[k].phase.Admitted?
    ensures Enabled(s, e) && !e.Arrive? && !Drops(e)
  {
    assert CallOk(s.calls[k], Bill(s.quota, k), s.maxRetries);
    if k !in s.quota.calls {
      e := Pay(k, Quota.Begin(k, s.calls[k].account));
    } else {
      assert Quota.CostOk(s.quota.calls[k]);
      e := Pay(k, match s.quota.calls[k].phase
        case Fresh => Quota.Load(k, None)
        case Loaded => Quota.Reserve(k)
        case Reserved => Quota.Charge(k, 0)
        case _ => Quota.GiveBack(k));
    }
  }

  /** A call in the retry loop can go on, or the one that has the HTTP permit can. */
  lemma CanAttempt(s: State, k: CallId) returns (e: Event)
    requires Inv(s) && s.cap.http >= 1 && k in s.calls && InLoop(s.calls[k].phase)
    ensures Enabled(s, e) && !e.Arrive? && !Drops(e)
  {
    match s.calls[k].phase
    case Sleeping => e := Wake(k);
    case Sending => e := Receive(k, Success);
    case Ready =>
      if s.free.http > 0 {
        e := TakeHttp(k);
      } else {
        assert Taken(s, HttpPermit) == |Holders(s.calls, HttpPermit)|;
        var h :| h in Holders(s.calls, HttpPermit);
        e := Receive(h, Success);
      }
  }

  /** Whoever holds an admission permit can go on. */
  lemma HolderMoves(s: State, k: CallId) returns (e: Event)
    requires Inv(s) && s.cap.http >= 1 && k in s.calls && HoldsAdmission(s.calls[k].phase)
    ensures Enabled(s, e) && !e.Arrive? && !Drops(e)
  {
    match s.calls[k].phase
    case Admitted => e := CanPay(s, k);
    case Leaving(_) => e := Leave(k);
    case _ => e := CanAttempt(s, k);
  }

  /**
   No deadlock, although calls hold an admission permit while they wait for an HTTP permit: with an
   open call somebody can take a step that drops no call.
   */
  lemma NeverStuck(s: State, k: CallId) returns (e: Event)
    requires Inv(s) && s.cap.shared >= 1 && s.cap.http >= 1 && k in s.calls && !s.calls[k].phase.Closed?
    ensures Enabled(s, e) && !e.Arrive? && !Drops(e)
  {
    match s.calls[k].phase
    case Fresh => e := if s.calls[k].priority.P0? then TryP0(k) else Enqueue(k);
    case Queued => e := Consult(k, Pressure.Normal);
    case Waiting =>
      if s.free.shared > 0 {
        e := Obtain(k);
      } else {
        assert Taken(s, SharedPermit) == |Holders(s.calls, SharedPermit)|;
        var h :| h in Holders(s.calls, SharedPermit);
        e := HolderMoves(s, h);
      }
    case _ => e := HolderMoves(s, k);
  }

  /** The steps that a new call can take at most, its arrival aside. */
  function FullRank(maxRetries: nat): nat {
    3 * maxRetries + 14
  }

  /** How many steps a call can still take; each retry costs three. */
  function CallRank(c: Call, bill: Option<Quota.Call>, maxRetries: nat): nat {
    match c.phase
    case Fresh => FullRank(maxRetries)
    case Queued => FullRank(maxRetries) - 1
    case Waiting => FullRank(maxRetries) - 2
    case Admitted => 3 * (maxRetries + 1) + 2 + PayRank(bill)
    case Ready => Max(0, 3 * (maxRetries + 1 - c.attempts)) + 2
    case Sending => Max(0, 3 * (maxRetries + 1 - c.attempts)) + 4
    case Sleeping => Max(0, 3 * (maxRetries + 1 - c.attempts)) + 3
    case Leaving(_) => 1
    case Closed(_) => 0
  }

  function PayRank(bill: Option<Quota.Call>): nat {
    if bill.None? then 6 else
    match bill.value.phase
    case Fresh => 5
    case Loaded => 4
    case Reserved => 3
    case _ => 2
  }

  lemma PayLowersRank(s: State, k: CallId, step: Quota.Event)
    requires Enabled(s, Pay(k, step)) && CallOk(s.calls[k], Bill(s.quota, k), s.maxRetries)
    ensures CallRank(NextCall(s, Pay(k, step)), Bill(Quota.Apply(s.quota, step), k), s.maxRetries)
              < CallRank(s.calls[k], Bill(s.quota, k), s.maxRetries)
  {
    Quota.StepFrame(s.quota, step);
  }

  lemma CallRankFalls(s: State, e: Event)
    requires Enabled(s, e) && !e.Arrive? && CallOk(s.calls[e.k], Bill(s.quota, e.k), s.maxRetries)
    ensures CallRank(NextCall(s, e), Bill(Apply(s, e).quota, e.k), s.maxRetries)
              < CallRank(s.calls[e.k], Bill(s.quota, e.k), s.maxRetries)
  {
    StepFrame(s, e);
    if e.Pay? { PayLowersRank(s, e.k, e.step); }
  }

  /** One token for every step that some call can still take. */
  function Tokens(s: State): set<(CallId, nat)> {
    set k: CallId, i: nat | k in s.calls && i < CallRank(s.calls[k], Bill(s.quota, k), s.maxRetries) :: (k, i)
  }

  lemma StepTakesToken(s: State, e: Event)
    requires Inv(s) && Enabled(s, e) && !e.Arrive?
    ensures Tokens(Apply(s, e)) < Tokens(s)
  {
    StepFrame(s, e);
    CallRankFalls(s, e);
    var after := CallRank(NextCall(s, e), Bill(Apply(s, e).quota, e.k), s.maxRetries);
    forall t | t in Tokens(Apply(s, e)) ensures t in Tokens(s) {
      if t.0 != e.k { assert Bill(Apply(s, e).quota, t.0) == Bill(s.quota, t.0); }
    }
    assert (e.k, after) in Tokens(s) && (e.k, after) !in Tokens(Apply(s, e));
  }

  function Row(k: CallId, n: nat): set<(CallId, nat)> {
    set i: nat | i < n :: (k, i)
  }

  lemma {:induction false} RowSize(k: CallId, n: nat)
    ensures |Row(k, n)| == n
  {
    if n > 0 {
      RowSize(k, n - 1);
      assert Row(k, n) == Row(k, n - 1) + {(k, n - 1)};
    }
  }

  lemma ArrivalAddsTokens(s: State, e: Event)
    requires Inv(s) && Enabled(s, e) && e.Arrive?
    ensures |Tokens(Apply(s, e))| <= |Tokens(s)| + FullRank(s.maxRetries)
  {
    StepFrame(s, e);
    var n := FullRank(s.maxRetries);
    RowSize(e.k, n);
    assert Tokens(Apply(s, e)) <= Tokens(s) + Row(e.k, n);
    assert |Tokens(Apply(s, e))| <= |Tokens(s) + Row(e.k, n)| by { Smaller(Tokens(Apply(s, e)), Tokens(s) + Row(e.k, n)); }
  }

  lemma Smaller(a: set<(CallId, nat)>, b: set<(CallId, nat)>)
    requires a <= b
    ensures |a| <= |b| && (a < b ==> |a| < |b|)
  {
    assert b == a + (b - a);
  }

  function Arrivals(es: seq<Event>): nat {
    if es == [] then 0 else One(es[0].Arrive?) + Arrivals(es[1..])
  }

  lemma StepCost(s: State, e: Event)
    requires Inv(s) && Enabled(s, e)
    ensures 1 + |Tokens(Apply(s, e))| <= |Tokens(s)| + if e.Arrive? then FullRank(s.maxRetries) + 1 else 0
  {
    if e.Arrive? {
      ArrivalAddsTokens(s, e);
    } else {
      StepTakesToken(s, e);
      Smaller(Tokens(Apply(s, e)), Tokens(s));
    }
  }

  /** What the arrivals of the run may cost together. */
  function Allowance(es: seq<Event>, cost: nat): nat {
    if es == [] then 0 else (if es[0].Arrive? then cost else 0) + Allowance(es[1..], cost)
  }

  lemma {:induction false} AllowanceIs(es: seq<Event>, cost: nat)
    ensures Allowance(es, cost) == cost * Arrivals(es)
  {
    if es != [] {
      AllowanceIs(es[1..], cost);
      OneMoreArrival(cost, Arrivals(es[1..]));
    }
  }

  lemma {:induction false} RunsAreFinite(s: State, es: seq<Event>)
    requires Inv(s) && Feasible(s, es)
    ensures |es| + |Tokens(RunAll(s, es))| <= |Tokens(s)| + Allowance(es, FullRank(s.maxRetries) + 1)
    decreases |es|
  {
    if es != [] {
      var s1 := Apply(s, es[0]);
      assert Inv(s1) && s1.maxRetries == s.maxRetries by {
        StepKeepsInv(s, es[0]);
        StepFrame(s, es[0]);
      }
      StepCost(s, es[0]);
      RunsAreFinite(s1, es[1..]);
    }
  }

  lemma OneMoreArrival(n: nat, m: nat)
    ensures n * (1 + m) == n + n * m
  {
  }

  /** Nobody can take another step, unless a new call arrives or one is dropped. */
  ghost predicate AtRest(s: State) {
    forall e :: Enabled(s, e) ==> e.Arrive? || Drops(e)
  }

  /**
   Every call ends: a run of n calls has at most (3 * maxRetries + 15) * n steps, whatever the
   interleaving, and when nobody can go on all calls are closed and all permits are back.
   */
  lemma EveryCallEnds(g: Config, es: seq<Event>)
    requires Feasible(Init(g), es)
    ensures |es| <= (3 * g.maxRetries + 15) * Arrivals(es)
    ensures var s := RunAll(Init(g), es);
            AtRest(s) ==> (forall k :: k in s.calls ==> s.calls[k].phase.Closed?) && s.free == s.cap == Init(g).cap
  {
    InitInv(g);
    RunKeepsInv(Init(g), es);
    RunsAreFinite(Init(g), es);
    AllowanceIs(es, 3 * g.maxRetries + 15);
    assert Tokens(Init(g)) == {};
    var s := RunAll(Init(g), es);
    if AtRest(s) {
      forall k | k in s.calls ensures s.calls[k].phase.Closed? {
        if !s.calls[k].phase.Closed? { var e := NeverStuck(s, k); }
      }
      AllPermitsComeBack(g, es);
    }
  }

  // ----- who is let in -----

  /** Which level first keeps a priority out: Elevated P4, High also P2 and P3, Critical also P1. */
  predicate KeptOut(p: Priority, pressure: Pressure.Level) {
    || (p.P4? && !pressure.Normal?)
    || ((p.P2? || p.P3?) && (pressure.High? || pressure.Critical?))
    || (p.P1? && pressure.Critical?)
  }

  /** A queued call is rejected exactly when the pressure it consults keeps its priority out. */
  lemma ConsultDecides(s: State, k: CallId, pressure: Pressure.Level)
    requires Enabled(s, Consult(k, pressure))
    ensures Apply(s, Consult(k, pressure)).calls[k].phase ==
              if KeptOut(s.calls[k].priority, pressure) then Closed(Rejected(pressure)) else Waiting
  {
  }

  /** A P0 call is admitted at once exactly when fewer P0 calls than permits are under way. */
  lemma P0IsAdmittedIff(s: State, k: CallId)
    requires Inv(s) && Enabled(s, TryP0(k))
    ensures Apply(s, TryP0(k)).calls[k].phase ==
              if |Holders(s.calls, P0Permit)| < s.cap.p0 then Admitted else Closed(P0Busy)
  {
    assert Taken(s, P0Permit) == |Holders(s.calls, P0Permit)|;
  }

  // ----- what the replies decide -----

  /** How often the run brings call `k` the reply. */
  function Got(es: seq<Event>, k: CallId, reply: Reply): nat {
    if es == [] then 0 else One(es[0] == Receive(k, reply)) + Got(es[1..], k, reply)
  }

  /** What a call's phase says about the replies it got: `t` transient, `p` permanent and `u` successful ones. */
  predicate HistoryOk(s: State, k: CallId, t: nat, p: nat, u: nat) {
    if k !in s.calls then t == p == u == 0 else CallSays(s.calls[k], t, p, u, s.maxRetries)
  }

  predicate CallSays(c: Call, t: nat, p: nat, u: nat, maxRetries: nat) {
    match c.phase
    case Ready => p == u == 0 && t == c.attempts
    case Sleeping => p == u == 0 && t == c.attempts
    case Sending => p == u == 0 && t + 1 == c.attempts
    case Leaving(v) => VerdictSays(c, v, t, p, u, maxRetries)
    case Closed(v) => VerdictSays(c, v, t, p, u, maxRetries)
    case _ => t == p == u == 0 && c.attempts == 0
  }

  predicate VerdictSays(c: Call, v: Verdict, t: nat, p: nat, u: nat, maxRetries: nat) {
    match v
    case Answered => u == 1 && p == 0 && t + 1 == c.attempts
    case Failed => u == 0 && ((p == 1 && t + 1 == c.attempts) || (p == 0 && t == c.attempts == maxRetries + 1))
    case Dropped => p == u == 0 && t <= c.attempts <= t + 1 && t <= maxRetries
    case _ => t == p == u == 0 && c.attempts == 0
  }

  lemma OwnStep(s: State, e: Event, t: nat, p: nat, u: nat)
    requires Enabled(s, e) && HistoryOk(s, e.k, t, p, u)
    requires e.k in s.calls ==> CallOk(s.calls[e.k], Bill(s.quota, e.k), s.maxRetries)
    ensures CallSays(NextCall(s, e), t + One(e == Receive(e.k, Transient)), p + One(e == Receive(e.k, Permanent)),
                     u + One(e == Receive(e.k, Success)), s.maxRetries)
  {
  }

  lemma HistoryStep(s: State, e: Event, k: CallId, t: nat, p: nat, u: nat)
    requires Enabled(s, e) && Inv(s) && HistoryOk(s, k, t, p, u)
    ensures HistoryOk(Apply(s, e), k, t + One(e == Receive(k, Transient)), p + One(e == Receive(k, Permanent)),
                      u + One(e == Receive(k, Success)))
  {
    StepFrame(s, e);
    if k == e.k { OwnStep(s, e, t, p, u); }
  }

  lemma {:induction false} HistoryRun(s: State, es: seq<Event>, k: CallId, t: nat, p: nat, u: nat)
    requires Feasible(s, es) && Inv(s) && HistoryOk(s, k, t, p, u)
    ensures HistoryOk(RunAll(s, es), k, t + Got(es, k, Transient), p + Got(es, k, Permanent), u + Got(es, k, Success))
    ensures RunAll(s, es).maxRetries == s.maxRetries
    decreases |es|
  {
    if es != [] {
      var e := es[0];
      HistoryStep(s, e, k, t, p, u);
      StepKeepsInv(s, e);
      StepFrame(s, e);
      HistoryRun(Apply(s, e), es[1..], k, t + One(e == Receive(k, Transient)),
                 p + One(e == Receive(k, Permanent)), u + One(e == Receive(k, Success)));
    }
  }

  predicate HasVerdict(c: Call, v: Verdict) {
    c.phase == Leaving(v) || c.phase == Closed(v)
  }

  /**
   The replies decide. A call is answered if and only if it got a successful reply, and then it made one
   attempt more than it got transient ones. It has failed if and only if it got a permanent reply
   or a transient one on each of its maxRetries + 1 attempts: a transient failure before that is
   retried, and one success is enough.
   */
  lemma RepliesDecide(g: Config, es: seq<Event>, k: CallId)
    requires Feasible(Init(g), es) && k in RunAll(Init(g), es).calls
    ensures var c := RunAll(Init(g), es).calls[k];
            && (HasVerdict(c, Answered) <==> Got(es, k, Success) > 0)
            && (HasVerdict(c, Answered) ==> c.attempts == Got(es, k, Transient) + 1)
            && (HasVerdict(c, Failed) <==>
                  Got(es, k, Permanent) > 0 || Got(es, k, Transient) == g.maxRetries + 1)
            && (HasVerdict(c, Failed) && Got(es, k, Permanent) == 0 ==> c.attempts == g.maxRetries + 1)
            && (InLoop(c.phase) ==> c.attempts == Got(es, k, Transient) + One(c.phase.Sending?))
  {
    InitInv(g);
    RunKeepsInv(Init(g), es);
    HistoryRun(Init(g), es, k, 0, 0, 0);
    var s := RunAll(Init(g), es);
    assert CallOk(s.calls[k], Bill(s.quota, k), g.maxRetries);
  }

  // ----- what calls cost -----

  /** The units of the daily budget that call `k` cost. */
  function Cost(s: State, k: CallId): nat {
    One(k in s.quota.calls && s.quota.calls[k].charged.Some?)
  }

  /** The calls that cost a unit of collection `d` on `day`. */
  function Charged(s: State, d: Quota.CollectionId, day: int): set<CallId> {
    set k | k in s.calls && s.calls[k].account.Collection? && s.calls[k].account.collection == d
            && k in s.quota.calls && s.quota.calls[k].charged == Some(day)
  }

  /** In `es`, call `k` lost the answer to a charge that the database had applied. */
  predicate AnswerLost(es: seq<Event>, k: CallId) {
    exists i :: 0 <= i < |es| && LosesAnswer(es[i], k)
  }

  predicate LosesAnswer(e: Event, k: CallId) {
    e.Pay? && e.k == k && (e.step.ChargeFails? || e.step.Drop?) && e.step.applied
  }

  predicate ChargedUnseen(s: State, k: CallId) {
    k in s.quota.calls && s.quota.calls[k].charged.Some? && !s.quota.calls[k].phase.Granted?
  }

  lemma UnseenStep(s: State, e: Event, k: CallId)
    requires Enabled(s, e) && !ChargedUnseen(s, k) && ChargedUnseen(Apply(s, e), k)
    ensures LosesAnswer(e, k)
  {
    StepFrame(s, e);
    if e.Pay? { Quota.StepFrame(s.quota, e.step); }
  }

  lemma {:induction false} UnseenHasCause(s: State, es: seq<Event>, k: CallId)
    requires Feasible(s, es) && !ChargedUnseen(s, k) && ChargedUnseen(RunAll(s, es), k)
    ensures AnswerLost(es, k)
    decreases |es|
  {
    var s1 := Apply(s, es[0]);
    if ChargedUnseen(s1, k) {
      UnseenStep(s, es[0], k);
    } else {
      UnseenHasCause(s1, es[1..], k);
      var i :| 0 <= i < |es[1..]| && LosesAnswer(es[1..][i], k);
      assert LosesAnswer(es[i + 1], k);
    }
  }

  /**
   The bill of every call, against the real counters. Each attempt of a Collection call is backed by
   exactly one unit of its own collection's budget, and made under a live admission permit; a
   System call costs nothing and is never refused by the quota. A call that admission
   refused cost nothing; one that the quota refused made no attempt and cost a unit only
   if the answer to its charge was lost; so did a dropped call that was never granted.
   */
  lemma AttemptsArePaidOnce(g: Config, es: seq<Event>, k: CallId)
    requires Feasible(Init(g), es) && k in RunAll(Init(g), es).calls
    ensures var s := RunAll(Init(g), es); var c, bill := s.calls[k], Bill(s.quota, k);
            && c.attempts <= g.maxRetries + 1
            && (c.phase.Sending? ==> Has(c, if c.priority.P0? then P0Permit else SharedPermit))
            && (c.attempts > 0 ==> bill.Some? && Cost(s, k) == One(c.account.Collection?)
                                   && (c.account.Collection? ==>
                                         bill.value.phase.Granted? && k in Charged(s, c.account.collection, bill.value.phase.day)))
            && (c.account.System? ==> Cost(s, k) == 0 && c.phase != Closed(QuotaRefused))
            && (c.phase.Closed? && (c.phase.verdict.P0Busy? || c.phase.verdict.Rejected?) ==> c.attempts == Cost(s, k) == 0)
            && (c.phase.Closed? && c.phase.verdict.Rejected? ==> !c.priority.P0?)
            && (c.phase == Closed(QuotaRefused) ==> c.attempts == 0 && (Cost(s, k) == 1 ==> AnswerLost(es, k)))
            && (c.phase == Closed(Dropped) && Cost(s, k) == 1 ==> bill.value.phase.Granted? || AnswerLost(es, k))
  {
    InitInv(g);
    RunKeepsInv(Init(g), es);
    var s := RunAll(Init(g), es);
    assert CallOk(s.calls[k], Bill(s.quota, k), g.maxRetries);
    if k in s.quota.calls {
      assert Quota.CostOk(s.quota.calls[k]);
      if ChargedUnseen(s, k) { UnseenHasCause(Init(g), es, k); }
    }
  }

  /** Nothing else is charged: a day's counter is the number of calls that cost a unit of it. */
  lemma UsageIsWhatCallsCost(g: Config, es: seq<Event>, d: Quota.CollectionId, day: int)
    requires Feasible(Init(g), es)
    ensures var s := RunAll(Init(g), es); Quota.Spent(s.quota.usage, d, day) == |Charged(s, d, day)|
  {
    InitInv(g);
    RunKeepsInv(Init(g), es);
    var s := RunAll(Init(g), es);
    forall k | k in s.quota.calls ensures k in s.calls && s.quota.calls[k].account == s.calls[k].account {
      assert CallOk(s.calls[k], Bill(s.quota, k), s.maxRetries);
    }
    assert Charged(s, d, day) == Quota.Paying(s.quota.calls, d, day);
  }

  // ----- what background calls can do to a P0 call -----

  predicate AboutP0(s: State, e: Event)
    requires Enabled(s, e)
  {
    if e.Arrive? then e.priority.P0? else s.calls[e.k].priority.P0?
  }

  /** The run without every step of a P1 to P4 call. */
  function Erase(s: State, es: seq<Event>): seq<Event>
    requires Feasible(s, es)
    decreases |es|
  {
    if es == [] then []
    else (if AboutP0(s, es[0]) then [es[0]] else []) + Erase(Apply(s, es[0]), es[1..])
  }

  /** The P0 calls of `f` are the calls of `g`, with the same records on both sides of the quota. */
  ghost predicate SameP0(f: State, g: State) {
    && f.free.p0 == g.free.p0
    && (forall k :: k in g.calls <==> k in f.calls && f.calls[k].priority.P0?)
    && (forall k :: k in g.calls ==> g.calls[k] == f.calls[k] && Bill(g.quota, k) == Bill(f.quota, k))
  }

  /** Deleting the background steps leaves a run in which every P0 call fares the same. */
  ghost predicate ErasureHolds(s: State, es: seq<Event>)
    requires Feasible(s, es)
  {
    Feasible(s, Erase(s, es)) && SameP0(RunAll(s, es), RunAll(s, Erase(s, es)))
  }

  /** The P0 calls of the run have accounts in `front`, the others in `back`. */
  predicate Uses(es: seq<Event>, front: set<Quota.Account>, back: set<Quota.Account>) {
    forall i :: 0 <= i < |es| && es[i].Arrive? ==> es[i].account in (if es[i].priority.P0? then front else back)
  }

  /** No front account draws on the daily budget or the run of a background account. */
  predicate Isolated(front: set<Quota.Account>, back: set<Quota.Account>) {
    forall a, b :: a in front && b in back ==> !Quota.Shares(a, b)
  }

  /** `t` is `s` seen without its P1 to P4 calls. */
  ghost predicate P0View(s: State, t: State, front: set<Quota.Account>, back: set<Quota.Account>) {
    && Inv(s) && Inv(t) && SameP0(s, t)
    && s.cap == t.cap && s.maxRetries == t.maxRetries
    && (forall k :: k in s.calls ==> s.calls[k].account in (if s.calls[k].priority.P0? then front else back))
    && (forall a :: a in front ==> Quota.SameCounters(s.quota, t.quota, a))
  }

  lemma MoreHttpWithoutBackground(s: State, t: State)
    requires Inv(s) && Inv(t) && SameP0(s, t) && s.cap == t.cap
    ensures s.free.http <= t.free.http
  {
    var a, b := Holders(t.calls, HttpPermit), Holders(s.calls, HttpPermit);
    assert Taken(s, HttpPermit) == |b| && Taken(t, HttpPermit) == |a|;
    assert a <= b;
    assert b == a + (b - a);
  }

  lemma SamePay(s: State, t: State, e: Event, front: set<Quota.Account>, back: set<Quota.Account>)
    requires P0View(s, t, front, back) && Enabled(s, e) && AboutP0(s, e) && e.Pay?
    ensures Quota.SameCall(s.quota, t.quota, e.step) && Quota.Enabled(t.quota, e.step)
    ensures Bill(Quota.Apply(s.quota, e.step), e.k) == Bill(Quota.Apply(t.quota, e.step), e.k)
  {
    assert Bill(s.quota, e.k) == Bill(t.quota, e.k);
    assert CallOk(s.calls[e.k], Bill(s.quota, e.k), s.maxRetries);
    Quota.SameStep(s.quota, t.quota, e.step);
    Quota.StepFrame(s.quota, e.step);
    Quota.StepFrame(t.quota, e.step);
  }

  lemma P0StepEnabled(s: State, t: State, e: Event, front: set<Quota.Account>, back: set<Quota.Account>)
    requires P0View(s, t, front, back) && Enabled(s, e) && AboutP0(s, e)
    requires e.Arrive? ==> e.k !in t.calls
    ensures Enabled(t, e) && NextCall(s, e) == NextCall(t, e) && Apply(s, e).free.p0 == Apply(t, e).free.p0
    ensures NextCall(s, e).priority.P0?
  {
    MoreHttpWithoutBackground(s, t);
    if e.Pay? { SamePay(s, t, e, front, back); }
  }

  lemma P0CountersMatch(s: State, t: State, e: Event, front: set<Quota.Account>, back: set<Quota.Account>, a: Quota.Account)
    requires P0View(s, t, front, back) && Enabled(s, e) && AboutP0(s, e) && Enabled(t, e) && a in front
    ensures Quota.SameCounters(Apply(s, e).quota, Apply(t, e).quota, a)
  {
    StepFrame(s, e);
    StepFrame(t, e);
    if e.Pay? {
      SamePay(s, t, e, front, back);
      Quota.SameCountersKept(s.quota, t.quota, e.step, a);
    }
  }

  lemma P0BillsMatch(s: State, t: State, e: Event, front: set<Quota.Account>, back: set<Quota.Account>, k: CallId)
    requires P0View(s, t, front, back) && Enabled(s, e) && AboutP0(s, e) && Enabled(t, e)
    requires Bill(s.quota, k) == Bill(t.quota, k)
    ensures Bill(Apply(s, e).quota, k) == Bill(Apply(t, e).quota, k)
  {
    StepFrame(s, e);
    StepFrame(t, e);
    if e.Pay? { SamePay(s, t, e, front, back); }
  }

  lemma SameP0After(s: State, t: State, e: Event, front: set<Quota.Account>, back: set<Quota.Account>)
    requires P0View(s, t, front, back) && Enabled(s, e) && AboutP0(s, e) && Enabled(t, e)
    requires NextCall(s, e) == NextCall(t, e) && Apply(s, e).free.p0 == Apply(t, e).free.p0
    ensures SameP0(Apply(s, e), Apply(t, e))
  {
    var s', t' := Apply(s, e), Apply(t, e);
    assert s'.calls == s.calls[e.k := NextCall(s, e)] && t'.calls == t.calls[e.k := NextCall(s, e)];
    forall k | k in t'.calls ensures Bill(t'.quota, k) == Bill(s'.quota, k) {
      if e.Arrive? { NoBillYet(s, t, e); }
      P0BillsMatch(s, t, e, front, back, k);
    }
  }

  lemma P0StepMatches(s: State, t: State, e: Event, front: set<Quota.Account>, back: set<Quota.Account>)
    requires P0View(s, t, front, back) && Enabled(s, e) && AboutP0(s, e)
    requires e.Arrive? ==> e.account in front
    ensures Enabled(t, e) && P0View(Apply(s, e), Apply(t, e), front, back)
  {
    P0StepEnabled(s, t, e, front, back);
    var s', t' := Apply(s, e), Apply(t, e);
    assert Inv(s') by { StepKeepsInv(s, e); }
    assert Inv(t') by { StepKeepsInv(t, e); }
    SameP0After(s, t, e, front, back);
    StepFrame(s, e);
    StepFrame(t, e);
    forall a | a in front ensures Quota.SameCounters(s'.quota, t'.quota, a) { P0CountersMatch(s, t, e, front, back, a); }
  }

  /** A call that arrives is unknown to the quota. */
  lemma NoBillYet(s: State, t: State, e: Event)
    requires Inv(s) && Inv(t) && Enabled(s, e) && Enabled(t, e) && e.Arrive?
    ensures Bill(s.quota, e.k) == Bill(t.quota, e.k) == None
  {
  }

  lemma BackgroundStepHidden(s: State, t: State, e: Event, front: set<Quota.Account>, back: set<Quota.Account>)
    requires P0View(s, t, front, back) && Enabled(s, e) && !AboutP0(s, e) && Isolated(front, back)
    requires e.Arrive? ==> e.account in back
    ensures P0View(Apply(s, e), t, front, back)
  {
    var s' := Apply(s, e);
    assert Inv(s') by { StepKeepsInv(s, e); }
    StepFrame(s, e);
    forall a | a in front ensures Quota.SameCounters(s'.quota, t.quota, a) { BackgroundSparesFront(s, t, e, front, back, a); }
    forall k | k in t.calls ensures Bill(t.quota, k) == Bill(s'.quota, k) {
      assert k != e.k;
      assert Bill(t.quota, k) == Bill(s.quota, k);
    }
    assert s'.free.p0 == s.free.p0;
  }

  lemma BackgroundSparesFront(s: State, t: State, e: Event, front: set<Quota.Account>, back: set<Quota.Account>, a: Quota.Account)
    requires P0View(s, t, front, back) && Enabled(s, e) && !AboutP0(s, e) && Isolated(front, back) && a in front
    ensures Quota.SameCounters(Apply(s, e).quota, t.quota, a)
  {
    StepFrame(s, e);
    assert Quota.SameCounters(s.quota, t.quota, a);
    if e.Pay? {
      var b := s.calls[e.k].account;
      assert CallOk(s.calls[e.k], Bill(s.quota, e.k), s.maxRetries);
      Quota.StepFrame(s.quota, e.step);
      assert Quota.Apply(s.quota, e.step).calls[e.k].account == b && b in back;
      Quota.OtherCountersKept(s.quota, e.step, a);
    }
  }

  lemma {:induction false} EraseMatches(s: State, t: State, es: seq<Event>, front: set<Quota.Account>, back: set<Quota.Account>)
    requires P0View(s, t, front, back) && Feasible(s, es) && Isolated(front, back) && Uses(es, front, back)
    ensures Feasible(t, Erase(s, es)) && P0View(RunAll(s, es), RunAll(t, Erase(s, es)), front, back)
    decreases |es|
  {
    if es != [] {
      var e, s1 := es[0], Apply(s, es[0]);
      if AboutP0(s, e) {
        P0StepMatches(s, t, e, front, back);
        EraseMatches(s1, Apply(t, e), es[1..], front, back);
        assert Erase(s, es)[1..] == Erase(s1, es[1..]);
      } else {
        BackgroundStepHidden(s, t, e, front, back);
        EraseMatches(s1, t, es[1..], front, back);
        assert Erase(s, es) == Erase(s1, es[1..]);
      }
    }
  }

  // ----- sharing a budget is what breaks it -----

  lemma Cons(s: State, e: Event, rest: seq<Event>)
    requires Enabled(s, e) && Feasible(Apply(s, e), rest)
    ensures Feasible(s, [e] + rest) && RunAll(s, [e] + rest) == RunAll(Apply(s, e), rest)
    ensures Erase(s, [e] + rest) == (if AboutP0(s, e) then [e] else []) + Erase(Apply(s, e), rest)
  {
    assert ([e] + rest)[1..] == rest;
  }

  const ONE_UNIT := Quota.Limits(1, 1)

  /** A background call of account `b` holds its permit and waits for the database's answer. */
  function Reserving(g: Config, b: Quota.Account): State
    requires b.Collection?
  {
    var s := Init(g);
    s.(free := s.free.(shared := s.free.shared - 1),
       quota := Quota.State(if b.run.Some? then map[b.run.value := 1] else map[], map[],
                            map[0 := Quota.Call(b, ONE_UNIT, Quota.Reserved, None)]),
       calls := map[0 := Call(P1, b, Admitted, 0)])
  }

  /** ... and has spent the only unit of the day. */
  function SpentBy(g: Config, b: Quota.Account): State
    requires b.Collection?
  {
    var s := Reserving(g, b);
    s.(inflight := 1,
       quota := s.quota.(usage := map[(b.collection, 0) := 1],
                         calls := map[0 := Quota.Call(b, ONE_UNIT, Quota.Granted(0), Some(0))]),
       calls := map[0 := Call(P1, b, Ready, 0)])
  }

  /** A background call of account `b` has been admitted. */
  function BackgroundIn(g: Config, b: Quota.Account): State {
    Init(g).(free := Init(g).free.(shared := Init(g).free.shared - 1), calls := map[0 := Call(P1, b, Admitted, 0)])
  }

  lemma BackgroundAdmitted(g: Config, b: Quota.Account, s: State, rest: seq<Event>) returns (es: seq<Event>)
    requires b.Collection? && Feasible(s, rest)
    requires s == BackgroundIn(g, b)
    ensures Feasible(Init(g), es) && RunAll(Init(g), es) == RunAll(s, rest) && Erase(Init(g), es) == Erase(s, rest)
    ensures forall e :: e in es && e.Arrive? ==> e == Arrive(0, P1, b) || e in rest
  {
    var e1, e2, e3, e4 := Arrive(0, P1, b), Enqueue(0), Consult(0, Pressure.Normal), Obtain(0);
    var s1 := Apply(Init(g), e1);
    var s2 := Apply(s1, e2);
    var s3 := Apply(s2, e3);
    assert Apply(s3, e4) == s;
    Cons(s3, e4, rest);
    Cons(s2, e3, [e4] + rest);
    Cons(s1, e2, [e3] + ([e4] + rest));
    Cons(Init(g), e1, [e2] + ([e3] + ([e4] + rest)));
    es := [e1] + ([e2] + ([e3] + ([e4] + rest)));
  }

  /** Call `k`, admitted, has opened its quota call and read its limits. */
  function LoadedIn(s: State, k: CallId, a: Quota.Account): State {
    s.(quota := s.quota.(calls := s.quota.calls[k := Quota.Call(a, ONE_UNIT, Quota.Loaded, None)]))
  }

  lemma Loads(s: State, k: CallId, c: Call, rest: seq<Event>)
    requires k in s.calls && s.calls[k] == c && c.phase.Admitted? && c.account.Collection? && k !in s.quota.calls
    requires Feasible(LoadedIn(s, k, c.account), rest)
    ensures var es := [Pay(k, Quota.Begin(k, c.account))] + ([Pay(k, Quota.Load(k, Some(ONE_UNIT)))] + rest);
            && Feasible(s, es) && RunAll(s, es) == RunAll(LoadedIn(s, k, c.account), rest)
            && var left := Erase(LoadedIn(s, k, c.account), rest);
               Erase(s, es) == if c.priority.P0? then [es[0]] + ([es[1]] + left) else left
  {
    var e1, e2 := Pay(k, Quota.Begin(k, c.account)), Pay(k, Quota.Load(k, Some(ONE_UNIT)));
    var s1 := Apply(s, e1);
    assert s1.calls == s.calls && s1.inflight == s.inflight;
    assert s1.quota == s.quota.(calls := s.quota.calls[k := Quota.Call(c.account, Quota.DEFAULT_LIMITS, Quota.Fresh, None)]);
    var s2 := Apply(s1, e2);
    assert s2.calls == s.calls && s2.quota.calls == LoadedIn(s, k, c.account).quota.calls;
    assert s2 == LoadedIn(s, k, c.account);
    Cons(s1, e2, rest);
    Cons(s, e1, [e2] + rest);
  }

  lemma BackgroundCharged(g: Config, b: Quota.Account, s: State, rest: seq<Event>)
    requires b.Collection? && s == BackgroundIn(g, b) && Feasible(SpentBy(g, b), rest)
    ensures var s2, es := LoadedIn(s, 0, b), [Pay(0, Quota.Reserve(0))] + ([Pay(0, Quota.Charge(0, 0))] + rest);
            && Feasible(s2, es) && RunAll(s2, es) == RunAll(SpentBy(g, b), rest) && Erase(s2, es) == Erase(SpentBy(g, b), rest)
  {
    var s2, e3, e4 := LoadedIn(s, 0, b), Pay(0, Quota.Reserve(0)), Pay(0, Quota.Charge(0, 0));
    assert s2.quota == Quota.EMPTY.(calls := map[0 := Quota.Call(b, ONE_UNIT, Quota.Loaded, None)]);
    assert Apply(s2, e3) == Reserving(g, b);
    assert Apply(Reserving(g, b), e4) == SpentBy(g, b);
    Cons(Reserving(g, b), e4, rest);
    Cons(s2, e3, [e4] + rest);
  }

  lemma BackgroundSpends(g: Config, b: Quota.Account, rest: seq<Event>) returns (es: seq<Event>)
    requires b.Collection? && Feasible(SpentBy(g, b), rest)
    ensures Feasible(Init(g), es) && RunAll(Init(g), es) == RunAll(SpentBy(g, b), rest)
    ensures Erase(Init(g), es) == Erase(SpentBy(g, b), rest)
    ensures forall e :: e in es && e.Arrive? ==> e == Arrive(0, P1, b) || e in rest
  {
    var s := BackgroundIn(g, b);
    BackgroundCharged(g, b, s, rest);
    var charged := [Pay(0, Quota.Reserve(0))] + ([Pay(0, Quota.Charge(0, 0))] + rest);
    Loads(s, 0, s.calls[0], charged);
    var loads := [Pay(0, Quota.Begin(0, b))] + ([Pay(0, Quota.Load(0, Some(ONE_UNIT)))] + charged);
    es := BackgroundAdmitted(g, b, s, loads);
  }

  /** A P0 call of account `p` has arrived in `s`, was admitted and knows its limits. */
  function P0Loaded(s: State, p: Quota.Account): State
    requires s.free.p0 > 0
  {
    s.(free := s.free.(p0 := s.free.p0 - 1),
       quota := s.quota.(calls := s.quota.calls[1 := Quota.Call(p, ONE_UNIT, Quota.Loaded, None)]),
       calls := s.calls[1 := Call(P0, p, Admitted, 0)])
  }

  function P0Front(p: Quota.Account): seq<Event> {
    [Arrive(1, P0, p)] + ([TryP0(1)] + ([Pay(1, Quota.Begin(1, p))] + [Pay(1, Quota.Load(1, Some(ONE_UNIT)))]))
  }

  lemma P0Admitted(s: State, p: Quota.Account, t: State, rest: seq<Event>)
    requires 1 !in s.calls && s.free.p0 > 0 && Feasible(t, rest)
    requires t == s.(free := s.free.(p0 := s.free.p0 - 1), calls := s.calls[1 := Call(P0, p, Admitted, 0)])
    ensures var es := [Arrive(1, P0, p)] + ([TryP0(1)] + rest);
            Feasible(s, es) && RunAll(s, es) == RunAll(t, rest) && Erase(s, es) == [es[0]] + ([es[1]] + Erase(t, rest))
  {
    var e1, e2 := Arrive(1, P0, p), TryP0(1);
    var s1 := Apply(s, e1);
    var s2 := Apply(s1, e2);
    assert s2.calls == t.calls;
    assert s2 == t;
    Cons(s1, e2, rest);
    Cons(s, e1, [e2] + rest);
  }

  lemma FrontFirst(p: Quota.Account, rest: seq<Event>)
    ensures P0Front(p) + rest ==
              [Arrive(1, P0, p)] + ([TryP0(1)] + ([Pay(1, Quota.Begin(1, p))] + ([Pay(1, Quota.Load(1, Some(ONE_UNIT)))] + rest)))
  {
  }

  lemma P0Loads(s: State, p: Quota.Account, rest: seq<Event>)
    requires 1 !in s.calls && 1 !in s.quota.calls && s.free.p0 > 0 && p.Collection?
    requires Feasible(P0Loaded(s, p), rest)
    ensures Feasible(s, P0Front(p) + rest) && RunAll(s, P0Front(p) + rest) == RunAll(P0Loaded(s, p), rest)
    ensures Erase(s, P0Front(p) + rest) == P0Front(p) + Erase(P0Loaded(s, p), rest)
  {
    var t := s.(free := s.free.(p0 := s.free.p0 - 1), calls := s.calls[1 := Call(P0, p, Admitted, 0)]);
    assert LoadedIn(t, 1, p) == P0Loaded(s, p);
    var loads := [Pay(1, Quota.Begin(1, p))] + ([Pay(1, Quota.Load(1, Some(ONE_UNIT)))] + rest);
    Loads(t, 1, t.calls[1], rest);
    P0Admitted(s, p, t, loads);
    FrontFirst(p, rest);
    FrontFirst(p, Erase(P0Loaded(s, p), rest));
  }

  predicate SharesRun(p: Quota.Account, b: Quota.Account) {
    p.Collection? && b.Collection? && p.run.Some? && p.run == b.run
  }

  /** The step that decides: the run's slot if the run is shared, else the daily charge after it. */
  function Deciding(p: Quota.Account, b: Quota.Account): seq<Event> {
    if SharesRun(p, b) then [Pay(1, Quota.Reserve(1))]
    else [Pay(1, Quota.Reserve(1))] + [Pay(1, Quota.Charge(1, 0))]
  }

  /** After the background call has spent the unit, the same steps end in a refusal. */
  lemma RefusedAfter(g: Config, p: Quota.Account, b: Quota.Account)
    requires Quota.Shares(p, b)
    ensures var s := P0Loaded(SpentBy(g, b), p);
            && Feasible(s, Deciding(p, b)) && Erase(s, Deciding(p, b)) == Deciding(p, b)
            && var f := RunAll(s, Deciding(p, b));
               && 1 in f.calls && f.calls[1].priority.P0? && 1 in f.quota.calls
               && f.quota.calls[1].phase == if SharesRun(p, b) then Quota.Denied else Quota.Refused
  {
    var s := P0Loaded(SpentBy(g, b), p);
    var e1, e2 := Pay(1, Quota.Reserve(1)), Pay(1, Quota.Charge(1, 0));
    var s1 := Apply(s, e1);
    Cons(s, e1, []);
    if !SharesRun(p, b) {
      assert s1.calls[1].phase.Admitted? && s1.quota.calls[1] == Quota.Call(p, ONE_UNIT, Quota.Reserved, None);
      assert Quota.Spent(s1.quota.usage, p.collection, 0) == 1;
      Cons(s1, e2, []);
      Cons(s, e1, [e2] + []);
      assert [e2] + [] == [e2];
    }
    assert [e1] + [] == [e1];
  }

  /** Without it they go through. */
  lemma GrantedAlone(g: Config, p: Quota.Account, b: Quota.Account)
    requires Quota.Shares(p, b)
    ensures var t := P0Loaded(Init(g), p);
            && Feasible(t, Deciding(p, b))
            && var f := RunAll(t, Deciding(p, b));
               1 in f.quota.calls && f.quota.calls[1].phase == if SharesRun(p, b) then Quota.Reserved else Quota.Granted(0)
  {
    var t := P0Loaded(Init(g), p);
    var e1, e2 := Pay(1, Quota.Reserve(1)), Pay(1, Quota.Charge(1, 0));
    var t1 := Apply(t, e1);
    assert t1.calls[1].phase.Admitted? && t1.quota.calls[1] == Quota.Call(p, ONE_UNIT, Quota.Reserved, None);
    Cons(t, e1, []);
    if !SharesRun(p, b) {
      assert Quota.Spent(t1.quota.usage, p.collection, 0) == 0;
      Cons(t1, e2, []);
      Cons(t, e1, [e2] + []);
      assert [e2] + [] == [e2];
    }
    assert [e1] + [] == [e1];
  }

  function P0Steps(p: Quota.Account, b: Quota.Account): seq<Event> {
    P0Front(p) + Deciding(p, b)
  }

  lemma OnlyP0Arrives(p: Quota.Account, b: Quota.Account, e: Event)
    requires e in P0Steps(p, b) && e.Arrive?
    ensures e == Arrive(1, P0, p)
  {
  }

  lemma BillsDiffer(g: Config, p: Quota.Account, b: Quota.Account)
    requires Quota.Shares(p, b)
    ensures var s, t, es := SpentBy(g, b), Init(g), P0Steps(p, b);
            && Feasible(s, es) && Feasible(t, es) && Erase(s, es) == es
            && Bill(RunAll(s, es).quota, 1) != Bill(RunAll(t, es).quota, 1)
            && 1 in RunAll(s, es).calls && RunAll(s, es).calls[1].priority.P0?
  {
    RefusedAfter(g, p, b);
    GrantedAlone(g, p, b);
    P0Loads(SpentBy(g, b), p, Deciding(p, b));
    P0Loads(Init(g), p, Deciding(p, b));
  }

  lemma DifferentBills(f: State, h: State, k: CallId)
    requires k in f.calls && f.calls[k].priority.P0? && Bill(f.quota, k) != Bill(h.quota, k)
    ensures !SameP0(f, h)
  {
    assert SameP0(f, h) ==> k in h.calls;
  }

  /** Sharing is enough: the background call takes the last unit or slot, and the P0 call is refused for it. */
  lemma SharingBreaksErasure(g: Config, p: Quota.Account, b: Quota.Account) returns (es: seq<Event>)
    requires Quota.Shares(p, b)
    ensures Feasible(Init(g), es) && Uses(es, {p}, {b}) && !ErasureHolds(Init(g), es)
  {
    BillsDiffer(g, p, b);
    es := BackgroundSpends(g, b, P0Steps(p, b));
    DifferentBills(RunAll(Init(g), es), RunAll(Init(g), P0Steps(p, b)), 1);
    forall i | 0 <= i < |es| && es[i].Arrive? ensures es[i].account in (if es[i].priority.P0? then {p} else {b}) {
      if es[i] in P0Steps(p, b) { OnlyP0Arrives(p, b, es[i]); }
    }
  }

  lemma RefusedForGood(g: Config, a: Quota.Account) returns (rest: seq<Event>)
    requires a.Collection? && a.run.None?
    ensures var s := P0Loaded(SpentBy(g, a), a);
            Feasible(s, rest) && var f := RunAll(s, rest); 1 in f.calls && f.calls[1].phase == Closed(QuotaRefused)
  {
    var s, e1, e2 := P0Loaded(SpentBy(g, a), a), Pay(1, Quota.Reserve(1)), Pay(1, Quota.Charge(1, 0));
    var e3, e4 := Pay(1, Quota.GiveBack(1)), Leave(1);
    var s1 := Apply(s, e1);
    var s2 := Apply(s1, e2);
    assert s2.quota.calls[1].phase == Quota.Refused && s2.calls[1].phase.Admitted?;
    var s3 := Apply(s2, e3);
    assert s3.calls[1].phase == Leaving(QuotaRefused);
    Cons(s3, e4, []);
    Cons(s2, e3, [e4] + []);
    Cons(s1, e2, [e3] + ([e4] + []));
    Cons(s, e1, [e2] + ([e3] + ([e4] + [])));
    rest := [e1] + ([e2] + ([e3] + ([e4] + [])));
  }

  lemma ReadyIsAnswered(t: State) returns (rest: seq<Event>)
    requires 1 in t.calls && t.calls[1].phase == Ready && t.free.http > 0
    ensures Feasible(t, rest) && var f := RunAll(t, rest); 1 in f.calls && f.calls[1].phase == Closed(Answered)
  {
    var e1, e2, e3 := TakeHttp(1), Receive(1, Success), Leave(1);
    var t1 := Apply(t, e1);
    var t2 := Apply(t1, e2);
    assert t2.calls[1].phase == Leaving(Answered);
    Cons(t2, e3, []);
    Cons(t1, e2, [e3] + []);
    Cons(t, e1, [e2] + ([e3] + []));
    rest := [e1] + ([e2] + ([e3] + []));
  }

  lemma AnsweredAlone(g: Config, a: Quota.Account) returns (rest: seq<Event>)
    requires a.Collection? && a.run.None?
    ensures var t := P0Loaded(Init(g), a);
            Feasible(t, rest) && var f := RunAll(t, rest); 1 in f.calls && f.calls[1].phase == Closed(Answered)
  {
    var t, e1, e2 := P0Loaded(Init(g), a), Pay(1, Quota.Reserve(1)), Pay(1, Quota.Charge(1, 0));
    var t1 := Apply(t, e1);
    var t2 := Apply(t1, e2);
    assert t2.calls[1].phase == Ready && t2.free.http > 0;
    var tail := ReadyIsAnswered(t2);
    Cons(t1, e2, tail);
    Cons(t, e1, [e2] + tail);
    rest := [e1] + ([e2] + tail);
  }

  /**
   The concrete loss: a P0 call of a collection with a daily budget of 1 is refused after one
   background call of the same collection, and answered without it, in every configuration.
   */
  lemma BackgroundSpendsP0Budget(g: Config, a: Quota.Account)
    requires a.Collection? && a.run.None?
    ensures exists es, alone ::
              && Feasible(Init(g), es) && Feasible(Init(g), P0Front(a) + alone)
              && 1 in RunAll(Init(g), es).calls && 1 in RunAll(Init(g), P0Front(a) + alone).calls
              && RunAll(Init(g), es).calls[1].phase == Closed(QuotaRefused)
              && RunAll(Init(g), P0Front(a) + alone).calls[1].phase == Closed(Answered)
  {
    var refused := RefusedForGood(g, a);
    var alone := AnsweredAlone(g, a);
    P0Loads(SpentBy(g, a), a, refused);
    P0Loads(Init(g), a, alone);
    var es := BackgroundSpends(g, a, P0Front(a) + refused);
    assert Feasible(Init(g), es) && Feasible(Init(g), P0Front(a) + alone);
  }

  /** Every run over these accounts can be stripped of its background calls. */
  ghost predicate BackgroundHarmless(g: Config, front: set<Quota.Account>, back: set<Quota.Account>) {
    forall es :: Feasible(Init(g), es) && Uses(es, front, back) ==> ErasureHolds(Init(g), es)
  }

  /**
   Non-interference, exactly: for every configuration, background calls on the accounts `back` can
   never change what happens to a P0 call on an account of `front` if and only if no account
   of `front` shares its collection's daily budget or its run with one of `back` (a System
   account shares nothing). The pools, the pressure and the HTTP semaphore never matter.
   */
  lemma BackgroundCannotChangeP0Iff(g: Config, front: set<Quota.Account>, back: set<Quota.Account>)
    ensures BackgroundHarmless(g, front, back) <==> Isolated(front, back)
  {
    if Isolated(front, back) {
      forall es | Feasible(Init(g), es) && Uses(es, front, back) ensures ErasureHolds(Init(g), es) {
        InitInv(g);
        EraseMatches(Init(g), Init(g), es, front, back);
      }
    } else {
      var p, b :| p in front && b in back && Quota.Shares(p, b);
      var es := SharingBreaksErasure(g, p, b);
      assert Uses(es, front, back);
    }
  }

  // ----- the wait between attempts -----

  /** The shift is limited to 6 so that it cannot overflow. */
  function RetryBackoffMs(attempt: nat): nat {
    Min(Min(100 * Pow2(Min(attempt, 6)), 0xFFFF_FFFF_FFFF_FFFF), 5_000)
  }

  /** The limited shift is invisible: the wait is 100 ms doubled per attempt, at most 5 s. */
  lemma RetryBackoffDoubles(attempt: nat)
    ensures RetryBackoffMs(attempt) == Min(100 * Pow2(attempt), 5_000)
    ensures RetryBackoffMs(attempt) <= RetryBackoffMs(attempt + 1)
  {
    assert Pow2(6) == 64 by { assert Pow2(3) == 8; }
    Pow2Monotone(Min(attempt, 6), attempt);
    Pow2Monotone(Min(attempt, 6), Min(attempt + 1, 6));
    if attempt <= 6 { Pow2Monotone(attempt, 6); }
  }
}
