/**
 AI call quota (crates/ai-gateway/src/quota.rs): a per-run counter in memory, reserved before
 the daily budget in the database is charged and given back when that fails. Any number
 of calls interleave at their awaits; a call may also be dropped while it awaits.
 */
module Quota {
  import opened Prelude

  type CallId = nat
  type RunId = nat
  type CollectionId = nat

  datatype Limits = Limits(daily: int, perRun: int)

  /** What applies to a collection without a budget row. */
  const DEFAULT_LIMITS := Limits(500, 50)

  datatype Account = System | Collection(collection: CollectionId, run: Option<RunId>)

  /** `Leaked` is a call that was dropped while it held its reservation. */
  datatype Phase = Fresh | Loaded | Reserved | Refused | Granted(day: int) | Exempt | Denied | Leaked

  /** `charged` is history: the day on which the database took a unit for this call, if it did. */
  datatype Call = Call(account: Account, limits: Limits, phase: Phase, charged: Option<int>)

  datatype State = State(
    perRun: map<RunId, int>,
    usage: map<(CollectionId, int), int>,
    calls: map<CallId, Call>)

  const EMPTY := State(map[], map[], map[])

  // ----- the counter operations under the lock -----

  function Used(m: map<RunId, int>, r: RunId): int {
    if r in m then m[r] else 0
  }

  /** The map and whether a slot was taken. */
  function TryReserve(m: map<RunId, int>, r: RunId, max: int): (map<RunId, int>, bool) {
    if Used(m, r) >= max then (m[r := Used(m, r)], false) else (m[r := Used(m, r) + 1], true)
  }

  const I32_MIN: int := -0x8000_0000

  function Release(m: map<RunId, int>, r: RunId): map<RunId, int> {
    if r in m then m[r := Max(m[r] - 1, I32_MIN)] else m
  }

  function Spent(u: map<(CollectionId, int), int>, c: CollectionId, day: int): int {
    if (c, day) in u then u[(c, day)] else 0
  }

  // ----- interleaved calls -----

  datatype Event =
    | Begin(k: CallId, account: Account)
    | Load(k: CallId, row: Option<Limits>)
    | LoadFails(k: CallId)
    | Reserve(k: CallId)
    | Charge(k: CallId, day: int)
    | ChargeFails(k: CallId, day: int, applied: bool)
    | GiveBack(k: CallId)
    | Drop(k: CallId, day: int, applied: bool)

  predicate Enabled(s: State, e: Event) {
    if e.Begin? then e.k !in s.calls else
    e.k in s.calls &&
    var c := s.calls[e.k];
    match e
    case Load(_, _) => c.phase.Fresh? && c.account.Collection?
    case LoadFails(_) => c.phase.Fresh? && c.account.Collection?
    case Reserve(_) => c.phase.Loaded? && c.account.Collection?
    case Charge(_, _) => c.phase.Reserved? && c.account.Collection?
    case ChargeFails(_, _, _) => c.phase.Reserved? && c.account.Collection?
    case GiveBack(_) => c.phase.Refused? && c.account.Collection?
    case Drop(_, _, applied) =>
      c.account.Collection? && ((c.phase.Fresh? && !applied) || c.phase.Reserved?)
  }

  function At(s: State, k: CallId, p: Phase): map<CallId, Call>
    requires k in s.calls
  {
    s.calls[k := s.calls[k].(phase := p)]
  }

  /** What the database's single conditional update does for call `k`, and the phase the caller goes on in. */
  function Charged(s: State, k: CallId, day: int, p: Phase): State
    requires k in s.calls && s.calls[k].account.Collection? && HasRoom(s, k, day)
  {
    var c := s.calls[k].account.collection;
    s.(usage := s.usage[(c, day) := Spent(s.usage, c, day) + 1],
       calls := s.calls[k := s.calls[k].(phase := p, charged := Some(day))])
  }

  predicate HasRoom(s: State, k: CallId, day: int)
    requires k in s.calls && s.calls[k].account.Collection?
  {
    Spent(s.usage, s.calls[k].account.collection, day) + 1 <= s.calls[k].limits.daily
  }

  /** The answer never came: the update was applied, if it was sent and the budget had room. */
  function Unanswered(s: State, k: CallId, day: int, applied: bool, p: Phase): State
    requires k in s.calls && s.calls[k].account.Collection?
  {
    if applied && HasRoom(s, k, day) then Charged(s, k, day, p) else s.(calls := At(s, k, p))
  }

  function Apply(s: State, e: Event): State
    requires Enabled(s, e)
  {
    match e
    case Begin(k, account) =>
      s.(calls := s.calls[k := Call(account, DEFAULT_LIMITS, if account.System? then Exempt else Fresh, None)])
    case Load(k, row) =>
      s.(calls := s.calls[k := s.calls[k].(phase := Loaded, limits := row.GetOr(DEFAULT_LIMITS))])
    case LoadFails(k) => s.(calls := At(s, k, Denied))
    case Reserve(k) =>
      var c := s.calls[k];
      if c.account.run.None? then s.(calls := At(s, k, Reserved)) else
      var (m, ok) := TryReserve(s.perRun, c.account.run.value, c.limits.perRun);
      s.(perRun := m, calls := At(s, k, if ok then Reserved else Denied))
    case Charge(k, day) =>
      if HasRoom(s, k, day) then Charged(s, k, day, Granted(day)) else s.(calls := At(s, k, Refused))
    case ChargeFails(k, day, applied) => Unanswered(s, k, day, applied, Refused)
    case GiveBack(k) =>
      var c := s.calls[k];
      s.(perRun := if c.account.run.None? then s.perRun else Release(s.perRun, c.account.run.value),
         calls := At(s, k, Denied))
    case Drop(k, day, applied) =>
      Unanswered(s, k, day, applied, if s.calls[k].phase.Fresh? then Denied else Leaked)
  }

  predicate Feasible(s: State, es: seq<Event>)
    decreases |es|
  {
    es == [] || (Enabled(s, es[0]) && Feasible(Apply(s, es[0]), es[1..]))
  }

  function RunAll(s: State, es: seq<Event>): State
    requires Feasible(s, es)
    decreases |es|
  {
    if es == [] then s else RunAll(Apply(s, es[0]), es[1..])
  }

  // ----- the two conservation laws -----

  predicate Of(c: Call, r: RunId) {
    c.account.Collection? && c.account.run == Some(r)
  }

  /** The call counts against its run: granted, in flight, about to be given back, or leaked. */
  predicate Counts(c: Call, r: RunId) {
    Of(c, r) && (c.phase.Reserved? || c.phase.Refused? || c.phase.Granted? || c.phase.Leaked?)
  }

  /** The call cost one unit of that day's budget. */
  predicate Paid(c: Call, d: CollectionId, day: int) {
    c.account.Collection? && c.account.collection == d && c.charged == Some(day)
  }

  function Counting(calls: map<CallId, Call>, r: RunId): set<CallId> {
    set k | k in calls && Counts(calls[k], r)
  }

  function Paying(calls: map<CallId, Call>, d: CollectionId, day: int): set<CallId> {
    set k | k in calls && Paid(calls[k], d, day)
  }

  /** What a call's phase says about what it cost. */
  predicate CostOk(c: Call) {
    match c.phase
    case Granted(day) => c.charged == Some(day) && c.account.Collection?
    case Exempt => c.charged.None? && c.account.System?
    case Refused => c.account.Collection?
    case Denied => c.account.Collection?
    case Leaked => c.account.Collection?
    case _ => c.charged.None? && c.account.Collection?
  }

  predicate CostsOk(calls: map<CallId, Call>) {
    forall k :: k in calls ==> CostOk(calls[k])
  }

  ghost predicate Inv(s: State) {
    && (forall r :: Used(s.perRun, r) == |Counting(s.calls, r)|)
    && (forall d, day :: Spent(s.usage, d, day) == |Paying(s.calls, d, day)|)
    && CostsOk(s.calls)
  }

  lemma CountingAfter(calls: map<CallId, Call>, k: CallId, c: Call, r: RunId)
    ensures |Counting(calls[k := c], r)| ==
              |Counting(calls, r)| + One(Counts(c, r)) - One(k in calls && Counts(calls[k], r))
  {
    SizesDiffer(Counting(calls, r), Counting(calls[k := c], r), k);
  }

  lemma PayingAfter(calls: map<CallId, Call>, k: CallId, c: Call, d: CollectionId, day: int)
    ensures |Paying(calls[k := c], d, day)| ==
              |Paying(calls, d, day)| + One(Paid(c, d, day)) - One(k in calls && Paid(calls[k], d, day))
  {
    SizesDiffer(Paying(calls, d, day), Paying(calls[k := c], d, day), k);
  }

  lemma CountKept(s: State, e: Event, r: RunId)
    requires Enabled(s, e) && Inv(s)
    ensures Used(Apply(s, e).perRun, r) == |Counting(Apply(s, e).calls, r)|
  {
    var s' := Apply(s, e);
    CountingAfter(s.calls, e.k, s'.calls[e.k], r);
    if e.GiveBack? && Of(s.calls[e.k], r) {
      assert e.k in Counting(s.calls, r);
    }
  }

  lemma SpendKept(s: State, e: Event, d: CollectionId, day: int)
    requires Enabled(s, e) && Inv(s)
    ensures Spent(Apply(s, e).usage, d, day) == |Paying(Apply(s, e).calls, d, day)|
  {
    PayingAfter(s.calls, e.k, Apply(s, e).calls[e.k], d, day);
  }

  lemma StepKeepsInv(s: State, e: Event)
    requires Enabled(s, e) && Inv(s)
    ensures Inv(Apply(s, e))
  {
    var s' := Apply(s, e);
    forall r ensures Used(s'.perRun, r) == |Counting(s'.calls, r)| { CountKept(s, e, r); }
    forall d, day ensures Spent(s'.usage, d, day) == |Paying(s'.calls, d, day)| { SpendKept(s, e, d, day); }
  }

  lemma {:induction false} RunKeepsInv(s: State, es: seq<Event>)
    requires Inv(s) && Feasible(s, es)
    ensures Inv(RunAll(s, es))
    decreases |es|
  {
    if es != [] {
      StepKeepsInv(s, es[0]);
      RunKeepsInv(Apply(s, es[0]), es[1..]);
    }
  }

  lemma EmptyInv()
    ensures Inv(EMPTY)
  {
    forall r ensures Counting(EMPTY.calls, r) == {} {}
    forall d, day ensures Paying(EMPTY.calls, d, day) == {} {}
  }

  function GrantedOf(calls: map<CallId, Call>, r: RunId): set<CallId> {
    set k | k in calls && Of(calls[k], r) && calls[k].phase.Granted?
  }

  function PendingOf(calls: map<CallId, Call>, r: RunId): set<CallId> {
    set k | k in calls && Of(calls[k], r) && (calls[k].phase.Reserved? || calls[k].phase.Refused?)
  }

  function LeakedOf(calls: map<CallId, Call>, r: RunId): set<CallId> {
    set k | k in calls && Of(calls[k], r) && calls[k].phase.Leaked?
  }

  function GrantedOn(calls: map<CallId, Call>, d: CollectionId, day: int): set<CallId> {
    set k | k in calls && Paid(calls[k], d, day) && calls[k].phase.Granted?
  }

  /** Charged although the caller never saw the answer. */
  function UnansweredOn(calls: map<CallId, Call>, d: CollectionId, day: int): set<CallId> {
    set k | k in calls && Paid(calls[k], d, day) && !calls[k].phase.Granted?
  }

  /**
   For every interleaving: a run's counter is exactly its granted calls plus its reservations in
   flight plus the reservations leaked by dropped calls — so it is never negative, and at
   quiescence without drops it equals the granted calls. A day's counter is exactly the
   granted calls of that day plus the charges whose answer was lost.
   */
  lemma CountersConserve(es: seq<Event>, r: RunId, d: CollectionId, day: int)
    requires Feasible(EMPTY, es)
    ensures var s := RunAll(EMPTY, es);
            && Used(s.perRun, r) == |GrantedOf(s.calls, r)| + |PendingOf(s.calls, r)| + |LeakedOf(s.calls, r)|
            && Spent(s.usage, d, day) == |GrantedOn(s.calls, d, day)| + |UnansweredOn(s.calls, d, day)|
  {
    EmptyInv();
    RunKeepsInv(EMPTY, es);
    var s := RunAll(EMPTY, es);
    var g, p, l := GrantedOf(s.calls, r), PendingOf(s.calls, r), LeakedOf(s.calls, r);
    assert Counting(s.calls, r) == g + p + l;
    assert g !! p && (g + p) !! l;
    DaySplits(s, d, day);
  }

  lemma DaySplits(s: State, d: CollectionId, day: int)
    requires Inv(s)
    ensures Spent(s.usage, d, day) == |GrantedOn(s.calls, d, day)| + |UnansweredOn(s.calls, d, day)|
  {
    assert Paying(s.calls, d, day) == GrantedOn(s.calls, d, day) + UnansweredOn(s.calls, d, day);
  }

  /** Every limit that calls of run `r` have loaded is at most `m`. */
  predicate RunLimited(calls: map<CallId, Call>, r: RunId, m: int) {
    forall k :: k in calls && Of(calls[k], r) && !calls[k].phase.Fresh? ==> calls[k].limits.perRun <= m
  }

  predicate DayLimited(calls: map<CallId, Call>, d: CollectionId, m: int) {
    forall k :: k in calls && calls[k].account.Collection? && calls[k].account.collection == d ==>
      calls[k].phase.Fresh? || calls[k].limits.daily <= m
  }

  /** What a call has loaded it keeps. */
  lemma {:induction false} CallsKept(s: State, es: seq<Event>, k: CallId)
    requires Feasible(s, es) && k in s.calls && !s.calls[k].phase.Fresh?
    ensures var f := RunAll(s, es);
            k in f.calls && !f.calls[k].phase.Fresh?
            && f.calls[k].limits == s.calls[k].limits && f.calls[k].account == s.calls[k].account
    decreases |es|
  {
    if es != [] { CallsKept(Apply(s, es[0]), es[1..], k); }
  }

  /**
   A run's counter never passes the largest per-run limit any of its calls was given
   (or 0, when all of them are negative).
   */
  lemma {:induction false} RunNeverPassesLimit(s: State, es: seq<Event>, r: RunId, m: nat)
    requires Feasible(s, es) && Used(s.perRun, r) <= m
    requires RunLimited(RunAll(s, es).calls, r, m)
    ensures Used(RunAll(s, es).perRun, r) <= m
    decreases |es|
  {
    if es != [] {
      var s1 := Apply(s, es[0]);
      if es[0].Reserve? { CallsKept(s1, es[1..], es[0].k); }
      RunNeverPassesLimit(s1, es[1..], r, m);
    }
  }

  /** A day's counter never passes the largest daily budget a call was given, answered or not. */
  lemma {:induction false} DayNeverPassesBudget(s: State, es: seq<Event>, d: CollectionId, day: int, m: nat)
    requires Feasible(s, es) && Spent(s.usage, d, day) <= m
    requires DayLimited(RunAll(s, es).calls, d, m)
    ensures Spent(RunAll(s, es).usage, d, day) <= m
    decreases |es|
  {
    if es != [] {
      var s1, k := Apply(s, es[0]), es[0].k;
      if !s1.calls[k].phase.Fresh? { CallsKept(s1, es[1..], k); }
      DayNeverPassesBudget(s1, es[1..], d, day, m);
    }
  }

  /** A slot of the run is granted exactly while fewer calls than its limit count against it. */
  lemma ReserveDecides(s: State, k: CallId, r: RunId)
    requires Inv(s) && Enabled(s, Reserve(k)) && s.calls[k].account.run == Some(r)
    ensures Apply(s, Reserve(k)).calls[k].phase ==
              if |Counting(s.calls, r)| < s.calls[k].limits.perRun then Reserved else Denied
  {
    assert Used(s.perRun, r) == |Counting(s.calls, r)|;
  }

  /** A unit of the day is granted exactly while fewer calls than the budget have cost one. */
  lemma ChargeDecides(s: State, k: CallId, day: int)
    requires Inv(s) && Enabled(s, Charge(k, day))
    ensures Apply(s, Charge(k, day)).calls[k].phase ==
              if |Paying(s.calls, s.calls[k].account.collection, day)| < s.calls[k].limits.daily then Granted(day) else Refused
  {
    assert Spent(s.usage, s.calls[k].account.collection, day) == |Paying(s.calls, s.calls[k].account.collection, day)|;
  }

  /** The load or the charge of call `k` failed. */
  predicate Fails(e: Event, k: CallId) {
    (e.LoadFails? || e.ChargeFails?) && e.k == k
  }

  lemma {:induction false} NeverGrantedAgain(s: State, es: seq<Event>, k: CallId)
    requires Feasible(s, es) && k in s.calls && (s.calls[k].phase.Denied? || s.calls[k].phase.Refused?)
    ensures var f := RunAll(s, es); k in f.calls && (f.calls[k].phase.Denied? || f.calls[k].phase.Refused?)
    decreases |es|
  {
    if es != [] { NeverGrantedAgain(Apply(s, es[0]), es[1..], k); }
  }

  /** The quota fails closed: a call whose limits could not be loaded or whose charge failed is never granted. */
  lemma {:induction false} FailsClosed(s: State, es: seq<Event>, k: CallId, i: nat)
    requires Feasible(s, es) && i < |es| && Fails(es[i], k)
    ensures var f := RunAll(s, es); k in f.calls && (f.calls[k].phase.Denied? || f.calls[k].phase.Refused?)
    decreases |es|
  {
    if i == 0 {
      NeverGrantedAgain(Apply(s, es[0]), es[1..], k);
    } else {
      FailsClosed(Apply(s, es[0]), es[1..], k, i - 1);
    }
  }

  /** A refused or failed charge gives its slot back, and a collection without a budget row gets 500 a day and 50 a run. */
  lemma GiveBackAndDefaults(s: State, k: CallId, r: RunId)
    requires Inv(s) && k in s.calls
    ensures Enabled(s, GiveBack(k)) && s.calls[k].account.run == Some(r) ==>
              Used(Apply(s, GiveBack(k)).perRun, r) == Used(s.perRun, r) - 1
    ensures Enabled(s, Load(k, None)) ==> Apply(s, Load(k, None)).calls[k].limits == Limits(500, 50)
  {
    if Enabled(s, GiveBack(k)) && s.calls[k].account.run == Some(r) { SlotIsHeld(s, k, r); }
  }

  // ----- what a step reads and writes -----

  /** The two accounts draw on the same daily budget or on the same run. */
  predicate Shares(a: Account, b: Account) {
    a.Collection? && b.Collection? && (a.collection == b.collection || (a.run.Some? && a.run == b.run))
  }

  /** The counters of account `a` stand the same in both states. */
  ghost predicate SameCounters(s: State, t: State, a: Account) {
    a.Collection? ==>
      && (forall day :: Spent(s.usage, a.collection, day) == Spent(t.usage, a.collection, day))
      && (a.run.Some? ==> Used(s.perRun, a.run.value) == Used(t.perRun, a.run.value))
  }

  /** A step of one call leaves the counters of every account that shares nothing with it. */
  lemma OtherCountersKept(s: State, e: Event, a: Account)
    requires Enabled(s, e) && !Shares(a, Apply(s, e).calls[e.k].account)
    ensures SameCounters(s, Apply(s, e), a)
  {
  }

  /** The call of `e` has the same record and the same counters in both states. */
  ghost predicate SameCall(s: State, t: State, e: Event) {
    && (e.k in s.calls <==> e.k in t.calls) && (e.k in s.calls ==> s.calls[e.k] == t.calls[e.k])
    && (e.Begin? || e.k in s.calls)
    && SameCounters(s, t, if e.Begin? then e.account else s.calls[e.k].account)
  }

  /** What a call does next depends on its own record and its own counters only. */
  lemma SameStep(s: State, t: State, e: Event)
    requires Enabled(s, e) && SameCall(s, t, e)
    ensures Enabled(t, e) && Apply(s, e).calls[e.k] == Apply(t, e).calls[e.k]
  {
  }

  lemma SameSpent(s: State, t: State, e: Event, d: CollectionId, day: int)
    requires Enabled(s, e) && SameCall(s, t, e) && Enabled(t, e)
    requires Spent(s.usage, d, day) == Spent(t.usage, d, day)
    ensures Spent(Apply(s, e).usage, d, day) == Spent(Apply(t, e).usage, d, day)
  {
  }

  lemma SameUsed(s: State, t: State, e: Event, r: RunId)
    requires Inv(s) && Enabled(s, e) && SameCall(s, t, e) && Enabled(t, e)
    requires Used(s.perRun, r) == Used(t.perRun, r)
    ensures Used(Apply(s, e).perRun, r) == Used(Apply(t, e).perRun, r)
  {
    if e.GiveBack? && Of(s.calls[e.k], r) {
      SlotIsHeld(s, e.k, r);
    }
  }

  /** ... and it moves every counter alike. */
  lemma SameCountersKept(s: State, t: State, e: Event, a: Account)
    requires Inv(s) && Enabled(s, e) && SameCall(s, t, e) && Enabled(t, e) && SameCounters(s, t, a)
    ensures SameCounters(Apply(s, e), Apply(t, e), a)
  {
    if a.Collection? {
      forall day ensures Spent(Apply(s, e).usage, a.collection, day) == Spent(Apply(t, e).usage, a.collection, day) {
        SameSpent(s, t, e, a.collection, day);
      }
      if a.run.Some? { SameUsed(s, t, e, a.run.value); }
    }
  }

  lemma SlotIsHeld(s: State, k: CallId, r: RunId)
    requires Inv(s) && k in s.calls && Counts(s.calls[k], r)
    ensures Used(s.perRun, r) >= 1
  {
    assert k in Counting(s.calls, r);
  }

  lemma StepFrame(s: State, e: Event)
    requires Enabled(s, e)
    ensures e.k in Apply(s, e).calls && Apply(s, e).calls == s.calls[e.k := Apply(s, e).calls[e.k]]
    ensures Apply(s, e).calls[e.k].account == if e.Begin? then e.account else s.calls[e.k].account
  {
  }

  // ----- the same operations on the object -----

  datatype Verdict = Ok | Exceeded | BackendError

  datatype LoadReply = Found(limits: Limits) | NoRow | LoadFailed {
    function Limits(): Limits {
      if Found? then limits else DEFAULT_LIMITS
    }
  }

  /** A lost reply may hide a charge that was applied. */
  datatype ChargeReply = Replied | Lost(applied: bool)

  predicate SlotFree(m: map<RunId, int>, a: Account, l: Limits)
    requires a.Collection?
  {
    a.run.Some? ==> Used(m, a.run.value) < l.perRun
  }

  class StoreAiQuota {
    var perRun: map<RunId, int>
    var usage: map<(CollectionId, int), int>

    constructor ()
      ensures perRun == map[] && usage == map[]
    {
      perRun, usage := map[], map[];
    }

    method TryReserveRun(r: RunId, max: int) returns (ok: bool)
      modifies this`perRun
      ensures (perRun, ok) == TryReserve(old(perRun), r, max)
    {
      if r !in perRun { perRun := perRun[r := 0]; }
      assert perRun == old(perRun)[r := Used(old(perRun), r)];
      if perRun[r] >= max { return false; }
      perRun := perRun[r := perRun[r] + 1];
      assert perRun == old(perRun)[r := Used(old(perRun), r) + 1];
      return true;
    }

    method ReleaseRun(r: RunId)
      modifies this`perRun
      ensures perRun == Release(old(perRun), r)
      ensures r in old(perRun) ==> perRun == old(perRun)[r := Max(old(perRun)[r] - 1, -2_147_483_648)]
    {
      if r in perRun { perRun := perRun[r := Max(perRun[r] - 1, I32_MIN)]; }
    }

    /**
     One call alone. A failed load changes nothing. Otherwise the run's slot is taken first and kept
     exactly by a grant; the day moves exactly when the database applied the charge, even if
     its answer was lost.
     */
    method TryConsume(a: Account, load: LoadReply, charge: ChargeReply, day: int) returns (v: Verdict)
      requires forall r :: r in perRun ==> I32_MIN <= perRun[r]  // the counter's type
      modifies this
      ensures a.System? || load.LoadFailed? ==> perRun == old(perRun) && usage == old(usage)
      ensures v == if a.System? then Ok
                   else if load.LoadFailed? then BackendError
                   else if !SlotFree(old(perRun), a, load.Limits()) then Exceeded
                   else if charge.Lost? then BackendError
                   else if Spent(old(usage), a.collection, day) < load.Limits().daily then Ok else Exceeded
      ensures a.Collection? && load.NoRow? && charge.Replied? ==>
                (v == Ok <==> Spent(old(usage), a.collection, day) < 500
                              && (a.run.Some? ==> Used(old(perRun), a.run.value) < 50))
      ensures forall r: RunId :: Used(perRun, r) == Used(old(perRun), r) + One(v == Ok && a.Collection? && a.run == Some(r))
      ensures forall d: CollectionId, t :: Spent(usage, d, t) == Spent(old(usage), d, t)
                + One(a.Collection? && d == a.collection && t == day && !load.LoadFailed?
                      && SlotFree(old(perRun), a, load.Limits()) && (charge.Lost? ==> charge.applied)
                      && Spent(old(usage), a.collection, day) < load.Limits().daily)
    {
      if a.System? { return Ok; }
      if load.LoadFailed? { return BackendError; }
      var limits := load.Limits();
      if a.run.Some? {
        var ok := TryReserveRun(a.run.value, limits.perRun);
        if !ok { return Exceeded; }
      }
      var spent := Spent(usage, a.collection, day);
      var allowed := spent + 1 <= limits.daily;
      if allowed && (charge.Lost? ==> charge.applied) {
        usage := usage[(a.collection, day) := spent + 1];
      }
      if charge.Replied? && allowed { return Ok; }
      if a.run.Some? { ReleaseRun(a.run.value); }
      return if charge.Lost? then BackendError else Exceeded;
    }
  }
}
