/**
 The front half of a tick (crates/collector/src/runner.rs): planning every connector,
 the fair choice, downstream backpressure, and the state in which the dispatch loop starts.
 */
module TickStart {
  import opened Prelude
  import opened Backoff
  import opened FairDispatch
  import Sorting
  import Tick

  datatype Pressure = Normal | Throttle | Pause

  /** How many tasks may be live at once. */
  function DispatchCap(p: Pressure, globalLimit: nat): nat {
    match p
    case Pause => 0
    case Throttle => 1
    case Normal => Max(globalLimit, 1)
  }

  function OutcomeOf(p: Plan): Tick.Outcome
    requires !p.Run?
  {
    match p
    case SkipImport => Tick.SkippedImport
    case SkipUnknownType => Tick.SkippedUnknownType
    case SkipUnscheduled => Tick.SkippedUnscheduled
    case SkipInvalidSchedule => Tick.SkippedInvalidSchedule
    case NotDue => Tick.NotDue
    case BackingOff(_) => Tick.BackingOff
  }

  datatype Setup = Setup(now: int, cfg: Config, occ: Occurrence, maxRetry: nat,
                         pressure: Pressure, globalLimit: nat, cancelled: bool)

  function PlanOf(c: Connector, u: Setup): Plan {
    PlanTick(c, u.now, u.cfg, u.occ)
  }

  /** The connectors that are due, in input order. */
  function DueOf(cs: seq<Connector>, u: Setup): seq<Connector> {
    if cs == [] then []
    else DueOf(cs[..|cs| - 1], u) + if PlanOf(cs[|cs| - 1], u).Run? then [cs[|cs| - 1]] else []
  }

  /** The results of the connectors that are not due. */
  function SkipsOf(cs: seq<Connector>, u: Setup): seq<Tick.Entry> {
    if cs == [] then []
    else
      var c := cs[|cs| - 1];
      SkipsOf(cs[..|cs| - 1], u)
      + if PlanOf(c, u).Run? then [] else [Tick.Entry(c.id, OutcomeOf(PlanOf(c, u)))]
  }

  function Ids(cs: seq<Connector>): seq<nat> {
    seq(|cs|, i requires 0 <= i < |cs| => cs[i].id)
  }

  function Entries(cs: seq<Connector>, o: Tick.Outcome): seq<Tick.Entry> {
    seq(|cs|, i requires 0 <= i < |cs| => Tick.Entry(cs[i].id, o))
  }

  function Begin(cs: seq<Connector>, u: Setup): Tick.State {
    var (dispatch, deferred) := Chosen(DueOf(cs, u), u.maxRetry);
    var results := SkipsOf(cs, u) + Entries(deferred, Tick.RetryDeferred);
    if u.pressure.Pause?
    then Tick.Init(0, [], results + Entries(dispatch, Tick.BackpressureSkipped), u.cancelled, u.now)
    else Tick.Init(DispatchCap(u.pressure, u.globalLimit), Ids(dispatch), results, u.cancelled, u.now)
  }

  /** The planning loops as written. */
  method PrepareTick(cs: seq<Connector>, u: Setup) returns (s: Tick.State)
    ensures s == Begin(cs, u)
  {
    var results, due := [], [];
    for i := 0 to |cs|
      invariant results == SkipsOf(cs[..i], u) && due == DueOf(cs[..i], u)
    {
      assert cs[..i + 1][..i] == cs[..i];
      var plan := PlanOf(cs[i], u);
      if plan.Run? {
        due := due + [cs[i]];
      } else {
        results := results + [Tick.Entry(cs[i].id, OutcomeOf(plan))];
      }
    }
    assert cs[..|cs|] == cs;
    var dispatch, deferred := TakeFairDispatch(due, u.maxRetry);
    assert (dispatch, deferred) == Chosen(DueOf(cs, u), u.maxRetry);
    results := results + Entries(deferred, Tick.RetryDeferred);
    if u.pressure == Pause {
      results := results + Entries(dispatch, Tick.BackpressureSkipped);
      dispatch := [];
    }
    var cap := DispatchCap(u.pressure, u.globalLimit);
    s := Tick.Init(cap, Ids(dispatch), results, u.cancelled, u.now);
  }

  lemma IdsAppend(cs: seq<Connector>, ds: seq<Connector>)
    ensures Ids(cs + ds) == Ids(cs) + Ids(ds)
  {
  }

  lemma {:induction false} IdsPermute(a: seq<Connector>, b: seq<Connector>)
    requires multiset(a) == multiset(b)
    ensures multiset(Ids(a)) == multiset(Ids(b))
  {
    assert |multiset(a)| == |multiset(b)|;
    if a != [] {
      assert a[0] in multiset(b);
      var i :| 0 <= i < |b| && b[i] == a[0];
      Sorting.RemoveFirst(a);
      Sorting.RemoveAt(b, i);
      IdsPermute(a[1..], b[..i] + b[i + 1..]);
      assert Ids(a) == [a[0].id] + Ids(a[1..]);
      assert Ids(b) == Ids(b[..i]) + [b[i].id] + Ids(b[i + 1..]);
      IdsAppend(b[..i], b[i + 1..]);
    }
  }

  lemma ConnsConcat(a: seq<Tick.Entry>, b: seq<Tick.Entry>)
    ensures Tick.Conns(a + b) == Tick.Conns(a) + Tick.Conns(b)
  {
  }

  lemma EntriesConns(cs: seq<Connector>, o: Tick.Outcome)
    ensures Tick.Conns(Entries(cs, o)) == Ids(cs)
  {
  }

  lemma {:induction false} DueIsPlanned(cs: seq<Connector>, u: Setup, c: Connector)
    requires c in DueOf(cs, u)
    ensures c in cs && PlanOf(c, u).Run?
  {
    if c != cs[|cs| - 1] || !PlanOf(c, u).Run? {
      DueIsPlanned(cs[..|cs| - 1], u, c);
    }
  }

  lemma DueTurn(due: seq<Connector>, skips: seq<nat>, ids: seq<nat>, c: Connector)
    requires multiset(Ids(due)) + multiset(skips) == multiset(ids)
    ensures multiset(Ids(due + [c])) + multiset(skips) == multiset(ids + [c.id])
    ensures multiset(Ids(due)) + multiset(skips + [c.id]) == multiset(ids + [c.id])
  {
    assert Ids(due + [c]) == Ids(due) + [c.id];
  }

  /** One more connector goes to exactly one of the two lists. */
  lemma PlanTurn(cs: seq<Connector>, u: Setup)
    requires cs != []
    ensures var n := |cs| - 1; var due, skips := DueOf(cs[..n], u), Tick.Conns(SkipsOf(cs[..n], u));
            if PlanOf(cs[n], u).Run?
            then DueOf(cs, u) == due + [cs[n]] && Tick.Conns(SkipsOf(cs, u)) == skips
            else DueOf(cs, u) == due && Tick.Conns(SkipsOf(cs, u)) == skips + [cs[n].id]
    ensures Ids(cs) == Ids(cs[..|cs| - 1]) + [cs[|cs| - 1].id]
  {
    var n := |cs| - 1;
    if PlanOf(cs[n], u).Run? {
      assert SkipsOf(cs, u) == SkipsOf(cs[..n], u);
    } else {
      assert DueOf(cs, u) == DueOf(cs[..n], u);
      ConnsConcat(SkipsOf(cs[..n], u), [Tick.Entry(cs[n].id, OutcomeOf(PlanOf(cs[n], u)))]);
    }
  }

  lemma {:induction false} PlanningPartitions(cs: seq<Connector>, u: Setup)
    ensures multiset(Ids(DueOf(cs, u))) + multiset(Tick.Conns(SkipsOf(cs, u))) == multiset(Ids(cs))
  {
    if cs != [] {
      var rest, c := cs[..|cs| - 1], cs[|cs| - 1];
      PlanningPartitions(rest, u);
      PlanTurn(cs, u);
      DueTurn(DueOf(rest, u), Tick.Conns(SkipsOf(rest, u)), Ids(rest), c);
    }
  }

  lemma {:induction false} SkipIsReported(cs: seq<Connector>, u: Setup, c: Connector)
    requires c in cs && !PlanOf(c, u).Run?
    ensures Tick.Entry(c.id, OutcomeOf(PlanOf(c, u))) in SkipsOf(cs, u)
  {
    if c != cs[|cs| - 1] { SkipIsReported(cs[..|cs| - 1], u, c); }
  }

  /**
   What every connector of the input is told, case by case: an import type, an unknown type, no
   schedule, a bad schedule, not due, or still inside the wait after its last run.
   */
  lemma EveryConnectorIsTold(cs: seq<Connector>, u: Setup, c: Connector)
    requires c in cs
    ensures var rs := Begin(cs, u).results;
            && (c.kind.ImportOnly? ==> Tick.Entry(c.id, Tick.SkippedImport) in rs)
            && (c.kind.Unknown? ==> Tick.Entry(c.id, Tick.SkippedUnknownType) in rs)
            && (c.kind.Known? && c.schedule.Unscheduled? ==> Tick.Entry(c.id, Tick.SkippedUnscheduled) in rs)
            && (c.kind.Known? && c.schedule.Unparsable? ==> Tick.Entry(c.id, Tick.SkippedInvalidSchedule) in rs)
            && (c.kind.Known? && c.schedule.Cron? && c.lastRun.Some? ==>
                  var next := u.occ(c.schedule.expr, c.lastRun.value);
                  var wait := Delay(c, c.errorCount, u.cfg);
                  && (u.now <= c.lastRun.value || next.None? || u.now < next.value ==>
                        Tick.Entry(c.id, Tick.NotDue) in rs)
                  && (u.now > c.lastRun.value && next.Some? && next.value <= u.now
                      && c.errorCount > 0 && u.now < c.lastRun.value + wait ==>
                        Tick.Entry(c.id, Tick.BackingOff) in rs))
  {
    if !PlanOf(c, u).Run? {
      SkipIsReported(cs, u, c);
      assert Tick.Entry(c.id, OutcomeOf(PlanOf(c, u))) in SkipsOf(cs, u);
      assert SkipsOf(cs, u) <= Begin(cs, u).results;
    }
  }

  /** A connector that is due and not waiting is queued, put off for the retry cap, or dropped by a pause. */
  lemma EveryDueConnectorIsPlaced(cs: seq<Connector>, u: Setup, c: Connector)
    requires c in cs && c.kind.Known? && c.schedule.Cron?
    requires c.lastRun.None?
             || (c.lastRun.value < u.now
                 && u.occ(c.schedule.expr, c.lastRun.value).Some? && u.occ(c.schedule.expr, c.lastRun.value).value <= u.now
                 && (c.errorCount > 0 ==> u.now >= c.lastRun.value + Delay(c, c.errorCount, u.cfg)))
    ensures || c.id in Begin(cs, u).queue
            || (c.errorCount > 0 && Tick.Entry(c.id, Tick.RetryDeferred) in Begin(cs, u).results)
            || (u.pressure.Pause? && Tick.Entry(c.id, Tick.BackpressureSkipped) in Begin(cs, u).results)
  {
    assert PlanOf(c, u).Run?;
    RunIsDue(cs, u, c);
    var (dispatch, deferred) := Chosen(DueOf(cs, u), u.maxRetry);
    DispatchIsFair(DueOf(cs, u), u.maxRetry);
    assert c in multiset(dispatch) + multiset(deferred);
    if c in deferred {
      EntryOf(deferred, Tick.RetryDeferred, c);
    } else {
      EntryOf(dispatch, Tick.BackpressureSkipped, c);
      IdOf(dispatch, c);
    }
  }

  lemma {:induction false} RunIsDue(cs: seq<Connector>, u: Setup, c: Connector)
    requires c in cs && PlanOf(c, u).Run?
    ensures c in DueOf(cs, u) && c in multiset(DueOf(cs, u))
  {
    if c != cs[|cs| - 1] { RunIsDue(cs[..|cs| - 1], u, c); }
  }

  lemma EntryOf(cs: seq<Connector>, o: Tick.Outcome, c: Connector)
    requires c in cs
    ensures Tick.Entry(c.id, o) in Entries(cs, o)
  {
    var i :| 0 <= i < |cs| && cs[i] == c;
    assert Entries(cs, o)[i] == Tick.Entry(c.id, o);
  }

  lemma IdOf(cs: seq<Connector>, c: Connector)
    requires c in cs
    ensures c.id in Ids(cs)
  {
    var i :| 0 <= i < |cs| && cs[i] == c;
    assert Ids(cs)[i] == c.id;
  }

  /** The number of tasks that may be live at once: none in a pause, one when throttled, else the global limit. */
  lemma CapInFigures(cs: seq<Connector>, u: Setup)
    ensures Begin(cs, u).cap == match u.pressure
              case Pause => 0
              case Throttle => 1
              case Normal => if u.globalLimit >= 1 then u.globalLimit else 1
  {
  }

  lemma ChoicePartitions(due: seq<Connector>, maxRetry: nat)
    ensures var (dispatch, deferred) := Chosen(due, maxRetry);
            multiset(Ids(dispatch)) + multiset(Ids(deferred)) == multiset(Ids(due))
  {
    var (dispatch, deferred) := Chosen(due, maxRetry);
    DispatchIsFair(due, maxRetry);
    IdsPermute(dispatch + deferred, due);
    IdsAppend(dispatch, deferred);
  }

  ghost predicate DistinctIds(cs: seq<Connector>) {
    forall i, j :: 0 <= i < j < |cs| ==> cs[i].id != cs[j].id
  }

  function IdSet(cs: seq<Connector>): set<nat> {
    set c | c in cs :: c.id
  }

  lemma {:induction false} DistinctIdsForm(cs: seq<Connector>)
    requires DistinctIds(cs)
    ensures multiset(Ids(cs)) == multiset(IdSet(cs))
  {
    if cs != [] {
      var rest, c := cs[..|cs| - 1], cs[|cs| - 1];
      DistinctIdsForm(rest);
      assert Ids(cs) == Ids(rest) + [c.id];
      assert cs == rest + [c];
      assert IdSet(cs) == IdSet(rest) + {c.id} && c.id !in IdSet(rest);
    }
  }

  lemma BeginPlaces(cs: seq<Connector>, u: Setup)
    ensures var s := Begin(cs, u);
            multiset(s.queue) + multiset(Tick.Conns(s.results)) == multiset(Ids(cs))
  {
    var due := DueOf(cs, u);
    var (dispatch, deferred) := Chosen(due, u.maxRetry);
    PlanningPartitions(cs, u);
    ChoicePartitions(due, u.maxRetry);
    var skips, puts := SkipsOf(cs, u), Entries(deferred, Tick.RetryDeferred);
    var drops := Entries(dispatch, Tick.BackpressureSkipped);
    EntriesConns(deferred, Tick.RetryDeferred);
    EntriesConns(dispatch, Tick.BackpressureSkipped);
    ConnsConcat(skips, puts);
    ConnsConcat(skips + puts, drops);
  }

  /**
   From the input list to the end of the tick: with distinct identifiers the prepared state is a
   proper start, so every run of the loop accounts for each input connector exactly once, and
   a paused tick creates no job.
   */
  lemma TickAccountsForInput(cs: seq<Connector>, u: Setup, es: seq<Tick.Event>)
    requires DistinctIds(cs) && Tick.Feasible(Begin(cs, u), es)
    ensures var f := Tick.RunAll(Begin(cs, u), es);
            && Tick.Fresh(Begin(cs, u)) && Tick.Distinct(Begin(cs, u).queue)
            && Tick.Ledger(f) == multiset(IdSet(cs))
            && (u.pressure.Pause? ==> f.jobs == map[])
            && |f.tasks| <= DispatchCap(u.pressure, u.globalLimit)
  {
    var s := Begin(cs, u);
    DistinctIdsForm(cs);
    BeginPlaces(cs, u);
    forall c ensures multiset(s.queue)[c] <= 1 { assert multiset(IdSet(cs))[c] <= 1; }
    OnceIsDistinct(s.queue);
    Tick.EveryConnectorAccountedOnce(s, es);
    CapFixed(s, es);
    if u.pressure.Pause? {
      Tick.PauseCreatesNoJob(s, es);
    }
  }

  lemma OnceIsDistinct(q: seq<nat>)
    requires forall c :: multiset(q)[c] <= 1
    ensures Tick.Distinct(q)
  {
    forall i, j | 0 <= i < j < |q| ensures q[i] != q[j] {
      assert q == q[..i] + [q[i]] + q[i + 1..j] + [q[j]] + q[j + 1..];
      assert q[i] == q[j] ==> multiset(q)[q[i]] >= 2;
    }
  }

  lemma {:induction false} CapFixed(s: Tick.State, es: seq<Tick.Event>)
    requires Tick.Feasible(s, es)
    ensures Tick.RunAll(s, es).cap == s.cap
    decreases |es|
  {
    if es != [] { CapFixed(Tick.Apply(s, es[0]), es[1..]); }
  }

  /** Everything dispatched was planned to run now, so its type is known and no backoff is pending. */
  lemma DispatchedAreDue(cs: seq<Connector>, u: Setup, id: nat)
    requires id in Begin(cs, u).queue
    ensures exists c :: c in cs && c.id == id && PlanOf(c, u).Run? && c.kind.Known?
                        && !IsBackingOff(c, u.now, u.cfg)
  {
    var due := DueOf(cs, u);
    var dispatch := Chosen(due, u.maxRetry).0;
    assert Begin(cs, u).queue == if u.pressure.Pause? then [] else Ids(dispatch);
    var i :| 0 <= i < |Ids(dispatch)| && Ids(dispatch)[i] == id;
    var c := dispatch[i];
    ChosenAreDue(due, u.maxRetry, c);
    DueIsPlanned(cs, u, c);
  }

  lemma ChosenAreDue(due: seq<Connector>, maxRetry: nat, c: Connector)
    requires c in Chosen(due, maxRetry).0
    ensures c in due
  {
    DispatchIsFair(due, maxRetry);
    assert c in multiset(Chosen(due, maxRetry).0) + multiset(Chosen(due, maxRetry).1);
  }
}
