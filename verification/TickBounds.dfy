/**
 The tick and the permits together: every spawned task of a tick (crates/collector/src/runner.rs)
 takes its permits from the shared bounds (crates/collector/src/bounds.rs) before it collects and
 drops them when it returns, panics or is aborted. Others, such as a manual trigger, use the
 same bounds at the same time.
 */
module TickBounds {
  import opened Prelude
  import Tick
  import Bounds

  type JobId = nat

  /** `others` are the users of the bounds that are no tasks of this tick. */
  datatype State = State(tick: Tick.State, bounds: Bounds.State, others: set<JobId>)

  /** A step of the tick (`domain` matters where it spawns a task), of one of its tasks at the bounds,
      of another user at the bounds, or the arrival of one. */
  datatype Event = OfTick(e: Tick.Event, domain: Bounds.Domain)
                 | OfBounds(b: Bounds.Event)
                 | OfOthers(b: Bounds.Event)
                 | Arrives(t: JobId, domain: Bounds.Domain)

  function PhaseOf(s: State, j: JobId): Bounds.Phase {
    if j in s.bounds.tasks then s.bounds.tasks[j].phase else Bounds.Done
  }

  /** What a task may do, given its permits: it collects under both of them (only an unreadable source
      fails before it asks), and it is over only when it holds nothing. */
  predicate Gate(s: State, e: Tick.Event) {
    match e
    case Task(j, Write(ok, _, _)) => PhaseOf(s, j).Running? || (!ok && PhaseOf(s, j).Waiting?)
    case Task(j, Return) => PhaseOf(s, j).Done?
    case Join(j) => PhaseOf(s, j).Done?
    case _ => Tick.Created(e) !! s.others
  }

  /** A working task takes permits; one that has written, panicked or was aborted gives them back. */
  predicate TaskMay(t: Tick.Task, b: Bounds.Event) {
    t.Working? <==> b.TakeGlobal? || b.FindSemaphore? || b.TakeDomain?
  }

  predicate Enabled(s: State, e: Event) {
    match e
    case OfTick(t, _) => Tick.Enabled(s.tick, t) && Gate(s, t)
    case OfBounds(b) => b.t in s.tick.tasks && TaskMay(s.tick.tasks[b.t], b) && Bounds.Enabled(s.bounds, b)
    case OfOthers(b) => b.t in s.others && Bounds.Enabled(s.bounds, b)
    case Arrives(t, _) => t !in s.bounds.tasks && t !in s.tick.jobs
  }

  function Joined(b: Bounds.State, j: JobId, d: Bounds.Domain): Bounds.State {
    b.(tasks := b.tasks[j := Bounds.Task(d, Bounds.Waiting)])
  }

  function Apply(s: State, e: Event): State
    requires Enabled(s, e)
  {
    match e
    case OfTick(t, d) =>
      s.(tick := Tick.Apply(s.tick, t), bounds := if t.Spawn? then Joined(s.bounds, s.tick.pc.job, d) else s.bounds)
    case OfBounds(b) => s.(bounds := Bounds.Apply(s.bounds, b))
    case OfOthers(b) => s.(bounds := Bounds.Apply(s.bounds, b))
    case Arrives(t, d) => s.(bounds := Joined(s.bounds, t, d), others := s.others + {t})
  }

  predicate Feasible(s: State, es: seq<Event>)
    decreases |es|
  {
    es == [] || (Enabled(s, es[0]) && Feasible(Apply(s, es[0]), es[1..]))
  }

  function RunAll(s: State, es: seq<Event>): State
    requires Feasible(s, es)
    decreases |es|
  {
    if es == [] then s else RunAll(Apply(s, es[0]), es[1..])
  }

  /** A tick about to enter its loop, whatever others are doing at the bounds. */
  ghost predicate Start(s: State) {
    Tick.Fresh(s.tick) && Bounds.Inv(s.bounds) && s.bounds.tasks.Keys == s.others
  }

  // ----- the tick inside is a tick -----

  function Steps(es: seq<Event>): seq<Tick.Event> {
    if es == [] then [] else (if es[0].OfTick? then [es[0].e] else []) + Steps(es[1..])
  }

  /** Forgetting the permits leaves a run of the tick alone, so what every tick guarantees holds here. */
  lemma {:induction false} TickInside(s: State, es: seq<Event>)
    requires Feasible(s, es)
    ensures Tick.Feasible(s.tick, Steps(es)) && Tick.RunAll(s.tick, Steps(es)) == RunAll(s, es).tick
    decreases |es|
  {
    if es != [] {
      TickInside(Apply(s, es[0]), es[1..]);
      if es[0].OfTick? {
        assert Steps(es)[1..] == Steps(es[1..]);
      } else {
        assert Steps(es) == Steps(es[1..]);
      }
    }
  }

  // ----- what every step keeps -----

  /** Who uses the bounds: jobs of this tick whose task is not gone, and the others. */
  predicate Linked(s: State) {
    && s.others <= s.bounds.tasks.Keys && s.bounds.tasks.Keys <= s.tick.jobs.Keys + s.others
    && s.others !! s.tick.jobs.Keys && s.tick.tasks.Keys <= s.bounds.tasks.Keys
    && (s.tick.pc.Starting? ==> s.tick.pc.job !in s.bounds.tasks)
    && (forall j :: j in s.bounds.tasks && j !in s.others && !s.bounds.tasks[j].phase.Done? ==> j in s.tick.tasks)
    && (forall j :: j in s.tick.tasks && s.tick.tasks[j].Working? ==>
          !s.bounds.tasks[j].phase.Done? && !s.bounds.tasks[j].phase.DropsDomain?)
    && (forall j :: j in s.tick.tasks && Tick.Unlists(s.tick.tasks[j]) ==> s.bounds.tasks[j].phase.Done?)
    && (s.tick.pc.Finishing? || s.tick.pc.Finished? ==> s.tick.tasks == map[])
  }

  ghost predicate Inv(s: State) {
    Linked(s) && Tick.JobsKnown(s.tick) && Bounds.Inv(s.bounds)
  }

  lemma NewcomerHoldsNothing(b: Bounds.State, j: JobId, d: Bounds.Domain)
    requires Bounds.Inv(b) && j !in b.tasks
    ensures Bounds.Inv(Joined(b, j, d))
  {
    var b' := Joined(b, j, d);
    assert Bounds.GlobalHolders(b'.tasks) == Bounds.GlobalHolders(b.tasks);
    forall e | e in b'.domainFree ensures b'.domainFree[e] + |Bounds.DomainHolders(b'.tasks, e)| == b'.domainLimit {
      assert Bounds.DomainHolders(b'.tasks, e) == Bounds.DomainHolders(b.tasks, e);
    }
  }

  lemma BoundsFrame(b: Bounds.State, e: Bounds.Event)
    requires Bounds.Enabled(b, e)
    ensures var b' := Bounds.Apply(b, e);
            b'.tasks == b.tasks[e.t := b'.tasks[e.t]] && b'.globalLimit == b.globalLimit && b'.domainLimit == b.domainLimit
  {
  }

  lemma LinkedKeptByTask(s: State, j: JobId, m: Tick.TaskMove, d: Bounds.Domain)
    requires Linked(s) && Enabled(s, OfTick(Tick.Task(j, m), d))
    ensures Linked(Apply(s, OfTick(Tick.Task(j, m), d)))
  {
  }

  lemma LinkedKeptBySpawn(s: State, w: Tick.Stamp, d: Bounds.Domain)
    requires Linked(s) && Tick.JobsKnown(s.tick) && Enabled(s, OfTick(Tick.Spawn(w), d))
    ensures Linked(Apply(s, OfTick(Tick.Spawn(w), d)))
  {
  }

  lemma LinkedKeptByJoin(s: State, j: JobId, d: Bounds.Domain)
    requires Linked(s) && Enabled(s, OfTick(Tick.Join(j), d))
    ensures Linked(Apply(s, OfTick(Tick.Join(j), d)))
  {
  }

  lemma LinkedKeptBySteer(s: State, steer: Tick.Steer, d: Bounds.Domain)
    requires Linked(s) && Enabled(s, OfTick(Tick.Steering(steer), d))
    ensures Linked(Apply(s, OfTick(Tick.Steering(steer), d)))
  {
    var t := Tick.Steered(s.tick, steer);
    assert t.tasks == s.tick.tasks && t.jobs == s.tick.jobs && !t.pc.Starting?;
  }

  lemma LinkedKeptByLoop(s: State, e: Tick.Event, d: Bounds.Domain)
    requires Linked(s) && Tick.JobsKnown(s.tick) && Enabled(s, OfTick(e, d))
    requires e.Cancel? || e.CancelJob?
    ensures Linked(Apply(s, OfTick(e, d)))
  {
    Tick.JobsGrow(s.tick, e);
    var t := Tick.Apply(s.tick, e);
    assert t.tasks == s.tick.tasks && t.jobs.Keys == s.tick.jobs.Keys;
  }

  lemma LinkedKeptByQueue(s: State, e: Tick.Event, d: Bounds.Domain)
    requires Linked(s) && Tick.JobsKnown(s.tick) && Enabled(s, OfTick(e, d)) && Tick.QueueEnabled(s.tick, e)
    ensures Linked(Apply(s, OfTick(e, d)))
  {
    Tick.QueueGrowsJobs(s.tick, e);
    var t := Tick.Queued(s.tick, e);
    assert t.tasks == s.tick.tasks && !t.pc.Finishing? && !t.pc.Finished?;
    assert t.pc.Starting? ==> t.pc.job !in s.tick.jobs && t.pc.job !in s.others;
  }

  lemma LinkedKeptByTick(s: State, e: Tick.Event, d: Bounds.Domain)
    requires Linked(s) && Tick.JobsKnown(s.tick) && Enabled(s, OfTick(e, d))
    ensures Linked(Apply(s, OfTick(e, d)))
  {
    match e
    case Task(j, m) => LinkedKeptByTask(s, j, m, d);
    case Spawn(w) => LinkedKeptBySpawn(s, w, d);
    case Join(j) => LinkedKeptByJoin(s, j, d);
    case Steering(steer) => LinkedKeptBySteer(s, steer, d);
    case Cancel => LinkedKeptByLoop(s, e, d);
    case CancelJob(_, _) => LinkedKeptByLoop(s, e, d);
    case _ => LinkedKeptByQueue(s, e, d);
  }

  lemma LinkedKeptByBounds(s: State, b: Bounds.Event)
    requires Linked(s) && Enabled(s, OfBounds(b))
    ensures Linked(Apply(s, OfBounds(b)))
  {
    BoundsFrame(s.bounds, b);
  }

  lemma LinkedKeptByOthers(s: State, e: Event)
    requires Linked(s) && Tick.JobsKnown(s.tick) && Enabled(s, e) && (e.OfOthers? || e.Arrives?)
    ensures Linked(Apply(s, e))
  {
    if e.OfOthers? { BoundsFrame(s.bounds, e.b); }
  }

  lemma StepKeepsInv(s: State, e: Event)
    requires Inv(s) && Enabled(s, e)
    ensures Inv(Apply(s, e))
  {
    match e
    case OfBounds(b) =>
      LinkedKeptByBounds(s, b);
      Bounds.StepKeepsInv(s.bounds, b);
    case OfOthers(b) =>
      LinkedKeptByOthers(s, e);
      Bounds.StepKeepsInv(s.bounds, b);
    case Arrives(t, d) =>
      LinkedKeptByOthers(s, e);
      NewcomerHoldsNothing(s.bounds, t, d);
    case OfTick(t, d) =>
      Tick.JobsKnownKept(s.tick, t);
      LinkedKeptByTick(s, t, d);
      if t.Spawn? { NewcomerHoldsNothing(s.bounds, s.tick.pc.job, d); }
  }

  lemma {:induction false} RunKeepsInv(s: State, es: seq<Event>)
    requires Inv(s) && Feasible(s, es)
    ensures Inv(RunAll(s, es))
    ensures RunAll(s, es).bounds.globalLimit == s.bounds.globalLimit && RunAll(s, es).bounds.domainLimit == s.bounds.domainLimit
    decreases |es|
  {
    if es != [] {
      StepKeepsInv(s, es[0]);
      if es[0].OfBounds? || es[0].OfOthers? { BoundsFrame(s.bounds, es[0].b); }
      RunKeepsInv(Apply(s, es[0]), es[1..]);
    }
  }

  // ----- nobody collects without permits -----

  /** What a task's phase at the bounds, and a success it has written, say about the permits it took. */
  predicate TookOk(s: State, j: JobId, global: bool, domain: bool, wrote: bool) {
    && (PhaseOf(s, j).HasGlobal? || PhaseOf(s, j).HasSemaphore? || PhaseOf(s, j).Running? ==> global)
    && (PhaseOf(s, j).Running? ==> domain)
    && (wrote ==> global && domain)
  }

  predicate Collects(e: Event, j: JobId) {
    e.OfTick? && e.e.Task? && e.e.job == j && e.e.move.Write? && e.e.move.ok
  }

  lemma TookStep(s: State, e: Event, j: JobId, global: bool, domain: bool, wrote: bool)
    requires Inv(s) && Enabled(s, e) && TookOk(s, j, global, domain, wrote)
    requires j !in s.others && j !in Apply(s, e).others
    ensures TookOk(Apply(s, e), j, global || e == OfBounds(Bounds.TakeGlobal(j)),
                   domain || e == OfBounds(Bounds.TakeDomain(j)), wrote || Collects(e, j))
  {
    match e
    case OfBounds(b) => BoundsFrame(s.bounds, b);
    case OfOthers(b) => BoundsFrame(s.bounds, b);
    case _ =>
  }

  lemma {:induction false} TookRun(s: State, es: seq<Event>, j: JobId, global: bool, domain: bool, wrote: bool)
    requires Inv(s) && Feasible(s, es) && TookOk(s, j, global, domain, wrote) && j !in RunAll(s, es).others
    ensures (wrote || exists i :: 0 <= i < |es| && Collects(es[i], j)) ==>
              (global || OfBounds(Bounds.TakeGlobal(j)) in es) && (domain || OfBounds(Bounds.TakeDomain(j)) in es)
    decreases |es|
  {
    if es != [] {
      var e, s1 := es[0], Apply(s, es[0]);
      StepKeepsInv(s, e);
      OthersStay(s1, es[1..], j);
      assert j !in s.others;
      TookStep(s, e, j, global, domain, wrote);
      TookRun(s1, es[1..], j, global || e == OfBounds(Bounds.TakeGlobal(j)),
              domain || e == OfBounds(Bounds.TakeDomain(j)), wrote || Collects(e, j));
      if i :| 0 <= i < |es| && Collects(es[i], j) {
        assert i > 0 ==> Collects(es[1..][i - 1], j);
      }
    }
  }

  lemma {:induction false} OthersStay(s: State, es: seq<Event>, j: JobId)
    requires Feasible(s, es) && j !in RunAll(s, es).others
    ensures j !in s.others
    decreases |es|
  {
    if es != [] { OthersStay(Apply(s, es[0]), es[1..], j); }
  }

  /** Nothing is collected without permits: a task that reports a success took the global and its domain's permit. */
  lemma SuccessNeedsPermits(s: State, es: seq<Event>, i: nat, j: JobId)
    requires Start(s) && Feasible(s, es) && j !in RunAll(s, es).others
    requires i < |es| && Collects(es[i], j)
    ensures OfBounds(Bounds.TakeGlobal(j)) in es && OfBounds(Bounds.TakeDomain(j)) in es
  {
    StartInv(s);
    OthersStay(s, es, j);
    TookRun(s, es, j, false, false, false);
  }

  /** A task that returned holds nothing any more, even before it is joined. */
  lemma ReturnedHoldsNothing(s: State, es: seq<Event>, j: JobId)
    requires Start(s) && Feasible(s, es) && j in RunAll(s, es).tick.tasks && Tick.Unlists(RunAll(s, es).tick.tasks[j])
    ensures var f := RunAll(s, es);
            && j !in Bounds.GlobalHolders(f.bounds.tasks)
            && forall d :: j !in Bounds.DomainHolders(f.bounds.tasks, d)
  {
    StartInv(s);
    RunKeepsInv(s, es);
  }

  // ----- no deadlock -----

  /** Nobody has to arrive, panic, give up, be aborted or be cancelled for this step, and no deadline has to pass. */
  predicate Ordinary(e: Event) {
    match e
    case OfTick(t, _) =>
      && !t.Cancel? && !t.CreateFails? && t != Tick.Steering(Tick.Deadline)
      && (t.Task? ==> t.move.Write? || t.move.Return?)
    case OfBounds(_) => true
    case OfOthers(b) => !b.Abort?
    case Arrives(_, _) => false
  }

  /** A task that is over, or has written, can give back what it holds. */
  lemma CanUnwind(s: State, j: JobId) returns (e: Event)
    requires Inv(s) && j in s.tick.tasks && !s.tick.tasks[j].Working? && !s.bounds.tasks[j].phase.Done?
    ensures Enabled(s, e) && Ordinary(e)
  {
    var p := s.bounds.tasks[j].phase;
    e := OfBounds(if p.Running? then Bounds.ReleaseGlobal(j)
                  else if p.DropsDomain? then Bounds.ReleaseDomain(j) else Bounds.Abort(j));
  }

  /** When all tasks of the tick are still working, one of them can go on, or another user can. */
  lemma CanCollect(s: State) returns (e: Event)
    requires Inv(s) && s.tick.tasks != map[] && forall j :: j in s.tick.tasks ==> s.tick.tasks[j].Working?
    ensures Enabled(s, e) && Ordinary(e)
  {
    var j :| j in s.tick.tasks;
    assert !Bounds.AllDone(s.bounds);
    var b := Bounds.NoDeadlock(s.bounds);
    if b.t in s.others {
      e := OfOthers(b);
    } else if b.ReleaseGlobal? {
      e := OfTick(Tick.Task(b.t, Tick.Write(true, "", Tick.Stamp(true, s.tick.clock))), "");
    } else {
      e := OfBounds(b);
    }
  }

  lemma CanLoop(s: State) returns (e: Event)
    requires !s.tick.pc.Finished? && (s.tick.pc.Waiting? || s.tick.pc.Aborting? ==> s.tick.tasks == map[])
    ensures Enabled(s, e) && Ordinary(e)
  {
    if s.tick.pc.Waiting? || s.tick.pc.Aborting? {
      e := OfTick(Tick.Steering(Tick.SetEmpty), "");
    } else if s.tick.pc.Creating? {
      var j := FreshNat(s.tick.jobs.Keys + s.others);
      e := OfTick(Tick.Create(j, s.tick.clock), "");
    } else {
      var t := Tick.LoopStep(s.tick);
      e := OfTick(t, "");
    }
  }

  /**
   No deadlock, although tasks wait for permits inside the tick, hold the global one while they wait
   for a domain's, and may panic or be aborted anywhere: a tick that is not over can always
   take an ordinary step.
   */
  lemma NeverStuck(s: State) returns (e: Event)
    requires Inv(s) && !s.tick.pc.Finished?
    ensures Enabled(s, e) && Ordinary(e)
  {
    if (s.tick.pc.Waiting? || s.tick.pc.Aborting?) && s.tick.tasks != map[] {
      if j :| j in s.tick.tasks && !s.tick.tasks[j].Working? {
        if !s.bounds.tasks[j].phase.Done? {
          e := CanUnwind(s, j);
        } else if s.tick.tasks[j].Written? {
          e := OfTick(Tick.Task(j, Tick.Return), "");
        } else {
          e := OfTick(Tick.Join(j), "");
        }
      } else {
        e := CanCollect(s);
      }
    } else {
      e := CanLoop(s);
    }
  }

  // ----- every run ends, with all permits back -----

  function Rank(s: State): nat {
    6 * Tick.Rank(s.tick) + Bounds.Rank(s.bounds)
  }

  lemma NewcomerRank(b: Bounds.State, j: JobId, d: Bounds.Domain)
    requires j !in b.tasks
    ensures Bounds.Rank(Joined(b, j, d)) == Bounds.Rank(b) + 5
  {
    var b' := Joined(b, j, d);
    assert Bounds.AtLeast(b'.tasks, 1) == Bounds.AtLeast(b.tasks, 1) + {j};
    assert Bounds.AtLeast(b'.tasks, 2) == Bounds.AtLeast(b.tasks, 2) + {j};
    assert Bounds.AtLeast(b'.tasks, 3) == Bounds.AtLeast(b.tasks, 3) + {j};
    assert Bounds.AtLeast(b'.tasks, 4) == Bounds.AtLeast(b.tasks, 4) + {j};
    assert Bounds.AtLeast(b'.tasks, 5) == Bounds.AtLeast(b.tasks, 5) + {j};
  }

  function Arrivals(es: seq<Event>): nat {
    if es == [] then 0 else (if es[0].Arrives? then 1 else 0) + Arrivals(es[1..])
  }

  lemma StepLowersRank(s: State, e: Event)
    requires Inv(s) && Enabled(s, e)
    ensures 1 + Rank(Apply(s, e)) <= Rank(s) + Arrivals([e]) * 6
  {
    assert Arrivals([e]) == if e.Arrives? then 1 else 0;
    match e
    case OfBounds(b) => Bounds.StepLowersRank(s.bounds, b);
    case OfOthers(b) => Bounds.StepLowersRank(s.bounds, b);
    case Arrives(t, d) => NewcomerRank(s.bounds, t, d);
    case OfTick(t, d) =>
      Tick.StepLowersRank(s.tick, t);
      if t.Spawn? { NewcomerRank(s.bounds, s.tick.pc.job, d); }
  }

  lemma {:induction false} RunsAreFinite(s: State, es: seq<Event>)
    requires Inv(s) && Feasible(s, es)
    ensures |es| + Rank(RunAll(s, es)) <= Rank(s) + 6 * Arrivals(es)
    decreases |es|
  {
    if es != [] {
      StepKeepsInv(s, es[0]);
      StepLowersRank(s, es[0]);
      assert Arrivals([es[0]]) == if es[0].Arrives? then 1 else 0;
      RunsAreFinite(Apply(s, es[0]), es[1..]);
    }
  }

  /** All permits are free. */
  ghost predicate AllFree(b: Bounds.State) {
    b.globalFree == b.globalLimit && forall d :: d in b.domainFree ==> b.domainFree[d] == b.domainLimit
  }

  lemma NobodyHolds(b: Bounds.State)
    requires Bounds.Inv(b) && Bounds.AllDone(b)
    ensures AllFree(b)
  {
    assert Bounds.GlobalHolders(b.tasks) == {};
    forall d | d in b.domainFree ensures b.domainFree[d] == b.domainLimit {
      assert Bounds.DomainHolders(b.tasks, d) == {};
    }
  }

  /** Every permit that is taken belongs to another user. */
  ghost predicate OnlyOthersHold(s: State) {
    && Bounds.GlobalHolders(s.bounds.tasks) <= s.others
    && forall d :: Bounds.DomainHolders(s.bounds.tasks, d) <= s.others
  }

  /** Whoever could still take a step would have to arrive, give up, panic, be aborted or be cancelled. */
  ghost predicate AtRest(s: State) {
    forall e :: Enabled(s, e) ==> !Ordinary(e)
  }

  /**
   The whole tick with its permits, over every interleaving of dispatch, collection, panics,
   cancellation, deadline, aborts and other users of the bounds: collecting tasks never exceed
   the global limit or a domain's limit, a run is finite unless others keep arriving, a run
   at rest has finished its tick, and a finished tick has given every permit back.
   */
  lemma TickReturnsItsPermits(s: State, es: seq<Event>)
    requires Start(s) && Feasible(s, es)
    ensures |es| <= Rank(s) + 6 * Arrivals(es)
    ensures var f := RunAll(s, es);
            && |Bounds.Collecting(f.bounds.tasks)| <= s.bounds.globalLimit
            && (forall d :: |Bounds.CollectingIn(f.bounds.tasks, d)| <= s.bounds.domainLimit)
            && (AtRest(f) ==> f.tick.pc.Finished?)
            && (f.tick.pc.Finished? ==> OnlyOthersHold(f) && (f.others == {} ==> AllFree(f.bounds)))
  {
    StartInv(s);
    RunKeepsInv(s, es);
    RunsAreFinite(s, es);
    var f := RunAll(s, es);
    Bounds.InvLimits(f.bounds);
    if f.tick.pc.Finished? {
      FinishedReturns(f);
    } else {
      var e := NeverStuck(f);
    }
  }

  lemma StartInv(s: State)
    requires Start(s)
    ensures Inv(s)
  {
  }

  lemma FinishedReturns(s: State)
    requires Inv(s) && s.tick.pc.Finished?
    ensures OnlyOthersHold(s) && (s.others == {} ==> AllFree(s.bounds))
  {
    if s.others == {} { NobodyHolds(s.bounds); }
  }

  /** A drained tick over a queue without repeats leaves nothing behind: no open record, no held permit. */
  lemma DrainedTickLeavesNothing(s: State, es: seq<Event>)
    requires Start(s) && Tick.Distinct(s.tick.queue) && Feasible(s, es)
    requires RunAll(s, es).tick.pc.Finished? && RunAll(s, es).tick.draining
    ensures var f := RunAll(s, es);
            && OnlyOthersHold(f)
            && forall j :: j in f.tick.jobs && j !in f.tick.faulted ==> Tick.Closed(f.tick.jobs[j].job)
  {
    TickReturnsItsPermits(s, es);
    TickInside(s, es);
    Tick.DrainSettlesEveryJob(s.tick, Steps(es));
  }
}
