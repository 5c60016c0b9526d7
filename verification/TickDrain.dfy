/**
 Exactly when a drained tick closes the record of every job it created
 (crates/collector/src/runner.rs): the in-flight map has one entry per connector, so a
 connector dispatched twice hides its first job from the repair.
 */
module TickDrain {
  import opened Prelude
  import Jobs
  import opened Tick

  /** Every drained run from `s` that loses no write closes every record. */
  ghost predicate DrainedRunsSettle(s: State) {
    forall es :: Feasible(s, es) ==> DrainedEndSettles(RunAll(s, es))
  }

  predicate DrainedEndSettles(f: State) {
    f.pc.Finished? && f.draining && f.faulted == {} ==> forall j :: j in f.jobs ==> Closed(f.jobs[j].job)
  }

  /** Every drained run from `s` that besides is granted every creation closes every record. */
  ghost predicate CleanRunsSettle(s: State) {
    forall es :: Feasible(s, es) && RunAll(s, es).createFailed == [] ==> DrainedEndSettles(RunAll(s, es))
  }

  // ----- a job that nobody will touch again -----

  /** The task of job `j`, if it ever had one, is over or about to be joined, and no list leads to the job. */
  predicate Untouched(s: State, j: JobId) {
    && j in s.jobs
    && (j in s.tasks ==> s.tasks[j].Ended?)
    && (s.pc.Starting? ==> s.pc.job != j)
    && (forall c :: c in s.inflight ==> s.inflight[c] != j)
    && (s.pc.Finishing? ==> forall c :: c in s.pc.left ==> s.pc.left[c] != j)
  }

  predicate Orphan(s: State, j: JobId) {
    Untouched(s, j) && s.jobs[j].job.status.Running?
  }

  lemma UntouchedByTask(s: State, k: JobId, m: TaskMove, j: JobId)
    requires TaskEnabled(s, k, m) && Untouched(s, j)
    ensures Untouched(TaskMoved(s, k, m), j) && TaskMoved(s, k, m).jobs[j] == s.jobs[j]
  {
  }

  lemma UntouchedBySteer(s: State, d: Steer, j: JobId)
    requires SteerEnabled(s, d) && Untouched(s, j)
    ensures Untouched(Steered(s, d), j) && Steered(s, d).jobs[j] == s.jobs[j]
  {
  }

  lemma UntouchedByLoop(s: State, e: Event, j: JobId)
    requires Enabled(s, e) && !e.Task? && !e.Steering? && Untouched(s, j)
    ensures Untouched(Apply(s, e), j) && Apply(s, e).jobs[j] == s.jobs[j]
  {
  }

  lemma UntouchedKept(s: State, e: Event, j: JobId)
    requires Enabled(s, e) && Untouched(s, j)
    ensures Untouched(Apply(s, e), j) && Apply(s, e).jobs[j] == s.jobs[j]
  {
    match e
    case Task(k, m) => UntouchedByTask(s, k, m, j);
    case Steering(d) => UntouchedBySteer(s, d, j);
    case _ => UntouchedByLoop(s, e, j);
  }

  /** Nothing that happens later changes such a job's row, the drain's repair included. */
  lemma {:induction false} UntouchedStays(s: State, es: seq<Event>, j: JobId)
    requires Feasible(s, es) && Untouched(s, j)
    ensures Untouched(RunAll(s, es), j) && RunAll(s, es).jobs[j] == s.jobs[j]
    decreases |es|
  {
    if es != [] {
      UntouchedKept(s, es[0], j);
      UntouchedStays(Apply(s, es[0]), es[1..], j);
    }
  }

  /** A job whose creation the store kept but reported as failed stays Queued for the rest of the tick. */
  lemma UnseenCreationStaysQueued(s: State, j: JobId, now: int, es: seq<Event>)
    requires JobsKnown(s) && Enabled(s, CreateFails(Some(j), now)) && Feasible(Apply(s, CreateFails(Some(j), now)), es)
    ensures var f := RunAll(Apply(s, CreateFails(Some(j), now)), es);
            j in f.jobs && f.jobs[j] == Row(s.pc.conn, Jobs.NewJob(now))
  {
    UntouchedStays(Apply(s, CreateFails(Some(j), now)), es, j);
  }

  // ----- a drain can always be brought to its end without losing a write -----

  lemma Cons(s: State, e: Event, rest: seq<Event>)
    requires Enabled(s, e) && Feasible(Apply(s, e), rest)
    ensures Feasible(s, [e] + rest) && RunAll(s, [e] + rest) == RunAll(Apply(s, e), rest)
  {
    assert ([e] + rest)[1..] == rest;
  }

  /** On the way from `s` to `f` the store lost no write and refused no creation. */
  predicate Clean(s: State, f: State) {
    f.faulted == s.faulted && f.createFailed == s.createFailed
  }

  lemma StepKeepsWrites(s: State, e: Event)
    requires Enabled(s, e) && KeepsWrites(e)
    ensures Clean(s, Apply(s, e)) && (s.draining ==> Apply(s, e).draining)
  {
    if !e.Task? { LoopKeepsWrites(s, e); }
  }

  lemma LoopKeepsWrites(s: State, e: Event)
    requires Enabled(s, e) && KeepsWrites(e) && !e.Task?
    ensures Clean(s, Apply(s, e)) && (s.draining ==> Apply(s, e).draining)
  {
    if e.Steering? { SteersKeepWrites(s, e.steer); }
  }

  lemma SteersKeepWrites(s: State, d: Steer)
    ensures Clean(s, Steered(s, d)) && (s.draining ==> Steered(s, d).draining)
  {
  }

  lemma {:induction false} FinishDrain(s: State) returns (es: seq<Event>)
    requires s.draining && JobsKnown(s)
    ensures Feasible(s, es)
    ensures var f := RunAll(s, es); f.pc.Finished? && f.draining && Clean(s, f)
    decreases Rank(s)
  {
    if s.pc.Finished? {
      es := [];
    } else {
      var e := NeverStuck(s);
      StepKeepsWrites(s, e);
      StepLowersRank(s, e);
      JobsKnownKept(s, e);
      var rest := FinishDrain(Apply(s, e));
      Cons(s, e, rest);
      es := [e] + rest;
    }
  }

  /** From the dispatch loop with a live task, cancellation leads into the drain. */
  lemma EnterDrain(s: State) returns (es: seq<Event>)
    requires s.pc.Dispatching? && !s.draining && !s.cancelled && s.tasks != map[] && JobsKnown(s)
    ensures Feasible(s, es)
    ensures var f := RunAll(s, es); f.draining && Clean(s, f) && JobsKnown(f)
  {
    var s1 := Apply(s, Cancel);
    OneStep(s, Cancel);
    if MayDispatch(s1) {
      OneStep(s1, Steering(DrainBeforeDispatch));
      RunConcat(s, [Cancel], [Steering(DrainBeforeDispatch)]);
      es := [Cancel] + [Steering(DrainBeforeDispatch)];
    } else {
      var s2 := Apply(s1, Steering(StopDispatching));
      OneStep(s2, Steering(DrainWhileWaiting));
      Cons(s1, Steering(StopDispatching), [Steering(DrainWhileWaiting)]);
      Cons(s, Cancel, [Steering(StopDispatching)] + [Steering(DrainWhileWaiting)]);
      es := [Cancel] + ([Steering(StopDispatching)] + [Steering(DrainWhileWaiting)]);
    }
  }

  // ----- how a repeat makes an orphan -----

  function RunningJob(now: int): Jobs.Job {
    Jobs.Changed(Jobs.NewJob(now), Jobs.Change(Jobs.Running, None, now))
  }

  /** `s` after its next connector was dispatched as job `j`. */
  function Dispatched(s: State, j: JobId): State
    requires s.queue != []
  {
    var c := s.queue[0];
    s.(queue := s.queue[1..], jobs := s.jobs[j := Row(c, RunningJob(s.clock))],
       inflight := s.inflight[c := j], tasks := s.tasks[j := Working(c)])
  }

  lemma DispatchNext(s: State, j: JobId) returns (es: seq<Event>)
    requires MayDispatch(s) && !s.cancelled && s.queue != [] && j !in s.jobs
    ensures Feasible(s, es) && RunAll(s, es) == Dispatched(s, j)
  {
    var e2, e3 := Create(j, s.clock), Spawn(Stamp(true, s.clock));
    var s1 := Apply(s, Pop);
    var s2 := Apply(s1, e2);
    var s3 := Apply(s2, e3);
    assert s3.jobs == s.jobs[j := Row(s.queue[0], RunningJob(s.clock))];
    assert s3 == Dispatched(s, j);
    OneStep(s2, e3);
    Cons(s1, e2, [e3]);
    Cons(s, Pop, [e2] + [e3]);
    es := [Pop] + ([e2] + [e3]);
  }

  /** Ready to dispatch, with every task so far over. */
  predicate Idle(s: State) {
    MayDispatch(s) && !s.cancelled && JobsKnown(s) && forall j :: j in s.tasks ==> s.tasks[j].Ended?
  }

  lemma {:induction false} RunKnowsJobs(s: State, es: seq<Event>)
    requires JobsKnown(s) && Feasible(s, es)
    ensures JobsKnown(RunAll(s, es))
    decreases |es|
  {
    if es != [] {
      JobsKnownKept(s, es[0]);
      RunKnowsJobs(Apply(s, es[0]), es[1..]);
    }
  }

  /** When the only live task is over, it is joined if it fills the cap. */
  lemma MakeRoom(s: State, j: JobId) returns (es: seq<Event>)
    requires s.pc.Dispatching? && !s.draining && !s.cancelled && JobsKnown(s) && s.cap > 0
    requires j in s.tasks && |s.tasks| <= s.cap && forall k :: k in s.tasks ==> s.tasks[k].Ended?
    ensures Feasible(s, es)
    ensures var f := RunAll(s, es);
            && Idle(f) && Clean(s, f) && f.queue == s.queue && f.jobs == s.jobs && f.cap == s.cap
            && (f.inflight == s.inflight || (Unlists(s.tasks[j]) && f.inflight == s.inflight - {s.tasks[j].conn}))
  {
    if |s.tasks| < s.cap {
      es := [];
    } else {
      var s1 := Apply(s, Steering(StopDispatching));
      JoinShrinks(s1, j);
      OneStep(s1, Join(j));
      Cons(s, Steering(StopDispatching), [Join(j)]);
      es := [Steering(StopDispatching)] + [Join(j)];
      RunKnowsJobs(s, es);
    }
  }

  /** `f` is `s` after its next connector was dealt with; older jobs and other connectors are as before. */
  predicate After(s: State, f: State)
    requires s.queue != []
  {
    && f.queue == s.queue[1..] && f.cap == s.cap && Clean(s, f)
    && (forall k :: k in s.jobs ==> k in f.jobs && f.jobs[k] == s.jobs[k])
    && (forall c :: c in f.inflight ==>
          if c == s.queue[0] then f.inflight[c] !in s.jobs else c in s.inflight && f.inflight[c] == s.inflight[c])
  }

  lemma DispatchFits(s: State, j: JobId)
    requires Idle(s) && s.queue != [] && j !in s.jobs
    ensures |Dispatched(s, j).tasks| == |s.tasks| + 1
  {
    assert Dispatched(s, j).tasks.Keys == s.tasks.Keys + {j};
  }

  /** The next connector is dispatched, collects and completes. */
  lemma CompleteNext(s: State) returns (es: seq<Event>)
    requires Idle(s) && s.queue != []
    ensures Feasible(s, es) && Idle(RunAll(s, es)) && After(s, RunAll(s, es))
  {
    var j := FreshNat(s.jobs.Keys);
    var a := DispatchNext(s, j);
    DispatchFits(s, j);
    var d := Dispatched(s, j);
    var e1, e2 := Task(j, Write(true, "", Stamp(true, d.clock))), Task(j, Return);
    var d1 := Apply(d, e1);
    var d2 := Apply(d1, e2);
    OneStep(d1, e2);
    Cons(d, e1, [e2]);
    RunConcat(s, a, [e1] + [e2]);
    RunKnowsJobs(s, a + ([e1] + [e2]));
    TaskMoveKeepsCount(d, j, e1.move);
    TaskMoveKeepsCount(d1, j, e2.move);
    var b := MakeRoom(d2, j);
    RunConcat(s, a + ([e1] + [e2]), b);
    es := a + ([e1] + [e2]) + b;
  }

  /** The next connector is dispatched as a new job `j`, whose task panics at once. */
  lemma PanicNext(s: State) returns (es: seq<Event>, j: JobId)
    requires Idle(s) && s.queue != []
    ensures Feasible(s, es) && Idle(RunAll(s, es)) && After(s, RunAll(s, es))
    ensures j !in s.jobs && j in RunAll(s, es).jobs && RunAll(s, es).jobs[j].job.status.Running?
  {
    j := FreshNat(s.jobs.Keys);
    var a := DispatchNext(s, j);
    DispatchFits(s, j);
    var d, e := Dispatched(s, j), Task(j, Panic);
    var d1 := Apply(d, e);
    OneStep(d, e);
    RunConcat(s, a, [e]);
    RunKnowsJobs(s, a + [e]);
    TaskMoveKeepsCount(d, j, e.move);
    var b := MakeRoom(d1, j);
    RunConcat(s, a + [e], b);
    es := a + [e] + b;
  }

  /** Job `j` is Running, its task is over, and at most connector `c` is listed in flight under it. */
  predicate OneOver(s: State, c: ConnId, j: JobId) {
    && Idle(s) && j in s.jobs && s.jobs[j].job.status.Running?
    && forall x :: x in s.inflight && s.inflight[x] == j ==> x == c
  }

  /** The first copy of a connector runs, and its task is over. */
  lemma {:induction false} FirstCopyRuns(s: State, i: nat) returns (es: seq<Event>, j: JobId)
    requires Idle(s) && i < |s.queue|
    ensures Feasible(s, es) && OneOver(RunAll(s, es), s.queue[i], j)
    ensures RunAll(s, es).queue == s.queue[i + 1..] && Clean(s, RunAll(s, es))
    decreases i
  {
    if i == 0 {
      es, j := PanicNext(s);
    } else {
      var a := CompleteNext(s);
      var b;
      b, j := FirstCopyRuns(RunAll(s, a), i - 1);
      RunConcat(s, a, b);
      es := a + b;
    }
  }

  /** Job `j` is orphaned in the running dispatch loop, and another task is live. */
  predicate Orphaned(f: State, j: JobId) {
    && Orphan(f, j) && JobsKnown(f)
    && f.pc.Dispatching? && !f.draining && !f.cancelled && f.tasks != map[]
  }

  /** Dispatching the next copy overwrites the in-flight entry of the first. */
  lemma {:induction false} NextCopyOrphans(s: State, c: ConnId, j: JobId, n: nat) returns (es: seq<Event>)
    requires OneOver(s, c, j) && n < |s.queue| && s.queue[n] == c
    ensures Feasible(s, es) && Orphaned(RunAll(s, es), j) && Clean(s, RunAll(s, es))
    decreases n
  {
    if s.queue[0] == c {
      var k := FreshNat(s.jobs.Keys);
      es := DispatchNext(s, k);
      RunKnowsJobs(s, es);
      assert k in Dispatched(s, k).tasks;
    } else {
      var a := CompleteNext(s);
      var b := NextCopyOrphans(RunAll(s, a), c, j, n - 1);
      RunConcat(s, a, b);
      es := a + b;
    }
  }

  /** A drained end, with every write kept and every creation granted, and job `j` still Running. */
  predicate EscapedDrain(f: State, j: JobId) {
    f.pc.Finished? && f.draining && f.faulted == {} && f.createFailed == [] && j in f.jobs && f.jobs[j].job.status.Running?
  }

  lemma OrphanEscapes(s: State, j: JobId) returns (es: seq<Event>)
    requires Orphaned(s, j)
    ensures Feasible(s, es) && Clean(s, RunAll(s, es))
    ensures var f := RunAll(s, es); f.pc.Finished? && f.draining && j in f.jobs && f.jobs[j].job.status.Running?
  {
    var a := EnterDrain(s);
    var b := FinishDrain(RunAll(s, a));
    UntouchedStays(s, a, j);
    UntouchedStays(RunAll(s, a), b, j);
    RunConcat(s, a, b);
    es := a + b;
  }

  /** A repeat in the queue is enough: the other connectors all complete, and one job of the repeat escapes. */
  lemma RepeatEscapes(s: State, i: nat, k: nat) returns (es: seq<Event>, j: JobId)
    requires Fresh(s) && s.cap >= 1 && !s.cancelled && i < k < |s.queue| && s.queue[i] == s.queue[k]
    ensures Feasible(s, es) && EscapedDrain(RunAll(s, es), j)
  {
    var a, b, c;
    a, j := FirstCopyRuns(s, i);
    b := NextCopyOrphans(RunAll(s, a), s.queue[i], j, k - i - 1);
    RunConcat(s, a, b);
    c := OrphanEscapes(RunAll(s, a + b), j);
    RunConcat(s, a + b, c);
    es := a + b + c;
  }

  lemma NoJobsAtAll(s: State, es: seq<Event>)
    requires Fresh(s) && (s.cap == 0 || s.cancelled) && Feasible(s, es)
    ensures RunAll(s, es).jobs == map[]
  {
    if s.cap == 0 {
      PauseCreatesNoJob(s, es);
    } else {
      NoJobWhileDraining(s, es);
      assert RunAll(s, es).jobs.Keys == {};
    }
  }

  lemma SettlesIfNoRepeat(s: State)
    requires Fresh(s) && (Distinct(s.queue) || s.cap == 0 || s.cancelled)
    ensures DrainedRunsSettle(s)
  {
    forall es | Feasible(s, es) ensures DrainedEndSettles(RunAll(s, es)) {
      if s.cap == 0 || s.cancelled {
        NoJobsAtAll(s, es);
      } else if RunAll(s, es).pc.Finished? && RunAll(s, es).draining {
        DrainSettlesEveryJob(s, es);
      }
    }
  }

  /**
   Every drained run of a tick that loses no write closes the record of every job it created if and
   only if no connector is queued twice, or nothing is dispatched at all (a cap of 0, or a
   token that was cancelled before the loop). The same holds of the runs in which, besides,
   the store refuses no creation.
   */
  lemma DrainSettlesIff(s: State)
    requires Fresh(s)
    ensures DrainedRunsSettle(s) <==> Distinct(s.queue) || s.cap == 0 || s.cancelled
    ensures CleanRunsSettle(s) <==> Distinct(s.queue) || s.cap == 0 || s.cancelled
  {
    if Distinct(s.queue) || s.cap == 0 || s.cancelled {
      SettlesIfNoRepeat(s);
    } else {
      var i, k :| 0 <= i < k < |s.queue| && s.queue[i] == s.queue[k];
      var es, j := RepeatEscapes(s, i, k);
      assert !DrainedEndSettles(RunAll(s, es));
    }
  }

  // ----- a panic outside a drain -----

  /** No drain has begun, and none will without a cancellation. */
  predicate Quiet(s: State) {
    !s.draining && !s.cancelled && !s.pc.Aborting? && !s.pc.Finishing? && JobsKnown(s)
  }

  /** Job `j` is Running and its task is over. */
  predicate Crashed(s: State, j: JobId) {
    && j in s.jobs && s.jobs[j].job.status.Running?
    && (j in s.tasks ==> s.tasks[j].Ended?) && (s.pc.Starting? ==> s.pc.job != j)
  }

  lemma QuietStep(s: State, e: Event)
    requires Quiet(s) && Enabled(s, e) && !e.Cancel?
    ensures Quiet(Apply(s, e))
  {
    JobsKnownKept(s, e);
    if e.Steering? { QuietSteer(s, e.steer); }
  }

  lemma QuietSteer(s: State, d: Steer)
    requires Quiet(s) && SteerEnabled(s, d)
    ensures var f := Steered(s, d); !f.draining && !f.cancelled && !f.pc.Aborting? && !f.pc.Finishing?
  {
  }

  lemma CrashedKept(s: State, e: Event, j: JobId)
    requires Quiet(s) && Crashed(s, j) && Enabled(s, e) && !e.Cancel?
    ensures Crashed(Apply(s, e), j)
  {
  }

  lemma {:induction false} FinishQuietly(s: State, j: JobId) returns (es: seq<Event>)
    requires Quiet(s) && Crashed(s, j)
    ensures Feasible(s, es) && Clean(s, RunAll(s, es))
    ensures var f := RunAll(s, es); f.pc.Finished? && !f.draining && Crashed(f, j)
    decreases Rank(s)
  {
    if s.pc.Finished? {
      es := [];
    } else {
      var e := NeverStuck(s);
      StepKeepsWrites(s, e);
      StepLowersRank(s, e);
      QuietStep(s, e);
      CrashedKept(s, e, j);
      var rest := FinishQuietly(Apply(s, e), j);
      Cons(s, e, rest);
      es := [e] + rest;
    }
  }

  /** A finished undrained tick with every write kept, every creation granted, and job `j` still Running. */
  predicate LeftRunning(f: State, j: JobId) {
    f.pc.Finished? && !f.draining && f.faulted == {} && f.createFailed == [] && j in f.jobs && f.jobs[j].job.status.Running?
  }

  /** Such crashes are no theory: whenever a tick dispatches anything, an undrained run can leave a job Running. */
  lemma PanicWithoutDrainLeavesRunning(s: State) returns (es: seq<Event>, j: JobId)
    requires Fresh(s) && s.queue != [] && s.cap > 0 && !s.cancelled
    ensures Feasible(s, es) && LeftRunning(RunAll(s, es), j)
  {
    var a, b;
    a, j := FirstCopyRuns(s, 0);
    b := FinishQuietly(RunAll(s, a), j);
    RunConcat(s, a, b);
    es := a + b;
  }
}
