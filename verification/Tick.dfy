/**
 One collector tick as a concurrent protocol (crates/collector/src/runner.rs): the
 dispatch/drain loop, its spawned collect tasks, the cancellation token, the drain
 deadline and the job table. Every store call, every join and every loop decision is
 one event; a run is any interleaving of events.
 */
module Tick {
  import opened Prelude
  import Jobs

  type ConnId = nat
  type JobId = nat

  datatype Ending = Collected | CollectFailed | Panicked | Aborted

  /** A spawned task: before its final job write, after it, and after it returned. */
  datatype Task = Working(conn: ConnId)
                | Written(conn: ConnId, ok: bool)
                | Ended(conn: ConnId, ending: Ending)

  /** A collect job; its correlation id is the connector. */
  datatype Row = Row(conn: ConnId, job: Jobs.Job)

  /** Whether the store kept a write, and the clock reading that it carries. */
  datatype Stamp = Stamp(stored: bool, now: int)

  datatype Outcome = SkippedImport | SkippedUnknownType | SkippedUnscheduled | SkippedInvalidSchedule
                   | NotDue | BackingOff | RetryDeferred | BackpressureSkipped | Ran

  datatype Entry = Entry(conn: ConnId, outcome: Outcome)

  /** Where the loop is. */
  datatype Pc = Dispatching
              | Creating(conn: ConnId)
              | Starting(conn: ConnId, job: JobId)
              | Waiting
              | Aborting
              | Finishing(left: map<ConnId, JobId>)
              | Finished

  /** `createFailed`, `lost`, `faulted` and `crashed` are history: who got no job, whose join failed,
      which jobs had a status write that the store did not keep or a creation that it kept but
      reported as failed, and whose task panicked before its final write. `clock` is the last clock reading in the job table. */
  datatype State = State(
    cap: nat,
    queue: seq<ConnId>,
    pc: Pc,
    cancelled: bool,
    draining: bool,
    tasks: map<JobId, Task>,
    inflight: map<ConnId, JobId>,
    jobs: map<JobId, Row>,
    results: seq<Entry>,
    collectFailed: seq<ConnId>,
    createFailed: seq<ConnId>,
    lost: set<JobId>,
    faulted: set<JobId>,
    crashed: set<JobId>,
    clock: int)

  function Init(cap: nat, queue: seq<ConnId>, results: seq<Entry>, cancelled: bool, clock: int): State {
    State(cap, queue, Dispatching, cancelled, cancelled, map[], map[], map[], results, [], [], {}, {}, {}, clock)
  }

  /** What a spawned task does on its own; `why` is the text of a failure. */
  datatype TaskMove = Write(ok: bool, why: string, w: Stamp) | Return | Panic | AbortLands

  /** Loop decisions that only steer. */
  datatype Steer = StopDispatching | DrainBeforeDispatch | DrainWhileWaiting | Deadline | SetEmpty | Close

  datatype Event =
    | Cancel
    | Task(job: JobId, move: TaskMove)
    | Steering(steer: Steer)
    | Pop
    | CreateFails(unseen: Option<JobId>, now: int)
    | Create(job: JobId, now: int)
    | Spawn(w: Stamp)
    | Join(job: JobId)
    | CancelJob(conn: ConnId, w: Stamp)

  predicate MayDispatch(s: State) {
    s.pc.Dispatching? && !s.draining && |s.tasks| < s.cap
  }

  predicate TaskEnabled(s: State, j: JobId, m: TaskMove) {
    j in s.tasks &&
    match m
    case Write(_, _, w) => s.tasks[j].Working? && s.clock <= w.now
    case Return => s.tasks[j].Written?
    case Panic => !s.tasks[j].Ended?
    case AbortLands => s.pc.Aborting? && !s.tasks[j].Ended?
  }

  predicate SteerEnabled(s: State, d: Steer) {
    match d
    case StopDispatching => s.pc.Dispatching? && (!MayDispatch(s) || (!s.cancelled && s.queue == []))
    case DrainBeforeDispatch => MayDispatch(s) && s.cancelled
    case DrainWhileWaiting => s.pc.Waiting? && !s.draining && s.cancelled && s.tasks != map[]
    case Deadline => s.pc.Waiting? && s.draining && s.tasks != map[]
    case SetEmpty => (s.pc.Waiting? || s.pc.Aborting?) && s.tasks == map[]
    case Close => s.pc.Finishing? && s.pc.left == map[]
  }

  predicate QueueEnabled(s: State, e: Event) {
    match e
    case Pop => MayDispatch(s) && !s.cancelled && s.queue != []
    case CreateFails(unseen, now) => s.pc.Creating? && (unseen.Some? ==> unseen.value !in s.jobs && s.clock <= now)
    case Create(j, now) => s.pc.Creating? && j !in s.jobs && s.clock <= now
    case _ => false
  }

  predicate Enabled(s: State, e: Event) {
    match e
    case Cancel => !s.cancelled && !s.pc.Finished?
    case Task(j, m) => TaskEnabled(s, j, m)
    case Steering(d) => SteerEnabled(s, d)
    case Spawn(w) => s.pc.Starting? && s.clock <= w.now
    case Join(j) => (s.pc.Waiting? || s.pc.Aborting?) && j in s.tasks && s.tasks[j].Ended?
    case CancelJob(c, w) => s.pc.Finishing? && c in s.pc.left && s.clock <= w.now
    case _ => QueueEnabled(s, e)
  }

  /** A status change through the job service: refused changes and lost writes change nothing. */
  function Move(jobs: map<JobId, Row>, j: JobId, c: Jobs.Change, stored: bool): map<JobId, Row> {
    if stored && j in jobs then jobs[j := jobs[j].(job := Jobs.Changed(jobs[j].job, c))] else jobs
  }

  function Faults(s: State, j: JobId, w: Stamp): set<JobId> {
    if w.stored then s.faulted else s.faulted + {j}
  }

  const ABORT_ERROR: string := "collector 停止時中斷"

  function FinalChange(ok: bool, why: string, now: int): Jobs.Change {
    if ok then Jobs.Change(Jobs.Completed, None, now) else Jobs.Change(Jobs.Failed, Some(why), now)
  }

  function TaskMoved(s: State, j: JobId, m: TaskMove): State
    requires TaskEnabled(s, j, m)
  {
    var t := s.tasks[j];
    match m
    case Write(ok, why, w) =>
      s.(tasks := s.tasks[j := Written(t.conn, ok)],
         jobs := Move(s.jobs, j, FinalChange(ok, why, w.now), w.stored),
         faulted := Faults(s, j, w),
         clock := w.now)
    case Return => s.(tasks := s.tasks[j := Ended(t.conn, if t.ok then Collected else CollectFailed)])
    case Panic =>
      s.(tasks := s.tasks[j := Ended(t.conn, Panicked)],
         crashed := if t.Working? then s.crashed + {j} else s.crashed)
    case AbortLands => s.(tasks := s.tasks[j := Ended(t.conn, Aborted)])
  }

  function Steered(s: State, d: Steer): State {
    match d
    case StopDispatching => s.(pc := Waiting)
    case DrainBeforeDispatch => s.(draining := true, pc := Waiting)
    case DrainWhileWaiting => s.(draining := true, pc := Dispatching)
    case Deadline => s.(pc := Aborting)
    case SetEmpty => s.(pc := if s.draining && s.inflight != map[] then Finishing(s.inflight) else Finished)
    case Close => s.(pc := Finished)
  }

  function Spawned(s: State, w: Stamp): State
    requires s.pc.Starting?
  {
    s.(pc := Dispatching,
       jobs := Move(s.jobs, s.pc.job, Jobs.Change(Jobs.Running, None, w.now), w.stored),
       faulted := Faults(s, s.pc.job, w),
       clock := w.now,
       inflight := s.inflight[s.pc.conn := s.pc.job],
       tasks := s.tasks[s.pc.job := Working(s.pc.conn)])
  }

  /** The join returned the task's own result, so the connector leaves the in-flight map. */
  predicate Unlists(t: Task) {
    t.Ended? && (t.ending.Collected? || t.ending.CollectFailed?)
  }

  /** What `record_join` does with a joined task. */
  function RecordJoin(s: State, j: JobId): State
    requires j in s.tasks && s.tasks[j].Ended?
  {
    var t := s.tasks[j];
    s.(tasks := s.tasks - {j},
       pc := if s.pc.Waiting? then Dispatching else s.pc,
       inflight := if Unlists(t) then s.inflight - {t.conn} else s.inflight,
       results := if t.ending.Collected? then s.results + [Entry(t.conn, Ran)] else s.results,
       collectFailed := if t.ending.CollectFailed? then s.collectFailed + [t.conn] else s.collectFailed,
       lost := if Unlists(t) then s.lost else s.lost + {j})
  }

  /** One turn of the `finish_aborted` loop. */
  function JobCancelled(s: State, c: ConnId, w: Stamp): State
    requires s.pc.Finishing? && c in s.pc.left
  {
    s.(pc := Finishing(s.pc.left - {c}),
       jobs := Move(s.jobs, s.pc.left[c], Jobs.Change(Jobs.Cancelled, Some(ABORT_ERROR), w.now), w.stored),
       faulted := Faults(s, s.pc.left[c], w),
       clock := w.now)
  }

  /** The store reports an error; it may have kept the new row nevertheless. */
  function CreationFailed(s: State, unseen: Option<JobId>, now: int): State
    requires s.pc.Creating?
  {
    var after := s.(pc := Dispatching, createFailed := s.createFailed + [s.pc.conn]);
    if unseen.None? then after
    else after.(jobs := s.jobs[unseen.value := Row(s.pc.conn, Jobs.NewJob(now))],
                faulted := s.faulted + {unseen.value},
                clock := now)
  }

  /** Taking the next connector, and the two results of asking the store for its job. */
  function Queued(s: State, e: Event): State
    requires QueueEnabled(s, e)
  {
    match e
    case Pop => s.(pc := Creating(s.queue[0]), queue := s.queue[1..])
    case CreateFails(unseen, now) => CreationFailed(s, unseen, now)
    case Create(j, now) =>
      s.(pc := Starting(s.pc.conn, j), jobs := s.jobs[j := Row(s.pc.conn, Jobs.NewJob(now))], clock := now)
  }

  function Apply(s: State, e: Event): State
    requires Enabled(s, e)
  {
    match e
    case Cancel => s.(cancelled := true)
    case Task(j, m) => TaskMoved(s, j, m)
    case Steering(d) => Steered(s, d)
    case Spawn(w) => Spawned(s, w)
    case Join(j) => RecordJoin(s, j)
    case CancelJob(c, w) => JobCancelled(s, c, w)
    case _ => Queued(s, e)
  }

  predicate Feasible(s: State, es: seq<Event>)
    decreases |es|
  {
    es == [] || (Enabled(s, es[0]) && Feasible(Apply(s, es[0]), es[1..]))
  }

  function RunAll(s: State, es: seq<Event>): State
    requires Feasible(s, es)
    decreases |es|
  {
    if es == [] then s else RunAll(Apply(s, es[0]), es[1..])
  }

  // ----- accounting -----

  function Conns(r: seq<Entry>): seq<ConnId> {
    seq(|r|, i requires 0 <= i < |r| => r[i].conn)
  }

  function PcConn(pc: Pc): multiset<ConnId> {
    if pc.Creating? || pc.Starting? then multiset{pc.conn} else multiset{}
  }

  /** Connectors that have no task yet. */
  function Ahead(s: State): multiset<ConnId> {
    multiset(s.queue) + PcConn(s.pc) + multiset(s.createFailed)
  }

  /** Connectors whose task exists or is over, or that needed none. */
  function Behind(s: State): multiset<ConnId> {
    multiset(s.inflight.Keys) + multiset(Conns(s.results)) + multiset(s.collectFailed)
  }

  /** Every place where a connector can be while the tick runs. */
  function Ledger(s: State): multiset<ConnId> {
    Ahead(s) + Behind(s)
  }

  lemma ConnsAppend(r: seq<Entry>, e: Entry)
    ensures multiset(Conns(r + [e])) == multiset(Conns(r)) + multiset{e.conn}
  {
    assert Conns(r + [e]) == Conns(r) + [e.conn];
  }

  lemma BehindKeptByJoin(s: State, j: JobId)
    requires TasksLinked(s) && j in s.tasks && s.tasks[j].Ended?
    ensures Behind(RecordJoin(s, j)) == Behind(s)
  {
    var t := s.tasks[j];
    if Unlists(t) {
      ConnsAppend(s.results, Entry(t.conn, Ran));
      RemoveKey(s.inflight, t.conn);
    }
  }

  lemma AheadKeptByJoin(s: State, j: JobId)
    requires Enabled(s, Join(j))
    ensures Ahead(RecordJoin(s, j)) == Ahead(s)
  {
    var s' := RecordJoin(s, j);
    assert PcConn(s'.pc) == PcConn(s.pc) && s'.queue == s.queue && s'.createFailed == s.createFailed;
  }

  lemma LedgerKeptByJoin(s: State, j: JobId)
    requires TasksLinked(s) && Enabled(s, Join(j))
    ensures Ledger(RecordJoin(s, j)) == Ledger(s)
  {
    BehindKeptByJoin(s, j);
    AheadKeptByJoin(s, j);
  }

  lemma RemoveKey(m: map<ConnId, JobId>, c: ConnId)
    requires c in m
    ensures multiset(m.Keys) == multiset((m - {c}).Keys) + multiset{c}
  {
    assert (m - {c}).Keys == m.Keys - {c};
  }

  lemma AddKey(m: map<ConnId, JobId>, c: ConnId, j: JobId)
    requires c !in m
    ensures multiset(m[c := j].Keys) == multiset(m.Keys) + multiset{c}
  {
    assert m[c := j].Keys == m.Keys + {c};
  }

  lemma AheadKeptByPop(queue: seq<ConnId>, failed: multiset<ConnId>)
    requires queue != []
    ensures multiset(queue[1..]) + multiset{queue[0]} + failed == multiset(queue) + failed
  {
    assert queue == [queue[0]] + queue[1..];
  }

  lemma AheadKeptByQueue(s: State, e: Event)
    requires QueueEnabled(s, e) && !e.Create?
    ensures Ahead(Queued(s, e)) == Ahead(s)
  {
    if e.Pop? { AheadKeptByPop(s.queue, multiset(s.createFailed)); }
  }

  lemma QueueSparesBehind(s: State, e: Event)
    requires QueueEnabled(s, e)
    ensures var f := Queued(s, e); f.inflight == s.inflight && f.results == s.results && f.collectFailed == s.collectFailed
  {
  }

  lemma LedgerKeptByQueue(s: State, e: Event)
    requires QueueEnabled(s, e)
    ensures Ledger(Queued(s, e)) == Ledger(s)
  {
    QueueSparesBehind(s, e);
    if e.Create? { SameLedger(s, Queued(s, e)); } else { AheadKeptByQueue(s, e); }
  }

  lemma SameLedger(s: State, s': State)
    requires s'.queue == s.queue && PcConn(s'.pc) == PcConn(s.pc) && s'.createFailed == s.createFailed
    requires s'.inflight == s.inflight && s'.results == s.results && s'.collectFailed == s.collectFailed
    ensures Ledger(s') == Ledger(s)
  {
  }

  lemma LedgerKeptByTask(s: State, j: JobId, m: TaskMove)
    requires TaskEnabled(s, j, m)
    ensures Ledger(TaskMoved(s, j, m)) == Ledger(s)
  {
    SameLedger(s, TaskMoved(s, j, m));
  }

  lemma LedgerKeptByRepair(s: State, c: ConnId, w: Stamp)
    requires s.pc.Finishing? && c in s.pc.left
    ensures Ledger(JobCancelled(s, c, w)) == Ledger(s)
  {
    SameLedger(s, JobCancelled(s, c, w));
  }

  lemma SteerFrame(s: State, d: Steer)
    requires SteerEnabled(s, d)
    ensures var s' := Steered(s, d);
            && s'.queue == s.queue && s'.createFailed == s.createFailed && s'.inflight == s.inflight
            && s'.results == s.results && s'.collectFailed == s.collectFailed
            && PcConn(s.pc) == multiset{} == PcConn(s'.pc)
  {
  }

  lemma LedgerKeptBySteer(s: State, d: Steer)
    requires SteerEnabled(s, d)
    ensures Ledger(Steered(s, d)) == Ledger(s)
  {
    SteerFrame(s, d);
    SameLedger(s, Steered(s, d));
  }

  lemma LedgerKeptBySpawn(s: State, w: Stamp)
    requires s.pc.Starting? && s.pc.conn !in s.inflight
    ensures Ledger(Spawned(s, w)) == Ledger(s)
  {
    var s', c := Spawned(s, w), s.pc.conn;
    AddKey(s.inflight, c, s.pc.job);
    assert Behind(s') == Behind(s) + multiset{c};
    assert Ahead(s) == Ahead(s') + multiset{c};
  }

  lemma LedgerKept(s: State, e: Event)
    requires Enabled(s, e) && TasksLinked(s)
    requires s.pc.Starting? ==> s.pc.conn !in s.inflight
    ensures Ledger(Apply(s, e)) == Ledger(s)
  {
    match e
    case Cancel =>
    case Task(j, m) => LedgerKeptByTask(s, j, m);
    case Steering(d) => LedgerKeptBySteer(s, d);
    case Spawn(w) => LedgerKeptBySpawn(s, w);
    case Join(j) => LedgerKeptByJoin(s, j);
    case CancelJob(c, w) => LedgerKeptByRepair(s, c, w);
    case _ => LedgerKeptByQueue(s, e);
  }

  // ----- the invariant -----

  /** Every task is in flight under its connector. */
  predicate TasksLinked(s: State) {
    forall j :: j in s.tasks ==>
      && j in s.jobs && s.jobs[j].conn == s.tasks[j].conn && j !in s.lost
      && s.tasks[j].conn in s.inflight && s.inflight[s.tasks[j].conn] == j
  }

  /** What is in flight has a job, and its task is live or its join failed. */
  predicate InflightLinked(s: State) {
    forall c :: c in s.inflight ==>
      && s.inflight[c] in s.jobs && s.jobs[s.inflight[c]].conn == c
      && (s.inflight[c] in s.tasks || s.inflight[c] in s.lost)
  }

  predicate PcLinked(s: State) {
    && s.faulted <= s.jobs.Keys && s.lost <= s.jobs.Keys
    && (s.pc.Starting? ==>
          && s.pc.job in s.jobs && s.jobs[s.pc.job].conn == s.pc.conn && s.jobs[s.pc.job].job.status.Queued?
          && s.pc.job !in s.tasks && s.pc.job !in s.lost && s.pc.job !in s.faulted)
    && (s.pc.Finishing? ==>
          forall c :: c in s.pc.left ==> c in s.inflight && s.pc.left[c] == s.inflight[c])
    && (s.pc.Finishing? || s.pc.Finished? ==> s.tasks == map[])
  }

  predicate Linked(s: State) {
    TasksLinked(s) && InflightLinked(s) && PcLinked(s)
  }

  /** Is job `j` still on the list that the drain repair will walk? */
  predicate Listed(s: State, j: JobId)
    requires j in s.jobs
  {
    var c := s.jobs[j].conn;
    j in s.lost &&
    match s.pc
    case Finishing(left) => c in left && left[c] == j
    case Finished => !s.draining
    case _ => c in s.inflight && s.inflight[c] == j
  }

  /** What the status of job `j` says, unless one of its writes was lost. */
  predicate StatusOk(s: State, j: JobId)
    requires j in s.jobs
  {
    var st := s.jobs[j].job.status;
    if s.pc.Starting? && s.pc.job == j then st.Queued?
    else if j in s.tasks then
      match s.tasks[j]
      case Working(_) => st.Running?
      case Written(_, ok) => st == (if ok then Jobs.Completed else Jobs.Failed)
      case Ended(_, Collected) => st.Completed?
      case Ended(_, CollectFailed) => st.Failed?
      case Ended(_, _) => st.Running? || st.Completed? || st.Failed?
    else Jobs.Settled(st) || (Listed(s, j) && st.Running?)
  }

  predicate StatusesOk(s: State) {
    forall j :: j in s.jobs ==> j in s.faulted || StatusOk(s, j)
  }

  predicate CapOk(s: State) {
    && |s.tasks| <= s.cap
    && (s.pc.Creating? || s.pc.Starting? ==> |s.tasks| < s.cap && !s.draining)
    && (s.pc.Aborting? || s.pc.Finishing? ==> s.draining)
    && (s.pc.Waiting? && !s.draining ==> s.queue == [] || |s.tasks| >= s.cap)
    && (s.pc.Finished? && !s.draining ==> s.queue == [] || s.cap == 0)
  }

  /** The connectors that may still reach the in-flight map, or are in it. */
  function Live(s: State): multiset<ConnId> {
    multiset(s.queue) + PcConn(s.pc) + multiset(s.inflight.Keys)
  }

  /** No connector is in there twice. */
  ghost predicate Single(s: State) {
    forall c :: Live(s)[c] <= 1
  }

  /** What the status of job `j` says as long as the tick does not drain, crashes included. */
  predicate WorkOk(s: State, j: JobId)
    requires j in s.jobs
  {
    var st := s.jobs[j].job.status;
    if s.pc.Starting? && s.pc.job == j then st.Queued? && j !in s.crashed
    else if j in s.tasks && s.tasks[j].Working? then st.Running? && j !in s.crashed
    else (st.Running? <==> j in s.crashed) && (st.Running? || Jobs.Settled(st))
         && (j in s.tasks && s.tasks[j].Written? ==> j !in s.crashed)
  }

  predicate CrashesOk(s: State) {
    && s.crashed <= s.jobs.Keys
    && (s.draining || forall j :: j in s.jobs ==> j in s.faulted || WorkOk(s, j))
  }

  /** Every record is consistent with itself at the last clock reading. */
  predicate RecordsOk(s: State) {
    forall j :: j in s.jobs ==> Jobs.Consistent(s.jobs[j].job, s.clock)
  }

  /** What every run keeps, repeats in the queue or not. */
  predicate Sound(s: State) {
    JobsKnown(s) && CapOk(s) && CrashesOk(s) && RecordsOk(s)
  }

  ghost predicate Inv(s: State, total: multiset<ConnId>) {
    Linked(s) && CapOk(s) && StatusesOk(s) && Single(s) && Ledger(s) == total
  }

  lemma SingleIsNew(s: State)
    requires Single(s)
    ensures s.pc.Creating? || s.pc.Starting? ==> s.pc.conn !in s.inflight
  {
    if s.pc.Creating? || s.pc.Starting? {
      assert Live(s)[s.pc.conn] <= 1;
    }
  }

  lemma SameLive(s: State, s': State)
    requires s'.queue == s.queue && PcConn(s'.pc) == PcConn(s.pc) && s'.inflight.Keys <= s.inflight.Keys
    ensures Live(s') <= Live(s)
  {
  }

  lemma LiveKeptByQueue(s: State, e: Event)
    requires QueueEnabled(s, e)
    ensures Live(Queued(s, e)) <= Live(s)
  {
    if e.Pop? { AheadKeptByPop(s.queue, multiset{}); }
  }

  lemma KeyAdded(m: map<ConnId, JobId>, c: ConnId, j: JobId)
    ensures multiset(m[c := j].Keys) <= multiset(m.Keys) + multiset{c}
  {
    assert m[c := j].Keys == m.Keys + {c};
  }

  lemma LiveKeptBySpawn(s: State, w: Stamp)
    requires s.pc.Starting?
    ensures Live(Spawned(s, w)) <= Live(s)
  {
    var s' := Spawned(s, w);
    assert s'.queue == s.queue && PcConn(s'.pc) == multiset{} && PcConn(s.pc) == multiset{s.pc.conn};
    assert s'.inflight == s.inflight[s.pc.conn := s.pc.job];
    KeyAdded(s.inflight, s.pc.conn, s.pc.job);
  }

  lemma LiveKeptByTask(s: State, j: JobId, m: TaskMove)
    requires TaskEnabled(s, j, m)
    ensures Live(TaskMoved(s, j, m)) <= Live(s)
  {
    SameLive(s, TaskMoved(s, j, m));
  }

  lemma LiveKeptBySteer(s: State, d: Steer)
    requires SteerEnabled(s, d)
    ensures Live(Steered(s, d)) <= Live(s)
  {
    SteerFrame(s, d);
    SameLive(s, Steered(s, d));
  }

  lemma LiveKeptByJoin(s: State, j: JobId)
    requires Enabled(s, Join(j))
    ensures Live(RecordJoin(s, j)) <= Live(s)
  {
    SameLive(s, RecordJoin(s, j));
  }

  lemma LiveKept(s: State, e: Event)
    requires Enabled(s, e)
    ensures Live(Apply(s, e)) <= Live(s)
  {
    match e
    case Cancel =>
    case Task(j, m) => LiveKeptByTask(s, j, m);
    case Steering(d) => LiveKeptBySteer(s, d);
    case Spawn(w) => LiveKeptBySpawn(s, w);
    case Join(j) => LiveKeptByJoin(s, j);
    case CancelJob(c, w) => SameLive(s, JobCancelled(s, c, w));
    case _ => LiveKeptByQueue(s, e);
  }

  lemma SingleKept(s: State, e: Event)
    requires Enabled(s, e) && Single(s)
    ensures Single(Apply(s, e))
  {
    LiveKept(s, e);
    forall c ensures Live(Apply(s, e))[c] <= 1 { assert Live(Apply(s, e))[c] <= Live(s)[c]; }
  }

  lemma CrashesKeptByTask(s: State, j: JobId, m: TaskMove)
    requires JobsKnown(s) && CrashesOk(s) && CapOk(s) && TaskEnabled(s, j, m)
    ensures CrashesOk(TaskMoved(s, j, m))
  {
    var s' := TaskMoved(s, j, m);
    if !s'.draining {
      forall k | k in s'.jobs && k !in s'.faulted ensures WorkOk(s', k) { assert WorkOk(s, k); }
    }
  }

  lemma CrashesKeptBySteer(s: State, d: Steer)
    requires CrashesOk(s) && SteerEnabled(s, d)
    ensures CrashesOk(Steered(s, d))
  {
    var s' := Steered(s, d);
    assert s'.jobs == s.jobs && s'.crashed == s.crashed && s'.tasks == s.tasks && s'.faulted == s.faulted;
    if !s'.draining {
      forall k | k in s'.jobs && k !in s'.faulted ensures WorkOk(s', k) { assert WorkOk(s, k); }
    }
  }

  lemma CrashesKeptByLoop(s: State, e: Event)
    requires JobsKnown(s) && CrashesOk(s) && CapOk(s) && Enabled(s, e) && !e.Task? && !e.Spawn? && !e.Steering?
    ensures CrashesOk(Apply(s, e))
  {
    var s' := Apply(s, e);
    if !s'.draining {
      forall k | k in s'.jobs && k !in s'.faulted ensures WorkOk(s', k) { assert k in s.jobs ==> WorkOk(s, k); }
    }
  }

  lemma CrashesKeptBySpawn(s: State, w: Stamp)
    requires CrashesOk(s) && s.pc.Starting?
    ensures CrashesOk(Spawned(s, w))
  {
    var s' := Spawned(s, w);
    if !s'.draining {
      forall k | k in s'.jobs && k !in s'.faulted ensures WorkOk(s', k) { assert WorkOk(s, k); }
    }
  }

  lemma CrashesKept(s: State, e: Event)
    requires Enabled(s, e) && JobsKnown(s) && CrashesOk(s) && CapOk(s)
    ensures CrashesOk(Apply(s, e))
  {
    match e
    case Task(j, m) => CrashesKeptByTask(s, j, m);
    case Spawn(w) => CrashesKeptBySpawn(s, w);
    case Steering(d) => CrashesKeptBySteer(s, d);
    case _ => CrashesKeptByLoop(s, e);
  }

  lemma MoveKeepsRecords(jobs: map<JobId, Row>, t: int, j: JobId, c: Jobs.Change, stored: bool)
    requires forall k :: k in jobs ==> Jobs.Consistent(jobs[k].job, t)
    requires t <= c.now
    ensures forall k :: k in Move(jobs, j, c, stored) ==> Jobs.Consistent(Move(jobs, j, c, stored)[k].job, c.now)
  {
  }

  lemma RecordsKept(s: State, e: Event)
    requires Enabled(s, e) && RecordsOk(s)
    ensures RecordsOk(Apply(s, e))
  {
    match e
    case Task(j, Write(ok, why, w)) => MoveKeepsRecords(s.jobs, s.clock, j, FinalChange(ok, why, w.now), w.stored);
    case Spawn(w) => MoveKeepsRecords(s.jobs, s.clock, s.pc.job, Jobs.Change(Jobs.Running, None, w.now), w.stored);
    case CancelJob(c, w) =>
      MoveKeepsRecords(s.jobs, s.clock, s.pc.left[c], Jobs.Change(Jobs.Cancelled, Some(ABORT_ERROR), w.now), w.stored);
    case Task(j, _) => assert TaskMoved(s, j, e.move).jobs == s.jobs && TaskMoved(s, j, e.move).clock == s.clock;
    case Steering(d) => SteeringKeepsJobs(s, d);
    case Cancel =>
    case Join(_) =>
    case _ => RecordsKeptByQueue(s, e);
  }

  lemma RecordsKeptByQueue(s: State, e: Event)
    requires QueueEnabled(s, e) && RecordsOk(s)
    ensures RecordsOk(Queued(s, e))
  {
  }

  lemma LinkedKeptByTask(s: State, j: JobId, m: TaskMove)
    requires Linked(s) && TaskEnabled(s, j, m)
    ensures Linked(TaskMoved(s, j, m))
  {
  }

  lemma LinkedKeptBySpawn(s: State, w: Stamp)
    requires Linked(s) && s.pc.Starting? && s.pc.conn !in s.inflight
    ensures Linked(Spawned(s, w))
  {
  }

  lemma LinkedKeptByReturn(s: State, j: JobId)
    requires Linked(s) && Enabled(s, Join(j)) && Unlists(s.tasks[j])
    ensures Linked(RecordJoin(s, j))
  {
    var s', t := RecordJoin(s, j), s.tasks[j];
    forall k | k in s'.tasks ensures k in s.tasks && s.tasks[k].conn != t.conn {
      assert s.inflight[s.tasks[k].conn] == k;
    }
  }

  lemma LinkedKeptByLoss(s: State, j: JobId)
    requires Linked(s) && Enabled(s, Join(j)) && !Unlists(s.tasks[j])
    ensures Linked(RecordJoin(s, j))
  {
  }

  lemma LinkedKeptByJoin(s: State, j: JobId)
    requires Linked(s) && Enabled(s, Join(j))
    ensures Linked(RecordJoin(s, j))
  {
    if Unlists(s.tasks[j]) { LinkedKeptByReturn(s, j); } else { LinkedKeptByLoss(s, j); }
  }

  lemma LinkedKeptBySteer(s: State, d: Steer)
    requires Linked(s) && SteerEnabled(s, d)
    ensures Linked(Steered(s, d))
  {
  }

  lemma LinkedKeptByQueue(s: State, e: Event)
    requires Linked(s) && QueueEnabled(s, e)
    ensures Linked(Queued(s, e))
  {
  }

  lemma LinkedKeptByRepair(s: State, c: ConnId, w: Stamp)
    requires Linked(s) && s.pc.Finishing? && c in s.pc.left
    ensures Linked(JobCancelled(s, c, w))
  {
  }

  lemma LinkedKept(s: State, e: Event)
    requires Enabled(s, e) && Linked(s)
    requires s.pc.Starting? ==> s.pc.conn !in s.inflight
    ensures Linked(Apply(s, e))
  {
    match e
    case Cancel =>
    case Task(j, m) => LinkedKeptByTask(s, j, m);
    case Steering(d) => LinkedKeptBySteer(s, d);
    case Spawn(w) => LinkedKeptBySpawn(s, w);
    case Join(j) => LinkedKeptByJoin(s, j);
    case CancelJob(c, w) => LinkedKeptByRepair(s, c, w);
    case _ => LinkedKeptByQueue(s, e);
  }

  lemma StatusesKeptByTask(s: State, j: JobId, m: TaskMove)
    requires Linked(s) && StatusesOk(s) && TaskEnabled(s, j, m)
    ensures StatusesOk(TaskMoved(s, j, m))
  {
  }

  lemma StatusesKeptBySpawn(s: State, w: Stamp)
    requires Linked(s) && StatusesOk(s) && s.pc.Starting? && s.pc.conn !in s.inflight
    ensures StatusesOk(Spawned(s, w))
  {
  }

  lemma StatusesKeptByReturn(s: State, j: JobId)
    requires Linked(s) && StatusesOk(s) && Enabled(s, Join(j)) && Unlists(s.tasks[j])
    ensures StatusesOk(RecordJoin(s, j))
  {
    var s', t := RecordJoin(s, j), s.tasks[j];
    forall k | k in s'.jobs && k !in s'.faulted ensures StatusOk(s', k) {
      assert StatusOk(s, k);
      if k != j && k !in s.tasks && Listed(s, k) {
        assert s.jobs[k].conn != t.conn;
      }
    }
  }

  lemma StatusesKeptByJoin(s: State, j: JobId)
    requires Linked(s) && StatusesOk(s) && Enabled(s, Join(j))
    ensures StatusesOk(RecordJoin(s, j))
  {
    if Unlists(s.tasks[j]) {
      StatusesKeptByReturn(s, j);
    } else {
      var s' := RecordJoin(s, j);
      forall k | k in s'.jobs && k !in s'.faulted ensures StatusOk(s', k) {
        assert StatusOk(s, k);
      }
    }
  }

  lemma StatusesKeptBySteer(s: State, d: Steer)
    requires Linked(s) && StatusesOk(s) && SteerEnabled(s, d)
    ensures StatusesOk(Steered(s, d))
  {
  }

  lemma StatusesKeptByQueue(s: State, e: Event)
    requires Linked(s) && StatusesOk(s) && QueueEnabled(s, e)
    ensures StatusesOk(Queued(s, e))
  {
  }

  lemma StatusesKeptByRepair(s: State, c: ConnId, w: Stamp)
    requires Linked(s) && StatusesOk(s) && s.pc.Finishing? && c in s.pc.left
    ensures StatusesOk(JobCancelled(s, c, w))
  {
    var s' := JobCancelled(s, c, w);
    forall k | k in s'.jobs && k !in s'.faulted ensures StatusOk(s', k) {
      assert StatusOk(s, k);
    }
  }

  lemma StatusesKept(s: State, e: Event)
    requires Enabled(s, e) && Linked(s) && StatusesOk(s)
    requires s.pc.Starting? ==> s.pc.conn !in s.inflight
    ensures StatusesOk(Apply(s, e))
  {
    match e
    case Cancel =>
    case Task(j, m) => StatusesKeptByTask(s, j, m);
    case Steering(d) => StatusesKeptBySteer(s, d);
    case Spawn(w) => StatusesKeptBySpawn(s, w);
    case Join(j) => StatusesKeptByJoin(s, j);
    case CancelJob(c, w) => StatusesKeptByRepair(s, c, w);
    case _ => StatusesKeptByQueue(s, e);
  }

  lemma JoinShrinks(s: State, j: JobId)
    requires j in s.tasks && s.tasks[j].Ended?
    ensures |RecordJoin(s, j).tasks| == |s.tasks| - 1
  {
    assert (s.tasks - {j}).Keys == s.tasks.Keys - {j};
    assert RecordJoin(s, j).tasks == s.tasks - {j};
  }

  lemma TaskMoveKeepsCount(s: State, j: JobId, m: TaskMove)
    requires TaskEnabled(s, j, m)
    ensures |TaskMoved(s, j, m).tasks| == |s.tasks|
  {
    assert TaskMoved(s, j, m).tasks.Keys == s.tasks.Keys;
  }

  lemma CapKeptBySteer(s: State, d: Steer)
    requires SteerEnabled(s, d) && CapOk(s)
    ensures CapOk(Steered(s, d))
  {
  }

  lemma CapKeptByQueue(s: State, e: Event)
    requires QueueEnabled(s, e) && CapOk(s)
    ensures CapOk(Queued(s, e))
  {
  }

  lemma CapKeptByJoin(s: State, j: JobId)
    requires Enabled(s, Join(j)) && CapOk(s)
    ensures CapOk(RecordJoin(s, j))
  {
    JoinShrinks(s, j);
  }

  lemma CapKeptByTask(s: State, j: JobId, m: TaskMove)
    requires TaskEnabled(s, j, m) && CapOk(s)
    ensures CapOk(TaskMoved(s, j, m))
  {
    TaskMoveKeepsCount(s, j, m);
  }

  lemma CapKept(s: State, e: Event)
    requires Enabled(s, e) && CapOk(s)
    ensures CapOk(Apply(s, e))
  {
    match e
    case Cancel =>
    case Task(j, m) => CapKeptByTask(s, j, m);
    case Steering(d) => CapKeptBySteer(s, d);
    case Spawn(_) =>
    case Join(j) => CapKeptByJoin(s, j);
    case CancelJob(_, _) =>
    case _ => CapKeptByQueue(s, e);
  }

  lemma StepKeepsInv(s: State, e: Event, total: multiset<ConnId>)
    requires Enabled(s, e) && Inv(s, total)
    ensures Inv(Apply(s, e), total)
  {
    SingleIsNew(s);
    SingleKept(s, e);
    LedgerKept(s, e);
    LinkedKept(s, e);
    StatusesKept(s, e);
    CapKept(s, e);
  }

  lemma SoundKept(s: State, e: Event)
    requires Enabled(s, e) && Sound(s)
    ensures Sound(Apply(s, e))
  {
    JobsKnownKept(s, e);
    CapKept(s, e);
    CrashesKept(s, e);
    RecordsKept(s, e);
  }

  lemma {:induction false} RunStaysSound(s: State, es: seq<Event>)
    requires Sound(s) && Feasible(s, es)
    ensures Sound(RunAll(s, es))
    decreases |es|
  {
    if es != [] {
      SoundKept(s, es[0]);
      RunStaysSound(Apply(s, es[0]), es[1..]);
    }
  }

  lemma {:induction false} RunKeepsInv(s: State, es: seq<Event>, total: multiset<ConnId>)
    requires Inv(s, total) && Feasible(s, es)
    ensures Inv(RunAll(s, es), total)
    decreases |es|
  {
    if es != [] {
      StepKeepsInv(s, es[0], total);
      RunKeepsInv(Apply(s, es[0]), es[1..], total);
    }
  }

  /** A tick about to enter its loop. */
  predicate Fresh(s: State) {
    s == Init(s.cap, s.queue, s.results, s.cancelled, s.clock)
  }

  predicate Distinct(queue: seq<ConnId>) {
    forall i, j :: 0 <= i < j < |queue| ==> queue[i] != queue[j]
  }

  lemma {:induction false} DistinctOnce(queue: seq<ConnId>, c: ConnId)
    requires Distinct(queue)
    ensures multiset(queue)[c] <= 1
  {
    if queue != [] {
      DistinctOnce(queue[1..], c);
      assert queue == [queue[0]] + queue[1..];
      if queue[0] == c { assert c !in queue[1..]; }
    }
  }

  /** Where everybody is at the start. */
  function Total(s: State): multiset<ConnId> {
    multiset(s.queue) + multiset(Conns(s.results))
  }

  lemma StartInv(s: State)
    requires Fresh(s) && Distinct(s.queue)
    ensures Inv(s, Total(s))
  {
    assert Ahead(s) == multiset(s.queue);
    assert Behind(s) == multiset(Conns(s.results));
    forall c ensures Live(s)[c] <= 1 { DistinctOnce(s.queue, c); }
  }

  // ----- what every interleaving guarantees -----

  /** The record is closed: a settled status and a completion time not before the other times. */
  predicate Closed(job: Jobs.Job) {
    && Jobs.Settled(job.status) && job.completedAt.Some? && job.createdAt <= job.completedAt.value
    && (job.startedAt.Some? ==> job.startedAt.value <= job.completedAt.value)
  }

  /**
   A tick over a queue without repeats that ends in drain closes the record of every job it created,
   in every interleaving of task progress, panics, cancellation, deadline and aborts, unless
   the store lost one of that job's own writes.
   */
  lemma DrainSettlesEveryJob(s: State, es: seq<Event>)
    requires Fresh(s) && Distinct(s.queue) && Feasible(s, es)
    requires var f := RunAll(s, es); f.pc.Finished? && f.draining
    ensures var f := RunAll(s, es); forall j :: j in f.jobs && j !in f.faulted ==> Closed(f.jobs[j].job)
  {
    StartInv(s);
    RunKeepsInv(s, es, Total(s));
    RunStaysSound(s, es);
    var f := RunAll(s, es);
    forall j | j in f.jobs && j !in f.faulted ensures Closed(f.jobs[j].job) {
      assert StatusOk(f, j);
    }
  }

  /** Some step of the run is a panic of job `j`'s task before its final write. */
  predicate PanicsAtWork(s: State, es: seq<Event>, j: JobId)
    requires Feasible(s, es)
    decreases |es|
  {
    es != [] && ((es[0] == Task(j, Panic) && s.tasks[j].Working?) || PanicsAtWork(Apply(s, es[0]), es[1..], j))
  }

  lemma {:induction false} CrashedIffPanics(s: State, es: seq<Event>, j: JobId)
    requires Feasible(s, es)
    ensures j in RunAll(s, es).crashed <==> j in s.crashed || PanicsAtWork(s, es, j)
    decreases |es|
  {
    if es != [] {
      CrashStep(s, es[0], j);
      CrashedIffPanics(Apply(s, es[0]), es[1..], j);
    }
  }

  lemma CrashStep(s: State, e: Event, j: JobId)
    requires Enabled(s, e)
    ensures j in Apply(s, e).crashed <==> j in s.crashed || (e == Task(j, Panic) && s.tasks[j].Working?)
  {
    if !e.Task? { OnlyTasksCrash(s, e); }
  }

  lemma OnlyTasksCrash(s: State, e: Event)
    requires Enabled(s, e) && !e.Task?
    ensures Apply(s, e).crashed == s.crashed
  {
  }

  /**
   Without a drain, exactly, and whatever the queue holds: a job whose writes were all kept is left
   unsettled if and only if its task panicked before its final write; then it stays Running.
   */
  lemma UndrainedJobUnsettledIff(s: State, es: seq<Event>, j: JobId)
    requires Fresh(s) && Feasible(s, es)
    requires var f := RunAll(s, es); f.pc.Finished? && !f.draining && j in f.jobs && j !in f.faulted
    ensures var f := RunAll(s, es);
            && (!Closed(f.jobs[j].job) <==> PanicsAtWork(s, es, j))
            && (PanicsAtWork(s, es, j) ==> f.jobs[j].job.status.Running?)
  {
    RunStaysSound(s, es);
    CrashedIffPanics(s, es, j);
    var f := RunAll(s, es);
    NoTasksAtEnd(s, es);
    assert WorkOk(f, j);
  }

  lemma {:induction false} NoTasksAtEnd(s: State, es: seq<Event>)
    requires Feasible(s, es) && (s.pc.Finishing? || s.pc.Finished? ==> s.tasks == map[])
    ensures var f := RunAll(s, es); f.pc.Finishing? || f.pc.Finished? ==> f.tasks == map[]
    decreases |es|
  {
    if es != [] { NoTasksAtEnd(Apply(s, es[0]), es[1..]); }
  }

  lemma {:induction false} RunConcat(s: State, es: seq<Event>, more: seq<Event>)
    requires Feasible(s, es) && Feasible(RunAll(s, es), more)
    ensures Feasible(s, es + more) && RunAll(s, es + more) == RunAll(RunAll(s, es), more)
    decreases |es|
  {
    if es == [] {
      assert es + more == more;
    } else {
      RunConcat(Apply(s, es[0]), es[1..], more);
      assert (es + more)[1..] == es[1..] + more;
    }
  }

  lemma OneStep(s: State, e: Event)
    requires Enabled(s, e)
    ensures Feasible(s, [e]) && RunAll(s, [e]) == Apply(s, e)
  {
    assert [e][1..] == [];
    assert Feasible(Apply(s, e), []);
  }

  lemma CompletedKept(s: State, e: Event, j: JobId)
    requires Enabled(s, e) && j in s.jobs && s.jobs[j].job.status.Completed?
    ensures j in Apply(s, e).jobs && Apply(s, e).jobs[j] == s.jobs[j]
  {
  }

  /** A completed job stays completed, whatever happens to its task afterwards. */
  lemma {:induction false} CompletedStaysCompleted(s: State, es: seq<Event>, j: JobId)
    requires Feasible(s, es) && j in s.jobs && s.jobs[j].job.status.Completed?
    ensures var f := RunAll(s, es); j in f.jobs && f.jobs[j] == s.jobs[j]
    decreases |es|
  {
    if es != [] {
      CompletedKept(s, es[0], j);
      CompletedStaysCompleted(Apply(s, es[0]), es[1..], j);
    }
  }

  /** No job is created once draining has started. */
  lemma {:induction false} NoJobWhileDraining(s: State, es: seq<Event>)
    requires CapOk(s) && s.draining && Feasible(s, es)
    ensures RunAll(s, es).draining && RunAll(s, es).jobs.Keys == s.jobs.Keys
    decreases |es|
  {
    if es != [] {
      CapKept(s, es[0]);
      assert Apply(s, es[0]).jobs.Keys == s.jobs.Keys;
      NoJobWhileDraining(Apply(s, es[0]), es[1..]);
    }
  }

  function Upcoming(s: State): nat {
    if s.pc.Creating? then 1 else 0
  }

  /** After the token is cancelled at most one more job appears: the one already being created. */
  lemma {:induction false} AtMostOneJobAfterCancel(s: State, es: seq<Event>)
    requires s.cancelled && Feasible(s, es)
    ensures |RunAll(s, es).jobs| <= |s.jobs| + Upcoming(s)
    decreases |es|
  {
    if es != [] {
      AfterCancelStep(s, es[0]);
      AtMostOneJobAfterCancel(Apply(s, es[0]), es[1..]);
    }
  }

  lemma UnionSize(a: set<JobId>, b: set<JobId>)
    ensures |a + b| <= |a| + |b|
  {
    assert a + b == a + (b - a);
    assert b == (b - a) + (b * a);
  }

  lemma UpcomingStep(s: State, e: Event)
    requires Enabled(s, e) && s.cancelled
    ensures Apply(s, e).cancelled && Upcoming(Apply(s, e)) + |Created(e)| <= Upcoming(s)
  {
    if e.Steering? { assert !Steered(s, e.steer).pc.Creating?; }
  }

  lemma AfterCancelStep(s: State, e: Event)
    requires Enabled(s, e) && s.cancelled
    ensures Apply(s, e).cancelled && |Apply(s, e).jobs| + Upcoming(Apply(s, e)) <= |s.jobs| + Upcoming(s)
  {
    JobsGrow(s, e);
    UnionSize(s.jobs.Keys, Created(e));
    UpcomingStep(s, e);
    assert |Apply(s, e).jobs| == |Apply(s, e).jobs.Keys| && |s.jobs| == |s.jobs.Keys|;
  }

  lemma MoveKeepsKeys(jobs: map<JobId, Row>, j: JobId, c: Jobs.Change, stored: bool)
    ensures Move(jobs, j, c, stored).Keys == jobs.Keys
  {
  }

  lemma TasksKeepJobs(s: State, j: JobId, m: TaskMove)
    requires TaskEnabled(s, j, m)
    ensures TaskMoved(s, j, m).jobs.Keys == s.jobs.Keys
  {
    if m.Write? { MoveKeepsKeys(s.jobs, j, FinalChange(m.ok, m.why, m.w.now), m.w.stored); }
  }

  lemma SteeringKeepsJobs(s: State, d: Steer)
    ensures Steered(s, d).jobs == s.jobs && Steered(s, d).clock == s.clock
  {
  }

  /** The jobs that a step adds to the table. */
  function Created(e: Event): set<JobId> {
    match e
    case Create(j, _) => {j}
    case CreateFails(Some(j), _) => {j}
    case _ => {}
  }

  lemma QueueGrowsJobs(s: State, e: Event)
    requires QueueEnabled(s, e)
    ensures Queued(s, e).jobs.Keys == s.jobs.Keys + Created(e)
  {
  }

  lemma JobsGrow(s: State, e: Event)
    requires Enabled(s, e)
    ensures Apply(s, e).jobs.Keys == s.jobs.Keys + Created(e)
  {
    match e
    case Cancel =>
    case Task(j, m) => TasksKeepJobs(s, j, m);
    case Steering(d) => SteeringKeepsJobs(s, d);
    case Spawn(w) => MoveKeepsKeys(s.jobs, s.pc.job, Jobs.Change(Jobs.Running, None, w.now), w.stored);
    case Join(_) =>
    case CancelJob(c, w) => MoveKeepsKeys(s.jobs, s.pc.left[c], Jobs.Change(Jobs.Cancelled, Some(ABORT_ERROR), w.now), w.stored);
    case _ => QueueGrowsJobs(s, e);
  }

  /** A paused tick (cap 0) creates no job at all. */
  lemma {:induction false} PauseCreatesNoJob(s: State, es: seq<Event>)
    requires CapOk(s) && s.cap == 0 && s.jobs == map[] && Feasible(s, es)
    ensures RunAll(s, es).jobs == map[]
    decreases |es|
  {
    if es != [] {
      CapKept(s, es[0]);
      JobsGrow(s, es[0]);
      PauseCreatesNoJob(Apply(s, es[0]), es[1..]);
    }
  }

  /**
   Accounting: in every state of every run over a queue without repeats, every connector of the start
   is in exactly one place — it has one result, or is counted as failed, or got no job, or is
   listed in flight, or waits in the queue. When the tick is over, what is still listed in
   flight is there because its task panicked or was aborted, and what still waits was
   never dispatched because the tick drained (or its cap is 0). While it runs, live tasks
   never exceed the cap.
   */
  lemma EveryConnectorAccountedOnce(s: State, es: seq<Event>)
    requires Fresh(s) && Distinct(s.queue) && Feasible(s, es)
    ensures var f := RunAll(s, es);
            && |f.tasks| <= f.cap
            && Ledger(f) == Total(s)
            && (f.pc.Finished? ==>
                  && f.tasks == map[]
                  && (!f.draining && f.cap > 0 ==> f.queue == [])
                  && (forall c :: c in f.inflight ==> f.inflight[c] in f.lost))
            && (f.lost == {} ==> f.inflight.Values == f.tasks.Keys)
  {
    StartInv(s);
    RunKeepsInv(s, es, Total(s));
    var f := RunAll(s, es);
    if f.lost == {} {
      forall j | j in f.tasks ensures j in f.inflight.Values {
        assert f.inflight[f.tasks[j].conn] == j;
      }
    }
  }

  // ----- termination -----

  function Unended(tasks: map<JobId, Task>): set<JobId> {
    set j | j in tasks && !tasks[j].Ended?
  }

  function Busy(tasks: map<JobId, Task>): set<JobId> {
    set j | j in tasks && tasks[j].Working?
  }

  function TaskRank(tasks: map<JobId, Task>): nat {
    3 * |tasks| + |Unended(tasks)| + |Busy(tasks)|
  }

  lemma TaskRankAdds(tasks: map<JobId, Task>, j: JobId, c: ConnId)
    requires j !in tasks
    ensures TaskRank(tasks[j := Working(c)]) == TaskRank(tasks) + 5
  {
    var after := tasks[j := Working(c)];
    assert Busy(after) == Busy(tasks) + {j};
    assert Unended(after) == Unended(tasks) + {j};
  }

  lemma TaskRankRemoves(tasks: map<JobId, Task>, j: JobId)
    requires j in tasks && tasks[j].Ended?
    ensures TaskRank(tasks - {j}) == TaskRank(tasks) - 3
  {
    var after := tasks - {j};
    assert after.Keys == tasks.Keys - {j};
    assert Busy(after) == Busy(tasks);
    assert Unended(after) == Unended(tasks);
  }

  function PcRank(s: State): nat {
    match s.pc
    case Finished => 0
    case Finishing(left) => 1 + |left|
    case Aborting => 2 + 2 * |s.inflight|
    case Waiting => 3 + 2 * |s.inflight|
    case Dispatching => 4 + 2 * |s.inflight|
    case Starting(_, _) => 12 + 2 * |s.inflight|
    case Creating(_) => 13 + 2 * |s.inflight|
  }

  /** Every event lowers this number. */
  function Rank(s: State): nat {
    10 * |s.queue| + PcRank(s) + TaskRank(s.tasks) + (if s.cancelled then 0 else 1) + (if s.draining then 0 else 4)
  }

  lemma BusyAfter(s: State, j: JobId, m: TaskMove)
    requires TaskEnabled(s, j, m)
    ensures Busy(TaskMoved(s, j, m).tasks) == Busy(s.tasks) - {j}
  {
  }

  lemma UnendedAfter(s: State, j: JobId, m: TaskMove)
    requires TaskEnabled(s, j, m)
    ensures Unended(TaskMoved(s, j, m).tasks) == if m.Write? then Unended(s.tasks) else Unended(s.tasks) - {j}
  {
  }

  lemma TaskMoveLowers(s: State, j: JobId, m: TaskMove)
    requires TaskEnabled(s, j, m)
    ensures TaskRank(TaskMoved(s, j, m).tasks) < TaskRank(s.tasks)
  {
    TaskMoveKeepsCount(s, j, m);
    BusyAfter(s, j, m);
    UnendedAfter(s, j, m);
    assert m.Write? ==> j in Busy(s.tasks);
    assert !m.Write? ==> j in Unended(s.tasks);
  }

  lemma SpawnLowers(s: State, w: Stamp)
    requires s.pc.Starting? && s.pc.job !in s.tasks
    ensures Rank(Spawned(s, w)) < Rank(s)
  {
    TaskRankAdds(s.tasks, s.pc.job, s.pc.conn);
  }

  lemma MapShrinks(m: map<ConnId, JobId>, c: ConnId)
    ensures |m - {c}| <= |m|
  {
    assert (m - {c}).Keys == m.Keys - {c};
  }

  lemma JoinUnlists(s: State, j: JobId)
    requires Enabled(s, Join(j))
    ensures |RecordJoin(s, j).inflight| <= |s.inflight|
  {
    MapShrinks(s.inflight, s.tasks[j].conn);
  }

  lemma JoinLowers(s: State, j: JobId)
    requires Enabled(s, Join(j))
    ensures Rank(RecordJoin(s, j)) < Rank(s)
  {
    var s' := RecordJoin(s, j);
    JoinUnlists(s, j);
    assert PcRank(s') <= PcRank(s) + 1;
    assert TaskRank(s'.tasks) == TaskRank(s.tasks) - 3 by { TaskRankRemoves(s.tasks, j); }
    assert s'.queue == s.queue && s'.draining == s.draining && s'.cancelled == s.cancelled;
  }

  lemma ShrinksBy(m: map<ConnId, JobId>, c: ConnId)
    requires c in m
    ensures |m - {c}| < |m|
  {
    assert (m - {c}).Keys == m.Keys - {c};
  }

  lemma RepairLowers(s: State, c: ConnId, w: Stamp)
    requires s.pc.Finishing? && c in s.pc.left
    ensures PcRank(JobCancelled(s, c, w)) < PcRank(s)
  {
    assert (s.pc.left - {c}).Keys == s.pc.left.Keys - {c};
  }

  lemma SteerLowers(s: State, d: Steer)
    requires SteerEnabled(s, d)
    ensures Rank(Steered(s, d)) < Rank(s)
  {
  }

  lemma QueueLowers(s: State, e: Event)
    requires QueueEnabled(s, e)
    ensures Rank(Queued(s, e)) < Rank(s)
  {
  }

  lemma StepLowersRank(s: State, e: Event)
    requires Enabled(s, e) && JobsKnown(s)
    ensures Rank(Apply(s, e)) < Rank(s)
  {
    match e
    case Cancel =>
    case Task(j, m) => TaskMoveLowers(s, j, m);
    case Steering(d) => SteerLowers(s, d);
    case Spawn(w) => SpawnLowers(s, w);
    case Join(j) => JoinLowers(s, j);
    case CancelJob(c, w) => RepairLowers(s, c, w);
    case _ => QueueLowers(s, e);
  }

  /** Tasks and in-flight entries belong to known jobs, and a job being started has no task yet. */
  predicate JobsKnown(s: State) {
    && s.tasks.Keys <= s.jobs.Keys
    && (forall c :: c in s.inflight ==> s.inflight[c] in s.jobs)
    && (s.pc.Starting? ==> s.pc.job in s.jobs && s.pc.job !in s.tasks)
  }

  lemma JobsKnownKeptByTask(s: State, j: JobId, m: TaskMove)
    requires TaskEnabled(s, j, m) && JobsKnown(s)
    ensures JobsKnown(TaskMoved(s, j, m))
  {
  }

  lemma JobsKnownKeptBySteer(s: State, d: Steer)
    requires SteerEnabled(s, d) && JobsKnown(s)
    ensures JobsKnown(Steered(s, d))
  {
  }

  lemma JobsKnownKeptBySpawn(s: State, w: Stamp)
    requires s.pc.Starting? && JobsKnown(s)
    ensures JobsKnown(Spawned(s, w))
  {
  }

  lemma JobsKnownKeptByQueue(s: State, e: Event)
    requires QueueEnabled(s, e) && JobsKnown(s)
    ensures JobsKnown(Queued(s, e))
  {
  }

  lemma JobsKnownKeptByJoin(s: State, j: JobId)
    requires Enabled(s, Join(j)) && JobsKnown(s)
    ensures JobsKnown(RecordJoin(s, j))
  {
  }

  lemma JobsKnownKept(s: State, e: Event)
    requires Enabled(s, e) && JobsKnown(s)
    ensures JobsKnown(Apply(s, e))
  {
    match e
    case Cancel =>
    case Task(j, m) => JobsKnownKeptByTask(s, j, m);
    case Steering(d) => JobsKnownKeptBySteer(s, d);
    case Spawn(w) => JobsKnownKeptBySpawn(s, w);
    case Join(j) => JobsKnownKeptByJoin(s, j);
    case CancelJob(_, _) =>
    case _ => JobsKnownKeptByQueue(s, e);
  }

  /** Every run is finite, repeats in the queue or not: no more events than the rank of its first state. */
  lemma {:induction false} RunsAreFinite(s: State, es: seq<Event>)
    requires JobsKnown(s) && Feasible(s, es)
    ensures |es| + Rank(RunAll(s, es)) <= Rank(s)
    decreases |es|
  {
    if es != [] {
      JobsKnownKept(s, es[0]);
      StepLowersRank(s, es[0]);
      RunsAreFinite(Apply(s, es[0]), es[1..]);
    }
  }

  /** The step is no write that the store loses and no creation that it reports as failed. */
  predicate KeepsWrites(e: Event) {
    && !e.CreateFails? && (e.Spawn? || e.CancelJob? ==> e.w.stored)
    && (e.Task? && e.move.Write? ==> e.move.w.stored)
  }

  /** What the loop itself does next when it waits for no task. */
  lemma LoopStep(s: State) returns (e: Event)
    requires !s.pc.Finished? && !s.pc.Waiting? && !s.pc.Aborting?
    ensures Enabled(s, e) && KeepsWrites(e) && !e.Cancel? && !e.Task? && !e.Join? && e != Steering(Deadline)
  {
    match s.pc
    case Dispatching =>
      if !MayDispatch(s) { e := Steering(StopDispatching); }
      else if s.cancelled { e := Steering(DrainBeforeDispatch); }
      else if s.queue == [] { e := Steering(StopDispatching); }
      else { e := Pop; }
    case Creating(_) =>
      var j := FreshNat(s.jobs.Keys);
      e := Create(j, s.clock);
    case Starting(_, _) => e := Spawn(Stamp(true, s.clock));
    case Finishing(left) =>
      if left == map[] { e := Steering(Close); } else { var c :| c in left; e := CancelJob(c, Stamp(true, s.clock)); }
  }

  /** A tick that is not over can always take another step, and one that loses no write. */
  lemma NeverStuck(s: State) returns (e: Event)
    requires !s.pc.Finished?
    ensures Enabled(s, e) && KeepsWrites(e) && !e.Cancel?
  {
    if s.pc.Waiting? || s.pc.Aborting? {
      if s.tasks == map[] { e := Steering(SetEmpty); }
      else {
        var j :| j in s.tasks;
        e := match s.tasks[j]
          case Working(_) => Task(j, Write(true, "", Stamp(true, s.clock)))
          case Written(_, _) => Task(j, Return)
          case Ended(_, _) => Join(j);
      }
    } else {
      e := LoopStep(s);
    }
  }

  /** So every tick ends: a run that cannot be extended has finished. */
  lemma EveryTickEnds(s: State, es: seq<Event>)
    requires Fresh(s) && Feasible(s, es)
    ensures |es| <= Rank(s)
    ensures (forall e :: !Enabled(RunAll(s, es), e)) ==> RunAll(s, es).pc.Finished?
  {
    RunsAreFinite(s, es);
    if !RunAll(s, es).pc.Finished? {
      var e := NeverStuck(RunAll(s, es));
    }
  }

  // ----- the repair loop as written -----

  function CancelledRow(row: Row, now: int): Row {
    row.(job := Jobs.Changed(row.job, Jobs.Change(Jobs.Cancelled, Some(ABORT_ERROR), now)))
  }

  /** A kept write of the repair reaches job `j`. */
  predicate Reached(left: map<ConnId, JobId>, lost: set<ConnId>, j: JobId) {
    exists c :: c in left && c !in lost && left[c] == j
  }

  /** The table when only the connectors `left` are still to be walked. */
  ghost predicate Repaired(s: State, lost: set<ConnId>, now: int, left: map<ConnId, JobId>, jobs: map<JobId, Row>)
    requires s.pc.Finishing?
  {
    && left.Keys <= s.pc.left.Keys && (forall c :: c in left ==> left[c] == s.pc.left[c])
    && jobs.Keys == s.jobs.Keys
    && (forall j :: j in jobs ==>
          jobs[j] == s.jobs[j] || (Reached(s.pc.left, lost, j) && jobs[j] == CancelledRow(s.jobs[j], now)))
    && (forall c :: c in s.pc.left && c !in left && c !in lost && s.pc.left[c] in jobs ==>
          jobs[s.pc.left[c]] == CancelledRow(s.jobs[s.pc.left[c]], now))
  }

  lemma RepairTurn(s: State, lost: set<ConnId>, now: int, left: map<ConnId, JobId>, jobs: map<JobId, Row>,
                   c: ConnId, kept: bool, after: map<JobId, Row>)
    requires s.pc.Finishing? && Repaired(s, lost, now, left, jobs) && c in left && kept == (c !in lost)
    requires after == Move(jobs, left[c], Jobs.Change(Jobs.Cancelled, Some(ABORT_ERROR), now), kept)
    ensures Repaired(s, lost, now, left - {c}, after)
  {
    assert c !in lost ==> Reached(s.pc.left, lost, left[c]);
  }

  /** The protocol has taken the steps `es` and stands where the loop stands. */
  ghost predicate Walked(s: State, es: seq<Event>, lost: set<ConnId>, now: int, left: map<ConnId, JobId>,
                         jobs: map<JobId, Row>) {
    && Feasible(s, es)
    && (forall i :: 0 <= i < |es| ==> es[i].CancelJob? && es[i].w == Stamp(es[i].conn !in lost, now))
    && var at := RunAll(s, es);
       at.pc == Finishing(left) && at.jobs == jobs && at.clock <= now
  }

  lemma WalkTurn(s: State, es: seq<Event>, lost: set<ConnId>, now: int, left: map<ConnId, JobId>,
                 jobs: map<JobId, Row>, c: ConnId, kept: bool, after: map<JobId, Row>)
    requires Walked(s, es, lost, now, left, jobs) && c in left && kept == (c !in lost)
    requires after == Move(jobs, left[c], Jobs.Change(Jobs.Cancelled, Some(ABORT_ERROR), now), kept)
    ensures Walked(s, es + [CancelJob(c, Stamp(kept, now))], lost, now, left - {c}, after)
  {
    var e := CancelJob(c, Stamp(kept, now));
    OneStep(RunAll(s, es), e);
    RunConcat(s, es, [e]);
  }

  lemma RepairEnds(s: State, lost: set<ConnId>, now: int, jobs: map<JobId, Row>)
    requires s.pc.Finishing? && Repaired(s, lost, now, map[], jobs)
    ensures forall j :: j in s.jobs ==>
              jobs[j] == if Reached(s.pc.left, lost, j) then CancelledRow(s.jobs[j], now) else s.jobs[j]
  {
  }

  /**
   Cancels every listed job in the order in which the map is walked; a failed write is only logged,
   and the loop goes on. A job reached by a kept write ends Cancelled, or stays as it is if it
   was Completed or Cancelled; no other job changes. The effect is that of the `CancelJob`
   events `es` of the protocol.
   */
  method FinishAborted(s: State, lost: set<ConnId>, now: int) returns (jobs: map<JobId, Row>, ghost es: seq<Event>)
    requires s.pc.Finishing? && s.clock <= now
    ensures jobs.Keys == s.jobs.Keys
    ensures forall j :: j in s.jobs ==>
              jobs[j] == if Reached(s.pc.left, lost, j) then CancelledRow(s.jobs[j], now) else s.jobs[j]
    ensures forall j :: j in s.jobs && Reached(s.pc.left, lost, j) ==>
              jobs[j].job.status == if s.jobs[j].job.status.Completed? then Jobs.Completed else Jobs.Cancelled
    ensures Feasible(s, es) && RunAll(s, es).jobs == jobs && RunAll(s, es).pc == Finishing(map[])
    ensures forall i :: 0 <= i < |es| ==> es[i].CancelJob? && es[i].w == Stamp(es[i].conn !in lost, now)
  {
    jobs := s.jobs;
    es := [];
    var left := s.pc.left;
    while left != map[]
      invariant Repaired(s, lost, now, left, jobs) && Walked(s, es, lost, now, left, jobs)
      decreases |left|
    {
      var c :| c in left;
      var kept := c !in lost;
      var after := Move(jobs, left[c], Jobs.Change(Jobs.Cancelled, Some(ABORT_ERROR), now), kept);
      RepairTurn(s, lost, now, left, jobs, c, kept, after);
      WalkTurn(s, es, lost, now, left, jobs, c, kept, after);
      es := es + [CancelJob(c, Stamp(kept, now))];
      jobs := after;
      ShrinksBy(left, c);
      left := left - {c};
    }
    RepairEnds(s, lost, now, jobs);
  }
}
