/**
 What a tick reports about its jobs (crates/collector/src/runner.rs): a connector has a result exactly
 if its job completed, and is counted as failed exactly if its job failed.
 */
module TickBooks {
  import opened Prelude
  import Jobs
  import opened Tick

  /** The tick has reported that connector `c` ran; `n` results were there before the loop. */
  predicate ReportedRan(s: State, n: nat, c: ConnId) {
    exists i :: n <= i < |s.results| && s.results[i] == Entry(c, Ran)
  }

  predicate ReportedFailed(s: State, c: ConnId) {
    c in s.collectFailed
  }

  predicate OnBooks(s: State, n: nat, c: ConnId) {
    ReportedRan(s, n, c) || ReportedFailed(s, c)
  }

  /** Job `j` has a task that was not joined, or joined in vain. */
  predicate Pending(s: State, j: JobId) {
    j in s.tasks || j in s.lost || (s.pc.Starting? && s.pc.job == j)
  }

  /** Every connector gets at most one job. */
  predicate OneJobEach(s: State) {
    && (forall j, k :: j in s.jobs && k in s.jobs && j != k ==> s.jobs[j].conn != s.jobs[k].conn)
    && (forall j :: j in s.jobs ==> s.jobs[j].conn !in s.queue)
    && (s.pc.Creating? ==> forall j :: j in s.jobs ==> s.jobs[j].conn != s.pc.conn)
  }

  /** Nobody is reported before the join. */
  predicate NothingEarly(s: State, n: nat) {
    && n <= |s.results|
    && (forall c :: c in s.queue ==> !OnBooks(s, n, c))
    && (s.pc.Creating? ==> !OnBooks(s, n, s.pc.conn))
    && (forall j :: j in s.jobs && Pending(s, j) ==> !OnBooks(s, n, s.jobs[j].conn))
  }

  ghost predicate BooksInv(s: State, total: multiset<ConnId>, n: nat) {
    Inv(s, total) && JobsKnown(s) && OneJobEach(s) && NothingEarly(s, n)
  }

  /** What the books say about job `j`, whose task has written a success (`ran`) or a failure (`failed`). */
  predicate BookOk(s: State, n: nat, j: JobId, ran: bool, failed: bool) {
    if j !in s.jobs then !ran && !failed
    else if s.pc.Starting? && s.pc.job == j then !ran && !failed
    else if j in s.tasks then TaskSays(s.tasks[j], ran, failed)
    else if j in s.lost then true
    else (ReportedRan(s, n, s.jobs[j].conn) <==> ran) && (ReportedFailed(s, s.jobs[j].conn) <==> failed)
  }

  predicate TaskSays(t: Task, ran: bool, failed: bool) {
    match t
    case Working(_) => !ran && !failed
    case Written(_, ok) => ran == ok && failed == !ok
    case Ended(_, Collected) => ran && !failed
    case Ended(_, CollectFailed) => failed && !ran
    case Ended(_, _) => true
  }

  /** The books that a step leaves alone. */
  lemma SameBooks(s: State, f: State, n: nat, c: ConnId)
    requires f.results == s.results && f.collectFailed == s.collectFailed
    ensures ReportedRan(f, n, c) <==> ReportedRan(s, n, c)
    ensures ReportedFailed(f, c) <==> ReportedFailed(s, c)
  {
  }

  lemma BooksFrame(s: State, e: Event)
    requires Enabled(s, e) && !e.Join?
    ensures Apply(s, e).results == s.results && Apply(s, e).collectFailed == s.collectFailed
    ensures Apply(s, e).lost == s.lost
  {
    if e.Steering? { SteersSpareBooks(s, e.steer); }
  }

  lemma SteersSpareBooks(s: State, d: Steer)
    ensures Steered(s, d).results == s.results && Steered(s, d).collectFailed == s.collectFailed
    ensures Steered(s, d).lost == s.lost && Steered(s, d).queue == s.queue && Steered(s, d).tasks == s.tasks
  {
  }

  /** A join reports its own connector and no other. */
  lemma JoinReports(s: State, j: JobId, n: nat, c: ConnId)
    requires Enabled(s, Join(j)) && n <= |s.results|
    ensures var f, t := RecordJoin(s, j), s.tasks[j];
            && (ReportedRan(f, n, c) <==> ReportedRan(s, n, c) || (c == t.conn && t.ending.Collected?))
            && (ReportedFailed(f, c) <==> ReportedFailed(s, c) || (c == t.conn && t.ending.CollectFailed?))
  {
    var f, t := RecordJoin(s, j), s.tasks[j];
    if ReportedRan(s, n, c) {
      var i :| n <= i < |s.results| && s.results[i] == Entry(c, Ran);
      assert f.results[i] == Entry(c, Ran);
    }
    if c == t.conn && t.ending.Collected? {
      assert f.results[|s.results|] == Entry(c, Ran);
    }
  }

  lemma RowsKeepConn(s: State, e: Event, j: JobId)
    requires Enabled(s, e) && j in s.jobs
    ensures j in Apply(s, e).jobs && Apply(s, e).jobs[j].conn == s.jobs[j].conn
  {
    if e.Steering? { SteeringKeepsJobs(s, e.steer); }
  }

  /** A new job belongs to the connector that was being created. */
  lemma NewRow(s: State, e: Event, j: JobId)
    requires Enabled(s, e) && j !in s.jobs && j in Apply(s, e).jobs
    ensures s.pc.Creating? && Apply(s, e).jobs[j].conn == s.pc.conn && Created(e) == {j}
  {
    JobsGrow(s, e);
  }

  lemma SingleFacts(s: State)
    requires Single(s)
    ensures Distinct(s.queue) && (s.pc.Creating? || s.pc.Starting? ==> s.pc.conn !in s.queue)
  {
    forall i, j | 0 <= i < j < |s.queue| ensures s.queue[i] != s.queue[j] {
      assert s.queue == s.queue[..i] + [s.queue[i]] + s.queue[i + 1..j] + [s.queue[j]] + s.queue[j + 1..];
      assert Live(s)[s.queue[i]] <= 1;
    }
    if s.pc.Creating? || s.pc.Starting? { assert Live(s)[s.pc.conn] <= 1; }
  }

  lemma QueueFrame(s: State, e: Event)
    requires Enabled(s, e)
    ensures Apply(s, e).queue == if e.Pop? then s.queue[1..] else s.queue
    ensures Apply(s, e).pc.Creating? ==> (e.Pop? && Apply(s, e).pc.conn == s.queue[0]) || Apply(s, e).pc == s.pc
  {
    if e.Steering? {
      SteersSpareBooks(s, e.steer);
      assert !Steered(s, e.steer).pc.Creating?;
    }
  }

  lemma OneJobKept(s: State, e: Event)
    requires Enabled(s, e) && OneJobEach(s) && Single(s)
    ensures OneJobEach(Apply(s, e))
  {
    var f := Apply(s, e);
    SingleFacts(s);
    QueueFrame(s, e);
    forall j | j in f.jobs ensures j in s.jobs ==> f.jobs[j].conn == s.jobs[j].conn {
      if j in s.jobs { RowsKeepConn(s, e, j); }
    }
    forall j | j in f.jobs && j !in s.jobs ensures s.pc.Creating? && f.jobs[j].conn == s.pc.conn && Created(e) == {j} {
      NewRow(s, e, j);
    }
    assert Created(e) != {} ==> !f.pc.Creating?;
  }

  lemma PendingBefore(s: State, e: Event, j: JobId)
    requires Enabled(s, e) && JobsKnown(s) && Pending(Apply(s, e), j)
    ensures Pending(s, j) || (s.pc.Creating? && e.Create? && j == e.job)
  {
    if e.Steering? { SteersSpareBooks(s, e.steer); }
  }

  lemma NothingEarlyKeptByJoin(s: State, j: JobId, n: nat)
    requires Enabled(s, Join(j)) && Linked(s) && OneJobEach(s) && NothingEarly(s, n)
    ensures NothingEarly(RecordJoin(s, j), n)
  {
    var f := RecordJoin(s, j);
    forall c ensures OnBooks(f, n, c) ==> OnBooks(s, n, c) || (c == s.tasks[j].conn && Unlists(s.tasks[j])) {
      JoinReports(s, j, n, c);
    }
    assert s.jobs[j].conn == s.tasks[j].conn;
    forall k | k in f.jobs && Pending(f, k) ensures !OnBooks(f, n, f.jobs[k].conn) {
      assert Pending(s, k);
    }
  }

  lemma NothingEarlyKept(s: State, e: Event, n: nat)
    requires Enabled(s, e) && Linked(s) && JobsKnown(s) && Single(s) && OneJobEach(s) && NothingEarly(s, n)
    ensures NothingEarly(Apply(s, e), n)
  {
    if e.Join? {
      NothingEarlyKeptByJoin(s, e.job, n);
    } else {
      var f := Apply(s, e);
      BooksFrame(s, e);
      QueueFrame(s, e);
      forall c ensures OnBooks(f, n, c) <==> OnBooks(s, n, c) { SameBooks(s, f, n, c); }
      forall j | j in f.jobs && Pending(f, j) ensures !OnBooks(f, n, f.jobs[j].conn) {
        PendingBefore(s, e, j);
        if j in s.jobs { RowsKeepConn(s, e, j); } else { NewRow(s, e, j); }
        assert j in s.jobs ==> Pending(s, j);
      }
    }
  }

  lemma StepKeepsBooks(s: State, e: Event, total: multiset<ConnId>, n: nat)
    requires Enabled(s, e) && BooksInv(s, total, n)
    ensures BooksInv(Apply(s, e), total, n)
  {
    StepKeepsInv(s, e, total);
    JobsKnownKept(s, e);
    OneJobKept(s, e);
    NothingEarlyKept(s, e, n);
  }

  // ----- one job through the run -----

  /** The step is the final write of job `j`, a success or a failure. */
  predicate Writes(e: Event, j: JobId, ok: bool) {
    e.Task? && e.job == j && e.move.Write? && e.move.ok == ok
  }

  predicate Wrote(es: seq<Event>, j: JobId, ok: bool) {
    es != [] && (Writes(es[0], j, ok) || Wrote(es[1..], j, ok))
  }

  lemma BookKeptByJoin(s: State, k: JobId, total: multiset<ConnId>, n: nat, j: JobId, ran: bool, failed: bool)
    requires Enabled(s, Join(k)) && BooksInv(s, total, n) && BookOk(s, n, j, ran, failed)
    ensures BookOk(RecordJoin(s, k), n, j, ran, failed)
  {
    if j in s.jobs {
      JoinReports(s, k, n, s.jobs[j].conn);
      assert s.jobs[k].conn == s.tasks[k].conn;
      assert j == k ==> Pending(s, j) && !OnBooks(s, n, s.jobs[j].conn);
    }
  }

  lemma BookKeptByTask(s: State, k: JobId, m: TaskMove, total: multiset<ConnId>, n: nat, j: JobId, ran: bool, failed: bool)
    requires TaskEnabled(s, k, m) && BooksInv(s, total, n) && BookOk(s, n, j, ran, failed)
    ensures BookOk(TaskMoved(s, k, m), n, j, ran || Writes(Task(k, m), j, true), failed || Writes(Task(k, m), j, false))
  {
    var f := TaskMoved(s, k, m);
    TasksKeepJobs(s, k, m);
    if j in s.jobs {
      RowsKeepConn(s, Task(k, m), j);
      SameBooks(s, f, n, s.jobs[j].conn);
    }
  }

  lemma BookKeptByLoop(s: State, e: Event, total: multiset<ConnId>, n: nat, j: JobId, ran: bool, failed: bool)
    requires Enabled(s, e) && !e.Join? && !e.Task? && BooksInv(s, total, n) && BookOk(s, n, j, ran, failed)
    ensures BookOk(Apply(s, e), n, j, ran, failed)
  {
    var f := Apply(s, e);
    BooksFrame(s, e);
    if j in s.jobs {
      RowsKeepConn(s, e, j);
      SameBooks(s, f, n, s.jobs[j].conn);
      if e.Steering? { SteersSpareBooks(s, e.steer); }
    } else if j in f.jobs {
      NewRow(s, e, j);
      SameBooks(s, f, n, s.pc.conn);
      assert !OnBooks(s, n, s.pc.conn);
    }
  }

  lemma BookKept(s: State, e: Event, total: multiset<ConnId>, n: nat, j: JobId, ran: bool, failed: bool)
    requires Enabled(s, e) && BooksInv(s, total, n) && BookOk(s, n, j, ran, failed)
    ensures BookOk(Apply(s, e), n, j, ran || Writes(e, j, true), failed || Writes(e, j, false))
  {
    match e
    case Join(k) => BookKeptByJoin(s, k, total, n, j, ran, failed);
    case Task(k, m) => BookKeptByTask(s, k, m, total, n, j, ran, failed);
    case _ => BookKeptByLoop(s, e, total, n, j, ran, failed);
  }

  lemma {:induction false} BooksRun(s: State, es: seq<Event>, total: multiset<ConnId>, n: nat, j: JobId, ran: bool, failed: bool)
    requires Feasible(s, es) && BooksInv(s, total, n) && BookOk(s, n, j, ran, failed)
    ensures BookOk(RunAll(s, es), n, j, ran || Wrote(es, j, true), failed || Wrote(es, j, false))
    decreases |es|
  {
    if es != [] {
      var e, s1 := es[0], Apply(s, es[0]);
      assert BooksInv(s1, total, n) by { StepKeepsBooks(s, e, total, n); }
      assert BookOk(s1, n, j, ran || Writes(e, j, true), failed || Writes(e, j, false)) by {
        BookKept(s, e, total, n, j, ran, failed);
      }
      BooksRun(s1, es[1..], total, n, j, ran || Writes(e, j, true), failed || Writes(e, j, false));
    }
  }

  lemma StartBooks(s: State)
    requires Fresh(s) && Distinct(s.queue)
    ensures BooksInv(s, Total(s), |s.results|)
  {
    StartInv(s);
  }

  /**
   The reports tell the truth, over every interleaving: once job `j` is created, is not being started and
   its task was joined, the tick has reported its connector as run exactly if the task wrote a
   success, and counted it as failed exactly if it wrote a failure.
   */
  lemma ReportsFollowWrites(s: State, es: seq<Event>, j: JobId)
    requires Fresh(s) && Distinct(s.queue) && Feasible(s, es)
    requires var f := RunAll(s, es); j in f.jobs && !Pending(f, j)
    ensures var f := RunAll(s, es); var c := f.jobs[j].conn;
            && (ReportedRan(f, |s.results|, c) <==> Wrote(es, j, true))
            && (c in f.collectFailed <==> Wrote(es, j, false))
  {
    StartBooks(s);
    BooksRun(s, es, Total(s), |s.results|, j, false, false);
  }

  // ----- the reports and the job table -----

  /** A joined job whose writes were kept has the status that is reported. */
  predicate StatusReported(s: State, n: nat, j: JobId)
    requires j in s.jobs
  {
    && (ReportedRan(s, n, s.jobs[j].conn) <==> s.jobs[j].job.status.Completed?)
    && (ReportedFailed(s, s.jobs[j].conn) <==> s.jobs[j].job.status.Failed?)
  }

  predicate TableOk(s: State, n: nat) {
    forall j :: j in s.jobs && !Pending(s, j) && j !in s.faulted ==> StatusReported(s, n, j)
  }

  lemma TableKeptByJoin(s: State, k: JobId, total: multiset<ConnId>, n: nat)
    requires Enabled(s, Join(k)) && BooksInv(s, total, n) && TableOk(s, n)
    ensures TableOk(RecordJoin(s, k), n)
  {
    var f := RecordJoin(s, k);
    forall j | j in f.jobs && !Pending(f, j) && j !in f.faulted ensures StatusReported(f, n, j) {
      JoinReports(s, k, n, s.jobs[j].conn);
      assert s.jobs[k].conn == s.tasks[k].conn;
      assert j == k ==> Pending(s, j) && !OnBooks(s, n, s.jobs[j].conn) && StatusOk(s, j);
      assert j != k ==> !Pending(s, j) && StatusReported(s, n, j);
    }
  }

  /** Only jobs that are pending are ever written to. */
  lemma SettledRowsKept(s: State, e: Event, j: JobId)
    requires Enabled(s, e) && Linked(s) && j in s.jobs && !Pending(s, j)
    ensures Apply(s, e).jobs[j] == s.jobs[j]
  {
    if e.Steering? { SteeringKeepsJobs(s, e.steer); }
  }

  lemma TableKept(s: State, e: Event, total: multiset<ConnId>, n: nat)
    requires Enabled(s, e) && BooksInv(s, total, n) && TableOk(s, n)
    ensures TableOk(Apply(s, e), n)
  {
    if e.Join? {
      TableKeptByJoin(s, e.job, total, n);
    } else {
      var f := Apply(s, e);
      BooksFrame(s, e);
      forall j | j in f.jobs && !Pending(f, j) && j !in f.faulted ensures StatusReported(f, n, j) {
        if j in s.jobs {
          assert !Pending(s, j) by { if Pending(s, j) { PendingAfter(s, e, j); } }
          SettledRowsKept(s, e, j);
          SameBooks(s, f, n, s.jobs[j].conn);
          if j in s.faulted { FaultsStay(s, e, j); }
        } else {
          NewRow(s, e, j);
        }
      }
    }
  }

  lemma FaultsStay(s: State, e: Event, j: JobId)
    requires Enabled(s, e) && j in s.faulted
    ensures j in Apply(s, e).faulted
  {
    if e.Steering? { assert Steered(s, e.steer).faulted == s.faulted; }
  }

  /** Only its join ends what is pending about a job. */
  lemma PendingAfter(s: State, e: Event, j: JobId)
    requires Enabled(s, e) && !e.Join? && Pending(s, j)
    ensures Pending(Apply(s, e), j)
  {
    if e.Steering? { SteersSpareBooks(s, e.steer); }
  }

  lemma {:induction false} TableRun(s: State, es: seq<Event>, total: multiset<ConnId>, n: nat)
    requires Feasible(s, es) && BooksInv(s, total, n) && TableOk(s, n)
    ensures TableOk(RunAll(s, es), n) && n <= |RunAll(s, es).results|
    decreases |es|
  {
    if es != [] {
      StepKeepsBooks(s, es[0], total, n);
      TableKept(s, es[0], total, n);
      TableRun(Apply(s, es[0]), es[1..], total, n);
    }
  }

  /**
   Reports and job table agree, over every interleaving: for a job whose task was joined and whose
   writes were kept, the tick has reported its connector as run if and only if the job is
   Completed, and counted it as failed if and only if the job is Failed.
   */
  lemma ReportsMatchJobs(s: State, es: seq<Event>, j: JobId)
    requires Fresh(s) && Distinct(s.queue) && Feasible(s, es)
    requires var f := RunAll(s, es); j in f.jobs && !Pending(f, j) && j !in f.faulted
    ensures var f := RunAll(s, es); var c, st := f.jobs[j].conn, f.jobs[j].job.status;
            && (ReportedRan(f, |s.results|, c) <==> st.Completed?)
            && (c in f.collectFailed <==> st.Failed?)
  {
    StartBooks(s);
    TableRun(s, es, Total(s), |s.results|);
  }

  // ----- why a record says what it says -----

  /** The step gives job `j` the record `job`, whose status, text and times come from the step. */
  predicate Explains(e: Event, j: JobId, job: Jobs.Job) {
    match job.status
    case Queued => Created(e) == {j} && job.error.None?
    case Running => e.Spawn? && job.startedAt == Some(e.w.now) && job.error.None?
    case Completed => Writes(e, j, true) && job.completedAt == Some(e.move.w.now) && job.error.None?
    case Failed => Writes(e, j, false) && job.completedAt == Some(e.move.w.now) && job.error == Some(e.move.why)
    case Cancelled => e.CancelJob? && job.completedAt == Some(e.w.now) && job.error == Some("collector 停止時中斷")
    case Retrying => false
  }

  predicate Explained(es: seq<Event>, j: JobId, job: Jobs.Job) {
    exists i :: 0 <= i < |es| && Explains(es[i], j, job)
  }

  /** No record of the tick has been started and queued again. */
  predicate QueuedUnstarted(s: State) {
    forall j :: j in s.jobs ==> !s.jobs[j].job.status.Retrying? && (s.jobs[j].job.status.Queued? ==> s.jobs[j].job.startedAt.None?)
  }

  lemma ChangedRowIsExplained(s: State, e: Event, j: JobId)
    requires Enabled(s, e) && QueuedUnstarted(s) && j in Apply(s, e).jobs
    ensures (j in s.jobs && Apply(s, e).jobs[j] == s.jobs[j]) || Explains(e, j, Apply(s, e).jobs[j].job)
  {
    if e.Steering? { SteeringKeepsJobs(s, e.steer); }
  }

  lemma QueuedUnstartedKept(s: State, e: Event)
    requires Enabled(s, e) && QueuedUnstarted(s)
    ensures QueuedUnstarted(Apply(s, e))
  {
    forall j | j in Apply(s, e).jobs
      ensures var job := Apply(s, e).jobs[j].job; !job.status.Retrying? && (job.status.Queued? ==> job.startedAt.None?)
    {
      ChangedRowIsExplained(s, e, j);
    }
  }

  lemma {:induction false} RowIsExplained(s: State, es: seq<Event>, j: JobId)
    requires Feasible(s, es) && QueuedUnstarted(s) && j in RunAll(s, es).jobs
    ensures (j in s.jobs && RunAll(s, es).jobs[j] == s.jobs[j]) || Explained(es, j, RunAll(s, es).jobs[j].job)
    decreases |es|
  {
    if es != [] {
      var s1, job := Apply(s, es[0]), RunAll(s, es).jobs[j].job;
      QueuedUnstartedKept(s, es[0]);
      RowIsExplained(s1, es[1..], j);
      if j in s1.jobs && s1.jobs[j] == RunAll(s, es).jobs[j] {
        ChangedRowIsExplained(s, es[0], j);
      } else {
        var i :| 0 <= i < |es[1..]| && Explains(es[1..][i], j, job);
        assert Explains(es[i + 1], j, job);
      }
    }
  }

  /**
   Every record has a cause in the run, and carries what the cause said: a failed job the text of its
   task's failure, a cancelled one the text of the aborted shutdown, both and a completed one
   the time of that step, whatever the queue holds and whichever writes were lost.
   */
  lemma EveryRecordHasCause(s: State, es: seq<Event>, j: JobId)
    requires Fresh(s) && Feasible(s, es) && j in RunAll(s, es).jobs
    ensures Explained(es, j, RunAll(s, es).jobs[j].job)
  {
    RowIsExplained(s, es, j);
  }

  // ----- the order of dispatch -----

  /** Connectors are taken strictly in the fair order: what waits is always the end of the queue. */
  lemma {:induction false} DispatchInOrder(s: State, es: seq<Event>)
    requires Feasible(s, es) && !s.pc.Creating? && !s.pc.Starting?
    ensures var f := RunAll(s, es); var taken := |s.queue| - |f.queue|;
            && 0 <= taken && f.queue == s.queue[taken..]
            && (f.pc.Creating? ==> taken > 0 && f.pc.conn == s.queue[taken - 1])
            && (f.pc.Starting? ==> taken > 0 && f.pc.conn == s.queue[taken - 1])
    decreases |es|
  {
    if es != [] {
      var n := |es| - 1;
      RunPrefix(s, es, n);
      DispatchInOrder(s, es[..n]);
      TakesFirst(RunAll(s, es[..n]), es[n]);
    }
  }

  lemma TakesFirst(s: State, e: Event)
    requires Enabled(s, e)
    ensures var f := Apply(s, e);
            && f.queue == (if e.Pop? then s.queue[1..] else s.queue)
            && (f.pc.Creating? ==> e.Pop? || f.pc == s.pc)
            && (e.Pop? ==> f.pc == Creating(s.queue[0]))
            && (f.pc.Starting? ==> f.pc == s.pc || (s.pc.Creating? && f.pc.conn == s.pc.conn))
  {
    QueueFrame(s, e);
    if e.Steering? { assert !Steered(s, e.steer).pc.Starting?; }
  }

  lemma {:induction false} RunPrefix(s: State, es: seq<Event>, n: nat)
    requires Feasible(s, es) && n < |es|
    ensures Feasible(s, es[..n]) && Enabled(RunAll(s, es[..n]), es[n])
    ensures n + 1 == |es| ==> RunAll(s, es) == Apply(RunAll(s, es[..n]), es[n])
    decreases n
  {
    if n > 0 {
      RunPrefix(Apply(s, es[0]), es[1..], n - 1);
      assert es[..n][1..] == es[1..][..n - 1];
    } else if |es| == 1 {
      assert es[1..] == [];
    }
  }

  // ----- nothing is cut short unasked -----

  /** Draining, aborting and cancelling all trace back to the cancellation token. */
  predicate OnlyIfCancelled(s: State) {
    && (s.draining ==> s.cancelled)
    && (s.pc.Aborting? || s.pc.Finishing? ==> s.draining)
    && (forall j :: j in s.tasks && s.tasks[j].Ended? && s.tasks[j].ending.Aborted? ==> s.draining)
    && (forall j :: j in s.jobs && s.jobs[j].job.status.Cancelled? ==> s.draining)
  }

  lemma OnlyIfCancelledBySteer(s: State, d: Steer)
    requires SteerEnabled(s, d) && OnlyIfCancelled(s)
    ensures OnlyIfCancelled(Steered(s, d))
  {
    SteersSpareBooks(s, d);
    SteeringKeepsJobs(s, d);
  }

  lemma OnlyIfCancelledByTask(s: State, j: JobId, m: TaskMove)
    requires TaskEnabled(s, j, m) && OnlyIfCancelled(s)
    ensures OnlyIfCancelled(TaskMoved(s, j, m))
  {
  }

  lemma OnlyIfCancelledKept(s: State, e: Event)
    requires Enabled(s, e) && OnlyIfCancelled(s)
    ensures OnlyIfCancelled(Apply(s, e))
  {
    match e
    case Task(j, m) => OnlyIfCancelledByTask(s, j, m);
    case Steering(d) => OnlyIfCancelledBySteer(s, d);
    case _ =>
  }

  lemma {:induction false} OnlyIfCancelledRun(s: State, es: seq<Event>)
    requires Feasible(s, es) && OnlyIfCancelled(s)
    ensures OnlyIfCancelled(RunAll(s, es))
    decreases |es|
  {
    if es != [] {
      OnlyIfCancelledKept(s, es[0]);
      OnlyIfCancelledRun(Apply(s, es[0]), es[1..]);
    }
  }

  /** Without a cancellation no tick drains, no task is aborted and no job is cancelled. */
  lemma NothingIsCutShort(s: State, es: seq<Event>)
    requires Fresh(s) && Feasible(s, es) && !RunAll(s, es).cancelled
    ensures var f := RunAll(s, es);
            && !f.draining
            && (forall j :: j in f.tasks && f.tasks[j].Ended? ==> !f.tasks[j].ending.Aborted?)
            && (forall j :: j in f.jobs ==> !f.jobs[j].job.status.Cancelled?)
  {
    OnlyIfCancelledRun(s, es);
  }
}
