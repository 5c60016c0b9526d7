/**
 The job state machine (crates/core-jobs): the transition relation, the in-place
 update of one job record, and the service that reads and rewrites the store.
 */
module Jobs {
  import opened Prelude

  datatype Status = Queued | Running | Completed | Failed | Retrying | Cancelled

  type JobId = nat

  /** Which status changes are allowed. */
  predicate CanTransition(from: Status, to: Status) {
    from != to &&
    match from
    case Queued => to.Running? || to.Cancelled?
    case Running => to.Completed? || to.Failed? || to.Retrying? || to.Cancelled?
    case Retrying => to.Running? || to.Failed? || to.Cancelled?
    case Failed => to.Retrying? || to.Cancelled?
    case Completed => false
    case Cancelled => false
  }

  /** The statuses in which no worker is supposed to be busy with the job. */
  predicate Settled(s: Status) {
    s.Completed? || s.Failed? || s.Cancelled?
  }

  datatype Job = Job(
    status: Status,
    createdAt: int,
    startedAt: Option<int>,
    completedAt: Option<int>,
    retryCount: nat,
    error: Option<string>)

  function NewJob(now: int): Job {
    Job(Queued, now, None, None, 0, None)
  }

  /** One requested change: the target status, the error text and the clock reading. */
  datatype Change = Change(to: Status, error: Option<string>, now: int)

  /** The record after a change; a refused change leaves it alone. */
  function Changed(job: Job, c: Change): Job {
    if !CanTransition(job.status, c.to) then job else
    job.(status := c.to,
         startedAt := if c.to.Running? && job.startedAt.None? then Some(c.now) else job.startedAt,
         completedAt := if Settled(c.to) then Some(c.now)
                        else if c.to.Retrying? then None else job.completedAt,
         retryCount := job.retryCount + if c.to.Retrying? then 1 else 0,
         error := if c.to.Failed? || c.to.Cancelled? then c.error
                  else if c.to.Completed? || c.to.Running? then None else job.error)
  }

  function Play(job: Job, cs: seq<Change>): Job
    decreases |cs|
  {
    if cs == [] then job else Play(Changed(job, cs[0]), cs[1..])
  }

  /** The changes of `cs` that are allowed when they are tried in order. */
  function Accepted(status: Status, cs: seq<Change>): seq<Change>
    decreases |cs|
  {
    if cs == [] then []
    else if CanTransition(status, cs[0].to) then [cs[0]] + Accepted(cs[0].to, cs[1..])
    else Accepted(status, cs[1..])
  }

  function EntriesTo(to: Status, cs: seq<Change>): nat {
    if cs == [] then 0 else (if cs[0].to == to then 1 else 0) + EntriesTo(to, cs[1..])
  }

  /** The clock reading of the first entry to `to`, if there is one. */
  function FirstEntry(to: Status, cs: seq<Change>): Option<int> {
    if cs == [] then None
    else if cs[0].to == to then Some(cs[0].now) else FirstEntry(to, cs[1..])
  }

  predicate ClockFrom(t: int, cs: seq<Change>)
    decreases |cs|
  {
    cs == [] || (t <= cs[0].now && ClockFrom(cs[0].now, cs[1..]))
  }

  /** What a record says about itself at time `t`. */
  predicate Consistent(j: Job, t: int) {
    && (j.completedAt.Some? <==> Settled(j.status))
    && (j.startedAt.None? ==> j.status.Queued? || j.status.Cancelled?)
    && (j.status.Queued? ==> j.startedAt.None?)
    && (j.error.Some? ==> j.status.Failed? || j.status.Cancelled? || j.status.Retrying?)
    && j.createdAt <= t
    && (j.startedAt.Some? ==> j.createdAt <= j.startedAt.value <= t)
    && (j.completedAt.Some? ==> j.createdAt <= j.completedAt.value <= t)
    && (j.startedAt.Some? && j.completedAt.Some? ==> j.startedAt.value <= j.completedAt.value)
  }

  lemma {:induction false} PlayKeeps(j: Job, t: int, cs: seq<Change>)
    requires Consistent(j, t) && ClockFrom(t, cs)
    ensures var k := Play(j, cs); var acc := Accepted(j.status, cs);
            && Consistent(k, if cs == [] then t else cs[|cs| - 1].now)
            && k.createdAt == j.createdAt
            && k.retryCount == j.retryCount + EntriesTo(Retrying, acc)
            && k.startedAt == (if j.startedAt.Some? then j.startedAt else FirstEntry(Running, acc))
            && k.status == (if acc == [] then j.status else acc[|acc| - 1].to)
    decreases |cs|
  {
    if cs != [] {
      var j1 := Changed(j, cs[0]);
      PlayKeeps(j1, cs[0].now, cs[1..]);
      var acc1 := Accepted(j1.status, cs[1..]);
      if CanTransition(j.status, cs[0].to) {
        var acc := Accepted(j.status, cs);
        assert acc == [cs[0]] + acc1 && acc[1..] == acc1;
      }
    }
  }

  /**
   The record tells the whole history: for every sequence of requested changes with a
   non-decreasing clock, `retryCount` counts the entries to Retrying, `startedAt` is the
   first entry to Running, `completedAt` is present exactly in the settled statuses, the
   three times are ordered, and an error text survives only in Failed, Cancelled or Retrying.
   */
  lemma {:induction false} RecordTellsHistory(created: int, cs: seq<Change>)
    requires ClockFrom(created, cs)
    ensures var j := Play(NewJob(created), cs); var acc := Accepted(Queued, cs);
            && Consistent(j, if cs == [] then created else cs[|cs| - 1].now)
            && j.createdAt == created
            && j.retryCount == EntriesTo(Retrying, acc)
            && j.startedAt == FirstEntry(Running, acc)
            && j.status == (if acc == [] then Queued else acc[|acc| - 1].to)
  {
    PlayKeeps(NewJob(created), created, cs);
  }

  /** The transition table, entry by entry. */
  lemma TransitionTable(from: Status, to: Status)
    ensures CanTransition(from, to) <==>
              (from, to) in {(Queued, Running), (Queued, Cancelled),
                             (Running, Completed), (Running, Failed), (Running, Retrying), (Running, Cancelled),
                             (Retrying, Running), (Retrying, Failed), (Retrying, Cancelled),
                             (Failed, Retrying), (Failed, Cancelled)}
  {
  }

  /**
   What the last accepted changes leave in a record: a failed or cancelled one carries the text of its
   last change and every settled one its time; a retrying one still carries the text of the
   failure it is retried for.
   */
  lemma {:induction false} LastChangeTells(j: Job, cs: seq<Change>)
    ensures var k := Play(j, cs); var acc := Accepted(j.status, cs); var n := |acc|;
            && (n == 0 ==> k == j)
            && (n > 0 && Settled(acc[n - 1].to) ==> k.completedAt == Some(acc[n - 1].now))
            && (n > 0 && (acc[n - 1].to.Failed? || acc[n - 1].to.Cancelled?) ==> k.error == acc[n - 1].error)
            && (n > 0 && (acc[n - 1].to.Running? || acc[n - 1].to.Completed?) ==> k.error == None)
            && (n == 1 && acc[0].to.Retrying? ==> k.error == j.error)
            && (n > 1 && acc[n - 1].to.Retrying? && acc[n - 2].to.Failed? ==> k.error == acc[n - 2].error)
            && (n > 1 && acc[n - 1].to.Retrying? && !acc[n - 2].to.Failed? ==> k.error == None)
    decreases |cs|
  {
    if cs != [] {
      var j1 := Changed(j, cs[0]);
      LastChangeTells(j1, cs[1..]);
      if CanTransition(j.status, cs[0].to) {
        var acc1 := Accepted(j1.status, cs[1..]);
        assert Accepted(j.status, cs) == [cs[0]] + acc1;
        if acc1 != [] { FirstAccepted(j1.status, cs[1..]); }
      }
    }
  }

  lemma {:induction false} FirstAccepted(status: Status, cs: seq<Change>)
    requires Accepted(status, cs) != []
    ensures CanTransition(status, Accepted(status, cs)[0].to)
    decreases |cs|
  {
    if !CanTransition(status, cs[0].to) { FirstAccepted(status, cs[1..]); }
  }

  /** A failed job can be retried, run again and completed. */
  lemma FailedCanComplete(j: Job, t: int)
    requires j.status.Failed?
    ensures var k := Play(j, [Change(Retrying, None, t), Change(Running, None, t), Change(Completed, None, t)]);
            && k.status.Completed? && k.completedAt == Some(t) && k.error == None
            && k.retryCount == j.retryCount + 1 && k.createdAt == j.createdAt
            && (j.startedAt.Some? ==> k.startedAt == j.startedAt)
  {
    var a, b, c := Change(Retrying, None, t), Change(Running, None, t), Change(Completed, None, t);
    var j2 := Changed(Changed(j, a), b);
    assert [a, b, c][1..] == [b, c] && [b, c][1..] == [c] && [c][1..] == [];
    assert Play(j2, [c]) == Changed(j2, c);
    assert Play(Changed(j, a), [b, c]) == Play(j2, [c]);
  }

  /** Completed and Cancelled are final, and they are the only final statuses. */
  lemma {:induction false} FinalStatuses(j: Job, cs: seq<Change>)
    ensures j.status.Completed? || j.status.Cancelled? ==> Play(j, cs) == j
    ensures !(j.status.Completed? || j.status.Cancelled?) ==>
              exists to :: CanTransition(j.status, to)
  {
    if j.status.Completed? || j.status.Cancelled? {
      if cs != [] { FinalStatuses(j, cs[1..]); }
    } else {
      assert CanTransition(j.status, Cancelled);
    }
  }

  // ----- several writers of one job -----

  /** A transition reads the record and writes it back later: `copies` are the records read by writers under way. */
  datatype Shared = Shared(job: Job, copies: map<nat, Job>)

  datatype Access = Read(writer: nat) | Put(writer: nat, change: Change)

  predicate AccessEnabled(s: Shared, a: Access) {
    a.Put? ==> a.writer in s.copies && CanTransition(s.copies[a.writer].status, a.change.to)
  }

  function Accessed(s: Shared, a: Access): Shared
    requires AccessEnabled(s, a)
  {
    match a
    case Read(w) => s.(copies := s.copies[w := s.job])
    case Put(w, c) => Shared(Changed(s.copies[w], c), s.copies - {w})
  }

  predicate AccessFeasible(s: Shared, es: seq<Access>)
    decreases |es|
  {
    es == [] || (AccessEnabled(s, es[0]) && AccessFeasible(Accessed(s, es[0]), es[1..]))
  }

  function AccessRun(s: Shared, es: seq<Access>): Shared
    requires AccessFeasible(s, es)
    decreases |es|
  {
    if es == [] then s else AccessRun(Accessed(s, es[0]), es[1..])
  }

  /** The write is based on a record that is no longer the stored one. */
  predicate Stale(s: Shared, a: Access)
    requires AccessEnabled(s, a)
  {
    a.Put? && s.copies[a.writer] != s.job
  }

  predicate NoneStale(s: Shared, es: seq<Access>)
    requires AccessFeasible(s, es)
    decreases |es|
  {
    es == [] || (!Stale(s, es[0]) && NoneStale(Accessed(s, es[0]), es[1..]))
  }

  function Puts(es: seq<Access>): seq<Change> {
    if es == [] then [] else (if es[0].Put? then [es[0].change] else []) + Puts(es[1..])
  }

  /** Without a stale write the writers take turns: the record is that of the writes one after another. */
  lemma {:induction false} UncontendedIsPlay(s: Shared, es: seq<Access>)
    requires AccessFeasible(s, es) && NoneStale(s, es)
    ensures AccessRun(s, es).job == Play(s.job, Puts(es))
    decreases |es|
  {
    if es != [] {
      UncontendedIsPlay(Accessed(s, es[0]), es[1..]);
      if es[0].Put? {
        assert Puts(es)[1..] == Puts(es[1..]);
      } else {
        assert Puts(es) == Puts(es[1..]);
      }
    }
  }

  /** A completed or cancelled record changes only by a stale write. */
  lemma OnlyStaleReopens(s: Shared, a: Access)
    requires AccessEnabled(s, a) && (s.job.status.Completed? || s.job.status.Cancelled?)
    ensures Accessed(s, a).job != s.job ==> Stale(s, a)
  {
  }

  /** ... and a stale write does change it: two racing writers of a running job can cancel a completed one. */
  lemma StaleWriteReopens(job: Job, t: int)
    requires job.status.Running?
    ensures var s := Shared(job, map[]);
            var done := [Read(0), Read(1), Put(0, Change(Completed, None, t))];
            && AccessFeasible(s, done) && AccessRun(s, done).job.status.Completed?
            && var last := Put(1, Change(Cancelled, None, t));
               && AccessEnabled(AccessRun(s, done), last)
               && Accessed(AccessRun(s, done), last).job.status.Cancelled?
  {
    var s, c := Shared(job, map[]), Change(Completed, None, t);
    var s2 := Accessed(Accessed(s, Read(0)), Read(1));
    var s3 := Accessed(s2, Put(0, c));
    assert [Read(0), Read(1), Put(0, c)][1..] == [Read(1), Put(0, c)] && [Read(1), Put(0, c)][1..] == [Put(0, c)];
    assert [Put(0, c)][1..] == [];
    assert AccessFeasible(s3, []) && AccessRun(s3, []) == s3;
    assert AccessFeasible(s2, [Put(0, c)]) && AccessRun(s2, [Put(0, c)]) == s3;
  }

  datatype JobError = NotFound | InvalidTransition(from: Status, to: Status) | NotRetryable(status: Status)
                    | PublishFailed | StoreFailed
  datatype Result<+T> = Ok(value: T) | Err(error: JobError)

  /** Updates one record field by field. */
  method ApplyTransition(job: Job, c: Change) returns (r: Result<Job>)
    ensures r.Ok? <==> CanTransition(job.status, c.to)
    ensures r.Ok? ==> r.value == Changed(job, c)
    ensures r.Err? ==> r.error == InvalidTransition(job.status, c.to)
  {
    if !CanTransition(job.status, c.to) {
      return Err(InvalidTransition(job.status, c.to));
    }
    var j := job;
    match c.to {
      case Running =>
        if j.startedAt.None? { j := j.(startedAt := Some(c.now)); }
      case Completed => j := j.(completedAt := Some(c.now));
      case Failed => j := j.(completedAt := Some(c.now));
      case Cancelled => j := j.(completedAt := Some(c.now));
      case Retrying =>
        j := j.(retryCount := j.retryCount + 1);
        j := j.(completedAt := None);
      case Queued =>
    }
    if c.to == Failed || c.to == Cancelled {
      j := j.(error := c.error);
    } else if c.to == Completed || c.to == Running {
      j := j.(error := None);
    }
    j := j.(status := c.to);
    return Ok(j);
  }

  /** The service over the job table. */
  class JobService {
    var store: map<JobId, Job>

    constructor ()
      ensures store == map[]
    {
      store := map[];
    }

    method Create(id: JobId, now: int, put: StoreWrite) returns (r: Result<Job>)
      requires id !in store  // a fresh UUID
      modifies this
      ensures store == if put.Unkept? then old(store) else old(store)[id := NewJob(now)]
      ensures r == if put.Kept? then Ok(NewJob(now)) else Err(StoreFailed)
    {
      if !put.Unkept? { store := store[id := NewJob(now)]; }
      return if put.Kept? then Ok(NewJob(now)) else Err(StoreFailed);
    }

    /**
     Read, change, write back. `read` tells whether the read succeeds, `put` how the store takes the
     write. Nothing else than an allowed change of a known job touches the table.
     */
    method Transition(id: JobId, c: Change, read: bool, put: StoreWrite) returns (r: Result<Job>)
      modifies this
      ensures var allowed := read && id in old(store) && CanTransition(old(store)[id].status, c.to);
              && store == (if allowed && !put.Unkept? then old(store)[id := Changed(old(store)[id], c)] else old(store))
              && (r.Ok? <==> allowed && put.Kept?)
              && (r.Ok? ==> r.value == Changed(old(store)[id], c))
      ensures r.Err? ==> r.error == if !read then StoreFailed
                                    else if id !in old(store) then NotFound
                                    else if !CanTransition(old(store)[id].status, c.to)
                                    then InvalidTransition(old(store)[id].status, c.to)
                                    else StoreFailed
    {
      if !read { return Err(StoreFailed); }
      if id !in store { return Err(NotFound); }
      r := ApplyTransition(store[id], c);
      if r.Err? { return r; }
      if !put.Unkept? { store := store[id := r.value]; }
      if !put.Kept? { r := Err(StoreFailed); }
    }

    /**
     Only a failed job is retried; it becomes Retrying, never Queued, and its count grows, while its
     error and its start are kept. `got` tells which of the three reads succeed and `published` is
     whether the broker took the dispatch message: whatever fails after the write, the caller
     gets an error although the job is already Retrying.
     */
    method Retry(id: JobId, now: int, got: (bool, bool, bool), put: StoreWrite, published: bool) returns (r: Result<Job>)
      modifies this
      ensures var retryable := got.0 && id in old(store) && old(store)[id].status.Failed?;
              && (r.Ok? <==> retryable && got.1 && put.Kept? && got.2 && published)
              && (if retryable && got.1 && !put.Unkept? then
                    && id in store && store == old(store)[id := store[id]]
                    && store[id].status.Retrying? && store[id].completedAt.None?
                    && store[id].retryCount == old(store)[id].retryCount + 1
                    && store[id].error == old(store)[id].error
                    && store[id].startedAt == old(store)[id].startedAt
                    && store[id].createdAt == old(store)[id].createdAt
                  else store == old(store))
      ensures r.Ok? ==> id in store && r.value == store[id]
      ensures r.Err? ==> r.error == if !got.0 then StoreFailed
                                    else if id !in old(store) then NotFound
                                    else if !old(store)[id].status.Failed? then NotRetryable(old(store)[id].status)
                                    else if !got.1 || !put.Kept? || !got.2 then StoreFailed
                                    else PublishFailed
    {
      if !got.0 { return Err(StoreFailed); }
      if id !in store { return Err(NotFound); }
      if store[id].status != Failed { return Err(NotRetryable(store[id].status)); }
      r := Transition(id, Change(Retrying, None, now), got.1, put);
      if r.Err? { return r; }
      if !got.2 { return Err(StoreFailed); }
      if !published { return Err(PublishFailed); }
    }
  }
}
