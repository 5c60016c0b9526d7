/**
 Two-level concurrency bounds (crates/collector/src/bounds.rs): a task takes a global permit,
 looks up its domain's semaphore, then waits for a domain permit while it holds the
 global one. Dropping the permit gives back the global slot first, then the domain slot.
 */
module Bounds {
  import opened Prelude

  type TaskId = nat
  type Domain = string  // trimmed, without trailing dots, in lower case

  datatype Phase = Waiting | HasGlobal | HasSemaphore | Running | DropsDomain | Done

  datatype Task = Task(domain: Domain, phase: Phase)

  datatype State = State(
    globalLimit: nat,
    domainLimit: nat,
    globalFree: nat,
    domainFree: map<Domain, nat>,
    tasks: map<TaskId, Task>)

  /** `RunBounds::new` raises both limits to at least 1. */
  function Init(globalLimit: nat, domainLimit: nat, domains: map<TaskId, Domain>): State {
    State(Max(globalLimit, 1), Max(domainLimit, 1), Max(globalLimit, 1), map[],
          map t | t in domains :: Task(domains[t], Waiting))
  }

  datatype Event = TakeGlobal(t: TaskId) | FindSemaphore(t: TaskId) | TakeDomain(t: TaskId)
                 | ReleaseGlobal(t: TaskId) | ReleaseDomain(t: TaskId) | Abort(t: TaskId)

  predicate Enabled(s: State, e: Event) {
    e.t in s.tasks &&
    var task := s.tasks[e.t];
    match e
    case TakeGlobal(_) => task.phase.Waiting? && s.globalFree > 0
    case FindSemaphore(_) => task.phase.HasGlobal?
    case TakeDomain(_) => task.phase.HasSemaphore? && task.domain in s.domainFree && s.domainFree[task.domain] > 0
    case ReleaseGlobal(_) => task.phase.Running?
    case ReleaseDomain(_) => task.phase.DropsDomain? && task.domain in s.domainFree
    case Abort(_) => task.phase.Waiting? || task.phase.HasGlobal? || task.phase.HasSemaphore?
  }

  function Apply(s: State, e: Event): State
    requires Enabled(s, e)
  {
    var task := s.tasks[e.t];
    match e
    case TakeGlobal(t) =>
      s.(globalFree := s.globalFree - 1, tasks := s.tasks[t := task.(phase := HasGlobal)])
    case FindSemaphore(t) =>
      s.(domainFree := if task.domain in s.domainFree then s.domainFree
                       else s.domainFree[task.domain := s.domainLimit],
         tasks := s.tasks[t := task.(phase := HasSemaphore)])
    case TakeDomain(t) =>
      s.(domainFree := s.domainFree[task.domain := s.domainFree[task.domain] - 1],
         tasks := s.tasks[t := task.(phase := Running)])
    case ReleaseGlobal(t) =>
      s.(globalFree := s.globalFree + 1, tasks := s.tasks[t := task.(phase := DropsDomain)])
    case ReleaseDomain(t) =>
      s.(domainFree := s.domainFree[task.domain := s.domainFree[task.domain] + 1],
         tasks := s.tasks[t := task.(phase := Done)])
    case Abort(t) =>
      s.(globalFree := if task.phase.Waiting? then s.globalFree else s.globalFree + 1,
         tasks := s.tasks[t := task.(phase := Done)])
  }

  predicate Feasible(s: State, es: seq<Event>)
    decreases |es|
  {
    es == [] || (Enabled(s, es[0]) && Feasible(Apply(s, es[0]), es[1..]))
  }

  function RunAll(s: State, es: seq<Event>): State
    requires Feasible(s, es)
    decreases |es|
  {
    if es == [] then s else RunAll(Apply(s, es[0]), es[1..])
  }

  // ----- who holds what -----

  predicate HoldsGlobal(p: Phase) {
    p.HasGlobal? || p.HasSemaphore? || p.Running?
  }

  predicate HoldsDomain(p: Phase) {
    p.Running? || p.DropsDomain?
  }

  function GlobalHolders(ts: map<TaskId, Task>): set<TaskId> {
    set t | t in ts && HoldsGlobal(ts[t].phase)
  }

  function DomainHolders(ts: map<TaskId, Task>, d: Domain): set<TaskId> {
    set t | t in ts && ts[t].domain == d && HoldsDomain(ts[t].phase)
  }

  /** The tasks that are collecting. */
  function Collecting(ts: map<TaskId, Task>): set<TaskId> {
    set t | t in ts && ts[t].phase.Running?
  }

  function CollectingIn(ts: map<TaskId, Task>, d: Domain): set<TaskId> {
    set t | t in ts && ts[t].domain == d && ts[t].phase.Running?
  }

  /** Free plus held permits equal the limit, in the global pool and in every domain pool. */
  ghost predicate Inv(s: State) {
    && s.globalLimit >= 1 && s.domainLimit >= 1
    && s.globalFree + |GlobalHolders(s.tasks)| == s.globalLimit
    && (forall d :: d in s.domainFree ==> s.domainFree[d] + |DomainHolders(s.tasks, d)| == s.domainLimit)
    && (forall t :: t in s.tasks && (s.tasks[t].phase.HasSemaphore? || HoldsDomain(s.tasks[t].phase)) ==>
          s.tasks[t].domain in s.domainFree)
  }

  /** How one task's phase change moves the number of holders. */
  lemma GlobalCount(ts: map<TaskId, Task>, t: TaskId, p: Phase)
    requires t in ts
    ensures |GlobalHolders(ts[t := ts[t].(phase := p)])| ==
              |GlobalHolders(ts)| + One(HoldsGlobal(p)) - One(HoldsGlobal(ts[t].phase))
  {
    SizesDiffer(GlobalHolders(ts), GlobalHolders(ts[t := ts[t].(phase := p)]), t);
  }

  lemma DomainCount(ts: map<TaskId, Task>, t: TaskId, p: Phase, d: Domain)
    requires t in ts
    ensures |DomainHolders(ts[t := ts[t].(phase := p)], d)| ==
              |DomainHolders(ts, d)| + One(ts[t].domain == d && HoldsDomain(p))
                                     - One(ts[t].domain == d && HoldsDomain(ts[t].phase))
  {
    SizesDiffer(DomainHolders(ts, d), DomainHolders(ts[t := ts[t].(phase := p)], d), t);
  }

  lemma GlobalKept(s: State, e: Event)
    requires Enabled(s, e) && Inv(s)
    ensures var s' := Apply(s, e); s'.globalFree + |GlobalHolders(s'.tasks)| == s'.globalLimit
  {
    GlobalCount(s.tasks, e.t, Apply(s, e).tasks[e.t].phase);
  }

  lemma DomainKept(s: State, e: Event, d: Domain)
    requires Enabled(s, e) && Inv(s) && d in Apply(s, e).domainFree
    ensures var s' := Apply(s, e); s'.domainFree[d] + |DomainHolders(s'.tasks, d)| == s'.domainLimit
  {
    var s' := Apply(s, e);
    DomainCount(s.tasks, e.t, s'.tasks[e.t].phase, d);
    if d !in s.domainFree {
      assert DomainHolders(s'.tasks, d) == {};
    }
  }

  lemma StepKeepsInv(s: State, e: Event)
    requires Enabled(s, e) && Inv(s)
    ensures Inv(Apply(s, e))
  {
    var s' := Apply(s, e);
    GlobalKept(s, e);
    forall d | d in s'.domainFree
      ensures s'.domainFree[d] + |DomainHolders(s'.tasks, d)| == s'.domainLimit
    {
      DomainKept(s, e, d);
    }
  }

  lemma {:induction false} RunKeepsInv(s: State, es: seq<Event>)
    requires Inv(s) && Feasible(s, es)
    ensures Inv(RunAll(s, es))
    decreases |es|
  {
    if es != [] {
      StepKeepsInv(s, es[0]);
      RunKeepsInv(Apply(s, es[0]), es[1..]);
    }
  }

  lemma SubsetSize(a: set<TaskId>, b: set<TaskId>)
    requires a <= b
    ensures |a| <= |b|
  {
    assert b == a + (b - a);
  }

  /** Conserved permits keep the collecting tasks within the global limit and within each domain's limit. */
  lemma InvLimits(s: State)
    requires Inv(s)
    ensures |Collecting(s.tasks)| <= s.globalLimit
    ensures forall d :: |CollectingIn(s.tasks, d)| <= s.domainLimit
  {
    SubsetSize(Collecting(s.tasks), GlobalHolders(s.tasks));
    forall d ensures |CollectingIn(s.tasks, d)| <= s.domainLimit {
      var running := CollectingIn(s.tasks, d);
      if running != {} {
        var t :| t in running;
        assert d in s.domainFree;
        SubsetSize(running, DomainHolders(s.tasks, d));
      } else {
        assert |running| == 0;
      }
    }
  }

  /**
   In every reachable state the collecting tasks stay within the global limit and within each
   domain's limit, and no permit is lost or invented.
   */
  lemma LimitsHold(g: nat, n: nat, domains: map<TaskId, Domain>, es: seq<Event>)
    requires Feasible(Init(g, n, domains), es)
    ensures var s := RunAll(Init(g, n, domains), es);
            && Inv(s) && s.globalLimit == Max(g, 1) && s.domainLimit == Max(n, 1)
            && |Collecting(s.tasks)| <= Max(g, 1)
            && forall d :: |CollectingIn(s.tasks, d)| <= Max(n, 1)
  {
    InitInv(g, n, domains);
    RunKeepsInv(Init(g, n, domains), es);
    LimitsFixed(Init(g, n, domains), es);
    InvLimits(RunAll(Init(g, n, domains), es));
  }

  lemma InitInv(g: nat, n: nat, domains: map<TaskId, Domain>)
    ensures Inv(Init(g, n, domains))
  {
    assert GlobalHolders(Init(g, n, domains).tasks) == {};
  }

  lemma {:induction false} LimitsFixed(s: State, es: seq<Event>)
    requires Feasible(s, es)
    ensures RunAll(s, es).globalLimit == s.globalLimit && RunAll(s, es).domainLimit == s.domainLimit
    decreases |es|
  {
    if es != [] { LimitsFixed(Apply(s, es[0]), es[1..]); }
  }

  // ----- no deadlock, and every run ends -----

  predicate AllDone(s: State) {
    forall t :: t in s.tasks ==> s.tasks[t].phase.Done?
  }

  /**
   No deadlock although tasks hold the global permit while they wait for a domain permit: in a
   state with unfinished tasks somebody can proceed without being aborted.
   */
  lemma NoDeadlock(s: State) returns (e: Event)
    requires Inv(s) && !AllDone(s)
    ensures Enabled(s, e) && !e.Abort?
  {
    if t :| t in s.tasks && s.tasks[t].phase.Running? {
      e := ReleaseGlobal(t);
    } else if t :| t in s.tasks && s.tasks[t].phase.DropsDomain? {
      e := ReleaseDomain(t);
    } else if t :| t in s.tasks && s.tasks[t].phase.HasGlobal? {
      e := FindSemaphore(t);
    } else if t :| t in s.tasks && s.tasks[t].phase.HasSemaphore? {
      assert DomainHolders(s.tasks, s.tasks[t].domain) == {};
      e := TakeDomain(t);
    } else {
      var t :| t in s.tasks && !s.tasks[t].phase.Done?;
      assert GlobalHolders(s.tasks) == {};
      e := TakeGlobal(t);
    }
  }

  function PhaseRank(p: Phase): nat {
    match p
    case Waiting => 5
    case HasGlobal => 4
    case HasSemaphore => 3
    case Running => 2
    case DropsDomain => 1
    case Done => 0
  }

  /** The tasks that still have at least `k` phases to go. */
  function AtLeast(ts: map<TaskId, Task>, k: nat): set<TaskId> {
    set t | t in ts && PhaseRank(ts[t].phase) >= k
  }

  function Rank(s: State): nat {
    |AtLeast(s.tasks, 1)| + |AtLeast(s.tasks, 2)| + |AtLeast(s.tasks, 3)| + |AtLeast(s.tasks, 4)| + |AtLeast(s.tasks, 5)|
  }

  lemma AtLeastAfter(ts: map<TaskId, Task>, t: TaskId, p: Phase, k: nat)
    requires t in ts && PhaseRank(p) < PhaseRank(ts[t].phase)
    ensures |AtLeast(ts[t := ts[t].(phase := p)], k)| ==
              |AtLeast(ts, k)| - if PhaseRank(p) < k <= PhaseRank(ts[t].phase) then 1 else 0
  {
    var after := ts[t := ts[t].(phase := p)];
    if PhaseRank(p) < k <= PhaseRank(ts[t].phase) {
      assert AtLeast(after, k) == AtLeast(ts, k) - {t};
    } else {
      assert AtLeast(after, k) == AtLeast(ts, k);
    }
  }

  lemma StepLowersRank(s: State, e: Event)
    requires Enabled(s, e)
    ensures Rank(Apply(s, e)) < Rank(s)
  {
    var p := Apply(s, e).tasks[e.t].phase;
    AtLeastAfter(s.tasks, e.t, p, 1);
    AtLeastAfter(s.tasks, e.t, p, 2);
    AtLeastAfter(s.tasks, e.t, p, 3);
    AtLeastAfter(s.tasks, e.t, p, 4);
    AtLeastAfter(s.tasks, e.t, p, 5);
  }

  lemma {:induction false} RunsAreFinite(s: State, es: seq<Event>)
    requires Feasible(s, es)
    ensures |es| + Rank(RunAll(s, es)) <= Rank(s)
    decreases |es|
  {
    if es != [] {
      StepLowersRank(s, es[0]);
      RunsAreFinite(Apply(s, es[0]), es[1..]);
    }
  }

  /** Every run is finite, and one in which nobody can proceed has completed all tasks. */
  lemma EveryTaskCompletes(g: nat, n: nat, domains: map<TaskId, Domain>, es: seq<Event>)
    requires Feasible(Init(g, n, domains), es)
    ensures |es| <= Rank(Init(g, n, domains))
    ensures var s := RunAll(Init(g, n, domains), es);
            && s.tasks.Keys == domains.Keys
            && ((forall e :: Enabled(s, e) ==> e.Abort?) ==> AllDone(s))
  {
    InitInv(g, n, domains);
    RunKeepsInv(Init(g, n, domains), es);
    RunsAreFinite(Init(g, n, domains), es);
    TasksFixed(Init(g, n, domains), es);
    var s := RunAll(Init(g, n, domains), es);
    if !AllDone(s) {
      var e := NoDeadlock(s);
    }
  }

  lemma {:induction false} TasksFixed(s: State, es: seq<Event>)
    requires Feasible(s, es)
    ensures RunAll(s, es).tasks.Keys == s.tasks.Keys
    decreases |es|
  {
    if es != [] {
      assert Apply(s, es[0]).tasks.Keys == s.tasks.Keys;
      TasksFixed(Apply(s, es[0]), es[1..]);
    }
  }
}
