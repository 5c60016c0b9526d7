/**
 What the outbox lease is for (crates/storage-core/src/outbox.rs): two relays must not work on the
 same row before a lease ends. True exactly as long as no failure mark reopens a row inside
 the lease of another relay; a slow relay that marks late can do that to its successor.
 */
module OutboxLease {
  import opened Prelude
  import opened Outbox

  /** An event with the clock reading at which it happens. */
  datatype Timed = Timed(e: Event, now: int)

  predicate Distinct(ids: seq<Id>) {
    forall j, k :: 0 <= j < k < |ids| ==> ids[j] != ids[k]
  }

  /** A claim returns each row once, at the time it happens. */
  predicate TimedEnabled(s: State, t: Timed) {
    Enabled(s, t.e) && (t.e.Claim? ==> t.e.now == t.now && Distinct(t.e.ids))
  }

  predicate TimedFeasible(s: State, ts: seq<Timed>)
    decreases |ts|
  {
    ts == [] || (TimedEnabled(s, ts[0]) && TimedFeasible(Apply(s, ts[0].e), ts[1..]))
  }

  function TimedRun(s: State, ts: seq<Timed>): State
    requires TimedFeasible(s, ts)
    decreases |ts|
  {
    if ts == [] then s else TimedRun(Apply(s, ts[0].e), ts[1..])
  }

  predicate ClockFrom(t: int, ts: seq<Timed>)
    decreases |ts|
  {
    ts == [] || (t <= ts[0].now && ClockFrom(ts[0].now, ts[1..]))
  }

  /** Relay `r` still has row `id` to do, under a lease that has not ended. */
  predicate Holds(s: State, r: RelayId, k: nat, id: Id, now: int) {
    && r in s.relays && k < |s.relays[r].todo|
    && s.relays[r].todo[k].id == id && now < s.relays[r].todo[k].row.nextAttempt
  }

  /** A held row is closed to other claims until the holder's lease ends. */
  ghost predicate Guarded(s: State, now: int) {
    forall r, k: nat, id :: Holds(s, r, k, id, now) ==> Closed(s, id, s.relays[r].todo[k].row.nextAttempt)
  }

  /** At most one relay holds a row. */
  ghost predicate Exclusive(s: State, now: int) {
    forall r, k: nat, q, l: nat, id :: Holds(s, r, k, id, now) && Holds(s, q, l, id, now) ==> r == q && k == l
  }

  ghost predicate LeaseInv(s: State, now: int) {
    Inv(s) && Guarded(s, now) && Exclusive(s, now)
  }

  lemma TimePasses(s: State, t: int, now: int)
    requires t <= now && LeaseInv(s, t)
    ensures LeaseInv(s, now)
  {
    forall r, k: nat, id | Holds(s, r, k, id, now) ensures Holds(s, r, k, id, t) {}
  }

  /** Where a holder after the step stood before it, unless the step is its own claim. */
  lemma HeldBefore(s: State, t: Timed, r: RelayId, k: nat, id: Id)
    requires TimedEnabled(s, t) && Holds(Apply(s, t.e), r, k, id, t.now)
    requires !(t.e.Claim? && t.e.r == r)
    ensures var k' := if (t.e.MarkFailed? || t.e.MarkPublished?) && t.e.r == r then k + 1 else k;
            && Holds(s, r, k', id, t.now)
            && s.relays[r].todo[k'] == Apply(s, t.e).relays[r].todo[k]
  {
  }

  /** A row that is being claimed is held by nobody. */
  lemma ClaimedIsFree(s: State, t: Timed, r: RelayId, k: nat, id: Id)
    requires TimedEnabled(s, t) && t.e.Claim? && Guarded(s, t.now) && Holds(s, r, k, id, t.now)
    ensures id !in t.e.ids
  {
  }

  lemma ExclusiveKept(s: State, t: Timed)
    requires TimedEnabled(s, t) && LeaseInv(s, t.now)
    ensures Exclusive(Apply(s, t.e), t.now)
  {
    var s' := Apply(s, t.e);
    forall r, k: nat, q, l: nat, id | Holds(s', r, k, id, t.now) && Holds(s', q, l, id, t.now) ensures r == q && k == l {
      var mine, yours := t.e.Claim? && t.e.r == r, t.e.Claim? && t.e.r == q;
      if !mine { HeldBefore(s, t, r, k, id); }
      if !yours { HeldBefore(s, t, q, l, id); }
      if mine && !yours { ClaimedIsFree(s, t, q, l, id); }
      if yours && !mine { ClaimedIsFree(s, t, r, k, id); }
    }
  }

  /** Row `id` is closed until `until`, or gone, or done. */
  predicate Closed(s: State, id: Id, until: int) {
    id !in s.rows || s.rows[id].published.Some? || s.rows[id].nextAttempt >= until
  }

  /**
   A failure mark of row `id` that reopens it at `next` while another relay holds it under a lease
   that ends later. Everything in here is known before the mark.
   */
  ghost predicate Harmful(s: State, t: Timed)
    requires TimedEnabled(s, t)
  {
    t.e.MarkFailed? &&
    var id := s.relays[t.e.r].todo[0].id;
    && id in s.rows && s.rows[id].published.None?
    && exists q, l: nat :: Holds(s, q, l, id, t.now) && !(q == t.e.r && l == 0)
                           && s.relays[q].todo[l].row.nextAttempt > t.e.next
  }

  ghost predicate AllHarmless(s: State, ts: seq<Timed>)
    requires TimedFeasible(s, ts)
    decreases |ts|
  {
    ts == [] || (!Harmful(s, ts[0]) && AllHarmless(Apply(s, ts[0].e), ts[1..]))
  }

  /** A harmless step leaves a held row closed, except that the holder itself may give it up. */
  lemma StaysClosed(s: State, t: Timed, r: RelayId, k: nat, id: Id)
    requires TimedEnabled(s, t) && LeaseInv(s, t.now) && !Harmful(s, t) && Holds(s, r, k, id, t.now)
    requires t.e.MarkFailed? && t.e.r == r ==> k > 0
    ensures Closed(Apply(s, t.e), id, s.relays[r].todo[k].row.nextAttempt)
  {
    assert id in s.enqueued && Closed(s, id, s.relays[r].todo[k].row.nextAttempt);
    if t.e.Claim? { ClaimedIsFree(s, t, r, k, id); }
  }

  lemma GuardedKept(s: State, t: Timed)
    requires TimedEnabled(s, t) && LeaseInv(s, t.now) && !Harmful(s, t)
    ensures Guarded(Apply(s, t.e), t.now)
  {
    var s' := Apply(s, t.e);
    forall r, k: nat, id | Holds(s', r, k, id, t.now)
      ensures Closed(s', id, s'.relays[r].todo[k].row.nextAttempt)
    {
      if !(t.e.Claim? && t.e.r == r) {
        HeldBefore(s, t, r, k, id);
        StaysClosed(s, t, r, if (t.e.MarkFailed? || t.e.MarkPublished?) && t.e.r == r then k + 1 else k, id);
      }
    }
  }

  lemma HarmlessStepKeeps(s: State, now: int, t: Timed)
    requires LeaseInv(s, now) && now <= t.now && TimedEnabled(s, t) && !Harmful(s, t)
    ensures LeaseInv(Apply(s, t.e), t.now)
  {
    TimePasses(s, now, t.now);
    StepKeepsInv(s, t.e);
    ExclusiveKept(s, t);
    GuardedKept(s, t);
  }

  /** At `now` no row is held twice, and no single claim from here on makes it so. */
  ghost predicate ClaimSafe(s: State, now: int) {
    && Exclusive(s, now)
    && forall c: Timed :: c.e.Claim? && now <= c.now && TimedEnabled(s, c) ==> Exclusive(Apply(s, c.e), c.now)
  }

  lemma GuardedIsClaimSafe(s: State, now: int)
    requires LeaseInv(s, now)
    ensures ClaimSafe(s, now)
  {
    forall c: Timed | c.e.Claim? && now <= c.now && TimedEnabled(s, c) ensures Exclusive(Apply(s, c.e), c.now) {
      TimePasses(s, now, c.now);
      ExclusiveKept(s, c);
    }
  }

  /** After a harmful mark the row is due although relay `q` still holds it. */
  lemma MarkReopens(s: State, t: Timed) returns (id: Id, q: RelayId, l: nat)
    requires TimedEnabled(s, t) && Harmful(s, t)
    ensures var s', at := Apply(s, t.e), Max(t.now, t.e.next);
            && id in s'.rows && Due(s'.rows[id], at) && Holds(s', q, l, id, at) && q in s'.relays
  {
    id := s.relays[t.e.r].todo[0].id;
    var k: nat;
    q, k :| Holds(s, q, k, id, t.now) && !(q == t.e.r && k == 0) && s.relays[q].todo[k].row.nextAttempt > t.e.next;
    l := if q == t.e.r then k - 1 else k;
    assert q == t.e.r ==> Apply(s, t.e).relays[q].todo[l] == s.relays[q].todo[k];
  }

  /** The other half: a harmful mark lets the next claim hand the row to a second relay. */
  lemma HarmfulMarkBreaks(s: State, t: Timed)
    requires TimedEnabled(s, t) && Harmful(s, t)
    ensures !ClaimSafe(Apply(s, t.e), t.now)
  {
    var s', at := Apply(s, t.e), Max(t.now, t.e.next);
    var id, q, l := MarkReopens(s, t);
    var n := FreshNat(s'.relays.Keys);
    var c := Timed(Claim(n, [id], at, at + 1), at);
    assert TimedEnabled(s', c);
    var s2 := Apply(s', c.e);
    assert s2.relays[n].todo == [Claimed(id, ClaimRow(s'.rows[id], at + 1))];
    assert Holds(s2, n, 0, id, at) && Holds(s2, q, l, id, at);
  }

  /** Nowhere along the run is a row held twice, and nowhere could one more claim make it so. */
  ghost predicate NeverDoubled(s: State, now: int, ts: seq<Timed>)
    requires TimedFeasible(s, ts)
    decreases |ts|
  {
    ClaimSafe(s, now) && (ts == [] || NeverDoubled(Apply(s, ts[0].e), ts[0].now, ts[1..]))
  }

  lemma {:induction false} LeasesExcludeFrom(s: State, now: int, ts: seq<Timed>)
    requires LeaseInv(s, now) && TimedFeasible(s, ts) && ClockFrom(now, ts)
    ensures AllHarmless(s, ts) <==> NeverDoubled(s, now, ts)
    decreases |ts|
  {
    GuardedIsClaimSafe(s, now);
    if ts != [] {
      if Harmful(s, ts[0]) {
        HarmfulMarkBreaks(s, ts[0]);
      } else {
        HarmlessStepKeeps(s, now, ts[0]);
        LeasesExcludeFrom(Apply(s, ts[0].e), ts[0].now, ts[1..]);
      }
    }
  }

  /**
   When leases keep relays apart: along a run no two relays hold the same row under unexpired leases,
   and no single further claim could bring that about at any point, if and only if no failure mark
   of the run reopens an unpublished row inside the lease of another relay.
   */
  lemma LeasesExcludeIff(start: int, ts: seq<Timed>)
    requires TimedFeasible(EMPTY, ts) && ClockFrom(start, ts)
    ensures AllHarmless(EMPTY, ts) <==> NeverDoubled(EMPTY, start, ts)
  {
    LeasesExcludeFrom(EMPTY, start, ts);
  }

  /** A failure is marked before the marking relay's own lease on that row has ended. */
  predicate Punctual(s: State, t: Timed)
    requires TimedEnabled(s, t)
  {
    t.e.MarkFailed? ==> t.now < s.relays[t.e.r].todo[0].row.nextAttempt
  }

  predicate AllPunctual(s: State, ts: seq<Timed>)
    requires TimedFeasible(s, ts)
    decreases |ts|
  {
    ts == [] || (Punctual(s, ts[0]) && AllPunctual(Apply(s, ts[0].e), ts[1..]))
  }

  lemma PunctualIsHarmless(s: State, t: Timed)
    requires TimedEnabled(s, t) && Exclusive(s, t.now) && Punctual(s, t)
    ensures !Harmful(s, t)
  {
    if t.e.MarkFailed? {
      assert Holds(s, t.e.r, 0, s.relays[t.e.r].todo[0].id, t.now);
    }
  }

  lemma {:induction false} PunctualRunIsHarmless(s: State, now: int, ts: seq<Timed>)
    requires LeaseInv(s, now) && TimedFeasible(s, ts) && ClockFrom(now, ts) && AllPunctual(s, ts)
    ensures AllHarmless(s, ts)
    decreases |ts|
  {
    if ts != [] {
      TimePasses(s, now, ts[0].now);
      PunctualIsHarmless(s, ts[0]);
      HarmlessStepKeeps(s, now, ts[0]);
      PunctualRunIsHarmless(Apply(s, ts[0].e), ts[0].now, ts[1..]);
    }
  }

  /** What a relay can check for itself: if every failure mark comes inside the marker's own lease, leases exclude. */
  lemma PunctualRelaysExclude(start: int, ts: seq<Timed>)
    requires TimedFeasible(EMPTY, ts) && ClockFrom(start, ts) && AllPunctual(EMPTY, ts)
    ensures AllHarmless(EMPTY, ts) && NeverDoubled(EMPTY, start, ts)
  {
    PunctualRunIsHarmless(EMPTY, start, ts);
    LeasesExcludeIff(start, ts);
  }

  lemma Cons(s: State, t: Timed, rest: seq<Timed>)
    requires TimedEnabled(s, t) && TimedFeasible(Apply(s, t.e), rest)
    ensures TimedFeasible(s, [t] + rest) && TimedRun(s, [t] + rest) == TimedRun(Apply(s, t.e), rest)
  {
    assert ([t] + rest)[1..] == rest;
  }

  lemma ClockCons(from: int, t: Timed, rest: seq<Timed>)
    requires from <= t.now && ClockFrom(t.now, rest)
    ensures ClockFrom(from, [t] + rest)
  {
    assert ([t] + rest)[1..] == rest;
  }

  /** Relay 1 claimed row 5 until 10 and is slow; relay 2 took it over until 20. */
  function Overtaken(c: Content): State {
    State(map[5 := Row(c, 2, 20, None)], [],
          map[1 := Relay([Claimed(5, Row(c, 1, 10, None))], Sending), 2 := Relay([Claimed(5, Row(c, 2, 20, None))], Sending)],
          map[5 := c], {})
  }

  lemma RelayIsOvertaken(c: Content, rest: seq<Timed>) returns (ts: seq<Timed>)
    requires TimedFeasible(Overtaken(c), rest) && ClockFrom(10, rest)
    ensures TimedFeasible(EMPTY, ts) && ClockFrom(0, ts) && TimedRun(EMPTY, ts) == TimedRun(Overtaken(c), rest)
  {
    var t1, t2, t3 := Timed(Enqueue(5, c, 0), 0), Timed(Claim(1, [5], 0, 10), 0), Timed(Claim(2, [5], 10, 20), 10);
    var s1 := Apply(EMPTY, t1.e);
    var s2 := Apply(s1, t2.e);
    assert s2.rows == map[5 := Row(c, 1, 10, None)];
    assert s2.relays[1].todo == [Claimed(5, Row(c, 1, 10, None))];
    var s3 := Apply(s2, t3.e);
    assert s3.rows == map[5 := Row(c, 2, 20, None)];
    assert s3.relays[2].todo == [Claimed(5, Row(c, 2, 20, None))];
    assert s3 == Overtaken(c);
    Cons(s2, t3, rest);
    Cons(s1, t2, [t3] + rest);
    Cons(EMPTY, t1, [t2] + ([t3] + rest));
    ts := [t1] + ([t2] + ([t3] + rest));
    ClockCons(0, t3, rest);
    ClockCons(0, t2, [t3] + rest);
    ClockCons(0, t1, [t2] + ([t3] + rest));
  }

  lemma LateMarkReopens(c: Content) returns (ts: seq<Timed>)
    ensures TimedFeasible(Overtaken(c), ts) && ClockFrom(10, ts)
    ensures Holds(TimedRun(Overtaken(c), ts), 2, 0, 5, 12) && Holds(TimedRun(Overtaken(c), ts), 3, 0, 5, 12)
  {
    var t1, t2, t3 := Timed(Refuse(1), 11), Timed(MarkFailed(1, 12), 11), Timed(Claim(3, [5], 12, 22), 12);
    var s1 := Apply(Overtaken(c), t1.e);
    var s2 := Apply(s1, t2.e);
    assert s2.rows == map[5 := Row(c, 2, 12, None)];
    var s3 := Apply(s2, t3.e);
    assert s3.relays[3].todo == [Claimed(5, Row(c, 3, 22, None))];
    Cons(s2, t3, []);
    Cons(s1, t2, [t3] + []);
    Cons(Overtaken(c), t1, [t2] + ([t3] + []));
    ts := [t1] + ([t2] + ([t3] + []));
    ClockCons(11, t3, []);
    ClockCons(11, t2, [t3] + []);
    ClockCons(10, t1, [t2] + ([t3] + []));
  }

  /** Without punctual marks exclusion can fail: relays 2 and 3 both hold row 5 at time 12. */
  lemma SlowRelayBreaksExclusion(c: Content)
    ensures exists ts :: TimedFeasible(EMPTY, ts) && ClockFrom(0, ts) && !Exclusive(TimedRun(EMPTY, ts), 12)
  {
    var late := LateMarkReopens(c);
    var ts := RelayIsOvertaken(c, late);
    assert Holds(TimedRun(EMPTY, ts), 2, 0, 5, 12) && Holds(TimedRun(EMPTY, ts), 3, 0, 5, 12);
  }
}
