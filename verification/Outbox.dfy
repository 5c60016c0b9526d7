/**
 The transactional outbox relay (crates/core-api/src/outbox.rs) over the store contract of
 crates/storage-core/src/outbox.rs. Any number of relays claim, send and mark rows; the broker
 may refuse a message or accept it without the relay learning so; a relay may stop after
 any step.
 */
module Outbox {
  import opened Prelude

  type Id = nat
  type RelayId = nat

  /** The part of a row that is written once. */
  datatype Content = Content(topic: string, key: string, correlation: Option<nat>, payload: string,
                             service: string, createdAt: int)

  datatype Row = Row(content: Content, attempts: nat, nextAttempt: int, published: Option<int>)

  const SCHEMA_VERSION: string := "1"

  datatype Envelope = Envelope(id: Id, eventType: string, schemaVersion: string, service: string,
                               timestamp: int, correlation: Option<nat>, payload: string)

  /** What the broker stores: the topic, the partition key and the envelope. */
  datatype Message = Message(topic: string, key: string, envelope: Envelope)

  function EnvelopeOf(id: Id, c: Content): Envelope {
    Envelope(id, c.topic, SCHEMA_VERSION, c.service, c.createdAt, c.correlation, c.payload)
  }

  function MessageOf(id: Id, c: Content): Message {
    Message(c.topic, c.key, EnvelopeOf(id, c))
  }

  datatype Claimed = Claimed(id: Id, row: Row)

  /** A relay works through its copies of the claimed rows, first to last. */
  datatype Stage = Sending | MarkingPublished | MarkingFailed

  datatype Relay = Relay(todo: seq<Claimed>, stage: Stage)

  /** `enqueued` and `purged` are history: every row ever written, and every row deleted again. */
  datatype State = State(
    rows: map<Id, Row>,
    broker: seq<Message>,
    relays: map<RelayId, Relay>,
    enqueued: map<Id, Content>,
    purged: set<Id>)

  const EMPTY := State(map[], [], map[], map[], {})

  // ----- the store -----

  predicate Due(r: Row, now: int) {
    r.published.None? && r.nextAttempt <= now
  }

  function ClaimRow(r: Row, leaseUntil: int): Row {
    r.(attempts := r.attempts + 1, nextAttempt := leaseUntil)
  }

  function ClaimRows(rows: map<Id, Row>, ids: seq<Id>, leaseUntil: int): map<Id, Row> {
    map i | i in rows :: if i in ids then ClaimRow(rows[i], leaseUntil) else rows[i]
  }

  /** Only touches a row that is not published yet. */
  function MarkPublishedRow(rows: map<Id, Row>, id: Id, now: int): map<Id, Row> {
    if id in rows && rows[id].published.None? then rows[id := rows[id].(published := Some(now))] else rows
  }

  function MarkFailedRow(rows: map<Id, Row>, id: Id, next: int): map<Id, Row> {
    if id in rows && rows[id].published.None? then rows[id := rows[id].(nextAttempt := next)] else rows
  }

  // ----- the protocol -----

  datatype Event =
    | Enqueue(id: Id, content: Content, now: int)
    | Claim(r: RelayId, ids: seq<Id>, now: int, leaseUntil: int)
    | Accept(r: RelayId)
    | Refuse(r: RelayId)
    | AcceptUnseen(r: RelayId)
    | MarkPublished(r: RelayId, now: int)
    | MarkFailed(r: RelayId, next: int)
    | Purge(gone: set<Id>, olderThan: int)
    | Stop(r: RelayId)

  predicate Busy(s: State, r: RelayId, stage: Stage) {
    r in s.relays && s.relays[r].todo != [] && s.relays[r].stage == stage
  }

  predicate Enabled(s: State, e: Event) {
    match e
    case Enqueue(id, _, _) => id !in s.enqueued
    case Claim(r, ids, now, _) =>
      r !in s.relays && forall i :: i in ids ==> i in s.rows && Due(s.rows[i], now)
    case Accept(r) => Busy(s, r, Sending)
    case Refuse(r) => Busy(s, r, Sending)
    case AcceptUnseen(r) => Busy(s, r, Sending)
    case MarkPublished(r, _) => Busy(s, r, MarkingPublished)
    case MarkFailed(r, _) => Busy(s, r, MarkingFailed)
    case Purge(ids, olderThan) =>
      forall i :: i in ids ==> i in s.rows && s.rows[i].published.Some? && s.rows[i].published.value < olderThan
    case Stop(r) => r in s.relays
  }

  /** The message for the row the relay is working on, built from its own copy. */
  function Outgoing(s: State, r: RelayId): Message
    requires r in s.relays && s.relays[r].todo != []
  {
    var c := s.relays[r].todo[0];
    MessageOf(c.id, c.row.content)
  }

  function Copies(rows: map<Id, Row>, ids: seq<Id>): seq<Claimed>
    requires forall i :: i in ids ==> i in rows
  {
    seq(|ids|, k requires 0 <= k < |ids| => Claimed(ids[k], rows[ids[k]]))
  }

  function Apply(s: State, e: Event): State
    requires Enabled(s, e)
  {
    match e
    case Enqueue(id, c, now) =>
      s.(rows := s.rows[id := Row(c, 0, now, None)], enqueued := s.enqueued[id := c])
    case Claim(r, ids, _, leaseUntil) =>
      var rows := ClaimRows(s.rows, ids, leaseUntil);
      s.(rows := rows, relays := s.relays[r := Relay(Copies(rows, ids), Sending)])
    case Accept(r) =>
      s.(broker := s.broker + [Outgoing(s, r)], relays := s.relays[r := s.relays[r].(stage := MarkingPublished)])
    case Refuse(r) => s.(relays := s.relays[r := s.relays[r].(stage := MarkingFailed)])
    case AcceptUnseen(r) =>
      s.(broker := s.broker + [Outgoing(s, r)], relays := s.relays[r := s.relays[r].(stage := MarkingFailed)])
    case MarkPublished(r, now) =>
      s.(rows := MarkPublishedRow(s.rows, s.relays[r].todo[0].id, now),
         relays := s.relays[r := Relay(s.relays[r].todo[1..], Sending)])
    case MarkFailed(r, next) =>
      s.(rows := MarkFailedRow(s.rows, s.relays[r].todo[0].id, next),
         relays := s.relays[r := Relay(s.relays[r].todo[1..], Sending)])
    case Purge(ids, _) => s.(rows := s.rows - ids, purged := s.purged + ids)
    case Stop(r) => s.(relays := s.relays - {r})
  }

  predicate Feasible(s: State, es: seq<Event>)
    decreases |es|
  {
    es == [] || (Enabled(s, es[0]) && Feasible(Apply(s, es[0]), es[1..]))
  }

  function RunAll(s: State, es: seq<Event>): State
    requires Feasible(s, es)
    decreases |es|
  {
    if es == [] then s else RunAll(Apply(s, es[0]), es[1..])
  }

  // ----- the invariant -----

  predicate Delivered(s: State, id: Id)
    requires id in s.enqueued
  {
    MessageOf(id, s.enqueued[id]) in s.broker
  }

  /** Rows and deleted rows together are exactly what was written, with the content written. */
  predicate RowsOk(s: State) {
    && s.rows.Keys + s.purged == s.enqueued.Keys
    && s.rows.Keys !! s.purged
    && (forall i :: i in s.rows ==> s.rows[i].content == s.enqueued[i])
  }

  /** A relay's copies are faithful, and it marks as published only what the broker took. */
  predicate RelayOk(s: State, relay: Relay) {
    && (forall k :: 0 <= k < |relay.todo| ==>
          relay.todo[k].id in s.enqueued && relay.todo[k].row.content == s.enqueued[relay.todo[k].id])
    && (relay.stage.MarkingPublished? && relay.todo != [] ==> Delivered(s, relay.todo[0].id))
  }

  predicate RelaysOk(s: State) {
    forall r :: r in s.relays ==> RelayOk(s, s.relays[r])
  }

  predicate BrokerOk(s: State) {
    forall k :: 0 <= k < |s.broker| ==>
      var m := s.broker[k]; m.envelope.id in s.enqueued && m == MessageOf(m.envelope.id, s.enqueued[m.envelope.id])
  }

  predicate DeliveryOk(s: State) {
    forall i :: i in s.enqueued && (i in s.purged || (i in s.rows && s.rows[i].published.Some?)) ==> Delivered(s, i)
  }

  predicate Inv(s: State) {
    RowsOk(s) && RelaysOk(s) && BrokerOk(s) && DeliveryOk(s)
  }

  /** A relay's work is its own: no step of the store or of another relay touches it. */
  lemma RelaysAreIndependent(s: State, e: Event, q: RelayId)
    requires Enabled(s, e) && q in s.relays
    requires e.Enqueue? || e.Purge? || e.r != q
    ensures q in Apply(s, e).relays && Apply(s, e).relays[q] == s.relays[q]
  {
  }

  // ----- published rows -----

  lemma PublishedStep(s: State, e: Event, i: Id)
    requires Enabled(s, e) && i in s.rows && s.rows[i].published.Some? && i in s.enqueued
    ensures i in Apply(s, e).rows ==> Apply(s, e).rows[i] == s.rows[i]
    ensures i !in Apply(s, e).rows ==> i in Apply(s, e).purged
  {
  }

  /** Once published a row is final: no claim, mark or retry changes it until it is purged. */
  lemma {:induction false} PublishedRowIsFinal(s: State, es: seq<Event>, i: Id)
    requires Inv(s) && Feasible(s, es) && i in s.rows && s.rows[i].published.Some?
    ensures var f := RunAll(s, es); if i in f.rows then f.rows[i] == s.rows[i] else i in f.purged
    decreases |es|
  {
    if es != [] {
      var s1 := Apply(s, es[0]);
      PublishedStep(s, es[0], i);
      StepKeepsInv(s, es[0]);
      if i in s1.rows { PublishedRowIsFinal(s1, es[1..], i); } else { PurgedForGood(s1, es[1..], i); }
    }
  }

  lemma {:induction false} PurgedForGood(s: State, es: seq<Event>, i: Id)
    requires Inv(s) && Feasible(s, es) && i in s.purged
    ensures i in RunAll(s, es).purged && i !in RunAll(s, es).rows
    decreases |es|
  {
    if es != [] {
      StepKeepsInv(s, es[0]);
      PurgedForGood(Apply(s, es[0]), es[1..], i);
    }
  }

  /** A new event can be claimed at once. */
  lemma NewRowCanBeClaimed(s: State, id: Id, c: Content, now: int, r: RelayId, leaseUntil: int)
    requires Enabled(s, Enqueue(id, c, now)) && r !in s.relays
    ensures Enabled(Apply(s, Enqueue(id, c, now)), Claim(r, [id], now, leaseUntil))
  {
  }

  // ----- what claims do -----

  /** How many claims of the run took row `i`. */
  function Claims(es: seq<Event>, i: Id): nat {
    if es == [] then 0 else (if es[0].Claim? && i in es[0].ids then 1 else 0) + Claims(es[1..], i)
  }

  lemma ClaimStep(s: State, e: Event, i: Id)
    requires Enabled(s, e) && RowsOk(s) && i in s.rows && i in Apply(s, e).rows
    ensures Apply(s, e).rows[i].attempts == s.rows[i].attempts + if e.Claim? && i in e.ids then 1 else 0
    ensures e.Claim? && i in e.ids ==> Apply(s, e).rows[i].nextAttempt == e.leaseUntil && s.rows[i].nextAttempt <= e.now
  {
  }

  lemma {:induction false} PurgedStaysPurged(s: State, es: seq<Event>, i: Id)
    requires RowsOk(s) && RelaysOk(s) && Feasible(s, es) && i in s.purged
    ensures i !in RunAll(s, es).rows
    decreases |es|
  {
    if es != [] {
      RowsKept(s, es[0]);
      RelaysKept(s, es[0]);
      PurgedStaysPurged(Apply(s, es[0]), es[1..], i);
    }
  }

  lemma {:induction false} AttemptsGrow(s: State, es: seq<Event>, i: Id)
    requires RowsOk(s) && RelaysOk(s) && Feasible(s, es) && i in RunAll(s, es).rows
    ensures RunAll(s, es).rows[i].attempts == (if i in s.rows then s.rows[i].attempts else 0) + Claims(es, i)
    decreases |es|
  {
    if es != [] {
      var s1 := Apply(s, es[0]);
      RowsKept(s, es[0]);
      RelaysKept(s, es[0]);
      AttemptsGrow(s1, es[1..], i);
      if i in s.rows {
        if i in s1.rows { ClaimStep(s, es[0], i); } else { PurgedStaysPurged(s1, es[1..], i); }
      }
    }
  }

  /** A row's attempts count the claims that took it, over every run. */
  lemma AttemptsCountClaims(es: seq<Event>, i: Id)
    requires Feasible(EMPTY, es) && i in RunAll(EMPTY, es).rows
    ensures RunAll(EMPTY, es).rows[i].attempts == Claims(es, i)
  {
    AttemptsGrow(EMPTY, es, i);
  }

  lemma RowsKept(s: State, e: Event)
    requires Enabled(s, e) && RowsOk(s) && RelaysOk(s)
    ensures RowsOk(Apply(s, e))
  {
  }

  lemma BrokerKept(s: State, e: Event)
    requires Enabled(s, e) && RelaysOk(s) && BrokerOk(s)
    ensures BrokerOk(Apply(s, e))
  {
  }

  /** What is delivered stays delivered. */
  lemma DeliveredKept(s: State, e: Event, id: Id)
    requires Enabled(s, e) && id in s.enqueued && Delivered(s, id)
    ensures id in Apply(s, e).enqueued && Delivered(Apply(s, e), id)
  {
  }

  lemma DeliveryKept(s: State, e: Event)
    requires Enabled(s, e) && Inv(s)
    ensures DeliveryOk(Apply(s, e))
  {
    var s' := Apply(s, e);
    forall i | i in s'.enqueued && (i in s'.purged || (i in s'.rows && s'.rows[i].published.Some?))
      ensures Delivered(s', i)
    {
      if i in s.enqueued && Delivered(s, i) { DeliveredKept(s, e, i); }
    }
  }

  lemma OtherRelayKept(s: State, e: Event, relay: Relay)
    requires Enabled(s, e) && RelayOk(s, relay)
    ensures RelayOk(Apply(s, e), relay)
  {
    if relay.stage.MarkingPublished? && relay.todo != [] {
      DeliveredKept(s, e, relay.todo[0].id);
    }
  }

  lemma RelaysKept(s: State, e: Event)
    requires Enabled(s, e) && RowsOk(s) && RelaysOk(s)
    ensures RelaysOk(Apply(s, e))
  {
    var s' := Apply(s, e);
    forall r | r in s'.relays ensures RelayOk(s', s'.relays[r]) {
      if r in s.relays {
        OtherRelayKept(s, e, s.relays[r]);
      }
    }
  }

  lemma StepKeepsInv(s: State, e: Event)
    requires Enabled(s, e) && Inv(s)
    ensures Inv(Apply(s, e))
  {
    RowsKept(s, e);
    BrokerKept(s, e);
    DeliveryKept(s, e);
    RelaysKept(s, e);
  }

  lemma {:induction false} RunKeepsInv(s: State, es: seq<Event>)
    requires Inv(s) && Feasible(s, es)
    ensures Inv(RunAll(s, es))
    decreases |es|
  {
    if es != [] {
      StepKeepsInv(s, es[0]);
      RunKeepsInv(Apply(s, es[0]), es[1..]);
    }
  }

  /** The message is this event, field by field, under the row's own id. */
  predicate Carries(m: Message, id: Id, c: Content) {
    && m.topic == c.topic && m.key == c.key
    && m.envelope.id == id && m.envelope.eventType == c.topic && m.envelope.schemaVersion == "1"
    && m.envelope.service == c.service && m.envelope.timestamp == c.createdAt
    && m.envelope.correlation == c.correlation && m.envelope.payload == c.payload
  }

  predicate AtBroker(s: State, id: Id) {
    id in s.enqueued && exists k :: 0 <= k < |s.broker| && Carries(s.broker[k], id, s.enqueued[id])
  }

  lemma DeliveredIsAtBroker(s: State, id: Id)
    requires id in s.enqueued && Delivered(s, id)
    ensures AtBroker(s, id)
  {
    var k :| 0 <= k < |s.broker| && s.broker[k] == MessageOf(id, s.enqueued[id]);
    assert Carries(s.broker[k], id, s.enqueued[id]);
  }

  /**
   Nothing is lost, with any number of relays, refusals, unseen acceptances and stops: every event
   ever written is still a pending row with its content, or the broker holds a message that
   carries it. A row marked published, and a row that was purged, was accepted under an
   envelope whose id is the row's id.
   */
  lemma NothingIsLost(es: seq<Event>, i: Id)
    requires Feasible(EMPTY, es) && i in RunAll(EMPTY, es).enqueued
    ensures var s := RunAll(EMPTY, es);
            && (AtBroker(s, i) || (i in s.rows && s.rows[i].published.None? && s.rows[i].content == s.enqueued[i]))
            && (i in s.rows && s.rows[i].published.Some? ==> AtBroker(s, i))
            && (i in s.purged ==> AtBroker(s, i))
            && (i in s.rows || i in s.purged)
  {
    RunKeepsInv(EMPTY, es);
    var s := RunAll(EMPTY, es);
    assert i in s.rows || i in s.purged;
    if Delivered(s, i) { DeliveredIsAtBroker(s, i); }
  }

  /** Every delivery of the same row is the same message, so a consumer can drop repeats by id. */
  lemma RetriesAreIdentical(es: seq<Event>, j: nat, k: nat)
    requires Feasible(EMPTY, es)
    requires var b := RunAll(EMPTY, es).broker;
             j < |b| && k < |b| && b[j].envelope.id == b[k].envelope.id
    ensures var s := RunAll(EMPTY, es);
            s.broker[j] == s.broker[k] && s.broker[j].envelope.id in s.enqueued
  {
    RunKeepsInv(EMPTY, es);
    assert BrokerOk(RunAll(EMPTY, es));
  }

  /** No pending row is ever stuck: whatever happened before, a new relay can still deliver it. */
  lemma PendingCanBeDelivered(s: State, id: Id, r: RelayId, now: int, leaseUntil: int)
    requires Inv(s) && id in s.rows && s.rows[id].published.None?
    requires r !in s.relays && s.rows[id].nextAttempt <= now
    ensures var es := [Claim(r, [id], now, leaseUntil), Accept(r), MarkPublished(r, now)];
            && Feasible(s, es)
            && id in RunAll(s, es).rows && RunAll(s, es).rows[id].published == Some(now)
            && MessageOf(id, s.enqueued[id]) in RunAll(s, es).broker
  {
    var es := [Claim(r, [id], now, leaseUntil), Accept(r), MarkPublished(r, now)];
    var s1 := Apply(s, es[0]);
    assert s1.relays[r].todo == [Claimed(id, ClaimRow(s.rows[id], leaseUntil))];
    var s2 := Apply(s1, es[1]);
    assert s2.broker == s.broker + [MessageOf(id, s.enqueued[id])];
    var s3 := Apply(s2, es[2]);
    assert es[1..] == [es[1], es[2]] && es[1..][1..] == [es[2]] && es[1..][1..][1..] == [];
    assert Feasible(s3, []) && RunAll(s3, []) == s3;
    assert Feasible(s2, [es[2]]) && RunAll(s2, [es[2]]) == s3;
    assert Feasible(s1, [es[1], es[2]]) && RunAll(s1, [es[1], es[2]]) == s3;
  }

  // ----- the wait after a failure -----

  const U64_MAX: nat := 0xFFFF_FFFF_FFFF_FFFF

  /** `attempts` is the value after the claim; the shift is limited to 20. */
  function BackoffDelay(attempts: int, base: nat, max: nat): nat {
    Min(Min(base * Pow2(Min(Max(attempts - 1, 0), 20)), U64_MAX), max)
  }

  /**
   The delay is base doubled per failure up to max, with no overflow, exactly when the limited
   shift does not bite: up to 21 attempts, or when 2^20 doublings already reach the maximum,
   or when the base is 0.
   */
  lemma BackoffDelayDoublesIff(attempts: int, base: nat, max: nat)
    requires max <= U64_MAX
    ensures BackoffDelay(attempts, base, max) == Min(base * Pow2(Max(attempts - 1, 0)), max)
            <==> attempts <= 21 || base * Pow2(20) >= max || base == 0
    ensures BackoffDelay(attempts, base, max) <= max
  {
    if attempts > 21 {
      Pow2Monotone(21, attempts - 1);
      assert Pow2(21) == 2 * Pow2(20);
      LimitedShift(base, Pow2(20), Pow2(attempts - 1), max);
    }
  }

  lemma LimitedShift(base: nat, small: nat, big: nat, max: nat)
    requires 1 <= small && 2 * small <= big
    ensures Min(base * small, max) == Min(base * big, max) <==> base * small >= max || base == 0
  {
    assert base * big >= base * (2 * small) == 2 * (base * small);
    if base >= 1 {
      assert base * small >= 1 * small;
    }
  }

  // ----- one relay round as written -----

  datatype Stats = Stats(claimed: nat, published: nat, failed: nat, purged: nat)

  /** An unseen acceptance looks like a refusal to the relay. */
  datatype Reply = Accepted | Refused | AcceptedUnseen

  /** The broker's reply to one message, the clock reading after it, and how the store took the mark. */
  datatype Answer = Answer(reply: Reply, at: int, mark: StoreWrite)

  const I64_MAX: nat := 0x7FFF_FFFF_FFFF_FFFF

  /** When a refused row is tried again; a delay beyond the calendar's range counts as one second. */
  function NextTry(at: int, attempts: nat, base: nat, max: nat): int {
    var delay := BackoffDelay(attempts, base, max);
    at + if delay > I64_MAX then 1000 else delay
  }

  function Failures(answers: seq<Answer>): (n: nat)
    ensures n <= |answers|
  {
    if answers == [] then 0
    else (if answers[|answers| - 1].reply.Accepted? then 0 else 1) + Failures(answers[..|answers| - 1])
  }

  predicate AllKept(answers: seq<Answer>) {
    forall i :: 0 <= i < |answers| ==> answers[i].mark.Kept?
  }

  /** The round ends with the first mark that the store reports as failed. */
  function Reached(answers: seq<Answer>): (n: nat)
    ensures n <= |answers|
  {
    if answers == [] then 0 else if answers[0].mark.Kept? then 1 + Reached(answers[1..]) else 1
  }

  lemma {:induction false} ReachedIs(answers: seq<Answer>, n: nat)
    requires n <= |answers| && forall i :: 0 <= i < n ==> answers[i].mark.Kept?
    ensures n == |answers| ==> Reached(answers) == n
    ensures n < |answers| && !answers[n].mark.Kept? ==> Reached(answers) == n + 1
  {
    if n > 0 {
      ReachedIs(answers[1..], n - 1);
    }
  }

  function Delivery(c: Claimed, a: Answer): seq<Message> {
    if a.reply.Refused? then [] else [MessageOf(c.id, c.row.content)]
  }

  /** The messages that reached the broker, in claim order. */
  function Sent(batch: seq<Claimed>, answers: seq<Answer>): seq<Message>
    requires |batch| == |answers|
  {
    if batch == [] then []
    else
      var n := |batch| - 1;
      Sent(batch[..n], answers[..n]) + Delivery(batch[n], answers[n])
  }

  /** A claimed row after the broker's reply and the mark. */
  function Marked(r: Row, a: Answer, base: nat, max: nat): Row {
    if a.mark.Unkept? then r
    else if a.reply.Accepted? then r.(published := Some(a.at))
    else r.(nextAttempt := NextTry(a.at, r.attempts, base, max))
  }

  /** The store call that follows the broker's reply. */
  function AfterAnswer(rows: map<Id, Row>, c: Claimed, a: Answer, base: nat, max: nat): map<Id, Row> {
    if a.mark.Unkept? then rows
    else if a.reply.Accepted? then MarkPublishedRow(rows, c.id, a.at)
    else MarkFailedRow(rows, c.id, NextTry(a.at, c.row.attempts, base, max))
  }

  /** The table after the answers to a batch, row by row. */
  function RoundRows(rows: map<Id, Row>, batch: seq<Claimed>, answers: seq<Answer>, base: nat, max: nat): map<Id, Row>
    requires |batch| == |answers|
  {
    if batch == [] then rows
    else
      var n := |batch| - 1;
      AfterAnswer(RoundRows(rows, batch[..n], answers[..n], base, max), batch[n], answers[n], base, max)
  }

  /** The batch holds faithful copies of distinct unpublished rows. */
  predicate Fits(rows: map<Id, Row>, batch: seq<Claimed>) {
    && (forall k :: 0 <= k < |batch| ==>
          batch[k].id in rows && rows[batch[k].id] == batch[k].row && batch[k].row.published.None?)
    && (forall j, k :: 0 <= j < k < |batch| ==> batch[j].id != batch[k].id)
  }

  lemma {:induction false} RoundSparesOthers(rows: map<Id, Row>, batch: seq<Claimed>, answers: seq<Answer>,
                                             base: nat, max: nat, i: Id)
    requires |batch| == |answers| && i in rows && forall k :: 0 <= k < |batch| ==> batch[k].id != i
    ensures var after := RoundRows(rows, batch, answers, base, max); i in after && after[i] == rows[i]
  {
    if batch != [] {
      var n := |batch| - 1;
      RoundSparesOthers(rows, batch[..n], answers[..n], base, max, i);
    }
  }

  /**
   A round marks exactly its own rows: an accepted one is published, a refused one waits its
   backoff, one whose mark was not carried out stays leased, and (RoundSparesOthers) no
   other row changes.
   */
  lemma {:induction false} RoundMarksItsRows(rows: map<Id, Row>, batch: seq<Claimed>, answers: seq<Answer>,
                                             base: nat, max: nat, k: nat)
    requires |batch| == |answers| && Fits(rows, batch) && k < |batch|
    ensures var after := RoundRows(rows, batch, answers, base, max);
            batch[k].id in after && after[batch[k].id] == Marked(batch[k].row, answers[k], base, max)
  {
    var n := |batch| - 1;
    if k < n {
      RoundMarksItsRows(rows, batch[..n], answers[..n], base, max, k);
    } else {
      RoundSparesOthers(rows, batch[..n], answers[..n], base, max, batch[n].id);
    }
  }

  /**
   What a round does to the row `batch[k]`, in figures. An accepted message marks it published at the
   time of the answer. A refused one puts it off by `base` milliseconds doubled for every
   attempt but the first, at most 20 times and up to `max`; nothing else of it changes.
   */
  lemma RoundInFigures(rows: map<Id, Row>, batch: seq<Claimed>, answers: seq<Answer>, base: nat, max: nat, k: nat)
    requires |batch| == |answers| && Fits(rows, batch) && k < |batch| && !answers[k].mark.Unkept?
    ensures var after := RoundRows(rows, batch, answers, base, max); var id, at := batch[k].id, answers[k].at;
            && id in after && after[id].content == rows[id].content && after[id].attempts == rows[id].attempts
            && (answers[k].reply.Accepted? ==>
                  after[id].published == Some(at) && after[id].nextAttempt == rows[id].nextAttempt)
            && (!answers[k].reply.Accepted? ==> after[id].published.None?)
            && (!answers[k].reply.Accepted? && 1 <= rows[id].attempts <= 21 && max <= 0x7FFF_FFFF_FFFF_FFFF ==>
                  after[id].nextAttempt == at + Min(base * Pow2(rows[id].attempts - 1), max))
            && (!answers[k].reply.Accepted? && rows[id].attempts > 21 && max <= 0x7FFF_FFFF_FFFF_FFFF ==>
                  after[id].nextAttempt == at + Min(base * Pow2(20), max))
  {
    RoundMarksItsRows(rows, batch, answers, base, max, k);
    if 1 <= batch[k].row.attempts <= 21 { assert Min(Max(batch[k].row.attempts - 1, 0), 20) == batch[k].row.attempts - 1; }
  }

  /** A delay of more than the calendar holds is one second. */
  lemma TooLongIsOneSecond(at: int, attempts: nat, base: nat, max: nat)
    requires attempts >= 1 && base > 0x7FFF_FFFF_FFFF_FFFF && max > 0x7FFF_FFFF_FFFF_FFFF
    ensures NextTry(at, attempts, base, max) == at + 1000
  {
    var p := Pow2(Min(Max(attempts - 1, 0), 20));
    assert base * p >= base;
  }

  /** Table and broker after the first `n` rows of a batch, and the failures counted so far. */
  predicate Progress(rows0: map<Id, Row>, broker0: seq<Message>, batch: seq<Claimed>, answers: seq<Answer>,
                     base: nat, max: nat, n: nat, rows: map<Id, Row>, broker: seq<Message>, failed: nat)
    requires |batch| == |answers| && n <= |batch|
  {
    && rows == RoundRows(rows0, batch[..n], answers[..n], base, max)
    && broker == broker0 + Sent(batch[..n], answers[..n])
    && failed == Failures(answers[..n])
  }

  lemma BatchTurn(rows0: map<Id, Row>, broker0: seq<Message>, batch: seq<Claimed>, answers: seq<Answer>,
                  base: nat, max: nat, n: nat, rows: map<Id, Row>, broker: seq<Message>, failed: nat)
    requires |batch| == |answers| && n < |batch|
    requires Progress(rows0, broker0, batch, answers, base, max, n, rows, broker, failed)
    ensures Progress(rows0, broker0, batch, answers, base, max, n + 1,
                     AfterAnswer(rows, batch[n], answers[n], base, max), broker + Delivery(batch[n], answers[n]),
                     failed + if answers[n].reply.Accepted? then 0 else 1)
  {
    assert answers[..n + 1][..n] == answers[..n] && batch[..n + 1][..n] == batch[..n];
  }

  /** The rows that a purge may take: those of its pick that were published before the cutoff. */
  function Purgeable(rows: map<Id, Row>, pick: set<Id>, cutoff: int): set<Id> {
    set i | i in pick && i in rows && rows[i].published.Some? && rows[i].published.value < cutoff
  }

  /** The retention part of a round: switched off, or a deletion of at most the store's `pick`. */
  datatype Retention = Forever | Before(cutoff: int, pick: set<Id>, done: StoreWrite)

  function Deleted(rows: map<Id, Row>, keep: Retention): set<Id> {
    if keep.Forever? || keep.done.Unkept? then {} else Purgeable(rows, keep.pick, keep.cutoff)
  }

  /** The deletion takes exactly the rows of its pick that were published before the cutoff, unless it is not carried out. */
  lemma DeletedInFigures(rows: map<Id, Row>, keep: Retention, i: Id)
    ensures i in Deleted(rows, keep) <==>
              && keep.Before? && !keep.done.Unkept? && i in keep.pick && i in rows
              && rows[i].published.Some? && rows[i].published.value < keep.cutoff
  {
  }

  // ----- the round is one of the protocol's runs -----

  function ReplyEvent(r: RelayId, a: Answer): Event {
    match a.reply
    case Accepted => Accept(r)
    case Refused => Refuse(r)
    case AcceptedUnseen => AcceptUnseen(r)
  }

  function MarkEvents(r: RelayId, c: Claimed, a: Answer, base: nat, max: nat): seq<Event> {
    if a.mark.Unkept? then []
    else if a.reply.Accepted? then [MarkPublished(r, a.at)]
    else [MarkFailed(r, NextTry(a.at, c.row.attempts, base, max))]
  }

  function RowEvents(r: RelayId, c: Claimed, a: Answer, base: nat, max: nat): seq<Event> {
    [ReplyEvent(r, a)] + MarkEvents(r, c, a, base, max)
  }

  function RoundEvents(r: RelayId, batch: seq<Claimed>, answers: seq<Answer>, base: nat, max: nat): seq<Event>
    requires |batch| == |answers|
  {
    if batch == [] then []
    else
      var n := |batch| - 1;
      RoundEvents(r, batch[..n], answers[..n], base, max) + RowEvents(r, batch[n], answers[n], base, max)
  }

  lemma {:induction false} RunConcat(s: State, es: seq<Event>, more: seq<Event>)
    requires Feasible(s, es) && Feasible(RunAll(s, es), more)
    ensures Feasible(s, es + more) && RunAll(s, es + more) == RunAll(RunAll(s, es), more)
    decreases |es|
  {
    if es == [] {
      assert es + more == more;
    } else {
      RunConcat(Apply(s, es[0]), es[1..], more);
      assert (es + more)[1..] == es[1..] + more;
    }
  }

  lemma Single(s: State, e: Event)
    requires Enabled(s, e)
    ensures Feasible(s, [e]) && RunAll(s, [e]) == Apply(s, e)
  {
    assert [e][1..] == [];
    assert Feasible(Apply(s, e), []);
  }

  /** One row of a relay: table and broker move as in `Handle`, and the relay goes on unless the mark failed. */
  lemma RowIsRun(s: State, r: RelayId, c: Claimed, rest: seq<Claimed>, a: Answer, base: nat, max: nat)
    requires r in s.relays && s.relays[r] == Relay([c] + rest, Sending)
    ensures var es := RowEvents(r, c, a, base, max);
            && Feasible(s, es)
            && var f := RunAll(s, es);
               && f.rows == AfterAnswer(s.rows, c, a, base, max) && f.broker == s.broker + Delivery(c, a)
               && f.enqueued == s.enqueued && f.purged == s.purged
               && r in f.relays && f.relays == s.relays[r := f.relays[r]]
               && (a.mark.Kept? ==> f.relays[r] == Relay(rest, Sending))
  {
    var e := ReplyEvent(r, a);
    var s1 := Apply(s, e);
    Single(s, e);
    assert ([c] + rest)[1..] == rest;
    assert s1.relays[r].todo == [c] + rest;
    if a.mark.Unkept? {
      assert RowEvents(r, c, a, base, max) == [e];
    } else {
      var m := MarkEvents(r, c, a, base, max)[0];
      Single(s1, m);
      RunConcat(s, [e], [m]);
      assert Apply(s1, m).relays == s.relays[r := Relay(rest, Sending)];
    }
  }

  /** `f` is `s` after relay `r` has worked through `batch`; it goes on with `rest` unless a mark failed. */
  predicate RoundEnd(s: State, f: State, r: RelayId, batch: seq<Claimed>, rest: seq<Claimed>,
                     answers: seq<Answer>, base: nat, max: nat)
    requires |batch| == |answers|
  {
    && f.rows == RoundRows(s.rows, batch, answers, base, max) && f.broker == s.broker + Sent(batch, answers)
    && f.enqueued == s.enqueued && f.purged == s.purged
    && r in f.relays && f.relays == s.relays[r := f.relays[r]]
    && (AllKept(answers) ==> f.relays[r] == Relay(rest, Sending))
  }

  lemma RoundGrows(s: State, m: State, f: State, r: RelayId, batch: seq<Claimed>, rest: seq<Claimed>,
                   answers: seq<Answer>, base: nat, max: nat)
    requires |batch| == |answers| > 0 && r in s.relays
    requires var n := |batch| - 1;
             && RoundEnd(s, m, r, batch[..n], [batch[n]] + rest, answers[..n], base, max)
             && f.rows == AfterAnswer(m.rows, batch[n], answers[n], base, max)
             && f.broker == m.broker + Delivery(batch[n], answers[n])
             && f.enqueued == m.enqueued && f.purged == m.purged
             && r in f.relays && f.relays == m.relays[r := f.relays[r]]
             && (answers[n].mark.Kept? ==> f.relays[r] == Relay(rest, Sending))
    ensures RoundEnd(s, f, r, batch, rest, answers, base, max)
  {
    RoundBroker(s.broker, batch, answers);
  }

  lemma {:induction false} RoundIsRun(s: State, r: RelayId, batch: seq<Claimed>, rest: seq<Claimed>,
                                      answers: seq<Answer>, base: nat, max: nat)
    requires |batch| == |answers| && r in s.relays && s.relays[r] == Relay(batch + rest, Sending)
    requires batch != [] ==> AllKept(answers[..|answers| - 1])
    ensures var es := RoundEvents(r, batch, answers, base, max);
            Feasible(s, es) && RoundEnd(s, RunAll(s, es), r, batch, rest, answers, base, max)
    decreases |batch|
  {
    if batch == [] {
      assert batch + rest == rest && s.relays[r := s.relays[r]] == s.relays && s.broker + [] == s.broker;
    } else {
      var n := |batch| - 1;
      assert batch[..n] + ([batch[n]] + rest) == batch + rest;
      RoundIsRun(s, r, batch[..n], [batch[n]] + rest, answers[..n], base, max);
      var es := RoundEvents(r, batch[..n], answers[..n], base, max);
      var s1 := RunAll(s, es);
      RowIsRun(s1, r, batch[n], rest, answers[n], base, max);
      RunConcat(s, es, RowEvents(r, batch[n], answers[n], base, max));
      RoundGrows(s, s1, RunAll(s, es + RowEvents(r, batch[n], answers[n], base, max)), r, batch, rest, answers, base, max);
    }
  }

  lemma RoundBroker(broker: seq<Message>, batch: seq<Claimed>, answers: seq<Answer>)
    requires |batch| == |answers| > 0
    ensures var n := |batch| - 1;
            broker + Sent(batch, answers) == (broker + Sent(batch[..n], answers[..n])) + Delivery(batch[n], answers[n])
  {
  }

  function RelayEvents(r: RelayId, ids: seq<Id>, now: int, leaseUntil: int, claimed: seq<Claimed>,
                       answers: seq<Answer>, base: nat, max: nat): seq<Event>
    requires |claimed| == |answers|
  {
    [Claim(r, ids, now, leaseUntil)] + RoundEvents(r, claimed[..Reached(answers)], answers[..Reached(answers)], base, max)
  }

  lemma {:induction false} ReachedKept(answers: seq<Answer>)
    ensures answers != [] ==> Reached(answers) > 0 && AllKept(answers[..Reached(answers) - 1])
    ensures Reached(answers) == |answers| || !AllKept(answers)
  {
    if answers != [] && answers[0].mark.Kept? {
      ReachedKept(answers[1..]);
      var n := Reached(answers[1..]);
      if n > 0 {
        assert answers[..n] == [answers[0]] + answers[1..][..n - 1];
      }
      if !AllKept(answers[1..]) {
        var i :| 0 <= i < |answers[1..]| && !answers[1..][i].mark.Kept?;
        assert answers[i + 1] == answers[1..][i];
      }
    }
  }

  /**
   A whole round of a relay, claim and all, up to the first store error, is a run of the protocol
   that ends with exactly the table and the broker of `RelayOnce`; so what holds of every run
   holds of it. The deletion at its end is a `Purge` of that run's last state.
   */
  lemma RelayRoundIsRun(s: State, r: RelayId, ids: seq<Id>, now: int, leaseUntil: int,
                        answers: seq<Answer>, base: nat, max: nat, keep: Retention)
    requires |answers| == |ids| && Enabled(s, Claim(r, ids, now, leaseUntil))
    ensures var claimed := Copies(ClaimRows(s.rows, ids, leaseUntil), ids);
            var es, n := RelayEvents(r, ids, now, leaseUntil, claimed, answers, base, max), Reached(answers);
            && Feasible(s, es)
            && var f := RunAll(s, es);
               && f.rows == RoundRows(ClaimRows(s.rows, ids, leaseUntil), claimed[..n], answers[..n], base, max)
               && f.broker == s.broker + Sent(claimed[..n], answers[..n])
               && (keep.Before? ==> Enabled(f, Purge(Deleted(f.rows, keep), keep.cutoff)))
  {
    var e, n := Claim(r, ids, now, leaseUntil), Reached(answers);
    var s1, claimed := Apply(s, e), Copies(ClaimRows(s.rows, ids, leaseUntil), ids);
    assert claimed[..n] + claimed[n..] == claimed;
    ReachedKept(answers);
    if n > 0 { assert answers[..n][..n - 1] == answers[..n - 1]; }
    RoundIsRun(s1, r, claimed[..n], claimed[n..], answers[..n], base, max);
    var es := RoundEvents(r, claimed[..n], answers[..n], base, max);
    assert ([e] + es)[1..] == es;
  }

  datatype RoundResult = Done(stats: Stats) | StoreError

  class OutboxStore {
    var rows: map<Id, Row>
    var broker: seq<Message>

    constructor (rows: map<Id, Row>)
      ensures this.rows == rows && broker == []
    {
      this.rows, broker := rows, [];
    }

    /** Sends one claimed row and marks it by what the relay saw of the broker's reply. */
    method Handle(row: Claimed, answer: Answer, base: nat, max: nat)
      modifies this
      ensures broker == old(broker) + Delivery(row, answer)
      ensures rows == AfterAnswer(old(rows), row, answer, base, max)
      ensures row.id in old(rows) && old(rows)[row.id].published.None? && !answer.mark.Unkept? ==>
                && row.id in rows && rows == old(rows)[row.id := rows[row.id]]
                && (answer.reply.Accepted? ==> rows[row.id] == old(rows)[row.id].(published := Some(answer.at)))
                && (!answer.reply.Accepted? && 1 <= row.row.attempts <= 21 && max <= 0x7FFF_FFFF_FFFF_FFFF ==>
                      rows[row.id] == old(rows)[row.id].(nextAttempt := answer.at + Min(base * Pow2(row.row.attempts - 1), max)))
    {
      if !answer.reply.Refused? { broker := broker + [MessageOf(row.id, row.row.content)]; }
      if answer.reply.Accepted? {
        if !answer.mark.Unkept? { rows := MarkPublishedRow(rows, row.id, answer.at); }
      } else {
        var delay := BackoffDelay(row.row.attempts, base, max);
        var next := answer.at + if delay > I64_MAX then 1000 else delay;
        if !answer.mark.Unkept? { rows := MarkFailedRow(rows, row.id, next); }
      }
    }

    /** The loop over a claimed batch, left at the first mark that the store reports as failed. */
    method HandleAll(claimed: seq<Claimed>, answers: seq<Answer>, base: nat, max: nat)
      returns (published: nat, failed: nat, ok: bool)
      requires |answers| == |claimed|
      modifies this
      ensures ok <==> AllKept(answers)
      ensures ok ==> published + failed == |claimed| && failed == Failures(answers)
      ensures var n := Reached(answers);
              && broker == old(broker) + Sent(claimed[..n], answers[..n])
              && rows == RoundRows(old(rows), claimed[..n], answers[..n], base, max)
    {
      published, failed := 0, 0;
      for n := 0 to |claimed|
        invariant published + failed == n && forall i :: 0 <= i < n ==> answers[i].mark.Kept?
        invariant Progress(old(rows), old(broker), claimed, answers, base, max, n, rows, broker, failed)
      {
        BatchTurn(old(rows), old(broker), claimed, answers, base, max, n, rows, broker, failed);
        Handle(claimed[n], answers[n], base, max);
        if !answers[n].mark.Kept? {
          ReachedIs(answers, n);
          return published, failed, false;
        }
        if answers[n].reply.Accepted? {
          published := published + 1;
        } else {
          failed := failed + 1;
        }
      }
      ReachedIs(answers, |answers|);
      assert answers[..|claimed|] == answers;
      ok := true;
    }

    /**
     One round. `claim` and `gauges` tell how the store took the claim and the counts at the end.
     A complete round counts every claimed row once; whatever fails on the way, the messages at
     the broker and the table are those of the rows reached.
     */
    method RelayOnce(ids: seq<Id>, claim: StoreWrite, answers: seq<Answer>, leaseUntil: int, base: nat, max: nat,
                     keep: Retention, gauges: bool)
      returns (r: RoundResult)
      requires |answers| == |ids| && forall i :: i in ids ==> i in rows
      modifies this
      ensures claim.Unkept? ==> rows == old(rows)
      ensures claim.KeptUnseen? ==> rows == ClaimRows(old(rows), ids, leaseUntil)
      ensures !claim.Kept? ==> broker == old(broker) && r == StoreError
      ensures claim.Kept? ==>
                var claimed, n := Copies(ClaimRows(old(rows), ids, leaseUntil), ids), Reached(answers);
                var after := RoundRows(ClaimRows(old(rows), ids, leaseUntil), claimed[..n], answers[..n], base, max);
                && broker == old(broker) + Sent(claimed[..n], answers[..n])
                && rows == (if AllKept(answers) then after - Deleted(after, keep) else after)
                && r == if AllKept(answers) && (keep.Before? ==> keep.done.Kept?) && gauges
                        then Done(Stats(|ids|, |ids| - Failures(answers), Failures(answers), |Deleted(after, keep)|))
                        else StoreError
    {
      if !claim.Unkept? { rows := ClaimRows(rows, ids, leaseUntil); }
      if !claim.Kept? { return StoreError; }
      var claimed := Copies(rows, ids);
      var published, failed, ok := HandleAll(claimed, answers, base, max);
      if !ok { return StoreError; }
      var gone: set<Id> := {};
      if keep.Before? {
        gone := Deleted(rows, keep);
        rows := rows - gone;
        if !keep.done.Kept? { return StoreError; }
      }
      if !gauges { return StoreError; }
      r := Done(Stats(|claimed|, published, failed, |gone|));
    }
  }
}
