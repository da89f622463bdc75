/** What is delivered: what leaves the queue is sent, a retry pass sends again exactly what is due, recovery forgets
    nothing that can still be sent, and a publish that is accepted is written or waits. */
module SessionDelivered {
  import opened MqttTypes
  import opened Inflight
  import opened SessionDelivery
  import opened SessionSafety
  import opened SessionAgreement
  import opened SessionAcknowledged
  import MessageExpiry

  // ---- what leaves the queue ----

  /** The publish that was taken from the queue was written, or is being delivered; or its entry is gone, or it has
      expired. */
  ghost predicate Handled(s: Session, d: Deferred) {
    match d.registered
    case None => exists k :: k in s.deliveries && s.deliveries[k].publish == d.publish
    case Some(k) =>
      || d.publish.packetIdentifier.None? || MessageExpiry.HasExpired(d.publish, s.clock)
      || d.publish.packetIdentifier.value !in s.memory.table
      || (k in s.wire.written && Copy(k, d.publish.packetIdentifier.value) in s.wire.outstanding)
  }

  /** What a drain may change: it writes and spawns, and removes entries. */
  predicate Goes(s: Session, s': Session) {
    && s'.clock == s.clock && s.wire.outstanding <= s'.wire.outstanding && s.wire.written <= s'.wire.written
    && s'.memory.table.Keys <= s.memory.table.Keys
    && (forall k :: k in s.deliveries ==> k in s'.deliveries && s'.deliveries[k] == s.deliveries[k])
  }

  lemma HandledStays(s: Session, s': Session, d: Deferred)
    requires Handled(s, d) && Goes(s, s')
    ensures Handled(s', d)
  {
    match d.registered
    case None =>
      var k :| k in s.deliveries && s.deliveries[k].publish == d.publish;
      assert k in s'.deliveries && s'.deliveries[k].publish == d.publish;
    case Some(_) =>
  }

  lemma TurnGoes(s: Session, f: Faults)
    requires Safe(s) && Drainable(s)
    ensures Goes(s, DrainStep(s, f).0)
  {
    if s.flow.queue[0].registered.Some? {
      RegisteredTurn(s, f);
      forall id ensures id in DrainStep(s, f).0.memory.table ==> id in s.memory.table {
        TurnLeaves(s, f, id);
      }
    } else {
      assert KeyOk(s, s.nextKey);
    }
  }

  lemma RegisteredIsHandled(s: Session, d: Deferred, f: Faults)
    requires d.registered.Some?
    requires d.publish.packetIdentifier.Some? ==> EntryKept(s.memory, s.wire, d.publish.packetIdentifier.value)
    ensures var (s', outcome) := DeliverRegistered(s, d.publish, d.registered.value, f);
            !outcome.Failed? ==> Handled(s', d)
  {
  }

  lemma TurnHandles(s: Session, f: Faults)
    requires Safe(s) && Drainable(s) && DrainStep(s, f).1
    ensures Handled(DrainStep(s, f).0, s.flow.queue[0])
  {
    var d := s.flow.queue[0];
    if d.registered.Some? {
      if d.publish.packetIdentifier.Some? {
        assert EntryOk(s.memory, s.flow.queue, s.wire, s.clock, d.publish.packetIdentifier.value);
      }
      RegisteredTurn(s, f);
      RegisteredIsHandled(s, d, f);
    } else {
      assert s.nextKey in DrainStep(s, f).0.deliveries;
    }
  }

  /** Draining takes publishes from the front of the queue, and each that it takes is handled. */
  lemma {:induction false} WhatLeavesTheQueueIsSent(s: Session, f: Faults) returns (n: nat)
    requires Safe(s)
    ensures n <= |s.flow.queue| && Drained(s, f).flow.queue == s.flow.queue[n..] && Goes(s, Drained(s, f))
    ensures forall i :: 0 <= i < n ==> Handled(Drained(s, f), s.flow.queue[i])
    decreases |s.flow.queue|
  {
    n := 0;
    if Drainable(s) {
      var (s1, more) := DrainStep(s, f);
      TurnShrinksQueue(s, f);
      TurnGoes(s, f);
      if more {
        DrainStepKeepsSafe(s, f);
        TurnHandles(s, f);
        n := WhatLeavesTheQueueIsSent(s1, f);
        HandledStays(s1, Drained(s1, f), s.flow.queue[0]);
        forall i | 0 <= i < n + 1 ensures Handled(Drained(s, f), s.flow.queue[i]) {
          assert i > 0 ==> s1.flow.queue[i - 1] == s.flow.queue[i];
        }
        n := n + 1;
      }
    }
  }

  // ---- retry ----

  /** The entry waits for PUBACK or PUBREC, its payload is there and has not expired. */
  predicate CanBeSent(m: Memory, id: u16, now: u64) {
    && id in m.table && (m.table[id].state.WaitPuback? || m.table[id].state.WaitPubrec?) && m.table[id].packetKey.Some?
    && m.table[id].packetKey.value in m.store
    && !MessageExpiry.HasExpired(m.store[m.table[id].packetKey.value], now)
  }

  /** No publish waits in the queue under this identifier. */
  predicate NotInQueue(queue: seq<Deferred>, id: u16) {
    forall d :: d in queue && d.registered.Some? ==> d.publish.packetIdentifier != Some(id)
  }

  /** The packet a retry pass is to send for the entry. */
  function PacketOf(m: Memory, id: u16): Copy
    requires id in m.table && m.table[id].packetKey.Some? && m.table[id].packetKey.value in m.store
  {
    var k := m.table[id].packetKey.value;
    Copy(k, if m.store[k].packetIdentifier.Some? then m.store[k].packetIdentifier.value else 0)
  }

  /** The expiry pass leaves alone what can be sent. */
  lemma SendableStays(s: Session, f: Faults, id: u16)
    requires Safe(s)
    ensures var m := ExpiryPass(s, f).0.memory;
            && (CanBeSent(s.memory, id, s.clock) <==> CanBeSent(m, id, s.clock))
            && (CanBeSent(m, id, s.clock) ==> PacketOf(m, id) == PacketOf(s.memory, id))
  {
    assert EntryOk(s.memory, s.flow.queue, s.wire, s.clock, id);
    if CanBeSent(s.memory, id, s.clock) {
      var k := s.memory.table[id].packetKey.value;
      forall other | other in Removable(s.memory, s.clock, Spared(s, f))
        ensures s.memory.table[other].packetKey != Some(k)
      {
        assert EntryOk(s.memory, s.flow.queue, s.wire, s.clock, other);
      }
    }
  }

  lemma RetryRestarts(s: Session, due: set<u16>, f: Faults, id: u16)
    requires Safe(s) && id in due && CanBeSent(s.memory, id, s.clock) && NotInQueue(s.flow.queue, id)
    ensures var s' := RetryHandled(s, due, f);
            id in s'.memory.table && s'.memory.table[id].lastModified == s.clock
  {
    SendableStays(s, f, id);
    assert EntryOk(s.memory, s.flow.queue, s.wire, s.clock, id);
    QueuedUnderItsId(s, s.memory.table[id].packetKey.value);
    DrainLeaves(RetrySent(s, due, f), f, id);
  }

  /** A retry pass sends again every due publish that can be sent and does not wait in the queue, unless its write
      fails, and the entry starts to wait anew. */
  lemma RetryResends(s: Session, due: set<u16>, f: Faults, id: u16)
    requires Safe(s) && id in due && CanBeSent(s.memory, id, s.clock) && NotInQueue(s.flow.queue, id)
    requires s.memory.table[id].packetKey.value !in f.writes
    ensures var s' := Apply(s, InflightRetry(due, f));
            && PacketOf(s.memory, id) in s'.wire.outstanding && s.memory.table[id].packetKey.value in s'.wire.written
            && id in s'.memory.table && s'.memory.table[id].lastModified == s.clock
  {
    var m := ExpiryPass(s, f).0.memory;
    SendableStays(s, f, id);
    RetryRestarts(s, due, f, id);
    assert id in Retried(m, s.flow.queue, due, s.clock);
    assert PacketOf(s.memory, id) in CopiesAt(m, Retried(m, s.flow.queue, due, s.clock), f.writes);
    RetrySentIsSafe(s, due, f);
    var _ := WhatLeavesTheQueueIsSent(RetrySent(s, due, f), f);
  }

  /** It sends nothing else, but for what it drains from the queue. */
  lemma RetrySendsNothingElse(s: Session, due: set<u16>, f: Faults, c: Copy)
    requires Safe(s) && c in RetrySent(s, due, f).wire.outstanding && c !in s.wire.outstanding
    ensures exists id :: id in due && CanBeSent(s.memory, id, s.clock) && NotInQueue(s.flow.queue, id)
                         && c == PacketOf(s.memory, id) && c.key !in f.writes
  {
    var m := ExpiryPass(s, f).0.memory;
    var id :| id in Retried(m, s.flow.queue, due, s.clock) && id in m.table && m.table[id].packetKey == Some(c.key)
              && c == Copy(c.key, Carried(m.store[c.key])) && c.key !in f.writes;
    SendableStays(s, f, id);
    assert NotInQueue(s.flow.queue, id);
  }

  /** What has expired before it was sent is forgotten, with its payload, unless the replicated state refuses. */
  lemma RetryForgetsTheExpired(s: Session, due: set<u16>, f: Faults, id: u16)
    requires Safe(s) && id in s.memory.table && IsWaiting(s.memory.table[id].state)
    requires !s.memory.table[id].deliveryStarted && !CanBeSent(s.memory, id, s.clock)
    requires s.profile.clean || id !in f.discards
    ensures var s' := Apply(s, InflightRetry(due, f));
            && id !in s'.memory.table && s.memory.table[id].packetKey.Some?
            && s.memory.table[id].packetKey.value !in s'.memory.store
  {
    assert EntryOk(s.memory, s.flow.queue, s.wire, s.clock, id);
    assert id in Removable(s.memory, s.clock, Spared(s, f));
    var s1 := RetrySent(s, due, f);
    assert id !in s1.memory.table && s.memory.table[id].packetKey.value !in s1.memory.store;
    DrainLeaves(s1, f, id);
  }

  // ---- recovery ----

  /** After recovery every publish that can still be sent has been written or waits in the queue, whatever fails. */
  lemma RecoveryForgetsNothing(s: Session, f: Faults, id: u16)
    requires Kept(s) && CanBeSent(s.memory, id, s.clock)
    ensures var s', k := RecoveryHandled(s, f), s.memory.table[id].packetKey.value;
            && id in s'.memory.table && s'.memory.table[id].packetKey == Some(k)
            && ((k in s'.wire.written && Copy(k, id) in s'.wire.outstanding)
                || exists d :: d in s'.flow.queue && d.registered == Some(k))
  {
    var s1, m := RecoveryQueued(s, f), ExpiryPass(s, f).0.memory;
    var queue := Recovered(m, s.clock, U16_MAX + 1);
    RecoveryQueuedIsSafe(s, f);
    SendableIsRecovered(s, f, id);
    var d := Deferred(Resent(m, id), m.table[id].packetKey);
    assert s1.flow.queue == queue && d in queue;
    HandledOrLeft(s1, f, d);
    DrainLeaves(s1, f, id);
    RecoveredIsUnexpired(s, f, id);
  }

  lemma HandledOrLeft(s: Session, f: Faults, d: Deferred)
    requires Safe(s) && d in s.flow.queue
    ensures Drained(s, f).clock == s.clock && (Handled(Drained(s, f), d) || d in Drained(s, f).flow.queue)
  {
    var n := WhatLeavesTheQueueIsSent(s, f);
    var i :| 0 <= i < |s.flow.queue| && s.flow.queue[i] == d;
    if i >= n {
      assert Drained(s, f).flow.queue[i - n] == d;
    }
  }

  lemma SendableIsRecovered(s: Session, f: Faults, id: u16)
    requires Kept(s) && CanBeSent(s.memory, id, s.clock)
    ensures var m := ExpiryPass(s, f).0.memory;
            && CanBeSent(m, id, s.clock) && m.table[id] == s.memory.table[id]
            && Deferred(Resent(m, id), m.table[id].packetKey) in Recovered(m, s.clock, U16_MAX + 1)
            && m.store[m.table[id].packetKey.value].packetIdentifier == Some(id)
  {
    var m := ExpiryPass(s, f).0.memory;
    var k := s.memory.table[id].packetKey.value;
    assert EntryKept(s.memory, s.wire, id) && Agreed(s.memory, id);
    forall other | other in Removable(s.memory, s.clock, Spared(s, f))
      ensures s.memory.table[other].packetKey != Some(k)
    {
      assert EntryKept(s.memory, s.wire, other);
    }
    RecoveredMisses(m, s.clock, U16_MAX + 1, id);
  }

  /** Recovery queues publishes in the order of their identifiers. */
  lemma {:induction false} RecoveredInOrder(m: Memory, now: u64, n: int, i: nat, j: nat)
    requires 0 <= n <= U16_MAX + 1 && forall id :: Agreed(m, id)
    requires i < j < |Recovered(m, now, n)|
    ensures var queue := Recovered(m, now, n);
            && queue[i].publish.packetIdentifier.Some? && queue[j].publish.packetIdentifier.Some?
            && queue[i].publish.packetIdentifier.value < queue[j].publish.packetIdentifier.value < n
  {
    var before, queue := Recovered(m, now, n - 1), Recovered(m, now, n);
    if j < |before| {
      RecoveredInOrder(m, now, n - 1, i, j);
    } else {
      assert queue[i] in before && Agreed(m, n - 1);
      RecoveredHolds(m, now, n - 1, queue[i]);
      var id: u16 :| id < n - 1 && Resendable(m, id, now) && queue[i] == Deferred(Resent(m, id), m.table[id].packetKey);
      assert Agreed(m, id);
    }
  }

  /** Nothing that recovery queues has expired. */
  lemma RecoveredIsUnexpired(s: Session, f: Faults, id: u16)
    requires Kept(s)
    ensures var m := ExpiryPass(s, f).0.memory;
            !ExpiredInQueue(Recovered(m, s.clock, U16_MAX + 1), id, s.clock)
  {
    var m := ExpiryPass(s, f).0.memory;
    forall d | d in Recovered(m, s.clock, U16_MAX + 1) ensures !MessageExpiry.HasExpired(d.publish, s.clock) {
      RecoveredHolds(m, s.clock, U16_MAX + 1, d);
    }
  }

  // ---- acceptance ----

  /** The entry `id`, which was the least free one, now waits for the acknowledgement of the publish `k`. */
  predicate Admitted(s: Session, s': Session, id: u16, k: Key, qos: u8) {
    && 1 <= id && id !in s.memory.table && (forall j: u16 :: 1 <= j < id ==> j in s.memory.table)
    && InState(s'.memory, id, if qos == 1 then WaitPuback else WaitPubrec)
    && s'.memory.table[id].packetKey == Some(k) && s'.memory.table[id].lastModified == s.clock
    && k in s'.memory.store && s'.memory.store[k].packetIdentifier == Some(id)
  }

  /** The publish went out under its identifier. */
  predicate IsWritten(s: Session, s': Session, id: u16, k: Key) {
    && s'.wire == Wire(s.wire.outstanding + {Copy(k, id)}, s.wire.written + {k})
    && id in s'.memory.table && s'.memory.table[id].deliveryStarted
  }

  lemma ActiveDelivers(s: Session, publish: Publish, wait: bool) returns (id: u16)
    requires 1 <= publish.qos <= 2 && publish.packetIdentifier.None? && |s.memory.table| < U16_MAX
    ensures var (s', status) := DeliverActive(s, publish, wait, NO_FAULTS);
            && Admitted(s, s', id, s.nextKey, publish.qos) && s'.flow == s.flow && s'.pending == s.pending
            && (wait ==>
                  && s'.wire == s.wire && !s'.memory.table[id].deliveryStarted
                  && status == DeferredAs(s'.memory.store[s.nextKey], s.nextKey))
            && (!wait ==> IsWritten(s, s', id, s.nextKey) && status == SentNow)
  {
    AllocationSucceedsBelowCapacity(s.memory.table);
    id := LeastFree(s.memory.table, 1).value;
  }

  /** On a live connection, with nothing failing, a persistent session writes an unexpired QoS 1 or 2 publish at once if
      a slot is free, and otherwise puts it at the end of the queue; either way its entry waits for the
      acknowledgement of its QoS. */
  lemma AcceptanceDelivers(s: Session, publish: Publish) returns (id: u16)
    requires !s.profile.clean && s.active && 1 <= publish.qos <= 2 && !MessageExpiry.HasExpired(publish, s.clock)
    requires publish.packetIdentifier.None? && |s.memory.table| < U16_MAX
    ensures var s', k := Apply(s, Outbound(publish, NO_FAULTS)), s.nextKey;
            && Admitted(s, s', id, k, publish.qos)
            && if s.profile.version.V5_0? && s.flow.slots >= Max(1, s.profile.receiveMaximum) then
                 && s'.wire == s.wire && !s'.memory.table[id].deliveryStarted
                 && s'.flow == Flow(s.flow.slots, s.flow.queue + [Deferred(s'.memory.store[k], Some(k))])
               else
                 && IsWritten(s, s', id, k)
                 && s'.flow == Flow(s.flow.slots + (if s.profile.version.V5_0? then 1 else 0), s.flow.queue)
  {
    var prepared := MessageExpiry.Prepared(publish, s.profile.version, s.clock).value;
    var uses := UsesSlot(s, publish);
    var wait := uses && !CanReserve(s);
    id := ActiveDelivers(if uses && !wait then Reserved(s) else s, prepared, wait);
  }

  /** Without a connection it is stored and put on the list for the client's return. */
  lemma AcceptanceWaitsForTheClient(s: Session, publish: Publish)
    requires !s.profile.clean && !s.active && 1 <= publish.qos <= 2 && !MessageExpiry.HasExpired(publish, s.clock)
    ensures var s', k := Apply(s, Outbound(publish, NO_FAULTS)), s.nextKey;
            && s'.pending == s.pending + [k] && k in s'.memory.store && SameMessage(s'.memory.store[k], publish)
            && s'.wire == s.wire && s'.flow == s.flow && s'.memory.table == s.memory.table
  {
  }

  // ---- a clean session ----

  /** `id` is the publish's own identifier, or, if it has none, the least free one. */
  predicate IsChosen(m: Memory, publish: Publish, id: u16) {
    if publish.packetIdentifier.Some? then publish.packetIdentifier == Some(id)
    else 1 <= id && id !in m.table && forall j: u16 :: 1 <= j < id ==> j in m.table
  }

  /** A spawned delivery sends nothing that has expired, and otherwise picks an identifier; QoS 0 needs none. */
  lemma PrepareIsExact(s: Session, k: Key)
    requires At(s, k, Starting)
    ensures var d, d' := s.deliveries[k], Apply(s, Prepare(k)).deliveries[k];
            if MessageExpiry.HasExpired(d.publish, s.clock) then d'.phase == Ended(false)
            else if d.publish.qos == 0 then d'.phase == Ended(true)
            else
              || (&& d'.phase == Storing && SameMessage(d'.publish, d.publish)
                  && d'.publish.packetIdentifier.Some?
                  && IsChosen(s.memory, d.publish, d'.publish.packetIdentifier.value))
              || (&& d'.phase == Ended(false) && d.publish.packetIdentifier.None?
                  && forall id: u16 :: !IsChosen(s.memory, d.publish, id))
  {
    var d := s.deliveries[k];
    if d.publish.packetIdentifier.None? {
      var id := LeastFree(s.memory.table, 1);
      assert id.Some? ==> IsChosen(s.memory, d.publish, id.value);
      assert id.None? ==> forall j: u16 :: 1 <= j ==> j in s.memory.table;
    } else {
      assert IsChosen(s.memory, d.publish, d.publish.packetIdentifier.value);
    }
  }

  /** Stored and not disturbed, it registers under that identifier and goes out. */
  lemma SpawnedDeliveryGoesOut(s: Session, k: Key)
    requires At(s, k, Storing) && s.deliveries[k].publish.packetIdentifier.Some?
    requires s.deliveries[k].publish.packetIdentifier.value !in s.memory.table && 1 <= s.deliveries[k].publish.qos <= 2
    ensures var s1 := Apply(s, Put(k, true));
            && Enabled(s1, Register(k, true))
            && var s', d := Apply(s1, Register(k, true)), s.deliveries[k];
               var id := d.publish.packetIdentifier.value;
               && IsWritten(s, s', id, k) && s'.deliveries == s.deliveries[k := d.(phase := Ended(true))]
               && s'.memory.store == s.memory.store[k := d.publish] && s'.memory.table[id].packetKey == Some(k)
               && InState(s'.memory, id, if d.publish.qos == 1 then WaitPuback else WaitPubrec)
               && s'.flow == s.flow
  {
  }

  // ---- received publishes and cleanup ----

  /** A received QoS 1 or 2 publish is stored under a new key and takes its identifier: QoS 1 is finished with that, QoS
      2 waits for PUBREL. Nothing else changes. */
  lemma InboundIsExact(s: Session, id: u16, publish: Publish)
    requires publish.qos <= 2
    ensures var s', k := Apply(s, Inbound(id, publish)), s.nextKey;
            if publish.qos == 0 then s' == s
            else
              && InState(s'.memory, id, if publish.qos == 1 then Finish else WaitPubrel)
              && s'.memory.table[id].packetKey == Some(k) && s'.memory.table - {id} == s.memory.table - {id}
              && k in s'.memory.store && SameMessage(s'.memory.store[k], publish)
              && s'.memory.store[k].packetIdentifier == Some(id)
              && s'.memory.store - {k} == s.memory.store - {k} && s'.flow == s.flow && s'.wire == s.wire
  {
  }

  /** Cleanup takes exactly the finished entries, and their payloads. */
  lemma CleanupIsExact(s: Session, id: u16)
    requires Safe(s)
    ensures var s' := Apply(s, Cleanup);
            if id in s.memory.table && !s.memory.table[id].state.Finish? then
              && id in s'.memory.table && s'.memory.table[id] == s.memory.table[id]
              && s.memory.table[id].packetKey.Some? && s.memory.table[id].packetKey.value in s'.memory.store
            else
              && id !in s'.memory.table
              && (id in s.memory.table ==>
                    s.memory.table[id].packetKey.Some? && s.memory.table[id].packetKey.value !in s'.memory.store)
  {
    assert EntryOk(s.memory, s.flow.queue, s.wire, s.clock, id);
    CleanupKeepsSafe(s);
    var s' := Apply(s, Cleanup);
    assert EntryOk(s'.memory, s'.flow.queue, s'.wire, s'.clock, id);
  }
}
