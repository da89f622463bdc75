/** What every message keeps, whatever fails: entries and payloads agree, and nothing that was written is
    ever treated as unsent. */
module SessionSafety {
  import opened MqttTypes
  import opened Inflight
  import opened SessionDelivery
  import MessageExpiry

  ghost predicate Queued(queue: seq<Deferred>, k: Key) {
    exists d :: d in queue && d.registered == Some(k)
  }

  // ---- the invariant ----

  /** An entry has its own identifier, a key registered under it, and, until it is finished, its payload. What
      was written counts as started. */
  predicate EntryKept(m: Memory, w: Wire, id: u16) {
    id in m.table ==>
      var e := m.table[id];
      && e.packetIdentifier == id && e.packetKey.Some?
      && var k := e.packetKey.value;
         && k in m.idOf && m.idOf[k] == id
         && (!e.state.Finish? ==> k in m.store)
         && (IsWaiting(e.state) ==> m.store[k].qos > 0)
         && (k in w.written ==> e.deliveryStarted)
  }

  /** What is not started waits in the queue, or has expired. */
  ghost predicate EntryOk(m: Memory, queue: seq<Deferred>, w: Wire, now: u64, id: u16) {
    && EntryKept(m, w, id)
    && (id in m.table && IsWaiting(m.table[id].state) && !m.table[id].deliveryStarted ==>
          var k := m.table[id].packetKey.value;
          Queued(queue, k) || MessageExpiry.IsExpired(m.store[k], now))
  }

  /** Only QoS 1 and 2 publishes wait; a registered one carries the identifier of its registration, and expires
      when its payload does. */
  ghost predicate DeferredOk(p: Profile, m: Memory, d: Deferred) {
    && d.publish.qos > 0
    && (d.registered.None? ==> p.clean)
    && (d.registered.Some? ==>
          && d.registered.value in m.idOf && d.publish.packetIdentifier == Some(m.idOf[d.registered.value])
          && (d.registered.value in m.store ==> m.store[d.registered.value].expiresAt == d.publish.expiresAt))
  }

  /** The key was registered under the publish's identifier, and its entry, if it still has one, is started. */
  predicate StartedAs(m: Memory, k: Key, publish: Publish) {
    && k in m.idOf && publish.packetIdentifier == Some(m.idOf[k])
    && (Holding(m, m.idOf[k], k) ==> m.table[m.idOf[k]].deliveryStarted)
  }

  ghost predicate DeliveryOk(p: Profile, m: Memory, k: Key, d: Delivery) {
    && p.clean
    && match d.phase
       case Starting => k !in m.idOf
       case Storing => k !in m.idOf && d.publish.packetIdentifier.Some? && d.publish.qos > 0
       case Registering =>
         && k !in m.idOf && d.publish.packetIdentifier.Some? && d.publish.qos > 0
         && k in m.store && m.store[k] == d.publish
       case Refreshing => StartedAs(m, k, d.publish) && d.publish.qos > 0
       case Ended(_) => true
  }

  predicate Underway(deliveries: map<Key, Delivery>, k: Key) {
    k in deliveries && !deliveries[k].phase.Ended?
  }

  /** Keys are drawn in order, and a delivery that is under way is not in the queue. */
  ghost predicate KeyOk(s: Session, k: Key) {
    && (k in s.wire.written ==> k in s.memory.idOf)
    && (Underway(s.deliveries, k) ==> !Queued(s.flow.queue, k))
    && (k >= s.nextKey ==>
          && k !in s.memory.idOf && k !in s.memory.store && k !in s.deliveries
          && !Queued(s.flow.queue, k))
  }

  ghost predicate Safe(s: Session) {
    && (forall id :: EntryOk(s.memory, s.flow.queue, s.wire, s.clock, id))
    && (forall d :: d in s.flow.queue ==> DeferredOk(s.profile, s.memory, d))
    && (forall k :: k in s.deliveries ==> DeliveryOk(s.profile, s.memory, k, s.deliveries[k]))
    && (forall k :: KeyOk(s, k))
    && (forall c :: c in s.wire.outstanding ==> c.key in s.wire.written)
  }

  // ---- the drain loop keeps it ----

  /** The parts of a session that a registered delivery leaves alone. */
  predicate SameRest(s: Session, s': Session) {
    && s'.flow == s.flow && s'.profile == s.profile && s'.active == s.active && s'.clock == s.clock
    && s'.nextKey == s.nextKey && s'.deliveries == s.deliveries && s'.pending == s.pending
    && s'.memory.idOf == s.memory.idOf
  }

  lemma RegisteredFrame(s: Session, publish: Publish, k: Key, f: Faults)
    ensures var (s', outcome) := DeliverRegistered(s, publish, k, f);
            && SameRest(s, s')
            && s'.wire == (if outcome.Sent? then Wrote(s.wire, k, Carried(publish)) else s.wire)
            && s'.memory.store.Keys <= s.memory.store.Keys
  {
  }

  lemma RegisteredKeepsEntry(s: Session, publish: Publish, k: Key, f: Faults, id: u16)
    requires k in s.memory.idOf && publish.packetIdentifier == Some(s.memory.idOf[k])
    requires EntryOk(s.memory, s.flow.queue, s.wire, s.clock, id)
    requires EntryOk(s.memory, s.flow.queue, s.wire, s.clock, s.memory.idOf[k])
    ensures var s' := DeliverRegistered(s, publish, k, f).0;
            EntryOk(s'.memory, s.flow.queue, s'.wire, s.clock, id)
  {
  }

  lemma RegisteredKeepsDelivery(s: Session, publish: Publish, k: Key, f: Faults, j: Key)
    requires k in s.memory.idOf && publish.packetIdentifier == Some(s.memory.idOf[k])
    requires EntryOk(s.memory, s.flow.queue, s.wire, s.clock, s.memory.idOf[k])
    requires j in s.deliveries && DeliveryOk(s.profile, s.memory, j, s.deliveries[j])
    ensures var s' := DeliverRegistered(s, publish, k, f).0;
            DeliveryOk(s.profile, s'.memory, j, s.deliveries[j])
  {
  }

  /** After a registered delivery that was not put back, the entry of its key needs no queue. */
  lemma RegisteredSettles(s: Session, publish: Publish, k: Key, f: Faults, id: u16)
    requires k in s.memory.idOf && publish.packetIdentifier == Some(s.memory.idOf[k])
    requires EntryOk(s.memory, s.flow.queue, s.wire, s.clock, s.memory.idOf[k])
    requires EntryOk(s.memory, s.flow.queue, s.wire, s.clock, id)
    ensures var (s', outcome) := DeliverRegistered(s, publish, k, f);
            outcome != Failed && Holding(s'.memory, id, k) && IsWaiting(s'.memory.table[id].state) ==>
              s'.memory.table[id].deliveryStarted
  {
  }

  lemma RegisteredIgnoresFlow(s: Session, flow: Flow, publish: Publish, k: Key, f: Faults)
    ensures var (s', outcome) := DeliverRegistered(s, publish, k, f);
            DeliverRegistered(s.(flow := flow), publish, k, f) == (s'.(flow := flow), outcome)
  {
  }

  lemma QueuedTail(queue: seq<Deferred>, k: Key)
    requires queue != []
    ensures Queued(queue[1..], k) ==> Queued(queue, k)
    ensures Queued(queue, k) ==> queue[0].registered == Some(k) || Queued(queue[1..], k)
  {
    assert queue == [queue[0]] + queue[1..];
  }

  /** The queue may lose a key whose entry, if it still has one, is started or no longer waiting. */
  lemma EntryOutlivesQueue(m: Memory, queue: seq<Deferred>, queue': seq<Deferred>, w: Wire, now: u64, id: u16)
    requires EntryOk(m, queue, w, now, id)
    requires id in m.table && IsWaiting(m.table[id].state) && !m.table[id].deliveryStarted ==>
               (Queued(queue, m.table[id].packetKey.value) ==> Queued(queue', m.table[id].packetKey.value))
    ensures EntryOk(m, queue', w, now, id)
  {
  }

  /** What one turn with a registered publish does. */
  lemma RegisteredTurn(s: Session, f: Faults)
    requires Drainable(s) && s.flow.queue[0].registered.Some?
    ensures var (r, outcome) := DeliverRegistered(s, s.flow.queue[0].publish, s.flow.queue[0].registered.value, f);
            var s' := DrainStep(s, f).0;
            && s'.memory == r.memory && s'.wire == r.wire && s'.memory.idOf == s.memory.idOf
            && s'.wire == (if outcome.Sent?
                           then Wrote(s.wire, s.flow.queue[0].registered.value, Carried(s.flow.queue[0].publish))
                           else s.wire)
            && s'.memory.store.Keys <= s.memory.store.Keys
            && s'.profile == s.profile && s'.active == s.active && s'.clock == s.clock && s'.nextKey == s.nextKey
            && s'.deliveries == s.deliveries
            && s'.flow.queue == (if outcome.Failed? then s.flow.queue else s.flow.queue[1..])
            && s'.flow.slots == s.flow.slots + (if outcome.Sent? && UsesSlot(s, s.flow.queue[0].publish) then 1 else 0)
  {
    var d := s.flow.queue[0];
    var s1 := if UsesSlot(s, d.publish) then Reserved(Unqueued(s)) else Unqueued(s);
    RegisteredFrame(s, d.publish, d.registered.value, f);
    RegisteredIgnoresFlow(s, s1.flow, d.publish, d.registered.value, f);
    assert s.flow.queue == [d] + s.flow.queue[1..];
  }

  lemma RegisteredTurnKeepsEntry(s: Session, f: Faults, id: u16)
    requires Safe(s) && Drainable(s) && s.flow.queue[0].registered.Some?
    ensures var s' := DrainStep(s, f).0;
            EntryOk(s'.memory, s'.flow.queue, s'.wire, s'.clock, id)
  {
    var d := s.flow.queue[0];
    var k := d.registered.value;
    assert d in s.flow.queue && DeferredOk(s.profile, s.memory, d);
    RegisteredTurn(s, f);
    RegisteredKeepsEntry(s, d.publish, k, f, id);
    RegisteredSettles(s, d.publish, k, f, id);
    var r := DeliverRegistered(s, d.publish, k, f).0;
    if id in r.memory.table {
      QueuedTail(s.flow.queue, r.memory.table[id].packetKey.value);
    }
    EntryOutlivesQueue(r.memory, s.flow.queue, DrainStep(s, f).0.flow.queue, r.wire, s.clock, id);
  }

  lemma RegisteredTurnKeepsKey(s: Session, f: Faults, j: Key)
    requires Safe(s) && Drainable(s) && s.flow.queue[0].registered.Some?
    ensures KeyOk(DrainStep(s, f).0, j)
    ensures var s' := DrainStep(s, f).0;
            j in s'.deliveries ==> DeliveryOk(s'.profile, s'.memory, j, s'.deliveries[j])
  {
    var d := s.flow.queue[0];
    assert d in s.flow.queue && DeferredOk(s.profile, s.memory, d);
    RegisteredTurn(s, f);
    QueuedTail(s.flow.queue, j);
    assert KeyOk(s, j);
    if j in s.deliveries {
      RegisteredKeepsDelivery(s, d.publish, d.registered.value, f, j);
    }
  }

  lemma RegisteredTurnKeepsSafe(s: Session, f: Faults)
    requires Safe(s) && Drainable(s) && s.flow.queue[0].registered.Some?
    ensures Safe(DrainStep(s, f).0)
  {
    var s' := DrainStep(s, f).0;
    RegisteredTurn(s, f);
    forall id ensures EntryOk(s'.memory, s'.flow.queue, s'.wire, s'.clock, id) {
      RegisteredTurnKeepsEntry(s, f, id);
    }
    forall d | d in s'.flow.queue ensures DeferredOk(s'.profile, s'.memory, d) {
      assert d in s.flow.queue && DeferredOk(s.profile, s.memory, d);
    }
    forall j ensures KeyOk(s', j) && (j in s'.deliveries ==> DeliveryOk(s'.profile, s'.memory, j, s'.deliveries[j])) {
      RegisteredTurnKeepsKey(s, f, j);
    }
  }

  lemma SpawnKeepsSafe(s: Session, publish: Publish)
    requires Safe(s) && s.profile.clean
    ensures Safe(Spawned(s, publish))
  {
    var s' := Spawned(s, publish);
    assert KeyOk(s, s.nextKey);
    forall k ensures KeyOk(s', k) {
      assert KeyOk(s, k);
    }
  }

  lemma UnqueuedKeepsSafe(s: Session)
    requires Safe(s) && s.flow.queue != [] && s.flow.queue[0].registered.None?
    ensures Safe(Unqueued(s))
  {
    var s1 := Unqueued(s);
    forall id ensures EntryOk(s1.memory, s1.flow.queue, s1.wire, s1.clock, id) {
      assert EntryOk(s.memory, s.flow.queue, s.wire, s.clock, id);
      if id in s.memory.table {
        QueuedTail(s.flow.queue, s.memory.table[id].packetKey.value);
      }
      EntryOutlivesQueue(s.memory, s.flow.queue, s1.flow.queue, s.wire, s.clock, id);
    }
    forall k ensures KeyOk(s1, k) {
      assert KeyOk(s, k);
      QueuedTail(s.flow.queue, k);
    }
  }

  lemma UnregisteredTurnKeepsSafe(s: Session, f: Faults)
    requires Safe(s) && Drainable(s) && s.flow.queue[0].registered.None?
    ensures Safe(DrainStep(s, f).0)
  {
    var d := s.flow.queue[0];
    assert d in s.flow.queue && DeferredOk(s.profile, s.memory, d);
    UnqueuedKeepsSafe(s);
    SpawnKeepsSafe(Unqueued(s), d.publish);
  }

  lemma DrainStepKeepsSafe(s: Session, f: Faults)
    requires Safe(s) && Drainable(s)
    ensures Safe(DrainStep(s, f).0)
  {
    if s.flow.queue[0].registered.Some? {
      RegisteredTurnKeepsSafe(s, f);
    } else {
      UnregisteredTurnKeepsSafe(s, f);
    }
  }

  lemma {:induction false} DrainKeepsSafe(s: Session, f: Faults)
    requires Safe(s)
    ensures Safe(Drained(s, f))
    decreases |s.flow.queue|
  {
    if Drainable(s) {
      DrainStepKeepsSafe(s, f);
      TurnShrinksQueue(s, f);
      var (s1, more) := DrainStep(s, f);
      if more {
        DrainKeepsSafe(s1, f);
      }
    }
  }

  // ---- steps of a spawned delivery ----

  /** A key that was never registered takes a free identifier. */
  lemma NewEntryKeepsEntry(s: Session, m: Memory, k: Key, id: u16, qos: u8, started: bool, other: u16)
    requires EntryOk(s.memory, s.flow.queue, s.wire, s.clock, other)
    requires k !in s.memory.idOf && k !in s.wire.written && id !in s.memory.table && 1 <= qos
    requires m.table == s.memory.table && m.idOf == s.memory.idOf
    requires k in m.store && m.store[k].qos > 0
    requires forall j :: j in s.memory.store && j != k ==> j in m.store && m.store[j] == s.memory.store[j]
    ensures other != id || started ==>
              EntryOk(Registered(m, id, qos, k, s.clock, started), s.flow.queue, s.wire, s.clock, other)
  {
  }

  lemma DeliveryMoveKeepsSafe(s: Session, k: Key, d: Delivery)
    requires Safe(s) && k in s.deliveries && DeliveryOk(s.profile, s.memory, k, d)
    requires !d.phase.Ended? ==> !Queued(s.flow.queue, k)
    ensures Safe(WithDelivery(s, k, d))
  {
    var s' := WithDelivery(s, k, d);
    forall j ensures KeyOk(s', j) {
      assert KeyOk(s, j);
    }
  }

  lemma PrepareKeepsSafe(s: Session, k: Key)
    requires Safe(s) && At(s, k, Starting)
    ensures Safe(DeliveryPrepared(s, k, s.deliveries[k]))
  {
    var s' := DeliveryPrepared(s, k, s.deliveries[k]);
    assert DeliveryOk(s.profile, s.memory, k, s.deliveries[k]) && KeyOk(s, k);
    assert s' == WithDelivery(s, k, s'.deliveries[k]);
    DeliveryMoveKeepsSafe(s, k, s'.deliveries[k]);
  }

  lemma PutKeepsSafe(s: Session, k: Key, ok: bool)
    requires Safe(s) && At(s, k, Storing)
    ensures Safe(DeliveryStored(s, k, s.deliveries[k], ok))
  {
    var s' := DeliveryStored(s, k, s.deliveries[k], ok);
    forall id ensures EntryOk(s'.memory, s'.flow.queue, s'.wire, s'.clock, id) {
      assert EntryOk(s.memory, s.flow.queue, s.wire, s.clock, id);
    }
    forall j ensures KeyOk(s', j) {
      assert KeyOk(s, j);
    }
  }

  lemma HandOverKeepsSafe(s: Session, k: Key, d: Delivery, id: u16, ok: bool)
    requires Safe(s) && k in s.deliveries && s.profile.clean && StartedKey(s.memory, k)
    ensures Safe(HandedOver(s, k, d, id, ok))
  {
    if ok {
      WrittenKeepsSafe(s, k, id);
      DeliveryMoveKeepsSafe(s.(wire := Wrote(s.wire, k, id)), k, d.(phase := Ended(true)));
    } else {
      DeliveryMoveKeepsSafe(s, k, d.(phase := Ended(false)));
    }
  }

  lemma RegisterKeepsSafe(s: Session, k: Key, ok: bool)
    requires Safe(s) && At(s, k, Registering) && s.deliveries[k].publish.packetIdentifier.Some?
    ensures Safe(DeliveryRegistered(s, k, s.deliveries[k], ok))
  {
    var d := s.deliveries[k];
    var id := ChosenId(s.memory, d.publish);
    assert DeliveryOk(s.profile, s.memory, k, d) && KeyOk(s, k);
    DeliveryMoveKeepsSafe(s, k, d.(phase := Ended(false)));
    if id.Some? {
      var ended := WithDelivery(s, k, d.(phase := Ended(false)));
      RegistrationKeepsSafe(ended, ended.memory, k, id.value, d.publish.qos);
      var s1 := ended.(memory := Registered(s.memory, id.value, d.publish.qos, k, s.clock, true));
      var s' := DeliveryRegistered(s, k, d, ok);
      if id == d.publish.packetIdentifier {
        HandOverKeepsSafe(s1, k, d, id.value, ok);
        assert s' == HandedOver(s1, k, d, id.value, ok);
      } else {
        assert s' == WithDelivery(s1, k, s'.deliveries[k]);
        DeliveryMoveKeepsSafe(s1, k, s'.deliveries[k]);
      }
    }
  }

  lemma RegistrationKeepsSafe(s: Session, m: Memory, k: Key, id: u16, qos: u8)
    requires Safe(s) && k !in s.memory.idOf && id !in s.memory.table && 1 <= qos && k < s.nextKey
    requires m.table == s.memory.table && m.idOf == s.memory.idOf
    requires k in m.store && m.store[k].qos > 0 && m.store.Keys == s.memory.store.Keys + {k}
    requires forall j :: j in s.memory.store && j != k ==> m.store[j] == s.memory.store[j]
    requires !Underway(s.deliveries, k)
    ensures Safe(s.(memory := Registered(m, id, qos, k, s.clock, true)))
  {
    var s' := s.(memory := Registered(m, id, qos, k, s.clock, true));
    assert KeyOk(s, k);
    forall other ensures EntryOk(s'.memory, s'.flow.queue, s'.wire, s'.clock, other) {
      NewEntryKeepsEntry(s, m, k, id, qos, true, other);
    }
    forall j ensures KeyOk(s', j) {
      assert KeyOk(s, j);
    }
  }

  /** The payload of a registered delivery is stored again. */
  lemma RestoreKeepsSafe(s: Session, k: Key)
    requires Safe(s) && At(s, k, Refreshing)
    ensures Safe(s.(memory := s.memory.(store := s.memory.store[k := s.deliveries[k].publish])))
  {
    var s' := s.(memory := s.memory.(store := s.memory.store[k := s.deliveries[k].publish]));
    assert DeliveryOk(s.profile, s.memory, k, s.deliveries[k]) && KeyOk(s, k);
    forall id ensures EntryOk(s'.memory, s'.flow.queue, s'.wire, s'.clock, id) {
      assert EntryOk(s.memory, s.flow.queue, s.wire, s.clock, id);
    }
    forall d | d in s'.flow.queue ensures DeferredOk(s'.profile, s'.memory, d) {
      assert DeferredOk(s.profile, s.memory, d);
    }
    forall j ensures KeyOk(s', j) {
      assert KeyOk(s, j);
    }
  }

  lemma RefreshKeepsSafe(s: Session, k: Key, stored: bool, ok: bool)
    requires Safe(s) && At(s, k, Refreshing) && s.deliveries[k].publish.packetIdentifier.Some?
    ensures Safe(DeliveryRefreshed(s, k, s.deliveries[k], stored, ok))
  {
    var d := s.deliveries[k];
    assert DeliveryOk(s.profile, s.memory, k, d);
    if stored {
      RestoreKeepsSafe(s, k);
      var s1 := s.(memory := s.memory.(store := s.memory.store[k := d.publish]));
      HandOverKeepsSafe(s1, k, d, d.publish.packetIdentifier.value, ok);
    } else {
      DeliveryMoveKeepsSafe(s, k, d.(phase := Ended(false)));
    }
  }

  lemma ReleaseKeepsSafe(s: Session, f: Faults)
    requires Safe(s)
    ensures Safe(ReleasedAndDrained(s, f))
  {
    var s' := Released(s);
    forall k ensures KeyOk(s', k) {
      assert KeyOk(s, k);
    }
    DrainKeepsSafe(s', f);
  }

  lemma CompleteKeepsSafe(s: Session, k: Key, f: Faults)
    requires Safe(s) && k in s.deliveries
    ensures Safe(DeliveryCompleted(s, k, s.deliveries[k], f))
  {
    var s1 := s.(deliveries := s.deliveries - {k});
    forall j ensures KeyOk(s1, j) {
      assert KeyOk(s, j);
    }
    ReleaseKeepsSafe(s1, f);
  }

  // ---- steps of a persistent delivery ----

  lemma StoreKeepsSafe(s: Session, publish: Publish)
    requires Safe(s)
    ensures Safe(StoredAs(s, publish))
  {
    var s' := StoredAs(s, publish);
    assert KeyOk(s, s.nextKey);
    forall id ensures EntryOk(s'.memory, s'.flow.queue, s'.wire, s'.clock, id) {
      assert EntryOk(s.memory, s.flow.queue, s.wire, s.clock, id);
    }
    forall j ensures KeyOk(s', j) {
      assert KeyOk(s, j);
    }
  }

  function Appended(s: Session, d: Deferred): Session {
    s.(flow := s.flow.(queue := s.flow.queue + [d]))
  }

  /** The entry of a publish that has to wait, together with its place in the queue. */
  lemma WaitingEntryKeepsSafe(s: Session, k: Key, sent: Publish, id: u16)
    requires Safe(s) && sent.qos > 0 && sent.packetIdentifier == Some(id) && id !in s.memory.table
    requires k !in s.memory.idOf && k < s.nextKey && k in s.memory.store && k !in s.deliveries
    ensures Safe(Appended(Entered(s, k, sent, id, true, NO_FAULTS).0, Deferred(sent, Some(k))))
  {
    var d := Deferred(sent, Some(k));
    var s' := Appended(Entered(s, k, sent, id, true, NO_FAULTS).0, d);
    var m := s.memory.(store := s.memory.store[k := sent]);
    assert KeyOk(s, k) && d in s'.flow.queue && Queued(s'.flow.queue, k);
    assert forall d' :: d' in s.flow.queue ==> d' in s'.flow.queue;
    forall other ensures EntryOk(s'.memory, s'.flow.queue, s'.wire, s'.clock, other) {
      NewEntryKeepsEntry(s, m, k, id, sent.qos, false, other);
      assert EntryOk(s.memory, s.flow.queue, s.wire, s.clock, other);
    }
    forall j ensures KeyOk(s', j) {
      assert KeyOk(s, j);
    }
  }

  lemma WrittenKeepsSafe(s: Session, k: Key, id: u16)
    requires Safe(s) && StartedKey(s.memory, k)
    ensures Safe(s.(wire := Wrote(s.wire, k, id)))
  {
    var s' := s.(wire := Wrote(s.wire, k, id));
    forall other ensures EntryOk(s'.memory, s'.flow.queue, s'.wire, s'.clock, other) {
      assert EntryOk(s.memory, s.flow.queue, s.wire, s.clock, other);
    }
    forall j ensures KeyOk(s', j) {
      assert KeyOk(s, j);
    }
  }

  lemma StartedEntryKeepsSafe(s: Session, k: Key, sent: Publish, id: u16, f: Faults)
    requires Safe(s) && sent.qos > 0 && sent.packetIdentifier == Some(id) && id !in s.memory.table
    requires k !in s.memory.idOf && k < s.nextKey && k in s.memory.store && k !in s.deliveries
    ensures Safe(Entered(s, k, sent, id, false, f).0)
  {
    var m := s.memory.(store := s.memory.store[k := sent]);
    RegistrationKeepsSafe(s, m, k, id, sent.qos);
    var s1 := s.(memory := Registered(m, id, sent.qos, k, s.clock, true));
    WrittenKeepsSafe(s1, k, id);
  }

  /** Whether a delivery leaves a safe state, once a publish that has to wait is in the queue. */
  ghost predicate LeftSafe(s: Session, status: Status) {
    match status
    case DeferredAs(sent, k) => Safe(Appended(s, Deferred(sent, Some(k))))
    case _ => Safe(s)
  }

  lemma ActiveKeepsSafe(s: Session, publish: Publish, wait: bool, f: Faults)
    requires Safe(s)
    ensures var (s', status) := DeliverActive(s, publish, wait, f);
            LeftSafe(s', status)
  {
    var first := if publish.packetIdentifier.Some? then publish.packetIdentifier else LeastFree(s.memory.table, 1);
    if publish.qos > 0 && first.Some? && !f.put {
      var s1 := StoredAs(s, publish.(packetIdentifier := first));
      StoreKeepsSafe(s, publish.(packetIdentifier := first));
      var id := ChosenId(s.memory, publish.(packetIdentifier := first));
      if !f.raft && id.Some? && !(id != first && f.put2) {
        assert KeyOk(s, s.nextKey);
        if wait {
          WaitingEntryKeepsSafe(s1, s.nextKey, publish.(packetIdentifier := id), id.value);
        } else {
          StartedEntryKeepsSafe(s1, s.nextKey, publish.(packetIdentifier := id), id.value, f);
        }
      }
    }
  }

  lemma PersistentKeepsSafe(s: Session, publish: Publish, wait: bool, f: Faults)
    requires Safe(s)
    ensures var (s', status) := DeliverPersistent(s, publish, wait, f);
            LeftSafe(s', status)
  {
    var prepared := MessageExpiry.Prepared(publish, s.profile.version, s.clock);
    if prepared.Some? {
      if s.active {
        ActiveKeepsSafe(s, prepared.value, wait, f);
      } else {
        InactiveKeepsSafe(s, prepared.value, f);
      }
    }
  }

  lemma InactiveKeepsSafe(s: Session, publish: Publish, f: Faults)
    requires Safe(s)
    ensures Safe(DeliverInactive(s, publish, f).0)
  {
    StoreKeepsSafe(s, publish);
    var s1 := StoredAs(s, publish);
    var s2 := s1.(pending := s1.pending + [s.nextKey]);
    forall j ensures KeyOk(s2, j) {
      assert KeyOk(s1, j);
    }
  }

  lemma DeferKeepsSafe(s: Session, publish: Publish)
    requires Safe(s) && s.profile.clean && publish.qos > 0
    ensures Safe(s.(flow := s.flow.(queue := s.flow.queue + [Deferred(publish, None)])))
  {
    var s' := s.(flow := s.flow.(queue := s.flow.queue + [Deferred(publish, None)]));
    forall id ensures EntryOk(s'.memory, s'.flow.queue, s'.wire, s'.clock, id) {
      assert EntryOk(s.memory, s.flow.queue, s.wire, s.clock, id);
      assert forall d :: d in s.flow.queue ==> d in s'.flow.queue;
    }
    forall j ensures KeyOk(s', j) {
      assert KeyOk(s, j);
    }
  }

  lemma ReserveKeepsSafe(s: Session)
    requires Safe(s)
    ensures Safe(Reserved(s))
  {
    forall k ensures KeyOk(Reserved(s), k) {
      assert KeyOk(s, k);
    }
  }

  lemma AcceptKeepsSafe(s: Session, publish: Publish, f: Faults)
    requires Safe(s)
    ensures Safe(Accepted(s, publish, f).0)
  {
    var uses := UsesSlot(s, publish);
    var wait := uses && !CanReserve(s);
    if s.profile.clean {
      if wait {
        DeferKeepsSafe(s, publish);
      } else {
        SpawnKeepsSafe(s, publish);
      }
    } else {
      ReserveKeepsSafe(s);
      var s0 := if uses && !wait then Reserved(s) else s;
      PersistentKeepsSafe(s0, publish, wait, f);
      var (s1, status) := DeliverPersistent(s0, publish, wait, f);
      if !status.DeferredAs? {
        ReleaseKeepsSafe(s1, f);
      }
    }
  }

  // ---- acknowledgements, received publishes, cleanup ----

  /** A change of the memory alone. */
  lemma MemoryMoveKeepsSafe(s: Session, m: Memory)
    requires Safe(s) && m.idOf == s.memory.idOf
    requires forall k :: k in m.store ==> k in s.memory.store && m.store[k] == s.memory.store[k]
    requires forall id :: EntryOk(m, s.flow.queue, s.wire, s.clock, id)
    requires forall k :: k in s.deliveries ==> DeliveryOk(s.profile, m, k, s.deliveries[k])
    ensures Safe(s.(memory := m))
  {
    var s' := s.(memory := m);
    forall d | d in s'.flow.queue ensures DeferredOk(s'.profile, s'.memory, d) {
      assert DeferredOk(s.profile, s.memory, d);
    }
    forall j ensures KeyOk(s', j) {
      assert KeyOk(s, j);
    }
  }

  lemma AnswerKeepsSafe(s: Session, acked: Option<Copy>)
    requires Safe(s)
    ensures Safe(Answered(s, acked))
  {
    var s' := Answered(s, acked);
    forall id ensures EntryOk(s'.memory, s'.flow.queue, s'.wire, s'.clock, id) {
      assert EntryOk(s.memory, s.flow.queue, s.wire, s.clock, id);
    }
    forall j ensures KeyOk(s', j) {
      assert KeyOk(s, j);
    }
  }

  lemma AdvanceKeepsSafe(s: Session, id: u16, now: u64)
    requires Safe(s)
    ensures Safe(s.(memory := AdvancedMemory(s.memory, id, now)))
  {
    var m := AdvancedMemory(s.memory, id, now);
    forall other ensures EntryOk(m, s.flow.queue, s.wire, s.clock, other) {
      assert EntryOk(s.memory, s.flow.queue, s.wire, s.clock, other);
    }
    forall k | k in s.deliveries ensures DeliveryOk(s.profile, m, k, s.deliveries[k]) {
      assert DeliveryOk(s.profile, s.memory, k, s.deliveries[k]);
    }
    MemoryMoveKeepsSafe(s, m);
  }

  /** A finished entry does not share its key with one that is not. */
  lemma CleanupSpares(s: Session, id: u16, k: Key)
    requires Safe(s) && Holding(s.memory, id, k) && !s.memory.table[id].state.Finish?
    ensures k in CleanedMemory(s.memory).store
  {
    assert EntryOk(s.memory, s.flow.queue, s.wire, s.clock, id);
    forall other | other in FinishedIds(s.memory.table) ensures s.memory.table[other].packetKey != Some(k) {
      assert EntryOk(s.memory, s.flow.queue, s.wire, s.clock, other);
    }
  }

  lemma CleanupKeepsSafe(s: Session)
    requires Safe(s)
    ensures Safe(s.(memory := CleanedMemory(s.memory)))
  {
    var m := CleanedMemory(s.memory);
    forall id ensures EntryOk(m, s.flow.queue, s.wire, s.clock, id) {
      assert EntryOk(s.memory, s.flow.queue, s.wire, s.clock, id);
      if id in m.table {
        CleanupSpares(s, id, m.table[id].packetKey.value);
      }
    }
    forall k | k in s.deliveries ensures DeliveryOk(s.profile, m, k, s.deliveries[k]) {
      assert DeliveryOk(s.profile, s.memory, k, s.deliveries[k]);
      CleanupSparesUnregistered(s, k);
    }
    MemoryMoveKeepsSafe(s, m);
  }

  lemma CleanupSparesUnregistered(s: Session, k: Key)
    requires Safe(s)
    ensures k !in s.memory.idOf && k in s.memory.store ==> k in CleanedMemory(s.memory).store
  {
    if k !in s.memory.idOf {
      forall other | other in FinishedIds(s.memory.table) ensures s.memory.table[other].packetKey != Some(k) {
        assert EntryOk(s.memory, s.flow.queue, s.wire, s.clock, other);
      }
    }
  }

  lemma PubackKeepsSafe(s: Session, id: u16, acked: Option<Copy>, f: Faults)
    requires Safe(s)
    ensures Safe(PubackHandled(s, id, acked, f))
  {
    var s1 := Answered(s, acked);
    AnswerKeepsSafe(s, acked);
    AdvanceKeepsSafe(s1, id, s.clock);
    var s2 := s1.(memory := AdvancedMemory(s1.memory, id, s.clock));
    CleanupKeepsSafe(s2);
    var s3 := s1.(memory := CleanedMemory(s2.memory));
    ReleaseKeepsSafe(s2, f);
    ReleaseKeepsSafe(s3, f);
  }

  lemma PubrecKeepsSafe(s: Session, id: u16, acked: Option<Copy>, f: Faults)
    requires Safe(s)
    ensures Safe(PubrecHandled(s, id, acked, f))
  {
    var s1 := Answered(s, acked);
    AnswerKeepsSafe(s, acked);
    ReleaseKeepsSafe(s1, f);
    AdvanceKeepsSafe(s1, id, s.clock);
    ReleaseKeepsSafe(s1.(memory := AdvancedMemory(s1.memory, id, s.clock)), f);
  }

  lemma FinalAckKeepsSafe(s: Session, id: u16, f: Faults)
    requires Safe(s)
    ensures Safe(FinalAckHandled(s, id, f))
  {
    AdvanceKeepsSafe(s, id, s.clock);
    CleanupKeepsSafe(s.(memory := AdvancedMemory(s.memory, id, s.clock)));
  }

  /** A received publish takes the identifier of whatever entry held it. */
  lemma InboundKeepsSafe(s: Session, id: u16, publish: Publish)
    requires Safe(s)
    ensures Safe(PublishReceived(s, id, publish))
  {
    var s' := PublishReceived(s, id, publish);
    assert KeyOk(s, s.nextKey);
    forall other ensures EntryOk(s'.memory, s'.flow.queue, s'.wire, s'.clock, other) {
      assert EntryOk(s.memory, s.flow.queue, s.wire, s.clock, other);
    }
    forall k | k in s'.deliveries ensures DeliveryOk(s'.profile, s'.memory, k, s'.deliveries[k]) {
      assert DeliveryOk(s.profile, s.memory, k, s.deliveries[k]);
    }
    forall d | d in s'.flow.queue ensures DeferredOk(s'.profile, s'.memory, d) {
      assert DeferredOk(s.profile, s.memory, d);
    }
    forall j ensures KeyOk(s', j) {
      assert KeyOk(s, j);
    }
  }

  lemma TickKeepsSafe(s: Session, to: u64)
    requires Safe(s) && s.clock <= to
    ensures Safe(s.(clock := to))
  {
    var s' := s.(clock := to);
    forall id ensures EntryOk(s'.memory, s'.flow.queue, s'.wire, s'.clock, id) {
      assert EntryOk(s.memory, s.flow.queue, s.wire, s.clock, id);
    }
    forall j ensures KeyOk(s', j) {
      assert KeyOk(s, j);
    }
  }

  lemma DeactivateKeepsSafe(s: Session)
    requires Safe(s)
    ensures Safe(s.(active := false))
  {
    forall j ensures KeyOk(s.(active := false), j) {
      assert KeyOk(s, j);
    }
  }

  // ---- expiry, retry, recovery ----

  /** The expiry pass spares the payloads of the entries it leaves. */
  lemma ExpirySpares(m: Memory, w: Wire, now: u64, spared: set<u16>, id: u16, k: Key)
    requires forall other :: EntryKept(m, w, other)
    requires Holding(m, id, k) && id !in Removable(m, now, spared) && k in m.store
    ensures k in ExpiredCleaned(m, now, spared).store
  {
    assert EntryKept(m, w, id);
    forall other | other in Removable(m, now, spared) ensures m.table[other].packetKey != Some(k) {
      assert EntryKept(m, w, other);
    }
  }

  lemma ExpirySparesUnregistered(s: Session, spared: set<u16>, k: Key)
    requires Safe(s)
    ensures k !in s.memory.idOf && k in s.memory.store ==> k in ExpiredCleaned(s.memory, s.clock, spared).store
  {
    if k !in s.memory.idOf {
      forall other | other in Removable(s.memory, s.clock, spared) ensures s.memory.table[other].packetKey != Some(k) {
        assert EntryOk(s.memory, s.flow.queue, s.wire, s.clock, other);
      }
    }
  }

  lemma ExpiryKeepsEntries(m: Memory, w: Wire, now: u64, spared: set<u16>)
    requires forall id :: EntryKept(m, w, id)
    ensures forall id :: EntryKept(ExpiredCleaned(m, now, spared), w, id)
  {
    var m' := ExpiredCleaned(m, now, spared);
    forall id ensures EntryKept(m', w, id) {
      assert EntryKept(m, w, id);
      if id in m'.table && m.table[id].packetKey.value in m.store {
        ExpirySpares(m, w, now, spared, id, m.table[id].packetKey.value);
      }
    }
  }

  lemma ExpiryKeepsSafe(s: Session, spared: set<u16>)
    requires Safe(s)
    ensures Safe(s.(memory := ExpiredCleaned(s.memory, s.clock, spared)))
  {
    var m := ExpiredCleaned(s.memory, s.clock, spared);
    forall id ensures EntryKept(s.memory, s.wire, id) {
      assert EntryOk(s.memory, s.flow.queue, s.wire, s.clock, id);
    }
    ExpiryKeepsEntries(s.memory, s.wire, s.clock, spared);
    forall id ensures EntryOk(m, s.flow.queue, s.wire, s.clock, id) {
      assert EntryOk(s.memory, s.flow.queue, s.wire, s.clock, id) && EntryKept(m, s.wire, id);
    }
    forall k | k in s.deliveries ensures DeliveryOk(s.profile, m, k, s.deliveries[k]) {
      assert DeliveryOk(s.profile, s.memory, k, s.deliveries[k]);
      ExpirySparesUnregistered(s, spared, k);
    }
    MemoryMoveKeepsSafe(s, m);
  }

  lemma RefreshTimesKeepsSafe(s: Session, due: set<u16>)
    requires Safe(s)
    ensures Safe(s.(memory := s.memory.(table := Refreshed(s.memory.table, due, s.clock))))
  {
    var m := s.memory.(table := Refreshed(s.memory.table, due, s.clock));
    forall id ensures EntryOk(m, s.flow.queue, s.wire, s.clock, id) {
      assert EntryOk(s.memory, s.flow.queue, s.wire, s.clock, id);
    }
    forall k | k in s.deliveries ensures DeliveryOk(s.profile, m, k, s.deliveries[k]) {
      assert DeliveryOk(s.profile, s.memory, k, s.deliveries[k]);
    }
    MemoryMoveKeepsSafe(s, m);
  }

  lemma QueuedUnderItsId(s: Session, k: Key)
    requires Safe(s)
    ensures Queued(s.flow.queue, k) ==> k in s.memory.idOf && s.memory.idOf[k] in QueuedIds(s.flow.queue)
  {
    if Queued(s.flow.queue, k) {
      var d :| d in s.flow.queue && d.registered == Some(k);
      assert DeferredOk(s.profile, s.memory, d);
    }
  }

  /** A retry pass sends no entry that was not started before. */
  lemma RetriedIsStarted(s: Session, due: set<u16>, id: u16)
    requires Safe(s) && id in Retried(s.memory, s.flow.queue, due, s.clock)
    ensures s.memory.table[id].deliveryStarted
  {
    assert EntryOk(s.memory, s.flow.queue, s.wire, s.clock, id);
    QueuedUnderItsId(s, s.memory.table[id].packetKey.value);
  }

  lemma RetryWritesKeepSafe(s: Session, due: set<u16>, failing: set<Key>)
    requires Safe(s)
    ensures var sent := CopiesAt(s.memory, Retried(s.memory, s.flow.queue, due, s.clock), failing);
            Safe(s.(wire := Wire(s.wire.outstanding + sent, s.wire.written + KeysOf(sent))))
  {
    var sent := CopiesAt(s.memory, Retried(s.memory, s.flow.queue, due, s.clock), failing);
    var s' := s.(wire := Wire(s.wire.outstanding + sent, s.wire.written + KeysOf(sent)));
    forall k | k in KeysOf(sent) ensures StartedKey(s.memory, k) {
      var id :| id in Retried(s.memory, s.flow.queue, due, s.clock) && s.memory.table[id].packetKey == Some(k);
      assert EntryOk(s.memory, s.flow.queue, s.wire, s.clock, id);
      RetriedIsStarted(s, due, id);
    }
    forall id ensures EntryOk(s'.memory, s'.flow.queue, s'.wire, s'.clock, id) {
      assert EntryOk(s.memory, s.flow.queue, s.wire, s.clock, id);
    }
    forall j ensures KeyOk(s', j) {
      assert KeyOk(s, j);
    }
  }

  /** The key has been registered, and its entry, if it still has one, is started. */
  predicate StartedKey(m: Memory, k: Key) {
    k in m.idOf && (Holding(m, m.idOf[k], k) ==> m.table[m.idOf[k]].deliveryStarted)
  }

  lemma {:induction false} WithoutKeeps(queue: seq<Deferred>, ids: set<u16>, d: Deferred)
    ensures d in Without(queue, ids) <==>
              d in queue && !(d.publish.packetIdentifier.Some? && d.publish.packetIdentifier.value in ids)
    decreases queue
  {
    if queue != [] {
      WithoutKeeps(queue[1..], ids, d);
      assert queue == [queue[0]] + queue[1..];
    }
  }

  /** Publishes may leave the queue if their entries no longer wait for it. */
  lemma UnqueueKeepsSafe(s: Session, ids: set<u16>)
    requires Safe(s)
    requires forall id :: id in ids && id in s.memory.table ==>
               s.memory.table[id].deliveryStarted || !IsWaiting(s.memory.table[id].state)
    ensures Safe(s.(flow := s.flow.(queue := Without(s.flow.queue, ids))))
  {
    var queue := Without(s.flow.queue, ids);
    var s' := s.(flow := s.flow.(queue := queue));
    forall d ensures d in queue ==> d in s.flow.queue {
      WithoutKeeps(s.flow.queue, ids, d);
    }
    forall id ensures EntryOk(s'.memory, s'.flow.queue, s'.wire, s'.clock, id) {
      assert EntryOk(s.memory, s.flow.queue, s.wire, s.clock, id);
      if id in s.memory.table && IsWaiting(s.memory.table[id].state) && !s.memory.table[id].deliveryStarted {
        var k := s.memory.table[id].packetKey.value;
        if Queued(s.flow.queue, k) {
          var d :| d in s.flow.queue && d.registered == Some(k);
          assert DeferredOk(s.profile, s.memory, d);
          WithoutKeeps(s.flow.queue, ids, d);
        }
      }
    }
    forall j ensures KeyOk(s', j) {
      assert KeyOk(s, j);
    }
  }

  lemma RetrySentIsSafe(s: Session, due: set<u16>, f: Faults)
    requires Safe(s)
    ensures Safe(RetrySent(s, due, f))
  {
    var (s1, removed) := ExpiryPass(s, f);
    ExpiryKeepsSafe(s, Spared(s, f));
    var sent := CopiesAt(s1.memory, Retried(s1.memory, s.flow.queue, due, s.clock), f.writes);
    RetryWritesKeepSafe(s1, due, f.writes);
    var s2 := s1.(wire := Wire(s1.wire.outstanding + sent, s1.wire.written + KeysOf(sent)));
    RefreshTimesKeepsSafe(s2, due);
    var s3 := s2.(memory := s2.memory.(table := Refreshed(s2.memory.table, due, s.clock)));
    UnqueueKeepsSafe(s3, removed);
  }

  lemma RetryKeepsSafe(s: Session, due: set<u16>, f: Faults)
    requires Safe(s)
    ensures Safe(RetryHandled(s, due, f))
  {
    RetrySentIsSafe(s, due, f);
    DrainKeepsSafe(RetrySent(s, due, f), f);
  }

  // ---- recovery ----

  /** The stored publish of an unfinished entry carries the entry's identifier. */
  predicate Agreed(m: Memory, id: u16) {
    && id in m.table && m.table[id].packetKey.Some? && m.table[id].packetKey.value in m.store
    && !m.table[id].state.Finish?
    ==> m.store[m.table[id].packetKey.value].packetIdentifier == Some(id)
  }

  /** What survives a restart of the actor: entries, payloads and the list of publishes that wait for the
      client, but no queue, no slots and no connection. */
  ghost predicate Kept(s: Session) {
    && s.flow == Flow(0, []) && s.deliveries == map[] && s.wire == Wire({}, {})
    && (forall id :: EntryKept(s.memory, s.wire, id))
    && (forall id :: Agreed(s.memory, id))
    && (forall k :: k in s.memory.idOf || k in s.memory.store ==> k < s.nextKey)
  }

  lemma {:induction false} RecoveredHolds(m: Memory, now: u64, n: int, d: Deferred)
    requires 0 <= n <= U16_MAX + 1 && d in Recovered(m, now, n)
    ensures exists id: u16 :: id < n && Resendable(m, id, now) && d == Deferred(Resent(m, id), m.table[id].packetKey)
  {
    if n > 0 && d in Recovered(m, now, n - 1) {
      RecoveredHolds(m, now, n - 1, d);
    } else {
      var id: u16 := n - 1;
      assert Resendable(m, id, now);
    }
  }

  lemma {:induction false} RecoveredMisses(m: Memory, now: u64, n: int, id: u16)
    requires 0 <= n <= U16_MAX + 1 && id < n && Resendable(m, id, now)
    ensures Deferred(Resent(m, id), m.table[id].packetKey) in Recovered(m, now, n)
  {
    if id < n - 1 {
      RecoveredMisses(m, now, n - 1, id);
    }
  }

  /** Recovery queues every publish that may still be sent, so what it leaves out has expired. */
  lemma RecoveryQueueIsSafe(s: Session)
    requires Kept(s)
    ensures Safe(s.(flow := Flow(0, Recovered(s.memory, s.clock, U16_MAX + 1))))
  {
    var queue := Recovered(s.memory, s.clock, U16_MAX + 1);
    var s' := s.(flow := Flow(0, queue));
    forall id ensures EntryOk(s'.memory, queue, s'.wire, s'.clock, id) {
      assert EntryKept(s.memory, s.wire, id);
      if Resendable(s.memory, id, s.clock) {
        RecoveredMisses(s.memory, s.clock, U16_MAX + 1, id);
        assert Queued(queue, s.memory.table[id].packetKey.value);
      }
    }
    forall d | d in queue ensures DeferredOk(s'.profile, s'.memory, d) {
      RecoveredHolds(s.memory, s.clock, U16_MAX + 1, d);
      var id: u16 :| id < U16_MAX + 1 && Resendable(s.memory, id, s.clock)
                     && d == Deferred(Resent(s.memory, id), s.memory.table[id].packetKey);
      assert EntryKept(s.memory, s.wire, id) && Agreed(s.memory, id);
    }
    forall k: Key ensures KeyOk(s', k) {
      if Queued(queue, k) {
        var d :| d in queue && d.registered == Some(k);
        assert DeferredOk(s'.profile, s'.memory, d);
      }
    }
  }

  lemma RecoveryQueuedIsSafe(s: Session, f: Faults)
    requires Kept(s)
    ensures Safe(RecoveryQueued(s, f))
  {
    var s1 := ExpiryPass(s, f).0;
    ExpiryKeepsEntries(s.memory, s.wire, s.clock, Spared(s, f));
    forall id ensures Agreed(s1.memory, id) {
      assert Agreed(s.memory, id) && EntryKept(s.memory, s.wire, id);
    }
    RecoveryQueueIsSafe(s1);
    var s2 := s1.(flow := Flow(0, Recovered(s1.memory, s.clock, U16_MAX + 1)));
    RefreshTimesKeepsSafe(s2, s1.memory.table.Keys);
    assert s1.flow.queue + Recovered(s1.memory, s.clock, U16_MAX + 1) == s2.flow.queue;
  }

  lemma RecoveryKeepsSafe(s: Session, f: Faults)
    requires Kept(s)
    ensures Safe(RecoveryHandled(s, f))
  {
    RecoveryQueuedIsSafe(s, f);
    DrainKeepsSafe(RecoveryQueued(s, f), f);
  }

  // ---- every run ----

  lemma StepKeepsSafe(s: Session, a: Action)
    requires Safe(s) && Enabled(s, a)
    ensures Safe(Apply(s, a))
  {
    match a
    case Tick(to) => TickKeepsSafe(s, to);
    case Outbound(publish, f) => AcceptKeepsSafe(s, publish, f);
    case Prepare(k) => PrepareKeepsSafe(s, k);
    case Put(k, ok) => PutKeepsSafe(s, k, ok);
    case Register(k, ok) => RegisterKeepsSafe(s, k, ok);
    case Refresh(k, stored, ok) => RefreshKeepsSafe(s, k, stored, ok);
    case Complete(k, f) => CompleteKeepsSafe(s, k, f);
    case Puback(id, acked, f) => PubackKeepsSafe(s, id, acked, f);
    case Pubrec(id, acked, f) => PubrecKeepsSafe(s, id, acked, f);
    case FinalAck(id, f) => FinalAckKeepsSafe(s, id, f);
    case Inbound(id, publish) => InboundKeepsSafe(s, id, publish);
    case Cleanup => CleanupKeepsSafe(s);
    case InflightRetry(due, f) => RetryKeepsSafe(s, due, f);
    case Deactivate => DeactivateKeepsSafe(s);
  }

  lemma {:induction false} RunKeepsSafe(kept: Session, f: Faults, run: seq<Session>, acts: seq<Action>, i: nat)
    requires IsRun(kept, f, run, acts) && Kept(kept) && i < |run|
    ensures Safe(run[i])
  {
    if i == 0 {
      RecoveryKeepsSafe(kept, f);
    } else {
      RunKeepsSafe(kept, f, run, acts, i - 1);
      StepKeepsSafe(run[i - 1], acts[i - 1]);
    }
  }

  lemma {:induction false} RunKeepsProfile(kept: Session, f: Faults, run: seq<Session>, acts: seq<Action>, i: nat)
    requires IsRun(kept, f, run, acts) && i < |run|
    ensures run[i].profile == kept.profile
  {
    if i > 0 {
      RunKeepsProfile(kept, f, run, acts, i - 1);
      StepKeepsProfile(run[i - 1], acts[i - 1]);
    }
  }

  lemma StepKeepsProfile(s: Session, a: Action)
    requires Enabled(s, a)
    ensures Apply(s, a).profile == s.profile
  {
    match a
    case Outbound(publish, f) =>
      var uses := UsesSlot(s, publish);
      var wait := uses && !CanReserve(s);
      PersistentKeepsProfile(if uses && !wait then Reserved(s) else s, publish, wait, f);
    case _ =>
  }

  lemma PersistentKeepsProfile(s: Session, publish: Publish, wait: bool, f: Faults)
    ensures DeliverPersistent(s, publish, wait, f).0.profile == s.profile
  {
  }
}
