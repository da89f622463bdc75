/** The books of Receive Maximum: over a whole connection, the slots in use are exactly the publishes that were written
    and those that spawned deliveries are still to write, less the acknowledgements that took effect. No slot is lost
    and none is given back twice. */
module SlotLedger {
  import opened MqttTypes
  import opened Inflight
  import opened SessionDelivery
  import opened SessionSafety
  import opened SessionAgreement
  import opened ReceiveMaximum
  import MessageExpiry

  // ---- the balance ----

  /** The spawned deliveries that hold a slot and have not written. */
  ghost function UnsentKeys(s: Session): set<Key> {
    set k | k in s.deliveries && Unsent(s, k)
  }

  /** What was taken from the slots and is not in use any more. */
  ghost function Balance(s: Session): int {
    |s.wire.written| + |UnsentKeys(s)| - s.flow.slots
  }

  /** The unsent deliveries of `s'` are those of `s`, but perhaps for `k`. */
  ghost predicate SameUnsent(s: Session, s': Session, k: Key) {
    forall j :: j != k ==> (Unsent(s', j) <==> Unsent(s, j))
  }

  lemma UnsentCount(s: Session, s': Session, k: Key)
    requires SameUnsent(s, s', k)
    ensures |UnsentKeys(s')| == |UnsentKeys(s)| + (if Unsent(s', k) then 1 else 0) - (if Unsent(s, k) then 1 else 0)
  {
    assert UnsentKeys(s') - {k} == UnsentKeys(s) - {k};
    CountBut(UnsentKeys(s), UnsentKeys(s'), k);
  }

  lemma CountBut(a: set<Key>, b: set<Key>, k: Key)
    requires a - {k} == b - {k}
    ensures |b| == |a| + (if k in b then 1 else 0) - (if k in a then 1 else 0)
  {
    assert a == if k in a then (a - {k}) + {k} else a - {k};
    assert b == if k in b then (b - {k}) + {k} else b - {k};
  }

  lemma UnsentStays(s: Session, s': Session)
    requires forall k :: Unsent(s', k) <==> Unsent(s, k)
    ensures UnsentKeys(s') == UnsentKeys(s)
  {
  }

  // ---- what is written once ----

  /** A registered publish waits once. */
  ghost predicate Distinct(queue: seq<Deferred>) {
    forall i, j :: 0 <= i < j < |queue| && queue[i].registered.Some? ==> queue[i].registered != queue[j].registered
  }

  /** A registered publish that waits has not been written. */
  ghost predicate QueueFresh(s: Session) {
    && Distinct(s.flow.queue)
    && (forall i :: 0 <= i < |s.flow.queue| && s.flow.queue[i].registered.Some? ==>
          s.flow.queue[i].registered.value !in s.wire.written)
  }

  /** What a retry pass may write again was written, or is at its second put. */
  ghost predicate BackedUp(s: Session, k: Key) {
    && (Retransmittable(s, k) ==> k in s.wire.written || At(s, k, Refreshing))
    && (At(s, k, Refreshing) ==> k !in s.wire.written)
    && (k in s.deliveries && s.deliveries[k].reserved ==> s.deliveries[k].publish.qos > 0)
  }

  ghost predicate Booked(s: Session) {
    QueueFresh(s) && forall k :: BackedUp(s, k)
  }

  // ---- the drain loop ----

  /** A turn with a registered publish makes nothing resendable but what it writes. */
  lemma RegisteredTurnBacks(s: Session, f: Faults, j: Key)
    requires Safe(s) && Drainable(s) && s.flow.queue[0].registered.Some? && f.writes == {} && BackedUp(s, j)
    requires QueueFresh(s)
    ensures BackedUp(DrainStep(s, f).0, j)
  {
    var d := s.flow.queue[0];
    assert d in s.flow.queue && DeferredOk(s.profile, s.memory, d) && KeyOk(s, d.registered.value);
    assert Queued(s.flow.queue, d.registered.value);
    RegisteredTurn(s, f);
    QueuedTail(s.flow.queue, j);
    RegisteredHoldings(s, d.publish, d.registered.value, f, j);
  }

  lemma RegisteredTurnBalances(s: Session, f: Faults)
    requires Safe(s) && Drainable(s) && s.flow.queue[0].registered.Some? && QueueFresh(s) && s.profile.version.V5_0?
    ensures Balance(DrainStep(s, f).0) == Balance(s) && QueueFresh(DrainStep(s, f).0)
  {
    var d := s.flow.queue[0];
    var s' := DrainStep(s, f).0;
    assert d in s.flow.queue && DeferredOk(s.profile, s.memory, d);
    RegisteredTurn(s, f);
    UnsentStays(s, s');
    assert d.registered.value !in s.wire.written;
    assert s'.wire.written == s.wire.written || s'.wire.written == s.wire.written + {d.registered.value};
  }

  lemma SpawnBalances(s: Session, publish: Publish)
    requires Safe(s)
    ensures Balance(Spawned(s, publish)) == Balance(s)
  {
    assert KeyOk(s, s.nextKey);
    UnsentCount(s, Spawned(s, publish), s.nextKey);
  }

  lemma UnregisteredTurnIsBooked(s: Session, f: Faults)
    requires Safe(s) && Booked(s) && Drainable(s) && s.flow.queue[0].registered.None?
    ensures Booked(DrainStep(s, f).0) && Balance(DrainStep(s, f).0) == Balance(s)
  {
    var d := s.flow.queue[0];
    var s1, s' := Unqueued(s), DrainStep(s, f).0;
    UnqueuedKeepsSafe(s);
    SpawnBalances(s1, d.publish);
    UnsentStays(s, s1);
    assert KeyOk(s, s.nextKey);
    forall j ensures BackedUp(s', j) {
      assert BackedUp(s, j);
      QueuedTail(s.flow.queue, j);
    }
  }

  lemma {:induction false} DrainIsBooked(s: Session, f: Faults)
    requires Safe(s) && Booked(s) && s.profile.version.V5_0? && f.writes == {}
    ensures Booked(Drained(s, f)) && Balance(Drained(s, f)) == Balance(s)
    decreases |s.flow.queue|
  {
    if Drainable(s) {
      TurnShrinksQueue(s, f);
      var (s1, more) := DrainStep(s, f);
      DrainStepKeepsSafe(s, f);
      if s.flow.queue[0].registered.Some? {
        RegisteredTurnBalances(s, f);
        forall j ensures BackedUp(s1, j) {
          assert BackedUp(s, j);
          RegisteredTurnBacks(s, f, j);
        }
      } else {
        UnregisteredTurnIsBooked(s, f);
      }
      if more {
        DrainIsBooked(s1, f);
      }
    }
  }

  /** One slot is given back, and the drain accounts for what it takes of it. */
  lemma ReleaseIsBooked(s: Session, f: Faults)
    requires Safe(s) && Booked(s) && s.profile.version.V5_0? && f.writes == {} && s.flow.slots > 0
    ensures Booked(ReleasedAndDrained(s, f)) && Balance(ReleasedAndDrained(s, f)) == Balance(s) + 1
  {
    var s1 := Released(s);
    forall j ensures KeyOk(s1, j) && BackedUp(s1, j) {
      assert KeyOk(s, j) && BackedUp(s, j);
    }
    UnsentStays(s, s1);
    DrainIsBooked(s1, f);
  }

  // ---- deliveries of a clean session ----

  lemma PrepareIsBooked(s: Session, k: Key)
    requires Booked(s) && At(s, k, Starting)
    ensures var s' := DeliveryPrepared(s, k, s.deliveries[k]);
            Booked(s') && Balance(s') == Balance(s)
  {
    var s' := DeliveryPrepared(s, k, s.deliveries[k]);
    forall j ensures BackedUp(s', j) {
      assert BackedUp(s, j);
    }
    assert BackedUp(s, k);
    UnsentCount(s, s', k);
  }

  lemma PutIsBooked(s: Session, k: Key, ok: bool)
    requires Safe(s) && Booked(s) && At(s, k, Storing)
    ensures var s' := DeliveryStored(s, k, s.deliveries[k], ok);
            Booked(s') && Balance(s') == Balance(s)
  {
    var s' := DeliveryStored(s, k, s.deliveries[k], ok);
    assert DeliveryOk(s.profile, s.memory, k, s.deliveries[k]);
    forall j ensures BackedUp(s', j) {
      assert BackedUp(s, j);
    }
    UnsentCount(s, s', k);
  }

  lemma RegisterIsBooked(s: Session, k: Key)
    requires Paid(s, 0) && Booked(s) && At(s, k, Registering) && s.deliveries[k].publish.packetIdentifier.Some?
    ensures var s' := DeliveryRegistered(s, k, s.deliveries[k], true);
            Booked(s') && Balance(s') == Balance(s)
  {
    var s' := DeliveryRegistered(s, k, s.deliveries[k], true);
    assert DeliveryOk(s.profile, s.memory, k, s.deliveries[k]) && KeyOk(s, k) && DeliveryPaid(s, k);
    forall j ensures BackedUp(s', j) {
      assert BackedUp(s, j) && BackedUp(s, k);
    }
    UnderwayIsNotQueued(s, k);
    UnsentCount(s, s', k);
    assert s'.wire.written == s.wire.written || s'.wire.written == s.wire.written + {k};
  }

  lemma UnderwayIsNotQueued(s: Session, k: Key)
    requires Safe(s) && Underway(s.deliveries, k)
    ensures forall i :: 0 <= i < |s.flow.queue| ==> s.flow.queue[i].registered != Some(k)
  {
    assert KeyOk(s, k);
    forall i | 0 <= i < |s.flow.queue| ensures s.flow.queue[i].registered != Some(k) {
      assert s.flow.queue[i] in s.flow.queue;
    }
  }

  lemma RefreshIsBooked(s: Session, k: Key)
    requires Paid(s, 0) && Booked(s) && At(s, k, Refreshing) && s.deliveries[k].publish.packetIdentifier.Some?
    ensures var s' := DeliveryRefreshed(s, k, s.deliveries[k], true, true);
            Booked(s') && Balance(s') == Balance(s)
  {
    var s' := DeliveryRefreshed(s, k, s.deliveries[k], true, true);
    assert DeliveryPaid(s, k) && BackedUp(s, k);
    forall j ensures BackedUp(s', j) {
      assert BackedUp(s, j);
      assert j in s.memory.idOf ==> EntryOk(s.memory, s.flow.queue, s.wire, s.clock, s.memory.idOf[j]);
    }
    UnderwayIsNotQueued(s, k);
    UnsentCount(s, s', k);
    assert s'.wire.written == s.wire.written + {k};
  }

  lemma CompleteIsBooked(s: Session, k: Key, f: Faults)
    requires Paid(s, 0) && Booked(s) && k in s.deliveries && s.deliveries[k].phase.Ended? && f.writes == {}
    ensures var s' := DeliveryCompleted(s, k, s.deliveries[k], f);
            Booked(s') && Balance(s') == Balance(s)
  {
    var s1 := s.(deliveries := s.deliveries - {k});
    forall j ensures KeyOk(s1, j) && BackedUp(s1, j) {
      assert KeyOk(s, j) && BackedUp(s, j);
    }
    UnsentCount(s, s1, k);
    if s.deliveries[k].reserved && s.deliveries[k].phase == Ended(false) {
      HolderHasSlot(s, k);
      ReleaseIsBooked(s1, f);
    }
  }

  lemma HolderHasSlot(s: Session, k: Key)
    requires Paid(s, 0) && Holds(s, k)
    ensures s.flow.slots > 0
  {
    HoldersAreDrawn(s, k);
    assert {k} <= Holders(s);
    SubsetIsSmaller({k}, Holders(s));
  }

  // ---- deliveries of a persistent session ----

  lemma ReserveIsBooked(s: Session)
    requires Booked(s)
    ensures Booked(Reserved(s)) && Balance(Reserved(s)) == Balance(s) - 1
  {
    forall j ensures BackedUp(Reserved(s), j) {
      assert BackedUp(s, j);
    }
    UnsentStays(s, Reserved(s));
  }

  lemma StoreIsBooked(s: Session, publish: Publish)
    requires Safe(s) && Booked(s)
    ensures Booked(StoredAs(s, publish)) && Balance(StoredAs(s, publish)) == Balance(s)
  {
    var s' := StoredAs(s, publish);
    assert KeyOk(s, s.nextKey);
    forall j ensures BackedUp(s', j) {
      assert BackedUp(s, j);
      assert j in s.memory.idOf ==> EntryOk(s.memory, s.flow.queue, s.wire, s.clock, s.memory.idOf[j]);
    }
    UnsentStays(s, s');
  }

  /** A publish that was just stored is registered and written. */
  lemma StartedEntryIsBooked(s: Session, k: Key, sent: Publish, id: u16, f: Faults)
    requires Safe(s) && Booked(s) && id !in s.memory.table && f.writes == {}
    requires k !in s.memory.idOf && k !in s.deliveries && sent.qos > 0
    ensures var s' := Entered(s, k, sent, id, false, f).0;
            Booked(s') && Balance(s') == Balance(s) + 1
  {
    var s' := Entered(s, k, sent, id, false, f).0;
    assert KeyOk(s, k);
    forall j ensures BackedUp(s', j) {
      assert BackedUp(s, j);
    }
    forall i | 0 <= i < |s.flow.queue| && s.flow.queue[i].registered.Some?
      ensures s.flow.queue[i].registered.value != k
    {
      assert s.flow.queue[i] in s.flow.queue && DeferredOk(s.profile, s.memory, s.flow.queue[i]);
    }
    UnsentStays(s, s');
    assert s'.wire.written == s.wire.written + {k};
  }

  /** A publish that was just stored is registered and goes to the end of the queue. */
  lemma WaitingEntryIsBooked(s: Session, k: Key, sent: Publish, id: u16, f: Faults)
    requires Safe(s) && Booked(s) && id !in s.memory.table
    requires k !in s.memory.idOf && k !in s.deliveries && sent.qos > 0
    ensures var s' := Appended(Entered(s, k, sent, id, true, f).0, Deferred(sent, Some(k)));
            Booked(s') && Balance(s') == Balance(s)
  {
    var d := Deferred(sent, Some(k));
    var s' := Appended(Entered(s, k, sent, id, true, f).0, d);
    assert KeyOk(s, k);
    assert d in s'.flow.queue && Queued(s'.flow.queue, k);
    assert forall d' :: d' in s.flow.queue ==> d' in s'.flow.queue;
    forall j ensures BackedUp(s', j) {
      assert BackedUp(s, j);
      assert Queued(s.flow.queue, j) ==> Queued(s'.flow.queue, j);
    }
    forall i | 0 <= i < |s.flow.queue| && s.flow.queue[i].registered.Some?
      ensures s.flow.queue[i].registered.value != k
    {
      assert s.flow.queue[i] in s.flow.queue && DeferredOk(s.profile, s.memory, s.flow.queue[i]);
    }
    UnsentStays(s, s');
  }

  /** What a delivery leaves of the books: a publish that is sent takes the slot it was given. */
  ghost predicate LeftBooked(s: Session, s': Session, status: Status, qos: u8) {
    match status
    case DeferredAs(sent, k) =>
      Booked(Appended(s', Deferred(sent, Some(k)))) && Balance(Appended(s', Deferred(sent, Some(k)))) == Balance(s)
    case SentNow => Booked(s') && Balance(s') == Balance(s) + (if qos > 0 then 1 else 0)
    case _ => Booked(s') && Balance(s') == Balance(s)
  }

  lemma ActiveIsBooked(s: Session, publish: Publish, wait: bool, f: Faults)
    requires Safe(s) && Booked(s) && f.writes == {}
    ensures var (s', status) := DeliverActive(s, publish, wait, f);
            LeftBooked(s, s', status, publish.qos)
  {
    var first := if publish.packetIdentifier.Some? then publish.packetIdentifier else LeastFree(s.memory.table, 1);
    if publish.qos > 0 && first.Some? && !f.put {
      var s1 := StoredAs(s, publish.(packetIdentifier := first));
      StoreIsBooked(s, publish.(packetIdentifier := first));
      StoreKeepsSafe(s, publish.(packetIdentifier := first));
      var id := ChosenId(s.memory, publish.(packetIdentifier := first));
      if !f.raft && id.Some? && !(id != first && f.put2) {
        assert KeyOk(s, s.nextKey);
        if wait {
          WaitingEntryIsBooked(s1, s.nextKey, publish.(packetIdentifier := id), id.value, f);
        } else {
          StartedEntryIsBooked(s1, s.nextKey, publish.(packetIdentifier := id), id.value, f);
        }
      }
    }
  }

  lemma InactiveIsBooked(s: Session, publish: Publish, f: Faults)
    requires Safe(s) && Booked(s)
    ensures Booked(DeliverInactive(s, publish, f).0) && Balance(DeliverInactive(s, publish, f).0) == Balance(s)
  {
    var s1 := StoredAs(s, publish);
    StoreIsBooked(s, publish);
    var s2 := s1.(pending := s1.pending + [s.nextKey]);
    forall j ensures BackedUp(s2, j) {
      assert BackedUp(s1, j);
    }
    UnsentStays(s1, s2);
  }

  lemma PersistentIsBooked(s: Session, publish: Publish, wait: bool, f: Faults)
    requires Safe(s) && Booked(s) && f.writes == {}
    ensures var (s', status) := DeliverPersistent(s, publish, wait, f);
            LeftBooked(s, s', status, if s.active then publish.qos else 0)
  {
    var prepared := MessageExpiry.Prepared(publish, s.profile.version, s.clock);
    if prepared.Some? {
      if s.active {
        ActiveIsBooked(s, prepared.value, wait, f);
      } else {
        InactiveIsBooked(s, prepared.value, f);
      }
    }
  }

  lemma DeferIsBooked(s: Session, publish: Publish)
    requires Booked(s)
    ensures var s' := s.(flow := s.flow.(queue := s.flow.queue + [Deferred(publish, None)]));
            Booked(s') && Balance(s') == Balance(s)
  {
    var s' := s.(flow := s.flow.(queue := s.flow.queue + [Deferred(publish, None)]));
    assert forall d :: d in s.flow.queue ==> d in s'.flow.queue;
    forall j ensures BackedUp(s', j) {
      assert BackedUp(s, j);
      assert Queued(s.flow.queue, j) ==> Queued(s'.flow.queue, j);
    }
    UnsentStays(s, s');
  }

  lemma SpawnIsBooked(s: Session, publish: Publish)
    requires Safe(s) && Booked(s)
    ensures Booked(Spawned(s, publish)) && Balance(Spawned(s, publish)) == Balance(s)
  {
    var s' := Spawned(s, publish);
    assert KeyOk(s, s.nextKey);
    forall j ensures BackedUp(s', j) {
      assert BackedUp(s, j);
    }
    SpawnBalances(s, publish);
  }

  lemma AcceptIsBooked(s: Session, publish: Publish, f: Faults)
    requires Paid(s, 0) && Booked(s) && f.writes == {}
    ensures Booked(Accepted(s, publish, f).0) && Balance(Accepted(s, publish, f).0) == Balance(s)
  {
    var uses := UsesSlot(s, publish);
    var wait := uses && !CanReserve(s);
    if s.profile.clean {
      if wait {
        DeferIsBooked(s, publish);
      } else {
        SpawnIsBooked(s, publish);
      }
    } else if uses && !wait {
      var s0 := Reserved(s);
      ReserveIsBooked(s);
      ReserveKeepsSafe(s);
      PersistentIsBooked(s0, publish, wait, f);
      PersistentKeepsSafe(s0, publish, wait, f);
      PersistentKeepsSlots(s0, publish, wait, f);
      PersistentDefers(s0, publish, wait, f);
      var (s1, status) := DeliverPersistent(s0, publish, wait, f);
      if status.NotSent? || status.Error? {
        ReleaseIsBooked(s1, f);
      }
    } else {
      PersistentIsBooked(s, publish, wait, f);
      PersistentWaits(s, publish, wait, f);
    }
  }

  lemma PersistentKeepsSlots(s: Session, publish: Publish, wait: bool, f: Faults)
    ensures var s' := DeliverPersistent(s, publish, wait, f).0;
            s'.flow == s.flow && s'.profile == s.profile
  {
  }

  lemma PersistentWaits(s: Session, publish: Publish, wait: bool, f: Faults)
    requires wait || !s.active || publish.qos == 0
    ensures DeliverPersistent(s, publish, wait, f).1.SentNow? && s.active ==> publish.qos == 0
  {
  }

  // ---- acknowledgements and the rest ----

  /** The message takes an entry out of the states that hold a slot. */
  predicate TakesEffect(s: Session, a: Action) {
    match a
    case Puback(id, _, f) => InState(s.memory, id, WaitPuback) && (s.profile.clean || !f.raft)
    case Pubrec(id, _, f) => InState(s.memory, id, WaitPubrec) && (s.profile.clean || !f.raft)
    case _ => false
  }

  /** A change that makes nothing resendable. */
  lemma QuietlyBooked(s: Session, s': Session)
    requires Booked(s) && s'.flow == s.flow && s'.deliveries == s.deliveries && s'.wire.written == s.wire.written
    requires forall k :: Retransmittable(s', k) ==> Retransmittable(s, k)
    ensures Booked(s') && Balance(s') == Balance(s)
  {
    forall j ensures BackedUp(s', j) {
      assert BackedUp(s, j);
    }
    UnsentStays(s, s');
  }

  /** Advancing an entry and cleaning up make nothing resendable. */
  lemma AdvancedIsBooked(s: Session, s': Session, m: Memory)
    requires Safe(s) && Booked(s) && s' == s.(wire := s'.wire, memory := m) && s'.wire.written == s.wire.written
    requires m.idOf == s.memory.idOf && m.table.Keys <= s.memory.table.Keys
    requires forall id :: id in m.table && IsWaiting(m.table[id].state) ==>
               IsWaiting(s.memory.table[id].state) && m.table[id].packetKey == s.memory.table[id].packetKey
    requires forall k :: k in m.store ==> k in s.memory.store && m.store[k] == s.memory.store[k]
    ensures Booked(s') && Balance(s') == Balance(s)
  {
    forall k | Retransmittable(s', k) ensures Retransmittable(s, k) {
    }
    QuietlyBooked(s, s');
  }

  lemma AnswererHasSlot(s: Session, id: u16, acked: Option<Copy>)
    requires Paid(s, 0) && Answers(s, id, acked)
    ensures s.flow.slots > 0
  {
    HolderHasSlot(s, acked.value.key);
  }

  lemma PubackIsBooked(s: Session, id: u16, acked: Option<Copy>, f: Faults)
    requires Paid(s, 0) && Booked(s) && Answers(s, id, acked) && f.writes == {}
    ensures var s', d := PubackHandled(s, id, acked, f), if TakesEffect(s, Puback(id, acked, f)) then 1 else 0;
            Booked(s') && Balance(s') == Balance(s) + d
  {
    var s1 := Answered(s, acked);
    AnswerKeepsSafe(s, acked);
    AdvancedIsBooked(s, s1, s.memory);
    if TakesEffect(s, Puback(id, acked, f)) {
      var m := AdvancedMemory(s1.memory, id, s.clock);
      var m' := if s.profile.clean || f.cleanup then m else CleanedMemory(m);
      var s2 := s1.(memory := m');
      AdvanceKeepsSafe(s1, id, s.clock);
      CleanupKeepsSafe(s1.(memory := m));
      AdvancedIsBooked(s, s2, m');
      AnswererHasSlot(s, id, acked);
      ReleaseIsBooked(s2, f);
    }
  }

  lemma PubrecIsBooked(s: Session, id: u16, acked: Option<Copy>, f: Faults)
    requires Paid(s, 0) && Booked(s) && Answers(s, id, acked) && f.writes == {} && !f.control
    ensures var s', d := PubrecHandled(s, id, acked, f), if TakesEffect(s, Pubrec(id, acked, f)) then 1 else 0;
            Booked(s') && Balance(s') == Balance(s) + d
  {
    var s1 := Answered(s, acked);
    AnswerKeepsSafe(s, acked);
    AdvancedIsBooked(s, s1, s.memory);
    if TakesEffect(s, Pubrec(id, acked, f)) {
      var m := AdvancedMemory(s1.memory, id, s.clock);
      var s2 := s1.(memory := m);
      AdvanceKeepsSafe(s1, id, s.clock);
      AdvancedIsBooked(s, s2, m);
      AnswererHasSlot(s, id, acked);
      ReleaseIsBooked(s2, f);
    }
  }

  lemma FinalAckIsBooked(s: Session, id: u16, f: Faults)
    requires Safe(s) && Booked(s)
    ensures Booked(FinalAckHandled(s, id, f)) && Balance(FinalAckHandled(s, id, f)) == Balance(s)
  {
    AdvancedIsBooked(s, FinalAckHandled(s, id, f), FinalAckHandled(s, id, f).memory);
  }

  lemma CleanupIsBooked(s: Session)
    requires Safe(s) && Booked(s)
    ensures var s' := s.(memory := CleanedMemory(s.memory));
            Booked(s') && Balance(s') == Balance(s)
  {
    AdvancedIsBooked(s, s.(memory := CleanedMemory(s.memory)), CleanedMemory(s.memory));
  }

  lemma InboundIsBooked(s: Session, id: u16, publish: Publish)
    requires Safe(s) && Booked(s)
    ensures Booked(PublishReceived(s, id, publish)) && Balance(PublishReceived(s, id, publish)) == Balance(s)
  {
    var s' := PublishReceived(s, id, publish);
    assert KeyOk(s, s.nextKey);
    forall k | Retransmittable(s', k) ensures Retransmittable(s, k) {
    }
    QuietlyBooked(s, s');
  }

  lemma TickIsBooked(s: Session, to: u64)
    requires Booked(s) && s.clock <= to
    ensures Booked(s.(clock := to)) && Balance(s.(clock := to)) == Balance(s)
  {
    QuietlyBooked(s, s.(clock := to));
  }

  lemma DeactivateIsBooked(s: Session)
    requires Booked(s)
    ensures Booked(s.(active := false)) && Balance(s.(active := false)) == Balance(s)
  {
    QuietlyBooked(s, s.(active := false));
  }

  // ---- retry and recovery ----

  lemma {:induction false} WithoutStaysDistinct(queue: seq<Deferred>, ids: set<u16>)
    requires Distinct(queue)
    ensures Distinct(Without(queue, ids))
    decreases queue
  {
    if queue != [] {
      var rest, left := queue[1..], Without(queue[1..], ids);
      assert forall i, j :: 0 <= i < j < |rest| ==> rest[i] == queue[i + 1] && rest[j] == queue[j + 1];
      WithoutStaysDistinct(rest, ids);
      forall i | 0 <= i < |left| && queue[0].registered.Some? ensures left[i].registered != queue[0].registered {
        WithoutKeeps(rest, ids, left[i]);
        var j :| 0 <= j < |rest| && rest[j] == left[i];
        assert queue[j + 1] == left[i];
      }
      assert forall i :: 0 < i < |[queue[0]] + left| ==> ([queue[0]] + left)[i] == left[i - 1];
    }
  }

  /** A retry pass writes nothing for the first time. */
  lemma RetriedWasWritten(s: Session, due: set<u16>, f: Faults, m: Memory)
    requires Paid(s, 0) && Booked(s) && DueAfterPut(s, due) && m == ExpiryPass(s, f).0.memory
    requires forall id :: Matched(s, {}, id)
    ensures KeysOf(CopiesAt(m, Retried(m, s.flow.queue, due, s.clock), f.writes)) <= s.wire.written
  {
    var sent := CopiesAt(m, Retried(m, s.flow.queue, due, s.clock), f.writes);
    forall c | c in sent ensures c.key in s.wire.written {
      var id :| id in Retried(m, s.flow.queue, due, s.clock) && m.table[id].packetKey == Some(c.key);
      assert Matched(s, {}, id);
      RetriedHolds(s, due, f, m, id);
      assert BackedUp(s, c.key);
    }
  }

  lemma RetryIsBooked(s: Session, due: set<u16>, f: Faults)
    requires Paid(s, 0) && Booked(s) && DueAfterPut(s, due) && f.writes == {} && forall id :: Matched(s, {}, id)
    ensures Booked(RetryHandled(s, due, f)) && Balance(RetryHandled(s, due, f)) == Balance(s)
  {
    var s', removed := RetrySent(s, due, f), ExpiryPass(s, f).1;
    RetrySentIsSafe(s, due, f);
    RetriedWasWritten(s, due, f, ExpiryPass(s, f).0.memory);
    assert s'.wire.written == s.wire.written;
    WithoutStaysDistinct(s.flow.queue, removed);
    forall i | 0 <= i < |s'.flow.queue| && s'.flow.queue[i].registered.Some?
      ensures s'.flow.queue[i].registered.value !in s.wire.written
    {
      WithoutKeeps(s.flow.queue, removed, s'.flow.queue[i]);
    }
    forall j ensures BackedUp(s', j) {
      assert BackedUp(s, j);
      if Retransmittable(s', j) {
        UnqueuedByExpiry(s, due, f, j);
      }
    }
    UnsentStays(s, s');
    DrainIsBooked(s', f);
  }

  lemma {:induction false} RecoveredIsDistinct(m: Memory, w: Wire, now: u64, n: int)
    requires 0 <= n <= U16_MAX + 1 && forall id :: EntryKept(m, w, id)
    ensures Distinct(Recovered(m, now, n))
  {
    if n > 0 {
      RecoveredIsDistinct(m, w, now, n - 1);
      var before := Recovered(m, now, n - 1);
      forall i | 0 <= i < |before| && Resendable(m, n - 1, now)
        ensures before[i].registered != m.table[n - 1].packetKey
      {
        RecoveredHolds(m, now, n - 1, before[i]);
        var id: u16 :| id < n - 1 && Resendable(m, id, now)
                       && before[i] == Deferred(Resent(m, id), m.table[id].packetKey);
        assert EntryKept(m, w, id) && EntryKept(m, w, n - 1);
      }
    }
  }

  lemma RecoveryIsBooked(s: Session, f: Faults)
    requires Kept(s) && s.profile.version.V5_0? && f.writes == {}
    ensures Booked(RecoveryHandled(s, f)) && Balance(RecoveryHandled(s, f)) == 0
  {
    var s', m := RecoveryQueued(s, f), ExpiryPass(s, f).0.memory;
    RecoveryQueuedIsSafe(s, f);
    ExpiryKeepsEntries(s.memory, s.wire, s.clock, Spared(s, f));
    RecoveredIsDistinct(m, s.wire, s.clock, U16_MAX + 1);
    assert s'.flow.queue == Recovered(m, s.clock, U16_MAX + 1);
    forall k ensures BackedUp(s', k) {
      if k in m.idOf && Resendable(m, m.idOf[k], s.clock) {
        RecoveredMisses(m, s.clock, U16_MAX + 1, m.idOf[k]);
      }
    }
    assert UnsentKeys(s') == {};
    DrainIsBooked(s', f);
  }

  // ---- every run ----

  lemma StepIsBooked(s: Session, a: Action)
    requires Paid(s, 0) && Booked(s) && Enabled(s, a) && Fair(s, a) && forall id :: Matched(s, {}, id)
    ensures Booked(Apply(s, a)) && Balance(Apply(s, a)) == Balance(s) + (if TakesEffect(s, a) then 1 else 0)
  {
    match a
    case Tick(to) => TickIsBooked(s, to);
    case Outbound(publish, f) => AcceptIsBooked(s, publish, f);
    case Prepare(k) => PrepareIsBooked(s, k);
    case Put(k, ok) => PutIsBooked(s, k, ok);
    case Register(k, ok) => RegisterIsBooked(s, k);
    case Refresh(k, stored, ok) => RefreshIsBooked(s, k);
    case Complete(k, f) => CompleteIsBooked(s, k, f);
    case Puback(id, acked, f) => PubackIsBooked(s, id, acked, f);
    case Pubrec(id, acked, f) => PubrecIsBooked(s, id, acked, f);
    case FinalAck(id, f) => FinalAckIsBooked(s, id, f);
    case Inbound(id, publish) => InboundIsBooked(s, id, publish);
    case Cleanup => CleanupIsBooked(s);
    case InflightRetry(due, f) => RetryIsBooked(s, due, f);
    case Deactivate => DeactivateIsBooked(s);
  }

  /** How many acknowledgements took effect in the first `i` steps. */
  function Acknowledged(run: seq<Session>, acts: seq<Action>, i: nat): nat
    requires i <= |acts| <= |run|
  {
    if i == 0 then 0 else Acknowledged(run, acts, i - 1) + (if TakesEffect(run[i - 1], acts[i - 1]) then 1 else 0)
  }

  lemma {:induction false} RunIsBooked(kept: Session, f: Faults, run: seq<Session>, acts: seq<Action>, i: nat)
    requires IsRun(kept, f, run, acts) && Kept(kept) && kept.profile.version.V5_0? && kept.active && f.writes == {}
    requires i < |run| && forall j :: 0 <= j < i ==> Fair(run[j], acts[j])
    ensures Booked(run[i]) && Balance(run[i]) == Acknowledged(run, acts, i)
  {
    if i == 0 {
      RecoveryIsBooked(kept, f);
    } else {
      var s := run[i - 1];
      RunIsBooked(kept, f, run, acts, i - 1);
      RunIsPaid(kept, f, run, acts, i - 1);
      forall id ensures Matched(s, {}, id) {
        FairRunMatches(kept, f, run, acts, i - 1, id);
      }
      StepIsBooked(s, acts[i - 1]);
    }
  }

  /** In every reachable state of an MQTT 5 connection, the slots in use and the acknowledgements that have taken effect
      are together exactly the publishes that were written and the ones that spawned deliveries are still to write. */
  lemma SlotsAreConserved(kept: Session, f: Faults, run: seq<Session>, acts: seq<Action>, i: nat)
    requires IsRun(kept, f, run, acts) && Kept(kept) && kept.profile.version.V5_0? && kept.active && f.writes == {}
    requires i < |run| && forall j :: 0 <= j < i ==> Fair(run[j], acts[j])
    ensures run[i].flow.slots + Acknowledged(run, acts, i) == |run[i].wire.written| + |UnsentKeys(run[i])|
  {
    RunIsBooked(kept, f, run, acts, i);
  }
}
