/** Receive Maximum (section 3.1.2.11.3 of MQTT 5.0): of the PUBLISH packets written to a connection for routed QoS 1
    and 2 publishes, no more await PUBACK or PUBREC than there are slots in use, and no more slots are in use than the
    client allows. */
module ReceiveMaximum {
  import opened MqttTypes
  import opened Inflight
  import opened SessionDelivery
  import opened SessionSafety
  import opened SessionAgreement
  import MessageExpiry

  // ---- who holds a slot ----

  /** A spawned delivery that reserved a slot and has not written its publish. */
  predicate Unsent(s: Session, k: Key) {
    k in s.deliveries && s.deliveries[k].reserved && s.deliveries[k].phase != Ended(true)
  }

  /** An entry that a retry pass may write again without asking for a slot. */
  ghost predicate Retransmittable(s: Session, k: Key) {
    && k in s.memory.idOf && Holding(s.memory, s.memory.idOf[k], k)
    && Resendable(s.memory, s.memory.idOf[k], s.clock) && !Queued(s.flow.queue, k)
  }

  /** The publish is outstanding under the identifier of its registration. */
  predicate Out(s: Session, k: Key) {
    k in s.memory.idOf && Copy(k, s.memory.idOf[k]) in s.wire.outstanding
  }

  ghost predicate Holds(s: Session, k: Key) {
    Out(s, k) || Unsent(s, k) || Retransmittable(s, k)
  }

  ghost function Holders(s: Session): set<Key> {
    set k | 0 <= k < s.nextKey && Holds(s, k)
  }

  /** A delivery that comes to write has a slot; one that failed has no entry, and none that is still to write
      has been written. */
  predicate DeliveryPaid(s: Session, k: Key) {
    k in s.deliveries ==>
      var d := s.deliveries[k];
      && (d.phase.Starting? && d.publish.qos > 0 ==> d.reserved)
      && (!d.phase.Starting? && !d.phase.Ended? ==> d.reserved)
      && (d.phase == Ended(false) ==> k !in s.memory.idOf)
      && (Unsent(s, k) ==> !Out(s, k))
  }

  /** A packet is outstanding only under the identifier of its publish's registration. */
  predicate CopiesOk(s: Session) {
    forall c :: c in s.wire.outstanding ==> c.key in s.memory.idOf && s.memory.idOf[c.key] == c.id
  }

  /** The slots in use cover every holder, and `spare` more. */
  ghost predicate Paid(s: Session, spare: nat) {
    && Safe(s) && s.profile.version.V5_0? && (s.profile.clean ==> s.active)
    && (forall k :: DeliveryPaid(s, k)) && CopiesOk(s)
    && |Holders(s)| + spare <= s.flow.slots <= Limit(s.profile)
  }

  // ---- how the count changes ----

  ghost predicate NoMore(s: Session, s': Session) {
    forall k :: Holds(s', k) ==> Holds(s, k)
  }

  ghost predicate OneMore(s: Session, s': Session, k: Key) {
    forall j :: Holds(s', j) ==> Holds(s, j) || j == k
  }

  lemma HoldersAreDrawn(s: Session, k: Key)
    requires Safe(s)
    ensures Holds(s, k) <==> k in Holders(s)
  {
    assert KeyOk(s, k);
  }

  /** Everything but the count. */
  ghost predicate Sound(s: Session, s': Session) {
    && Safe(s') && s'.profile == s.profile && (s'.profile.clean ==> s'.active)
    && s'.flow.slots == s.flow.slots
    && (forall k :: DeliveryPaid(s', k)) && CopiesOk(s')
  }

  lemma Move(s: Session, s': Session, spare: nat)
    requires Paid(s, spare) && Sound(s, s') && NoMore(s, s')
    ensures Paid(s', spare)
  {
    forall k | k in Holders(s') ensures k in Holders(s) {
      HoldersAreDrawn(s, k);
    }
    SubsetIsSmaller(Holders(s'), Holders(s));
  }

  lemma Take(s: Session, s': Session, spare: nat, k: Key)
    requires Paid(s, spare) && spare > 0 && Sound(s, s') && OneMore(s, s', k)
    ensures Paid(s', spare - 1)
  {
    forall j | j in Holders(s') ensures j in Holders(s) + {k} {
      HoldersAreDrawn(s, j);
    }
    SubsetIsSmaller(Holders(s'), Holders(s) + {k});
  }

  lemma Free(s: Session, s': Session, spare: nat, k: Key)
    requires Paid(s, spare) && Sound(s, s') && NoMore(s, s') && Holds(s, k) && !Holds(s', k)
    ensures Paid(s', spare + 1)
  {
    forall j | j in Holders(s') ensures j in Holders(s) - {k} {
      HoldersAreDrawn(s, j);
    }
    HoldersAreDrawn(s, k);
    SubsetIsSmaller(Holders(s'), Holders(s) - {k});
  }

  lemma SlotsOnly(s: Session, s': Session)
    requires s' == s.(flow := s.flow.(slots := s'.flow.slots))
    ensures Safe(s) ==> Safe(s')
    ensures Holders(s') == Holders(s)
    ensures forall k :: DeliveryPaid(s', k) <==> DeliveryPaid(s, k)
    ensures CopiesOk(s') <==> CopiesOk(s)
  {
    if Safe(s) {
      forall k ensures KeyOk(s', k) {
        assert KeyOk(s, k);
      }
    }
    forall k ensures Holds(s', k) <==> Holds(s, k) {
    }
  }

  lemma Reserve(s: Session, spare: nat)
    requires Paid(s, spare) && CanReserve(s)
    ensures Paid(Reserved(s), spare + 1)
  {
    SlotsOnly(s, Reserved(s));
  }

  lemma Release(s: Session, spare: nat)
    requires Paid(s, spare) && spare > 0
    ensures Paid(Released(s), spare - 1)
  {
    SlotsOnly(s, Released(s));
  }

  // ---- the drain loop ----

  lemma RegisteredTurnHolds(s: Session, f: Faults, j: Key)
    requires Safe(s) && Drainable(s) && s.flow.queue[0].registered.Some? && f.writes == {}
    ensures var (r, outcome) := DeliverRegistered(s, s.flow.queue[0].publish, s.flow.queue[0].registered.value, f);
            var s' := DrainStep(s, f).0;
            Holds(s', j) ==> Holds(s, j) || (outcome.Sent? && j == s.flow.queue[0].registered.value)
  {
    var d := s.flow.queue[0];
    var k := d.registered.value;
    assert d in s.flow.queue && DeferredOk(s.profile, s.memory, d);
    RegisteredTurn(s, f);
    QueuedTail(s.flow.queue, j);
    RegisteredHoldings(s, d.publish, k, f, j);
  }

  /** A registered delivery makes no entry resendable, and none that it skips is. */
  lemma RegisteredHoldings(s: Session, publish: Publish, k: Key, f: Faults, j: Key)
    requires k in s.memory.idOf && publish.packetIdentifier == Some(s.memory.idOf[k])
    requires k in s.memory.store ==> s.memory.store[k].expiresAt == publish.expiresAt
    requires f.writes == {}
    ensures var (s', outcome) := DeliverRegistered(s, publish, k, f);
            j in s.memory.idOf && Holding(s'.memory, s.memory.idOf[j], j)
            && Resendable(s'.memory, s.memory.idOf[j], s.clock) ==>
              && Holding(s.memory, s.memory.idOf[j], j) && Resendable(s.memory, s.memory.idOf[j], s.clock)
              && (j == k ==> !outcome.Skipped?)
  {
  }

  lemma RegisteredTurnDeliveries(s: Session, f: Faults, j: Key)
    requires Paid(s, 0) && Drainable(s) && s.flow.queue[0].registered.Some?
    ensures DeliveryPaid(DrainStep(s, f).0, j)
  {
    var d := s.flow.queue[0];
    assert d in s.flow.queue && DeferredOk(s.profile, s.memory, d);
    assert KeyOk(s, d.registered.value) && DeliveryPaid(s, d.registered.value);
    assert Queued(s.flow.queue, d.registered.value);
    assert DeliveryPaid(s, j);
    RegisteredTurn(s, f);
  }

  lemma RegisteredTurnIsPaid(s: Session, f: Faults)
    requires Paid(s, 0) && Drainable(s) && s.flow.queue[0].registered.Some? && f.writes == {}
    ensures Paid(DrainStep(s, f).0, 0)
  {
    var d := s.flow.queue[0];
    var k := d.registered.value;
    var s' := DrainStep(s, f).0;
    assert d in s.flow.queue && DeferredOk(s.profile, s.memory, d);
    RegisteredTurn(s, f);
    RegisteredTurnKeepsSafe(s, f);
    forall j ensures DeliveryPaid(s', j) && (Holds(s', j) ==> Holds(s, j) || (s'.flow.slots > s.flow.slots && j == k)) {
      RegisteredTurnDeliveries(s, f, j);
      RegisteredTurnHolds(s, f, j);
    }
    if s'.flow.slots > s.flow.slots {
      Reserve(s, 0);
      forall j ensures Holds(s', j) ==> Holds(Reserved(s), j) || j == k {
        assert Holds(s, j) ==> Holds(Reserved(s), j);
      }
      Take(Reserved(s), s', 1, k);
    } else {
      Move(s, s', 0);
    }
  }

  lemma SpawnIsPaid(s: Session, publish: Publish)
    requires Paid(s, 0) && s.profile.clean && (UsesSlot(s, publish) ==> CanReserve(s))
    ensures Paid(Spawned(s, publish), 0)
  {
    var s' := Spawned(s, publish);
    SpawnKeepsSafe(s, publish);
    assert KeyOk(s, s.nextKey);
    forall j ensures DeliveryPaid(s', j) {
      assert DeliveryPaid(s, j);
    }
    if UsesSlot(s, publish) {
      Reserve(s, 0);
      forall j ensures Holds(s', j) ==> Holds(Reserved(s), j) || j == s.nextKey {
      }
      Take(Reserved(s), s', 1, s.nextKey);
    } else {
      forall j ensures Holds(s', j) ==> Holds(s, j) {
      }
      Move(s, s', 0);
    }
  }

  lemma UnqueuedIsPaid(s: Session)
    requires Paid(s, 0) && s.flow.queue != [] && s.flow.queue[0].registered.None?
    ensures Paid(Unqueued(s), 0)
  {
    var s1 := Unqueued(s);
    UnqueuedKeepsSafe(s);
    forall j ensures DeliveryPaid(s1, j) && (Holds(s1, j) ==> Holds(s, j)) {
      assert DeliveryPaid(s, j);
      QueuedTail(s.flow.queue, j);
    }
    Move(s, s1, 0);
  }

  lemma DrainStepIsPaid(s: Session, f: Faults)
    requires Paid(s, 0) && Drainable(s) && f.writes == {}
    ensures Paid(DrainStep(s, f).0, 0)
  {
    var d := s.flow.queue[0];
    if d.registered.Some? {
      RegisteredTurnIsPaid(s, f);
    } else {
      assert d in s.flow.queue && DeferredOk(s.profile, s.memory, d);
      UnqueuedIsPaid(s);
      SpawnIsPaid(Unqueued(s), d.publish);
    }
  }

  lemma {:induction false} DrainIsPaid(s: Session, f: Faults)
    requires Paid(s, 0) && f.writes == {}
    ensures Paid(Drained(s, f), 0)
    decreases |s.flow.queue|
  {
    if Drainable(s) {
      TurnShrinksQueue(s, f);
      var (s1, more) := DrainStep(s, f);
      DrainStepIsPaid(s, f);
      if more {
        DrainIsPaid(s1, f);
      }
    }
  }

  lemma ReleaseIsPaid(s: Session, f: Faults)
    requires Paid(s, 1) && f.writes == {}
    ensures Paid(ReleasedAndDrained(s, f), 0)
  {
    Release(s, 1);
    DrainIsPaid(Released(s), f);
  }

  // ---- deliveries of a clean session ----

  lemma PrepareIsPaid(s: Session, k: Key)
    requires Paid(s, 0) && At(s, k, Starting)
    ensures Paid(DeliveryPrepared(s, k, s.deliveries[k]), 0)
  {
    var s' := DeliveryPrepared(s, k, s.deliveries[k]);
    PrepareKeepsSafe(s, k);
    assert DeliveryOk(s.profile, s.memory, k, s.deliveries[k]);
    assert s' == WithDelivery(s, k, s'.deliveries[k]);
    forall j ensures DeliveryPaid(s', j) && (Holds(s', j) ==> Holds(s, j)) {
      assert DeliveryPaid(s, j) && DeliveryPaid(s, k);
    }
    Move(s, s', 0);
  }

  lemma PutIsPaid(s: Session, k: Key, ok: bool)
    requires Paid(s, 0) && At(s, k, Storing)
    ensures Paid(DeliveryStored(s, k, s.deliveries[k], ok), 0)
  {
    var s' := DeliveryStored(s, k, s.deliveries[k], ok);
    PutKeepsSafe(s, k, ok);
    assert DeliveryOk(s.profile, s.memory, k, s.deliveries[k]);
    forall j ensures DeliveryPaid(s', j) && (Holds(s', j) ==> Holds(s, j)) {
      assert DeliveryPaid(s, j) && DeliveryPaid(s, k);
    }
    Move(s, s', 0);
  }

  lemma RegisterIsPaid(s: Session, k: Key)
    requires Paid(s, 0) && At(s, k, Registering) && s.deliveries[k].publish.packetIdentifier.Some?
    ensures Paid(DeliveryRegistered(s, k, s.deliveries[k], true), 0)
  {
    var s' := DeliveryRegistered(s, k, s.deliveries[k], true);
    RegisterKeepsSafe(s, k, true);
    assert DeliveryOk(s.profile, s.memory, k, s.deliveries[k]);
    forall j ensures DeliveryPaid(s', j) && (Holds(s', j) ==> Holds(s, j)) {
      assert DeliveryPaid(s, j) && DeliveryPaid(s, k);
    }
    Move(s, s', 0);
  }

  lemma RefreshIsPaid(s: Session, k: Key)
    requires Paid(s, 0) && At(s, k, Refreshing) && s.deliveries[k].publish.packetIdentifier.Some?
    ensures Paid(DeliveryRefreshed(s, k, s.deliveries[k], true, true), 0)
  {
    var s' := DeliveryRefreshed(s, k, s.deliveries[k], true, true);
    RefreshKeepsSafe(s, k, true, true);
    assert DeliveryOk(s.profile, s.memory, k, s.deliveries[k]);
    forall j ensures DeliveryPaid(s', j) && (Holds(s', j) ==> Holds(s, j)) {
      assert DeliveryPaid(s, j) && DeliveryPaid(s, k);
      assert j in s.memory.idOf ==> EntryOk(s.memory, s.flow.queue, s.wire, s.clock, s.memory.idOf[j]);
    }
    Move(s, s', 0);
  }

  lemma CompleteIsPaid(s: Session, k: Key, f: Faults)
    requires Paid(s, 0) && k in s.deliveries && s.deliveries[k].phase.Ended? && f.writes == {}
    ensures Paid(DeliveryCompleted(s, k, s.deliveries[k], f), 0)
  {
    var s1 := s.(deliveries := s.deliveries - {k});
    forall j ensures KeyOk(s1, j) {
      assert KeyOk(s, j);
    }
    forall j ensures DeliveryPaid(s1, j) && (Holds(s1, j) ==> Holds(s, j)) {
      assert DeliveryPaid(s, j);
    }
    if s.deliveries[k].reserved && s.deliveries[k].phase == Ended(false) {
      assert DeliveryPaid(s, k);
      Free(s, s1, 0, k);
      ReleaseIsPaid(s1, f);
    } else {
      Move(s, s1, 0);
    }
  }

  // ---- deliveries of a persistent session ----

  lemma StoreIsPaid(s: Session, publish: Publish, spare: nat)
    requires Paid(s, spare)
    ensures Paid(StoredAs(s, publish), spare)
  {
    var s' := StoredAs(s, publish);
    StoreKeepsSafe(s, publish);
    assert KeyOk(s, s.nextKey);
    forall j ensures DeliveryPaid(s', j) && (Holds(s', j) ==> Holds(s, j)) {
      assert DeliveryPaid(s, j);
    }
    Move(s, s', spare);
  }

  lemma WaitingEntryIsPaid(s: Session, k: Key, sent: Publish, id: u16, f: Faults, spare: nat)
    requires Paid(s, spare) && sent.qos > 0 && sent.packetIdentifier == Some(id) && id !in s.memory.table
    requires k !in s.memory.idOf && k < s.nextKey && k in s.memory.store && k !in s.deliveries
    ensures Paid(Appended(Entered(s, k, sent, id, true, f).0, Deferred(sent, Some(k))), spare)
  {
    var d := Deferred(sent, Some(k));
    var s' := Appended(Entered(s, k, sent, id, true, f).0, d);
    WaitingEntryKeepsSafe(s, k, sent, id);
    assert d in s'.flow.queue && Queued(s'.flow.queue, k);
    assert forall d' :: d' in s.flow.queue ==> d' in s'.flow.queue;
    forall j ensures DeliveryPaid(s', j) && (Holds(s', j) ==> Holds(s, j)) {
      assert DeliveryPaid(s, j);
      assert Queued(s.flow.queue, j) ==> Queued(s'.flow.queue, j);
    }
    Move(s, s', spare);
  }

  lemma StartedEntryIsPaid(s: Session, k: Key, sent: Publish, id: u16, f: Faults, spare: nat)
    requires Paid(s, spare) && spare > 0 && sent.qos > 0 && sent.packetIdentifier == Some(id) && id !in s.memory.table
    requires k !in s.memory.idOf && k < s.nextKey && k in s.memory.store && k !in s.deliveries && f.writes == {}
    ensures Paid(Entered(s, k, sent, id, false, f).0, spare - 1)
  {
    var s' := Entered(s, k, sent, id, false, f).0;
    StartedEntryKeepsSafe(s, k, sent, id, f);
    forall j ensures DeliveryPaid(s', j) && (Holds(s', j) ==> Holds(s, j) || j == k) {
      assert DeliveryPaid(s, j);
    }
    Take(s, s', spare, k);
  }

  /** What a delivery leaves of the spare slot it was given. */
  ghost predicate LeftPaid(s: Session, status: Status, qos: u8, spare: nat) {
    match status
    case DeferredAs(sent, k) => Paid(Appended(s, Deferred(sent, Some(k))), spare)
    case SentNow => Paid(s, if qos > 0 && spare > 0 then spare - 1 else spare)
    case _ => Paid(s, spare)
  }

  lemma ActiveIsPaid(s: Session, publish: Publish, wait: bool, f: Faults, spare: nat)
    requires Paid(s, spare) && f.writes == {} && (publish.qos > 0 && !wait ==> spare > 0)
    ensures var (s', status) := DeliverActive(s, publish, wait, f);
            LeftPaid(s', status, publish.qos, spare)
  {
    var first := if publish.packetIdentifier.Some? then publish.packetIdentifier else LeastFree(s.memory.table, 1);
    if publish.qos > 0 && first.Some? && !f.put {
      var s1 := StoredAs(s, publish.(packetIdentifier := first));
      StoreIsPaid(s, publish.(packetIdentifier := first), spare);
      var id := ChosenId(s.memory, publish.(packetIdentifier := first));
      if !f.raft && id.Some? && !(id != first && f.put2) {
        assert KeyOk(s, s.nextKey);
        if wait {
          WaitingEntryIsPaid(s1, s.nextKey, publish.(packetIdentifier := id), id.value, f, spare);
        } else {
          StartedEntryIsPaid(s1, s.nextKey, publish.(packetIdentifier := id), id.value, f, spare);
        }
      }
    }
  }

  lemma InactiveIsPaid(s: Session, publish: Publish, f: Faults, spare: nat)
    requires Paid(s, spare)
    ensures Paid(DeliverInactive(s, publish, f).0, spare)
  {
    var s1 := StoredAs(s, publish);
    StoreIsPaid(s, publish, spare);
    var s2 := s1.(pending := s1.pending + [s.nextKey]);
    forall j ensures KeyOk(s2, j) && DeliveryPaid(s2, j) && (Holds(s2, j) ==> Holds(s1, j)) {
      assert KeyOk(s1, j) && DeliveryPaid(s1, j);
    }
    Move(s1, s2, spare);
  }

  lemma PersistentIsPaid(s: Session, publish: Publish, wait: bool, f: Faults, spare: nat)
    requires Paid(s, spare) && f.writes == {} && (UsesSlot(s, publish) && !wait ==> spare > 0)
    ensures var (s', status) := DeliverPersistent(s, publish, wait, f);
            LeftPaid(s', status, publish.qos, spare)
  {
    var prepared := MessageExpiry.Prepared(publish, s.profile.version, s.clock);
    if prepared.Some? {
      if s.active {
        ActiveIsPaid(s, prepared.value, wait, f, spare);
      } else {
        InactiveIsPaid(s, prepared.value, f, spare);
      }
    }
  }

  lemma DeferIsPaid(s: Session, publish: Publish)
    requires Paid(s, 0) && s.profile.clean && publish.qos > 0
    ensures Paid(s.(flow := s.flow.(queue := s.flow.queue + [Deferred(publish, None)])), 0)
  {
    var s' := s.(flow := s.flow.(queue := s.flow.queue + [Deferred(publish, None)]));
    DeferKeepsSafe(s, publish);
    assert forall d :: d in s.flow.queue ==> d in s'.flow.queue;
    forall j ensures DeliveryPaid(s', j) && (Holds(s', j) ==> Holds(s, j)) {
      assert DeliveryPaid(s, j);
      assert Queued(s.flow.queue, j) ==> Queued(s'.flow.queue, j);
    }
    Move(s, s', 0);
  }

  lemma AcceptIsPaid(s: Session, publish: Publish, f: Faults)
    requires Paid(s, 0) && f.writes == {}
    ensures Paid(Accepted(s, publish, f).0, 0)
  {
    var uses := UsesSlot(s, publish);
    var wait := uses && !CanReserve(s);
    if s.profile.clean {
      if wait {
        DeferIsPaid(s, publish);
      } else {
        SpawnIsPaid(s, publish);
      }
    } else if uses && !wait {
      Reserve(s, 0);
      PersistentIsPaid(Reserved(s), publish, wait, f, 1);
      var (s1, status) := DeliverPersistent(Reserved(s), publish, wait, f);
      if status.NotSent? || status.Error? {
        ReleaseIsPaid(s1, f);
      } else if status.DeferredAs? {
        PersistentDefers(Reserved(s), publish, wait, f);
      }
    } else {
      PersistentIsPaid(s, publish, wait, f, 0);
    }
  }

  lemma PersistentDefers(s: Session, publish: Publish, wait: bool, f: Faults)
    ensures DeliverPersistent(s, publish, wait, f).1.DeferredAs? ==> wait
  {
  }

  // ---- acknowledgements, received publishes, cleanup ----

  /** Advancing an entry leaves it resendable only if another one is advanced, and makes none resendable. */
  lemma AnsweredHolds(s: Session, s': Session, j: Key)
    requires s'.wire.outstanding <= s.wire.outstanding && s'.memory.idOf == s.memory.idOf
    requires s'.flow.queue == s.flow.queue && s'.deliveries == s.deliveries && s'.clock == s.clock
    requires j in s.memory.idOf ==>
               var id := s.memory.idOf[j];
               Holding(s'.memory, id, j) && Resendable(s'.memory, id, s.clock) ==>
                 Holding(s.memory, id, j) && Resendable(s.memory, id, s.clock)
    ensures Holds(s', j) ==> Holds(s, j)
    ensures DeliveryPaid(s, j) ==> DeliveryPaid(s', j)
  {
  }

  /** The client may only answer what is outstanding, under the identifier the packet carried. */
  predicate Answers(s: Session, id: u16, acked: Option<Copy>) {
    acked.Some? && acked.value in s.wire.outstanding && acked.value.id == id
  }

  lemma AnswerIsPaid(s: Session, acked: Option<Copy>)
    requires Paid(s, 0)
    ensures Paid(Answered(s, acked), 0)
  {
    var s' := Answered(s, acked);
    AnswerKeepsSafe(s, acked);
    forall j ensures DeliveryPaid(s', j) && (Holds(s', j) ==> Holds(s, j)) {
      assert DeliveryPaid(s, j);
      AnsweredHolds(s, s', j);
    }
    Move(s, s', 0);
  }

  /** An acknowledged publish gives up its slot when its entry leaves the waiting states. */
  lemma AdvanceFrees(s: Session, id: u16, acked: Option<Copy>, clean: bool)
    requires Paid(s, 0) && Answers(s, id, acked) && id in s.memory.table && IsWaiting(s.memory.table[id].state)
    ensures var m := AdvancedMemory(s.memory, id, s.clock);
            Paid(Answered(s, acked).(memory := if clean then CleanedMemory(m) else m), 1)
  {
    var s1 := Answered(s, acked);
    AnswerKeepsSafe(s, acked);
    AdvanceKeepsSafe(s1, id, s.clock);
    var m := AdvancedMemory(s.memory, id, s.clock);
    CleanupKeepsSafe(s1.(memory := m));
    var s' := s1.(memory := if clean then CleanedMemory(m) else m);
    forall j ensures DeliveryPaid(s', j) && (Holds(s', j) ==> Holds(s, j)) {
      assert DeliveryPaid(s, j);
      AnsweredHolds(s, s', j);
    }
    var k := acked.value.key;
    assert DeliveryPaid(s, k);
    Free(s, s', 0, k);
  }

  lemma PubackIsPaid(s: Session, id: u16, acked: Option<Copy>, f: Faults)
    requires Paid(s, 0) && Answers(s, id, acked) && f.writes == {}
    ensures Paid(PubackHandled(s, id, acked, f), 0)
  {
    var s1 := Answered(s, acked);
    if !InState(s1.memory, id, WaitPuback) || (!s.profile.clean && f.raft) {
      AnswerIsPaid(s, acked);
    } else {
      AdvanceFrees(s, id, acked, !(s.profile.clean || f.cleanup));
      var m := AdvancedMemory(s1.memory, id, s.clock);
      ReleaseIsPaid(s1.(memory := if s.profile.clean || f.cleanup then m else CleanedMemory(m)), f);
    }
  }

  lemma PubrecIsPaid(s: Session, id: u16, acked: Option<Copy>, f: Faults)
    requires Paid(s, 0) && Answers(s, id, acked) && f.writes == {} && !f.control
    ensures Paid(PubrecHandled(s, id, acked, f), 0)
  {
    var s1 := Answered(s, acked);
    if !InState(s1.memory, id, WaitPubrec) || (!s.profile.clean && f.raft) {
      AnswerIsPaid(s, acked);
    } else {
      AdvanceFrees(s, id, acked, false);
      ReleaseIsPaid(s1.(memory := AdvancedMemory(s1.memory, id, s.clock)), f);
    }
  }

  lemma FinalAckIsPaid(s: Session, id: u16, f: Faults)
    requires Paid(s, 0)
    ensures Paid(FinalAckHandled(s, id, f), 0)
  {
    var s' := FinalAckHandled(s, id, f);
    FinalAckKeepsSafe(s, id, f);
    forall j ensures DeliveryPaid(s', j) && (Holds(s', j) ==> Holds(s, j)) {
      assert DeliveryPaid(s, j);
      AnsweredHolds(s, s', j);
    }
    Move(s, s', 0);
  }

  lemma CleanupIsPaid(s: Session)
    requires Paid(s, 0)
    ensures Paid(s.(memory := CleanedMemory(s.memory)), 0)
  {
    var s' := s.(memory := CleanedMemory(s.memory));
    CleanupKeepsSafe(s);
    forall j ensures DeliveryPaid(s', j) && (Holds(s', j) ==> Holds(s, j)) {
      assert DeliveryPaid(s, j);
      AnsweredHolds(s, s', j);
    }
    Move(s, s', 0);
  }

  lemma InboundIsPaid(s: Session, id: u16, publish: Publish)
    requires Paid(s, 0)
    ensures Paid(PublishReceived(s, id, publish), 0)
  {
    var s' := PublishReceived(s, id, publish);
    InboundKeepsSafe(s, id, publish);
    assert KeyOk(s, s.nextKey);
    forall j ensures DeliveryPaid(s', j) && (Holds(s', j) ==> Holds(s, j)) {
      assert DeliveryPaid(s, j);
    }
    Move(s, s', 0);
  }

  lemma TickIsPaid(s: Session, to: u64)
    requires Paid(s, 0) && s.clock <= to
    ensures Paid(s.(clock := to), 0)
  {
    var s' := s.(clock := to);
    TickKeepsSafe(s, to);
    forall j ensures DeliveryPaid(s', j) && (Holds(s', j) ==> Holds(s, j)) {
      assert DeliveryPaid(s, j);
    }
    Move(s, s', 0);
  }

  lemma DeactivateIsPaid(s: Session)
    requires Paid(s, 0) && !s.profile.clean
    ensures Paid(s.(active := false), 0)
  {
    var s' := s.(active := false);
    DeactivateKeepsSafe(s);
    forall j ensures DeliveryPaid(s', j) && (Holds(s', j) ==> Holds(s, j)) {
      assert DeliveryPaid(s, j);
    }
    Move(s, s', 0);
  }

  // ---- retry and recovery ----

  /** No entry is due whose delivery is at its second put. */
  predicate DueAfterPut(s: Session, due: set<u16>) {
    forall id :: id in due && id in s.memory.table && s.memory.table[id].packetKey.Some? ==>
      !At(s, s.memory.table[id].packetKey.value, Refreshing)
  }

  /** What a retry pass writes already holds a slot, and goes out under the identifier of its registration. */
  lemma RetriedHolds(s: Session, due: set<u16>, f: Faults, m: Memory, id: u16)
    requires Paid(s, 0) && DueAfterPut(s, due) && m == ExpiryPass(s, f).0.memory && Matched(s, {}, id)
    requires id in Retried(m, s.flow.queue, due, s.clock)
    ensures var k := m.table[id].packetKey.value;
            && Retransmittable(s, k) && !Unsent(s, k) && s.memory.idOf[k] == id && Carried(m.store[k]) == id
  {
    var k := m.table[id].packetKey.value;
    assert EntryOk(s.memory, s.flow.queue, s.wire, s.clock, id);
    assert DeliveryPaid(s, k);
    assert k in s.deliveries ==> DeliveryOk(s.profile, s.memory, k, s.deliveries[k]);
    QueuedUnderItsId(s, k);
  }

  /** The expiry pass makes no entry resendable, and what it takes from the queue is not. */
  lemma UnqueuedByExpiry(s: Session, due: set<u16>, f: Faults, j: Key)
    requires Safe(s) && Retransmittable(RetrySent(s, due, f), j)
    ensures Retransmittable(s, j)
  {
    var (s1, removed) := ExpiryPass(s, f);
    var id := s.memory.idOf[j];
    assert id !in removed;
    forall d | d in s.flow.queue ensures d.registered != Some(j) {
      WithoutKeeps(s.flow.queue, removed, d);
      assert DeferredOk(s.profile, s.memory, d);
      assert d.registered == Some(j) ==> d in Without(s.flow.queue, removed);
    }
  }

  lemma RetryIsPaid(s: Session, due: set<u16>, f: Faults)
    requires Paid(s, 0) && DueAfterPut(s, due) && f.writes == {} && forall id :: Matched(s, {}, id)
    ensures Paid(RetryHandled(s, due, f), 0)
  {
    var s' := RetrySent(s, due, f);
    var m := ExpiryPass(s, f).0.memory;
    RetrySentIsSafe(s, due, f);
    forall c | c in CopiesAt(m, Retried(m, s.flow.queue, due, s.clock), f.writes)
      ensures Retransmittable(s, c.key) && !Unsent(s, c.key) && s.memory.idOf[c.key] == c.id
    {
      var id :| id in Retried(m, s.flow.queue, due, s.clock) && m.table[id].packetKey == Some(c.key)
                && c.id == Carried(m.store[c.key]);
      assert Matched(s, {}, id);
      RetriedHolds(s, due, f, m, id);
    }
    forall j ensures DeliveryPaid(s', j) && (Holds(s', j) ==> Holds(s, j)) {
      assert DeliveryPaid(s, j);
      if Retransmittable(s', j) {
        UnqueuedByExpiry(s, due, f, j);
      }
    }
    Move(s, s', 0);
    DrainIsPaid(s', f);
  }

  /** Recovery starts with every resendable entry in the queue, so nothing holds a slot. */
  lemma RecoveryIsPaid(s: Session, f: Faults)
    requires Kept(s) && s.profile.version.V5_0? && s.active && f.writes == {}
    ensures Paid(RecoveryHandled(s, f), 0)
  {
    var s' := RecoveryQueued(s, f);
    RecoveryQueuedIsSafe(s, f);
    var m := ExpiryPass(s, f).0.memory;
    forall k ensures !Holds(s', k) {
      if k in m.idOf && Resendable(m, m.idOf[k], s.clock) {
        RecoveredMisses(m, s.clock, U16_MAX + 1, m.idOf[k]);
      }
    }
    assert Holders(s') == {};
    DrainIsPaid(s', f);
  }

  // ---- every run ----

  /** The conditions of the bound: writes on the live connection and the second put of a delivery succeed, the client
      acknowledges only what is outstanding, and no entry becomes due for retry while its delivery is at its second
      put. The first put and the replicated state may fail. */
  predicate Fair(s: Session, a: Action) {
    match a
    case Outbound(_, f) => f.writes == {}
    case Complete(_, f) => f.writes == {}
    case Register(_, ok) => ok
    case Refresh(_, stored, ok) => stored && ok
    case Puback(id, acked, f) => f.writes == {} && Answers(s, id, acked)
    case Pubrec(id, acked, f) => f.writes == {} && !f.control && Answers(s, id, acked)
    case InflightRetry(due, f) => f.writes == {} && DueAfterPut(s, due)
    case _ => true
  }

  lemma StepIsPaid(s: Session, a: Action)
    requires Paid(s, 0) && Enabled(s, a) && Fair(s, a) && forall id :: Matched(s, {}, id)
    ensures Paid(Apply(s, a), 0)
  {
    match a
    case Tick(to) => TickIsPaid(s, to);
    case Outbound(publish, f) => AcceptIsPaid(s, publish, f);
    case Prepare(k) => PrepareIsPaid(s, k);
    case Put(k, ok) => PutIsPaid(s, k, ok);
    case Register(k, ok) => RegisterIsPaid(s, k);
    case Refresh(k, stored, ok) => RefreshIsPaid(s, k);
    case Complete(k, f) => CompleteIsPaid(s, k, f);
    case Puback(id, acked, f) => PubackIsPaid(s, id, acked, f);
    case Pubrec(id, acked, f) => PubrecIsPaid(s, id, acked, f);
    case FinalAck(id, f) => FinalAckIsPaid(s, id, f);
    case Inbound(id, publish) => InboundIsPaid(s, id, publish);
    case Cleanup => CleanupIsPaid(s);
    case InflightRetry(due, f) => RetryIsPaid(s, due, f);
    case Deactivate => DeactivateIsPaid(s);
  }

  /** Table and store agree but for the deliveries at their second put, as none of these has failed. */
  lemma FairRunMatches(kept: Session, f: Faults, run: seq<Session>, acts: seq<Action>, i: nat, id: u16)
    requires IsRun(kept, f, run, acts) && Kept(kept)
    requires i < |run| && forall j :: 0 <= j < i ==> Fair(run[j], acts[j])
    ensures Matched(run[i], {}, id)
  {
    RunKeepsMatched(kept, f, run, acts, i, id);
    forall k ensures k !in Lost(acts[..i]) {
      RefreshFailedIsLost(acts, i, k);
    }
    assert Lost(acts[..i]) == {};
  }

  lemma {:induction false} RunIsPaid(kept: Session, f: Faults, run: seq<Session>, acts: seq<Action>, i: nat)
    requires IsRun(kept, f, run, acts) && Kept(kept) && kept.profile.version.V5_0? && kept.active && f.writes == {}
    requires i < |run| && forall j :: 0 <= j < i ==> Fair(run[j], acts[j])
    ensures Paid(run[i], 0)
  {
    if i == 0 {
      RecoveryIsPaid(kept, f);
    } else {
      var s := run[i - 1];
      RunIsPaid(kept, f, run, acts, i - 1);
      forall id ensures Matched(s, {}, id) {
        FairRunMatches(kept, f, run, acts, i - 1, id);
      }
      StepIsPaid(s, acts[i - 1]);
    }
  }

  /** No publish is in two of the packets, so there are no more packets than publishes. */
  lemma {:induction false} OneCopyEach(copies: set<Copy>, keys: set<Key>)
    requires forall c :: c in copies ==> c.key in keys
    requires forall c, c' :: c in copies && c' in copies && c.key == c'.key ==> c == c'
    ensures |copies| <= |keys|
  {
    if copies != {} {
      var c :| c in copies;
      OneCopyEach(copies - {c}, keys - {c.key});
    }
  }

  /** In every reachable state of an MQTT 5 connection, the packets that await PUBACK or PUBREC are no more than the
      publishes that await it, that spawned deliveries are still to write or that a retry pass may write again; these
      are no more than the slots in use, and these no more than the client's Receive Maximum. */
  lemma ReceiveMaximumIsRespected(kept: Session, f: Faults, run: seq<Session>, acts: seq<Action>, i: nat)
    requires IsRun(kept, f, run, acts) && Kept(kept) && kept.profile.version.V5_0? && kept.active && f.writes == {}
    requires i < |run| && forall j :: 0 <= j < i ==> Fair(run[j], acts[j])
    ensures run[i].profile == kept.profile
    ensures |run[i].wire.outstanding| <= |Holders(run[i])| <= run[i].flow.slots <= Max(1, kept.profile.receiveMaximum)
  {
    RunIsPaid(kept, f, run, acts, i);
    RunKeepsProfile(kept, f, run, acts, i);
    var s := run[i];
    forall c | c in s.wire.outstanding ensures c.key in Holders(s) && c.id == s.memory.idOf[c.key] {
      HoldersAreDrawn(s, c.key);
    }
    OneCopyEach(s.wire.outstanding, Holders(s));
  }
}
