/** The session actor in the source's own form: an object whose fields the handlers update, with the loops that
    drain the queue, discard what expired, collect what to send again and recover. Each handler is proved to
    make of the actor's state what the session model says, so that the theorems about runs are about it. */
module SessionActor {
  import opened MqttTypes
  import opened Inflight
  import opened SessionDelivery
  import opened SessionSafety
  import MessageExpiry

  /** What a delivery does once it has an identifier to try first. */
  ghost function DeliverStored(s: Session, publish: Publish, first: Option<u16>, wait: bool, f: Faults)
      : (Session, Status)
  {
    var s1 := StoredAs(s, publish.(packetIdentifier := first));
    var id := ChosenId(s.memory, publish.(packetIdentifier := first));
    if f.raft || id.None? || (id != first && f.put2) then (s1, Error)
    else Entered(s1, s.nextKey, publish.(packetIdentifier := id), id.value, wait, f)
  }

  class Actor {
    const profile: Profile
    const inflight: InflightTable
    var active: bool
    var now: u64
    var nextKey: Key
    var store: map<Key, Publish>
    var slotsInUse: nat
    var deferred: seq<Deferred>
    var spawned: map<Key, Delivery>
    var pendingMessages: seq<Key>
    ghost var idOf: map<Key, u16>
    ghost var wire: Wire

    /** The actor starts with the kept entries, payloads and pending list, and nothing else. */
    constructor (profile: Profile, inflight: InflightTable, store: map<Key, Publish>, pendingMessages: seq<Key>,
                 now: u64, nextKey: Key, ghost idOf: map<Key, u16>)
      ensures this.inflight == inflight
      ensures View() == Session(profile, true, now, nextKey, Memory(inflight.inner, store, idOf), Flow(0, []), map[],
                                pendingMessages, Wire({}, {}))
    {
      this.profile, this.inflight, this.store, this.pendingMessages := profile, inflight, store, pendingMessages;
      this.now, this.nextKey, this.idOf := now, nextKey, idOf;
      active, slotsInUse, deferred, spawned := true, 0, [], map[];
      wire := Wire({}, {});
    }

    ghost function View(): Session
      reads this, inflight
    {
      Session(profile, active, now, nextKey, Memory(inflight.inner, store, idOf), Flow(slotsInUse, deferred), spawned,
              pendingMessages, wire)
    }

    predicate OutboundPublishUsesReceiveSlot(publish: Publish)
      reads this
    {
      profile.version == V5_0 && active && publish.qos > 0
    }

    predicate CanReserveReceiveSlot()
      reads this
    {
      slotsInUse < Max(1, profile.receiveMaximum)
    }

    // ---- registered publishes ----

    method DiscardUnsent(id: u16, key: Key, raftFails: bool) returns (ok: bool)
      modifies this, inflight
      ensures ok <==> profile.clean || !raftFails
      ensures View() == if ok then old(View()).(memory := DiscardedEntry(old(View()).memory, id, key)) else old(View())
    {
      if !profile.clean && raftFails {
        return false;
      }
      var removed := inflight.DiscardUnsent(id, key);
      if removed.Some? {
        store := store - {removed.value};
      }
      ok := true;
    }

    /** Whether the publish is to be written, or None if the replicated state failed. */
    method PrepareRegisteredPublish(publish: Publish, raftFails: bool) returns (deliver: Option<bool>)
      modifies this, inflight
      ensures forall k, f: Faults ::
                f.raft == raftFails ==>
                  DeliverRegistered(old(View()), publish, k, f) ==
                  match deliver
                  case None => (View(), Failed)
                  case Some(false) => (View(), Skipped)
                  case Some(true) =>
                    if k in f.writes then (View(), Failed)
                    else (View().(wire := Wrote(wire, k, Carried(publish))), Sent)
    {
      if publish.packetIdentifier.None? {
        return Some(false);
      }
      var id := publish.packetIdentifier.value;
      if id !in inflight.inner {
        return Some(false);
      }
      var item := inflight.inner[id];
      if item.packetKey.None? {
        return Some(false);
      }
      var key := item.packetKey.value;
      if MessageExpiry.Prepared(publish, profile.version, now).None? {
        if !item.deliveryStarted {
          var ok := DiscardUnsent(id, key, raftFails);
          if !ok {
            return None;
          }
        }
        return Some(false);
      }
      if !item.deliveryStarted {
        if !profile.clean && raftFails {
          return None;
        }
        var _ := inflight.MarkDeliveryStarted(id, key);
      }
      deliver := Some(true);
    }

    // ---- the queue ----

    /** Writes a registered publish, if it is still to be written. */
    method SendRegistered(publish: Publish, k: Key, f: Faults) returns (outcome: Outcome)
      modifies this, inflight
      ensures (View(), outcome) == DeliverRegistered(old(View()), publish, k, f)
    {
      var deliver := PrepareRegisteredPublish(publish, f.raft);
      if deliver.None? {
        return Failed;
      }
      if !deliver.value {
        return Skipped;
      }
      if k in f.writes {
        return Failed;
      }
      wire := Wrote(wire, k, Carried(publish));
      outcome := Sent;
    }

    /** One turn of the drain loop. */
    method DeliverFront(f: Faults) returns (more: bool)
      requires Drainable(View())
      modifies this, inflight
      ensures (View(), more) == DrainStep(old(View()), f)
    {
      var d := deferred[0];
      var reserved := OutboundPublishUsesReceiveSlot(d.publish);
      deferred := deferred[1..];
      if reserved {
        slotsInUse := slotsInUse + 1;
      }
      if d.registered.None? {
        spawned := spawned[nextKey := Delivery(d.publish, reserved, Starting)];
        nextKey := nextKey + 1;
        return true;
      }
      var outcome := SendRegistered(d.publish, d.registered.value, f);
      if outcome != Sent && reserved && slotsInUse > 0 {
        slotsInUse := slotsInUse - 1;
      }
      if outcome == Failed {
        deferred := [d] + deferred;
      }
      more := outcome != Failed;
    }

    method DrainDeferredOutboundPublishes(f: Faults)
      modifies this, inflight
      ensures View() == Drained(old(View()), f)
    {
      if !active {
        return;
      }
      var more := true;
      while more && deferred != [] && (OutboundPublishUsesReceiveSlot(deferred[0].publish) ==> CanReserveReceiveSlot())
        invariant active
        invariant Drained(old(View()), f) == if more then Drained(View(), f) else View()
        decreases more, |deferred|
      {
        TurnShrinksQueue(View(), f);
        more := DeliverFront(f);
      }
    }

    method ReleaseReceiveMaximumSlotAndDrain(f: Faults)
      modifies this, inflight
      ensures View() == ReleasedAndDrained(old(View()), f)
    {
      if slotsInUse > 0 {
        slotsInUse := slotsInUse - 1;
      }
      DrainDeferredOutboundPublishes(f);
    }

    // ---- deliveries of a persistent session ----

    method DeliverOutboundPublish(publish: Publish, wait: bool, f: Faults) returns (status: Status)
      requires !profile.clean && publish.qos <= 2
      modifies this, inflight
      ensures (View(), status) == DeliverPersistent(old(View()), publish, wait, f)
    {
      var prepared := MessageExpiry.Prepared(publish, profile.version, now);
      if prepared.None? {
        return NotSent;
      }
      if active {
        status := RegisterAndSend(prepared.value, wait, f);
      } else {
        status := StoreOffline(prepared.value, f);
      }
    }

    method StoreOffline(publish: Publish, f: Faults) returns (status: Status)
      modifies this
      ensures (View(), status) == DeliverInactive(old(View()), publish, f)
    {
      if publish.qos == 0 {
        return NotSent;
      }
      if f.put {
        return Error;
      }
      var key := nextKey;
      nextKey := nextKey + 1;
      store := store[key := publish];
      if f.raft {
        return Error;
      }
      pendingMessages := pendingMessages + [key];
      status := NotSent;
    }

    method RegisterAndSend(publish: Publish, wait: bool, f: Faults) returns (status: Status)
      requires publish.qos <= 2
      modifies this, inflight
      ensures (View(), status) == DeliverActive(old(View()), publish, wait, f)
    {
      if publish.qos == 0 {
        return if nextKey in f.writes then Error else SentNow;
      }
      var packetId := publish.packetIdentifier;
      if packetId.None? {
        packetId := inflight.AllocatePacketId();
      }
      if packetId.None? || f.put {
        return Error;
      }
      status := StoreAndRegister(publish, packetId, wait, f);
    }

    method StoreAndRegister(publish: Publish, first: Option<u16>, wait: bool, f: Faults) returns (status: Status)
      requires 1 <= publish.qos <= 2 && first.Some?
      modifies this, inflight
      ensures (View(), status) == DeliverStored(old(View()), publish, first, wait, f)
    {
      var key := nextKey;
      nextKey := nextKey + 1;
      store := store[key := publish.(packetIdentifier := first)];
      ghost var s1 := View();
      if f.raft {
        return Error;
      }
      var packetId := first;
      if first.value in inflight.inner {
        packetId := inflight.AllocatePacketId();
        if packetId.None? || f.put2 {
          return Error;
        }
        store := store[key := publish.(packetIdentifier := packetId)];
      }
      var sent := publish.(packetIdentifier := packetId);
      assert store[key := sent] == s1.memory.store[key := sent];
      status := Enter(key, sent, packetId.value, wait, f);
    }

    method Enter(key: Key, publish: Publish, id: u16, wait: bool, f: Faults) returns (status: Status)
      requires id !in inflight.inner && key in store && store[key] == publish && 1 <= publish.qos <= 2
      modifies this, inflight
      ensures (View(), status) == Entered(old(View()), key, publish, id, wait, f)
    {
      assert store == store[key := publish];
      var _, _ := inflight.RegisterWithTxPacket(id, publish.qos, key, now);
      idOf := idOf[key := id];
      if wait {
        inflight.inner := inflight.inner[id := inflight.inner[id].(deliveryStarted := false)];
        assert inflight.inner ==
               old(inflight.inner)[id := TxItem(id, publish.qos, key, now).(deliveryStarted := false)];
        return DeferredAs(publish, key);
      }
      if key in f.writes {
        return Error;
      }
      wire := Wrote(wire, key, id);
      status := SentNow;
    }

    method StartOutboundPublishDelivery(publish: Publish, f: Faults) returns (answer: Answer)
      requires publish.qos <= 2
      modifies this, inflight
      ensures (View(), answer) == Accepted(old(View()), publish, f)
    {
      var usesReceiveSlot := OutboundPublishUsesReceiveSlot(publish);
      var deferDelivery := usesReceiveSlot && !CanReserveReceiveSlot();
      if deferDelivery && profile.clean {
        deferred := deferred + [Deferred(publish, None)];
        return Ok;
      }
      var reserved := usesReceiveSlot && !deferDelivery;
      if reserved {
        slotsInUse := slotsInUse + 1;
      }
      if profile.clean {
        spawned := spawned[nextKey := Delivery(publish, reserved, Starting)];
        nextKey := nextKey + 1;
        return Later;
      }
      var status := DeliverOutboundPublish(publish, deferDelivery, f);
      match status {
        case SentNow => answer := Ok;
        case DeferredAs(sent, k) =>
          deferred := deferred + [Deferred(sent, Some(k))];
          answer := Ok;
        case NotSent =>
          if reserved {
            ReleaseReceiveMaximumSlotAndDrain(f);
          }
          answer := Ok;
        case Error =>
          if reserved {
            ReleaseReceiveMaximumSlotAndDrain(f);
          }
          answer := Err;
      }
    }

    // ---- a spawned delivery of a clean session: what it does from one await to the next ----

    method PrepareDelivery(k: Key)
      requires At(View(), k, Starting)
      modifies this
      ensures View() == DeliveryPrepared(old(View()), k, old(spawned)[k])
    {
      var d := spawned[k];
      var prepared := MessageExpiry.Prepared(d.publish, profile.version, now);
      if prepared.None? {
        spawned := spawned[k := d.(phase := Ended(false))];
        return;
      }
      var publish := prepared.value;
      if publish.qos == 0 {
        spawned := spawned[k := d.(phase := Ended(true))];
        return;
      }
      if publish.packetIdentifier.None? {
        var packetId := inflight.AllocatePacketId();
        if packetId.None? {
          spawned := spawned[k := d.(phase := Ended(false))];
          return;
        }
        publish := publish.(packetIdentifier := packetId);
      }
      spawned := spawned[k := d.(publish := publish, phase := Storing)];
    }

    method PutDelivery(k: Key, ok: bool)
      requires At(View(), k, Storing)
      modifies this
      ensures View() == DeliveryStored(old(View()), k, old(spawned)[k], ok)
    {
      var d := spawned[k];
      if !ok {
        spawned := spawned[k := d.(phase := Ended(false))];
        return;
      }
      store := store[k := d.publish];
      spawned := spawned[k := d.(phase := Registering)];
    }

    /** Registers under the identifier and writes, or, if it has been taken meanwhile, registers under the least free
        one and goes to the second put. */
    method RegisterDelivery(k: Key, ok: bool)
      requires At(View(), k, Registering)
      requires spawned[k].publish.packetIdentifier.Some? && 1 <= spawned[k].publish.qos <= 2
      modifies this, inflight
      ensures View() == DeliveryRegistered(old(View()), k, old(spawned)[k], ok)
    {
      var d := spawned[k];
      var id := d.publish.packetIdentifier;
      var free, _ := inflight.RegisterWithTxPacket(id.value, d.publish.qos, k, now);
      if !free {
        id := inflight.AllocatePacketId();
        if id.None? {
          spawned := spawned[k := d.(phase := Ended(false))];
          return;
        }
        var _, _ := inflight.RegisterWithTxPacket(id.value, d.publish.qos, k, now);
        idOf := idOf[k := id.value];
        spawned := spawned[k := d.(publish := d.publish.(packetIdentifier := id), phase := Refreshing)];
        return;
      }
      idOf := idOf[k := id.value];
      SendDelivery(k, id.value, ok);
    }

    /** The second put, and the write. */
    method RefreshDelivery(k: Key, stored: bool, ok: bool)
      requires At(View(), k, Refreshing) && spawned[k].publish.packetIdentifier.Some?
      modifies this
      ensures View() == DeliveryRefreshed(old(View()), k, old(spawned)[k], stored, ok)
    {
      var d := spawned[k];
      if !stored {
        spawned := spawned[k := d.(phase := Ended(false))];
        return;
      }
      store := store[k := d.publish];
      SendDelivery(k, d.publish.packetIdentifier.value, ok);
    }

    method SendDelivery(k: Key, id: u16, ok: bool)
      requires k in spawned
      modifies this
      ensures View() == HandedOver(old(View()), k, old(spawned)[k], id, ok)
    {
      if ok {
        wire := Wrote(wire, k, id);
      }
      spawned := spawned[k := spawned[k].(phase := Ended(ok))];
    }

    method CompleteDelivery(k: Key, f: Faults)
      requires k in spawned && spawned[k].phase.Ended?
      modifies this, inflight
      ensures View() == DeliveryCompleted(old(View()), k, old(spawned)[k], f)
    {
      var d := spawned[k];
      spawned := spawned - {k};
      if d.reserved && !d.phase.sent {
        ReleaseReceiveMaximumSlotAndDrain(f);
      }
    }

    // ---- acknowledgements ----

    /** Removes what is finished, and its payloads. */
    method CleanFinished()
      modifies this, inflight
      ensures View() == old(View()).(memory := CleanedMemory(old(View()).memory))
    {
      ghost var t := inflight.inner;
      var keys := inflight.CleanFinishedItems();
      ghost var bag: multiset<Key> := multiset(keys);
      forall k: Key ensures k in keys <==> k in KeysAt(t, FinishedIds(t)) {
        FinishedKeysAreAt(t, k, U16_MAX + 1);
        assert k in keys <==> k in bag;
        assert (exists id: u16 :: id < U16_MAX + 1 && id in FinishedIds(t) && t[id].packetKey == Some(k))
          <==> k in KeysAt(t, FinishedIds(t));
      }
      store := map k | k in store && k !in keys :: store[k];
      assert store == old(store) - KeysAt(t, FinishedIds(t));
    }

    method HandlePuback(id: u16, ghost acked: Option<Copy>, f: Faults)
      modifies this, inflight
      ensures View() == PubackHandled(old(View()), id, acked, f)
    {
      wire := if acked.None? then wire else wire.(outstanding := wire.outstanding - {acked.value});
      if id !in inflight.inner || inflight.inner[id].state != WaitPuback || (!profile.clean && f.raft) {
        return;
      }
      var _ := inflight.AdvanceState(id, now);
      if !profile.clean && !f.cleanup {
        CleanFinished();
      }
      ReleaseReceiveMaximumSlotAndDrain(f);
    }

    method HandlePubrec(id: u16, ghost acked: Option<Copy>, f: Faults)
      modifies this, inflight
      ensures View() == PubrecHandled(old(View()), id, acked, f)
    {
      wire := if acked.None? then wire else wire.(outstanding := wire.outstanding - {acked.value});
      if id !in inflight.inner || inflight.inner[id].state != WaitPubrec {
        return;
      }
      if !f.control {
        if !profile.clean && f.raft {
          return;
        }
        var _ := inflight.AdvanceState(id, now);
      }
      ReleaseReceiveMaximumSlotAndDrain(f);
    }

    /** The entry advances once PUBCOMP is written; what the replicated cleanup says is ignored. */
    method HandlePubrel(id: u16, f: Faults)
      modifies this, inflight
      ensures View() == FinalAckHandled(old(View()), id, f.(cleanup := false))
    {
      if f.control || (!profile.clean && f.raft) {
        return;
      }
      var _ := inflight.AdvanceState(id, now);
      if !profile.clean {
        CleanFinished();
      }
    }

    method HandlePubcomp(id: u16, f: Faults)
      modifies this, inflight
      ensures View() == FinalAckHandled(old(View()), id, f.(control := false))
    {
      if !profile.clean && f.raft {
        return;
      }
      var _ := inflight.AdvanceState(id, now);
      if !profile.clean && !f.cleanup {
        CleanFinished();
      }
    }

    // ---- expiry, retry, recovery ----

    /** Looks at one entry that was not started: whether it was expired and discarded. */
    method DiscardIfExpired(id: u16, raftFails: bool) returns (removed: bool)
      requires id in inflight.inner && !inflight.inner[id].deliveryStarted
      modifies this, inflight
      ensures removed <==> ExpiredUnsent(old(View()).memory, id, now) && (profile.clean || !raftFails)
      ensures View() ==
              if removed then
                old(View()).(memory := DiscardedEntry(old(View()).memory, id, old(inflight.inner)[id].packetKey.value))
              else old(View())
    {
      var item := inflight.inner[id];
      if item.packetKey.None? || item.packetKey.value !in store ||
         !MessageExpiry.IsExpired(store[item.packetKey.value], now) {
        return false;
      }
      removed := DiscardUnsent(id, item.packetKey.value, raftFails);
    }

    /** Discards the expired entries that were not started, in any order. */
    method CleanupExpiredUnsent(f: Faults) returns (removed: set<u16>)
      requires forall id :: EntryKept(View().memory, wire, id)
      modifies this, inflight
      ensures (View(), removed) == ExpiryPass(old(View()), f)
    {
      ghost var s := View();
      var entries := Unstarted(inflight.inner);
      ghost var done: set<u16> := {};
      SweepStarts(s, f);
      removed := {};
      while entries != {}
        invariant entries == Unstarted(s.memory.table) - done && done <= Unstarted(s.memory.table)
        invariant (View(), removed) == Swept(s, f, done)
        decreases |entries|
      {
        var id :| id in entries;
        SweepNext(s, f, done, id);
        var gone := DiscardIfExpired(id, id in f.discards);
        if gone {
          removed := removed + {id};
        }
        entries, done := entries - {id}, done + {id};
      }
      SweepEnds(s, f, done);
    }

    /** A retry pass: what has been quiet for longer than the retry interval is due. */
    method HandleInflightRetry(f: Faults)
      requires forall id :: EntryKept(View().memory, wire, id)
      modifies this, inflight
      ensures View() == RetryHandled(old(View()), Quiet(old(inflight.inner), inflight.expiredDuration, old(now)), f)
    {
      ghost var s, t := View(), inflight.inner;
      var removed := CleanupExpiredUnsent(f);
      ghost var m := View().memory;
      var kept := inflight.inner;
      var due := inflight.GetAllExpiredPacketKeysAndRefreshExpiredTime(now);
      var sent := CollectInflightRetryPackets(kept, store, deferred, due.Keys, now, f.writes);
      RetriedReadsTableAndStore(m, deferred, due.Keys, now);
      CopiesReadTableAndStore(m, Retried(m, deferred, due.Keys, now), f.writes);
      DueAfterCleanup(t, m, deferred, inflight.expiredDuration, due, now);
      wire := Wire(wire.outstanding + sent, wire.written + KeysOf(sent));
      Retain(removed);
      assert View() == RetrySent(s, Quiet(t, inflight.expiredDuration, now), f);
      DrainDeferredOutboundPublishes(f);
    }

    /** Drops the queued publishes with these identifiers. */
    method Retain(removed: set<u16>)
      modifies this
      ensures View() == old(View()).(flow := old(View()).flow.(queue := Without(old(deferred), removed)))
    {
      var queue, i := [], 0;
      while i < |deferred|
        invariant 0 <= i <= |deferred|
        invariant queue + Without(deferred[i..], removed) == Without(deferred, removed)
      {
        var d := deferred[i];
        assert deferred[i..][1..] == deferred[i + 1..];
        if !(d.publish.packetIdentifier.Some? && d.publish.packetIdentifier.value in removed) {
          queue := queue + [d];
        }
        i := i + 1;
      }
      deferred := queue;
    }

    /** Recovery at the start of the actor: every publish that may still be sent goes to the queue, by identifier. */
    method HandleAllInflightRetryImmediate(f: Faults)
      requires forall id :: EntryKept(View().memory, wire, id)
      modifies this, inflight
      ensures View() == RecoveryHandled(old(View()), f)
    {
      var _ := CleanupExpiredUnsent(f);
      ghost var s1 := View();
      var kept := inflight.inner;
      inflight.inner := Refreshed(kept, kept.Keys, now);
      var retry := [];
      var id := 0;
      while id <= U16_MAX
        invariant 0 <= id <= U16_MAX + 1
        invariant retry == Recovered(s1.memory, now, id)
      {
        if id in kept && IsWaiting(kept[id].state) && kept[id].packetKey.Some? {
          var key := kept[id].packetKey.value;
          if key in store && !MessageExpiry.IsExpired(store[key], now) {
            retry := retry + [Deferred(store[key].(dup := true), Some(key))];
          }
        }
        id := id + 1;
      }
      deferred := deferred + retry;
      DrainDeferredOutboundPublishes(f);
    }
  }

  lemma {:induction false} FinishedKeysAreAt(t: Table, k: Key, n: int)
    requires 0 <= n <= U16_MAX + 1
    ensures FinishedKeys(t, k, n) > 0 <==>
              exists id: u16 :: id < n && id in FinishedIds(t) && t[id].packetKey == Some(k)
  {
    if n > 0 {
      FinishedKeysAreAt(t, k, n - 1);
      var last: u16 := n - 1;
      if FinishedKeys(t, k, n) > 0 && FinishedKeys(t, k, n - 1) == 0 {
        assert last in FinishedIds(t) && t[last].packetKey == Some(k);
      }
    }
  }

  function Unstarted(t: Table): set<u16> {
    set id | id in t && !t[id].deliveryStarted
  }

  /** The expiry pass when it has looked at the entries in `done`. */
  ghost function Swept(s: Session, f: Faults, done: set<u16>): (Session, set<u16>) {
    (s.(memory := CleanedOf(s.memory, s.clock, Spared(s, f), done)),
     ExpiredUnsentIds(s.memory, s.clock, Spared(s, f)) * done)
  }

  lemma SweepStarts(s: Session, f: Faults)
    ensures Swept(s, f, {}) == (s, {})
  {
    var m, spared := s.memory, Spared(s, f);
    assert Removable(m, s.clock, spared) * {} == {} && KeysAt(m.table, {}) == {};
    assert CleanedOf(m, s.clock, spared, {}).table == m.table && CleanedOf(m, s.clock, spared, {}).store == m.store;
    assert ExpiredUnsentIds(m, s.clock, spared) * {} == {};
  }

  lemma SweepNext(s: Session, f: Faults, done: set<u16>, id: u16)
    requires forall other :: EntryKept(s.memory, s.wire, other)
    requires id in Unstarted(s.memory.table) && id !in done
    ensures var (s', removed) := Swept(s, f, done);
            && id in Unstarted(s'.memory.table)
            && Swept(s, f, done + {id}) ==
               if ExpiredUnsent(s'.memory, id, s.clock) && (s.profile.clean || id !in f.discards) then
                 (s'.(memory := DiscardedEntry(s'.memory, id, s'.memory.table[id].packetKey.value)), removed + {id})
               else (s', removed)
  {
    CleanNext(s.memory, s.wire, s.clock, Spared(s, f), done, id);
    var ids := ExpiredUnsentIds(s.memory, s.clock, Spared(s, f));
    assert id in ids ==> ids * (done + {id}) == ids * done + {id};
    assert id !in ids ==> ids * (done + {id}) == ids * done;
  }

  lemma SweepEnds(s: Session, f: Faults, done: set<u16>)
    requires done == Unstarted(s.memory.table)
    ensures Swept(s, f, done) == ExpiryPass(s, f)
  {
    var m, spared := s.memory, Spared(s, f);
    assert ExpiredUnsentIds(m, s.clock, spared) * done == ExpiredUnsentIds(m, s.clock, spared);
    assert Removable(m, s.clock, spared) * done == Removable(m, s.clock, spared);
  }

  /** The memory after the entries in `done` were looked at. */
  function CleanedOf(m: Memory, now: u64, spared: set<u16>, done: set<u16>): Memory {
    var gone := Removable(m, now, spared) * done;
    m.(table := m.table - gone, store := m.store - KeysAt(m.table, gone))
  }

  /** Looking at one more entry discards that entry and its payload, which no other entry shares. */
  lemma CleanNext(m: Memory, w: Wire, now: u64, spared: set<u16>, done: set<u16>, id: u16)
    requires forall other :: EntryKept(m, w, other)
    requires id in m.table && !m.table[id].deliveryStarted && id !in done
    ensures var m' := CleanedOf(m, now, spared, done);
            && id in m'.table && m'.table[id] == m.table[id]
            && (ExpiredUnsent(m', id, now) <==> ExpiredUnsent(m, id, now))
            && CleanedOf(m, now, spared, done + {id}) ==
               (if ExpiredUnsent(m, id, now) && id !in spared
                then DiscardedEntry(m', id, m.table[id].packetKey.value) else m')
  {
    var m' := CleanedOf(m, now, spared, done);
    var gone := Removable(m, now, spared) * done;
    assert EntryKept(m, w, id);
    var k := m.table[id].packetKey.value;
    forall other | other in gone ensures m.table[other].packetKey != Some(k) {
      assert EntryKept(m, w, other);
    }
    assert k !in KeysAt(m.table, gone);
    if id in Removable(m, now, spared) {
      assert Removable(m, now, spared) * (done + {id}) == gone + {id};
      KeysAtOneMore(m.table, gone, id);
      assert m.table - (gone + {id}) == m'.table - {id};
      assert m.store - (KeysAt(m.table, gone) + {k}) == m'.store - {k};
    } else {
      assert Removable(m, now, spared) * (done + {id}) == gone;
    }
  }

  /** The packets that are written again, one for each due entry that does not wait in the queue, has a payload, has not
      expired, waits for PUBACK or PUBREC, and whose write does not fail; each carries the identifier of its payload. */
  method CollectInflightRetryPackets(table: Table, store: map<Key, Publish>, queue: seq<Deferred>, due: set<u16>,
                                     now: u64, failing: set<Key>)
      returns (sent: set<Copy>)
    ensures var m := Memory(table, store, map[]);
            sent == CopiesAt(m, Retried(m, queue, due, now), failing)
  {
    ghost var m := Memory(table, store, map[]);
    var deferredIds := QueuedIds(queue);
    sent := {};
    var id := 0;
    while id <= U16_MAX
      invariant 0 <= id <= U16_MAX + 1
      invariant sent == CopiesAt(m, RetriedBelow(m, queue, due, now, id), failing)
    {
      RetryNext(m, queue, due, now, failing, id);
      if id in due && id in table && id !in deferredIds && IsWaiting(table[id].state) && table[id].packetKey.Some? {
        var key := table[id].packetKey.value;
        if key in store && !MessageExpiry.IsExpired(store[key], now) && key !in failing {
          sent := sent + {Copy(key, Carried(store[key]))};
        }
      }
      id := id + 1;
    }
    assert RetriedBelow(m, queue, due, now, id) == Retried(m, queue, due, now);
  }

  /** It makes no difference that the expiry pass comes before the look at what is due. */
  lemma DueAfterCleanup(t: Table, m: Memory, queue: seq<Deferred>, interval: nat, due: map<u16, Key>, now: u64)
    requires forall id :: id in m.table ==> id in t && t[id] == m.table[id]
    requires forall id :: id in due <==> IsDue(m.table, id, interval, now) && m.table[id].packetKey.Some?
    ensures Refreshed(m.table, Quiet(m.table, interval, now), now) == Refreshed(m.table, Quiet(t, interval, now), now)
    ensures Retried(m, queue, due.Keys, now) == Retried(m, queue, Quiet(t, interval, now), now)
  {
  }

  lemma RetriedReadsTableAndStore(m: Memory, queue: seq<Deferred>, due: set<u16>, now: u64)
    ensures Retried(m, queue, due, now) == Retried(m.(idOf := map[]), queue, due, now)
  {
    forall id ensures Resendable(m, id, now) <==> Resendable(m.(idOf := map[]), id, now) {
    }
  }

  lemma CopiesReadTableAndStore(m: Memory, ids: set<u16>, failing: set<Key>)
    ensures CopiesAt(m, ids, failing) == CopiesAt(m.(idOf := map[]), ids, failing)
  {
  }

  function RetriedBelow(m: Memory, queue: seq<Deferred>, due: set<u16>, now: u64, n: int): set<u16> {
    set id | id in Retried(m, queue, due, now) && id < n
  }

  lemma RetryNext(m: Memory, queue: seq<Deferred>, due: set<u16>, now: u64, failing: set<Key>, id: u16)
    ensures CopiesAt(m, RetriedBelow(m, queue, due, now, id + 1), failing) ==
            CopiesAt(m, RetriedBelow(m, queue, due, now, id), failing) +
            (if id in due && id !in QueuedIds(queue) && Resendable(m, id, now)
             then CopiesAt(m, {id}, failing) else {})
  {
    var ids := RetriedBelow(m, queue, due, now, id);
    if id in due && id !in QueuedIds(queue) && Resendable(m, id, now) {
      assert RetriedBelow(m, queue, due, now, id + 1) == ids + {id};
      CopiesAtOneMore(m, ids, id, failing);
    } else {
      assert RetriedBelow(m, queue, due, now, id + 1) == ids;
    }
  }

  lemma CopiesAtOneMore(m: Memory, ids: set<u16>, id: u16, failing: set<Key>)
    ensures CopiesAt(m, ids + {id}, failing) == CopiesAt(m, ids, failing) + CopiesAt(m, {id}, failing)
    ensures CopiesAt(m, {id}, failing) ==
            (if id in m.table && m.table[id].packetKey.Some? && m.table[id].packetKey.value in m.store
                && m.table[id].packetKey.value !in failing
             then {Copy(m.table[id].packetKey.value, Carried(m.store[m.table[id].packetKey.value]))} else {})
  {
  }

  lemma KeysAtOneMore(t: Table, ids: set<u16>, id: u16)
    requires id in t && t[id].packetKey.Some?
    ensures KeysAt(t, ids + {id}) == KeysAt(t, ids) + {t[id].packetKey.value}
  {
    forall k ensures k in KeysAt(t, ids + {id}) <==> k in KeysAt(t, ids) + {t[id].packetKey.value} {
      if k in KeysAt(t, ids + {id}) {
        var other :| other in ids + {id} && other in t && t[other].packetKey == Some(k);
      }
      assert id in ids + {id};
      if k in KeysAt(t, ids) {
        var other :| other in ids && other in t && t[other].packetKey == Some(k);
        assert other in ids + {id};
      }
    }
  }
}
