/** What was written to the connection is never removed as unsent: its identifier and its payload are freed
    only by an acknowledgement, by the cleanup of a finished entry, or by a received publish that takes the
    identifier. */
module SessionWritten {
  import opened MqttTypes
  import opened Inflight
  import opened SessionDelivery
  import opened SessionSafety
  import MessageExpiry

  /** The entry `id` holds the key `k` and has been started. */
  predicate Started(m: Memory, id: u16, k: Key) {
    Holding(m, id, k) && m.table[id].deliveryStarted
  }

  /** `m'` still has what `m` had of the entry `id` and its payload `k`. */
  predicate Spares(m: Memory, m': Memory, id: u16, k: Key) {
    && id in m.table && Started(m', id, k) && m'.table[id].state == m.table[id].state
    && (k in m.store ==> k in m'.store)
  }

  // ---- the drain loop ----

  lemma RegisteredSpares(s: Session, publish: Publish, j: Key, f: Faults, id: u16, k: Key)
    requires Started(s.memory, id, k) && EntryKept(s.memory, s.wire, id)
    requires publish.packetIdentifier.Some? ==> EntryKept(s.memory, s.wire, publish.packetIdentifier.value)
    ensures Spares(s.memory, DeliverRegistered(s, publish, j, f).0.memory, id, k)
  {
  }

  lemma DrainStepSpares(s: Session, f: Faults, id: u16, k: Key)
    requires Safe(s) && Drainable(s) && Started(s.memory, id, k)
    ensures Spares(s.memory, DrainStep(s, f).0.memory, id, k)
  {
    var d := s.flow.queue[0];
    if d.registered.Some? {
      RegisteredTurn(s, f);
      assert EntryOk(s.memory, s.flow.queue, s.wire, s.clock, id);
      if d.publish.packetIdentifier.Some? {
        assert EntryOk(s.memory, s.flow.queue, s.wire, s.clock, d.publish.packetIdentifier.value);
      }
      RegisteredSpares(s, d.publish, d.registered.value, f, id, k);
    }
  }

  lemma {:induction false} DrainSpares(s: Session, f: Faults, id: u16, k: Key)
    requires Safe(s) && Started(s.memory, id, k)
    ensures Spares(s.memory, Drained(s, f).memory, id, k)
    decreases |s.flow.queue|
  {
    if Drainable(s) {
      TurnShrinksQueue(s, f);
      var (s1, more) := DrainStep(s, f);
      DrainStepSpares(s, f, id, k);
      DrainStepKeepsSafe(s, f);
      if more {
        DrainSpares(s1, f, id, k);
      }
    }
  }

  lemma ReleaseSpares(s: Session, f: Faults, id: u16, k: Key)
    requires Safe(s) && Started(s.memory, id, k)
    ensures Spares(s.memory, ReleasedAndDrained(s, f).memory, id, k)
  {
    forall j ensures KeyOk(Released(s), j) {
      assert KeyOk(s, j);
    }
    DrainSpares(Released(s), f, id, k);
  }

  // ---- the messages ----

  lemma EnteredSpares(s: Session, j: Key, sent: Publish, other: u16, wait: bool, f: Faults, id: u16, k: Key)
    requires Started(s.memory, id, k) && other != id
    ensures Spares(s.memory, Entered(s, j, sent, other, wait, f).0.memory, id, k)
  {
  }

  lemma ActiveSpares(s: Session, publish: Publish, wait: bool, f: Faults, id: u16, k: Key)
    requires Started(s.memory, id, k)
    ensures Spares(s.memory, DeliverActive(s, publish, wait, f).0.memory, id, k)
  {
    var first := if publish.packetIdentifier.Some? then publish.packetIdentifier else LeastFree(s.memory.table, 1);
    if publish.qos > 0 && first.Some? {
      var s1 := StoredAs(s, publish.(packetIdentifier := first));
      var chosen := ChosenId(s.memory, publish.(packetIdentifier := first));
      if chosen.Some? {
        EnteredSpares(s1, s.nextKey, publish.(packetIdentifier := chosen), chosen.value, wait, f, id, k);
      }
    }
  }

  lemma AcceptSpares(s: Session, publish: Publish, f: Faults, id: u16, k: Key)
    requires Safe(s) && Started(s.memory, id, k)
    ensures Spares(s.memory, Accepted(s, publish, f).0.memory, id, k)
  {
    if !s.profile.clean {
      var uses := UsesSlot(s, publish);
      var wait := uses && !CanReserve(s);
      ReserveKeepsSafe(s);
      var s0 := if uses && !wait then Reserved(s) else s;
      PersistentSpares(s0, publish, wait, f, id, k);
      PersistentKeepsSafe(s0, publish, wait, f);
      var (s1, status) := DeliverPersistent(s0, publish, wait, f);
      if !status.DeferredAs? {
        ReleaseSpares(s1, f, id, k);
      }
    }
  }

  lemma PersistentSpares(s: Session, publish: Publish, wait: bool, f: Faults, id: u16, k: Key)
    requires Started(s.memory, id, k)
    ensures Spares(s.memory, DeliverPersistent(s, publish, wait, f).0.memory, id, k)
  {
    var prepared := MessageExpiry.Prepared(publish, s.profile.version, s.clock);
    if prepared.Some? && s.active {
      ActiveSpares(s, prepared.value, wait, f, id, k);
    }
  }

  lemma CompleteSpares(s: Session, j: Key, f: Faults, id: u16, k: Key)
    requires Safe(s) && Started(s.memory, id, k) && j in s.deliveries
    ensures Spares(s.memory, DeliveryCompleted(s, j, s.deliveries[j], f).memory, id, k)
  {
    var s1 := s.(deliveries := s.deliveries - {j});
    forall i ensures KeyOk(s1, i) {
      assert KeyOk(s, i);
    }
    ReleaseSpares(s1, f, id, k);
  }

  /** Cleanup spares what is not finished. */
  lemma CleanSpares(s: Session, id: u16, k: Key)
    requires Safe(s) && Started(s.memory, id, k) && !s.memory.table[id].state.Finish?
    ensures Spares(s.memory, CleanedMemory(s.memory), id, k)
  {
    CleanupSpares(s, id, k);
  }

  /** The expiry pass spares what was started. */
  lemma ExpiryPassSpares(s: Session, f: Faults, id: u16, k: Key)
    requires Safe(s) && Started(s.memory, id, k)
    ensures Spares(s.memory, ExpiryPass(s, f).0.memory, id, k)
  {
    forall other ensures EntryKept(s.memory, s.wire, other) {
      assert EntryOk(s.memory, s.flow.queue, s.wire, s.clock, other);
    }
    if k in s.memory.store {
      ExpirySpares(s.memory, s.wire, s.clock, Spared(s, f), id, k);
    }
  }

  lemma RetrySpares(s: Session, due: set<u16>, f: Faults, id: u16, k: Key)
    requires Safe(s) && Started(s.memory, id, k)
    ensures Spares(s.memory, RetryHandled(s, due, f).memory, id, k)
  {
    ExpiryPassSpares(s, f, id, k);
    RetrySentIsSafe(s, due, f);
    DrainSpares(RetrySent(s, due, f), f, id, k);
  }

  // ---- every run ----

  /** The messages that may free the entry `id`. */
  predicate MayFree(s: Session, a: Action, id: u16) {
    match a
    case Inbound(other, _) => other == id
    case Puback(other, _, _) =>
      var t := Advanced(s.memory.table, other, s.clock);
      id in t && t[id].state.Finish?
    case FinalAck(other, _) =>
      var t := Advanced(s.memory.table, other, s.clock);
      id in t && t[id].state.Finish?
    case Cleanup => id in s.memory.table && s.memory.table[id].state.Finish?
    case _ => false
  }

  lemma PubackSpares(s: Session, other: u16, acked: Option<Copy>, f: Faults, id: u16, k: Key)
    requires Safe(s) && Started(s.memory, id, k) && !Advanced(s.memory.table, other, s.clock)[id].state.Finish?
    ensures var m' := PubackHandled(s, other, acked, f).memory;
            Started(m', id, k) && (k in s.memory.store ==> k in m'.store)
  {
    var s1 := Answered(s, acked);
    AnswerKeepsSafe(s, acked);
    AdvanceKeepsSafe(s1, other, s.clock);
    var s2 := s1.(memory := AdvancedMemory(s1.memory, other, s.clock));
    CleanSpares(s2, id, k);
    CleanupKeepsSafe(s2);
    ReleaseSpares(s2, f, id, k);
    ReleaseSpares(s2.(memory := CleanedMemory(s2.memory)), f, id, k);
  }

  lemma PubrecSpares(s: Session, other: u16, acked: Option<Copy>, f: Faults, id: u16, k: Key)
    requires Safe(s) && Started(s.memory, id, k)
    ensures var m' := PubrecHandled(s, other, acked, f).memory;
            Started(m', id, k) && (k in s.memory.store ==> k in m'.store)
  {
    var s1 := Answered(s, acked);
    AnswerKeepsSafe(s, acked);
    ReleaseSpares(s1, f, id, k);
    AdvanceKeepsSafe(s1, other, s.clock);
    ReleaseSpares(s1.(memory := AdvancedMemory(s1.memory, other, s.clock)), f, id, k);
  }

  lemma FinalAckSpares(s: Session, other: u16, f: Faults, id: u16, k: Key)
    requires Safe(s) && Started(s.memory, id, k) && !Advanced(s.memory.table, other, s.clock)[id].state.Finish?
    ensures var m' := FinalAckHandled(s, other, f).memory;
            Started(m', id, k) && (k in s.memory.store ==> k in m'.store)
  {
    AdvanceKeepsSafe(s, other, s.clock);
    CleanSpares(s.(memory := AdvancedMemory(s.memory, other, s.clock)), id, k);
  }

  lemma StepSpares(s: Session, a: Action, id: u16, k: Key)
    requires Safe(s) && Enabled(s, a) && Started(s.memory, id, k) && !MayFree(s, a, id)
    ensures Started(Apply(s, a).memory, id, k) && (k in s.memory.store ==> k in Apply(s, a).memory.store)
  {
    match a
    case Outbound(publish, f) => AcceptSpares(s, publish, f, id, k);
    case Register(j, _) =>
    case Complete(j, f) => CompleteSpares(s, j, f, id, k);
    case InflightRetry(due, f) => RetrySpares(s, due, f, id, k);
    case Puback(other, acked, f) => PubackSpares(s, other, acked, f, id, k);
    case Pubrec(other, acked, f) => PubrecSpares(s, other, acked, f, id, k);
    case FinalAck(other, f) => FinalAckSpares(s, other, f, id, k);
    case Cleanup => CleanSpares(s, id, k);
    case _ =>
  }

  /** In every run, whatever fails, a publish that was written counts as started: `discard_unsent` and the
      expiry pass, at whatever time, leave its entry and its payload alone, and so does every message but
      the ones that finish the entry or take its identifier. */
  lemma WrittenIsNeverUnsent(kept: Session, f: Faults, run: seq<Session>, acts: seq<Action>, i: nat, id: u16, k: Key)
    requires IsRun(kept, f, run, acts) && Kept(kept) && i < |run|
    requires k in run[i].wire.written && Holding(run[i].memory, id, k)
    ensures !Discardable(run[i].memory.table, id, k)
    ensures forall now, spared :: id !in Removable(run[i].memory, now, spared)
    ensures forall now, spared :: k in run[i].memory.store ==> k in ExpiredCleaned(run[i].memory, now, spared).store
    ensures i < |acts| && !MayFree(run[i], acts[i], id) ==>
              && Holding(run[i + 1].memory, id, k)
              && (k in run[i].memory.store ==> k in run[i + 1].memory.store)
  {
    var s := run[i];
    RunKeepsSafe(kept, f, run, acts, i);
    forall other ensures EntryKept(s.memory, s.wire, other) {
      assert EntryOk(s.memory, s.flow.queue, s.wire, s.clock, other);
    }
    assert EntryKept(s.memory, s.wire, id);
    forall now, spared ensures k in s.memory.store ==> k in ExpiredCleaned(s.memory, now, spared).store {
      if k in s.memory.store {
        ExpirySpares(s.memory, s.wire, now, spared, id, k);
      }
    }
    if i < |acts| && !MayFree(s, acts[i], id) {
      StepSpares(s, acts[i], id, k);
    }
  }
}
