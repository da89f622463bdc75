/** The table and the payload store agree: the stored publish of an unfinished entry carries the identifier
    the entry is registered under, also after a collision forced another one. */
module SessionAgreement {
  import opened MqttTypes
  import opened Inflight
  import opened SessionDelivery
  import opened SessionSafety
  import MessageExpiry

  /** The stored publish carries the entry's identifier, except exactly while a delivery that had to take another
      identifier is about to store it again, and for the keys `lost`, for which that second put failed. */
  predicate Matched(s: Session, lost: set<Key>, id: u16) {
    && id in s.memory.table && !s.memory.table[id].state.Finish? && s.memory.table[id].packetKey.Some?
    && s.memory.table[id].packetKey.value in s.memory.store
    ==>
      var k := s.memory.table[id].packetKey.value;
      s.memory.store[k].packetIdentifier == Some(id) <==> !At(s, k, Refreshing) && k !in lost
  }

  /** A key whose second put failed is registered and will not be stored again. */
  predicate Settled(s: Session, k: Key) {
    k in s.memory.idOf && !At(s, k, Refreshing)
  }

  /** From `s` to `s'` the entry `id` may only finish or go away, and its payload may only go away. */
  predicate Calm(s: Session, s': Session, id: u16) {
    id in s'.memory.table ==>
      && id in s.memory.table && s'.memory.table[id].packetKey == s.memory.table[id].packetKey
      && (s.memory.table[id].state.Finish? ==> s'.memory.table[id].state.Finish?)
      && (s.memory.table[id].packetKey.Some? ==>
            var k := s.memory.table[id].packetKey.value;
            && (k in s'.memory.store ==> k in s.memory.store && s'.memory.store[k] == s.memory.store[k])
            && (At(s', k, Refreshing) <==> At(s, k, Refreshing)))
  }

  lemma CalmKeepsMatched(s: Session, s': Session, lost: set<Key>, id: u16)
    requires Matched(s, lost, id) && Calm(s, s', id)
    ensures Matched(s', lost, id)
  {
  }

  lemma CalmComposes(s: Session, s': Session, s'': Session, id: u16)
    requires Calm(s, s', id) && Calm(s', s'', id)
    ensures Calm(s, s'', id)
  {
  }

  // ---- the drain loop ----

  lemma SpawnIsCalm(s: Session, publish: Publish, id: u16)
    requires Safe(s)
    ensures Calm(s, Spawned(s, publish), id)
  {
    assert KeyOk(s, s.nextKey);
  }

  lemma RegisteredIsCalm(s: Session, publish: Publish, k: Key, f: Faults, id: u16)
    ensures Calm(s, DeliverRegistered(s, publish, k, f).0, id)
  {
  }

  lemma DrainStepIsCalm(s: Session, f: Faults, id: u16)
    requires Safe(s) && Drainable(s)
    ensures Calm(s, DrainStep(s, f).0, id)
  {
    var d := s.flow.queue[0];
    if d.registered.Some? {
      RegisteredTurn(s, f);
      RegisteredIsCalm(s, d.publish, d.registered.value, f, id);
      var r := DeliverRegistered(s, d.publish, d.registered.value, f).0;
      assert r.deliveries == s.deliveries by { RegisteredFrame(s, d.publish, d.registered.value, f); }
    } else {
      assert KeyOk(s, s.nextKey);
    }
  }

  lemma {:induction false} DrainIsCalm(s: Session, f: Faults, id: u16)
    requires Safe(s)
    ensures Calm(s, Drained(s, f), id)
    decreases |s.flow.queue|
  {
    if Drainable(s) {
      TurnShrinksQueue(s, f);
      var (s1, more) := DrainStep(s, f);
      DrainStepIsCalm(s, f, id);
      DrainStepKeepsSafe(s, f);
      if more {
        DrainIsCalm(s1, f, id);
        CalmComposes(s, s1, Drained(s1, f), id);
      }
    }
  }

  lemma ReleaseIsCalm(s: Session, f: Faults, id: u16)
    requires Safe(s)
    ensures Calm(s, ReleasedAndDrained(s, f), id)
  {
    forall j ensures KeyOk(Released(s), j) {
      assert KeyOk(s, j);
    }
    DrainIsCalm(Released(s), f, id);
    CalmComposes(s, Released(s), ReleasedAndDrained(s, f), id);
  }

  // ---- deliveries ----

  /** Only the entry of a delivery that is under way has a key in one of these phases. */
  lemma UnregisteredHasNoEntry(s: Session, k: Key, id: u16)
    requires Safe(s) && k !in s.memory.idOf
    ensures !Holding(s.memory, id, k)
  {
    assert EntryOk(s.memory, s.flow.queue, s.wire, s.clock, id);
  }

  lemma PrepareKeepsMatched(s: Session, k: Key, lost: set<Key>, id: u16)
    requires Safe(s) && At(s, k, Starting) && Matched(s, lost, id)
    ensures Matched(DeliveryPrepared(s, k, s.deliveries[k]), lost, id)
  {
    assert DeliveryOk(s.profile, s.memory, k, s.deliveries[k]);
    UnregisteredHasNoEntry(s, k, id);
  }

  lemma PutKeepsMatched(s: Session, k: Key, ok: bool, lost: set<Key>, id: u16)
    requires Safe(s) && At(s, k, Storing) && Matched(s, lost, id)
    ensures Matched(DeliveryStored(s, k, s.deliveries[k], ok), lost, id)
  {
    assert DeliveryOk(s.profile, s.memory, k, s.deliveries[k]);
    UnregisteredHasNoEntry(s, k, id);
  }

  lemma RegisterKeepsMatched(s: Session, k: Key, ok: bool, lost: set<Key>, id: u16)
    requires Safe(s) && At(s, k, Registering) && s.deliveries[k].publish.packetIdentifier.Some? && Matched(s, lost, id)
    requires forall j :: j in lost ==> Settled(s, j)
    ensures Matched(DeliveryRegistered(s, k, s.deliveries[k], ok), lost, id)
  {
    assert DeliveryOk(s.profile, s.memory, k, s.deliveries[k]);
    UnregisteredHasNoEntry(s, k, id);
  }

  lemma RefreshKeepsMatched(s: Session, k: Key, ok: bool, lost: set<Key>, id: u16)
    requires Safe(s) && At(s, k, Refreshing) && s.deliveries[k].publish.packetIdentifier.Some? && Matched(s, lost, id)
    requires forall j :: j in lost ==> Settled(s, j)
    ensures Matched(DeliveryRefreshed(s, k, s.deliveries[k], true, ok), lost, id)
  {
    assert DeliveryOk(s.profile, s.memory, k, s.deliveries[k]);
    assert EntryOk(s.memory, s.flow.queue, s.wire, s.clock, id);
  }

  lemma CompleteKeepsMatched(s: Session, k: Key, f: Faults, lost: set<Key>, id: u16)
    requires Safe(s) && k in s.deliveries && s.deliveries[k].phase.Ended? && Matched(s, lost, id)
    ensures Matched(DeliveryCompleted(s, k, s.deliveries[k], f), lost, id)
  {
    var s1 := s.(deliveries := s.deliveries - {k});
    forall j ensures KeyOk(s1, j) {
      assert KeyOk(s, j);
    }
    ReleaseIsCalm(s1, f, id);
    CalmKeepsMatched(s1, ReleasedAndDrained(s1, f), lost, id);
  }

  lemma StoreIsCalm(s: Session, publish: Publish, id: u16)
    requires Safe(s)
    ensures Calm(s, StoredAs(s, publish), id)
  {
    assert KeyOk(s, s.nextKey);
    UnregisteredHasNoEntry(s, s.nextKey, id);
  }

  lemma EnteredKeepsMatched(s: Session, k: Key, sent: Publish, at: u16, wait: bool, f: Faults, lost: set<Key>, id: u16)
    requires Safe(s) && Matched(s, lost, id)
    requires k !in s.memory.idOf && k !in s.deliveries && sent.packetIdentifier == Some(at)
    requires forall j :: j in lost ==> Settled(s, j)
    ensures Matched(Entered(s, k, sent, at, wait, f).0, lost, id)
  {
    UnregisteredHasNoEntry(s, k, id);
  }

  lemma ActiveKeepsMatched(s: Session, publish: Publish, wait: bool, f: Faults, lost: set<Key>, id: u16)
    requires Safe(s) && Matched(s, lost, id)
    requires forall j :: j in lost ==> Settled(s, j)
    ensures Matched(DeliverActive(s, publish, wait, f).0, lost, id)
  {
    var first := if publish.packetIdentifier.Some? then publish.packetIdentifier else LeastFree(s.memory.table, 1);
    if publish.qos > 0 && first.Some? {
      var stored := publish.(packetIdentifier := first);
      StoreIsCalm(s, stored, id);
      StoreKeepsSafe(s, stored);
      CalmKeepsMatched(s, StoredAs(s, stored), lost, id);
      var chosen := ChosenId(s.memory, stored);
      if chosen.Some? {
        assert KeyOk(s, s.nextKey);
        var sent := publish.(packetIdentifier := chosen);
        EnteredKeepsMatched(StoredAs(s, stored), s.nextKey, sent, chosen.value, wait, f, lost, id);
      }
    }
  }

  lemma PersistentKeepsMatched(s: Session, publish: Publish, wait: bool, f: Faults, lost: set<Key>, id: u16)
    requires Safe(s) && Matched(s, lost, id)
    requires forall j :: j in lost ==> Settled(s, j)
    ensures Matched(DeliverPersistent(s, publish, wait, f).0, lost, id)
  {
    var prepared := MessageExpiry.Prepared(publish, s.profile.version, s.clock);
    if prepared.Some? {
      if s.active {
        ActiveKeepsMatched(s, prepared.value, wait, f, lost, id);
      } else {
        StoreIsCalm(s, prepared.value, id);
        CalmKeepsMatched(s, StoredAs(s, prepared.value), lost, id);
      }
    }
  }

  lemma AcceptKeepsMatched(s: Session, publish: Publish, f: Faults, lost: set<Key>, id: u16)
    requires Safe(s) && Matched(s, lost, id)
    requires forall j :: j in lost ==> Settled(s, j)
    ensures Matched(Accepted(s, publish, f).0, lost, id)
  {
    var uses := UsesSlot(s, publish);
    var wait := uses && !CanReserve(s);
    if s.profile.clean {
      SpawnIsCalm(s, publish, id);
    } else {
      ReserveKeepsSafe(s);
      var s0 := if uses && !wait then Reserved(s) else s;
      PersistentKeepsSafe(s0, publish, wait, f);
      PersistentKeepsMatched(s0, publish, wait, f, lost, id);
      var (s1, status) := DeliverPersistent(s0, publish, wait, f);
      if !status.DeferredAs? {
        ReleaseIsCalm(s1, f, id);
      }
    }
  }

  // ---- acknowledgements, received publishes, retry, recovery ----

  lemma PubackIsCalm(s: Session, at: u16, acked: Option<Copy>, f: Faults, id: u16)
    requires Safe(s)
    ensures Calm(s, PubackHandled(s, at, acked, f), id)
  {
    var s1 := Answered(s, acked);
    AnswerKeepsSafe(s, acked);
    AdvanceKeepsSafe(s1, at, s.clock);
    var s2 := s1.(memory := AdvancedMemory(s1.memory, at, s.clock));
    CleanupKeepsSafe(s2);
    var s3 := s1.(memory := CleanedMemory(s2.memory));
    ReleaseIsCalm(s2, f, id);
    ReleaseIsCalm(s3, f, id);
    CalmComposes(s, s2, ReleasedAndDrained(s2, f), id);
    CalmComposes(s, s3, ReleasedAndDrained(s3, f), id);
  }

  lemma PubrecIsCalm(s: Session, at: u16, acked: Option<Copy>, f: Faults, id: u16)
    requires Safe(s)
    ensures Calm(s, PubrecHandled(s, at, acked, f), id)
  {
    var s1 := Answered(s, acked);
    AnswerKeepsSafe(s, acked);
    ReleaseIsCalm(s1, f, id);
    AdvanceKeepsSafe(s1, at, s.clock);
    var s2 := s1.(memory := AdvancedMemory(s1.memory, at, s.clock));
    ReleaseIsCalm(s2, f, id);
    CalmComposes(s, s1, ReleasedAndDrained(s1, f), id);
    CalmComposes(s, s2, ReleasedAndDrained(s2, f), id);
  }

  lemma InboundKeepsMatched(s: Session, at: u16, publish: Publish, lost: set<Key>, id: u16)
    requires Safe(s) && Matched(s, lost, id)
    requires forall j :: j in lost ==> Settled(s, j)
    ensures Matched(PublishReceived(s, at, publish), lost, id)
  {
    assert KeyOk(s, s.nextKey);
    UnregisteredHasNoEntry(s, s.nextKey, id);
  }

  lemma RetryIsCalm(s: Session, due: set<u16>, f: Faults, id: u16)
    requires Safe(s)
    ensures Calm(s, RetryHandled(s, due, f), id)
  {
    RetrySentIsSafe(s, due, f);
    DrainIsCalm(RetrySent(s, due, f), f, id);
    CalmComposes(s, RetrySent(s, due, f), RetryHandled(s, due, f), id);
  }

  lemma RecoveryKeepsMatched(s: Session, f: Faults, id: u16)
    requires Kept(s)
    ensures Matched(RecoveryHandled(s, f), {}, id)
  {
    RecoveryQueuedIsSafe(s, f);
    assert Agreed(s.memory, id) && Matched(s, {}, id);
    CalmKeepsMatched(s, RecoveryQueued(s, f), {}, id);
    DrainIsCalm(RecoveryQueued(s, f), f, id);
    CalmKeepsMatched(RecoveryQueued(s, f), RecoveryHandled(s, f), {}, id);
  }

  // ---- keys whose second put failed ----

  lemma {:induction false} DrainSettles(s: Session, f: Faults, k: Key)
    requires Safe(s) && Settled(s, k)
    ensures Settled(Drained(s, f), k)
    decreases |s.flow.queue|
  {
    if Drainable(s) {
      TurnShrinksQueue(s, f);
      var (s1, more) := DrainStep(s, f);
      DrainStepKeepsSafe(s, f);
      assert KeyOk(s, s.nextKey);
      if s.flow.queue[0].registered.Some? {
        RegisteredTurn(s, f);
      }
      if more {
        DrainSettles(s1, f, k);
      }
    }
  }

  lemma ReleaseSettles(s: Session, f: Faults, k: Key)
    requires Safe(s) && Settled(s, k)
    ensures Settled(ReleasedAndDrained(s, f), k)
  {
    forall j ensures KeyOk(Released(s), j) {
      assert KeyOk(s, j);
    }
    DrainSettles(Released(s), f, k);
  }

  lemma PersistentSettles(s: Session, publish: Publish, wait: bool, f: Faults, k: Key)
    requires Settled(s, k)
    ensures Settled(DeliverPersistent(s, publish, wait, f).0, k)
  {
  }

  lemma AcceptSettles(s: Session, publish: Publish, f: Faults, k: Key)
    requires Safe(s) && Settled(s, k)
    ensures Settled(Accepted(s, publish, f).0, k)
  {
    assert KeyOk(s, s.nextKey);
    if !s.profile.clean {
      var uses := UsesSlot(s, publish);
      var wait := uses && !CanReserve(s);
      ReserveKeepsSafe(s);
      var s0 := if uses && !wait then Reserved(s) else s;
      PersistentKeepsSafe(s0, publish, wait, f);
      PersistentSettles(s0, publish, wait, f, k);
      var (s1, status) := DeliverPersistent(s0, publish, wait, f);
      if !status.DeferredAs? {
        ReleaseSettles(s1, f, k);
      }
    }
  }

  lemma CompleteSettles(s: Session, j: Key, f: Faults, k: Key)
    requires Safe(s) && Settled(s, k) && j in s.deliveries
    ensures Settled(DeliveryCompleted(s, j, s.deliveries[j], f), k)
  {
    var s1 := s.(deliveries := s.deliveries - {j});
    forall i ensures KeyOk(s1, i) {
      assert KeyOk(s, i);
    }
    ReleaseSettles(s1, f, k);
  }

  lemma PubackSettles(s: Session, id: u16, acked: Option<Copy>, f: Faults, k: Key)
    requires Safe(s) && Settled(s, k)
    ensures Settled(PubackHandled(s, id, acked, f), k)
  {
    var s1 := Answered(s, acked);
    AnswerKeepsSafe(s, acked);
    AdvanceKeepsSafe(s1, id, s.clock);
    var s2 := s1.(memory := AdvancedMemory(s1.memory, id, s.clock));
    CleanupKeepsSafe(s2);
    ReleaseSettles(s2, f, k);
    ReleaseSettles(s1.(memory := CleanedMemory(s2.memory)), f, k);
  }

  lemma PubrecSettles(s: Session, id: u16, acked: Option<Copy>, f: Faults, k: Key)
    requires Safe(s) && Settled(s, k)
    ensures Settled(PubrecHandled(s, id, acked, f), k)
  {
    var s1 := Answered(s, acked);
    AnswerKeepsSafe(s, acked);
    ReleaseSettles(s1, f, k);
    AdvanceKeepsSafe(s1, id, s.clock);
    ReleaseSettles(s1.(memory := AdvancedMemory(s1.memory, id, s.clock)), f, k);
  }

  lemma RetrySettles(s: Session, due: set<u16>, f: Faults, k: Key)
    requires Safe(s) && Settled(s, k)
    ensures Settled(RetryHandled(s, due, f), k)
  {
    RetrySentIsSafe(s, due, f);
    DrainSettles(RetrySent(s, due, f), f, k);
  }

  lemma StepSettles(s: Session, a: Action, k: Key)
    requires Safe(s) && Enabled(s, a) && Settled(s, k)
    ensures Settled(Apply(s, a), k)
  {
    match a
    case Outbound(publish, f) => AcceptSettles(s, publish, f, k);
    case Register(j, _) => assert DeliveryOk(s.profile, s.memory, j, s.deliveries[j]);
    case Complete(j, f) => CompleteSettles(s, j, f, k);
    case Puback(id, acked, f) => PubackSettles(s, id, acked, f, k);
    case Pubrec(id, acked, f) => PubrecSettles(s, id, acked, f, k);
    case InflightRetry(due, f) => RetrySettles(s, due, f, k);
    case _ =>
  }

  // ---- every run ----

  /** The second put of the delivery `k` fails. */
  predicate FailsRefresh(a: Action, k: Key) {
    a.Refresh? && a.k == k && !a.stored
  }

  /** The keys for which the second put has failed. */
  function Lost(acts: seq<Action>): set<Key> {
    if acts == [] then {}
    else
      var a := acts[|acts| - 1];
      Lost(acts[..|acts| - 1]) + (if a.Refresh? && !a.stored then {a.k} else {})
  }

  lemma {:induction false} LostIsRefreshFailed(acts: seq<Action>, k: Key)
    ensures k in Lost(acts) <==> exists j :: 0 <= j < |acts| && FailsRefresh(acts[j], k)
  {
    if acts != [] {
      var n := |acts| - 1;
      LostIsRefreshFailed(acts[..n], k);
      assert acts == acts[..n] + [acts[n]];
    }
  }

  lemma StepKeepsMatched(s: Session, a: Action, lost: set<Key>, id: u16)
    requires Safe(s) && Enabled(s, a) && Matched(s, lost, id) && (forall k :: k in lost ==> Settled(s, k))
    ensures Matched(Apply(s, a), if a.Refresh? && !a.stored then lost + {a.k} else lost, id)
  {
    match a
    case Outbound(publish, f) => AcceptKeepsMatched(s, publish, f, lost, id);
    case Prepare(k) => PrepareKeepsMatched(s, k, lost, id);
    case Put(k, ok) => PutKeepsMatched(s, k, ok, lost, id);
    case Register(k, ok) => RegisterKeepsMatched(s, k, ok, lost, id);
    case Refresh(k, stored, ok) => if stored { RefreshKeepsMatched(s, k, ok, lost, id); }
    case Complete(k, f) => CompleteKeepsMatched(s, k, f, lost, id);
    case Puback(at, acked, f) => PubackIsCalm(s, at, acked, f, id);
    case Pubrec(at, acked, f) => PubrecIsCalm(s, at, acked, f, id);
    case Inbound(at, publish) => InboundKeepsMatched(s, at, publish, lost, id);
    case InflightRetry(due, f) => RetryIsCalm(s, due, f, id);
    case _ =>
  }

  lemma {:induction false} RunSettles(kept: Session, f: Faults, run: seq<Session>, acts: seq<Action>, i: nat, k: Key)
    requires IsRun(kept, f, run, acts) && Kept(kept) && i < |run| && k in Lost(acts[..i])
    ensures Settled(run[i], k)
  {
    var n := i - 1;
    assert acts[..i][..n] == acts[..n];
    RunKeepsSafe(kept, f, run, acts, n);
    if k in Lost(acts[..n]) {
      RunSettles(kept, f, run, acts, n, k);
      StepSettles(run[n], acts[n], k);
    } else {
      assert DeliveryOk(run[n].profile, run[n].memory, k, run[n].deliveries[k]);
    }
  }

  lemma {:induction false} RunKeepsMatched(
      kept: Session, f: Faults, run: seq<Session>, acts: seq<Action>, i: nat, id: u16)
    requires IsRun(kept, f, run, acts) && Kept(kept) && i < |run|
    ensures Matched(run[i], Lost(acts[..i]), id)
  {
    if i == 0 {
      RecoveryKeepsMatched(kept, f, id);
    } else {
      var n := i - 1;
      assert acts[..i][..n] == acts[..n];
      RunKeepsMatched(kept, f, run, acts, n, id);
      RunKeepsSafe(kept, f, run, acts, n);
      forall k | k in Lost(acts[..n]) ensures Settled(run[n], k) {
        RunSettles(kept, f, run, acts, n, k);
      }
      StepKeepsMatched(run[n], acts[n], Lost(acts[..n]), id);
    }
  }

  /** The second put of the delivery `k` failed in one of the first `i` steps. */
  ghost predicate RefreshFailed(acts: seq<Action>, i: nat, k: Key)
    requires i <= |acts|
  {
    exists j :: 0 <= j < i && FailsRefresh(acts[j], k)
  }

  lemma RefreshFailedIsLost(acts: seq<Action>, i: nat, k: Key)
    requires i <= |acts|
    ensures RefreshFailed(acts, i, k) <==> k in Lost(acts[..i])
  {
    LostIsRefreshFailed(acts[..i], k);
    assert forall j :: 0 <= j < i ==> acts[..i][j] == acts[j];
    if RefreshFailed(acts, i, k) {
      var j :| 0 <= j < i && FailsRefresh(acts[j], k);
      assert acts[..i][j] == acts[j];
    }
  }

  /** In every run, whatever fails, every unfinished entry has its payload in the store, and the stored publish carries
      the entry's identifier exactly if its delivery is not just between the registration under another identifier and
      the put that follows, and that put has not failed. */
  lemma TableAgreesWithStore(kept: Session, f: Faults, run: seq<Session>, acts: seq<Action>, i: nat, id: u16)
    requires IsRun(kept, f, run, acts) && Kept(kept) && i < |run|
    requires id in run[i].memory.table && !run[i].memory.table[id].state.Finish?
    ensures var m, e := run[i].memory, run[i].memory.table[id];
            && e.packetIdentifier == id && e.packetKey.Some? && e.packetKey.value in m.store
            && (m.store[e.packetKey.value].packetIdentifier == Some(id) <==>
                  !At(run[i], e.packetKey.value, Refreshing) && !RefreshFailed(acts, i, e.packetKey.value))
  {
    RunKeepsMatched(kept, f, run, acts, i, id);
    RunKeepsSafe(kept, f, run, acts, i);
    assert EntryOk(run[i].memory, run[i].flow.queue, run[i].wire, run[i].clock, id);
    RefreshFailedIsLost(acts, i, run[i].memory.table[id].packetKey.value);
  }

  /** Every publish a retry pass sends again is the stored one marked as a duplicate. It goes out under the identifier
      it is registered with, with exactly the same exceptions; every registered publish that waits in the queue does
      without exception. */
  lemma RetransmissionsKeepTheirId(
      kept: Session, f: Faults, run: seq<Session>, acts: seq<Action>, i: nat, due: set<u16>, f': Faults, id: u16)
    requires IsRun(kept, f, run, acts) && Kept(kept) && i < |run|
    ensures var s, m := run[i], ExpiryPass(run[i], f').0.memory;
            id in Retried(m, s.flow.queue, due, s.clock) ==>
              var k := m.table[id].packetKey.value;
              && Resent(m, id).dup && Resent(m, id).(dup := false) == m.store[k].(dup := false)
              && (Resent(m, id).packetIdentifier == Some(id) <==> !At(s, k, Refreshing) && !RefreshFailed(acts, i, k))
    ensures forall d, k :: d in run[i].flow.queue && d.registered == Some(k) && Holding(run[i].memory, id, k) ==>
              d.publish.packetIdentifier == Some(id)
  {
    var s, m := run[i], ExpiryPass(run[i], f').0.memory;
    RunKeepsSafe(kept, f, run, acts, i);
    if id in Retried(m, s.flow.queue, due, s.clock) {
      TableAgreesWithStore(kept, f, run, acts, i, id);
    }
    assert EntryOk(s.memory, s.flow.queue, s.wire, s.clock, id);
    forall d, k | d in s.flow.queue && d.registered == Some(k) && Holding(s.memory, id, k)
      ensures d.publish.packetIdentifier == Some(id)
    {
      assert DeferredOk(s.profile, s.memory, d);
    }
  }

  /** A failed second put is never made good: in every later state in which an unfinished entry holds the key, the
      stored publish carries another identifier, and that is what a retry pass sends. */
  lemma FailedRefreshDisagrees(
      kept: Session, f: Faults, run: seq<Session>, acts: seq<Action>, j: nat, i: nat, id: u16, k: Key)
    requires IsRun(kept, f, run, acts) && Kept(kept) && j < i < |run| && FailsRefresh(acts[j], k)
    requires Holding(run[i].memory, id, k) && !run[i].memory.table[id].state.Finish?
    ensures k in run[i].memory.store && run[i].memory.store[k].packetIdentifier != Some(id)
    ensures Resent(run[i].memory, id).packetIdentifier != Some(id)
  {
    TableAgreesWithStore(kept, f, run, acts, i, id);
    assert RefreshFailed(acts, i, k);
  }

  // ---- restart ----

  /** The actor of a session starts again, for a new connection. */
  function Restarted(s: Session, p: Profile, now: u64): Session {
    s.(profile := p, active := true, clock := now, flow := Flow(0, []), deliveries := map[], wire := Wire({}, {}))
  }

  lemma OnlyCleanSpawns(s: Session, k: Key)
    requires Safe(s)
    ensures k in s.deliveries ==> s.profile.clean
  {
    assert k in s.deliveries ==> DeliveryOk(s.profile, s.memory, k, s.deliveries[k]);
  }

  /** A persistent session never comes to a second put after registration. */
  lemma OnlyCleanRefreshes(kept: Session, f: Faults, run: seq<Session>, acts: seq<Action>, i: nat, k: Key)
    requires IsRun(kept, f, run, acts) && Kept(kept) && i < |run| && !run[i].profile.clean
    ensures !RefreshFailed(acts, i, k)
  {
    RunKeepsProfile(kept, f, run, acts, i);
    forall j | 0 <= j < i ensures !FailsRefresh(acts[j], k) {
      RunKeepsProfile(kept, f, run, acts, j);
      RunKeepsSafe(kept, f, run, acts, j);
      OnlyCleanSpawns(run[j], k);
    }
  }

  /** What a persistent session leaves behind, at any point of any run, is again a state to recover from, so
      the theorems about runs hold connection after connection. */
  lemma PersistentStateIsKept(
      kept: Session, f: Faults, run: seq<Session>, acts: seq<Action>, i: nat, p: Profile, now: u64)
    requires IsRun(kept, f, run, acts) && Kept(kept) && i < |run| && !run[i].profile.clean
    ensures Kept(Restarted(run[i], p, now))
  {
    var s := run[i];
    var s' := Restarted(s, p, now);
    RunKeepsSafe(kept, f, run, acts, i);
    forall id ensures EntryKept(s'.memory, s'.wire, id) && Agreed(s'.memory, id) {
      assert EntryOk(s.memory, s.flow.queue, s.wire, s.clock, id);
      if id in s.memory.table {
        var k := s.memory.table[id].packetKey.value;
        OnlyCleanSpawns(s, k);
        OnlyCleanRefreshes(kept, f, run, acts, i, k);
        RunKeepsMatched(kept, f, run, acts, i, id);
        RefreshFailedIsLost(acts, i, k);
      }
    }
    forall k | k in s.memory.idOf || k in s.memory.store ensures k < s.nextKey {
      assert KeyOk(s, k);
    }
  }

  // ---- acceptance ----

  /** The same message, whatever its identifier and the interval that is left to it. */
  predicate SameMessage(a: Publish, b: Publish) {
    a == b.(packetIdentifier := a.packetIdentifier, messageExpiryInterval := a.messageExpiryInterval)
  }

  /** A persistent session answers Ok to an unexpired QoS 1 or 2 publish only if the message is in the payload
      store under a key that is in the list for the client's return, or is held by the entry whose identifier
      the stored message carries; and it does answer Ok when nothing fails and an identifier is free. */
  lemma AcceptanceIsDurable(s: Session, publish: Publish, f: Faults)
    requires !s.profile.clean && publish.qos > 0 && !MessageExpiry.IsExpired(publish, s.clock)
    ensures var (s', answer) := Accepted(s, publish, f);
            var k := s.nextKey;
            && (answer.Ok? ==>
                  && k in s'.memory.store && SameMessage(s'.memory.store[k], publish)
                  && (k in s'.pending
                      || (exists id: u16 ::
                            Holding(s'.memory, id, k) && s'.memory.store[k].packetIdentifier == Some(id))))
            && (f == NO_FAULTS && |s.memory.table| < U16_MAX ==> answer.Ok?)
            && !answer.Later?
  {
    AllocationSucceedsBelowCapacity(s.memory.table);
    var uses := UsesSlot(s, publish);
    var wait := uses && !CanReserve(s);
    var s0 := if uses && !wait then Reserved(s) else s;
    PersistentIsDurable(s0, publish, wait, f);
  }

  lemma PersistentIsDurable(s: Session, publish: Publish, wait: bool, f: Faults)
    requires publish.qos > 0 && !MessageExpiry.IsExpired(publish, s.clock)
    ensures var (s', status) := DeliverPersistent(s, publish, wait, f);
            var k := s.nextKey;
            && (!status.Error? ==>
                  && k in s'.memory.store && SameMessage(s'.memory.store[k], publish)
                  && (k in s'.pending
                      || (exists id: u16 ::
                            Holding(s'.memory, id, k) && s'.memory.store[k].packetIdentifier == Some(id))))
            && (f == NO_FAULTS && LeastFree(s.memory.table, 1).Some? ==> !status.Error?)
            && (status.NotSent? ==> !s.active)
  {
    var prepared := MessageExpiry.Prepared(publish, s.profile.version, s.clock);
    if s.active {
      ActiveIsDurable(s, prepared.value, wait, f);
    }
  }

  lemma ActiveIsDurable(s: Session, publish: Publish, wait: bool, f: Faults)
    requires publish.qos > 0
    ensures var (s', status) := DeliverActive(s, publish, wait, f);
            var k := s.nextKey;
            && (!status.Error? ==>
                  && k in s'.memory.store && SameMessage(s'.memory.store[k], publish)
                  && k in s'.memory.idOf && Holding(s'.memory, s'.memory.idOf[k], k)
                  && s'.memory.store[k].packetIdentifier == Some(s'.memory.idOf[k]))
            && (f == NO_FAULTS && LeastFree(s.memory.table, 1).Some? ==> !status.Error?)
            && !status.NotSent?
  {
  }
}
