/** What acknowledgements do: each advances exactly the entry it is for, and a publish is finished by the
    acknowledgements its QoS asks for and not before, whatever else the session does meanwhile. */
module SessionAcknowledged {
  import opened MqttTypes
  import opened Inflight
  import opened SessionDelivery
  import opened SessionSafety
  import opened SessionWritten
  import MessageExpiry

  // ---- the drain loop ----

  /** A publish that waits under this identifier has expired. */
  ghost predicate ExpiredInQueue(queue: seq<Deferred>, id: u16, now: u64) {
    exists d :: d in queue && d.registered.Some? && d.publish.packetIdentifier == Some(id)
                && MessageExpiry.HasExpired(d.publish, now)
  }

  /** From `m` to `m'` the entry `id` kept its state and key, or was never sent and its publish expired in the queue. */
  ghost predicate Left(m: Memory, m': Memory, id: u16, queue: seq<Deferred>, now: u64) {
    && (id in m'.table ==>
          && id in m.table && m'.table[id].state == m.table[id].state && m'.table[id].packetKey == m.table[id].packetKey
          && m'.table[id].lastModified == m.table[id].lastModified
          && (m.table[id].deliveryStarted ==> m'.table[id].deliveryStarted))
    && (id in m.table && id !in m'.table ==>
          !m.table[id].deliveryStarted && IsWaiting(m.table[id].state) && ExpiredInQueue(queue, id, now))
  }

  lemma RegisteredLeaves(s: Session, d: Deferred, f: Faults, id: u16)
    requires d in s.flow.queue && d.registered.Some?
    ensures var m' := DeliverRegistered(s, d.publish, d.registered.value, f).0.memory;
            Left(s.memory, m', id, s.flow.queue, s.clock) && m'.store.Keys <= s.memory.store.Keys
  {
  }

  lemma TurnLeaves(s: Session, f: Faults, id: u16)
    requires Drainable(s)
    ensures var s' := DrainStep(s, f).0;
            Left(s.memory, s'.memory, id, s.flow.queue, s.clock) && s'.memory.store.Keys <= s.memory.store.Keys
    ensures DrainStep(s, f).0.clock == s.clock
  {
    var d := s.flow.queue[0];
    if d.registered.Some? {
      RegisteredTurn(s, f);
      RegisteredLeaves(s, d, f, id);
    }
  }

  lemma {:induction false} DrainLeaves(s: Session, f: Faults, id: u16)
    ensures var s' := Drained(s, f);
            Left(s.memory, s'.memory, id, s.flow.queue, s.clock) && s'.memory.store.Keys <= s.memory.store.Keys
    decreases |s.flow.queue|
  {
    if Drainable(s) {
      TurnShrinksQueue(s, f);
      TurnLeaves(s, f, id);
      var (s1, more) := DrainStep(s, f);
      if more {
        DrainLeaves(s1, f, id);
        assert forall d :: d in s1.flow.queue ==> d in s.flow.queue;
      }
    }
  }

  // ---- one acknowledgement ----

  /** The acknowledgement takes effect at all: nothing it needs fails. */
  predicate Works(s: Session, f: Faults) {
    s.profile.clean || !f.raft
  }

  /** Nothing but the record of what is outstanding has changed. */
  predicate OnlyAnswered(s: Session, s': Session) {
    s' == s.(wire := s.wire.(outstanding := s'.wire.outstanding))
  }

  /** The entry keeps its state and key, but a cleanup takes it away if it is finished. */
  ghost predicate LeftOrCleaned(m: Memory, m': Memory, id: u16, queue: seq<Deferred>, now: u64, cleanup: bool) {
    if cleanup && id in m.table && m.table[id].state.Finish? then id !in m'.table else Left(m, m', id, queue, now)
  }

  lemma LeftComposes(m: Memory, m1: Memory, m2: Memory, id: u16, queue: seq<Deferred>, now: u64, cleanup: bool)
    requires LeftOrCleaned(m, m1, id, queue, now, cleanup) && Left(m1, m2, id, queue, now)
    ensures LeftOrCleaned(m, m2, id, queue, now, cleanup)
  {
  }

  lemma ReleaseLeaves(s: Session, f: Faults, id: u16)
    ensures var s' := ReleasedAndDrained(s, f);
            && Left(s.memory, s'.memory, id, s.flow.queue, s.clock) && s'.memory.store.Keys <= s.memory.store.Keys
            && (s.flow.queue == [] ==> s'.flow == Flow(Max(s.flow.slots - 1, 0), []))
  {
    DrainLeaves(Released(s), f, id);
  }

  /** The table after an acknowledgement, cleaned or not. */
  lemma AdvancedIsExact(m: Memory, id: u16, now: u64, cleanup: bool, other: u16, queue: seq<Deferred>)
    requires id in m.table && other != id
    ensures var a := AdvancedMemory(m, id, now);
            var m' := if cleanup then CleanedMemory(a) else a;
            var state := if m.table[id].state.WaitPubrec? then WaitPubcomp else Finish;
            && LeftOrCleaned(m, m', other, queue, now, cleanup)
            && (cleanup && state.Finish? ==>
                  id !in m'.table && (m.table[id].packetKey.Some? ==> m.table[id].packetKey.value !in m'.store))
            && (!(cleanup && state.Finish?) ==>
                  id in m'.table && m'.table[id].state == state && m'.table[id].packetKey == m.table[id].packetKey)
  {
    if m.table[id].packetKey.Some? {
      assert AdvancedMemory(m, id, now).table[id].packetKey == m.table[id].packetKey;
    }
  }

  /** PUBACK finishes the entry that waits for it; a persistent session then forgets it, with its payload, and all the
      others that are finished. For any other identifier it does nothing. */
  lemma PubackIsExact(s: Session, id: u16, acked: Option<Copy>, f: Faults, other: u16)
    requires other != id
    ensures var s' := Apply(s, Puback(id, acked, f));
            var cleanup := !s.profile.clean && !f.cleanup;
            if InState(s.memory, id, WaitPuback) && Works(s, f) then
              && (!cleanup ==>
                    InState(s'.memory, id, Finish) && s'.memory.table[id].packetKey == s.memory.table[id].packetKey)
              && (cleanup ==>
                    && id !in s'.memory.table
                    && (s.memory.table[id].packetKey.Some? ==>
                          s.memory.table[id].packetKey.value !in s'.memory.store))
              && LeftOrCleaned(s.memory, s'.memory, other, s.flow.queue, s.clock, cleanup)
              && (s.flow.queue == [] ==> s'.flow == Flow(Max(s.flow.slots - 1, 0), []))
            else OnlyAnswered(s, s')
  {
    if InState(s.memory, id, WaitPuback) && Works(s, f) {
      var s1, cleanup := Answered(s, acked), !s.profile.clean && !f.cleanup;
      var m := AdvancedMemory(s.memory, id, s.clock);
      var s2 := s1.(memory := if cleanup then CleanedMemory(m) else m);
      AdvancedIsExact(s.memory, id, s.clock, cleanup, other, s.flow.queue);
      ReleaseLeaves(s2, f, id);
      ReleaseLeaves(s2, f, other);
      LeftComposes(s.memory, s2.memory, ReleasedAndDrained(s2, f).memory, other, s.flow.queue, s.clock, cleanup);
    }
  }

  /** PUBREC moves the entry that waits for it on to PUBCOMP, unless the PUBREL that answers it cannot be written; the
      slot is free either way. For any other identifier it does nothing. */
  lemma PubrecIsExact(s: Session, id: u16, acked: Option<Copy>, f: Faults, other: u16)
    requires other != id
    ensures var s' := Apply(s, Pubrec(id, acked, f));
            if InState(s.memory, id, WaitPubrec) && (f.control || Works(s, f)) then
              && (f.control ==> Left(s.memory, s'.memory, id, s.flow.queue, s.clock))
              && (!f.control ==>
                    && InState(s'.memory, id, WaitPubcomp)
                    && s'.memory.table[id].packetKey == s.memory.table[id].packetKey)
              && Left(s.memory, s'.memory, other, s.flow.queue, s.clock)
              && (s.flow.queue == [] ==> s'.flow == Flow(Max(s.flow.slots - 1, 0), []))
            else OnlyAnswered(s, s')
  {
    if InState(s.memory, id, WaitPubrec) && (f.control || Works(s, f)) {
      var s1 := Answered(s, acked);
      var s2 := if f.control then s1 else s1.(memory := AdvancedMemory(s.memory, id, s.clock));
      AdvancedIsExact(s.memory, id, s.clock, false, other, s.flow.queue);
      ReleaseLeaves(s2, f, id);
      ReleaseLeaves(s2, f, other);
      LeftComposes(s.memory, s2.memory, ReleasedAndDrained(s2, f).memory, other, s.flow.queue, s.clock, false);
    }
  }

  /** PUBCOMP and PUBREL take the entry, whatever it waits for, one step on; they free no slot. */
  lemma FinalAckIsExact(s: Session, id: u16, f: Faults, other: u16)
    requires other != id
    ensures var s' := Apply(s, FinalAck(id, f));
            var cleanup := !s.profile.clean && !f.cleanup;
            && s'.flow == s.flow && s'.wire == s.wire && s'.deliveries == s.deliveries
            && if id in s.memory.table && !f.control && Works(s, f) then
                 && (InState(s.memory, id, WaitPubrec) ==> InState(s'.memory, id, WaitPubcomp))
                 && (!InState(s.memory, id, WaitPubrec) ==>
                       if cleanup then id !in s'.memory.table else InState(s'.memory, id, Finish))
                 && LeftOrCleaned(s.memory, s'.memory, other, s.flow.queue, s.clock, cleanup)
               else f.control || !Works(s, f) ==> s' == s
  {
    if id in s.memory.table {
      AdvancedIsExact(s.memory, id, s.clock, !s.profile.clean && !f.cleanup, other, s.flow.queue);
    }
  }

  // ---- all acknowledgements of a run ----

  /** What MQTT makes of the state of an entry: PUBACK ends QoS 1, PUBREC and then PUBCOMP end QoS 2, PUBREL ends a
      received QoS 2 publish. */
  function StateAfter(state: InflightState, a: Action, id: u16): InflightState {
    match a
    case Puback(at, _, _) => if at == id && state.WaitPuback? then Finish else state
    case Pubrec(at, _, _) => if at == id && state.WaitPubrec? then WaitPubcomp else state
    case FinalAck(at, _) => if at != id then state else if state.WaitPubrec? then WaitPubcomp else Finish
    case _ => state
  }

  function StateAfterAll(state: InflightState, acts: seq<Action>, id: u16): InflightState {
    if acts == [] then state
    else StateAfter(StateAfterAll(state, acts[..|acts| - 1], id), acts[|acts| - 1], id)
  }

  /** Nothing that an acknowledgement needs fails. */
  predicate AckWorks(s: Session, a: Action) {
    match a
    case Puback(_, _, f) => Works(s, f)
    case Pubrec(_, _, f) => !f.control && Works(s, f)
    case FinalAck(_, f) => !f.control && Works(s, f)
    case _ => true
  }

  /** A received publish takes the identifier. */
  predicate Takes(a: Action, id: u16) {
    a.Inbound? && a.id == id && 1 <= a.publish.qos <= 2
  }

  /** The entry is there in this state, or it was finished and is gone. */
  predicate Follows(m: Memory, id: u16, k: Key, state: InflightState) {
    if Holding(m, id, k) then Started(m, id, k) && m.table[id].state == state else state.Finish?
  }

  lemma PubackFollows(s: Session, at: u16, acked: Option<Copy>, f: Faults, id: u16, k: Key)
    requires Started(s.memory, id, k) && Works(s, f)
    ensures Follows(Apply(s, Puback(at, acked, f)).memory, id, k,
                    StateAfter(s.memory.table[id].state, Puback(at, acked, f), id))
  {
    var other: u16 := if at == id then (if id == 0 then 1 else 0) else id;
    PubackIsExact(s, at, acked, f, other);
    if at == id && InState(s.memory, id, WaitPuback) {
      PubackKeepsStarted(s, id, acked, f, k);
    }
  }

  lemma PubackKeepsStarted(s: Session, id: u16, acked: Option<Copy>, f: Faults, k: Key)
    requires Started(s.memory, id, k)
    ensures var m' := Apply(s, Puback(id, acked, f)).memory;
            Holding(m', id, k) ==> Started(m', id, k)
  {
    var s1 := Answered(s, acked);
    var m := AdvancedMemory(s1.memory, id, s.clock);
    ReleaseLeaves(s1.(memory := if s.profile.clean || f.cleanup then m else CleanedMemory(m)), f, id);
  }

  lemma PubrecFollows(s: Session, at: u16, acked: Option<Copy>, f: Faults, id: u16, k: Key)
    requires Started(s.memory, id, k) && Works(s, f) && !f.control
    ensures Follows(Apply(s, Pubrec(at, acked, f)).memory, id, k,
                    StateAfter(s.memory.table[id].state, Pubrec(at, acked, f), id))
  {
    var other: u16 := if at == id then (if id == 0 then 1 else 0) else id;
    PubrecIsExact(s, at, acked, f, other);
    if at == id && InState(s.memory, id, WaitPubrec) {
      ReleaseLeaves(Answered(s, acked).(memory := AdvancedMemory(s.memory, id, s.clock)), f, id);
    }
  }

  lemma FinalAckFollows(s: Session, at: u16, f: Faults, id: u16, k: Key)
    requires Started(s.memory, id, k) && Works(s, f) && !f.control
    ensures Follows(Apply(s, FinalAck(at, f)).memory, id, k,
                    StateAfter(s.memory.table[id].state, FinalAck(at, f), id))
  {
    var other: u16 := if at == id then (if id == 0 then 1 else 0) else id;
    FinalAckIsExact(s, at, f, other);
  }

  lemma StepFollows(s: Session, a: Action, id: u16, k: Key)
    requires Safe(s) && Enabled(s, a) && Started(s.memory, id, k) && AckWorks(s, a) && !Takes(a, id)
    ensures Follows(Apply(s, a).memory, id, k, StateAfter(s.memory.table[id].state, a, id))
  {
    match a
    case Outbound(publish, f) => AcceptSpares(s, publish, f, id, k);
    case Complete(j, f) => CompleteSpares(s, j, f, id, k);
    case InflightRetry(due, f) => RetrySpares(s, due, f, id, k);
    case Puback(at, acked, f) => PubackFollows(s, at, acked, f, id, k);
    case Pubrec(at, acked, f) => PubrecFollows(s, at, acked, f, id, k);
    case FinalAck(at, f) => FinalAckFollows(s, at, f, id, k);
    case _ =>
  }

  // ---- a key that is gone does not come back ----

  /** From `s` to `s'` the key was not registered again. */
  predicate NotBack(s: Session, s': Session, id: u16, k: Key) {
    k in s.memory.idOf ==> k in s'.memory.idOf && (Holding(s'.memory, id, k) ==> Holding(s.memory, id, k))
  }

  lemma {:induction false} DrainKeepsIds(s: Session, f: Faults)
    ensures Drained(s, f).memory.idOf == s.memory.idOf
    decreases |s.flow.queue|
  {
    if Drainable(s) {
      TurnShrinksQueue(s, f);
      if s.flow.queue[0].registered.Some? {
        RegisteredTurn(s, f);
      }
      if DrainStep(s, f).1 {
        DrainKeepsIds(DrainStep(s, f).0, f);
      }
    }
  }

  lemma ReleaseNotBack(s: Session, f: Faults, id: u16, k: Key)
    ensures NotBack(s, ReleasedAndDrained(s, f), id, k)
  {
    DrainKeepsIds(Released(s), f);
    ReleaseLeaves(s, f, id);
  }

  lemma EnteredNotBack(s: Session, j: Key, sent: Publish, at: u16, wait: bool, f: Faults, id: u16, k: Key)
    requires j !in s.memory.idOf
    ensures NotBack(s, Entered(s, j, sent, at, wait, f).0, id, k)
  {
  }

  lemma ActiveNotBack(s: Session, publish: Publish, wait: bool, f: Faults, id: u16, k: Key)
    requires Safe(s)
    ensures NotBack(s, DeliverActive(s, publish, wait, f).0, id, k)
  {
    assert KeyOk(s, s.nextKey);
    var first := if publish.packetIdentifier.Some? then publish.packetIdentifier else LeastFree(s.memory.table, 1);
    if publish.qos > 0 && first.Some? {
      var s1 := StoredAs(s, publish.(packetIdentifier := first));
      var chosen := ChosenId(s.memory, publish.(packetIdentifier := first));
      if chosen.Some? {
        EnteredNotBack(s1, s.nextKey, publish.(packetIdentifier := chosen), chosen.value, wait, f, id, k);
      }
    }
  }

  lemma PersistentNotBack(s: Session, publish: Publish, wait: bool, f: Faults, id: u16, k: Key)
    requires Safe(s)
    ensures NotBack(s, DeliverPersistent(s, publish, wait, f).0, id, k)
  {
    var prepared := MessageExpiry.Prepared(publish, s.profile.version, s.clock);
    if prepared.Some? && s.active {
      ActiveNotBack(s, prepared.value, wait, f, id, k);
    }
  }

  lemma AcceptNotBack(s: Session, publish: Publish, f: Faults, id: u16, k: Key)
    requires Safe(s)
    ensures NotBack(s, Accepted(s, publish, f).0, id, k)
  {
    if !s.profile.clean {
      var uses := UsesSlot(s, publish);
      var wait := uses && !CanReserve(s);
      ReserveKeepsSafe(s);
      var s0 := if uses && !wait then Reserved(s) else s;
      PersistentNotBack(s0, publish, wait, f, id, k);
      ReleaseNotBack(DeliverPersistent(s0, publish, wait, f).0, f, id, k);
    }
  }

  lemma PubackNotBack(s: Session, at: u16, acked: Option<Copy>, f: Faults, id: u16, k: Key)
    ensures NotBack(s, PubackHandled(s, at, acked, f), id, k)
  {
    var m := AdvancedMemory(s.memory, at, s.clock);
    var m' := if s.profile.clean || f.cleanup then m else CleanedMemory(m);
    ReleaseNotBack(Answered(s, acked).(memory := m'), f, id, k);
  }

  lemma PubrecNotBack(s: Session, at: u16, acked: Option<Copy>, f: Faults, id: u16, k: Key)
    ensures NotBack(s, PubrecHandled(s, at, acked, f), id, k)
  {
    var s1 := Answered(s, acked);
    ReleaseNotBack(if f.control then s1 else s1.(memory := AdvancedMemory(s.memory, at, s.clock)), f, id, k);
  }

  lemma RegisterNotBack(s: Session, j: Key, ok: bool, id: u16, k: Key)
    requires Safe(s) && At(s, j, Registering) && s.deliveries[j].publish.packetIdentifier.Some?
    ensures NotBack(s, DeliveryRegistered(s, j, s.deliveries[j], ok), id, k)
  {
    assert DeliveryOk(s.profile, s.memory, j, s.deliveries[j]);
  }

  lemma RetryNotBack(s: Session, due: set<u16>, f: Faults, id: u16, k: Key)
    ensures NotBack(s, RetryHandled(s, due, f), id, k)
  {
    DrainKeepsIds(RetrySent(s, due, f), f);
    DrainLeaves(RetrySent(s, due, f), f, id);
  }

  lemma StepNotBack(s: Session, a: Action, id: u16, k: Key)
    requires Safe(s) && Enabled(s, a)
    ensures NotBack(s, Apply(s, a), id, k)
  {
    match a
    case Outbound(publish, f) => AcceptNotBack(s, publish, f, id, k);
    case Register(j, ok) => RegisterNotBack(s, j, ok, id, k);
    case Complete(j, f) => ReleaseNotBack(s.(deliveries := s.deliveries - {j}), f, id, k);
    case Puback(at, acked, f) => PubackNotBack(s, at, acked, f, id, k);
    case Pubrec(at, acked, f) => PubrecNotBack(s, at, acked, f, id, k);
    case InflightRetry(due, f) => RetryNotBack(s, due, f, id, k);
    case Inbound(at, publish) => assert KeyOk(s, s.nextKey);
    case _ =>
  }

  lemma NextFollows(s: Session, a: Action, id: u16, k: Key, state: InflightState)
    requires Safe(s) && Enabled(s, a) && AckWorks(s, a) && !Takes(a, id)
    requires k in s.memory.idOf && Follows(s.memory, id, k, state)
    ensures k in Apply(s, a).memory.idOf && Follows(Apply(s, a).memory, id, k, StateAfter(state, a, id))
  {
    StepNotBack(s, a, id, k);
    if Holding(s.memory, id, k) {
      StepFollows(s, a, id, k);
    }
  }

  lemma OneMoreAct(state: InflightState, acts: seq<Action>, i: nat, j: nat, id: u16)
    requires i < j <= |acts|
    ensures StateAfterAll(state, acts[i..j], id) ==
            StateAfter(StateAfterAll(state, acts[i..j - 1], id), acts[j - 1], id)
  {
    assert acts[i..j][..j - 1 - i] == acts[i..j - 1];
  }

  /** In every run, whatever else happens, the state of a publish that was sent is what the acknowledgements of its
      identifier make of it, and its entry goes away only once that is Finish, unless one of them fails or a received
      publish takes the identifier. */
  lemma {:induction false} AcknowledgedInTurn(
      kept: Session, f: Faults, run: seq<Session>, acts: seq<Action>, i: nat, j: nat, id: u16, k: Key)
    requires IsRun(kept, f, run, acts) && Kept(kept) && i <= j < |run| && Started(run[i].memory, id, k)
    requires forall n :: i <= n < j ==> AckWorks(run[n], acts[n]) && !Takes(acts[n], id)
    ensures k in run[j].memory.idOf
    ensures Follows(run[j].memory, id, k, StateAfterAll(run[i].memory.table[id].state, acts[i..j], id))
    decreases j
  {
    var state := run[i].memory.table[id].state;
    if i == j {
      RunKeepsSafe(kept, f, run, acts, i);
      assert EntryOk(run[i].memory, run[i].flow.queue, run[i].wire, run[i].clock, id);
    } else {
      var n := j - 1;
      AcknowledgedInTurn(kept, f, run, acts, i, n, id, k);
      OneMoreAct(state, acts, i, j, id);
      RunKeepsSafe(kept, f, run, acts, n);
      NextFollows(run[n], acts[n], id, k, StateAfterAll(state, acts[i..n], id));
      assert run[n + 1] == Apply(run[n], acts[n]);
    }
  }

  /** A QoS 1 publish is finished by one acknowledgement. */
  lemma {:induction false} FinishedByOne(acts: seq<Action>, id: u16)
    ensures var state := StateAfterAll(WaitPuback, acts, id);
            && (state.Finish? <==> exists i :: 0 <= i < |acts| && Ends(acts[i], id))
            && (!state.Finish? ==> state.WaitPuback?)
  {
    if acts != [] {
      var n := |acts| - 1;
      FinishedByOne(acts[..n], id);
      assert acts == acts[..n] + [acts[n]];
      assert forall i :: 0 <= i < n ==> acts[..n][i] == acts[i];
    }
  }

  /** PUBACK, or PUBCOMP, which is not told from it. */
  predicate Ends(a: Action, id: u16) {
    (a.Puback? && a.id == id) || (a.FinalAck? && a.id == id)
  }

  /** PUBREC, or PUBCOMP, which is not told from it. */
  predicate Moves(a: Action, id: u16) {
    (a.Pubrec? && a.id == id) || (a.FinalAck? && a.id == id)
  }

  /** A QoS 2 publish is finished by two, in order. */
  lemma {:induction false} FinishedByTwo(acts: seq<Action>, id: u16)
    ensures var state := StateAfterAll(WaitPubrec, acts, id);
            && (state.WaitPubrec? <==> forall i :: 0 <= i < |acts| ==> !Moves(acts[i], id))
            && (state.Finish? <==>
                  exists i, j :: 0 <= i < j < |acts| && Moves(acts[i], id) && acts[j].FinalAck? && acts[j].id == id)
            && (state.WaitPubrec? || state.WaitPubcomp? || state.Finish?)
  {
    if acts != [] {
      var n := |acts| - 1;
      FinishedByTwo(acts[..n], id);
      assert acts == acts[..n] + [acts[n]];
      assert forall i :: 0 <= i < n ==> acts[..n][i] == acts[i];
    }
  }
}
