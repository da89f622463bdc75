/** Outbound QoS delivery of one session during one connection: the in-flight table, the payload store, the
    Receive Maximum slots (section 3.1.2.11.3 of MQTT 5.0) and the queue of publishes that wait for one.

    A persistent session runs every delivery to its end before it handles the next message; a clean session
    spawns it, so its deliveries interleave with everything else at each of their awaits. The replicated
    session state is a mirror of the local table. */
module SessionDelivery {
  import opened MqttTypes
  import opened Inflight
  import MessageExpiry

  datatype Profile = Profile(clean: bool, version: ProtocolVersion, receiveMaximum: u16)

  /** A publish that waits for a slot. `registered` is the key of its in-flight entry, if it has one. */
  datatype Deferred = Deferred(publish: Publish, registered: Option<Key>)

  /** Where a spawned delivery stands: what it awaits next, or how it ended. */
  datatype Phase = Starting | Storing | Registering | Refreshing | Ended(sent: bool)

  datatype Delivery = Delivery(publish: Publish, reserved: bool, phase: Phase)

  /** The in-flight table and the payload store. `idOf` remembers under which identifier a key was
      registered; no operation reads it. */
  datatype Memory = Memory(table: Table, store: map<Key, Publish>, idOf: map<Key, u16>)

  datatype Flow = Flow(slots: nat, queue: seq<Deferred>)

  /** A PUBLISH packet: the publish `key`, under the identifier it carries. */
  datatype Copy = Copy(key: Key, id: u16)

  /** What went over this connection: `outstanding` holds the PUBLISH packets that were written and are still to be
      answered by PUBACK or PUBREC, `written` the publishes that were ever written. */
  datatype Wire = Wire(outstanding: set<Copy>, written: set<Key>)

  datatype Session = Session(
    profile: Profile,
    active: bool,
    clock: u64,
    nextKey: Key,
    memory: Memory,
    flow: Flow,
    deliveries: map<Key, Delivery>,
    pending: seq<Key>,
    wire: Wire)

  /** What may go wrong while one message is handled: writes of some publishes, writes of control packets,
      the replicated session state, its cleanup alone, its removal of some expired entries, the payload store (the
      first and the second put of a delivery). */
  datatype Faults = Faults(
    writes: set<Key>, control: bool, raft: bool, cleanup: bool, discards: set<u16>, put: bool, put2: bool)

  const NO_FAULTS := Faults({}, false, false, false, {}, false, false)

  // ---- slots ----

  function Limit(p: Profile): nat {
    Max(1, p.receiveMaximum)
  }

  predicate UsesSlot(s: Session, publish: Publish) {
    s.profile.version.V5_0? && s.active && publish.qos > 0
  }

  predicate CanReserve(s: Session) {
    s.flow.slots < Limit(s.profile)
  }

  function Reserved(s: Session): Session {
    s.(flow := s.flow.(slots := s.flow.slots + 1))
  }

  function Released(s: Session): Session {
    if s.flow.slots > 0 then s.(flow := s.flow.(slots := s.flow.slots - 1)) else s
  }

  // ---- small moves ----

  predicate IsWaiting(state: InflightState) {
    state.WaitPuback? || state.WaitPubrec?
  }

  predicate Holding(m: Memory, id: u16, k: Key) {
    id in m.table && m.table[id].packetKey == Some(k)
  }

  /** A write hands the packet to the connection's mailbox, which is first-in first-out and takes all of them. */
  function Wrote(w: Wire, k: Key, id: u16): Wire {
    Wire(w.outstanding + {Copy(k, id)}, w.written + {k})
  }

  /** Removes an entry that was never sent, and its payload. */
  function DiscardedEntry(m: Memory, id: u16, k: Key): Memory {
    if Discardable(m.table, id, k) then m.(table := m.table - {id}, store := m.store - {k}) else m
  }

  function Registered(m: Memory, id: u16, qos: u8, k: Key, now: u64, started: bool): Memory {
    m.(table := m.table[id := TxItem(id, qos, k, now).(deliveryStarted := started)], idOf := m.idOf[k := id])
  }

  function KeysAt(t: Table, ids: set<u16>): set<Key> {
    set id | id in ids && id in t && t[id].packetKey.Some? :: t[id].packetKey.value
  }

  function FinishedIds(t: Table): set<u16> {
    set id | id in t && t[id].state.Finish?
  }

  /** `clean_finished_items`, with the payloads it frees. */
  function CleanedMemory(m: Memory): Memory {
    m.(table := Cleaned(m.table), store := m.store - KeysAt(m.table, FinishedIds(m.table)))
  }

  // ---- prepare_registered_publish and the write that follows it ----

  datatype Outcome = Sent | Skipped | Failed

  /** Delivers a publish that already has an entry; `k` is the key it was registered with. */
  function DeliverRegistered(s: Session, publish: Publish, k: Key, f: Faults): (Session, Outcome) {
    if publish.packetIdentifier.None? then (s, Skipped)
    else
      var id := publish.packetIdentifier.value;
      if id !in s.memory.table || s.memory.table[id].packetKey.None? then (s, Skipped)
      else
        var item := s.memory.table[id];
        var unsent := !item.deliveryStarted;
        if MessageExpiry.Prepared(publish, s.profile.version, s.clock).None? then
          if unsent && !s.profile.clean && f.raft then (s, Failed)
          else if unsent then (s.(memory := DiscardedEntry(s.memory, id, item.packetKey.value)), Skipped)
          else (s, Skipped)
        else if unsent && !s.profile.clean && f.raft then (s, Failed)
        else
          var s1 := if unsent
                    then s.(memory := s.memory.(table := Marked(s.memory.table, id, item.packetKey.value)))
                    else s;
          if k in f.writes then (s1, Failed)
          else (s1.(wire := Wrote(s1.wire, k, id)), Sent)
  }

  // ---- drain_deferred_outbound_publishes ----

  /** Starts a spawned delivery, with a fresh payload key. */
  function Spawned(s: Session, publish: Publish): Session {
    var reserved := UsesSlot(s, publish);
    var s1 := if reserved then Reserved(s) else s;
    s1.(deliveries := s1.deliveries[s.nextKey := Delivery(publish, reserved, Starting)], nextKey := s.nextKey + 1)
  }

  function Unqueued(s: Session): Session
    requires s.flow.queue != []
  {
    s.(flow := s.flow.(queue := s.flow.queue[1..]))
  }

  function Requeued(s: Session, d: Deferred): Session {
    s.(flow := s.flow.(queue := [d] + s.flow.queue))
  }

  predicate Drainable(s: Session) {
    s.active && s.flow.queue != [] && (UsesSlot(s, s.flow.queue[0].publish) ==> CanReserve(s))
  }

  /** One turn of the drain loop, and whether the loop goes on. Only a clean session queues publishes without
      an entry; those start over, and having a slot they are not deferred again. */
  function DrainStep(s: Session, f: Faults): (Session, bool)
    requires Drainable(s)
  {
    var d := s.flow.queue[0];
    var s1 := Unqueued(s);
    match d.registered
    case None => (Spawned(s1, d.publish), true)
    case Some(k) =>
      var reserved := UsesSlot(s, d.publish);
      var (s2, outcome) := DeliverRegistered(if reserved then Reserved(s1) else s1, d.publish, k, f);
      match outcome
      case Sent => (s2, true)
      case Skipped => (if reserved then Released(s2) else s2, true)
      case Failed => (Requeued(if reserved then Released(s2) else s2, d), false)
  }

  /** A turn takes the front of the queue, or fails and leaves the queue as it was. */
  lemma TurnShrinksQueue(s: Session, f: Faults)
    requires Drainable(s)
    ensures var (s', more) := DrainStep(s, f);
            && s'.flow.queue == (if more then s.flow.queue[1..] else s.flow.queue)
            && s'.active && s'.profile == s.profile
  {
    assert s.flow.queue == [s.flow.queue[0]] + s.flow.queue[1..];
  }

  function Drained(s: Session, f: Faults): (r: Session)
    ensures r.profile == s.profile && r.active == s.active
    ensures |r.flow.queue| <= |s.flow.queue|
    decreases |s.flow.queue|
  {
    if !Drainable(s) then s
    else
      var (s1, more) := DrainStep(s, f);
      if more then Drained(s1, f) else s1
  }

  function ReleasedAndDrained(s: Session, f: Faults): Session {
    Drained(Released(s), f)
  }

  // ---- deliver_outbound_publish, persistent session ----

  datatype Status = SentNow | NotSent | DeferredAs(publish: Publish, key: Key) | Error

  /** The identifier a publish is sent under: its own if that is free, otherwise the least free one. */
  function ChosenId(m: Memory, publish: Publish): Option<u16> {
    if publish.packetIdentifier.Some? && publish.packetIdentifier.value !in m.table
    then publish.packetIdentifier
    else LeastFree(m.table, 1)
  }

  /** Registers the stored publish `k` under `id`, and writes it unless it has to wait. */
  function Entered(s: Session, k: Key, sent: Publish, id: u16, wait: bool, f: Faults): (Session, Status) {
    var stored := s.memory.(store := s.memory.store[k := sent]);
    var s1 := s.(memory := Registered(stored, id, sent.qos, k, s.clock, !wait));
    if wait then (s1, DeferredAs(sent, k))
    else if k in f.writes then (s1, Error)
    else (s1.(wire := Wrote(s1.wire, k, id)), SentNow)
  }

  function StoredAs(s: Session, publish: Publish): Session {
    s.(nextKey := s.nextKey + 1, memory := s.memory.(store := s.memory.store[s.nextKey := publish]))
  }

  function DeliverActive(s: Session, publish: Publish, wait: bool, f: Faults): (Session, Status) {
    if publish.qos == 0 then (s, if s.nextKey in f.writes then Error else SentNow)
    else
      var first := if publish.packetIdentifier.Some? then publish.packetIdentifier else LeastFree(s.memory.table, 1);
      if first.None? || f.put then (s, Error)
      else
        var s1 := StoredAs(s, publish.(packetIdentifier := first));
        var id := ChosenId(s.memory, publish.(packetIdentifier := first));
        if f.raft || id.None? || (id != first && f.put2) then (s1, Error)
        else Entered(s1, s.nextKey, publish.(packetIdentifier := id), id.value, wait, f)
  }

  function DeliverInactive(s: Session, publish: Publish, f: Faults): (Session, Status) {
    if publish.qos == 0 then (s, NotSent)
    else if f.put then (s, Error)
    else
      var s1 := StoredAs(s, publish);
      if f.raft then (s1, Error) else (s1.(pending := s1.pending + [s.nextKey]), NotSent)
  }

  function DeliverPersistent(s: Session, publish: Publish, wait: bool, f: Faults): (Session, Status) {
    var prepared := MessageExpiry.Prepared(publish, s.profile.version, s.clock);
    if prepared.None? then (s, NotSent)
    else if s.active then DeliverActive(s, prepared.value, wait, f)
    else DeliverInactive(s, prepared.value, f)
  }

  // ---- start_outbound_publish_delivery ----

  /** The answer to whoever routed a publish; `Later` if it comes when the spawned delivery ends. */
  datatype Answer = Ok | Err | Later

  function Accepted(s: Session, publish: Publish, f: Faults): (Session, Answer) {
    var uses := UsesSlot(s, publish);
    var wait := uses && !CanReserve(s);
    if s.profile.clean then
      if wait then (s.(flow := s.flow.(queue := s.flow.queue + [Deferred(publish, None)])), Ok)
      else (Spawned(s, publish), Later)
    else
      var reserved := uses && !wait;
      var (s1, status) := DeliverPersistent(if reserved then Reserved(s) else s, publish, wait, f);
      match status
      case SentNow => (s1, Ok)
      case DeferredAs(sent, k) => (s1.(flow := s1.flow.(queue := s1.flow.queue + [Deferred(sent, Some(k))])), Ok)
      case NotSent => (if reserved then ReleasedAndDrained(s1, f) else s1, Ok)
      case Error => (if reserved then ReleasedAndDrained(s1, f) else s1, Err)
  }

  // ---- deliver_outbound_publish, clean session: one await at a time ----

  function WithDelivery(s: Session, k: Key, d: Delivery): Session {
    s.(deliveries := s.deliveries[k := d])
  }

  function DeliveryPrepared(s: Session, k: Key, d: Delivery): Session {
    var prepared := MessageExpiry.Prepared(d.publish, s.profile.version, s.clock);
    if prepared.None? then WithDelivery(s, k, d.(phase := Ended(false)))
    else if d.publish.qos == 0 then WithDelivery(s, k, d.(phase := Ended(true)))
    else if d.publish.packetIdentifier.Some? then
      WithDelivery(s, k, d.(publish := prepared.value, phase := Storing))
    else
      var id := LeastFree(s.memory.table, 1);
      if id.None? then WithDelivery(s, k, d.(phase := Ended(false)))
      else WithDelivery(s, k, d.(publish := prepared.value.(packetIdentifier := id), phase := Storing))
  }

  function DeliveryStored(s: Session, k: Key, d: Delivery, ok: bool): Session {
    if !ok then WithDelivery(s, k, d.(phase := Ended(false)))
    else WithDelivery(s.(memory := s.memory.(store := s.memory.store[k := d.publish])), k, d.(phase := Registering))
  }

  /** The delivery writes its publish, in the same stretch as what comes before, and awaits the answer. */
  function HandedOver(s: Session, k: Key, d: Delivery, id: u16, ok: bool): Session {
    if !ok then WithDelivery(s, k, d.(phase := Ended(false)))
    else WithDelivery(s.(wire := Wrote(s.wire, k, id)), k, d.(phase := Ended(true)))
  }

  /** `ok` says whether the write works, if it comes to one. */
  function DeliveryRegistered(s: Session, k: Key, d: Delivery, ok: bool): Session
    requires d.publish.packetIdentifier.Some?
  {
    var id := ChosenId(s.memory, d.publish);
    if id.None? then WithDelivery(s, k, d.(phase := Ended(false)))
    else
      var s1 := s.(memory := Registered(s.memory, id.value, d.publish.qos, k, s.clock, true));
      if id == d.publish.packetIdentifier then HandedOver(s1, k, d, id.value, ok)
      else WithDelivery(s1, k, d.(publish := d.publish.(packetIdentifier := id), phase := Refreshing))
  }

  function DeliveryRefreshed(s: Session, k: Key, d: Delivery, stored: bool, ok: bool): Session
    requires d.publish.packetIdentifier.Some?
  {
    if !stored then WithDelivery(s, k, d.(phase := Ended(false)))
    else
      var s1 := s.(memory := s.memory.(store := s.memory.store[k := d.publish]));
      HandedOver(s1, k, d, d.publish.packetIdentifier.value, ok)
  }

  function DeliveryCompleted(s: Session, k: Key, d: Delivery, f: Faults): Session {
    var s1 := s.(deliveries := s.deliveries - {k});
    if d.reserved && d.phase == Ended(false) then ReleasedAndDrained(s1, f) else s1
  }

  // ---- acknowledgements ----

  /** The client answers: `acked` is the outstanding packet it means, if there is one. */
  function Answered(s: Session, acked: Option<Copy>): Session {
    if acked.None? then s
    else s.(wire := s.wire.(outstanding := s.wire.outstanding - {acked.value}))
  }

  function AdvancedMemory(m: Memory, id: u16, now: u64): Memory {
    m.(table := Advanced(m.table, id, now))
  }

  predicate InState(m: Memory, id: u16, state: InflightState) {
    id in m.table && m.table[id].state == state
  }

  function PubackHandled(s: Session, id: u16, acked: Option<Copy>, f: Faults): Session {
    var s1 := Answered(s, acked);
    if !InState(s1.memory, id, WaitPuback) || (!s.profile.clean && f.raft) then s1
    else
      var m := AdvancedMemory(s1.memory, id, s.clock);
      ReleasedAndDrained(s1.(memory := if s.profile.clean || f.cleanup then m else CleanedMemory(m)), f)
  }

  function PubrecHandled(s: Session, id: u16, acked: Option<Copy>, f: Faults): Session {
    var s1 := Answered(s, acked);
    if !InState(s1.memory, id, WaitPubrec) then s1
    else if f.control then ReleasedAndDrained(s1, f)
    else if !s.profile.clean && f.raft then s1
    else ReleasedAndDrained(s1.(memory := AdvancedMemory(s1.memory, id, s.clock)), f)
  }

  /** PUBCOMP, and PUBREL once its PUBCOMP is out, advance the entry without looking at its state. */
  function FinalAckHandled(s: Session, id: u16, f: Faults): Session {
    if f.control || (!s.profile.clean && f.raft) then s
    else
      var m := AdvancedMemory(s.memory, id, s.clock);
      s.(memory := if s.profile.clean || f.cleanup then m else CleanedMemory(m))
  }

  /** A received QoS 1 or 2 publish is stored and takes its identifier. */
  function PublishReceived(s: Session, id: u16, publish: Publish): Session {
    if publish.qos != 1 && publish.qos != 2 then s
    else
      var k := s.nextKey;
      s.(nextKey := k + 1,
         memory := Memory(RxRegistered(s.memory.table, id, publish.qos, k, s.clock),
                          s.memory.store[k := publish.(packetIdentifier := Some(id))],
                          s.memory.idOf[k := id]))
  }

  // ---- cleanup_expired_unsent ----

  predicate ExpiredUnsent(m: Memory, id: u16, now: u64) {
    && id in m.table && !m.table[id].deliveryStarted && m.table[id].packetKey.Some?
    && m.table[id].packetKey.value in m.store
    && MessageExpiry.IsExpired(m.store[m.table[id].packetKey.value], now)
  }

  /** The expired entries whose removal is not refused; `spared` are the others. */
  function ExpiredUnsentIds(m: Memory, now: u64, spared: set<u16>): set<u16> {
    set id | id in m.table && ExpiredUnsent(m, id, now) && id !in spared
  }

  function Removable(m: Memory, now: u64, spared: set<u16>): set<u16> {
    set id | id in m.table && ExpiredUnsent(m, id, now) && IsWaiting(m.table[id].state) && id !in spared
  }

  function ExpiredCleaned(m: Memory, now: u64, spared: set<u16>): Memory {
    m.(table := m.table - Removable(m, now, spared), store := m.store - KeysAt(m.table, Removable(m, now, spared)))
  }

  /** Only a persistent session asks the replicated state first. */
  function Spared(s: Session, f: Faults): set<u16> {
    if s.profile.clean then {} else f.discards
  }

  function ExpiryPass(s: Session, f: Faults): (Session, set<u16>) {
    (s.(memory := ExpiredCleaned(s.memory, s.clock, Spared(s, f))), ExpiredUnsentIds(s.memory, s.clock, Spared(s, f)))
  }

  // ---- InflightRetry ----

  /** The stored publish of a waiting entry that may still be sent. */
  predicate Resendable(m: Memory, id: u16, now: u64) {
    && id in m.table && IsWaiting(m.table[id].state) && m.table[id].packetKey.Some?
    && m.table[id].packetKey.value in m.store
    && !MessageExpiry.IsExpired(m.store[m.table[id].packetKey.value], now)
  }

  function QueuedIds(queue: seq<Deferred>): set<u16> {
    set d | d in queue && d.registered.Some? && d.publish.packetIdentifier.Some? :: d.publish.packetIdentifier.value
  }

  /** The entries one retry pass sends again. */
  function Retried(m: Memory, queue: seq<Deferred>, due: set<u16>, now: u64): set<u16> {
    set id | id in due && id !in QueuedIds(queue) && Resendable(m, id, now)
  }

  /** A publish as a retry pass writes it for the entry `id`. */
  function Resent(m: Memory, id: u16): Publish
    requires id in m.table && m.table[id].packetKey.Some? && m.table[id].packetKey.value in m.store
  {
    m.store[m.table[id].packetKey.value].(dup := true)
  }

  function Without(queue: seq<Deferred>, ids: set<u16>): seq<Deferred> {
    if queue == [] then []
    else if queue[0].publish.packetIdentifier.Some? && queue[0].publish.packetIdentifier.value in ids
    then Without(queue[1..], ids)
    else [queue[0]] + Without(queue[1..], ids)
  }

  /** The identifier a stored publish carries; only a publish that was never registered carries none. */
  function Carried(publish: Publish): u16 {
    if publish.packetIdentifier.Some? then publish.packetIdentifier.value else 0
  }

  /** The packets a retry pass writes for these entries. */
  function CopiesAt(m: Memory, ids: set<u16>, failing: set<Key>): set<Copy> {
    set id | id in ids && id in m.table && m.table[id].packetKey.Some? && m.table[id].packetKey.value in m.store
             && m.table[id].packetKey.value !in failing
           :: Copy(m.table[id].packetKey.value, Carried(m.store[m.table[id].packetKey.value]))
  }

  function KeysOf(copies: set<Copy>): set<Key> {
    set c | c in copies :: c.key
  }

  /** The state of a retry pass when it comes to the queue. */
  function RetrySent(s: Session, due: set<u16>, f: Faults): Session {
    var (s1, removed) := ExpiryPass(s, f);
    var sent := CopiesAt(s1.memory, Retried(s1.memory, s.flow.queue, due, s.clock), f.writes);
    s1.(memory := s1.memory.(table := Refreshed(s1.memory.table, due, s.clock)),
        wire := Wire(s1.wire.outstanding + sent, s1.wire.written + KeysOf(sent)),
        flow := s1.flow.(queue := Without(s1.flow.queue, removed)))
  }

  function RetryHandled(s: Session, due: set<u16>, f: Faults): Session {
    Drained(RetrySent(s, due, f), f)
  }

  // ---- AllInflightRetryImmediate: recovery at actor start ----

  /** The queue of recovered publishes, by identifier. */
  function Recovered(m: Memory, now: u64, n: int): seq<Deferred>
    requires 0 <= n <= U16_MAX + 1
  {
    if n == 0 then []
    else Recovered(m, now, n - 1) +
         (if Resendable(m, n - 1, now) then [Deferred(Resent(m, n - 1), m.table[n - 1].packetKey)] else [])
  }

  /** The state of recovery when it comes to the queue. */
  function RecoveryQueued(s: Session, f: Faults): Session {
    var s1 := ExpiryPass(s, f).0;
    s1.(memory := s1.memory.(table := Refreshed(s1.memory.table, s1.memory.table.Keys, s.clock)),
        flow := s1.flow.(queue := s1.flow.queue + Recovered(s1.memory, s.clock, U16_MAX + 1)))
  }

  function RecoveryHandled(s: Session, f: Faults): Session {
    Drained(RecoveryQueued(s, f), f)
  }

  // ---- the transition system ----

  datatype Action =
    | Tick(to: u64)
    | Outbound(publish: Publish, f: Faults)
    | Prepare(k: Key)
    | Put(k: Key, ok: bool)
    | Register(k: Key, ok: bool)
    | Refresh(k: Key, stored: bool, ok: bool)
    | Complete(k: Key, f: Faults)
    | Puback(id: u16, acked: Option<Copy>, f: Faults)
    | Pubrec(id: u16, acked: Option<Copy>, f: Faults)
    | FinalAck(id: u16, f: Faults)
    | Inbound(id: u16, publish: Publish)
    | Cleanup
    | InflightRetry(due: set<u16>, f: Faults)
    | Deactivate

  predicate At(s: Session, k: Key, phase: Phase) {
    k in s.deliveries && s.deliveries[k].phase == phase
  }

  predicate Enabled(s: Session, a: Action) {
    match a
    case Tick(to) => s.clock <= to
    case Outbound(publish, _) => publish.qos <= 2
    case Prepare(k) => At(s, k, Starting)
    case Put(k, _) => At(s, k, Storing)
    case Register(k, _) => At(s, k, Registering) && s.deliveries[k].publish.packetIdentifier.Some?
    case Refresh(k, _, _) => At(s, k, Refreshing) && s.deliveries[k].publish.packetIdentifier.Some?
    case Complete(k, _) => k in s.deliveries && s.deliveries[k].phase.Ended?
    case Inbound(_, publish) => publish.qos <= 2
    case Deactivate => !s.profile.clean
    case _ => true
  }

  function Apply(s: Session, a: Action): Session
    requires Enabled(s, a)
  {
    match a
    case Tick(to) => s.(clock := to)
    case Outbound(publish, f) => Accepted(s, publish, f).0
    case Prepare(k) => DeliveryPrepared(s, k, s.deliveries[k])
    case Put(k, ok) => DeliveryStored(s, k, s.deliveries[k], ok)
    case Register(k, ok) => DeliveryRegistered(s, k, s.deliveries[k], ok)
    case Refresh(k, stored, ok) => DeliveryRefreshed(s, k, s.deliveries[k], stored, ok)
    case Complete(k, f) => DeliveryCompleted(s, k, s.deliveries[k], f)
    case Puback(id, acked, f) => PubackHandled(s, id, acked, f)
    case Pubrec(id, acked, f) => PubrecHandled(s, id, acked, f)
    case FinalAck(id, f) => FinalAckHandled(s, id, f)
    case Inbound(id, publish) => PublishReceived(s, id, publish)
    case Cleanup => s.(memory := CleanedMemory(s.memory))
    case InflightRetry(due, f) => RetryHandled(s, due, f)
    case Deactivate => s.(active := false)
  }

  /** `run` is a run of one connection: it starts with recovery from the state that was kept, handled first. */
  ghost predicate IsRun(kept: Session, f: Faults, run: seq<Session>, acts: seq<Action>) {
    && |run| == |acts| + 1
    && run[0] == RecoveryHandled(kept, f)
    && (forall i :: 0 <= i < |acts| ==> Enabled(run[i], acts[i]) && run[i + 1] == Apply(run[i], acts[i]))
  }
}
