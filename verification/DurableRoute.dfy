/** The durable cross-node route protocol: an outbox on the sending node, an inbox on the receiving
    node, and handlers that run as tasks over snapshots of rows.

    A task is one running copy of a handler, stopped at one of its awaits. Tasks interleave freely,
    several may hold a snapshot of the same row, any of them may die, and every store write may fail
    with or without taking effect. The network keeps every request ever sent and may deliver it any
    number of times, at any time, in any order, or never; replies may be lost. */
module DurableRoute {
  import opened MqttTypes
  import MessageExpiry

  /** A UUID: only its identity matters. */
  type RouteId = nat
  type TaskId = nat

  datatype Config = Config(maxRetryCount: nat, retryInterval: nat, ttl: u64)

  datatype OutboxItem = OutboxItem(
    routeId: RouteId, tenantId: string, targetClientId: string,
    retryAt: nat, attempts: nat, expiryAt: u64)

  datatype InboxStatus = Pending | Completed

  datatype InboxItem = InboxItem(
    routeId: RouteId, tenantId: string, targetClientId: string,
    retryAt: nat, attempts: nat, expiryAt: u64,
    status: InboxStatus, completedAt: Option<u64>)

  /** The request that crosses the network. */
  datatype RouteRequest = RouteRequest(
    routeId: RouteId, tenantId: string, targetClientId: string, packet: Publish, expiryAt: u64)

  /** What the sender decided when it drew the route's identifier. */
  datatype Issue = Issue(
    tenantId: string, targetClientId: string, packet: Publish, createdAt: u64, expiryAt: u64)

  /** A session acknowledged a routed publish. */
  datatype Handoff = Handoff(routeId: RouteId, tenantId: string, targetClientId: string, packet: Publish)

  /** A request left the sender; `at` is the time its handler acted on. */
  datatype Transmission = Transmission(routeId: RouteId, at: u64)

  datatype EnqueuePhase = PutPayload | PutRow | UndoPayload

  /** A running handler, named by what it does next. */
  datatype Task =
    // dispatch of an outbox row
    | Dispatch(out: OutboxItem)
    | FetchOut(out: OutboxItem, now: u64)
    | AwaitReply(out: OutboxItem, now: u64)
    | PutRetryOut(out: OutboxItem)
    | DeleteRow(id: RouteId, strict: bool)
    | DeleteOutPayload(id: RouteId)
    // acceptance of a request
    | Lookup(request: RouteRequest)
    | PutInPayload(request: RouteRequest)
    | InsertRow(row: InboxItem)
    // processing of an inbox row
    | Process(row: InboxItem)
    | FetchIn(row: InboxItem, now: u64)
    | HandOff(row: InboxItem, now: u64, packet: Publish)
    | PutCompleted(row: InboxItem)
    | PutRetryIn(row: InboxItem)
    | DeleteInPayload(id: RouteId)
    // the sweeper of completed rows
    | Sweep(now: u64)
    | SweepRow(id: RouteId)

  /** What survives a crash. */
  datatype Disk = Disk(
    outbox: map<RouteId, OutboxItem>,
    outPayloads: map<RouteId, Publish>,
    inbox: map<RouteId, InboxItem>,
    inPayloads: map<RouteId, Publish>)

  /** What has happened so far; the handlers never read it. */
  datatype Log = Log(
    issued: map<RouteId, Issue>,
    enqueued: set<RouteId>,
    handoffs: seq<Handoff>,
    dropped: set<RouteId>,
    refused: nat,
    transmissions: seq<Transmission>,
    removed: set<RouteId>)

  datatype State = State(
    clock: u64,
    disk: Disk,
    sent: set<RouteRequest>,
    okReplies: set<RouteId>,
    tasks: map<TaskId, Task>,
    enqueuing: map<RouteId, EnqueuePhase>,
    log: Log)

  /** How a store write ends. */
  datatype Write = Done | FailedApplied | FailedLost

  datatype Action =
    | Tick(to: u64)
    | Die(t: TaskId)
    | Enqueue(id: RouteId, tenantId: string, targetClientId: string, packet: Publish)
    | EnqueuePutPayload(id: RouteId, w: Write)
    | EnqueuePutRow(id: RouteId, w: Write, t: TaskId)
    | EnqueueUndo(id: RouteId, w: Write)
    | EnqueueDie(id: RouteId)
    | ScanOutbox(id: RouteId, t: TaskId)
    | DispatchStart(t: TaskId, resolved: bool)
    | ReadOut(t: TaskId, readable: bool)
    | Reply(t: TaskId, ok: bool)
    | Receive(request: RouteRequest, t: TaskId)
    | LookUp(t: TaskId, readable: bool)
    | ScanInbox(id: RouteId, t: TaskId)
    | ProcessStart(t: TaskId)
    | ReadIn(t: TaskId, readable: bool)
    | SessionAnswer(t: TaskId, ok: bool)
    | SweepStart(t: TaskId)
    | SweepPick(t: TaskId, id: RouteId, victim: TaskId)
    | Store(t: TaskId, w: Write)

  function Init(clock: u64): State {
    State(clock, Disk(map[], map[], map[], map[]), {}, {}, map[], map[], Log(map[], {}, [], {}, 0, [], {}))
  }

  // ---- values the handlers build ----

  function NewOutboxItem(id: RouteId, issue: Issue): OutboxItem {
    OutboxItem(id, issue.tenantId, issue.targetClientId, issue.createdAt, 0, issue.expiryAt)
  }

  function RetriedOut(cfg: Config, out: OutboxItem, now: u64): OutboxItem {
    out.(attempts := out.attempts + 1, retryAt := now + cfg.retryInterval)
  }

  function RequestFor(out: OutboxItem, packet: Publish): RouteRequest {
    RouteRequest(out.routeId, out.tenantId, out.targetClientId, packet, out.expiryAt)
  }

  function NewInboxItem(cfg: Config, m: RouteRequest, now: u64): InboxItem {
    InboxItem(m.routeId, m.tenantId, m.targetClientId, now, 0,
              if m.expiryAt > 0 then m.expiryAt else SaturatingAdd(now, cfg.ttl),
              Pending, None)
  }

  function CompletedIn(row: InboxItem, now: u64): InboxItem {
    row.(status := Completed, completedAt := Some(now))
  }

  function RetriedIn(cfg: Config, row: InboxItem, now: u64): InboxItem {
    row.(attempts := row.attempts + 1, retryAt := now + cfg.retryInterval)
  }

  // ---- bookkeeping ----

  function Continue(s: State, t: TaskId, task: Task): State {
    s.(tasks := s.tasks[t := task])
  }

  function End(s: State, t: TaskId): State {
    s.(tasks := s.tasks - {t})
  }

  function Drop(s: State, id: RouteId): State {
    s.(log := s.log.(dropped := s.log.dropped + {id}))
  }

  predicate Applied(w: Write) {
    w != FailedLost
  }

  // ---- enqueue_durable_remote_route ----

  function Enqueued(cfg: Config, s: State, a: Action): State
    requires a.Enqueue?
  {
    var expiryAt := MessageExpiry.RouteExpiryAt(a.packet, cfg.ttl, s.clock);
    if expiryAt <= s.clock then s.(log := s.log.(refused := s.log.refused + 1))
    else
      var issue := Issue(a.tenantId, a.targetClientId, a.packet, s.clock, expiryAt);
      s.(log := s.log.(issued := s.log.issued[a.id := issue]), enqueuing := s.enqueuing[a.id := PutPayload])
  }

  function PayloadEnqueued(s: State, id: RouteId, w: Write): State
    requires id in s.log.issued
  {
    var packet := s.log.issued[id].packet;
    var s1 := if Applied(w) then s.(disk := s.disk.(outPayloads := s.disk.outPayloads[id := packet])) else s;
    if w.Done? then s1.(enqueuing := s1.enqueuing[id := PutRow])
    else s1.(enqueuing := s1.enqueuing - {id})
  }

  function RowEnqueued(s: State, id: RouteId, w: Write, t: TaskId): State
    requires id in s.log.issued
  {
    var item := NewOutboxItem(id, s.log.issued[id]);
    var s1 := if Applied(w) then s.(disk := s.disk.(outbox := s.disk.outbox[id := item])) else s;
    if w.Done?
    then Continue(s1.(enqueuing := s1.enqueuing - {id}, log := s1.log.(enqueued := s1.log.enqueued + {id})),
                  t, Dispatch(item))
    else s1.(enqueuing := s1.enqueuing[id := UndoPayload])
  }

  function EnqueueUndone(s: State, id: RouteId, w: Write): State {
    var s1 := if Applied(w) then s.(disk := s.disk.(outPayloads := s.disk.outPayloads - {id})) else s;
    s1.(enqueuing := s1.enqueuing - {id})
  }

  // ---- dispatch_outbox_item ----

  function Dispatched(cfg: Config, s: State, t: TaskId, out: OutboxItem, resolved: bool): State {
    if out.expiryAt <= s.clock || out.attempts >= cfg.maxRetryCount
    then Continue(Drop(s, out.routeId), t, DeleteRow(out.routeId, false))
    else if out.retryAt > s.clock then End(s, t)
    else if !resolved then Continue(s, t, PutRetryOut(RetriedOut(cfg, out, s.clock)))
    else Continue(s, t, FetchOut(out, s.clock))
  }

  function OutRead(s: State, t: TaskId, out: OutboxItem, now: u64, readable: bool): State {
    if !readable || out.routeId !in s.disk.outPayloads then End(s, t)
    else
      var packet := s.disk.outPayloads[out.routeId];
      if MessageExpiry.IsExpired(packet, now)
      then Continue(Drop(s, out.routeId), t, DeleteRow(out.routeId, false))
      else Continue(s.(sent := s.sent + {RequestFor(out, packet)},
                       log := s.log.(transmissions := s.log.transmissions + [Transmission(out.routeId, now)])),
                    t, AwaitReply(out, now))
  }

  function Replied(cfg: Config, s: State, t: TaskId, out: OutboxItem, now: u64, ok: bool): State {
    if ok then Continue(s, t, DeleteRow(out.routeId, true))
    else Continue(s, t, PutRetryOut(RetriedOut(cfg, out, now)))
  }

  // ---- accept_route_from_other_node ----

  function Received(s: State, m: RouteRequest, t: TaskId): State {
    if MessageExpiry.IsExpired(m.packet, s.clock)
    then Drop(s, m.routeId).(okReplies := s.okReplies + {m.routeId})
    else Continue(s, t, Lookup(m))
  }

  function LookedUp(s: State, t: TaskId, m: RouteRequest, readable: bool): State {
    if !readable then End(s, t)
    else if m.routeId in s.disk.inbox then End(s.(okReplies := s.okReplies + {m.routeId}), t)
    else Continue(s, t, PutInPayload(m))
  }

  // ---- process_inbox_item ----

  function Processed(cfg: Config, s: State, t: TaskId, row: InboxItem): State {
    if row.status.Completed? then End(s, t)
    else if row.expiryAt <= s.clock || row.attempts >= cfg.maxRetryCount
    then Continue(Drop(s, row.routeId), t, PutCompleted(CompletedIn(row, s.clock)))
    else if row.retryAt > s.clock then End(s, t)
    else Continue(s, t, FetchIn(row, s.clock))
  }

  function InRead(s: State, t: TaskId, row: InboxItem, now: u64, readable: bool): State {
    if !readable || row.routeId !in s.disk.inPayloads then End(s, t)
    else
      var packet := s.disk.inPayloads[row.routeId];
      if MessageExpiry.IsExpired(packet, now)
      then Continue(Drop(s, row.routeId), t, PutCompleted(CompletedIn(row, now)))
      else Continue(s, t, HandOff(row, now, packet))
  }

  function Answered(cfg: Config, s: State, t: TaskId, task: Task, ok: bool): State
    requires task.HandOff?
  {
    var row := task.row;
    var handoff := Handoff(row.routeId, row.tenantId, row.targetClientId, task.packet);
    if ok
    then Continue(s.(log := s.log.(handoffs := s.log.handoffs + [handoff])),
                  t, PutCompleted(CompletedIn(row, task.now)))
    else Continue(s, t, PutRetryIn(RetriedIn(cfg, row, task.now)))
  }

  // ---- cleanup_completed_inbox_items ----

  predicate Sweepable(cfg: Config, row: InboxItem, now: u64) {
    && row.status.Completed?
    && row.completedAt.Some?
    && SaturatingSub(now, row.completedAt.value) >= cfg.ttl
  }

  // ---- the one store write a task is waiting for ----

  predicate IsWrite(task: Task) {
    || task.PutRetryOut? || task.DeleteRow? || task.DeleteOutPayload?
    || task.PutInPayload? || task.InsertRow?
    || task.PutCompleted? || task.PutRetryIn? || task.DeleteInPayload?
    || task.SweepRow?
  }

  function OutRetryStored(s: State, t: TaskId, out: OutboxItem, w: Write): State {
    End(if Applied(w) then s.(disk := s.disk.(outbox := s.disk.outbox[out.routeId := out])) else s, t)
  }

  function RowDeleted(s: State, t: TaskId, id: RouteId, strict: bool, w: Write): State {
    var s1 := if Applied(w)
              then s.(disk := s.disk.(outbox := s.disk.outbox - {id}), log := s.log.(removed := s.log.removed + {id}))
              else s;
    if w.Done? || !strict then Continue(s1, t, DeleteOutPayload(id)) else End(s1, t)
  }

  function OutPayloadDeleted(s: State, t: TaskId, id: RouteId, w: Write): State {
    End(if Applied(w) then s.(disk := s.disk.(outPayloads := s.disk.outPayloads - {id})) else s, t)
  }

  function InPayloadStored(cfg: Config, s: State, t: TaskId, m: RouteRequest, w: Write): State {
    var s1 := if Applied(w) then s.(disk := s.disk.(inPayloads := s.disk.inPayloads[m.routeId := m.packet])) else s;
    if w.Done? then Continue(s1, t, InsertRow(NewInboxItem(cfg, m, s.clock))) else End(s1, t)
  }

  function RowStored(s: State, row: InboxItem, w: Write): State {
    if Applied(w) then s.(disk := s.disk.(inbox := s.disk.inbox[row.routeId := row])) else s
  }

  /** The row is on disk, so the request is answered and the row's processing starts. */
  function RowInserted(s: State, t: TaskId, row: InboxItem, w: Write): State {
    var s1 := RowStored(s, row, w);
    if w.Done?
    then Continue(s1.(okReplies := s1.okReplies + {row.routeId}), t, Process(row))
    else End(s1, t)
  }

  function CompletionStored(s: State, t: TaskId, row: InboxItem, w: Write): State {
    var s1 := RowStored(s, row, w);
    if w.Done? then Continue(s1, t, DeleteInPayload(row.routeId)) else End(s1, t)
  }

  function InPayloadDeleted(s: State, t: TaskId, id: RouteId, w: Write): State {
    End(if Applied(w) then s.(disk := s.disk.(inPayloads := s.disk.inPayloads - {id})) else s, t)
  }

  function RowSwept(s: State, t: TaskId, id: RouteId, w: Write): State {
    End(if Applied(w) then s.(disk := s.disk.(inbox := s.disk.inbox - {id})) else s, t)
  }

  function Stored(cfg: Config, s: State, t: TaskId, task: Task, w: Write): State
    requires IsWrite(task)
  {
    match task
    case PutRetryOut(out) => OutRetryStored(s, t, out, w)
    case DeleteRow(id, strict) => RowDeleted(s, t, id, strict, w)
    case DeleteOutPayload(id) => OutPayloadDeleted(s, t, id, w)
    case PutInPayload(m) => InPayloadStored(cfg, s, t, m, w)
    case InsertRow(row) => RowInserted(s, t, row, w)
    case PutCompleted(row) => CompletionStored(s, t, row, w)
    case PutRetryIn(row) => End(RowStored(s, row, w), t)
    case DeleteInPayload(id) => InPayloadDeleted(s, t, id, w)
    case SweepRow(id) => RowSwept(s, t, id, w)
  }

  // ---- the transition system ----

  predicate Enabled(cfg: Config, s: State, a: Action) {
    match a
    case Tick(to) => s.clock <= to
    case Die(t) => t in s.tasks
    case Enqueue(id, _, _, _) => id !in s.log.issued
    case EnqueuePutPayload(id, _) => id in s.log.issued && id in s.enqueuing && s.enqueuing[id].PutPayload?
    case EnqueuePutRow(id, _, t) =>
      id in s.log.issued && id in s.enqueuing && s.enqueuing[id].PutRow? && t !in s.tasks
    case EnqueueUndo(id, _) => id in s.enqueuing && s.enqueuing[id].UndoPayload?
    case EnqueueDie(id) => id in s.enqueuing
    case ScanOutbox(id, t) => id in s.disk.outbox && t !in s.tasks
    case DispatchStart(t, _) => t in s.tasks && s.tasks[t].Dispatch?
    case ReadOut(t, _) => t in s.tasks && s.tasks[t].FetchOut?
    case Reply(t, ok) =>
      t in s.tasks && s.tasks[t].AwaitReply? && (ok ==> s.tasks[t].out.routeId in s.okReplies)
    case Receive(m, t) => m in s.sent && t !in s.tasks
    case LookUp(t, _) => t in s.tasks && s.tasks[t].Lookup?
    case ScanInbox(id, t) => id in s.disk.inbox && t !in s.tasks
    case ProcessStart(t) => t in s.tasks && s.tasks[t].Process?
    case ReadIn(t, _) => t in s.tasks && s.tasks[t].FetchIn?
    case SessionAnswer(t, _) => t in s.tasks && s.tasks[t].HandOff?
    case SweepStart(t) => t !in s.tasks
    case SweepPick(t, id, victim) =>
      && t in s.tasks && s.tasks[t].Sweep? && victim !in s.tasks
      && id in s.disk.inbox && Sweepable(cfg, s.disk.inbox[id], s.tasks[t].now)
    case Store(t, _) => t in s.tasks && IsWrite(s.tasks[t])
  }

  function Apply(cfg: Config, s: State, a: Action): State
    requires Enabled(cfg, s, a)
  {
    match a
    case Tick(to) => s.(clock := to)
    case Die(t) => End(s, t)
    case Enqueue(_, _, _, _) => Enqueued(cfg, s, a)
    case EnqueuePutPayload(id, w) => PayloadEnqueued(s, id, w)
    case EnqueuePutRow(id, w, t) => RowEnqueued(s, id, w, t)
    case EnqueueUndo(id, w) => EnqueueUndone(s, id, w)
    case EnqueueDie(id) => s.(enqueuing := s.enqueuing - {id})
    case ScanOutbox(id, t) => Continue(s, t, Dispatch(s.disk.outbox[id]))
    case DispatchStart(t, resolved) => Dispatched(cfg, s, t, s.tasks[t].out, resolved)
    case ReadOut(t, readable) => OutRead(s, t, s.tasks[t].out, s.tasks[t].now, readable)
    case Reply(t, ok) => Replied(cfg, s, t, s.tasks[t].out, s.tasks[t].now, ok)
    case Receive(m, t) => Received(s, m, t)
    case LookUp(t, readable) => LookedUp(s, t, s.tasks[t].request, readable)
    case ScanInbox(id, t) => Continue(s, t, Process(s.disk.inbox[id]))
    case ProcessStart(t) => Processed(cfg, s, t, s.tasks[t].row)
    case ReadIn(t, readable) => InRead(s, t, s.tasks[t].row, s.tasks[t].now, readable)
    case SessionAnswer(t, ok) => Answered(cfg, s, t, s.tasks[t], ok)
    case SweepStart(t) => Continue(s, t, Sweep(s.clock))
    case SweepPick(_, id, victim) => Continue(s, victim, SweepRow(id))
    case Store(t, w) => Stored(cfg, s, t, s.tasks[t], w)
  }

  /** `run` is a run of the protocol from an empty cluster, driven by `acts`. */
  ghost predicate IsRun(cfg: Config, run: seq<State>, acts: seq<Action>) {
    && |run| == |acts| + 1
    && run[0] == Init(run[0].clock)
    && (forall i :: 0 <= i < |acts| ==> Enabled(cfg, run[i], acts[i]) && run[i + 1] == Apply(cfg, run[i], acts[i]))
  }

  // ---- what the theorems speak of ----

  /** A session acknowledged the route. */
  ghost predicate Handed(log: Log, id: RouteId) {
    exists i :: 0 <= i < |log.handoffs| && log.handoffs[i].routeId == id
  }

  /** On the sender's disk: the row, and the very packet that was enqueued. */
  predicate OnSenderDisk(s: State, id: RouteId) {
    && id in s.log.issued && id in s.disk.outbox && id in s.disk.outPayloads
    && s.disk.outPayloads[id] == s.log.issued[id].packet
  }

  /** On the receiver's disk: a row still to be processed, and the very packet that was enqueued. */
  predicate OnReceiverDisk(s: State, id: RouteId) {
    && id in s.log.issued && id in s.disk.inbox && id in s.disk.inPayloads
    && s.disk.inbox[id].status.Pending?
    && s.disk.inPayloads[id] == s.log.issued[id].packet
  }
}
