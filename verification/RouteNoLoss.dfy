/** No silent loss: whatever fails, crashes, repeats or runs on a stale snapshot, an enqueued route is
    handed over, counted as dropped, or still on one of the two disks. */
module RouteNoLoss {
  import opened MqttTypes
  import opened DurableRoute

  // ---- stable facts: once true of a route, true for ever ----

  /** The route's fate is decided. */
  ghost predicate Final(log: Log, id: RouteId) {
    id in log.dropped || Handed(log, id)
  }

  /** The receiver holds the payload, or no longer needs it. */
  ghost predicate Stocked(disk: Disk, log: Log, id: RouteId) {
    id in disk.inPayloads || Final(log, id)
  }

  /** The sender may forget the route. */
  ghost predicate Secured(disk: Disk, log: Log, id: RouteId) {
    Final(log, id) || (id in disk.inbox && disk.inbox[id].status.Pending? && id in disk.inPayloads)
  }

  /** `s2` came after `s1`, as far as the route `id` can tell. */
  ghost predicate Later(s1: State, s2: State, id: RouteId) {
    && s1.clock <= s2.clock
    && (id in s1.log.issued ==> id in s2.log.issued && s2.log.issued[id] == s1.log.issued[id])
    && (Final(s1.log, id) ==> Final(s2.log, id))
    && (Stocked(s1.disk, s1.log, id) ==> Stocked(s2.disk, s2.log, id))
    && (Secured(s1.disk, s1.log, id) ==> Secured(s2.disk, s2.log, id))
  }

  // ---- the invariant ----

  predicate OutOk(log: Log, out: OutboxItem) {
    && out.routeId in log.issued
    && var issue := log.issued[out.routeId];
       out.tenantId == issue.tenantId && out.targetClientId == issue.targetClientId && out.expiryAt == issue.expiryAt
  }

  predicate RequestOk(log: Log, m: RouteRequest) {
    && m.routeId in log.issued
    && var issue := log.issued[m.routeId];
       m == RouteRequest(m.routeId, issue.tenantId, issue.targetClientId, issue.packet, issue.expiryAt)
  }

  predicate RowOk(log: Log, row: InboxItem) {
    && row.routeId in log.issued
    && var issue := log.issued[row.routeId];
       row.tenantId == issue.tenantId && row.targetClientId == issue.targetClientId && row.expiryAt == issue.expiryAt
  }

  predicate HandoffOk(log: Log, h: Handoff) {
    && h.routeId in log.issued
    && var issue := log.issued[h.routeId];
       h == Handoff(h.routeId, issue.tenantId, issue.targetClientId, issue.packet)
  }

  ghost predicate TaskOk(clock: u64, disk: Disk, log: Log, task: Task) {
    match task
    case Dispatch(out) => OutOk(log, out)
    case FetchOut(out, now) => OutOk(log, out) && now <= clock
    case AwaitReply(out, now) => OutOk(log, out) && now <= clock
    case PutRetryOut(out) => OutOk(log, out)
    case DeleteRow(id, _) => Secured(disk, log, id)
    case DeleteOutPayload(id) => Secured(disk, log, id)
    case Lookup(m) => RequestOk(log, m)
    case PutInPayload(m) => RequestOk(log, m)
    case InsertRow(row) => RowOk(log, row) && row.status.Pending? && Stocked(disk, log, row.routeId)
    case Process(row) => RowOk(log, row)
    case FetchIn(row, now) => RowOk(log, row) && row.status.Pending? && now <= clock
    case HandOff(row, now, packet) =>
      && RowOk(log, row) && row.status.Pending? && Stocked(disk, log, row.routeId) && now <= clock
      && packet == log.issued[row.routeId].packet
    case PutCompleted(row) => RowOk(log, row) && row.status.Completed? && Final(log, row.routeId)
    case PutRetryIn(row) => RowOk(log, row) && row.status.Pending? && Stocked(disk, log, row.routeId)
    case DeleteInPayload(id) => Final(log, id)
    case Sweep(now) => now <= clock
    case SweepRow(id) => Final(log, id)
  }

  predicate IssueOk(cfg: Config, clock: u64, issue: Issue) {
    issue.createdAt <= clock && issue.createdAt < issue.expiryAt <= issue.createdAt + cfg.ttl
  }

  ghost predicate RouteOk(cfg: Config, clock: u64, disk: Disk, log: Log, id: RouteId) {
    && (id in log.issued ==> IssueOk(cfg, clock, log.issued[id]))
    && (id in log.dropped ==> id in log.issued)
    && (id in disk.outbox ==> disk.outbox[id].routeId == id && OutOk(log, disk.outbox[id]))
    && (id in disk.outPayloads ==> id in log.issued && disk.outPayloads[id] == log.issued[id].packet)
    && (id in disk.inbox ==>
          && disk.inbox[id].routeId == id && RowOk(log, disk.inbox[id])
          && Stocked(disk, log, id) && (disk.inbox[id].status.Completed? ==> Final(log, id)))
    && (id in disk.inPayloads ==> id in log.issued && disk.inPayloads[id] == log.issued[id].packet)
    && (id in log.enqueued ==>
          id in log.issued && (Secured(disk, log, id) || (id in disk.outbox && id in disk.outPayloads)))
  }

  ghost predicate RouteInv(cfg: Config, s: State, id: RouteId) {
    && RouteOk(cfg, s.clock, s.disk, s.log, id)
    && (id in s.okReplies ==> Secured(s.disk, s.log, id))
    && (id in s.enqueuing ==>
          && id in s.log.issued && id !in s.log.enqueued
          && (s.enqueuing[id].PutRow? ==> id in s.disk.outPayloads || Secured(s.disk, s.log, id)))
  }

  ghost predicate Inv(cfg: Config, s: State) {
    && (forall id :: RouteInv(cfg, s, id))
    && (forall t :: t in s.tasks ==> TaskOk(s.clock, s.disk, s.log, s.tasks[t]))
    && (forall m :: m in s.sent ==> RequestOk(s.log, m))
    && (forall i :: 0 <= i < |s.log.handoffs| ==> HandoffOk(s.log, s.log.handoffs[i]))
  }

  // ---- every step keeps it ----

  /** The route a task works on; the sweeper itself works on none. */
  function RouteOf(task: Task): Option<RouteId> {
    match task
    case Dispatch(out) => Some(out.routeId)
    case FetchOut(out, _) => Some(out.routeId)
    case AwaitReply(out, _) => Some(out.routeId)
    case PutRetryOut(out) => Some(out.routeId)
    case DeleteRow(id, _) => Some(id)
    case DeleteOutPayload(id) => Some(id)
    case Lookup(m) => Some(m.routeId)
    case PutInPayload(m) => Some(m.routeId)
    case InsertRow(row) => Some(row.routeId)
    case Process(row) => Some(row.routeId)
    case FetchIn(row, _) => Some(row.routeId)
    case HandOff(row, _, _) => Some(row.routeId)
    case PutCompleted(row) => Some(row.routeId)
    case PutRetryIn(row) => Some(row.routeId)
    case DeleteInPayload(id) => Some(id)
    case Sweep(_) => None
    case SweepRow(id) => Some(id)
  }

  /** The step did right by the route `id`. */
  ghost predicate Kept(cfg: Config, s: State, s': State, id: RouteId) {
    Later(s, s', id) && RouteInv(cfg, s', id)
  }

  ghost predicate MovedOk(s': State, t: TaskId) {
    t in s'.tasks ==> TaskOk(s'.clock, s'.disk, s'.log, s'.tasks[t])
  }

  lemma HandedGrows(log1: Log, log2: Log, id: RouteId)
    requires log1.handoffs <= log2.handoffs && Handed(log1, id)
    ensures Handed(log2, id)
  {
    var i :| 0 <= i < |log1.handoffs| && log1.handoffs[i].routeId == id;
    assert log2.handoffs[i].routeId == id;
  }

  lemma EnqueueKeeps(cfg: Config, s: State, a: Action, id: RouteId)
    requires RouteInv(cfg, s, id) && a.Enqueue? && a.id !in s.log.issued
    ensures Kept(cfg, s, Enqueued(cfg, s, a), id)
  {
  }

  lemma EnqueuePutPayloadKeeps(cfg: Config, s: State, r: RouteId, w: Write, id: RouteId)
    requires RouteInv(cfg, s, id) && r in s.log.issued && r in s.enqueuing
    ensures Kept(cfg, s, PayloadEnqueued(s, r, w), id)
  {
  }

  lemma EnqueuePutRowKeeps(cfg: Config, s: State, r: RouteId, w: Write, t: TaskId, id: RouteId)
    requires RouteInv(cfg, s, id) && RouteInv(cfg, s, r) && r in s.log.issued && t !in s.tasks
    requires r in s.enqueuing && s.enqueuing[r].PutRow?
    ensures Kept(cfg, s, RowEnqueued(s, r, w, t), id) && MovedOk(RowEnqueued(s, r, w, t), t)
  {
  }

  lemma EnqueueUndoKeeps(cfg: Config, s: State, r: RouteId, w: Write, id: RouteId)
    requires RouteInv(cfg, s, id) && r in s.enqueuing
    ensures Kept(cfg, s, EnqueueUndone(s, r, w), id)
  {
  }

  lemma DispatchKeeps(cfg: Config, s: State, t: TaskId, out: OutboxItem, resolved: bool, id: RouteId)
    requires RouteInv(cfg, s, id) && RouteInv(cfg, s, out.routeId) && TaskOk(s.clock, s.disk, s.log, Dispatch(out))
    ensures Kept(cfg, s, Dispatched(cfg, s, t, out, resolved), id) && MovedOk(Dispatched(cfg, s, t, out, resolved), t)
  {
  }

  lemma OutReadKeeps(cfg: Config, s: State, t: TaskId, out: OutboxItem, now: u64, readable: bool, id: RouteId)
    requires RouteInv(cfg, s, id) && RouteInv(cfg, s, out.routeId) && TaskOk(s.clock, s.disk, s.log, FetchOut(out, now))
    ensures Kept(cfg, s, OutRead(s, t, out, now, readable), id) && MovedOk(OutRead(s, t, out, now, readable), t)
  {
  }

  lemma ReplyKeeps(cfg: Config, s: State, t: TaskId, out: OutboxItem, now: u64, ok: bool, id: RouteId)
    requires RouteInv(cfg, s, id) && RouteInv(cfg, s, out.routeId)
    requires TaskOk(s.clock, s.disk, s.log, AwaitReply(out, now))
    requires ok ==> out.routeId in s.okReplies
    ensures Kept(cfg, s, Replied(cfg, s, t, out, now, ok), id) && MovedOk(Replied(cfg, s, t, out, now, ok), t)
  {
  }

  lemma ReceiveKeeps(cfg: Config, s: State, m: RouteRequest, t: TaskId, id: RouteId)
    requires RouteInv(cfg, s, id) && RequestOk(s.log, m) && t !in s.tasks
    ensures Kept(cfg, s, Received(s, m, t), id) && MovedOk(Received(s, m, t), t)
  {
  }

  lemma LookupKeeps(cfg: Config, s: State, t: TaskId, m: RouteRequest, readable: bool, id: RouteId)
    requires RouteInv(cfg, s, id) && RouteInv(cfg, s, m.routeId) && TaskOk(s.clock, s.disk, s.log, Lookup(m))
    ensures Kept(cfg, s, LookedUp(s, t, m, readable), id) && MovedOk(LookedUp(s, t, m, readable), t)
  {
  }

  lemma ProcessKeeps(cfg: Config, s: State, t: TaskId, row: InboxItem, id: RouteId)
    requires RouteInv(cfg, s, id) && RouteInv(cfg, s, row.routeId) && TaskOk(s.clock, s.disk, s.log, Process(row))
    ensures Kept(cfg, s, Processed(cfg, s, t, row), id) && MovedOk(Processed(cfg, s, t, row), t)
  {
  }

  lemma InReadKeeps(cfg: Config, s: State, t: TaskId, row: InboxItem, now: u64, readable: bool, id: RouteId)
    requires RouteInv(cfg, s, id) && RouteInv(cfg, s, row.routeId) && TaskOk(s.clock, s.disk, s.log, FetchIn(row, now))
    ensures Kept(cfg, s, InRead(s, t, row, now, readable), id) && MovedOk(InRead(s, t, row, now, readable), t)
  {
  }

  lemma AnswerKeeps(cfg: Config, s: State, t: TaskId, task: Task, ok: bool, id: RouteId)
    requires RouteInv(cfg, s, id) && task.HandOff? && RouteInv(cfg, s, task.row.routeId)
    requires TaskOk(s.clock, s.disk, s.log, task)
    ensures Kept(cfg, s, Answered(cfg, s, t, task, ok), id) && MovedOk(Answered(cfg, s, t, task, ok), t)
  {
    var s' := Answered(cfg, s, t, task, ok);
    if Handed(s.log, id) {
      HandedGrows(s.log, s'.log, id);
    }
    if ok {
      assert s'.log.handoffs[|s.log.handoffs|].routeId == task.row.routeId;
    }
  }

  lemma OutRetryStoredKeeps(cfg: Config, s: State, t: TaskId, out: OutboxItem, w: Write, id: RouteId)
    requires RouteInv(cfg, s, id) && RouteInv(cfg, s, out.routeId) && TaskOk(s.clock, s.disk, s.log, PutRetryOut(out))
    ensures Kept(cfg, s, OutRetryStored(s, t, out, w), id) && MovedOk(OutRetryStored(s, t, out, w), t)
  {
  }

  lemma RowDeletedKeeps(cfg: Config, s: State, t: TaskId, r: RouteId, strict: bool, w: Write, id: RouteId)
    requires RouteInv(cfg, s, id) && RouteInv(cfg, s, r) && TaskOk(s.clock, s.disk, s.log, DeleteRow(r, strict))
    ensures Kept(cfg, s, RowDeleted(s, t, r, strict, w), id) && MovedOk(RowDeleted(s, t, r, strict, w), t)
  {
  }

  lemma OutPayloadDeletedKeeps(cfg: Config, s: State, t: TaskId, r: RouteId, w: Write, id: RouteId)
    requires RouteInv(cfg, s, id) && RouteInv(cfg, s, r) && TaskOk(s.clock, s.disk, s.log, DeleteOutPayload(r))
    ensures Kept(cfg, s, OutPayloadDeleted(s, t, r, w), id) && MovedOk(OutPayloadDeleted(s, t, r, w), t)
  {
  }

  lemma InPayloadStoredKeeps(cfg: Config, s: State, t: TaskId, m: RouteRequest, w: Write, id: RouteId)
    requires RouteInv(cfg, s, id) && RouteInv(cfg, s, m.routeId) && TaskOk(s.clock, s.disk, s.log, PutInPayload(m))
    ensures Kept(cfg, s, InPayloadStored(cfg, s, t, m, w), id) && MovedOk(InPayloadStored(cfg, s, t, m, w), t)
  {
  }

  lemma RowInsertedKeeps(cfg: Config, s: State, t: TaskId, row: InboxItem, w: Write, id: RouteId)
    requires RouteInv(cfg, s, id) && RouteInv(cfg, s, row.routeId) && TaskOk(s.clock, s.disk, s.log, InsertRow(row))
    ensures Kept(cfg, s, RowInserted(s, t, row, w), id) && MovedOk(RowInserted(s, t, row, w), t)
  {
  }

  lemma CompletionStoredKeeps(cfg: Config, s: State, t: TaskId, row: InboxItem, w: Write, id: RouteId)
    requires RouteInv(cfg, s, id) && RouteInv(cfg, s, row.routeId) && TaskOk(s.clock, s.disk, s.log, PutCompleted(row))
    ensures Kept(cfg, s, CompletionStored(s, t, row, w), id) && MovedOk(CompletionStored(s, t, row, w), t)
  {
  }

  lemma InPayloadDeletedKeeps(cfg: Config, s: State, t: TaskId, r: RouteId, w: Write, id: RouteId)
    requires RouteInv(cfg, s, id) && RouteInv(cfg, s, r) && TaskOk(s.clock, s.disk, s.log, DeleteInPayload(r))
    ensures Kept(cfg, s, InPayloadDeleted(s, t, r, w), id) && MovedOk(InPayloadDeleted(s, t, r, w), t)
  {
  }

  lemma RowSweptKeeps(cfg: Config, s: State, t: TaskId, r: RouteId, w: Write, id: RouteId)
    requires RouteInv(cfg, s, id) && RouteInv(cfg, s, r) && TaskOk(s.clock, s.disk, s.log, SweepRow(r))
    ensures Kept(cfg, s, RowSwept(s, t, r, w), id) && MovedOk(RowSwept(s, t, r, w), t)
  {
  }

  lemma InRetryStoredKeeps(cfg: Config, s: State, t: TaskId, row: InboxItem, w: Write, id: RouteId)
    requires RouteInv(cfg, s, id) && TaskOk(s.clock, s.disk, s.log, PutRetryIn(row))
    ensures Kept(cfg, s, End(RowStored(s, row, w), t), id)
  {
  }

  lemma StoreKeeps(cfg: Config, s: State, t: TaskId, task: Task, w: Write, id: RouteId)
    requires RouteInv(cfg, s, id) && IsWrite(task) && TaskOk(s.clock, s.disk, s.log, task)
    requires RouteInv(cfg, s, RouteOf(task).value)
    ensures Kept(cfg, s, Stored(cfg, s, t, task, w), id) && MovedOk(Stored(cfg, s, t, task, w), t)
  {
    match task
    case PutRetryOut(out) => OutRetryStoredKeeps(cfg, s, t, out, w, id);
    case DeleteRow(r, strict) => RowDeletedKeeps(cfg, s, t, r, strict, w, id);
    case DeleteOutPayload(r) => OutPayloadDeletedKeeps(cfg, s, t, r, w, id);
    case PutInPayload(m) => InPayloadStoredKeeps(cfg, s, t, m, w, id);
    case InsertRow(row) => RowInsertedKeeps(cfg, s, t, row, w, id);
    case PutCompleted(row) => CompletionStoredKeeps(cfg, s, t, row, w, id);
    case PutRetryIn(row) => InRetryStoredKeeps(cfg, s, t, row, w, id);
    case DeleteInPayload(r) => InPayloadDeletedKeeps(cfg, s, t, r, w, id);
    case SweepRow(r) => RowSweptKeeps(cfg, s, t, r, w, id);
  }

  /** The step continues a running task. */
  predicate Acts(a: Action) {
    || a.DispatchStart? || a.ReadOut? || a.Reply? || a.LookUp?
    || a.ProcessStart? || a.ReadIn? || a.SessionAnswer? || a.Store?
  }

  /** Whatever the step reads is in order. */
  ghost predicate Ready(cfg: Config, s: State, a: Action) {
    && Enabled(cfg, s, a)
    && (Acts(a) ==>
          && TaskOk(s.clock, s.disk, s.log, s.tasks[a.t])
          && (RouteOf(s.tasks[a.t]).Some? ==> RouteInv(cfg, s, RouteOf(s.tasks[a.t]).value)))
    && (a.Receive? ==> RequestOk(s.log, a.request))
    && (a.EnqueuePutRow? || a.ScanOutbox? || a.ScanInbox? || a.SweepPick? ==> RouteInv(cfg, s, a.id))
  }

  /** The task a step starts or continues, if any. */
  function Moved(a: Action): Option<TaskId> {
    match a
    case EnqueuePutRow(_, _, t) => Some(t)
    case ScanOutbox(_, t) => Some(t)
    case DispatchStart(t, _) => Some(t)
    case ReadOut(t, _) => Some(t)
    case Reply(t, _) => Some(t)
    case Receive(_, t) => Some(t)
    case LookUp(t, _) => Some(t)
    case ScanInbox(_, t) => Some(t)
    case ProcessStart(t) => Some(t)
    case ReadIn(t, _) => Some(t)
    case SessionAnswer(t, _) => Some(t)
    case SweepStart(t) => Some(t)
    case SweepPick(_, _, victim) => Some(victim)
    case Store(t, _) => Some(t)
    case _ => None
  }

  predicate IsSenderStep(a: Action) {
    || a.Enqueue? || a.EnqueuePutPayload? || a.EnqueuePutRow? || a.EnqueueUndo? || a.EnqueueDie?
    || a.ScanOutbox? || a.DispatchStart? || a.ReadOut? || a.Reply?
  }

  lemma SenderStepKeepsRoute(cfg: Config, s: State, a: Action, id: RouteId)
    requires IsSenderStep(a) && Ready(cfg, s, a) && RouteInv(cfg, s, id)
    ensures Kept(cfg, s, Apply(cfg, s, a), id)
    ensures Moved(a).Some? ==> MovedOk(Apply(cfg, s, a), Moved(a).value)
  {
    match a
    case Enqueue(_, _, _, _) => EnqueueKeeps(cfg, s, a, id);
    case EnqueuePutPayload(r, w) => EnqueuePutPayloadKeeps(cfg, s, r, w, id);
    case EnqueuePutRow(r, w, t) => EnqueuePutRowKeeps(cfg, s, r, w, t, id);
    case EnqueueUndo(r, w) => EnqueueUndoKeeps(cfg, s, r, w, id);
    case EnqueueDie(_) =>
    case ScanOutbox(_, _) =>
    case DispatchStart(t, resolved) => DispatchKeeps(cfg, s, t, s.tasks[t].out, resolved, id);
    case ReadOut(t, readable) => OutReadKeeps(cfg, s, t, s.tasks[t].out, s.tasks[t].now, readable, id);
    case Reply(t, ok) => ReplyKeeps(cfg, s, t, s.tasks[t].out, s.tasks[t].now, ok, id);
  }

  lemma OtherStepKeepsRoute(cfg: Config, s: State, a: Action, id: RouteId)
    requires !IsSenderStep(a) && Ready(cfg, s, a) && RouteInv(cfg, s, id)
    ensures Kept(cfg, s, Apply(cfg, s, a), id)
    ensures Moved(a).Some? ==> MovedOk(Apply(cfg, s, a), Moved(a).value)
  {
    match a
    case Receive(m, t) => ReceiveKeeps(cfg, s, m, t, id);
    case LookUp(t, readable) => LookupKeeps(cfg, s, t, s.tasks[t].request, readable, id);
    case ProcessStart(t) => ProcessKeeps(cfg, s, t, s.tasks[t].row, id);
    case ReadIn(t, readable) => InReadKeeps(cfg, s, t, s.tasks[t].row, s.tasks[t].now, readable, id);
    case SessionAnswer(t, ok) => AnswerKeeps(cfg, s, t, s.tasks[t], ok, id);
    case Store(t, w) => StoreKeeps(cfg, s, t, s.tasks[t], w, id);
    case _ =>
  }

  lemma StepKeepsRoute(cfg: Config, s: State, a: Action, id: RouteId)
    requires Ready(cfg, s, a) && RouteInv(cfg, s, id)
    ensures Kept(cfg, s, Apply(cfg, s, a), id)
    ensures Moved(a).Some? ==> MovedOk(Apply(cfg, s, a), Moved(a).value)
  {
    if IsSenderStep(a) {
      SenderStepKeepsRoute(cfg, s, a, id);
    } else {
      OtherStepKeepsRoute(cfg, s, a, id);
    }
  }

  lemma InvIsReady(cfg: Config, s: State, a: Action)
    requires Inv(cfg, s) && Enabled(cfg, s, a)
    ensures Ready(cfg, s, a)
  {
  }

  /** The step leaves all other tasks alone. */
  lemma StepFramesTasks(cfg: Config, s: State, a: Action, t: TaskId)
    requires Enabled(cfg, s, a) && t in Apply(cfg, s, a).tasks
    requires Moved(a) != Some(t)
    ensures t in s.tasks && Apply(cfg, s, a).tasks[t] == s.tasks[t]
  {
  }

  lemma StepFramesIssued(cfg: Config, s: State, a: Action, id: RouteId)
    requires Enabled(cfg, s, a) && id in s.log.issued
    ensures id in Apply(cfg, s, a).log.issued && Apply(cfg, s, a).log.issued[id] == s.log.issued[id]
  {
  }

  lemma StepFramesRequests(cfg: Config, s: State, a: Action, m: RouteRequest)
    requires Ready(cfg, s, a) && m in Apply(cfg, s, a).sent && m !in s.sent
    requires RouteInv(cfg, s, m.routeId)
    ensures RequestOk(s.log, m)
  {
  }

  lemma StepFramesHandoffs(cfg: Config, s: State, a: Action)
    requires Ready(cfg, s, a)
    ensures var handoffs := Apply(cfg, s, a).log.handoffs;
            && s.log.handoffs <= handoffs
            && (forall i :: |s.log.handoffs| <= i < |handoffs| ==> HandoffOk(s.log, handoffs[i]))
  {
  }

  lemma TaskStaysOk(s: State, s': State, task: Task)
    requires s.clock <= s'.clock && TaskOk(s.clock, s.disk, s.log, task)
    requires RouteOf(task).Some? ==> Later(s, s', RouteOf(task).value)
    ensures TaskOk(s'.clock, s'.disk, s'.log, task)
  {
  }

  /** A later state in which everything new is in order is in order. */
  lemma OldStaysOk(cfg: Config, s: State, s': State)
    requires Inv(cfg, s) && s.log.handoffs <= s'.log.handoffs
    requires forall id :: Later(s, s', id) && RouteInv(cfg, s', id)
    requires forall t :: t in s'.tasks ==> (t in s.tasks && s'.tasks[t] == s.tasks[t]) || MovedOk(s', t)
    requires forall m :: m in s'.sent ==> m in s.sent || RequestOk(s.log, m)
    requires forall i :: |s.log.handoffs| <= i < |s'.log.handoffs| ==> HandoffOk(s.log, s'.log.handoffs[i])
    ensures Inv(cfg, s')
  {
    assert Later(s, s', 0);
    forall t | t in s'.tasks ensures TaskOk(s'.clock, s'.disk, s'.log, s'.tasks[t]) {
      if t in s.tasks && s'.tasks[t] == s.tasks[t] {
        assert RouteOf(s.tasks[t]).Some? ==> Later(s, s', RouteOf(s.tasks[t]).value);
        TaskStaysOk(s, s', s.tasks[t]);
      } else {
        assert MovedOk(s', t);
      }
    }
    forall m | m in s'.sent ensures RequestOk(s'.log, m) {
      assert Later(s, s', m.routeId);
    }
    forall i | 0 <= i < |s'.log.handoffs| ensures HandoffOk(s'.log, s'.log.handoffs[i]) {
      assert i < |s.log.handoffs| ==> s'.log.handoffs[i] == s.log.handoffs[i];
      assert Later(s, s', s'.log.handoffs[i].routeId);
    }
  }

  lemma StepKeepsInv(cfg: Config, s: State, a: Action)
    requires Inv(cfg, s) && Enabled(cfg, s, a)
    ensures Inv(cfg, Apply(cfg, s, a))
  {
    var s' := Apply(cfg, s, a);
    InvIsReady(cfg, s, a);
    forall id ensures Later(s, s', id) && RouteInv(cfg, s', id) {
      StepKeepsRoute(cfg, s, a, id);
    }
    forall t | t in s'.tasks ensures (t in s.tasks && s'.tasks[t] == s.tasks[t]) || MovedOk(s', t) {
      if Moved(a) == Some(t) {
        StepKeepsRoute(cfg, s, a, 0);
      } else {
        StepFramesTasks(cfg, s, a, t);
      }
    }
    forall m | m in s'.sent ensures m in s.sent || RequestOk(s.log, m) {
      if m !in s.sent {
        StepFramesRequests(cfg, s, a, m);
      }
    }
    StepFramesHandoffs(cfg, s, a);
    OldStaysOk(cfg, s, s');
  }

  lemma {:induction false} RunKeepsInv(cfg: Config, run: seq<State>, acts: seq<Action>, n: nat)
    requires IsRun(cfg, run, acts) && n < |run|
    ensures Inv(cfg, run[n])
  {
    if n > 0 {
      RunKeepsInv(cfg, run, acts, n - 1);
      StepKeepsInv(cfg, run[n - 1], acts[n - 1]);
      assert run[n - 1 + 1] == Apply(cfg, run[n - 1], acts[n - 1]);
    }
  }

  /** NO SILENT LOSS. In every state of every run, a route whose enqueue succeeded has been handed to
      its session, has been counted as dropped, or can still be read back, with the packet that was
      enqueued, from the sender's disk or from the receiver's. */
  lemma NoSilentLoss(cfg: Config, run: seq<State>, acts: seq<Action>, n: nat, id: RouteId)
    requires IsRun(cfg, run, acts) && n < |run|
    requires id in run[n].log.enqueued
    ensures || Handed(run[n].log, id) || id in run[n].log.dropped
            || OnSenderDisk(run[n], id) || OnReceiverDisk(run[n], id)
  {
    RunKeepsInv(cfg, run, acts, n);
    assert RouteInv(cfg, run[n], id);
  }

  /** NO FORGERY. In every run, what a session acknowledges is the packet that was enqueued for that
      route, addressed to the tenant and client it was enqueued for. */
  lemma HandoffsAreFaithful(cfg: Config, run: seq<State>, acts: seq<Action>, n: nat, i: nat)
    requires IsRun(cfg, run, acts) && n < |run|
    requires i < |run[n].log.handoffs|
    ensures var h, issued := run[n].log.handoffs[i], run[n].log.issued;
            && h.routeId in issued
            && h.tenantId == issued[h.routeId].tenantId
            && h.targetClientId == issued[h.routeId].targetClientId
            && h.packet == issued[h.routeId].packet
  {
    RunKeepsInv(cfg, run, acts, n);
    assert HandoffOk(run[n].log, run[n].log.handoffs[i]);
  }
}
