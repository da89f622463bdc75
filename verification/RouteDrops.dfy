/** No route is given up early: one that is counted as dropped has reached its deadline, or has failed as often as the
    configuration allows, on the way to the other node or at its session. */
module RouteDrops {
  import opened MqttTypes
  import opened DurableRoute
  import opened RouteNoLoss
  import MessageExpiry

  // ---- what counts as a failure ----

  /** The route was not brought over: its client was not located, or the call to the other node failed. */
  predicate FailsOut(s: State, a: Action, id: RouteId) {
    || (a.DispatchStart? && !a.resolved && a.t in s.tasks && s.tasks[a.t].Dispatch? && s.tasks[a.t].out.routeId == id)
    || (a.Reply? && !a.ok && a.t in s.tasks && s.tasks[a.t].AwaitReply? && s.tasks[a.t].out.routeId == id)
  }

  /** The session did not take the route. */
  predicate FailsIn(s: State, a: Action, id: RouteId) {
    a.SessionAnswer? && !a.ok && a.t in s.tasks && s.tasks[a.t].HandOff? && s.tasks[a.t].row.routeId == id
  }

  datatype Failures = Failures(out: nat, into: nat)

  function OneMore(n: Failures, s: State, a: Action, id: RouteId): Failures {
    Failures(n.out + (if FailsOut(s, a, id) then 1 else 0), n.into + (if FailsIn(s, a, id) then 1 else 0))
  }

  /** How often the route failed in the first `i` steps. */
  function FailuresOf(run: seq<State>, acts: seq<Action>, i: nat, id: RouteId): Failures
    requires i <= |acts| <= |run|
  {
    if i == 0 then Failures(0, 0) else OneMore(FailuresOf(run, acts, i - 1, id), run[i - 1], acts[i - 1], id)
  }

  // ---- rows count no more than these ----

  predicate TaskCounts(task: Task, id: RouteId, n: Failures) {
    match task
    case Dispatch(out) => out.routeId == id ==> out.attempts <= n.out
    case FetchOut(out, _) => out.routeId == id ==> out.attempts <= n.out
    case AwaitReply(out, _) => out.routeId == id ==> out.attempts <= n.out
    case PutRetryOut(out) => out.routeId == id ==> out.attempts <= n.out
    case InsertRow(row) => row.routeId == id ==> row.attempts <= n.into
    case Process(row) => row.routeId == id ==> row.attempts <= n.into
    case FetchIn(row, _) => row.routeId == id ==> row.attempts <= n.into
    case HandOff(row, _, _) => row.routeId == id ==> row.attempts <= n.into
    case PutCompleted(row) => row.routeId == id ==> row.attempts <= n.into
    case PutRetryIn(row) => row.routeId == id ==> row.attempts <= n.into
    case _ => true
  }

  predicate RowsCount(disk: Disk, id: RouteId, n: Failures) {
    && (id in disk.outbox ==> disk.outbox[id].attempts <= n.out)
    && (id in disk.inbox ==> disk.inbox[id].attempts <= n.into)
  }

  /** Why a route may be given up: its time to live is over, its packet has expired, or it failed often enough. */
  predicate Cause(cfg: Config, s: State, id: RouteId, n: Failures) {
    && id in s.log.issued
    && var issue := s.log.issued[id];
       || s.clock >= SaturatingAdd(issue.createdAt, cfg.ttl) || MessageExpiry.HasExpired(issue.packet, s.clock)
       || n.out >= cfg.maxRetryCount || n.into >= cfg.maxRetryCount
  }

  predicate DeadlineOk(cfg: Config, s: State, id: RouteId) {
    id in s.log.issued ==>
      var issue := s.log.issued[id];
      MessageExpiry.IsRouteDeadline(issue.expiryAt, issue.packet, SaturatingAdd(issue.createdAt, cfg.ttl))
  }

  ghost predicate Counted(cfg: Config, s: State, id: RouteId, n: Failures) {
    && RowsCount(s.disk, id, n) && DeadlineOk(cfg, s, id)
    && (forall t :: t in s.tasks ==> TaskCounts(s.tasks[t], id, n))
    && (id in s.log.dropped ==> Cause(cfg, s, id, n))
  }

  lemma MoreStillCounts(task: Task, id: RouteId, n: Failures, n': Failures)
    requires TaskCounts(task, id, n) && n.out <= n'.out && n.into <= n'.into
    ensures TaskCounts(task, id, n')
  {
  }

  lemma WriterCounts(cfg: Config, s: State, t: TaskId, task: Task, w: Write, id: RouteId, n: Failures)
    requires IsWrite(task) && TaskCounts(task, id, n) && t in Stored(cfg, s, t, task, w).tasks
    ensures TaskCounts(Stored(cfg, s, t, task, w).tasks[t], id, n)
  {
  }

  lemma LookerCounts(cfg: Config, s: State, a: Action, id: RouteId, n: Failures)
    requires Enabled(cfg, s, a) && !a.Store? && Moved(a).Some? && Moved(a).value in Apply(cfg, s, a).tasks
    requires RowsCount(s.disk, id, n) && forall t :: t in s.tasks ==> TaskCounts(s.tasks[t], id, n)
    requires a.ScanOutbox? ==> s.disk.outbox[a.id].routeId == a.id
    requires a.ScanInbox? ==> s.disk.inbox[a.id].routeId == a.id
    ensures TaskCounts(Apply(cfg, s, a).tasks[Moved(a).value], id, OneMore(n, s, a, id))
  {
  }

  lemma MovedCounts(cfg: Config, s: State, a: Action, id: RouteId, n: Failures)
    requires Enabled(cfg, s, a) && Moved(a).Some? && Moved(a).value in Apply(cfg, s, a).tasks
    requires RowsCount(s.disk, id, n) && forall t :: t in s.tasks ==> TaskCounts(s.tasks[t], id, n)
    requires a.ScanOutbox? ==> s.disk.outbox[a.id].routeId == a.id
    requires a.ScanInbox? ==> s.disk.inbox[a.id].routeId == a.id
    ensures TaskCounts(Apply(cfg, s, a).tasks[Moved(a).value], id, OneMore(n, s, a, id))
  {
    if a.Store? {
      WriterCounts(cfg, s, a.t, s.tasks[a.t], a.w, id, n);
    } else {
      LookerCounts(cfg, s, a, id, n);
    }
  }

  lemma WrittenRowCounts(cfg: Config, s: State, t: TaskId, task: Task, w: Write, id: RouteId, n: Failures)
    requires IsWrite(task) && RowsCount(s.disk, id, n) && TaskCounts(task, id, n)
    ensures RowsCount(Stored(cfg, s, t, task, w).disk, id, n)
  {
  }

  lemma OnlyWritesChangeRows(cfg: Config, s: State, a: Action)
    requires Enabled(cfg, s, a) && !a.Store? && !a.EnqueuePutRow?
    ensures Apply(cfg, s, a).disk.outbox == s.disk.outbox && Apply(cfg, s, a).disk.inbox == s.disk.inbox
  {
  }

  lemma RowsStayCounted(cfg: Config, s: State, a: Action, id: RouteId, n: Failures)
    requires Enabled(cfg, s, a) && RowsCount(s.disk, id, n)
    requires a.Store? ==> TaskCounts(s.tasks[a.t], id, n)
    ensures RowsCount(Apply(cfg, s, a).disk, id, n)
  {
    if a.Store? {
      WrittenRowCounts(cfg, s, a.t, s.tasks[a.t], a.w, id, n);
    } else if a.EnqueuePutRow? {
      assert Apply(cfg, s, a) == RowEnqueued(s, a.id, a.w, a.t);
    } else {
      OnlyWritesChangeRows(cfg, s, a);
    }
  }

  lemma DeadlineStays(cfg: Config, s: State, a: Action, id: RouteId)
    requires Enabled(cfg, s, a) && DeadlineOk(cfg, s, id)
    ensures DeadlineOk(cfg, Apply(cfg, s, a), id)
  {
    if a.Enqueue? {
      MessageExpiry.DeadlineIsTheEarlier(a.packet, cfg.ttl, s.clock);
    }
  }

  // ---- drops ----

  /** A deadline that was reached by `now` is the time to live or the packet's own. */
  lemma DeadlineIsCause(cfg: Config, s: State, id: RouteId, n: Failures, now: u64)
    requires id in s.log.issued && DeadlineOk(cfg, s, id) && now <= s.clock
    requires s.log.issued[id].expiryAt <= now || MessageExpiry.HasExpired(s.log.issued[id].packet, now)
    ensures Cause(cfg, s, id, n)
  {
  }

  lemma OnlyLooksDrop(cfg: Config, s: State, a: Action)
    requires Enabled(cfg, s, a)
    requires !a.DispatchStart? && !a.ReadOut? && !a.Receive? && !a.ProcessStart? && !a.ReadIn?
    ensures Apply(cfg, s, a).log.dropped == s.log.dropped
  {
  }

  lemma DispatchDropsForCause(cfg: Config, s: State, t: TaskId, out: OutboxItem, resolved: bool, id: RouteId,
                              n: Failures)
    requires OutOk(s.log, out) && DeadlineOk(cfg, s, id) && (out.routeId == id ==> out.attempts <= n.out)
    requires id !in s.log.dropped && id in Dispatched(cfg, s, t, out, resolved).log.dropped
    ensures Cause(cfg, s, id, n)
  {
    if out.expiryAt <= s.clock {
      DeadlineIsCause(cfg, s, id, n, s.clock);
    }
  }

  lemma ReadOutDropsForCause(cfg: Config, s: State, t: TaskId, out: OutboxItem, now: u64, readable: bool, id: RouteId,
                             n: Failures)
    requires RouteInv(cfg, s, out.routeId) && now <= s.clock && DeadlineOk(cfg, s, id)
    requires id !in s.log.dropped && id in OutRead(s, t, out, now, readable).log.dropped
    ensures Cause(cfg, s, id, n)
  {
    DeadlineIsCause(cfg, s, id, n, now);
  }

  lemma ProcessDropsForCause(cfg: Config, s: State, t: TaskId, row: InboxItem, id: RouteId, n: Failures)
    requires RowOk(s.log, row) && DeadlineOk(cfg, s, id) && (row.routeId == id ==> row.attempts <= n.into)
    requires id !in s.log.dropped && id in Processed(cfg, s, t, row).log.dropped
    ensures Cause(cfg, s, id, n)
  {
    if row.expiryAt <= s.clock {
      DeadlineIsCause(cfg, s, id, n, s.clock);
    }
  }

  lemma ReadInDropsForCause(cfg: Config, s: State, t: TaskId, row: InboxItem, now: u64, readable: bool, id: RouteId,
                            n: Failures)
    requires RouteInv(cfg, s, row.routeId) && now <= s.clock && DeadlineOk(cfg, s, id)
    requires id !in s.log.dropped && id in InRead(s, t, row, now, readable).log.dropped
    ensures Cause(cfg, s, id, n)
  {
    DeadlineIsCause(cfg, s, id, n, now);
  }

  lemma ReceiptDropsForCause(cfg: Config, s: State, m: RouteRequest, t: TaskId, id: RouteId, n: Failures)
    requires RequestOk(s.log, m) && DeadlineOk(cfg, s, id)
    requires id !in s.log.dropped && id in Received(s, m, t).log.dropped
    ensures Cause(cfg, s, id, n)
  {
    DeadlineIsCause(cfg, s, id, n, s.clock);
  }

  lemma StepDropsForCause(cfg: Config, s: State, a: Action, id: RouteId, n: Failures)
    requires Inv(cfg, s) && Enabled(cfg, s, a) && Counted(cfg, s, id, n)
    requires id !in s.log.dropped && id in Apply(cfg, s, a).log.dropped
    ensures Cause(cfg, s, id, n)
  {
    match a
    case DispatchStart(t, resolved) =>
      assert TaskOk(s.clock, s.disk, s.log, s.tasks[t]) && TaskCounts(s.tasks[t], id, n);
      DispatchDropsForCause(cfg, s, t, s.tasks[t].out, resolved, id, n);
    case ReadOut(t, readable) =>
      assert TaskOk(s.clock, s.disk, s.log, s.tasks[t]) && RouteInv(cfg, s, s.tasks[t].out.routeId);
      ReadOutDropsForCause(cfg, s, t, s.tasks[t].out, s.tasks[t].now, readable, id, n);
    case Receive(m, t) => ReceiptDropsForCause(cfg, s, m, t, id, n);
    case ProcessStart(t) =>
      assert TaskOk(s.clock, s.disk, s.log, s.tasks[t]) && TaskCounts(s.tasks[t], id, n);
      ProcessDropsForCause(cfg, s, t, s.tasks[t].row, id, n);
    case ReadIn(t, readable) =>
      assert TaskOk(s.clock, s.disk, s.log, s.tasks[t]) && RouteInv(cfg, s, s.tasks[t].row.routeId);
      ReadInDropsForCause(cfg, s, t, s.tasks[t].row, s.tasks[t].now, readable, id, n);
    case _ => OnlyLooksDrop(cfg, s, a);
  }

  /** A cause stays one. */
  lemma CauseStays(cfg: Config, s: State, a: Action, id: RouteId, n: Failures)
    requires Enabled(cfg, s, a) && Cause(cfg, s, id, n) && s.clock <= Apply(cfg, s, a).clock
    ensures Cause(cfg, Apply(cfg, s, a), id, OneMore(n, s, a, id))
  {
    StepFramesIssued(cfg, s, a, id);
  }

  lemma StepStaysCounted(cfg: Config, s: State, a: Action, id: RouteId, n: Failures)
    requires Inv(cfg, s) && Enabled(cfg, s, a) && Counted(cfg, s, id, n)
    ensures Counted(cfg, Apply(cfg, s, a), id, OneMore(n, s, a, id))
  {
    var s', n' := Apply(cfg, s, a), OneMore(n, s, a, id);
    InvIsReady(cfg, s, a);
    StepKeepsRoute(cfg, s, a, id);
    RowsStayCounted(cfg, s, a, id, n);
    DeadlineStays(cfg, s, a, id);
    assert (a.ScanOutbox? || a.ScanInbox?) ==> RouteInv(cfg, s, a.id);
    forall t | t in s'.tasks ensures TaskCounts(s'.tasks[t], id, n') {
      if Moved(a) == Some(t) {
        MovedCounts(cfg, s, a, id, n);
      } else {
        StepFramesTasks(cfg, s, a, t);
        MoreStillCounts(s.tasks[t], id, n, n');
      }
    }
    if id in s'.log.dropped {
      if id !in s.log.dropped {
        StepDropsForCause(cfg, s, a, id, n);
      }
      CauseStays(cfg, s, a, id, n);
    }
  }

  lemma {:induction false} RunStaysCounted(cfg: Config, run: seq<State>, acts: seq<Action>, i: nat, id: RouteId)
    requires IsRun(cfg, run, acts) && i < |run|
    ensures Counted(cfg, run[i], id, FailuresOf(run, acts, i, id))
  {
    if i > 0 {
      RunStaysCounted(cfg, run, acts, i - 1, id);
      RunKeepsInv(cfg, run, acts, i - 1);
      StepStaysCounted(cfg, run[i - 1], acts[i - 1], id, FailuresOf(run, acts, i - 1, id));
      assert run[i - 1 + 1] == Apply(cfg, run[i - 1], acts[i - 1]);
    }
  }

  /** In every run, whatever fails, dies or repeats, a route is counted as dropped only if its time to live is over, its
      packet has expired, or it failed `maxRetryCount` times on its way out or at its session. */
  lemma DroppedOnlyForCause(cfg: Config, run: seq<State>, acts: seq<Action>, i: nat, id: RouteId)
    requires IsRun(cfg, run, acts) && i < |run| && id in run[i].log.dropped
    ensures id in run[i].log.issued
    ensures var issue, n := run[i].log.issued[id], FailuresOf(run, acts, i, id);
            || run[i].clock >= SaturatingAdd(issue.createdAt, cfg.ttl)
            || (issue.packet.expiresAt.Some? && run[i].clock >= issue.packet.expiresAt.value)
            || n.out >= cfg.maxRetryCount || n.into >= cfg.maxRetryCount
  {
    RunStaysCounted(cfg, run, acts, i, id);
  }
}
