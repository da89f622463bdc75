/** At-most-once handoff. The inbox row is what stops a second handoff, and the sweeper removes it; the
    theorem says that is safe, because a swept row has outlived its route.

    Three conditions are needed and enough. On the receiving node, acceptances of one route do not overlap each
    other, and no scan starts to process a row that is being processed (a repeated request may be received while
    its row is processed or swept, and handlers of different routes, the sender and the sweeper run freely). And the
    completion write that follows a session's acknowledgement takes effect. Everything else may still fail: other
    writes and reads, any task outside that one window, and the network, which duplicates, delays and reorders. */
module RouteAtMostOnce {
  import opened MqttTypes
  import opened DurableRoute
  import opened RouteNoLoss

  /** The route of a request that is being accepted. */
  function Accepting(task: Task): Option<RouteId> {
    match task
    case Lookup(m) => Some(m.routeId)
    case PutInPayload(m) => Some(m.routeId)
    case InsertRow(row) => Some(row.routeId)
    case _ => None
  }

  /** The route of a row that is being processed. */
  function Processing(task: Task): Option<RouteId> {
    match task
    case Process(row) => Some(row.routeId)
    case FetchIn(row, _) => Some(row.routeId)
    case HandOff(row, _, _) => Some(row.routeId)
    case PutCompleted(row) => Some(row.routeId)
    case PutRetryIn(row) => Some(row.routeId)
    case _ => None
  }

  ghost predicate IsAccepted(s: State, id: RouteId) {
    exists t :: t in s.tasks && Accepting(s.tasks[t]) == Some(id)
  }

  ghost predicate IsProcessed(s: State, id: RouteId) {
    exists t :: t in s.tasks && Processing(s.tasks[t]) == Some(id)
  }

  /** No request is received while another request of its route is being accepted. */
  ghost predicate AcceptancesApart(s: State, a: Action) {
    a.Receive? ==> !IsAccepted(s, a.request.routeId)
  }

  /** No scan starts to process a row that is being processed. */
  ghost predicate ScansApart(s: State, a: Action) {
    a.ScanInbox? ==> !IsProcessed(s, a.id)
  }

  ghost predicate Serialised(s: State, a: Action) {
    AcceptancesApart(s, a) && ScansApart(s, a)
  }

  /** The completion of an acknowledged route is neither interrupted nor lost. */
  ghost predicate CompletionKept(s: State, a: Action) {
    (a.Die? || (a.Store? && a.w.FailedLost?)) && a.t in s.tasks && s.tasks[a.t].PutCompleted? ==>
      !Handed(s.log, s.tasks[a.t].row.routeId)
  }

  ghost predicate Disciplined(run: seq<State>, acts: seq<Action>)
    requires |run| == |acts| + 1
  {
    forall i :: 0 <= i < |acts| ==> Serialised(run[i], acts[i]) && CompletionKept(run[i], acts[i])
  }

  // ---- the invariant ----

  predicate Outlived(s: State, id: RouteId) {
    id in s.log.issued && s.log.issued[id].expiryAt <= s.clock
  }

  /** The acknowledgement of `id` is about to be recorded. */
  ghost predicate Completing(s: State, id: RouteId) {
    exists t :: t in s.tasks && s.tasks[t].PutCompleted? && s.tasks[t].row.routeId == id
  }

  /** The time was read after the route was created. */
  predicate After(log: Log, id: RouteId, time: u64) {
    id in log.issued && log.issued[id].createdAt <= time
  }

  predicate StampedAfter(log: Log, row: InboxItem) {
    row.completedAt.Some? && After(log, row.routeId, row.completedAt.value)
  }

  ghost predicate OnceRoute(s: State, id: RouteId) {
    && (Handed(s.log, id) ==>
          || Outlived(s, id) || Completing(s, id)
          || (id in s.disk.inbox && s.disk.inbox[id].status.Completed?))
    && (id in s.disk.inbox && s.disk.inbox[id].status.Completed? ==> StampedAfter(s.log, s.disk.inbox[id]))
  }

  /** The row of the route is on disk, or was swept after the route's deadline. */
  predicate Present(s: State, id: RouteId) {
    id in s.disk.inbox || Outlived(s, id)
  }

  predicate Absent(s: State, id: RouteId) {
    id !in s.disk.inbox || Outlived(s, id)
  }

  ghost predicate OnceTask(s: State, task: Task) {
    match task
    case PutInPayload(m) => Absent(s, m.routeId) && (Handed(s.log, m.routeId) ==> Outlived(s, m.routeId))
    case InsertRow(row) => Absent(s, row.routeId) && (Handed(s.log, row.routeId) ==> Outlived(s, row.routeId))
    case Process(row) =>
      Present(s, row.routeId) && (row.status.Pending? && Handed(s.log, row.routeId) ==> Outlived(s, row.routeId))
    case FetchIn(row, now) =>
      Present(s, row.routeId) && !Handed(s.log, row.routeId) && After(s.log, row.routeId, now)
    case HandOff(row, now, _) =>
      Present(s, row.routeId) && !Handed(s.log, row.routeId) && After(s.log, row.routeId, now)
    case PutRetryIn(row) => Present(s, row.routeId) && (Handed(s.log, row.routeId) ==> Outlived(s, row.routeId))
    case PutCompleted(row) => Present(s, row.routeId) && StampedAfter(s.log, row)
    case SweepRow(id) => Outlived(s, id)
    case _ => true
  }

  /** On the way to the session. */
  predicate Hot(task: Task) {
    task.FetchIn? || task.HandOff?
  }

  predicate SameAccepting(task1: Task, task2: Task) {
    Accepting(task1).Some? && Accepting(task1) == Accepting(task2)
  }

  predicate SameProcessing(task1: Task, task2: Task) {
    Processing(task1).Some? && Processing(task1) == Processing(task2)
  }

  /** Two handlers may process one route only after its deadline, and then not both on the way to the session. */
  ghost predicate Apart(s: State) {
    && (forall t, u :: t in s.tasks && u in s.tasks && SameAccepting(s.tasks[t], s.tasks[u]) ==> t == u)
    && (forall t, u :: t in s.tasks && u in s.tasks && t != u && SameProcessing(s.tasks[t], s.tasks[u]) ==>
          Outlived(s, Processing(s.tasks[t]).value) && !(Hot(s.tasks[t]) && Hot(s.tasks[u])))
  }

  ghost predicate Distinct(handoffs: seq<Handoff>) {
    forall i, j :: 0 <= i < j < |handoffs| ==> handoffs[i].routeId != handoffs[j].routeId
  }

  ghost predicate Once(s: State) {
    && Apart(s)
    && (forall id :: OnceRoute(s, id))
    && (forall t :: t in s.tasks ==> OnceTask(s, s.tasks[t]))
    && Distinct(s.log.handoffs)
  }

  // ---- every disciplined step keeps it ----

  /** Facts about one step that need no invariant. */
  lemma StepShape(cfg: Config, s: State, a: Action)
    requires Enabled(cfg, s, a)
    ensures var s' := Apply(cfg, s, a);
            && s.clock <= s'.clock
            && (s'.log.handoffs == s.log.handoffs ||
                (a.SessionAnswer? && a.ok && |s'.log.handoffs| == |s.log.handoffs| + 1 &&
                 s.log.handoffs <= s'.log.handoffs &&
                 s'.log.handoffs[|s.log.handoffs|].routeId == s.tasks[a.t].row.routeId))
  {
  }

  /** A step hands over the route of the task that acted, and no other. */
  lemma NewlyHanded(cfg: Config, s: State, a: Action, id: RouteId)
    requires Enabled(cfg, s, a)
    ensures Handed(s.log, id) ==> Handed(Apply(cfg, s, a).log, id)
    ensures Handed(Apply(cfg, s, a).log, id) && !Handed(s.log, id) ==>
              a.SessionAnswer? && a.ok && s.tasks[a.t].row.routeId == id
  {
    StepShape(cfg, s, a);
    var s' := Apply(cfg, s, a);
    if Handed(s.log, id) {
      HandedGrows(s.log, s'.log, id);
    }
    if Handed(s'.log, id) {
      var i :| 0 <= i < |s'.log.handoffs| && s'.log.handoffs[i].routeId == id;
      assert i < |s.log.handoffs| ==> s.log.handoffs[i].routeId == id;
    }
  }

  lemma TasksStay(cfg: Config, s: State, a: Action, t: TaskId)
    requires Enabled(cfg, s, a) && t in s.tasks
    requires Moved(a) != Some(t) && a != Die(t)
    ensures t in Apply(cfg, s, a).tasks && Apply(cfg, s, a).tasks[t] == s.tasks[t]
  {
  }

  /** A task that a step starts or continues accepts a route that it accepted already, or whose request it received. */
  lemma MovedAccepting(cfg: Config, s: State, a: Action)
    requires Enabled(cfg, s, a) && Moved(a).Some? && Moved(a).value in Apply(cfg, s, a).tasks
    requires Accepting(Apply(cfg, s, a).tasks[Moved(a).value]).Some?
    ensures var h := Accepting(Apply(cfg, s, a).tasks[Moved(a).value]);
            || (Acts(a) && a.t in s.tasks && Accepting(s.tasks[a.t]) == h)
            || (a.Receive? && h == Some(a.request.routeId))
  {
  }

  /** It processes a route that it processed or accepted already, or whose row it scanned. */
  lemma MovedProcessing(cfg: Config, s: State, a: Action)
    requires Ready(cfg, s, a) && Moved(a).Some? && Moved(a).value in Apply(cfg, s, a).tasks
    requires Processing(Apply(cfg, s, a).tasks[Moved(a).value]).Some?
    ensures var task := Apply(cfg, s, a).tasks[Moved(a).value];
            var id := Processing(task).value;
            || (Acts(a) && a.t in s.tasks && Processing(s.tasks[a.t]) == Some(id)
                && (Hot(task) ==> Hot(s.tasks[a.t]) || !Outlived(s, id)))
            || (a.Store? && s.tasks[a.t].InsertRow? && s.tasks[a.t].row.routeId == id && !Hot(task))
            || (a.ScanInbox? && id == a.id)
  {
  }

  lemma OutlivedStays(cfg: Config, s: State, a: Action, id: RouteId)
    requires Enabled(cfg, s, a) && Outlived(s, id)
    ensures Outlived(Apply(cfg, s, a), id)
  {
    StepShape(cfg, s, a);
    StepFramesIssued(cfg, s, a, id);
  }

  lemma StepKeepsAcceptances(cfg: Config, s: State, a: Action, t: TaskId, u: TaskId)
    requires Enabled(cfg, s, a) && Apart(s) && Serialised(s, a)
    requires t in Apply(cfg, s, a).tasks && u in Apply(cfg, s, a).tasks
    requires SameAccepting(Apply(cfg, s, a).tasks[t], Apply(cfg, s, a).tasks[u])
    ensures t == u
  {
    if Moved(a) != Some(t) { StepFramesTasks(cfg, s, a, t); }
    if Moved(a) != Some(u) { StepFramesTasks(cfg, s, a, u); }
    if Moved(a) == Some(t) || Moved(a) == Some(u) {
      MovedAccepting(cfg, s, a);
    }
  }

  /** The task `t` moves while `u` stays. */
  lemma MoveKeepsProcessors(cfg: Config, s: State, a: Action, t: TaskId, u: TaskId)
    requires Once(s) && Ready(cfg, s, a) && Serialised(s, a) && Moved(a) == Some(t) && t != u && u in s.tasks
    requires t in Apply(cfg, s, a).tasks && SameProcessing(Apply(cfg, s, a).tasks[t], s.tasks[u])
    ensures Outlived(s, Processing(s.tasks[u]).value) && !(Hot(Apply(cfg, s, a).tasks[t]) && Hot(s.tasks[u]))
  {
    MovedProcessing(cfg, s, a);
    assert OnceTask(s, s.tasks[u]);
    if Acts(a) {
      assert a.t == t && OnceTask(s, s.tasks[t]);
      if Processing(s.tasks[t]) == Processing(s.tasks[u]) {
        assert SameProcessing(s.tasks[t], s.tasks[u]);
      }
    }
  }

  lemma StepKeepsProcessors(cfg: Config, s: State, a: Action, t: TaskId, u: TaskId)
    requires Inv(cfg, s) && Once(s) && Enabled(cfg, s, a) && Serialised(s, a) && t != u
    requires t in Apply(cfg, s, a).tasks && u in Apply(cfg, s, a).tasks
    requires SameProcessing(Apply(cfg, s, a).tasks[t], Apply(cfg, s, a).tasks[u])
    ensures var s' := Apply(cfg, s, a);
            Outlived(s', Processing(s'.tasks[t]).value) && !(Hot(s'.tasks[t]) && Hot(s'.tasks[u]))
  {
    InvIsReady(cfg, s, a);
    if Moved(a) != Some(t) { StepFramesTasks(cfg, s, a, t); }
    if Moved(a) != Some(u) { StepFramesTasks(cfg, s, a, u); }
    if Moved(a) == Some(t) {
      MoveKeepsProcessors(cfg, s, a, t, u);
    } else if Moved(a) == Some(u) {
      MoveKeepsProcessors(cfg, s, a, u, t);
    } else {
      assert SameProcessing(s.tasks[t], s.tasks[u]);
    }
    OutlivedStays(cfg, s, a, Processing(Apply(cfg, s, a).tasks[t]).value);
  }

  lemma StepKeepsApart(cfg: Config, s: State, a: Action)
    requires Inv(cfg, s) && Once(s) && Enabled(cfg, s, a) && Serialised(s, a)
    ensures Apart(Apply(cfg, s, a))
  {
    var s' := Apply(cfg, s, a);
    forall t, u | t in s'.tasks && u in s'.tasks && SameAccepting(s'.tasks[t], s'.tasks[u]) ensures t == u {
      StepKeepsAcceptances(cfg, s, a, t, u);
    }
    forall t, u | t in s'.tasks && u in s'.tasks && t != u && SameProcessing(s'.tasks[t], s'.tasks[u])
      ensures Outlived(s', Processing(s'.tasks[t]).value) && !(Hot(s'.tasks[t]) && Hot(s'.tasks[u]))
    {
      StepKeepsProcessors(cfg, s, a, t, u);
    }
  }

  /** The row of a route changes only when a task of that route, or its sweeper, writes it. */
  ghost predicate SameRow(s: State, s': State, id: RouteId) {
    && (id in s'.disk.inbox <==> id in s.disk.inbox)
    && (id in s'.disk.inbox ==> s'.disk.inbox[id] == s.disk.inbox[id])
  }

  lemma OnlyStoresChangeRows(cfg: Config, s: State, a: Action)
    requires Enabled(cfg, s, a) && !a.Store?
    ensures Apply(cfg, s, a).disk.inbox == s.disk.inbox
  {
  }

  lemma StoreChangesItsRow(cfg: Config, s: State, t: TaskId, task: Task, w: Write, id: RouteId)
    requires IsWrite(task)
    ensures var s' := Stored(cfg, s, t, task, w);
            || SameRow(s, s', id)
            || (task == SweepRow(id) && id !in s'.disk.inbox)
            || ((task.InsertRow? || task.PutCompleted? || task.PutRetryIn?) && task.row.routeId == id
                && id in s'.disk.inbox && s'.disk.inbox[id] == task.row)
  {
  }

  lemma StepKeepsStamps(cfg: Config, s: State, a: Action, id: RouteId)
    requires Inv(cfg, s) && Once(s) && Enabled(cfg, s, a)
    ensures var s' := Apply(cfg, s, a);
            id in s'.disk.inbox && s'.disk.inbox[id].status.Completed? ==> StampedAfter(s'.log, s'.disk.inbox[id])
  {
    if a.Store? {
      StoreChangesItsRow(cfg, s, a.t, s.tasks[a.t], a.w, id);
      assert TaskOk(s.clock, s.disk, s.log, s.tasks[a.t]) && OnceTask(s, s.tasks[a.t]);
    } else {
      OnlyStoresChangeRows(cfg, s, a);
    }
    assert RouteInv(cfg, s, id) && OnceRoute(s, id);
    if id in s.log.issued {
      StepFramesIssued(cfg, s, a, id);
    }
  }

  /** A handed route whose row is Completed keeps it, unless it has outlived its deadline. */
  lemma CompletedStays(cfg: Config, s: State, a: Action, id: RouteId)
    requires Inv(cfg, s) && Once(s) && Enabled(cfg, s, a) && Handed(s.log, id)
    requires id in s.disk.inbox && s.disk.inbox[id].status.Completed?
    ensures var s' := Apply(cfg, s, a);
            Outlived(s', id) || (id in s'.disk.inbox && s'.disk.inbox[id].status.Completed?)
  {
    if a.Store? {
      StoreChangesItsRow(cfg, s, a.t, s.tasks[a.t], a.w, id);
      assert TaskOk(s.clock, s.disk, s.log, s.tasks[a.t]) && OnceTask(s, s.tasks[a.t]);
      if id in s.log.issued {
        StepFramesIssued(cfg, s, a, id);
      }
    } else {
      OnlyStoresChangeRows(cfg, s, a);
    }
  }

  lemma StepKeepsOnceRoute(cfg: Config, s: State, a: Action, id: RouteId)
    requires Inv(cfg, s) && Once(s) && Enabled(cfg, s, a) && CompletionKept(s, a)
    ensures OnceRoute(Apply(cfg, s, a), id)
  {
    var s' := Apply(cfg, s, a);
    StepKeepsStamps(cfg, s, a, id);
    NewlyHanded(cfg, s, a, id);
    assert OnceRoute(s, id);
    if Handed(s'.log, id) && !Handed(s.log, id) {
      assert s'.tasks[a.t].PutCompleted? && s'.tasks[a.t].row.routeId == id;
    } else if Handed(s.log, id) {
      if Outlived(s, id) {
        StepShape(cfg, s, a);
        StepFramesIssued(cfg, s, a, id);
      } else if Completing(s, id) {
        var t :| t in s.tasks && s.tasks[t].PutCompleted? && s.tasks[t].row.routeId == id;
        if Moved(a) != Some(t) && a != Die(t) {
          TasksStay(cfg, s, a, t);
        } else {
          assert TaskOk(s.clock, s.disk, s.log, s.tasks[t]);
          CompletionLands(cfg, s, a, t);
        }
      } else {
        CompletedStays(cfg, s, a, id);
      }
    }
  }

  /** The only way out of the completion window of an acknowledged route is through a Completed row. */
  lemma CompletionLands(cfg: Config, s: State, a: Action, t: TaskId)
    requires Enabled(cfg, s, a) && CompletionKept(s, a)
    requires t in s.tasks && s.tasks[t].PutCompleted? && (Moved(a) == Some(t) || a == Die(t))
    requires Handed(s.log, s.tasks[t].row.routeId)
    ensures var inbox := Apply(cfg, s, a).disk.inbox;
            s.tasks[t].row.routeId in inbox && inbox[s.tasks[t].row.routeId] == s.tasks[t].row
  {
    assert a.Store? && a.t == t;
  }

  /** Another task's write brings a row only to routes whose deadline has passed, and takes none away before. */
  lemma StayedRow(cfg: Config, s: State, a: Action, t: TaskId, id: RouteId)
    requires Once(s) && Enabled(cfg, s, a) && t in s.tasks && Moved(a) != Some(t)
    ensures Processing(s.tasks[t]) == Some(id) && Present(s, id) ==> Present(Apply(cfg, s, a), id)
    ensures Accepting(s.tasks[t]) == Some(id) && Absent(s, id) ==> Absent(Apply(cfg, s, a), id)
  {
    if Outlived(s, id) {
      OutlivedStays(cfg, s, a, id);
    } else if a.Store? {
      StoreChangesItsRow(cfg, s, a.t, s.tasks[a.t], a.w, id);
      assert OnceTask(s, s.tasks[a.t]);
      assert !SameAccepting(s.tasks[t], s.tasks[a.t]);
    } else {
      OnlyStoresChangeRows(cfg, s, a);
    }
  }

  /** A handover of its route leaves another task only past the deadline, and never on the way to the session. */
  lemma StayedHanding(cfg: Config, s: State, a: Action, t: TaskId, id: RouteId)
    requires Once(s) && Enabled(cfg, s, a) && t in s.tasks && Moved(a) != Some(t)
    requires Handed(Apply(cfg, s, a).log, id) && !Handed(s.log, id)
    ensures Processing(s.tasks[t]) == Some(id) ==> Outlived(s, id) && !Hot(s.tasks[t])
    ensures Accepting(s.tasks[t]) == Some(id) && Absent(s, id) ==> Outlived(s, id)
  {
    NewlyHanded(cfg, s, a, id);
    assert OnceTask(s, s.tasks[a.t]);
    assert Processing(s.tasks[t]) == Some(id) ==> SameProcessing(s.tasks[t], s.tasks[a.t]);
  }

  lemma StayedTaskIsOnce(cfg: Config, s: State, a: Action, t: TaskId)
    requires Inv(cfg, s) && Once(s) && Enabled(cfg, s, a)
    requires t in s.tasks && Moved(a) != Some(t)
    ensures OnceTask(Apply(cfg, s, a), s.tasks[t])
  {
    var task := s.tasks[t];
    assert TaskOk(s.clock, s.disk, s.log, task) && OnceTask(s, task);
    if RouteOf(task).Some? {
      var id := RouteOf(task).value;
      StayedRow(cfg, s, a, t, id);
      if Outlived(s, id) {
        OutlivedStays(cfg, s, a, id);
      }
      if id in s.log.issued {
        StepFramesIssued(cfg, s, a, id);
      }
      if Handed(Apply(cfg, s, a).log, id) && !Handed(s.log, id) {
        StayedHanding(cfg, s, a, t, id);
      }
    }
  }

  lemma SweptIsOutlived(cfg: Config, s: State, id: RouteId, now: u64)
    requires RouteInv(cfg, s, id) && OnceRoute(s, id) && now <= s.clock
    requires id in s.disk.inbox && Sweepable(cfg, s.disk.inbox[id], now)
    ensures Outlived(s, id)
  {
  }

  ghost predicate MovedOnce(s': State, t: TaskId) {
    t in s'.tasks ==> OnceTask(s', s'.tasks[t])
  }

  /** A route that is being completed has its row, or has passed its deadline. */
  lemma CompletingIsPresent(s: State, id: RouteId)
    requires forall t :: t in s.tasks ==> OnceTask(s, s.tasks[t])
    ensures Completing(s, id) ==> Present(s, id)
  {
  }

  lemma LookupMovesOnce(s: State, t: TaskId, m: RouteRequest, readable: bool)
    requires OnceRoute(s, m.routeId) && (Completing(s, m.routeId) ==> Present(s, m.routeId))
    ensures MovedOnce(LookedUp(s, t, m, readable), t)
  {
  }

  lemma ScanMovesOnce(s: State, id: RouteId, t: TaskId)
    requires id in s.disk.inbox && s.disk.inbox[id].routeId == id && OnceRoute(s, id) && !Completing(s, id)
    ensures MovedOnce(Continue(s, t, Process(s.disk.inbox[id])), t)
  {
  }

  lemma ProcessMovesOnce(cfg: Config, s: State, t: TaskId, row: InboxItem)
    requires RouteInv(cfg, s, row.routeId) && RowOk(s.log, row) && OnceTask(s, Process(row))
    ensures MovedOnce(Processed(cfg, s, t, row), t)
  {
  }

  lemma InReadMovesOnce(s: State, t: TaskId, row: InboxItem, now: u64, readable: bool)
    requires OnceTask(s, FetchIn(row, now))
    ensures MovedOnce(InRead(s, t, row, now, readable), t)
  {
  }

  lemma AnswerMovesOnce(cfg: Config, s: State, t: TaskId, task: Task, ok: bool)
    requires task.HandOff? && OnceTask(s, task)
    ensures MovedOnce(Answered(cfg, s, t, task, ok), t)
  {
  }

  lemma StoreMovesOnce(cfg: Config, s: State, t: TaskId, task: Task, w: Write)
    requires IsWrite(task) && OnceTask(s, task)
    ensures MovedOnce(Stored(cfg, s, t, task, w), t)
  {
  }

  lemma StartedTaskIsOnce(cfg: Config, s: State, a: Action)
    requires Once(s) && Ready(cfg, s, a) && Serialised(s, a) && (a.ScanInbox? || a.LookUp? || a.SweepPick?)
    requires a.SweepPick? ==> TaskOk(s.clock, s.disk, s.log, s.tasks[a.t])
    ensures MovedOnce(Apply(cfg, s, a), Moved(a).value)
  {
    match a
    case ScanInbox(id, t) =>
      assert !Completing(s, id);
      ScanMovesOnce(s, id, t);
    case LookUp(t, readable) =>
      CompletingIsPresent(s, s.tasks[t].request.routeId);
      LookupMovesOnce(s, t, s.tasks[t].request, readable);
    case SweepPick(t, id, _) =>
      SweptIsOutlived(cfg, s, id, s.tasks[t].now);
    case _ =>
  }

  lemma ActedTaskIsOnce(cfg: Config, s: State, a: Action)
    requires Ready(cfg, s, a) && (a.ProcessStart? || a.ReadIn? || a.SessionAnswer? || a.Store?)
    requires OnceTask(s, s.tasks[a.t])
    ensures MovedOnce(Apply(cfg, s, a), a.t)
  {
    match a
    case ProcessStart(t) => ProcessMovesOnce(cfg, s, t, s.tasks[t].row);
    case ReadIn(t, readable) => InReadMovesOnce(s, t, s.tasks[t].row, s.tasks[t].now, readable);
    case SessionAnswer(t, ok) => AnswerMovesOnce(cfg, s, t, s.tasks[t], ok);
    case Store(t, w) => StoreMovesOnce(cfg, s, t, s.tasks[t], w);
    case _ =>
  }

  /** The sender's tasks and a request just received promise nothing. */
  lemma OtherTaskIsOnce(cfg: Config, s: State, a: Action)
    requires Enabled(cfg, s, a) && Moved(a).Some?
    requires !a.ScanInbox? && !a.LookUp? && !a.SweepPick?
    requires !a.ProcessStart? && !a.ReadIn? && !a.SessionAnswer? && !a.Store?
    ensures MovedOnce(Apply(cfg, s, a), Moved(a).value)
  {
  }

  lemma MovedTaskIsOnce(cfg: Config, s: State, a: Action)
    requires Once(s) && Ready(cfg, s, a) && Serialised(s, a)
    requires a.SweepPick? ==> TaskOk(s.clock, s.disk, s.log, s.tasks[a.t])
    requires Moved(a).Some?
    ensures MovedOnce(Apply(cfg, s, a), Moved(a).value)
  {
    if a.ScanInbox? || a.LookUp? || a.SweepPick? {
      StartedTaskIsOnce(cfg, s, a);
    } else if a.ProcessStart? || a.ReadIn? || a.SessionAnswer? || a.Store? {
      ActedTaskIsOnce(cfg, s, a);
    } else {
      OtherTaskIsOnce(cfg, s, a);
    }
  }

  lemma StepKeepsOnceTask(cfg: Config, s: State, a: Action, t: TaskId)
    requires Inv(cfg, s) && Once(s) && Enabled(cfg, s, a) && Serialised(s, a)
    requires t in Apply(cfg, s, a).tasks
    ensures OnceTask(Apply(cfg, s, a), Apply(cfg, s, a).tasks[t])
  {
    if Moved(a) == Some(t) {
      InvIsReady(cfg, s, a);
      MovedTaskIsOnce(cfg, s, a);
    } else {
      StepFramesTasks(cfg, s, a, t);
      StayedTaskIsOnce(cfg, s, a, t);
    }
  }

  lemma StepKeepsDistinct(cfg: Config, s: State, a: Action)
    requires Once(s) && Enabled(cfg, s, a)
    ensures Distinct(Apply(cfg, s, a).log.handoffs)
  {
    StepShape(cfg, s, a);
    if a.SessionAnswer? {
      assert OnceTask(s, s.tasks[a.t]);
    }
  }

  lemma StepKeepsOnce(cfg: Config, s: State, a: Action)
    requires Inv(cfg, s) && Once(s) && Enabled(cfg, s, a)
    requires Serialised(s, a) && CompletionKept(s, a)
    ensures Once(Apply(cfg, s, a))
  {
    var s' := Apply(cfg, s, a);
    StepKeepsApart(cfg, s, a);
    forall id ensures OnceRoute(s', id) {
      StepKeepsOnceRoute(cfg, s, a, id);
    }
    forall t | t in s'.tasks ensures OnceTask(s', s'.tasks[t]) {
      StepKeepsOnceTask(cfg, s, a, t);
    }
    StepKeepsDistinct(cfg, s, a);
  }

  lemma {:induction false} RunKeepsOnce(cfg: Config, run: seq<State>, acts: seq<Action>, n: nat)
    requires IsRun(cfg, run, acts) && Disciplined(run, acts) && n < |run|
    ensures Once(run[n])
  {
    if n > 0 {
      RunKeepsOnce(cfg, run, acts, n - 1);
      RunKeepsInv(cfg, run, acts, n - 1);
      StepKeepsOnce(cfg, run[n - 1], acts[n - 1]);
      assert run[n - 1 + 1] == Apply(cfg, run[n - 1], acts[n - 1]);
    }
  }

  /** AT MOST ONCE. In every state of every disciplined run, no two session acknowledgements belong to
      the same route, however often its request was delivered and even after its row was swept. */
  lemma AtMostOnce(cfg: Config, run: seq<State>, acts: seq<Action>, n: nat, i: nat, j: nat)
    requires IsRun(cfg, run, acts) && Disciplined(run, acts) && n < |run|
    requires i < j < |run[n].log.handoffs|
    ensures run[n].log.handoffs[i].routeId != run[n].log.handoffs[j].routeId
  {
    RunKeepsOnce(cfg, run, acts, n);
  }
}
