/** Bounded, spaced retransmission. When the dispatches of one route do not overlap and their
    bookkeeping after a transmission is not lost, the k-th transmission of a route comes at least
    (k - 1) retry intervals after its creation, before it expires, and k never exceeds the retry count. */
module RouteRetransmission {
  import opened MqttTypes
  import opened DurableRoute
  import opened RouteNoLoss

  /** The route a dispatch may still write a row for. */
  function Sending(task: Task): Option<RouteId> {
    match task
    case Dispatch(out) => Some(out.routeId)
    case FetchOut(out, _) => Some(out.routeId)
    case AwaitReply(out, _) => Some(out.routeId)
    case PutRetryOut(out) => Some(out.routeId)
    case DeleteRow(id, _) => Some(id)
    case _ => None
  }

  /** The dispatch has acted, and its row does not show it yet. */
  predicate Booking(task: Task) {
    task.AwaitReply? || task.PutRetryOut? || task.DeleteRow?
  }

  ghost predicate SenderBusy(s: State, id: RouteId) {
    exists t :: t in s.tasks && Sending(s.tasks[t]) == Some(id)
  }

  ghost predicate BookingOn(s: State, id: RouteId) {
    exists t :: t in s.tasks && Sending(s.tasks[t]) == Some(id) && Booking(s.tasks[t])
  }

  ghost predicate SendsSerialised(s: State, a: Action) {
    a.ScanOutbox? ==> !SenderBusy(s, a.id)
  }

  ghost predicate BookingKept(s: State, a: Action) {
    (a.Die? || (a.Store? && a.w.FailedLost?)) && a.t in s.tasks ==> !Booking(s.tasks[a.t])
  }

  ghost predicate Orderly(run: seq<State>, acts: seq<Action>)
    requires |run| == |acts| + 1
  {
    forall i :: 0 <= i < |acts| ==> SendsSerialised(run[i], acts[i]) && BookingKept(run[i], acts[i])
  }

  /** How many of the transmissions belong to a route. */
  function Sends(ts: seq<Transmission>, id: RouteId): nat
    decreases |ts|
  {
    if ts == [] then 0
    else Sends(ts[..|ts| - 1], id) + (if ts[|ts| - 1].routeId == id then 1 else 0)
  }

  // ---- the invariant ----

  /** The row's retry time accounts for every attempt it counts. */
  predicate Spaced(cfg: Config, log: Log, out: OutboxItem) {
    && out.routeId in log.issued
    && log.issued[out.routeId].createdAt + out.attempts * cfg.retryInterval <= out.retryAt
  }

  ghost predicate SpacedTask(cfg: Config, log: Log, task: Task) {
    match task
    case Dispatch(out) => Spaced(cfg, log, out) && Sends(log.transmissions, out.routeId) <= out.attempts
    case FetchOut(out, now) =>
      && Spaced(cfg, log, out) && Sends(log.transmissions, out.routeId) <= out.attempts
      && out.retryAt <= now < out.expiryAt && out.attempts < cfg.maxRetryCount
    case AwaitReply(out, now) =>
      && Spaced(cfg, log, out) && Sends(log.transmissions, out.routeId) <= out.attempts + 1
      && out.retryAt <= now
    case PutRetryOut(out) => Spaced(cfg, log, out) && Sends(log.transmissions, out.routeId) <= out.attempts
    case _ => true
  }

  /** Nothing has been done for the route yet. */
  ghost predicate Untouched(s: State, id: RouteId) {
    && id !in s.disk.outbox && id !in s.log.removed
    && Sends(s.log.transmissions, id) == 0 && !SenderBusy(s, id)
  }

  ghost predicate SpacedRoute(cfg: Config, s: State, id: RouteId) {
    && (id in s.disk.outbox ==>
          && Spaced(cfg, s.log, s.disk.outbox[id])
          && (Sends(s.log.transmissions, id) <= s.disk.outbox[id].attempts || BookingOn(s, id)))
    && (id !in s.log.issued ==> Untouched(s, id))
    && (id in s.enqueuing && !s.enqueuing[id].UndoPayload? ==> Untouched(s, id))
    && (id in s.log.removed ==> id !in s.disk.outbox && !SenderBusy(s, id))
  }

  predicate SameSender(task1: Task, task2: Task) {
    Sending(task1).Some? && Sending(task1) == Sending(task2)
  }

  ghost predicate SoleSender(s: State) {
    forall t, u :: t in s.tasks && u in s.tasks && SameSender(s.tasks[t], s.tasks[u]) ==> t == u
  }

  /** The i-th transmission obeys the retry policy. */
  ghost predicate TimelyAt(cfg: Config, log: Log, i: nat)
    requires i < |log.transmissions|
  {
    var x := log.transmissions[i];
    var k := Sends(log.transmissions[..i + 1], x.routeId);
    && x.routeId in log.issued
    && 1 <= k <= cfg.maxRetryCount
    && log.issued[x.routeId].createdAt + (k - 1) * cfg.retryInterval <= x.at < log.issued[x.routeId].expiryAt
    && log.issued[x.routeId].expiryAt <= log.issued[x.routeId].createdAt + cfg.ttl
  }

  ghost predicate Timely(cfg: Config, s: State) {
    && SoleSender(s)
    && (forall id :: SpacedRoute(cfg, s, id))
    && (forall t :: t in s.tasks ==> SpacedTask(cfg, s.log, s.tasks[t]))
    && (forall i :: 0 <= i < |s.log.transmissions| ==> TimelyAt(cfg, s.log, i))
  }

  // ---- steps ----

  lemma MulKeepsOrder(a: nat, b: nat, c: nat)
    requires a <= b
    ensures a * c <= b * c
  {
  }

  lemma RetryIsSpaced(cfg: Config, log: Log, out: OutboxItem, now: u64)
    requires Spaced(cfg, log, out) && out.retryAt <= now
    ensures Spaced(cfg, log, RetriedOut(cfg, out, now))
  {
    assert (out.attempts + 1) * cfg.retryInterval == out.attempts * cfg.retryInterval + cfg.retryInterval;
  }

  lemma OneMoreSend(ts: seq<Transmission>, x: Transmission, id: RouteId)
    ensures Sends(ts + [x], id) == Sends(ts, id) + (if x.routeId == id then 1 else 0)
  {
    assert (ts + [x])[..|ts|] == ts;
  }

  /** A step transmits for the route of the task that acted, or not at all. */
  lemma SendShape(cfg: Config, s: State, a: Action)
    requires Enabled(cfg, s, a)
    ensures var ts' := Apply(cfg, s, a).log.transmissions;
            || ts' == s.log.transmissions
            || (a.ReadOut? && ts' == s.log.transmissions + [Transmission(s.tasks[a.t].out.routeId, s.tasks[a.t].now)]
                && Apply(cfg, s, a).tasks[a.t] == AwaitReply(s.tasks[a.t].out, s.tasks[a.t].now))
  {
  }

  lemma SendsChange(cfg: Config, s: State, a: Action, id: RouteId)
    requires Enabled(cfg, s, a)
    ensures var n, n' := Sends(s.log.transmissions, id), Sends(Apply(cfg, s, a).log.transmissions, id);
            n' == n || (n' == n + 1 && a.ReadOut? && s.tasks[a.t].out.routeId == id
                        && Apply(cfg, s, a).tasks[a.t].AwaitReply? && Apply(cfg, s, a).tasks[a.t].out.routeId == id)
  {
    SendShape(cfg, s, a);
    if a.ReadOut? {
      OneMoreSend(s.log.transmissions, Transmission(s.tasks[a.t].out.routeId, s.tasks[a.t].now), id);
    }
  }

  lemma MovedSending(cfg: Config, s: State, a: Action)
    requires Enabled(cfg, s, a) && Moved(a).Some? && Moved(a).value in Apply(cfg, s, a).tasks
    requires Sending(Apply(cfg, s, a).tasks[Moved(a).value]).Some?
    requires a.ScanOutbox? ==> s.disk.outbox[a.id].routeId == a.id
    ensures var h := Sending(Apply(cfg, s, a).tasks[Moved(a).value]);
            || (Acts(a) && Sending(s.tasks[a.t]) == h)
            || (a.ScanOutbox? && h == Some(a.id))
            || (a.EnqueuePutRow? && a.w.Done? && h == Some(a.id))
  {
  }

  lemma StepKeepsSole(cfg: Config, s: State, a: Action)
    requires Enabled(cfg, s, a) && SoleSender(s) && SendsSerialised(s, a)
    requires a.ScanOutbox? ==> s.disk.outbox[a.id].routeId == a.id
    requires a.EnqueuePutRow? ==> !SenderBusy(s, a.id)
    ensures SoleSender(Apply(cfg, s, a))
  {
    var s' := Apply(cfg, s, a);
    forall t, u | t in s'.tasks && u in s'.tasks && SameSender(s'.tasks[t], s'.tasks[u]) ensures t == u {
      if Moved(a) != Some(t) { StepFramesTasks(cfg, s, a, t); }
      if Moved(a) != Some(u) { StepFramesTasks(cfg, s, a, u); }
      if Moved(a) == Some(t) || Moved(a) == Some(u) {
        MovedSending(cfg, s, a);
      }
    }
  }

  lemma BusyChange(cfg: Config, s: State, a: Action, id: RouteId)
    requires Enabled(cfg, s, a) && SenderBusy(Apply(cfg, s, a), id) && !SenderBusy(s, id)
    requires a.ScanOutbox? ==> s.disk.outbox[a.id].routeId == a.id
    ensures (a.ScanOutbox? || (a.EnqueuePutRow? && a.w.Done?)) && a.id == id
  {
    var s' := Apply(cfg, s, a);
    var t :| t in s'.tasks && Sending(s'.tasks[t]) == Some(id);
    if Moved(a) == Some(t) {
      MovedSending(cfg, s, a);
    } else {
      StepFramesTasks(cfg, s, a, t);
    }
  }

  /** An outbox row changes only at the end of its enqueue or by the write of a dispatch. */
  ghost predicate SameOut(s: State, s': State, id: RouteId) {
    && (id in s'.disk.outbox <==> id in s.disk.outbox)
    && (id in s'.disk.outbox ==> s'.disk.outbox[id] == s.disk.outbox[id])
    && (id in s'.log.removed <==> id in s.log.removed)
  }

  lemma OnlyWritesChangeOutbox(cfg: Config, s: State, a: Action)
    requires Enabled(cfg, s, a) && !a.Store? && !a.EnqueuePutRow?
    ensures Apply(cfg, s, a).disk.outbox == s.disk.outbox && Apply(cfg, s, a).log.removed == s.log.removed
  {
  }

  lemma WriteChangesOutbox(cfg: Config, s: State, t: TaskId, task: Task, w: Write, id: RouteId)
    requires IsWrite(task)
    ensures var s' := Stored(cfg, s, t, task, w);
            || SameOut(s, s', id)
            || (task.PutRetryOut? && task.out.routeId == id && id in s'.disk.outbox && s'.disk.outbox[id] == task.out
                && (id in s'.log.removed <==> id in s.log.removed))
            || (task.DeleteRow? && task.id == id && id !in s'.disk.outbox && id in s'.log.removed)
  {
  }

  lemma OutChange(cfg: Config, s: State, a: Action, id: RouteId)
    requires Enabled(cfg, s, a)
    ensures var s' := Apply(cfg, s, a);
            || SameOut(s, s', id)
            || (a.EnqueuePutRow? && a.id == id && id in s'.disk.outbox
                && s'.disk.outbox[id] == NewOutboxItem(id, s.log.issued[id])
                && (id in s'.log.removed <==> id in s.log.removed))
            || (a.Store? && s.tasks[a.t].PutRetryOut? && s.tasks[a.t].out.routeId == id
                && id in s'.disk.outbox && s'.disk.outbox[id] == s.tasks[a.t].out
                && (id in s'.log.removed <==> id in s.log.removed))
            || (a.Store? && s.tasks[a.t].DeleteRow? && s.tasks[a.t].id == id
                && id !in s'.disk.outbox && id in s'.log.removed)
  {
    if a.Store? {
      WriteChangesOutbox(cfg, s, a.t, s.tasks[a.t], a.w, id);
    } else if !a.EnqueuePutRow? {
      OnlyWritesChangeOutbox(cfg, s, a);
    }
  }

  lemma UntouchedStays(cfg: Config, s: State, a: Action, id: RouteId)
    requires Enabled(cfg, s, a) && Untouched(s, id)
    requires a.ScanOutbox? ==> s.disk.outbox[a.id].routeId == a.id
    requires !(a.EnqueuePutRow? && a.id == id)
    ensures Untouched(Apply(cfg, s, a), id)
  {
    OutChange(cfg, s, a, id);
    SendsChange(cfg, s, a, id);
    if a.Store? || a.ReadOut? {
      assert Sending(s.tasks[a.t]) != Some(id);
    }
    if SenderBusy(Apply(cfg, s, a), id) {
      BusyChange(cfg, s, a, id);
    }
  }

  lemma RemovedStays(cfg: Config, s: State, a: Action, id: RouteId)
    requires Inv(cfg, s) && Timely(cfg, s) && Enabled(cfg, s, a) && id in Apply(cfg, s, a).log.removed
    requires SoleSender(Apply(cfg, s, a))
    ensures id !in Apply(cfg, s, a).disk.outbox && !SenderBusy(Apply(cfg, s, a), id)
  {
    var s' := Apply(cfg, s, a);
    assert SpacedRoute(cfg, s, id);
    assert a.ScanOutbox? ==> RouteInv(cfg, s, a.id);
    OutChange(cfg, s, a, id);
    if a.Store? {
      assert Sending(s.tasks[a.t]) == Some(id) ==> SenderBusy(s, id);
    }
    if id in s.log.removed {
      if SenderBusy(s', id) {
        BusyChange(cfg, s, a, id);
      }
    } else {
      DeletedIsIdle(cfg, s, a, id);
    }
  }

  lemma DeletedIsIdle(cfg: Config, s: State, a: Action, id: RouteId)
    requires Enabled(cfg, s, a) && SoleSender(s) && a.Store? && s.tasks[a.t].DeleteRow? && s.tasks[a.t].id == id
    ensures !SenderBusy(Apply(cfg, s, a), id)
  {
    var s' := Apply(cfg, s, a);
    forall t | t in s'.tasks ensures Sending(s'.tasks[t]) != Some(id) {
      if t != a.t {
        StepFramesTasks(cfg, s, a, t);
        assert !SameSender(s.tasks[t], s.tasks[a.t]);
      }
    }
  }

  /** Bookkeeping that is under way stays under way until it has reached the row. */
  lemma BookingStays(cfg: Config, s: State, a: Action, t: TaskId)
    requires Enabled(cfg, s, a) && BookingKept(s, a) && t in s.tasks && Booking(s.tasks[t])
    ensures var s' := Apply(cfg, s, a);
            var id := Sending(s.tasks[t]).value;
            || (t in s'.tasks && Sending(s'.tasks[t]) == Some(id) && Booking(s'.tasks[t]))
            || (s.tasks[t].PutRetryOut? && id in s'.disk.outbox && s'.disk.outbox[id] == s.tasks[t].out)
            || (s.tasks[t].DeleteRow? && id !in s'.disk.outbox)
  {
    if Moved(a) != Some(t) {
      if t in Apply(cfg, s, a).tasks {
        StepFramesTasks(cfg, s, a, t);
      }
    }
  }

  lemma RowStaysSpaced(cfg: Config, s: State, a: Action, id: RouteId)
    requires Inv(cfg, s) && Timely(cfg, s) && Enabled(cfg, s, a)
    requires id in Apply(cfg, s, a).disk.outbox
    ensures Spaced(cfg, Apply(cfg, s, a).log, Apply(cfg, s, a).disk.outbox[id])
  {
    assert SpacedRoute(cfg, s, id) && RouteInv(cfg, s, id);
    OutChange(cfg, s, a, id);
    if id in s.log.issued {
      StepFramesIssued(cfg, s, a, id);
    }
    if a.Store? {
      assert SpacedTask(cfg, s.log, s.tasks[a.t]);
    }
  }

  /** A row counts every transmission of its route, except one whose bookkeeping is under way. */
  lemma RowStaysCounted(cfg: Config, s: State, a: Action, id: RouteId)
    requires Timely(cfg, s) && Enabled(cfg, s, a) && BookingKept(s, a)
    requires id in Apply(cfg, s, a).disk.outbox
    ensures var s' := Apply(cfg, s, a);
            Sends(s'.log.transmissions, id) <= s'.disk.outbox[id].attempts || BookingOn(s', id)
  {
    var s' := Apply(cfg, s, a);
    assert SpacedRoute(cfg, s, id);
    SendsChange(cfg, s, a, id);
    if Sends(s'.log.transmissions, id) != Sends(s.log.transmissions, id) {
      assert Sending(s'.tasks[a.t]) == Some(id) && Booking(s'.tasks[a.t]);
    } else if BookingOn(s, id) {
      var t :| t in s.tasks && Sending(s.tasks[t]) == Some(id) && Booking(s.tasks[t]);
      assert SpacedTask(cfg, s.log, s.tasks[t]);
      BookingStays(cfg, s, a, t);
    } else {
      OutChange(cfg, s, a, id);
      if a.Store? {
        assert SpacedTask(cfg, s.log, s.tasks[a.t]);
      }
    }
  }

  lemma FreshStaysUntouched(cfg: Config, s: State, a: Action, id: RouteId)
    requires SpacedRoute(cfg, s, id) && Enabled(cfg, s, a)
    requires a.ScanOutbox? ==> s.disk.outbox[a.id].routeId == a.id
    ensures var s' := Apply(cfg, s, a);
            && (id !in s'.log.issued ==> Untouched(s', id))
            && (id in s'.enqueuing && !s'.enqueuing[id].UndoPayload? ==> Untouched(s', id))
  {
    if id in s.log.issued {
      StepFramesIssued(cfg, s, a, id);
    }
    if Untouched(s, id) && !(a.EnqueuePutRow? && a.id == id) {
      UntouchedStays(cfg, s, a, id);
    }
  }

  lemma StepKeepsSpacedRoute(cfg: Config, s: State, a: Action, id: RouteId)
    requires Inv(cfg, s) && Timely(cfg, s) && Enabled(cfg, s, a) && BookingKept(s, a)
    requires SoleSender(Apply(cfg, s, a))
    ensures SpacedRoute(cfg, Apply(cfg, s, a), id)
  {
    var s' := Apply(cfg, s, a);
    assert SpacedRoute(cfg, s, id);
    assert a.ScanOutbox? ==> RouteInv(cfg, s, a.id);
    if id in s'.disk.outbox {
      RowStaysSpaced(cfg, s, a, id);
      RowStaysCounted(cfg, s, a, id);
    }
    if id in s'.log.removed {
      RemovedStays(cfg, s, a, id);
    }
    FreshStaysUntouched(cfg, s, a, id);
  }

  lemma StayedTaskIsSpaced(cfg: Config, s: State, a: Action, t: TaskId)
    requires Inv(cfg, s) && Timely(cfg, s) && Enabled(cfg, s, a)
    requires t in s.tasks && Moved(a) != Some(t)
    ensures SpacedTask(cfg, Apply(cfg, s, a).log, s.tasks[t])
  {
    var task := s.tasks[t];
    assert SpacedTask(cfg, s.log, task) && TaskOk(s.clock, s.disk, s.log, task);
    if Sending(task).Some? && !task.DeleteRow? {
      SendsChange(cfg, s, a, task.out.routeId);
      StepFramesIssued(cfg, s, a, task.out.routeId);
      if a.ReadOut? {
        assert !SameSender(task, s.tasks[a.t]);
      }
    }
  }

  ghost predicate MovedSpaced(cfg: Config, s': State, t: TaskId) {
    t in s'.tasks ==> SpacedTask(cfg, s'.log, s'.tasks[t])
  }

  lemma EnqueueMovesSpaced(cfg: Config, s: State, id: RouteId, w: Write, t: TaskId)
    requires id in s.log.issued && t !in s.tasks
    requires SpacedRoute(cfg, s, id) && id in s.enqueuing && s.enqueuing[id].PutRow?
    ensures MovedSpaced(cfg, RowEnqueued(s, id, w, t), t)
  {
  }

  lemma ScanMovesSpaced(cfg: Config, s: State, id: RouteId, t: TaskId)
    requires id in s.disk.outbox && s.disk.outbox[id].routeId == id
    requires SpacedRoute(cfg, s, id) && !BookingOn(s, id)
    ensures MovedSpaced(cfg, Continue(s, t, Dispatch(s.disk.outbox[id])), t)
  {
  }

  lemma DispatchMovesSpaced(cfg: Config, s: State, t: TaskId, out: OutboxItem, resolved: bool)
    requires SpacedTask(cfg, s.log, Dispatch(out))
    ensures MovedSpaced(cfg, Dispatched(cfg, s, t, out, resolved), t)
  {
    if out.retryAt <= s.clock {
      RetryIsSpaced(cfg, s.log, out, s.clock);
    }
  }

  lemma OutReadMovesSpaced(cfg: Config, s: State, t: TaskId, out: OutboxItem, now: u64, readable: bool)
    requires SpacedTask(cfg, s.log, FetchOut(out, now))
    ensures MovedSpaced(cfg, OutRead(s, t, out, now, readable), t)
  {
    OneMoreSend(s.log.transmissions, Transmission(out.routeId, now), out.routeId);
  }

  lemma ReplyMovesSpaced(cfg: Config, s: State, t: TaskId, out: OutboxItem, now: u64, ok: bool)
    requires SpacedTask(cfg, s.log, AwaitReply(out, now))
    ensures MovedSpaced(cfg, Replied(cfg, s, t, out, now, ok), t)
  {
    RetryIsSpaced(cfg, s.log, out, now);
  }

  predicate MovesSender(a: Action) {
    a.EnqueuePutRow? || a.ScanOutbox? || a.DispatchStart? || a.ReadOut? || a.Reply?
  }

  /** A task that does not come to send promises nothing. */
  lemma OtherTaskIsSpaced(cfg: Config, s: State, a: Action)
    requires Enabled(cfg, s, a) && Moved(a).Some? && !MovesSender(a)
    ensures MovedSpaced(cfg, Apply(cfg, s, a), Moved(a).value)
  {
  }

  lemma SendingTaskIsSpaced(cfg: Config, s: State, a: Action)
    requires Timely(cfg, s) && Ready(cfg, s, a) && SendsSerialised(s, a) && MovesSender(a)
    ensures MovedSpaced(cfg, Apply(cfg, s, a), Moved(a).value)
  {
    match a
    case EnqueuePutRow(id, w, t) => EnqueueMovesSpaced(cfg, s, id, w, t);
    case ScanOutbox(id, t) => ScanMovesSpaced(cfg, s, id, t);
    case DispatchStart(t, resolved) => DispatchMovesSpaced(cfg, s, t, s.tasks[t].out, resolved);
    case ReadOut(t, readable) => OutReadMovesSpaced(cfg, s, t, s.tasks[t].out, s.tasks[t].now, readable);
    case Reply(t, ok) => ReplyMovesSpaced(cfg, s, t, s.tasks[t].out, s.tasks[t].now, ok);
    case _ =>
  }

  lemma MovedTaskIsSpaced(cfg: Config, s: State, a: Action)
    requires Timely(cfg, s) && Ready(cfg, s, a) && SendsSerialised(s, a)
    requires Moved(a).Some?
    ensures MovedSpaced(cfg, Apply(cfg, s, a), Moved(a).value)
  {
    if MovesSender(a) {
      SendingTaskIsSpaced(cfg, s, a);
    } else {
      OtherTaskIsSpaced(cfg, s, a);
    }
  }

  lemma OldTransmission(cfg: Config, log: Log, log': Log, i: nat)
    requires i < |log.transmissions| && log.transmissions <= log'.transmissions && TimelyAt(cfg, log, i)
    requires var id := log.transmissions[i].routeId; id in log'.issued && log'.issued[id] == log.issued[id]
    ensures TimelyAt(cfg, log', i)
  {
    assert log'.transmissions[..i + 1] == log.transmissions[..i + 1];
  }

  lemma NewTransmission(cfg: Config, s: State, s': State, out: OutboxItem, now: u64)
    requires SpacedTask(cfg, s.log, FetchOut(out, now)) && OutOk(s.log, out) && RouteInv(cfg, s, out.routeId)
    requires s'.log.transmissions == s.log.transmissions + [Transmission(out.routeId, now)]
    requires s'.log.issued == s.log.issued
    ensures TimelyAt(cfg, s'.log, |s.log.transmissions|)
  {
    var i := |s.log.transmissions|;
    assert s'.log.transmissions[..i + 1] == s'.log.transmissions;
    OneMoreSend(s.log.transmissions, Transmission(out.routeId, now), out.routeId);
    MulKeepsOrder(Sends(s.log.transmissions, out.routeId), out.attempts, cfg.retryInterval);
  }

  lemma StepKeepsTimely(cfg: Config, s: State, a: Action)
    requires Inv(cfg, s) && Timely(cfg, s) && Enabled(cfg, s, a)
    requires SendsSerialised(s, a) && BookingKept(s, a)
    ensures Timely(cfg, Apply(cfg, s, a))
  {
    var s' := Apply(cfg, s, a);
    InvIsReady(cfg, s, a);
    assert a.EnqueuePutRow? ==> SpacedRoute(cfg, s, a.id);
    StepKeepsSole(cfg, s, a);
    forall id ensures SpacedRoute(cfg, s', id) {
      StepKeepsSpacedRoute(cfg, s, a, id);
    }
    forall t | t in s'.tasks ensures SpacedTask(cfg, s'.log, s'.tasks[t]) {
      if Moved(a) == Some(t) {
        MovedTaskIsSpaced(cfg, s, a);
      } else {
        StepFramesTasks(cfg, s, a, t);
        StayedTaskIsSpaced(cfg, s, a, t);
      }
    }
    forall i | 0 <= i < |s'.log.transmissions| ensures TimelyAt(cfg, s'.log, i) {
      StepKeepsTransmission(cfg, s, a, i);
    }
  }

  lemma StepKeepsTransmission(cfg: Config, s: State, a: Action, i: nat)
    requires Inv(cfg, s) && Timely(cfg, s) && Enabled(cfg, s, a) && i < |Apply(cfg, s, a).log.transmissions|
    ensures TimelyAt(cfg, Apply(cfg, s, a).log, i)
  {
    var s' := Apply(cfg, s, a);
    SendShape(cfg, s, a);
    if i < |s.log.transmissions| {
      assert TimelyAt(cfg, s.log, i);
      StepFramesIssued(cfg, s, a, s.log.transmissions[i].routeId);
      OldTransmission(cfg, s.log, s'.log, i);
    } else {
      var task := s.tasks[a.t];
      assert TaskOk(s.clock, s.disk, s.log, task) && SpacedTask(cfg, s.log, task);
      NewTransmission(cfg, s, s', task.out, task.now);
    }
  }

  lemma {:induction false} RunKeepsTimely(cfg: Config, run: seq<State>, acts: seq<Action>, n: nat)
    requires IsRun(cfg, run, acts) && Orderly(run, acts) && n < |run|
    ensures Timely(cfg, run[n])
  {
    if n > 0 {
      RunKeepsTimely(cfg, run, acts, n - 1);
      RunKeepsInv(cfg, run, acts, n - 1);
      StepKeepsTimely(cfg, run[n - 1], acts[n - 1]);
      assert run[n - 1 + 1] == Apply(cfg, run[n - 1], acts[n - 1]);
    }
  }

  /** BOUNDED, SPACED RETRANSMISSION. In every state of every orderly run, if the i-th transmission is the
      k-th of its route, it was decided at a time no earlier than k - 1 retry intervals after the route was
      created and before the route expires, the route expires within its time to live, and k is within the
      retry count. */
  lemma RetransmissionIsBounded(cfg: Config, run: seq<State>, acts: seq<Action>, n: nat, i: nat)
    requires IsRun(cfg, run, acts) && Orderly(run, acts) && n < |run|
    requires i < |run[n].log.transmissions|
    ensures var log := run[n].log;
            var x := log.transmissions[i];
            var k := Sends(log.transmissions[..i + 1], x.routeId);
            && x.routeId in log.issued
            && var issue := log.issued[x.routeId];
               && 1 <= k <= cfg.maxRetryCount
               && issue.createdAt + (k - 1) * cfg.retryInterval <= x.at < issue.expiryAt
               && issue.expiryAt <= issue.createdAt + cfg.ttl
  {
    RunKeepsTimely(cfg, run, acts, n);
    assert TimelyAt(cfg, run[n].log, i);
  }

  /** A row that was removed from the outbox is never written again, so its route is never sent again. */
  lemma RemovedNeverReturns(cfg: Config, run: seq<State>, acts: seq<Action>, n: nat, m: nat, id: RouteId)
    requires IsRun(cfg, run, acts) && Orderly(run, acts) && n <= m < |run|
    requires id in run[n].log.removed
    ensures id !in run[m].disk.outbox
    ensures Sends(run[m].log.transmissions, id) == Sends(run[n].log.transmissions, id)
    decreases m - n
  {
    RunKeepsTimely(cfg, run, acts, n);
    assert SpacedRoute(cfg, run[n], id);
    if n < m {
      var s, a := run[n], acts[n];
      assert run[n + 1] == Apply(cfg, s, a);
      RemovedLogged(cfg, s, a, id);
      SendsChange(cfg, s, a, id);
      if a.ReadOut? {
        assert Sending(s.tasks[a.t]) != Some(id);
      }
      RemovedNeverReturns(cfg, run, acts, n + 1, m, id);
    }
  }

  lemma RemovedLogged(cfg: Config, s: State, a: Action, id: RouteId)
    requires Enabled(cfg, s, a) && id in s.log.removed
    ensures id in Apply(cfg, s, a).log.removed
  {
    if !a.Store? && !a.EnqueuePutRow? {
      OnlyWritesChangeOutbox(cfg, s, a);
    }
  }
}
