/** The durable routing handlers in the source's own form: code that updates rows and payloads in the stores. Each
    handler runs here from its start to its end; every access to a store takes the step of the route protocol that
    stands for it, so whatever handlers are run, and whatever fails in them, the stores are those of a reachable
    state of the protocol, and its theorems hold of them. */
module RouterActor {
  import opened MqttTypes
  import opened DurableRoute
  import MessageExpiry
  import RouteNoLoss

  datatype Result = Ok | Err

  ghost predicate Reachable(cfg: Config, s: State) {
    exists run, acts :: IsRun(cfg, run, acts) && run[|acts|] == s
  }

  lemma StartIsReachable(cfg: Config, clock: u64)
    ensures Reachable(cfg, Init(clock))
  {
    var run: seq<State>, acts: seq<Action> := [Init(clock)], [];
    assert IsRun(cfg, run, acts) && run[|acts|] == Init(clock);
  }

  lemma StepIsReachable(cfg: Config, s: State, a: Action)
    requires Reachable(cfg, s) && Enabled(cfg, s, a)
    ensures Reachable(cfg, Apply(cfg, s, a))
  {
    var run, acts :| IsRun(cfg, run, acts) && run[|acts|] == s;
    var run', acts' := run + [Apply(cfg, s, a)], acts + [a];
    forall i | 0 <= i < |acts'|
      ensures Enabled(cfg, run'[i], acts'[i]) && run'[i + 1] == Apply(cfg, run'[i], acts'[i])
    {
      if i < |acts| {
        assert run'[i] == run[i] && run'[i + 1] == run[i + 1] && acts'[i] == acts[i];
      }
    }
    assert IsRun(cfg, run', acts') && run'[|acts'|] == Apply(cfg, s, a);
  }

  lemma EnqueueIsReachable(
      cfg: Config, s: State, id: RouteId, tenantId: string, targetClientId: string, packet: Publish)
    requires Reachable(cfg, s) && id !in s.log.issued
    ensures Reachable(cfg, Enqueued(cfg, s, Enqueue(id, tenantId, targetClientId, packet)))
  {
    StepIsReachable(cfg, s, Enqueue(id, tenantId, targetClientId, packet));
  }

  lemma DispatchIsReachable(cfg: Config, s: State, t: TaskId, resolved: bool)
    requires Reachable(cfg, s) && t in s.tasks && s.tasks[t].Dispatch?
    ensures Reachable(cfg, Dispatched(cfg, s, t, s.tasks[t].out, resolved))
  {
    StepIsReachable(cfg, s, DispatchStart(t, resolved));
  }

  lemma ReceiptIsReachable(cfg: Config, s: State, request: RouteRequest, t: TaskId)
    requires Reachable(cfg, s) && request in s.sent && t !in s.tasks
    ensures Reachable(cfg, DurableRoute.Received(s, request, t))
  {
    StepIsReachable(cfg, s, Receive(request, t));
  }

  lemma LookupIsReachable(cfg: Config, s: State, t: TaskId, readable: bool)
    requires Reachable(cfg, s) && t in s.tasks && s.tasks[t].Lookup?
    ensures Reachable(cfg, LookedUp(s, t, s.tasks[t].request, readable))
  {
    StepIsReachable(cfg, s, LookUp(t, readable));
  }

  /** Completed at least `ttl` ago. */
  predicate IsOld(row: InboxItem, ttl: u64, now: u64) {
    row.status.Completed? && row.completedAt.Some? && Max(0, now - row.completedAt.value) >= ttl
  }

  class Router {
    const cfg: Config
    var now: u64
    var outbox: map<RouteId, OutboxItem>
    var outPayloads: map<RouteId, Publish>
    var inbox: map<RouteId, InboxItem>
    var inPayloads: map<RouteId, Publish>
    ghost var state: State

    /** The stores are those of a reachable state. */
    ghost predicate Valid()
      reads this
    {
      Reachable(cfg, state) && state.clock == now && state.disk == Disk(outbox, outPayloads, inbox, inPayloads)
    }

    constructor (cfg: Config, now: u64)
      ensures Valid() && this.cfg == cfg && state == Init(now)
    {
      this.cfg, this.now := cfg, now;
      outbox, outPayloads, inbox, inPayloads := map[], map[], map[], map[];
      state := Init(now);
      StartIsReachable(cfg, now);
    }

    // ---- enqueue_durable_remote_route ----

    method PutRoutePayload(id: RouteId, packet: Publish, w: Write)
      requires Valid() && Enabled(cfg, state, EnqueuePutPayload(id, w)) && state.log.issued[id].packet == packet
      modifies this
      ensures Valid() && now == old(now) && state == PayloadEnqueued(old(state), id, w)
    {
      StepIsReachable(cfg, state, EnqueuePutPayload(id, w));
      state := PayloadEnqueued(state, id, w);
      if w != FailedLost {
        outPayloads := outPayloads[id := packet];
      }
    }

    method PutRouteRow(id: RouteId, item: OutboxItem, w: Write, t: TaskId)
      requires Valid() && Enabled(cfg, state, EnqueuePutRow(id, w, t))
      requires item == NewOutboxItem(id, state.log.issued[id])
      modifies this
      ensures Valid() && now == old(now) && state == RowEnqueued(old(state), id, w, t)
    {
      StepIsReachable(cfg, state, EnqueuePutRow(id, w, t));
      state := RowEnqueued(state, id, w, t);
      if w != FailedLost {
        outbox := outbox[id := item];
      }
    }

    method UndoRoutePayload(id: RouteId, w: Write)
      requires Valid() && Enabled(cfg, state, EnqueueUndo(id, w))
      modifies this
      ensures Valid() && now == old(now) && state == EnqueueUndone(old(state), id, w)
    {
      StepIsReachable(cfg, state, EnqueueUndo(id, w));
      state := EnqueueUndone(state, id, w);
      if w != FailedLost {
        outPayloads := outPayloads - {id};
      }
    }

    /** From the state `before`, the route was enqueued: its row and payload are on disk and its dispatch is spawned. */
    ghost predicate RouteStored(before: State, id: RouteId, tenantId: string, targetClientId: string, packet: Publish,
                                expiryAt: u64, t: TaskId)
      reads this
    {
      var item := OutboxItem(id, tenantId, targetClientId, now, 0, expiryAt);
      && id in state.log.enqueued && outbox == before.disk.outbox[id := item]
      && outPayloads == before.disk.outPayloads[id := packet] && state.tasks == before.tasks[t := Dispatch(item)]
    }

    /** Stores the payload, then the row; if the row fails, the payload is taken back. */
    method StoreRoute(id: RouteId, tenantId: string, targetClientId: string, packet: Publish, expiryAt: u64, t: TaskId,
                      payloadPut: Write, rowPut: Write, undo: Write) returns (result: Result)
      requires Valid() && id in state.enqueuing && state.enqueuing[id].PutPayload? && t !in state.tasks
      requires id in state.log.issued && state.log.issued[id] == Issue(tenantId, targetClientId, packet, now, expiryAt)
      modifies this
      ensures Valid() && now == old(now)
      ensures result.Ok? <==> payloadPut.Done? && rowPut.Done?
      ensures result.Ok? ==> RouteStored(old(state), id, tenantId, targetClientId, packet, expiryAt, t)
      ensures payloadPut == FailedLost ==> outbox == old(outbox) && outPayloads == old(outPayloads)
      ensures payloadPut.Done? && rowPut == FailedLost && undo.Done? ==>
                outbox == old(outbox) && outPayloads == old(outPayloads) - {id}
    {
      PutRoutePayload(id, packet, payloadPut);
      if payloadPut != Done {
        return Err;
      }
      var item := OutboxItem(id, tenantId, targetClientId, now, 0, expiryAt);
      PutRouteRow(id, item, rowPut, t);
      if rowPut != Done {
        UndoRoutePayload(id, undo);
        return Err;
      }
      result := Ok;
    }

    /** Ok means that the route is enqueued, with the earlier of its two deadlines, or that it was refused, and counted,
        because it had expired. */
    method EnqueueDurableRemoteRoute(id: RouteId, tenantId: string, targetClientId: string, packet: Publish, t: TaskId,
                                     payloadPut: Write, rowPut: Write, undo: Write) returns (result: Result)
      requires Valid() && id !in state.log.issued && t !in state.tasks
      modifies this
      ensures Valid() && now == old(now)
      ensures var expired := MessageExpiry.HasExpired(packet, now) || SaturatingAdd(now, cfg.ttl) <= now;
              && (result.Ok? <==> expired || (payloadPut.Done? && rowPut.Done?))
              && (expired ==> state == old(state).(log := old(state.log).(refused := old(state.log.refused) + 1)))
              && (!expired && result.Ok? ==>
                    exists expiryAt :: MessageExpiry.IsRouteDeadline(expiryAt, packet, SaturatingAdd(now, cfg.ttl))
                      && RouteStored(old(state), id, tenantId, targetClientId, packet, expiryAt, t))
              && (!expired && payloadPut == FailedLost ==> outbox == old(outbox) && outPayloads == old(outPayloads))
              && (!expired && payloadPut.Done? && rowPut == FailedLost && undo.Done? ==>
                    outbox == old(outbox) && outPayloads == old(outPayloads) - {id})
    {
      var expiryAt := MessageExpiry.RouteExpiryAt(packet, cfg.ttl, now);
      MessageExpiry.DeadlineIsTheEarlier(packet, cfg.ttl, now);
      EnqueueIsReachable(cfg, state, id, tenantId, targetClientId, packet);
      state := Enqueued(cfg, state, Enqueue(id, tenantId, targetClientId, packet));
      if expiryAt <= now {
        return Ok;
      }
      result := StoreRoute(id, tenantId, targetClientId, packet, expiryAt, t, payloadPut, rowPut, undo);
    }

    // ---- dispatch_outbox_item ----

    method PutOutboxRow(t: TaskId, item: OutboxItem, w: Write)
      requires Valid() && t in state.tasks && state.tasks[t] == PutRetryOut(item)
      modifies this
      ensures Valid() && now == old(now) && state == OutRetryStored(old(state), t, item, w)
    {
      StepIsReachable(cfg, state, Store(t, w));
      state := OutRetryStored(state, t, item, w);
      if w != FailedLost {
        outbox := outbox[item.routeId := item];
      }
    }

    method DeleteOutboxRow(t: TaskId, id: RouteId, strict: bool, w: Write)
      requires Valid() && t in state.tasks && state.tasks[t] == DeleteRow(id, strict)
      modifies this
      ensures Valid() && now == old(now) && state == RowDeleted(old(state), t, id, strict, w)
    {
      StepIsReachable(cfg, state, Store(t, w));
      state := RowDeleted(state, t, id, strict, w);
      if w != FailedLost {
        outbox := outbox - {id};
      }
    }

    method DeleteRoutePayload(t: TaskId, id: RouteId, w: Write)
      requires Valid() && t in state.tasks && state.tasks[t] == DeleteOutPayload(id)
      modifies this
      ensures Valid() && now == old(now) && state == OutPayloadDeleted(old(state), t, id, w)
    {
      StepIsReachable(cfg, state, Store(t, w));
      state := OutPayloadDeleted(state, t, id, w);
      if w != FailedLost {
        outPayloads := outPayloads - {id};
      }
    }

    /** A row that is given up: counted as dropped, then deleted with its payload, whatever becomes of the deletions. */
    method GiveUpOutboxItem(t: TaskId, id: RouteId, w1: Write, w2: Write)
      requires Valid() && t in state.tasks && state.tasks[t] == DeleteRow(id, false) && id in state.log.dropped
      modifies this
      ensures Valid() && now == old(now) && state.tasks == old(state.tasks) - {t}
      ensures state.log == old(state.log).(removed := state.log.removed) && state.sent == old(state.sent)
      ensures w1.Done? ==> outbox == old(outbox) - {id}
      ensures w2.Done? ==> outPayloads == old(outPayloads) - {id}
    {
      DeleteOutboxRow(t, id, false, w1);
      DeleteRoutePayload(t, id, w2);
      assert state.tasks == old(state.tasks) - {t};
    }

    /** From the state `before`, the row was given up: counted as dropped, and deleted with its payload. */
    ghost predicate Abandoned(before: State, id: RouteId, w1: Write, w2: Write)
      reads this
    {
      && id in state.log.dropped && (w1.Done? ==> outbox == before.disk.outbox - {id})
      && (w2.Done? ==> outPayloads == before.disk.outPayloads - {id})
    }

    /** From the state `before`, the row was put back for a retry. */
    ghost predicate PutBack(before: State, item: OutboxItem, w: Write)
      reads this
    {
      && outPayloads == before.disk.outPayloads && state.log == before.log
      && (w.Done? ==> outbox == before.disk.outbox[item.routeId :=
                        item.(attempts := item.attempts + 1, retryAt := now + cfg.retryInterval)])
    }

    ghost predicate LeftAlone(before: State)
      reads this
    {
      outbox == before.disk.outbox && outPayloads == before.disk.outPayloads && state.log == before.log
    }

    /** From the state `before`, the request went out. */
    ghost predicate Transmitted(before: State, item: OutboxItem, t: TaskId)
      reads this
    {
      && outbox == before.disk.outbox && outPayloads == before.disk.outPayloads && item.routeId in outPayloads
      && RequestFor(item, outPayloads[item.routeId]) in state.sent
      && state.tasks == before.tasks[t := AwaitReply(item, now)]
    }

    /** The step that looks at the row. */
    ghost method BeginDispatch(t: TaskId, item: OutboxItem, resolved: bool)
      requires Valid() && t in state.tasks && state.tasks[t] == Dispatch(item)
      modifies this`state
      ensures Valid() && state.disk == old(state.disk) && state.sent == old(state.sent)
      ensures if item.expiryAt <= now || item.attempts >= cfg.maxRetryCount then
                && item.routeId in state.log.dropped
                && state.tasks == old(state.tasks)[t := DeleteRow(item.routeId, false)]
              else
                && state.log == old(state.log)
                && state.tasks == if item.retryAt > now then old(state.tasks) - {t}
                                  else old(state.tasks)[t := if resolved then FetchOut(item, now)
                                                             else PutRetryOut(RetriedOut(cfg, item, now))]
    {
      DispatchIsReachable(cfg, state, t, resolved);
      state := Dispatched(cfg, state, t, item, resolved);
    }

    /** Dispatches a row, perhaps a stale copy of it, up to the remote call: `sent` says whether it got there. A row
        over its limits, or whose packet has expired, is given up; one that is not due, or whose payload cannot be read,
        is left alone; one whose client cannot be located is put back for a retry. */
    method DispatchOutboxItem(t: TaskId, item: OutboxItem, resolved: bool, readable: bool, w1: Write, w2: Write)
        returns (sent: bool)
      requires Valid() && t in state.tasks && state.tasks[t] == Dispatch(item)
      modifies this
      ensures Valid() && now == old(now)
      ensures sent ==> Transmitted(old(state), item, t)
      ensures !sent ==> state.tasks == old(state.tasks) - {t} && state.sent == old(state.sent)
      ensures var over := item.expiryAt <= now || item.attempts >= cfg.maxRetryCount;
              var due := !over && item.retryAt <= now;
              var found := due && resolved && readable && item.routeId in old(outPayloads);
              && (sent <==> found && !MessageExpiry.HasExpired(old(outPayloads)[item.routeId], now))
              && (over || (found && !sent) ==> Abandoned(old(state), item.routeId, w1, w2))
              && (due && !resolved ==> PutBack(old(state), item, w1))
              && (!over && !found && (!due || resolved) ==> LeftAlone(old(state)))
    {
      var id := item.routeId;
      BeginDispatch(t, item, resolved);
      if item.expiryAt <= now || item.attempts >= cfg.maxRetryCount {
        GiveUpOutboxItem(t, id, w1, w2);
        return false;
      }
      if item.retryAt > now {
        return false;
      }
      if !resolved {
        Postpone(t, item, w1);
        return false;
      }
      sent := SendRequest(t, item, readable, w1, w2);
    }

    method Postpone(t: TaskId, item: OutboxItem, w: Write)
      requires Valid() && t in state.tasks && state.tasks[t] == PutRetryOut(RetriedOut(cfg, item, now))
      modifies this
      ensures Valid() && now == old(now) && state.tasks == old(state.tasks) - {t} && state.sent == old(state.sent)
      ensures PutBack(old(state), item, w)
    {
      PutOutboxRow(t, item.(attempts := item.attempts + 1, retryAt := now + cfg.retryInterval), w);
    }

    /** Reads the payload and calls the other node. */
    method SendRequest(t: TaskId, item: OutboxItem, readable: bool, w1: Write, w2: Write) returns (sent: bool)
      requires Valid() && t in state.tasks && state.tasks[t] == FetchOut(item, now)
      modifies this
      ensures Valid() && now == old(now)
      ensures sent ==> Transmitted(old(state), item, t)
      ensures !sent ==> state.tasks == old(state.tasks) - {t} && state.sent == old(state.sent)
      ensures var found := readable && item.routeId in old(outPayloads);
              && (sent <==> found && !MessageExpiry.HasExpired(old(outPayloads)[item.routeId], now))
              && (found && !sent ==> Abandoned(old(state), item.routeId, w1, w2))
              && (!found ==> LeftAlone(old(state)))
    {
      var id := item.routeId;
      StepIsReachable(cfg, state, ReadOut(t, readable));
      state := OutRead(state, t, item, now, readable);
      if !readable || id !in outPayloads {
        return false;
      }
      if MessageExpiry.IsExpired(outPayloads[id], now) {
        GiveUpOutboxItem(t, id, w1, w2);
        return false;
      }
      sent := true;
    }

    method RemoveDelivered(t: TaskId, id: RouteId, w1: Write, w2: Write) returns (result: Result)
      requires Valid() && t in state.tasks && state.tasks[t] == DeleteRow(id, true)
      modifies this
      ensures Valid() && now == old(now) && state.tasks == old(state.tasks) - {t}
      ensures w1.Done? ==> outbox == old(outbox) - {id} && (w2.Done? ==> outPayloads == old(outPayloads) - {id})
      ensures result.Ok? <==> w1.Done?
    {
      DeleteOutboxRow(t, id, true, w1);
      if w1 != Done {
        return Err;
      }
      DeleteRoutePayload(t, id, w2);
      assert state.tasks == old(state.tasks) - {t};
      result := Ok;
    }

    /** The call is answered: on success the row and its payload go, otherwise the row is put back for a retry. */
    method FinishDispatch(t: TaskId, item: OutboxItem, at: u64, ok: bool, w1: Write, w2: Write) returns (result: Result)
      requires Valid() && t in state.tasks && state.tasks[t] == AwaitReply(item, at)
      requires ok ==> item.routeId in state.okReplies
      modifies this
      ensures Valid() && now == old(now) && state.tasks == old(state.tasks) - {t}
      ensures ok && w1.Done? ==>
                && outbox == old(outbox) - {item.routeId}
                && (w2.Done? ==> outPayloads == old(outPayloads) - {item.routeId})
      ensures !ok && w1.Done? ==>
                outbox == old(outbox)[item.routeId :=
                            item.(attempts := item.attempts + 1, retryAt := at + cfg.retryInterval)]
      ensures !ok ==> outPayloads == old(outPayloads)
      ensures result.Ok? <==> ok && w1.Done?
    {
      StepIsReachable(cfg, state, Reply(t, ok));
      state := Replied(cfg, state, t, item, at, ok);
      assert state.tasks - {t} == old(state.tasks) - {t};
      if ok {
        result := RemoveDelivered(t, item.routeId, w1, w2);
        return;
      }
      PutOutboxRow(t, item.(attempts := item.attempts + 1, retryAt := at + cfg.retryInterval), w1);
      result := Err;
    }

    // ---- accept_route_from_other_node ----

    method PutInboxPayload(t: TaskId, request: RouteRequest, w: Write)
      requires Valid() && t in state.tasks && state.tasks[t] == PutInPayload(request)
      modifies this
      ensures Valid() && now == old(now) && state == InPayloadStored(cfg, old(state), t, request, w)
    {
      StepIsReachable(cfg, state, Store(t, w));
      state := InPayloadStored(cfg, state, t, request, w);
      if w != FailedLost {
        inPayloads := inPayloads[request.routeId := request.packet];
      }
    }

    method InsertInboxRow(t: TaskId, row: InboxItem, w: Write)
      requires Valid() && t in state.tasks && state.tasks[t] == InsertRow(row)
      modifies this
      ensures Valid() && now == old(now) && state == RowInserted(old(state), t, row, w)
    {
      StepIsReachable(cfg, state, Store(t, w));
      state := RowInserted(state, t, row, w);
      if w != FailedLost {
        inbox := inbox[row.routeId := row];
      }
    }

    /** From the state `before`, the request was taken in: a pending row, its payload, and its processing spawned. */
    ghost predicate InboxAdded(before: State, request: RouteRequest, t: TaskId)
      reads this
    {
      var id := request.routeId;
      var expiryAt := if request.expiryAt > 0 then request.expiryAt else SaturatingAdd(now, cfg.ttl);
      var row := InboxItem(id, request.tenantId, request.targetClientId, now, 0, expiryAt, Pending, None);
      && inbox == before.disk.inbox[id := row] && inPayloads == before.disk.inPayloads[id := request.packet]
      && state.tasks == before.tasks[t := Process(row)]
    }

    /** The steps that look at the request and at the inbox. */
    ghost method BeginAcceptance(request: RouteRequest, t: TaskId, readable: bool)
      requires Valid() && request in state.sent && t !in state.tasks
      modifies this`state
      ensures Valid() && state.disk == old(state.disk)
      ensures if MessageExpiry.HasExpired(request.packet, now) then
                && state.tasks == old(state.tasks)
                && request.routeId in state.okReplies && request.routeId in state.log.dropped
              else if !readable || request.routeId in inbox then
                state.tasks == old(state.tasks) && (readable ==> request.routeId in state.okReplies)
              else state.tasks == old(state.tasks)[t := PutInPayload(request)]
    {
      ReceiptIsReachable(cfg, state, request, t);
      state := DurableRoute.Received(state, request, t);
      if !MessageExpiry.HasExpired(request.packet, now) {
        LookupIsReachable(cfg, state, t, readable);
        state := LookedUp(state, t, request, readable);
      }
    }

    /** Ok answers a request that has expired, is known already, or is now in the inbox with its payload, its
        processing spawned. */
    method AcceptRouteFromOtherNode(request: RouteRequest, t: TaskId, readable: bool, w1: Write, w2: Write)
        returns (result: Result)
      requires Valid() && request in state.sent && t !in state.tasks
      modifies this
      ensures Valid() && now == old(now)
      ensures result.Ok? ==> request.routeId in state.okReplies
      ensures var id, expired := request.routeId, MessageExpiry.HasExpired(request.packet, now);
              var known := id in old(inbox);
              && (result.Ok? <==> expired || (readable && (known || (w1.Done? && w2.Done?))))
              && (expired ==> id in state.log.dropped)
              && (expired || !readable || known ==> inbox == old(inbox) && inPayloads == old(inPayloads))
              && (expired || !result.Ok? || known ==> state.tasks == old(state.tasks))
              && (!expired && !known && result.Ok? ==> InboxAdded(old(state), request, t))
    {
      BeginAcceptance(request, t, readable);
      if MessageExpiry.IsExpired(request.packet, now) {
        return Ok;
      }
      if !readable {
        return Err;
      }
      if request.routeId in inbox {
        return Ok;
      }
      result := InsertRoute(request, t, w1, w2);
    }

    method InsertRoute(request: RouteRequest, t: TaskId, w1: Write, w2: Write) returns (result: Result)
      requires Valid() && t in state.tasks && state.tasks[t] == PutInPayload(request)
      modifies this
      ensures Valid() && now == old(now)
      ensures result.Ok? <==> w1.Done? && w2.Done?
      ensures !result.Ok? ==> state.tasks == old(state.tasks) - {t}
      ensures result.Ok? ==>
                request.routeId in state.okReplies && InboxAdded(old(state), request, t)
    {
      PutInboxPayload(t, request, w1);
      if w1 != Done {
        return Err;
      }
      var row := InboxItem(request.routeId, request.tenantId, request.targetClientId, now, 0,
                           if request.expiryAt > 0 then request.expiryAt else SaturatingAdd(now, cfg.ttl),
                           Pending, None);
      InsertInboxRow(t, row, w2);
      if w2 != Done {
        return Err;
      }
      result := Ok;
    }

    // ---- process_inbox_item ----

    method PutInboxRow(t: TaskId, row: InboxItem, w: Write)
      requires Valid() && t in state.tasks && state.tasks[t] == PutRetryIn(row)
      modifies this
      ensures Valid() && now == old(now) && state == End(RowStored(old(state), row, w), t)
    {
      StepIsReachable(cfg, state, Store(t, w));
      state := End(RowStored(state, row, w), t);
      if w != FailedLost {
        inbox := inbox[row.routeId := row];
      }
    }

    method PutCompletedRow(t: TaskId, row: InboxItem, w: Write)
      requires Valid() && t in state.tasks && state.tasks[t] == PutCompleted(row)
      modifies this
      ensures Valid() && now == old(now) && state == CompletionStored(old(state), t, row, w)
    {
      StepIsReachable(cfg, state, Store(t, w));
      state := CompletionStored(state, t, row, w);
      if w != FailedLost {
        inbox := inbox[row.routeId := row];
      }
    }

    method DeleteInboxPayload(t: TaskId, id: RouteId, w: Write)
      requires Valid() && t in state.tasks && state.tasks[t] == DeleteInPayload(id)
      modifies this
      ensures Valid() && now == old(now) && state == InPayloadDeleted(old(state), t, id, w)
    {
      StepIsReachable(cfg, state, Store(t, w));
      state := InPayloadDeleted(state, t, id, w);
      if w != FailedLost {
        inPayloads := inPayloads - {id};
      }
    }

    /** Marks the row completed, and only then deletes its payload. */
    method Complete(t: TaskId, row: InboxItem, w1: Write, w2: Write)
      requires Valid() && t in state.tasks && state.tasks[t] == PutCompleted(row)
      modifies this
      ensures Valid() && now == old(now) && state.tasks == old(state.tasks) - {t}
      ensures state.log == old(state.log)
      ensures w1.Done? ==> inbox == old(inbox)[row.routeId := row]
      ensures !w1.Done? ==> inPayloads == old(inPayloads)
      ensures w1.Done? && w2.Done? ==> inPayloads == old(inPayloads) - {row.routeId}
    {
      PutCompletedRow(t, row, w1);
      if w1 == Done {
        DeleteInboxPayload(t, row.routeId, w2);
      }
      assert state.tasks == old(state.tasks) - {t};
    }

    /** Processes a row, perhaps a stale copy of it, to the end of the handler; `accepted` is the session's answer, if
        it is asked. A pending row over its limits, or whose packet has expired, is given up; one that is not due, or
        whose payload cannot be read, is left alone, like a completed one. */
    method ProcessInboxItem(t: TaskId, row: InboxItem, readable: bool, accepted: bool, w1: Write, w2: Write)
        returns (asked: bool)
      requires Valid() && t in state.tasks && state.tasks[t] == Process(row)
      modifies this
      ensures Valid() && now == old(now) && state.tasks == old(state.tasks) - {t}
      ensures asked ==> Asked(old(state), row, accepted, w1, w2)
      ensures var id, over := row.routeId, row.expiryAt <= now || row.attempts >= cfg.maxRetryCount;
              var found := row.status.Pending? && !over && row.retryAt <= now && readable && id in old(inPayloads);
              && (asked <==> found && !MessageExpiry.HasExpired(old(inPayloads)[id], now))
              && ((row.status.Pending? && over) || (found && !asked) ==> GivenUp(old(state), row, w1, w2))
              && (!(row.status.Pending? && over) && !found ==>
                    inbox == old(inbox) && inPayloads == old(inPayloads) && state.log == old(state.log))
    {
      asked := false;
      StepIsReachable(cfg, state, ProcessStart(t));
      state := Processed(cfg, state, t, row);
      assert state.tasks - {t} == old(state.tasks) - {t};
      if row.status == Completed {
        return;
      }
      if row.expiryAt <= now || row.attempts >= cfg.maxRetryCount {
        Complete(t, row.(status := Completed, completedAt := Some(now)), w1, w2);
        return;
      }
      if row.retryAt > now {
        return;
      }
      asked := HandOver(t, row, readable, accepted, w1, w2);
    }

    /** From the state `before`, the session was asked: an acknowledged row is completed and its payload goes, a refused
        one is put back for a retry, with its payload. */
    ghost predicate Asked(before: State, row: InboxItem, accepted: bool, w1: Write, w2: Write)
      reads this
    {
      var id, disk := row.routeId, before.disk;
      && id in disk.inPayloads &&
      if accepted then
        && state.log.handoffs ==
           before.log.handoffs + [Handoff(id, row.tenantId, row.targetClientId, disk.inPayloads[id])]
        && (w1.Done? ==> inbox == disk.inbox[id := row.(status := Completed, completedAt := Some(now))])
        && (w1.Done? && w2.Done? ==> inPayloads == disk.inPayloads - {id})
      else
        && state.log == before.log && inPayloads == disk.inPayloads
        && (w1.Done? ==>
              inbox == disk.inbox[id := row.(attempts := row.attempts + 1, retryAt := now + cfg.retryInterval)])
    }

    /** From the state `before`, the row was given up: counted as dropped, completed, and its payload deleted. */
    ghost predicate GivenUp(before: State, row: InboxItem, w1: Write, w2: Write)
      reads this
    {
      && state.log == before.log.(dropped := before.log.dropped + {row.routeId})
      && (w1.Done? ==>
            inbox == before.disk.inbox[row.routeId := row.(status := Completed, completedAt := Some(now))])
      && (w1.Done? && w2.Done? ==> inPayloads == before.disk.inPayloads - {row.routeId})
    }

    method HandOver(t: TaskId, row: InboxItem, readable: bool, accepted: bool, w1: Write, w2: Write)
        returns (asked: bool)
      requires Valid() && t in state.tasks && state.tasks[t] == FetchIn(row, now)
      modifies this
      ensures Valid() && now == old(now) && state.tasks == old(state.tasks) - {t}
      ensures asked ==> Asked(old(state), row, accepted, w1, w2)
      ensures var found := readable && row.routeId in old(inPayloads);
              && (asked <==> found && !MessageExpiry.HasExpired(old(inPayloads)[row.routeId], now))
              && (found && !asked ==> GivenUp(old(state), row, w1, w2))
              && (!found ==> inbox == old(inbox) && inPayloads == old(inPayloads) && state.log == old(state.log))
    {
      StepIsReachable(cfg, state, ReadIn(t, readable));
      state := InRead(state, t, row, now, readable);
      assert state.tasks - {t} == old(state.tasks) - {t};
      if !readable || row.routeId !in inPayloads {
        return false;
      }
      var packet := inPayloads[row.routeId];
      if MessageExpiry.IsExpired(packet, now) {
        Complete(t, row.(status := Completed, completedAt := Some(now)), w1, w2);
        return false;
      }
      Settle(t, row, packet, accepted, w1, w2);
      asked := true;
    }

    /** The session answers. */
    method Settle(t: TaskId, row: InboxItem, packet: Publish, accepted: bool, w1: Write, w2: Write)
      requires Valid() && t in state.tasks && state.tasks[t] == HandOff(row, now, packet)
      requires row.routeId in inPayloads && inPayloads[row.routeId] == packet
      modifies this
      ensures Valid() && now == old(now) && state.tasks == old(state.tasks) - {t}
      ensures Asked(old(state), row, accepted, w1, w2)
    {
      StepIsReachable(cfg, state, SessionAnswer(t, accepted));
      state := Answered(cfg, state, t, state.tasks[t], accepted);
      assert state.tasks - {t} == old(state.tasks) - {t};
      if accepted {
        Complete(t, row.(status := Completed, completedAt := Some(now)), w1, w2);
      } else {
        PutInboxRow(t, row.(attempts := row.attempts + 1, retryAt := now + cfg.retryInterval), w1);
      }
    }

    // ---- cleanup_completed_inbox_items ----

    method DeleteSwept(t: TaskId, id: RouteId, v: TaskId, w: Write)
      requires Valid() && t in state.tasks && state.tasks[t] == Sweep(now) && v !in state.tasks
      requires id in inbox && Sweepable(cfg, inbox[id], now)
      modifies this
      ensures Valid() && now == old(now) && state.tasks == old(state.tasks)
      ensures inbox == if w == FailedLost then old(inbox) else old(inbox) - {id}
    {
      ghost var tasks := state.tasks;
      PickIsReachable(cfg, state, t, id, v);
      state := Continue(state, v, SweepRow(id));
      SweptIsReachable(cfg, state, v, w);
      state := RowSwept(state, v, id, w);
      assert state.tasks == tasks;
      if w != FailedLost {
        inbox := inbox - {id};
      }
    }

    /** Deletes the completed rows that are old enough; `lost` are the rows whose deletion fails. */
    method CleanupCompletedInboxItems(t: TaskId, v: TaskId, lost: set<RouteId>)
      requires Valid() && t !in state.tasks && v !in state.tasks && v != t
      modifies this
      ensures Valid() && now == old(now)
      ensures forall id :: id in inbox <==>
                id in old(inbox) && (id in lost || !IsOld(old(inbox)[id], cfg.ttl, now))
      ensures forall id :: id in inbox ==> inbox[id] == old(inbox)[id]
    {
      SweepIsReachable(cfg, state, t);
      state := Continue(state, t, Sweep(state.clock));
      SweepRows(t, v, lost);
    }

    /** Goes through the rows in any order. */
    method SweepRows(t: TaskId, v: TaskId, lost: set<RouteId>)
      requires Valid() && t in state.tasks && state.tasks[t] == Sweep(now) && v !in state.tasks
      modifies this
      ensures Valid() && now == old(now)
      ensures inbox == old(inbox) - (Old(cfg, old(inbox), now) - lost)
    {
      var rows := Old(cfg, inbox, now);
      ghost var all, before := rows, inbox;
      assert before - (all - rows - lost) == before;
      while rows != {}
        invariant Valid() && now == old(now) && state.tasks == old(state.tasks)
        invariant rows <= all && inbox == before - (all - rows - lost)
        decreases |rows|
      {
        var id :| id in rows;
        SweepNext(cfg, before, now, all, rows, lost, id);
        DeleteSwept(t, id, v, if id in lost then FailedLost else Done);
        rows := rows - {id};
      }
      assert all - {} == all;
    }

    method Advance(to: u64)
      requires Valid() && now <= to
      modifies this
      ensures Valid() && now == to && state == old(state).(clock := to)
    {
      StepIsReachable(cfg, state, Tick(to));
      state := state.(clock := to);
      now := to;
    }
  }

  /** The rows that a sweep at `now` deletes. */
  function Old(cfg: Config, inbox: map<RouteId, InboxItem>, now: u64): set<RouteId> {
    set id | id in inbox && Sweepable(cfg, inbox[id], now)
  }

  lemma SweepNext(cfg: Config, inbox: map<RouteId, InboxItem>, now: u64, all: set<RouteId>, rows: set<RouteId>,
                  lost: set<RouteId>, id: RouteId)
    requires all == Old(cfg, inbox, now) && id in rows && rows <= all
    ensures var left := inbox - (all - rows - lost);
            && id in left && Sweepable(cfg, left[id], now)
            && inbox - (all - (rows - {id}) - lost) == if id in lost then left else left - {id}
  {
    var gone := all - rows - lost;
    assert all - (rows - {id}) - lost == if id in lost then gone else gone + {id};
    assert inbox - (gone + {id}) == inbox - gone - {id};
  }

  lemma SweepIsReachable(cfg: Config, s: State, t: TaskId)
    requires Reachable(cfg, s) && t !in s.tasks
    ensures Reachable(cfg, Continue(s, t, Sweep(s.clock)))
  {
    StepIsReachable(cfg, s, SweepStart(t));
  }

  lemma PickIsReachable(cfg: Config, s: State, t: TaskId, id: RouteId, v: TaskId)
    requires Reachable(cfg, s) && t in s.tasks && s.tasks[t].Sweep? && v !in s.tasks
    requires id in s.disk.inbox && Sweepable(cfg, s.disk.inbox[id], s.tasks[t].now)
    ensures Reachable(cfg, Continue(s, v, SweepRow(id)))
  {
    StepIsReachable(cfg, s, SweepPick(t, id, v));
  }

  lemma SweptIsReachable(cfg: Config, s: State, v: TaskId, w: Write)
    requires Reachable(cfg, s) && v in s.tasks && s.tasks[v].SweepRow?
    ensures Reachable(cfg, RowSwept(s, v, s.tasks[v].id, w))
  {
    StepIsReachable(cfg, s, Store(v, w));
  }

  /** Whatever handlers have been run and whatever failed in them, a route whose enqueue succeeded has been handed to
      its session, has been counted as dropped, or can be read back from the stores. */
  lemma StoresLoseNothing(router: Router, id: RouteId)
    requires router.Valid() && id in router.state.log.enqueued
    ensures var issue := router.state.log.issued;
            || Handed(router.state.log, id) || id in router.state.log.dropped
            || (id in issue && id in router.outbox
                && id in router.outPayloads && router.outPayloads[id] == issue[id].packet)
            || (id in issue && id in router.inbox && router.inbox[id].status.Pending?
                && id in router.inPayloads && router.inPayloads[id] == issue[id].packet)
  {
    var run, acts :| IsRun(router.cfg, run, acts) && run[|acts|] == router.state;
    RouteNoLoss.NoSilentLoss(router.cfg, run, acts, |acts|, id);
  }
}
