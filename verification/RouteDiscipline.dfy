/** The conditions of the at-most-once theorem are needed: for every configuration that lets a route out at all,
    dropping any one of them admits a run in which one route is acknowledged twice. */
module RouteDiscipline {
  import opened MqttTypes
  import opened DurableRoute
  import opened RouteAtMostOnce

  datatype Trace = Trace(run: seq<State>, acts: seq<Action>) {
    predicate WellFormed() {
      |run| == |acts| + 1
    }

    function Last(): State
      requires WellFormed()
    {
      run[|acts|]
    }
  }

  ghost predicate AllAcceptancesApart(tr: Trace)
    requires tr.WellFormed()
  {
    forall i :: 0 <= i < |tr.acts| ==> AcceptancesApart(tr.run[i], tr.acts[i])
  }

  ghost predicate AllScansApart(tr: Trace)
    requires tr.WellFormed()
  {
    forall i :: 0 <= i < |tr.acts| ==> ScansApart(tr.run[i], tr.acts[i])
  }

  ghost predicate AllCompletionsKept(tr: Trace)
    requires tr.WellFormed()
  {
    forall i :: 0 <= i < |tr.acts| ==> CompletionKept(tr.run[i], tr.acts[i])
  }

  ghost predicate AllKept(tr: Trace)
    requires tr.WellFormed()
  {
    AllAcceptancesApart(tr) && AllScansApart(tr) && AllCompletionsKept(tr)
  }

  lemma Then(cfg: Config, tr: Trace, a: Action) returns (tr': Trace)
    requires tr.WellFormed() && IsRun(cfg, tr.run, tr.acts) && Enabled(cfg, tr.Last(), a)
    ensures tr'.WellFormed() && IsRun(cfg, tr'.run, tr'.acts)
    ensures tr'.Last() == Apply(cfg, tr.Last(), a)
    ensures AllAcceptancesApart(tr) && AcceptancesApart(tr.Last(), a) ==> AllAcceptancesApart(tr')
    ensures AllScansApart(tr) && ScansApart(tr.Last(), a) ==> AllScansApart(tr')
    ensures AllCompletionsKept(tr) && CompletionKept(tr.Last(), a) ==> AllCompletionsKept(tr')
  {
    tr' := Trace(tr.run + [Apply(cfg, tr.Last(), a)], tr.acts + [a]);
  }

  predicate LetsRoutesOut(cfg: Config) {
    cfg.ttl >= 1 && cfg.maxRetryCount >= 1
  }

  function Message(): Publish {
    Publish("topic", [], 1, false, false, None, None, None)
  }

  function Item(cfg: Config): OutboxItem {
    OutboxItem(7, "tenant", "client", 0, 0, cfg.ttl)
  }

  function Row(cfg: Config): InboxItem {
    InboxItem(7, "tenant", "client", 0, 0, cfg.ttl, Pending, None)
  }

  lemma EnqueueIt(cfg: Config) returns (tr: Trace)
    requires LetsRoutesOut(cfg)
    ensures tr.WellFormed() && IsRun(cfg, tr.run, tr.acts) && AllKept(tr)
    ensures var s := tr.Last();
            && s.clock == 0 && s.tasks == map[0 := Dispatch(Item(cfg))]
            && s.disk == Disk(map[7 := Item(cfg)], map[7 := Message()], map[], map[]) && s.log.handoffs == []
  {
    tr := Trace([Init(0)], []);
    tr := Then(cfg, tr, Enqueue(7, "tenant", "client", Message()));
    tr := Then(cfg, tr, EnqueuePutPayload(7, Done));
    tr := Then(cfg, tr, EnqueuePutRow(7, Done, 0));
  }

  function Request(cfg: Config): RouteRequest {
    RouteRequest(7, "tenant", "client", Message(), cfg.ttl)
  }

  lemma SendIt(cfg: Config) returns (tr: Trace)
    requires LetsRoutesOut(cfg)
    ensures tr.WellFormed() && IsRun(cfg, tr.run, tr.acts) && AllKept(tr)
    ensures var s := tr.Last();
            && s.clock == 0 && s.tasks == map[0 := AwaitReply(Item(cfg), 0)]
            && Request(cfg) in s.sent
            && s.disk.inbox == map[] && s.disk.inPayloads == map[] && s.log.handoffs == []
  {
    tr := EnqueueIt(cfg);
    tr := Then(cfg, tr, DispatchStart(0, true));
    tr := Then(cfg, tr, ReadOut(0, true));
  }

  /** `tr2` goes on from `tr1` and breaks no condition that `tr1` keeps. */
  ghost predicate GoesOn(cfg: Config, tr1: Trace, tr2: Trace)
    requires tr1.WellFormed()
  {
    && tr2.WellFormed() && IsRun(cfg, tr2.run, tr2.acts)
    && (AllAcceptancesApart(tr1) ==> AllAcceptancesApart(tr2))
    && (AllScansApart(tr1) ==> AllScansApart(tr2))
    && (AllCompletionsKept(tr1) ==> AllCompletionsKept(tr2))
  }

  lemma StorePayloadIt(cfg: Config, tr0: Trace, t: TaskId) returns (tr: Trace)
    requires tr0.WellFormed() && IsRun(cfg, tr0.run, tr0.acts)
    requires tr0.Last().clock == 0 && t in tr0.Last().tasks && tr0.Last().tasks[t] == PutInPayload(Request(cfg))
    requires LetsRoutesOut(cfg)
    ensures GoesOn(cfg, tr0, tr) && tr.Last() == InPayloadStored(cfg, tr0.Last(), t, Request(cfg), Done)
    ensures tr.Last().tasks == tr0.Last().tasks[t := InsertRow(Row(cfg))]
  {
    tr := Then(cfg, tr0, Store(t, Done));
  }

  lemma StoreRowIt(cfg: Config, tr0: Trace, t: TaskId) returns (tr: Trace)
    requires tr0.WellFormed() && IsRun(cfg, tr0.run, tr0.acts)
    requires t in tr0.Last().tasks && tr0.Last().tasks[t] == InsertRow(Row(cfg))
    ensures GoesOn(cfg, tr0, tr) && tr.Last() == RowInserted(tr0.Last(), t, Row(cfg), Done)
  {
    tr := Then(cfg, tr0, Store(t, Done));
  }

  /** An acceptance that found no row stores the payload and a Pending row, whatever row is there now. */
  lemma InsertIt(cfg: Config, tr0: Trace, t: TaskId) returns (tr: Trace)
    requires LetsRoutesOut(cfg) && tr0.WellFormed() && IsRun(cfg, tr0.run, tr0.acts)
    requires tr0.Last().clock == 0 && t in tr0.Last().tasks && tr0.Last().tasks[t] == PutInPayload(Request(cfg))
    ensures GoesOn(cfg, tr0, tr)
    ensures tr.Last().clock == 0 && tr.Last().log.handoffs == tr0.Last().log.handoffs
    ensures tr.Last().tasks == tr0.Last().tasks[t := Process(Row(cfg))]
    ensures tr.Last().disk.inbox == tr0.Last().disk.inbox[7 := Row(cfg)]
    ensures tr.Last().disk.inPayloads == tr0.Last().disk.inPayloads[7 := Message()]
  {
    var tr1 := StorePayloadIt(cfg, tr0, t);
    tr := StoreRowIt(cfg, tr1, t);
    GoesOnFurther(cfg, tr0, tr1, tr);
  }

  /** Route 7 is accepted, and about to be processed for the first time. */
  lemma AcceptIt(cfg: Config) returns (tr: Trace)
    requires LetsRoutesOut(cfg)
    ensures tr.WellFormed() && IsRun(cfg, tr.run, tr.acts) && AllKept(tr)
    ensures var s := tr.Last();
            && s.clock == 0 && s.tasks == map[0 := AwaitReply(Item(cfg), 0), 1 := Process(Row(cfg))]
            && s.disk.inbox == map[7 := Row(cfg)] && s.disk.inPayloads == map[7 := Message()]
            && s.log.handoffs == []
  {
    tr := SendIt(cfg);
    tr := Then(cfg, tr, Receive(Request(cfg), 1));
    tr := Then(cfg, tr, LookUp(1, true));
    tr := InsertIt(cfg, tr, 1);
  }

  lemma ProcessIt(cfg: Config, tr0: Trace, t: TaskId) returns (tr: Trace)
    requires LetsRoutesOut(cfg) && tr0.WellFormed() && IsRun(cfg, tr0.run, tr0.acts)
    requires tr0.Last().clock == 0 && t in tr0.Last().tasks && tr0.Last().tasks[t] == Process(Row(cfg))
    ensures GoesOn(cfg, tr0, tr) && tr.Last() == Continue(tr0.Last(), t, FetchIn(Row(cfg), 0))
  {
    tr := Then(cfg, tr0, ProcessStart(t));
  }

  lemma ReadIt(cfg: Config, tr0: Trace, t: TaskId) returns (tr: Trace)
    requires tr0.WellFormed() && IsRun(cfg, tr0.run, tr0.acts)
    requires t in tr0.Last().tasks && tr0.Last().tasks[t] == FetchIn(Row(cfg), 0)
    requires 7 in tr0.Last().disk.inPayloads && tr0.Last().disk.inPayloads[7] == Message()
    ensures GoesOn(cfg, tr0, tr) && tr.Last() == Continue(tr0.Last(), t, HandOff(Row(cfg), 0, Message()))
  {
    tr := Then(cfg, tr0, ReadIn(t, true));
  }

  lemma GoesOnFurther(cfg: Config, tr1: Trace, tr2: Trace, tr3: Trace)
    requires tr1.WellFormed() && GoesOn(cfg, tr1, tr2) && GoesOn(cfg, tr2, tr3)
    ensures GoesOn(cfg, tr1, tr3)
  {
  }

  lemma FetchIt(cfg: Config, tr0: Trace, t: TaskId) returns (tr: Trace)
    requires LetsRoutesOut(cfg) && tr0.WellFormed() && IsRun(cfg, tr0.run, tr0.acts)
    requires tr0.Last().clock == 0 && t in tr0.Last().tasks && tr0.Last().tasks[t] == Process(Row(cfg))
    requires 7 in tr0.Last().disk.inPayloads && tr0.Last().disk.inPayloads[7] == Message()
    ensures GoesOn(cfg, tr0, tr)
    ensures tr.Last().clock == 0 && tr.Last().disk == tr0.Last().disk && tr.Last().log == tr0.Last().log
    ensures tr.Last().tasks == tr0.Last().tasks[t := HandOff(Row(cfg), 0, Message())]
  {
    var tr1 := ProcessIt(cfg, tr0, t);
    tr := ReadIt(cfg, tr1, t);
    GoesOnFurther(cfg, tr0, tr1, tr);
  }

  lemma AnswerIt(cfg: Config, tr0: Trace, t: TaskId) returns (tr: Trace)
    requires tr0.WellFormed() && IsRun(cfg, tr0.run, tr0.acts)
    requires t in tr0.Last().tasks && tr0.Last().tasks[t] == HandOff(Row(cfg), 0, Message())
    ensures GoesOn(cfg, tr0, tr)
    ensures tr.Last().clock == tr0.Last().clock && tr.Last().disk == tr0.Last().disk
    ensures tr.Last().tasks == tr0.Last().tasks[t := PutCompleted(CompletedIn(Row(cfg), 0))]
    ensures tr.Last().log.handoffs == tr0.Last().log.handoffs + [Handoff(7, "tenant", "client", Message())]
  {
    tr := Then(cfg, tr0, SessionAnswer(t, true));
  }

  /** A handler that starts from the Pending row gets as far as the session's acknowledgement. */
  lemma HandItOver(cfg: Config, tr0: Trace, t: TaskId) returns (tr: Trace)
    requires LetsRoutesOut(cfg) && tr0.WellFormed() && IsRun(cfg, tr0.run, tr0.acts)
    requires tr0.Last().clock == 0 && t in tr0.Last().tasks && tr0.Last().tasks[t] == Process(Row(cfg))
    requires 7 in tr0.Last().disk.inPayloads && tr0.Last().disk.inPayloads[7] == Message()
    ensures GoesOn(cfg, tr0, tr)
    ensures tr.Last().clock == 0 && tr.Last().disk == tr0.Last().disk
    ensures tr.Last().tasks == tr0.Last().tasks[t := PutCompleted(CompletedIn(Row(cfg), 0))]
    ensures tr.Last().log.handoffs == tr0.Last().log.handoffs + [Handoff(7, "tenant", "client", Message())]
  {
    var tr1 := FetchIt(cfg, tr0, t);
    tr := AnswerIt(cfg, tr1, t);
    GoesOnFurther(cfg, tr0, tr1, tr);
  }

  /** Two handlers that hold the same Pending row, one from its acceptance and one from the periodic scan,
      hand the route over twice; nothing failed in this run, and no acceptances overlapped. */
  lemma OverlapDuplicates(cfg: Config) returns (tr: Trace)
    requires LetsRoutesOut(cfg)
    ensures tr.WellFormed() && IsRun(cfg, tr.run, tr.acts) && AllAcceptancesApart(tr) && AllCompletionsKept(tr)
    ensures !Distinct(tr.Last().log.handoffs)
  {
    tr := AcceptIt(cfg);
    tr := Then(cfg, tr, ScanInbox(7, 2));
    tr := HandItOver(cfg, tr, 1);
    tr := HandItOver(cfg, tr, 2);
    assert tr.Last().log.handoffs[0].routeId == tr.Last().log.handoffs[1].routeId;
  }

  /** A completion write that is lost after the acknowledgement leaves the row Pending, and the next scan
      hands the route over again; no two handlers overlapped in this run. */
  lemma LostCompletionDuplicates(cfg: Config) returns (tr: Trace)
    requires LetsRoutesOut(cfg)
    ensures tr.WellFormed() && IsRun(cfg, tr.run, tr.acts) && AllAcceptancesApart(tr) && AllScansApart(tr)
    ensures !Distinct(tr.Last().log.handoffs)
  {
    tr := AcceptIt(cfg);
    tr := HandItOver(cfg, tr, 1);
    tr := Then(cfg, tr, Store(1, FailedLost));
    assert tr.Last().tasks == map[0 := AwaitReply(Item(cfg), 0)];
    tr := Then(cfg, tr, ScanInbox(7, 1));
    tr := HandItOver(cfg, tr, 1);
    assert tr.Last().log.handoffs[0].routeId == tr.Last().log.handoffs[1].routeId;
  }

  // ---- overlapping acceptances ----

  /** Two copies of the request are received and looked up before either is stored. */
  lemma ReceiveTwice(cfg: Config) returns (tr: Trace)
    requires LetsRoutesOut(cfg)
    ensures tr.WellFormed() && IsRun(cfg, tr.run, tr.acts) && AllScansApart(tr) && AllCompletionsKept(tr)
    ensures var s := tr.Last();
            && s.clock == 0 && s.log.handoffs == []
            && s.tasks == map[0 := AwaitReply(Item(cfg), 0),
                              1 := PutInPayload(Request(cfg)), 2 := PutInPayload(Request(cfg))]
  {
    tr := SendIt(cfg);
    tr := Then(cfg, tr, Receive(Request(cfg), 1));
    tr := Then(cfg, tr, Receive(Request(cfg), 2));
    tr := Then(cfg, tr, LookUp(1, true));
    tr := Then(cfg, tr, LookUp(2, true));
  }

  /** The second of two overlapping acceptances puts a Pending row over the completed one and hands the route over
      again; nothing failed in this run, and no scan overlapped. */
  lemma OverlappingAcceptancesDuplicate(cfg: Config) returns (tr: Trace)
    requires LetsRoutesOut(cfg)
    ensures tr.WellFormed() && IsRun(cfg, tr.run, tr.acts) && AllScansApart(tr) && AllCompletionsKept(tr)
    ensures !Distinct(tr.Last().log.handoffs)
  {
    tr := ReceiveTwice(cfg);
    tr := InsertIt(cfg, tr, 1);
    tr := HandItOver(cfg, tr, 1);
    tr := Then(cfg, tr, Store(1, Done));
    tr := InsertIt(cfg, tr, 2);
    tr := HandItOver(cfg, tr, 2);
    assert tr.Last().log.handoffs[0].routeId == tr.Last().log.handoffs[1].routeId;
  }
}
