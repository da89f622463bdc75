/** How far the Receive Maximum bound goes. With no condition but that writes on the live connection succeed and the
    client acknowledges only what is outstanding, it holds exactly for persistent sessions. A clean session spawns its
    deliveries, and for each of two lapses there are runs that leave more packets outstanding than the client allows:
    the second put of a delivery fails, or a retry pass falls into it. */
module ReceiveMaximumLimits {
  import opened MqttTypes
  import opened Inflight
  import opened SessionDelivery
  import opened SessionSafety
  import opened SessionAgreement
  import opened ReceiveMaximum

  /** Writes on the live connection succeed, the client acknowledges only what is outstanding, and a retry pass takes
      what has been quiet for longer than the retry interval. */
  predicate Honest(s: Session, a: Action, interval: nat) {
    match a
    case Outbound(_, f) => f.writes == {}
    case Complete(_, f) => f.writes == {}
    case Register(_, ok) => ok
    case Refresh(_, _, ok) => ok
    case Puback(id, acked, f) => f.writes == {} && Answers(s, id, acked)
    case Pubrec(id, acked, f) => f.writes == {} && !f.control && Answers(s, id, acked)
    case InflightRetry(due, f) => f.writes == {} && due == Quiet(s.memory.table, interval, s.clock)
    case _ => true
  }

  ghost predicate IsHonest(p: Profile, interval: nat, kept: Session, f: Faults, run: seq<Session>, acts: seq<Action>) {
    && IsRun(kept, f, run, acts) && Kept(kept) && kept.profile == p && kept.active && f.writes == {}
    && forall j :: 0 <= j < |acts| ==> Honest(run[j], acts[j], interval)
  }

  // ---- persistent sessions ----

  /** A persistent session has no spawned deliveries, so it cannot lapse. */
  lemma PersistentIsFair(s: Session, a: Action, interval: nat)
    requires Safe(s) && !s.profile.clean && Enabled(s, a) && Honest(s, a, interval)
    ensures Fair(s, a)
  {
    match a
    case Refresh(k, _, _) => OnlyCleanSpawns(s, k);
    case InflightRetry(due, _) =>
      forall k ensures !At(s, k, Refreshing) {
        OnlyCleanSpawns(s, k);
      }
    case _ =>
  }

  lemma PersistentStaysWithin(
      p: Profile, interval: nat, kept: Session, f: Faults, run: seq<Session>, acts: seq<Action>, i: nat)
    requires IsHonest(p, interval, kept, f, run, acts) && i < |run| && p.version.V5_0? && !p.clean
    ensures |run[i].wire.outstanding| <= run[i].flow.slots <= Max(1, p.receiveMaximum)
  {
    forall j | 0 <= j < i ensures Fair(run[j], acts[j]) {
      RunKeepsSafe(kept, f, run, acts, j);
      RunKeepsProfile(kept, f, run, acts, j);
      PersistentIsFair(run[j], acts[j], interval);
    }
    ReceiveMaximumIsRespected(kept, f, run, acts, i);
  }

  // ---- runs with a lapse ----

  function NewSession(p: Profile): Session {
    Session(p, true, 0, 0, Memory(map[], map[], map[]), Flow(0, []), map[], [], Wire({}, {}))
  }

  lemma NothingToRecover(p: Profile)
    ensures Kept(NewSession(p)) && RecoveryHandled(NewSession(p), NO_FAULTS) == NewSession(p)
  {
    var s := NewSession(p);
    var s1 := ExpiryPass(s, NO_FAULTS).0;
    assert s1.memory == s.memory;
    var queue := Recovered(s.memory, 0, U16_MAX + 1);
    if queue != [] {
      RecoveredHolds(s.memory, 0, U16_MAX + 1, queue[0]);
      assert false;
    }
    assert RecoveryQueued(s, NO_FAULTS) == s;
  }

  /** Which condition a run gives up. */
  datatype Lapse = SecondPut | EarlyRetry

  predicate Lapses(l: Lapse, a: Action) {
    match l
    case SecondPut => a.Refresh?
    case EarlyRetry => a.InflightRetry?
  }

  /** `s'` follows from `s` by `a`, which is honest, and fair unless it is the lapse. */
  predicate Leads(l: Lapse, interval: nat, s: Session, a: Action, s': Session) {
    Enabled(s, a) && Honest(s, a, interval) && (Lapses(l, a) || Fair(s, a)) && s' == Apply(s, a)
  }

  /** A run of a new session that is honest, and fair but for one kind of step. */
  ghost predicate IsLapsing(p: Profile, interval: nat, run: seq<Session>, acts: seq<Action>, l: Lapse) {
    && IsHonest(p, interval, NewSession(p), NO_FAULTS, run, acts)
    && forall j :: 0 <= j < |acts| ==> Lapses(l, acts[j]) || Fair(run[j], acts[j])
  }

  lemma Extend(p: Profile, interval: nat, run: seq<Session>, acts: seq<Action>, l: Lapse, a: Action, s: Session)
    requires IsLapsing(p, interval, run, acts, l) && Leads(l, interval, run[|acts|], a, s)
    ensures IsLapsing(p, interval, run + [s], acts + [a], l) && (run + [s])[|acts + [a]|] == s
  {
    var run', acts' := run + [s], acts + [a];
    forall j | 0 <= j < |acts'|
      ensures Enabled(run'[j], acts'[j]) && run'[j + 1] == Apply(run'[j], acts'[j])
      ensures Honest(run'[j], acts'[j], interval) && (Lapses(l, acts'[j]) || Fair(run'[j], acts'[j]))
    {
      if j < |acts| {
        assert acts'[j] == acts[j] && run'[j] == run[j] && run'[j + 1] == run[j + 1];
      }
    }
  }

  /** Two more steps of a lapsing run. */
  lemma ExtendTwice(p: Profile, interval: nat, run: seq<Session>, acts: seq<Action>, l: Lapse, a: Action, s: Session,
                    a': Action, s': Session) returns (run': seq<Session>, acts': seq<Action>)
    requires IsLapsing(p, interval, run, acts, l)
    requires Leads(l, interval, run[|acts|], a, s) && Leads(l, interval, s, a', s')
    ensures IsLapsing(p, interval, run', acts', l) && run'[|acts'|] == s'
  {
    Extend(p, interval, run, acts, l, a, s);
    Extend(p, interval, run + [s], acts + [a], l, a', s');
    run', acts' := run + [s] + [s'], acts + [a] + [a'];
  }

  /** Three more steps of a lapsing run. */
  lemma ExtendThrice(p: Profile, interval: nat, run: seq<Session>, acts: seq<Action>, l: Lapse, a: Action, s: Session,
                     a': Action, s': Session, a'': Action, s'': Session)
      returns (run': seq<Session>, acts': seq<Action>)
    requires IsLapsing(p, interval, run, acts, l)
    requires Leads(l, interval, run[|acts|], a, s) && Leads(l, interval, s, a', s') && Leads(l, interval, s', a'', s'')
    ensures IsLapsing(p, interval, run', acts', l) && run'[|acts'|] == s''
  {
    run', acts' := ExtendTwice(p, interval, run, acts, l, a, s, a', s');
    Extend(p, interval, run', acts', l, a'', s'');
    run', acts' := run' + [s''], acts' + [a''];
  }

  /** A QoS 1 or 2 publish without an expiry, as the router hands it over. */
  predicate Routed(publish: Publish) {
    1 <= publish.qos <= 2 && publish.expiresAt.None? && publish.packetIdentifier.None?
  }

  // ---- one publish after the other, to the limit ----

  /** The identifiers up to `n` are in use, each for a publish with a slot. Next to them `base` slots are in use and one
      packet more than these is outstanding. */
  ghost predicate Loaded(p: Profile, s: Session, base: nat, n: nat) {
    && s.profile == p && s.active && s.flow == Flow(base + n, []) && s.deliveries == map[]
    && (forall id: u16 :: id in s.memory.table <==> 1 <= id <= n)
    && |s.wire.outstanding| == base + n + 1 && forall c :: c in s.wire.outstanding ==> c.key < s.nextKey
  }

  lemma NextIdentifier(t: Table, n: nat)
    requires n < U16_MAX && forall id: u16 :: id in t <==> 1 <= id <= n
    ensures LeastFree(t, 1) == Some(n + 1)
  {
    var next: u16 := n + 1;
    assert next !in t;
  }

  /** The publish of a loaded session, stored under the next identifier and about to be registered. */
  function Stored(s: Session, publish: Publish, id: u16): Session {
    var k, sent := s.nextKey, publish.(packetIdentifier := Some(id));
    s.(nextKey := k + 1, flow := Flow(s.flow.slots + 1, []),
       memory := s.memory.(store := s.memory.store[k := sent]),
       deliveries := map[k := Delivery(sent, true, Registering)])
  }

  lemma StoreNext(p: Profile, interval: nat, l: Lapse, s: Session, publish: Publish, base: nat, n: nat)
      returns (s1: Session, s2: Session)
    requires p.clean && p.version.V5_0? && Routed(publish) && Loaded(p, s, base, n) && base + n < Limit(p)
    ensures Leads(l, interval, s, Outbound(publish, NO_FAULTS), s1) && Leads(l, interval, s1, Prepare(s.nextKey), s2)
    ensures Leads(l, interval, s2, Put(s.nextKey, true), Stored(s, publish, n + 1))
  {
    var k := s.nextKey;
    s1 := Apply(s, Outbound(publish, NO_FAULTS));
    assert s1 == Spawned(s, publish);
    NextIdentifier(s.memory.table, n);
    s2 := Apply(s1, Prepare(k));
    assert s2.deliveries == map[k := Delivery(publish.(packetIdentifier := Some(n + 1)), true, Storing)];
    assert Apply(s2, Put(k, true)).deliveries == Stored(s, publish, n + 1).deliveries;
  }

  lemma WriteNext(p: Profile, interval: nat, l: Lapse, s: Session, publish: Publish, base: nat, n: nat)
      returns (s4: Session, s5: Session)
    requires p.clean && Routed(publish) && Loaded(p, s, base, n) && n < U16_MAX
    ensures Leads(l, interval, Stored(s, publish, n + 1), Register(s.nextKey, true), s4)
    ensures Leads(l, interval, s4, Complete(s.nextKey, NO_FAULTS), s5) && Loaded(p, s5, base, n + 1)
  {
    var k := s.nextKey;
    var id: u16 := n + 1;
    assert id !in s.memory.table;
    s4 := Apply(Stored(s, publish, id), Register(k, true));
    assert At(s4, k, Ended(true));
    s5 := Apply(s4, Complete(k, NO_FAULTS));
    assert s5.deliveries == map[];
    assert Copy(k, id) !in s.wire.outstanding && s5.wire.outstanding == s.wire.outstanding + {Copy(k, id)};
    assert s5.memory.table.Keys == s.memory.table.Keys + {id};
  }

  /** One more publish through. */
  lemma FillNext(
      p: Profile, interval: nat, l: Lapse, run0: seq<Session>, acts0: seq<Action>, publish: Publish, base: nat, n: nat)
      returns (run: seq<Session>, acts: seq<Action>)
    requires p.clean && p.version.V5_0? && Routed(publish) && base + n < Limit(p)
    requires IsLapsing(p, interval, run0, acts0, l) && Loaded(p, run0[|acts0|], base, n)
    ensures IsLapsing(p, interval, run, acts, l) && Loaded(p, run[|acts|], base, n + 1)
  {
    var s := run0[|acts0|];
    var k := s.nextKey;
    var s1, s2 := StoreNext(p, interval, l, s, publish, base, n);
    var s4, s5 := WriteNext(p, interval, l, s, publish, base, n);
    run, acts := ExtendThrice(p, interval, run0, acts0, l, Outbound(publish, NO_FAULTS), s1, Prepare(k), s2,
                              Put(k, true), Stored(s, publish, n + 1));
    run, acts := ExtendTwice(p, interval, run, acts, l, Register(k, true), s4, Complete(k, NO_FAULTS), s5);
  }

  lemma {:induction false} Fill(
      p: Profile, interval: nat, l: Lapse, run0: seq<Session>, acts0: seq<Action>, publish: Publish, base: nat, n: nat)
      returns (run: seq<Session>, acts: seq<Action>)
    requires p.clean && p.version.V5_0? && Routed(publish) && base + n <= Limit(p)
    requires IsLapsing(p, interval, run0, acts0, l) && Loaded(p, run0[|acts0|], base, 0)
    ensures IsLapsing(p, interval, run, acts, l) && Loaded(p, run[|acts|], base, n)
  {
    run, acts := run0, acts0;
    if n > 0 {
      run, acts := Fill(p, interval, l, run0, acts0, publish, base, n - 1);
      run, acts := FillNext(p, interval, l, run, acts, publish, base, n - 1);
    }
  }

  // ---- the start of both runs ----

  /** A delivery of a new session that has chosen the identifier 1. */
  function Chosen(p: Profile, publish: Publish): Session {
    NewSession(p).(
      nextKey := 1, flow := Flow(1, []),
      deliveries := map[0 := Delivery(publish.(packetIdentifier := Some(1)), true, Storing)])
  }

  lemma Choose(p: Profile, publish: Publish)
    requires p.clean && p.version.V5_0? && Routed(publish)
    ensures var s1 := Apply(NewSession(p), Outbound(publish, NO_FAULTS));
            At(s1, 0, Starting) && Apply(s1, Prepare(0)) == Chosen(p, publish)
  {
    var s1 := Apply(NewSession(p), Outbound(publish, NO_FAULTS));
    assert s1.deliveries[0] == Delivery(publish, true, Starting);
    assert s1.memory.table == map[];
    assert LeastFree(s1.memory.table, 1) == Some(1);
  }

  lemma Open(p: Profile, interval: nat, publish: Publish, l: Lapse) returns (run: seq<Session>, acts: seq<Action>)
    requires p.clean && p.version.V5_0? && Routed(publish)
    ensures IsLapsing(p, interval, run, acts, l) && run[|acts|] == Chosen(p, publish)
  {
    NothingToRecover(p);
    Choose(p, publish);
    var s1 := Apply(NewSession(p), Outbound(publish, NO_FAULTS));
    run, acts := ExtendTwice(p, interval, [NewSession(p)], [], l, Outbound(publish, NO_FAULTS), s1,
                             Prepare(0), Chosen(p, publish));
  }

  /** The delivery of the key 0 is at its second put: its entry is 2, as 1 went to a received publish, which is what the
      stored publish still carries. */
  predicate Collided(p: Profile, s: Session, publish: Publish) {
    && s.profile == p && s.active && s.nextKey == 2 && s.wire == Wire({}, {}) && s.flow == Flow(1, [])
    && s.memory.table == map[1 := RxItem(1, 1, 1, 0), 2 := TxItem(2, publish.qos, 0, 0)]
    && 0 in s.memory.store && s.memory.store[0] == publish.(packetIdentifier := Some(1))
    && s.deliveries == map[0 := Delivery(publish.(packetIdentifier := Some(2)), true, Refreshing)]
  }

  /** A received publish takes the identifier before the delivery registers under it. */
  lemma Collide(p: Profile, interval: nat, publish: Publish, received: Publish, l: Lapse)
      returns (run: seq<Session>, acts: seq<Action>)
    requires p.clean && p.version.V5_0? && Routed(publish) && received.qos == 1
    ensures IsLapsing(p, interval, run, acts, l)
    ensures Collided(p, run[|acts|], publish) && run[|acts|].clock == 0
  {
    run, acts := Open(p, interval, publish, l);
    var s3 := Apply(Chosen(p, publish), Inbound(1, received));
    assert s3.memory.table == map[1 := RxItem(1, 1, 1, 0)];
    var s4 := Apply(s3, Put(0, true));
    NextIdentifier(s4.memory.table, 1);
    var s5 := Apply(s4, Register(0, true));
    run, acts := ExtendThrice(p, interval, run, acts, l, Inbound(1, received), s3, Put(0, true), s4,
                              Register(0, true), s5);
  }

  predicate AllStarted(m: Memory) {
    forall id :: id in m.table ==> m.table[id].deliveryStarted
  }

  lemma StartedNeverExpires(s: Session)
    requires AllStarted(s.memory)
    ensures ExpiryPass(s, NO_FAULTS) == (s, {})
  {
    var spared := Spared(s, NO_FAULTS);
    assert ExpiredUnsentIds(s.memory, s.clock, spared) == {} && Removable(s.memory, s.clock, spared) == {};
    assert KeysAt(s.memory.table, {}) == {};
    assert s.memory.table - {} == s.memory.table && s.memory.store - {} == s.memory.store;
  }

  /** A retry pass that finds one waiting entry, `id` with the key 0. */
  lemma RetryOne(s: Session, interval: nat, id: u16)
    requires AllStarted(s.memory) && s.flow.queue == []
    requires Holding(s.memory, id, 0) && IsDue(s.memory.table, id, interval, s.clock)
    requires 0 in s.memory.store && s.memory.store[0].expiresAt.None?
    requires forall other :: other in s.memory.table ==> (IsWaiting(s.memory.table[other].state) <==> other == id)
    ensures var due := Quiet(s.memory.table, interval, s.clock);
            RetryHandled(s, due, NO_FAULTS) ==
            s.(memory := s.memory.(table := Refreshed(s.memory.table, due, s.clock)),
               wire := Wire(s.wire.outstanding + {Copy(0, Carried(s.memory.store[0]))}, s.wire.written + {0}))
  {
    var due := Quiet(s.memory.table, interval, s.clock);
    StartedNeverExpires(s);
    var retried := Retried(s.memory, s.flow.queue, due, s.clock);
    assert id in due && id in retried;
    assert retried == {id};
    var sent := CopiesAt(s.memory, retried, {});
    assert sent == {Copy(0, Carried(s.memory.store[0]))};
    assert KeysOf(sent) == {0};
    assert Without(s.flow.queue, {}) == [];
  }

  /** One packet of the key 0 is outstanding without a slot, and the entry 2 is its. */
  predicate Unpaid(p: Profile, s: Session) {
    && s.profile == p && s.active && s.nextKey == 2 && s.flow.queue == [] && s.deliveries == map[]
    && |s.wire.outstanding| == s.flow.slots + 1 && (forall c :: c in s.wire.outstanding ==> c.key == 0)
    && s.memory.table.Keys == {1, 2} && s.memory.table[1].state.Finish?
  }

  /** The identifier 2 is taken by another received publish and freed, and as many publishes as there are slots left
      follow. */
  lemma FillUp(p: Profile, interval: nat, l: Lapse, run0: seq<Session>, acts0: seq<Action>, publish: Publish,
               received: Publish) returns (run: seq<Session>, acts: seq<Action>)
    requires p.clean && p.version.V5_0? && Routed(publish) && received.qos == 1
    requires IsLapsing(p, interval, run0, acts0, l)
    requires Unpaid(p, run0[|acts0|]) && run0[|acts0|].flow.slots <= Limit(p)
    ensures IsLapsing(p, interval, run, acts, l)
    ensures |run[|acts|].wire.outstanding| > Max(1, p.receiveMaximum)
  {
    var s := run0[|acts0|];
    var base := s.flow.slots;
    var s1 := Apply(s, Inbound(2, received));
    assert forall id :: id in s1.memory.table ==> s1.memory.table[id].state.Finish?;
    var s2 := Apply(s1, Cleanup);
    assert Loaded(p, s2, base, 0);
    run, acts := ExtendTwice(p, interval, run0, acts0, l, Inbound(2, received), s1, Cleanup, s2);
    run, acts := Fill(p, interval, l, run, acts, publish, base, Limit(p) - base);
  }

  // ---- the second put fails ----

  /** The failed delivery gives its slot back, and the retry interval passes. */
  lemma GiveUp(p: Profile, interval: nat, s5: Session, publish: Publish) returns (s6: Session, s7: Session, s8: Session)
    requires interval < U64_MAX && Collided(p, s5, publish) && s5.clock == 0
    ensures Leads(SecondPut, interval, s5, Action.Refresh(0, false, true), s6)
    ensures Leads(SecondPut, interval, s6, Complete(0, NO_FAULTS), s7)
    ensures Leads(SecondPut, interval, s7, Tick(interval + 1), s8)
    ensures s8 == s5.(clock := interval + 1, flow := Flow(0, []), deliveries := map[])
  {
    s6 := Apply(s5, Action.Refresh(0, false, true));
    s7 := Apply(s6, Complete(0, NO_FAULTS));
    assert s7.deliveries == map[];
    s8 := Apply(s7, Tick(interval + 1));
  }

  lemma RetryWithoutSlot(p: Profile, interval: nat, s5: Session, s8: Session, publish: Publish) returns (s9: Session)
    requires Collided(p, s5, publish) && Routed(publish) && interval < U64_MAX
    requires s8 == s5.(clock := interval + 1, flow := Flow(0, []), deliveries := map[])
    ensures Leads(SecondPut, interval, s8, InflightRetry(Quiet(s8.memory.table, interval, s8.clock), NO_FAULTS), s9)
    ensures Unpaid(p, s9) && s9.flow.slots == 0
  {
    RetryOne(s8, interval, 2);
    s9 := Apply(s8, InflightRetry(Quiet(s8.memory.table, interval, s8.clock), NO_FAULTS));
  }

  /** If the second put of a delivery may fail, more packets may be outstanding than the client allows: the delivery
      gives its slot back while its entry stays, the next retry pass writes the publish without a slot, and as many
      publishes as the client allows follow it. */
  lemma FailedRefreshOverruns(p: Profile, interval: nat, publish: Publish, received: Publish)
      returns (run: seq<Session>, acts: seq<Action>)
    requires p.clean && p.version.V5_0? && interval < U64_MAX && Routed(publish) && received.qos == 1
    ensures IsLapsing(p, interval, run, acts, SecondPut)
    ensures |run[|acts|].wire.outstanding| > Max(1, p.receiveMaximum)
  {
    run, acts := Collide(p, interval, publish, received, SecondPut);
    var s5 := run[|acts|];
    var s6, s7, s8 := GiveUp(p, interval, s5, publish);
    var s9 := RetryWithoutSlot(p, interval, s5, s8, publish);
    var retry := InflightRetry(Quiet(s8.memory.table, interval, s8.clock), NO_FAULTS);
    run, acts := ExtendThrice(p, interval, run, acts, SecondPut, Action.Refresh(0, false, true), s6,
                              Complete(0, NO_FAULTS), s7, Tick(interval + 1), s8);
    Extend(p, interval, run, acts, SecondPut, retry, s9);
    run, acts := FillUp(p, interval, SecondPut, run + [s9], acts + [retry], publish, received);
  }

  // ---- a retry pass falls into the second put ----

  /** The retry pass sends the publish under the identifier the store still has. */
  lemma RetryUnderOldId(p: Profile, interval: nat, s6: Session, publish: Publish) returns (s7: Session)
    requires interval < U64_MAX && Collided(p, s6, publish) && Routed(publish) && s6.clock == interval + 1
    ensures Leads(EarlyRetry, interval, s6, InflightRetry(Quiet(s6.memory.table, interval, s6.clock), NO_FAULTS), s7)
    ensures s7 == s6.(memory := s7.memory, wire := Wire({Copy(0, 1)}, {0}))
    ensures s7.memory.table.Keys == {1, 2} && s7.memory.table[1].state.Finish?
  {
    RetryOne(s6, interval, 2);
    s7 := Apply(s6, InflightRetry(Quiet(s6.memory.table, interval, s6.clock), NO_FAULTS));
  }

  /** The delivery sends it under the new one. */
  lemma WriteUnderNewId(p: Profile, interval: nat, s6: Session, s7: Session, publish: Publish)
      returns (s8: Session, s9: Session)
    requires Collided(p, s6, publish) && s7 == s6.(memory := s7.memory, wire := Wire({Copy(0, 1)}, {0}))
    requires s7.memory.table.Keys == {1, 2} && s7.memory.table[1].state.Finish?
    ensures Leads(EarlyRetry, interval, s7, Action.Refresh(0, true, true), s8)
    ensures Leads(EarlyRetry, interval, s8, Complete(0, NO_FAULTS), s9)
    ensures Unpaid(p, s9) && s9.flow.slots == 1 && s9.wire.outstanding == {Copy(0, 1), Copy(0, 2)}
  {
    s8 := Apply(s7, Action.Refresh(0, true, true));
    s9 := Apply(s8, Complete(0, NO_FAULTS));
    assert s9.deliveries == map[];
  }

  /** If an entry may be due while its delivery is at its second put, more packets may be outstanding than the client
      allows: the retry pass writes the publish under the identifier of the first put and the delivery under the one
      of the second, both on one slot, and as many publishes as there are slots left follow them. */
  lemma EarlyRetryOverruns(p: Profile, interval: nat, publish: Publish, received: Publish)
      returns (run: seq<Session>, acts: seq<Action>)
    requires p.clean && p.version.V5_0? && interval < U64_MAX && Routed(publish) && received.qos == 1
    ensures IsLapsing(p, interval, run, acts, EarlyRetry)
    ensures |run[|acts|].wire.outstanding| > Max(1, p.receiveMaximum)
  {
    run, acts := Collide(p, interval, publish, received, EarlyRetry);
    var s6 := Apply(run[|acts|], Tick(interval + 1));
    Extend(p, interval, run, acts, EarlyRetry, Tick(interval + 1), s6);
    var s7 := RetryUnderOldId(p, interval, s6, publish);
    var s8, s9 := WriteUnderNewId(p, interval, s6, s7, publish);
    run, acts := ExtendThrice(p, interval, run + [s6], acts + [Tick(interval + 1)], EarlyRetry,
                              InflightRetry(Quiet(s6.memory.table, interval, s6.clock), NO_FAULTS), s7,
                              Action.Refresh(0, true, true), s8, Complete(0, NO_FAULTS), s9);
    run, acts := FillUp(p, interval, EarlyRetry, run, acts, publish, received);
  }

  // ---- the exact condition ----

  /** In every state of every honest run, outstanding packets are within the slots in use, and these within the
      client's Receive Maximum. */
  ghost predicate BoundHolds(p: Profile, interval: nat) {
    forall kept, f, run: seq<Session>, acts, i :: IsHonest(p, interval, kept, f, run, acts) && 0 <= i < |run| ==>
      |run[i].wire.outstanding| <= run[i].flow.slots <= Max(1, p.receiveMaximum)
  }

  /** In every state of every honest run, no more packets are outstanding than the client allows. */
  ghost predicate ClientLimitHolds(p: Profile, interval: nat) {
    forall kept, f, run: seq<Session>, acts, i :: IsHonest(p, interval, kept, f, run, acts) && 0 <= i < |run| ==>
      |run[i].wire.outstanding| <= Max(1, p.receiveMaximum)
  }

  /** Over MQTT 5 and for any retry interval that can pass, the bound holds if and only if the session is persistent,
      and so does the client's limit alone. */
  lemma BoundHoldsIffPersistent(p: Profile, interval: nat)
    requires p.version.V5_0? && interval < U64_MAX
    ensures BoundHolds(p, interval) <==> !p.clean
    ensures ClientLimitHolds(p, interval) <==> !p.clean
  {
    if p.clean {
      var publish := Publish("", [], 1, false, false, None, None, None);
      var run, acts := FailedRefreshOverruns(p, interval, publish, publish);
      assert IsHonest(p, interval, NewSession(p), NO_FAULTS, run, acts) && 0 <= |acts| < |run|;
    } else {
      forall kept, f, run: seq<Session>, acts, i | IsHonest(p, interval, kept, f, run, acts) && 0 <= i < |run|
        ensures |run[i].wire.outstanding| <= run[i].flow.slots <= Max(1, p.receiveMaximum)
      {
        PersistentStaysWithin(p, interval, kept, f, run, acts, i);
      }
    }
  }
}
