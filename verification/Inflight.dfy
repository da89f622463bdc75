/** The in-flight table of a session: one entry per packet identifier, shared by the packets the session
    receives and the ones it sends. */
module Inflight {
  import opened MqttTypes

  /** A payload key, a UUID: only its identity matters. */
  type Key = nat

  datatype InflightState = WaitPubrel | WaitPubcomp | WaitPubrec | WaitPuback | Finish

  datatype InflightItem = InflightItem(
    packetIdentifier: u16,
    state: InflightState,
    packetKey: Option<Key>,
    lastModified: u64,
    deliveryStarted: bool)

  type Table = map<u16, InflightItem>

  function NextState(state: InflightState): InflightState {
    match state
    case WaitPubrel => Finish
    case WaitPubcomp => Finish
    case WaitPubrec => WaitPubcomp
    case WaitPuback => Finish
    case Finish => Finish
  }

  // ---- what each operation makes of the table ----

  function RxItem(id: u16, qos: u8, key: Key, now: u64): InflightItem {
    InflightItem(id, if qos == 2 then WaitPubrel else Finish, Some(key), now, true)
  }

  /** A received packet takes its identifier, whatever was there. */
  function RxRegistered(t: Table, id: u16, qos: u8, key: Key, now: u64): Table {
    if qos == 1 || qos == 2 then t[id := RxItem(id, qos, key, now)] else t
  }

  function TxItem(id: u16, qos: u8, key: Key, now: u64): InflightItem {
    InflightItem(id, if qos == 2 then WaitPubrec else WaitPuback, Some(key), now, true)
  }

  /** A sent packet takes its identifier only if it is free. */
  function TxRegistered(t: Table, id: u16, qos: u8, key: Key, now: u64): Table {
    if id in t || (qos != 1 && qos != 2) then t else t[id := TxItem(id, qos, key, now)]
  }

  function Advanced(t: Table, id: u16, now: u64): Table {
    if id in t then t[id := t[id].(state := NextState(t[id].state), lastModified := now)] else t
  }

  function Marked(t: Table, id: u16, key: Key): Table {
    if id in t && t[id].packetKey == Some(key) then t[id := t[id].(deliveryStarted := true)] else t
  }

  predicate Discardable(t: Table, id: u16, key: Key) {
    && id in t && !t[id].deliveryStarted && t[id].packetKey == Some(key)
    && (t[id].state.WaitPuback? || t[id].state.WaitPubrec?)
  }

  function Discarded(t: Table, id: u16, key: Key): Table {
    if Discardable(t, id, key) then t - {id} else t
  }

  function Cleaned(t: Table): Table {
    map id | id in t && !t[id].state.Finish? :: t[id]
  }

  function Refreshed(t: Table, due: set<u16>, now: u64): Table {
    map id | id in t :: if id in due then t[id].(lastModified := now) else t[id]
  }

  predicate IsDue(t: Table, id: u16, expiredDuration: nat, now: u64) {
    id in t && t[id].lastModified + expiredDuration < now
  }

  function Quiet(t: Table, expiredDuration: nat, now: u64): set<u16> {
    set id | id in t && IsDue(t, id, expiredDuration, now)
  }

  // ---- allocation ----

  /** The least identifier from `lo` on that is free. */
  function LeastFree(t: Table, lo: int): (r: Option<u16>)
    requires 1 <= lo <= U16_MAX + 1
    ensures r.Some? ==> lo <= r.value && r.value !in t && forall j: u16 :: lo <= j < r.value ==> j in t
    ensures r.None? ==> forall j: u16 :: lo <= j ==> j in t
    decreases U16_MAX + 1 - lo
  {
    if lo > U16_MAX then None
    else
      var id: u16 := lo;
      if id !in t then Some(id) else LeastFree(t, lo + 1)
  }

  function Identifiers(n: int): (ids: set<u16>)
    requires 0 <= n <= U16_MAX
    ensures forall j: u16 :: j in ids <==> 1 <= j <= n
    ensures |ids| == n
  {
    if n == 0 then {}
    else
      var id: u16 := n;
      Identifiers(n - 1) + {id}
  }

  /** Allocation fails only when every identifier is taken, which takes 65535 entries. */
  lemma AllocationSucceedsBelowCapacity(t: Table)
    ensures LeastFree(t, 1).None? ==> |t| >= U16_MAX
    ensures |t| < U16_MAX ==> LeastFree(t, 1).Some?
  {
    if LeastFree(t, 1).None? {
      assert Identifiers(U16_MAX) <= t.Keys;
      SubsetIsSmaller(Identifiers(U16_MAX), t.Keys);
    }
  }

  lemma {:induction false} SubsetIsSmaller<T>(a: set<T>, b: set<T>)
    requires a <= b
    ensures |a| <= |b|
    decreases |a|
  {
    if a != {} {
      var x :| x in a;
      SubsetIsSmaller(a - {x}, b - {x});
    }
  }

  /** The table as the session holds it. */
  class InflightTable {
    var inner: Table
    const expiredDuration: nat

    constructor (expiredDuration: nat)
      ensures inner == map[] && this.expiredDuration == expiredDuration
    {
      this.inner := map[];
      this.expiredDuration := expiredDuration;
    }

    method RegisterWithRxPacket(id: u16, qos: u8, key: Key, now: u64) returns (displaced: Option<Key>)
      modifies this
      ensures inner == RxRegistered(old(inner), id, qos, key, now)
      ensures qos == 1 || qos == 2 ==>
                var state := if qos == 1 then Finish else WaitPubrel;
                inner == old(inner)[id := InflightItem(id, state, Some(key), now, true)]
      ensures qos != 1 && qos != 2 ==> inner == old(inner)
      ensures displaced == if (qos == 1 || qos == 2) && id in old(inner) then old(inner)[id].packetKey else None
    {
      displaced := None;
      if qos == 2 {
        if id in inner {
          displaced := inner[id].packetKey;
        }
        inner := inner[id := InflightItem(id, WaitPubrel, Some(key), now, true)];
      }
      if qos == 1 {
        if id in inner {
          displaced := inner[id].packetKey;
        }
        inner := inner[id := InflightItem(id, Finish, Some(key), now, true)];
      }
    }

    method RegisterWithTxPacket(id: u16, qos: u8, key: Key, now: u64) returns (ok: bool, displaced: Option<Key>)
      modifies this
      ensures inner == TxRegistered(old(inner), id, qos, key, now)
      ensures id !in old(inner) && (qos == 1 || qos == 2) ==>
                var state := if qos == 1 then WaitPuback else WaitPubrec;
                inner == old(inner)[id := InflightItem(id, state, Some(key), now, true)]
      ensures id in old(inner) || (qos != 1 && qos != 2) ==> inner == old(inner)
      ensures ok <==> id !in old(inner)
      ensures displaced == None
    {
      displaced := None;
      if id in inner {
        return false, None;
      }
      // the identifier is free, so neither insertion can displace anything
      if qos == 2 {
        inner := inner[id := InflightItem(id, WaitPubrec, Some(key), now, true)];
      }
      if qos == 1 {
        inner := inner[id := InflightItem(id, WaitPuback, Some(key), now, true)];
      }
      ok := true;
    }

    /** The least free identifier in 1..65535, or None exactly when all of them are taken. */
    method AllocatePacketId() returns (r: Option<u16>)
      ensures r == LeastFree(inner, 1)
      ensures r.Some? ==> 1 <= r.value && r.value !in inner && forall j: u16 :: 1 <= j < r.value ==> j in inner
      ensures r.None? <==> forall j: u16 :: 1 <= j ==> j in inner
    {
      var id := 1;
      while id <= U16_MAX
        invariant 1 <= id <= U16_MAX + 1
        invariant forall j: u16 :: 1 <= j < id ==> j in inner
        invariant LeastFree(inner, id) == LeastFree(inner, 1)
      {
        if id !in inner {
          return Some(id);
        }
        id := id + 1;
      }
      r := None;
    }

    method MarkDeliveryStarted(id: u16, key: Key) returns (marked: bool)
      modifies this
      ensures inner == Marked(old(inner), id, key)
      ensures marked <==> id in old(inner) && old(inner)[id].packetKey == Some(key)
    {
      if id in inner {
        if inner[id].packetKey == Some(key) {
          inner := inner[id := inner[id].(deliveryStarted := true)];
          return true;
        }
      }
      marked := false;
    }

    method DiscardUnsent(id: u16, key: Key) returns (removed: Option<Key>)
      modifies this
      ensures inner == Discarded(old(inner), id, key)
      ensures removed == if Discardable(old(inner), id, key) then Some(key) else None
      ensures removed.Some? <==>
                && id in old(inner) && !old(inner)[id].deliveryStarted && old(inner)[id].packetKey == Some(key)
                && old(inner)[id].state in {WaitPuback, WaitPubrec}
      ensures inner == if removed.Some? then old(inner) - {id} else old(inner)
    {
      if id !in inner {
        return None;
      }
      var item := inner[id];
      if item.deliveryStarted || item.packetKey != Some(key) ||
         !(item.state.WaitPuback? || item.state.WaitPubrec?) {
        return None;
      }
      inner := inner - {id};
      removed := item.packetKey;
    }

    method AdvanceState(id: u16, now: u64) returns (finished: Option<Key>)
      modifies this
      ensures inner == Advanced(old(inner), id, now)
      ensures finished == if id in inner && inner[id].state.Finish? then inner[id].packetKey else None
    {
      finished := None;
      if id in inner {
        var item := inner[id];
        item := item.(state := NextState(item.state), lastModified := now);
        inner := inner[id := item];
        if item.state == Finish {
          finished := item.packetKey;
        }
      }
    }

    /** The entries that have been quiet for longer than the retry interval, which start to wait again. */
    method GetAllExpiredPacketKeysAndRefreshExpiredTime(now: u64) returns (due: map<u16, Key>)
      modifies this
      ensures inner == Refreshed(old(inner), Quiet(old(inner), expiredDuration, now), now)
      ensures forall id :: id in due <==>
                && id in old(inner) && now - old(inner)[id].lastModified > expiredDuration
                && old(inner)[id].packetKey.Some?
      ensures inner.Keys == old(inner).Keys
      ensures forall id :: id in inner ==>
                var item := old(inner)[id];
                inner[id] == if now - item.lastModified > expiredDuration then item.(lastModified := now) else item
      ensures forall id :: id in due ==> id in old(inner) && old(inner)[id].packetKey == Some(due[id])
    {
      due := map[];
      ghost var t := inner;
      var id := 0;
      while id <= U16_MAX
        invariant 0 <= id <= U16_MAX + 1
        invariant inner.Keys == t.Keys
        invariant forall j: u16 :: j in t ==>
                    inner[j] == if j < id && IsDue(t, j, expiredDuration, now) then t[j].(lastModified := now) else t[j]
        invariant forall j: u16 :: j in due <==> j < id && IsDue(t, j, expiredDuration, now) && t[j].packetKey.Some?
        invariant forall j :: j in due ==> t[j].packetKey == Some(due[j])
      {
        if id in inner && inner[id].lastModified + expiredDuration < now {
          var item := inner[id];
          if item.packetKey.Some? {
            due := due[id := item.packetKey.value];
          }
          inner := inner[id := item.(lastModified := now)];
        }
        id := id + 1;
      }
    }

    /** Removes what is finished and returns the keys that thereby become garbage. */
    method CleanFinishedItems() returns (keys: seq<Key>)
      modifies this
      ensures inner == Cleaned(old(inner))
      ensures forall k :: multiset(keys)[k] == FinishedKeys(old(inner), k, U16_MAX + 1)
    {
      keys := [];
      var id := 0;
      while id <= U16_MAX
        invariant 0 <= id <= U16_MAX + 1
        invariant inner == CleanedBelow(old(inner), id)
        invariant forall k :: multiset(keys)[k] == FinishedKeys(old(inner), k, id)
      {
        CleanOne(old(inner), id);
        if id in inner && inner[id].state == Finish {
          if inner[id].packetKey.Some? {
            keys := keys + [inner[id].packetKey.value];
          }
          inner := inner - {id};
        }
        id := id + 1;
      }
    }
  }

  function CleanedBelow(t: Table, n: int): Table {
    map id | id in t && (id >= n || !t[id].state.Finish?) :: t[id]
  }

  lemma CleanOne(t: Table, n: u16)
    ensures CleanedBelow(t, n + 1) ==
            if n in t && t[n].state.Finish? then CleanedBelow(t, n) - {n} else CleanedBelow(t, n)
  {
  }

  // ---- conservation of payload keys ----

  /** 1 if `id` holds `key`, else 0. */
  function KeyAt(t: Table, key: Key, id: int): nat
    requires 0 <= id <= U16_MAX
  {
    if id in t && t[id].packetKey == Some(key) then 1 else 0
  }

  /** How many identifiers below `n` hold `key`. */
  function HeldKeys(t: Table, key: Key, n: int): nat
    requires 0 <= n <= U16_MAX + 1
  {
    if n == 0 then 0 else HeldKeys(t, key, n - 1) + KeyAt(t, key, n - 1)
  }

  /** How many of them are finished. */
  function FinishedKeys(t: Table, key: Key, n: int): nat
    requires 0 <= n <= U16_MAX + 1
  {
    if n == 0 then 0
    else FinishedKeys(t, key, n - 1) + (if n - 1 in t && t[n - 1].state.Finish? then KeyAt(t, key, n - 1) else 0)
  }

  datatype Op =
    | RegisterRx(id: u16, qos: u8, key: Key)
    | RegisterTx(id: u16, qos: u8, key: Key)
    | Advance(id: u16)
    | Mark(id: u16, key: Key)
    | Discard(id: u16, key: Key)
    | Refresh(due: set<u16>)
    | Clean

  /** The table, and how often one key went in and came out. */
  datatype Ledger = Ledger(table: Table, inserted: nat, returned: nat)

  function Inserted(t: Table, op: Op, key: Key): nat {
    if || (op.RegisterRx? && (op.qos == 1 || op.qos == 2) && op.key == key)
       || (op.RegisterTx? && (op.qos == 1 || op.qos == 2) && op.key == key && op.id !in t)
    then 1 else 0
  }

  function TableAfter(t: Table, op: Op, now: u64): Table {
    match op
    case RegisterRx(id, qos, key) => RxRegistered(t, id, qos, key, now)
    case RegisterTx(id, qos, key) => TxRegistered(t, id, qos, key, now)
    case Advance(id) => Advanced(t, id, now)
    case Mark(id, key) => Marked(t, id, key)
    case Discard(id, key) => Discarded(t, id, key)
    case Refresh(due) => Refreshed(t, due, now)
    case Clean => Cleaned(t)
  }

  /** How often an operation reports `key` to its caller as no longer held. */
  function Returned(t: Table, op: Op, key: Key): nat {
    match op
    case RegisterRx(id, qos, _) => if qos == 1 || qos == 2 then KeyAt(t, key, id) else 0
    case Discard(id, k) => if Discardable(t, id, k) && k == key then 1 else 0
    case Clean => FinishedKeys(t, key, U16_MAX + 1)
    case _ => 0
  }

  function DoAll(l: Ledger, key: Key, ops: seq<(Op, u64)>): Ledger
    decreases |ops|
  {
    if ops == [] then l
    else
      var before := DoAll(l, key, ops[..|ops| - 1]);
      var (op, now) := ops[|ops| - 1];
      Ledger(TableAfter(before.table, op, now),
             before.inserted + Inserted(before.table, op, key),
             before.returned + Returned(before.table, op, key))
  }

  lemma {:induction false} SameKeysHeld(t: Table, u: Table, key: Key, n: int)
    requires 0 <= n <= U16_MAX + 1
    requires forall j: u16 :: j < n ==> KeyAt(t, key, j) == KeyAt(u, key, j)
    ensures HeldKeys(t, key, n) == HeldKeys(u, key, n)
    decreases n
  {
    if n > 0 {
      SameKeysHeld(t, u, key, n - 1);
    }
  }

  /** Changing one identifier changes the count by what that identifier held and holds. */
  lemma {:induction false} OneIdentifierChanged(t: Table, u: Table, key: Key, id: u16, n: int)
    requires 0 <= n <= U16_MAX + 1
    requires forall j: u16 :: j != id ==> KeyAt(t, key, j) == KeyAt(u, key, j)
    ensures id < n ==> HeldKeys(t, key, n) + KeyAt(u, key, id) == HeldKeys(u, key, n) + KeyAt(t, key, id)
    ensures id >= n ==> HeldKeys(t, key, n) == HeldKeys(u, key, n)
    decreases n
  {
    if n > 0 {
      OneIdentifierChanged(t, u, key, id, n - 1);
    }
  }

  lemma {:induction false} CleaningSplits(t: Table, key: Key, n: int)
    requires 0 <= n <= U16_MAX + 1
    ensures HeldKeys(t, key, n) == HeldKeys(Cleaned(t), key, n) + FinishedKeys(t, key, n)
    decreases n
  {
    if n > 0 {
      CleaningSplits(t, key, n - 1);
    }
  }

  /** One operation: what was held, plus what goes in, is what is held, plus what comes out. */
  lemma OperationConserves(t: Table, op: Op, now: u64, key: Key)
    ensures HeldKeys(t, key, U16_MAX + 1) + Inserted(t, op, key) ==
            HeldKeys(TableAfter(t, op, now), key, U16_MAX + 1) + Returned(t, op, key)
  {
    var u := TableAfter(t, op, now);
    match op
    case RegisterRx(id, _, _) => OneIdentifierChanged(t, u, key, id, U16_MAX + 1);
    case RegisterTx(id, _, _) => OneIdentifierChanged(t, u, key, id, U16_MAX + 1);
    case Advance(id) => SameKeysHeld(t, u, key, U16_MAX + 1);
    case Mark(_, _) => SameKeysHeld(t, u, key, U16_MAX + 1);
    case Discard(id, _) => OneIdentifierChanged(t, u, key, id, U16_MAX + 1);
    case Refresh(_) => SameKeysHeld(t, u, key, U16_MAX + 1);
    case Clean => CleaningSplits(t, key, U16_MAX + 1);
  }

  lemma {:induction false} EmptyHoldsNothing(key: Key, n: int)
    requires 0 <= n <= U16_MAX + 1
    ensures HeldKeys(map[], key, n) == 0
    decreases n
  {
    if n > 0 {
      EmptyHoldsNothing(key, n - 1);
    }
  }

  /** CONSERVATION. Over any sequence of operations from an empty table, every key went in exactly as often
      as it is still held plus as it was reported out: by a received packet that took a used identifier, by
      `discard_unsent`, or by `clean_finished_items`. */
  lemma {:induction false} KeysAreConserved(ops: seq<(Op, u64)>, key: Key)
    ensures var l := DoAll(Ledger(map[], 0, 0), key, ops);
            l.inserted == HeldKeys(l.table, key, U16_MAX + 1) + l.returned
    decreases |ops|
  {
    if ops == [] {
      EmptyHoldsNothing(key, U16_MAX + 1);
    } else {
      KeysAreConserved(ops[..|ops| - 1], key);
      var l := DoAll(Ledger(map[], 0, 0), key, ops[..|ops| - 1]);
      OperationConserves(l.table, ops[|ops| - 1].0, ops[|ops| - 1].1, key);
    }
  }

  /** Registering a packet to send never takes a key out of the table. */
  lemma SendingDisplacesNothing(t: Table, id: u16, qos: u8, key: Key, now: u64, other: Key)
    ensures HeldKeys(t, other, U16_MAX + 1) <= HeldKeys(TxRegistered(t, id, qos, key, now), other, U16_MAX + 1)
  {
    OperationConserves(t, RegisterTx(id, qos, key), now, other);
  }

  // ---- progress of a sent packet ----

  /** The operation leaves the entry of `id` to its acknowledgements. */
  predicate LeavesAlone(op: Op, id: u16) {
    match op
    case RegisterRx(other, _, _) => other != id
    case Discard(other, _) => other != id
    case _ => true
  }

  function Advances(ops: seq<(Op, u64)>, id: u16): nat
    decreases |ops|
  {
    if ops == [] then 0
    else Advances(ops[..|ops| - 1], id) + (if ops[|ops| - 1].0 == Advance(id) then 1 else 0)
  }

  /** Where a sent packet stands after `n` acknowledgements. */
  function SentState(qos: u8, n: nat): InflightState {
    if n >= qos then Finish
    else if n == 0 then (if qos == 2 then WaitPubrec else WaitPuback)
    else WaitPubcomp
  }

  ghost predicate StandsAt(t: Table, id: u16, key: Key, state: InflightState) {
    id in t && t[id].packetKey == Some(key) && t[id].state == state
  }

  lemma OperationProgresses(t: Table, op: Op, now: u64, id: u16, key: Key, qos: u8, n: nat)
    requires 1 <= qos <= 2 && n < qos && StandsAt(t, id, key, SentState(qos, n)) && LeavesAlone(op, id)
    ensures StandsAt(TableAfter(t, op, now), id, key, SentState(qos, if op == Advance(id) then n + 1 else n))
  {
  }

  /** PROGRESS. An identifier that was just allocated registers, and from then on, whatever is done to other
      identifiers in between, the entry of a QoS q packet is there and unfinished until its q-th
      acknowledgement, and finished at it. */
  lemma {:induction false} SentPacketProgresses(
    t: Table, id: u16, qos: u8, key: Key, now: u64, ops: seq<(Op, u64)>)
    requires 1 <= qos <= 2 && LeastFree(t, 1) == Some(id)
    requires forall i :: 0 <= i < |ops| ==> LeavesAlone(ops[i].0, id)
    requires Advances(ops, id) < qos || (Advances(ops, id) == qos && ops[|ops| - 1].0 == Advance(id))
    ensures var u := DoAll(Ledger(TxRegistered(t, id, qos, key, now), 0, 0), key, ops).table;
            StandsAt(u, id, key, SentState(qos, Advances(ops, id)))
    decreases |ops|
  {
    if ops != [] {
      var before := ops[..|ops| - 1];
      SentPacketProgresses(t, id, qos, key, now, before);
      var u := DoAll(Ledger(TxRegistered(t, id, qos, key, now), 0, 0), key, before).table;
      OperationProgresses(u, ops[|ops| - 1].0, ops[|ops| - 1].1, id, key, qos, Advances(before, id));
    }
  }
}
