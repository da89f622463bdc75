/** Session timers: a delay queue and an index into it, kept together by the timer actor, refine a plain map from
    session timers to deadlines. */
module Timer {
  datatype TimerType = Inflight | KeepAlive

  /** A timer belongs to one instance of a session, so a later instance has timers of its own. */
  datatype SessionKey = SessionKey(tenant: nat, session: nat, instance: nat, timerType: TimerType)

  // ---- the plain map ----

  datatype Alarm = Alarm(deadline: nat, duration: nat)

  datatype Alarms = Alarms(now: nat, armed: map<SessionKey, Alarm>)

  datatype Event =
    | Register(key: SessionKey, duration: nat)
    | Refresh(key: SessionKey)
    | Remove(key: SessionKey)
    | Poll
    | Pass(to: nat)

  predicate IsDue(a: Alarms, key: SessionKey) {
    key in a.armed && a.armed[key].deadline <= a.now
  }

  function Due(a: Alarms): set<SessionKey> {
    set key | key in a.armed && IsDue(a, key)
  }

  function Step(a: Alarms, e: Event): Alarms {
    match e
    case Register(key, duration) => a.(armed := a.armed[key := Alarm(a.now + duration, duration)])
    case Refresh(key) =>
      if key in a.armed
      then a.(armed := a.armed[key := a.armed[key].(deadline := a.now + a.armed[key].duration)]) else a
    case Remove(key) => a.(armed := a.armed - {key})
    case Poll => a.(armed := a.armed - Due(a))
    case Pass(to) => if a.now <= to then a.(now := to) else a
  }

  function After(es: seq<Event>): Alarms {
    if es == [] then Alarms(0, map[]) else Step(After(es[..|es| - 1]), es[|es| - 1])
  }

  // ---- the actor ----

  /** A key into the delay queue. The queue may give the key of a removed entry to a new one. */
  type QueueKey = nat

  datatype Entry = Entry(key: SessionKey, deadline: nat)

  datatype Wrapper = Wrapper(duration: nat, slot: QueueKey)

  type Queue = map<QueueKey, Entry>

  type Index = map<SessionKey, Wrapper>

  predicate KeyLinked(queue: Queue, sessions: Index, key: SessionKey) {
    key in sessions ==> sessions[key].slot in queue && queue[sessions[key].slot].key == key
  }

  predicate SlotLinked(queue: Queue, sessions: Index, slot: QueueKey) {
    slot in queue ==> queue[slot].key in sessions && sessions[queue[slot].key].slot == slot
  }

  /** The index and the queue are in one-to-one correspondence. */
  ghost predicate Linked(queue: Queue, sessions: Index) {
    && (forall key :: KeyLinked(queue, sessions, key))
    && (forall slot :: SlotLinked(queue, sessions, slot))
  }

  ghost function Armed(queue: Queue, sessions: Index): map<SessionKey, Alarm>
    requires Linked(queue, sessions)
  {
    map key | key in sessions ::
      assert KeyLinked(queue, sessions, key);
      Alarm(queue[sessions[key].slot].deadline, sessions[key].duration)
  }

  lemma Unlink(queue: Queue, sessions: Index, key: SessionKey)
    requires Linked(queue, sessions) && key in sessions
    ensures var queue', sessions' := queue - {sessions[key].slot}, sessions - {key};
            Linked(queue', sessions') && Armed(queue', sessions') == Armed(queue, sessions) - {key}
  {
    var queue', sessions' := queue - {sessions[key].slot}, sessions - {key};
    assert KeyLinked(queue, sessions, key);
    forall key' ensures KeyLinked(queue', sessions', key') {
      assert KeyLinked(queue, sessions, key');
    }
    forall slot ensures SlotLinked(queue', sessions', slot) {
      assert SlotLinked(queue, sessions, slot);
    }
    var armed, armed' := Armed(queue, sessions), Armed(queue', sessions');
    forall key' | key' in sessions' ensures armed'[key'] == armed[key'] {
      assert KeyLinked(queue, sessions, key') && KeyLinked(queue', sessions', key');
    }
    assert armed'.Keys == (armed - {key}).Keys;
  }

  lemma Link(queue: Queue, sessions: Index, key: SessionKey, slot: QueueKey, deadline: nat, duration: nat)
    requires Linked(queue, sessions) && key !in sessions && slot !in queue
    ensures var queue', sessions' := queue[slot := Entry(key, deadline)], sessions[key := Wrapper(duration, slot)];
            && Linked(queue', sessions')
            && Armed(queue', sessions') == Armed(queue, sessions)[key := Alarm(deadline, duration)]
  {
    var queue', sessions' := queue[slot := Entry(key, deadline)], sessions[key := Wrapper(duration, slot)];
    forall key' ensures KeyLinked(queue', sessions', key') {
      assert KeyLinked(queue, sessions, key');
    }
    forall slot' ensures SlotLinked(queue', sessions', slot') {
      assert SlotLinked(queue, sessions, slot');
    }
    forall key' | key' in sessions ensures sessions[key'].slot != slot {
      assert KeyLinked(queue, sessions, key');
    }
  }

  /** A timer that replaces one with the same key, or is new. */
  lemma Replace(queue: Queue, sessions: Index, key: SessionKey, slot: QueueKey, deadline: nat, duration: nat)
    requires Linked(queue, sessions) && (slot in queue ==> queue[slot].key == key)
    ensures var queue1 := if key in sessions then queue - {sessions[key].slot} else queue;
            var queue2 := queue1[slot := Entry(key, deadline)];
            var sessions2 := (sessions - {key})[key := Wrapper(duration, slot)];
            && Linked(queue2, sessions2)
            && Armed(queue2, sessions2) == Armed(queue, sessions)[key := Alarm(deadline, duration)]
  {
    var armed := Armed(queue, sessions);
    assert SlotLinked(queue, sessions, slot);
    assert key !in sessions ==> sessions - {key} == sessions;
    var queue1 := if key in sessions then queue - {sessions[key].slot} else queue;
    if key in sessions {
      Unlink(queue, sessions, key);
    }
    Link(queue1, sessions - {key}, key, slot, deadline, duration);
    assert (armed - {key})[key := Alarm(deadline, duration)] == armed[key := Alarm(deadline, duration)];
  }

  lemma Relink(queue: Queue, sessions: Index, key: SessionKey, deadline: nat)
    requires Linked(queue, sessions) && key in sessions
    ensures var slot := sessions[key].slot;
            && slot in queue && queue[slot].key == key
            && var queue' := queue[slot := queue[slot].(deadline := deadline)];
               && Linked(queue', sessions)
               && Armed(queue', sessions) == Armed(queue, sessions)[key := Alarm(deadline, sessions[key].duration)]
  {
    assert KeyLinked(queue, sessions, key);
    var slot := sessions[key].slot;
    var queue' := queue[slot := queue[slot].(deadline := deadline)];
    forall key' ensures KeyLinked(queue', sessions, key') {
      assert KeyLinked(queue, sessions, key');
    }
    forall slot' ensures SlotLinked(queue', sessions, slot') {
      assert SlotLinked(queue, sessions, slot');
    }
    forall key' | key' in sessions && key' != key ensures sessions[key'].slot != slot {
      assert KeyLinked(queue, sessions, key');
    }
  }

  /** `fired` has each of `done` once. */
  ghost predicate Lists(fired: seq<SessionKey>, done: set<SessionKey>) {
    (forall key :: key in fired <==> key in done) && |fired| == |done|
  }

  lemma ListsNext(fired: seq<SessionKey>, done: set<SessionKey>, key: SessionKey)
    requires Lists(fired, done) && key !in done
    ensures Lists(fired + [key], done + {key})
  {
  }

  class TimerActor {
    var now: nat
    var queue: Queue
    var sessions: Index

    ghost predicate Valid()
      reads this
    {
      Linked(queue, sessions)
    }

    ghost function View(): Alarms
      requires Valid()
      reads this
    {
      Alarms(now, Armed(queue, sessions))
    }

    constructor ()
      ensures Valid() && View() == After([])
    {
      now, queue, sessions := 0, map[], map[];
    }

    /** `slot` is the key the delay queue hands out: any that is free once the timer it replaces is gone. */
    method RegisterTimer(key: SessionKey, timeout: nat, slot: QueueKey)
      requires Valid() && (slot in queue ==> queue[slot].key == key)
      modifies this
      ensures Valid() && View() == Step(old(View()), Register(key, timeout))
    {
      Replace(queue, sessions, key, slot, now + timeout, timeout);
      if key in sessions {
        queue := queue - {sessions[key].slot};
      }
      sessions := sessions - {key};
      queue := queue[slot := Entry(key, now + timeout)];
      sessions := sessions[key := Wrapper(timeout, slot)];
    }

    method RefreshTimer(key: SessionKey)
      requires Valid()
      modifies this
      ensures Valid() && View() == Step(old(View()), Refresh(key))
    {
      if key in sessions {
        Relink(queue, sessions, key, now + sessions[key].duration);
        var wrapper := sessions[key];
        // `reset` is given a live key, the one of this timer
        assert queue[wrapper.slot].key == key;
        queue := queue[wrapper.slot := queue[wrapper.slot].(deadline := now + wrapper.duration)];
      }
    }

    method RemoveTimer(key: SessionKey)
      requires Valid()
      modifies this
      ensures Valid() && View() == Step(old(View()), Remove(key))
    {
      if key in sessions {
        Unlink(queue, sessions, key);
        queue := queue - {sessions[key].slot};
        sessions := sessions - {key};
      } else {
        assert View().armed - {key} == View().armed;
      }
    }

    /** Fires what is due, in whatever order the queue yields it. The branch for a stale entry, one whose timer is
        not in the index, is never taken. */
    method HandleTimeouts() returns (fired: seq<SessionKey>, stale: bool)
      requires Valid()
      modifies this
      ensures Valid() && View() == Step(old(View()), Poll)
      ensures !stale
      ensures forall key :: key in fired <==> key in Due(old(View()))
      ensures |fired| == |Due(old(View()))|
    {
      ghost var before := View();
      fired, stale := [], false;
      ghost var done: set<SessionKey> := {};
      assert before.armed - {} == before.armed;
      while exists slot :: slot in queue && queue[slot].deadline <= now
        invariant Valid() && now == before.now && !stale
        invariant done <= Due(before) && Armed(queue, sessions) == before.armed - done
        invariant Lists(fired, done)
        decreases |queue|
      {
        var slot :| slot in queue && queue[slot].deadline <= now;
        var key := queue[slot].key;
        Fire(queue, sessions, before, done, slot);
        ListsNext(fired, done, key);
        queue := queue - {slot};
        if key in sessions {
          sessions := sessions - {key};
          fired := fired + [key];
        } else {
          stale := true;
        }
        done := done + {key};
      }
      NoneIsLeft(queue, sessions, before, done);
    }

    method Advance(to: nat)
      requires Valid()
      modifies this
      ensures Valid() && View() == Step(old(View()), Pass(to))
    {
      if now <= to {
        now := to;
      }
    }
  }

  /** An expired entry of the queue belongs to an armed timer that is due. */
  lemma Fire(queue: Queue, sessions: Index, before: Alarms, done: set<SessionKey>, slot: QueueKey)
    requires Linked(queue, sessions) && Armed(queue, sessions) == before.armed - done
    requires slot in queue && queue[slot].deadline <= before.now
    ensures var key := queue[slot].key;
            && key in sessions && key in Due(before) && key !in done
            && Linked(queue - {slot}, sessions - {key})
            && Armed(queue - {slot}, sessions - {key}) == before.armed - (done + {key})
  {
    var key := queue[slot].key;
    assert SlotLinked(queue, sessions, slot);
    assert key in Armed(queue, sessions) && Armed(queue, sessions)[key].deadline == queue[slot].deadline;
    Unlink(queue, sessions, key);
    assert before.armed - done - {key} == before.armed - (done + {key});
  }

  lemma NoneIsLeft(queue: Queue, sessions: Index, before: Alarms, done: set<SessionKey>)
    requires Linked(queue, sessions) && Armed(queue, sessions) == before.armed - done && done <= Due(before)
    requires forall slot :: slot in queue ==> queue[slot].deadline > before.now
    ensures done == Due(before)
  {
    var armed := Armed(queue, sessions);
    forall key | key in sessions ensures armed[key].deadline > before.now {
      assert KeyLinked(queue, sessions, key);
    }
    assert forall key :: key in before.armed && key !in done ==> key in armed && armed[key] == before.armed[key];
  }

  // ---- every run ----

  /** How often a timer was registered. */
  function Registrations(es: seq<Event>, key: SessionKey): nat {
    if es == [] then 0
    else Registrations(es[..|es| - 1], key) + (if es[|es| - 1].Register? && es[|es| - 1].key == key then 1 else 0)
  }

  /** How often it fired. */
  function Fires(es: seq<Event>, key: SessionKey): nat {
    if es == [] then 0
    else Fires(es[..|es| - 1], key) + (if es[|es| - 1].Poll? && IsDue(After(es[..|es| - 1]), key) then 1 else 0)
  }

  /** Over any run, a timer fires no more often than it was registered, and has a registration left while armed. */
  lemma {:induction false} FiresOncePerRegistration(es: seq<Event>, key: SessionKey)
    ensures Fires(es, key) + (if key in After(es).armed then 1 else 0) <= Registrations(es, key)
  {
    if es != [] {
      FiresOncePerRegistration(es[..|es| - 1], key);
    }
  }

  /** The events that are about this timer. */
  predicate Concerns(e: Event, key: SessionKey) {
    (e.Register? || e.Refresh? || e.Remove?) && e.key == key
  }

  /** Why an armed timer has its deadline: the registration, and the last refresh after it. */
  lemma {:induction false} DeadlineIsExplained(es: seq<Event>, key: SessionKey) returns (registered: nat, touched: nat)
    requires key in After(es).armed
    ensures registered <= touched < |es|
    ensures es[registered] == Register(key, After(es).armed[key].duration)
    ensures touched == registered || es[touched] == Refresh(key)
    ensures After(es).armed[key].deadline == After(es[..touched]).now + After(es).armed[key].duration
    ensures forall i :: touched < i < |es| ==> !Concerns(es[i], key)
    ensures forall i :: registered < i < |es| ==> !((es[i].Register? || es[i].Remove?) && es[i].key == key)
  {
    var n := |es| - 1;
    var last, before := es[n], es[..n];
    if last.Register? && last.key == key {
      registered, touched := n, n;
    } else {
      registered, touched := DeadlineIsExplained(before, key);
      assert before[..touched] == es[..touched];
      if last == Refresh(key) {
        touched := n;
      }
    }
  }

  /** A timer that a poll fires was registered, and at least its duration has passed since it was last registered
      or refreshed. */
  lemma NeverFiresEarly(es: seq<Event>, key: SessionKey) returns (registered: nat, touched: nat)
    requires IsDue(After(es), key)
    ensures registered <= touched < |es| && es[registered].Register? && es[registered].key == key
    ensures touched == registered || es[touched] == Refresh(key)
    ensures forall i :: touched < i < |es| ==> !Concerns(es[i], key)
    ensures After(es).now >= After(es[..touched]).now + es[registered].duration
  {
    registered, touched := DeadlineIsExplained(es, key);
  }

  /** The event `i` starts the timer: it is registered, or refreshed while it is armed, for this duration. */
  predicate Starts(es: seq<Event>, key: SessionKey, i: nat, duration: nat)
    requires i < |es|
  {
    var a := After(es[..i]);
    || es[i] == Register(key, duration)
    || (es[i] == Refresh(key) && key in a.armed && a.armed[key].duration == duration)
  }

  /** The event `i` leaves alone an alarm for the deadline. */
  predicate Spares(es: seq<Event>, key: SessionKey, i: int, deadline: nat)
    requires 0 <= i < |es|
  {
    !Concerns(es[i], key) && (es[i].Poll? ==> After(es[..i]).now < deadline)
  }

  lemma StepSpares(a: Alarms, e: Event, key: SessionKey, alarm: Alarm)
    requires key in a.armed && a.armed[key] == alarm && !Concerns(e, key) && (e.Poll? ==> a.now < alarm.deadline)
    ensures key in Step(a, e).armed && Step(a, e).armed[key] == alarm
  {
  }

  lemma AfterNext(es: seq<Event>, n: nat)
    requires n < |es|
    ensures After(es[..n + 1]) == Step(After(es[..n]), es[n])
  {
    assert es[..n + 1][..n] == es[..n];
  }

  lemma {:induction false} StaysArmed(es: seq<Event>, key: SessionKey, touched: nat, alarm: Alarm, n: nat)
    requires touched < n <= |es| && Starts(es, key, touched, alarm.duration)
    requires alarm.deadline == After(es[..touched]).now + alarm.duration
    requires forall i :: touched < i < |es| ==> Spares(es, key, i, alarm.deadline)
    ensures key in After(es[..n]).armed && After(es[..n]).armed[key] == alarm
  {
    AfterNext(es, n - 1);
    if touched < n - 1 {
      StaysArmed(es, key, touched, alarm, n - 1);
      assert Spares(es, key, n - 1, alarm.deadline);
      StepSpares(After(es[..n - 1]), es[n - 1], key, alarm);
    }
  }

  /** A timer that was registered, or refreshed while it was armed, and that nothing has touched since, is due exactly
      from its duration on, so the first poll after that fires it. */
  lemma FiresOnTime(es: seq<Event>, key: SessionKey, touched: nat, alarm: Alarm)
    requires touched < |es| && Starts(es, key, touched, alarm.duration)
    requires alarm.deadline == After(es[..touched]).now + alarm.duration
    requires forall i :: touched < i < |es| ==> Spares(es, key, i, alarm.deadline)
    ensures Fires(es + [Poll], key) == Fires(es, key) + (if After(es).now >= alarm.deadline then 1 else 0)
  {
    StaysArmed(es, key, touched, alarm, |es|);
    assert es[..|es|] == es && (es + [Poll])[..|es|] == es;
  }

  /** The events but for those that are about other timers. */
  function Only(es: seq<Event>, key: SessionKey): seq<Event> {
    if es == [] then []
    else
      var e := es[|es| - 1];
      Only(es[..|es| - 1], key) + (if e.Poll? || e.Pass? || e.key == key then [e] else [])
  }

  /** The same alarm for `key`, or none, at the same time. */
  predicate Agree(a: Alarms, b: Alarms, key: SessionKey) {
    && a.now == b.now && (key in a.armed <==> key in b.armed)
    && (key in a.armed ==> a.armed[key] == b.armed[key])
  }

  lemma StepAgrees(a: Alarms, b: Alarms, e: Event, key: SessionKey)
    requires Agree(a, b, key)
    ensures Agree(Step(a, e), Step(b, e), key)
    ensures !(e.Poll? || e.Pass? || e.key == key) ==> Agree(Step(a, e), b, key)
  {
  }

  /** Operations on other timers, such as those of another instance of the session, change nothing for this one: over
      any run its alarm, and how often it fires, is what it is without them. */
  lemma {:induction false} OthersChangeNothing(es: seq<Event>, key: SessionKey)
    ensures Agree(After(es), After(Only(es, key)), key)
    ensures Fires(es, key) == Fires(Only(es, key), key)
  {
    if es != [] {
      var n := |es| - 1;
      var e, only := es[n], Only(es[..n], key);
      OthersChangeNothing(es[..n], key);
      StepAgrees(After(es[..n]), After(only), e, key);
      if e.Poll? || e.Pass? || e.key == key {
        assert Only(es, key) == only + [e] && (only + [e])[..|only|] == only;
      } else {
        assert Only(es, key) == only;
      }
    }
  }
}
