/** No publish waits for a slot while one is free, and draining comes to an end. */
module WorkConservation {
  import opened MqttTypes
  import opened Inflight
  import opened SessionDelivery
  import opened SessionSafety
  import opened SessionAgreement

  /** A publish that the drain loop starts over is not deferred again: `start_outbound_publish_delivery` finds
      the slot the loop saw, so the loop's turn is that call, and the queue loses its front. */
  lemma DrainedIsNotDeferred(s: Session, f: Faults)
    requires Drainable(s) && s.flow.queue[0].registered.None? && s.profile.clean
    ensures Accepted(Unqueued(s), s.flow.queue[0].publish, f) == (DrainStep(s, f).0, Later)
    ensures DrainStep(s, f).0.flow.queue == s.flow.queue[1..]
  {
  }

  /** Nothing a delivery does can fail. */
  predicate Errorless(f: Faults) {
    f.writes == {} && !f.raft
  }

  lemma TurnGoesOn(s: Session, f: Faults)
    requires Drainable(s) && Errorless(f)
    ensures DrainStep(s, f).1
  {
  }

  /** The loop stops only at an empty queue or for want of a slot. */
  lemma {:induction false} DrainFinishes(s: Session, f: Faults)
    requires Errorless(f)
    ensures !Drainable(Drained(s, f))
    decreases |s.flow.queue|
  {
    if Drainable(s) {
      TurnGoesOn(s, f);
      TurnShrinksQueue(s, f);
      DrainFinishes(DrainStep(s, f).0, f);
    }
  }

  lemma PersistentFlow(s: Session, publish: Publish, wait: bool, f: Faults)
    ensures var s' := DeliverPersistent(s, publish, wait, f).0;
            s'.flow == s.flow && s'.active == s.active && s'.profile == s.profile
    ensures DeliverPersistent(s, publish, wait, f).1.DeferredAs? ==> wait
  {
  }

  lemma PersistentQueues(s: Session, publish: Publish, wait: bool, f: Faults)
    ensures DeliverPersistent(s, publish, wait, f).1.DeferredAs? ==>
              SameMessage(DeliverPersistent(s, publish, wait, f).1.publish, publish)
  {
  }

  lemma AcceptKeepsBusy(s: Session, publish: Publish, f: Faults)
    requires !Drainable(s) && Errorless(f)
    ensures !Drainable(Accepted(s, publish, f).0)
  {
    if !s.profile.clean {
      var uses := UsesSlot(s, publish);
      var wait := uses && !CanReserve(s);
      var s0 := if uses && !wait then Reserved(s) else s;
      PersistentFlow(s0, publish, wait, f);
      PersistentQueues(s0, publish, wait, f);
      DrainFinishes(Released(DeliverPersistent(s0, publish, wait, f).0), f);
    }
  }

  predicate NoErrors(a: Action) {
    match a
    case Outbound(_, f) => Errorless(f)
    case Complete(_, f) => Errorless(f)
    case Puback(_, _, f) => Errorless(f)
    case Pubrec(_, _, f) => Errorless(f)
    case InflightRetry(_, f) => Errorless(f)
    case _ => true
  }

  lemma StepKeepsBusy(s: Session, a: Action)
    requires !Drainable(s) && Enabled(s, a) && NoErrors(a)
    ensures !Drainable(Apply(s, a))
  {
    match a
    case Outbound(publish, f) => AcceptKeepsBusy(s, publish, f);
    case Complete(k, f) =>
      DrainFinishes(Released(s.(deliveries := s.deliveries - {k})), f);
    case Puback(id, acked, f) =>
      var s1 := Answered(s, acked);
      var m := AdvancedMemory(s1.memory, id, s.clock);
      DrainFinishes(Released(s1.(memory := if s.profile.clean || f.cleanup then m else CleanedMemory(m))), f);
    case Pubrec(id, acked, f) =>
      var s1 := Answered(s, acked);
      DrainFinishes(Released(s1), f);
      DrainFinishes(Released(s1.(memory := AdvancedMemory(s1.memory, id, s.clock))), f);
    case InflightRetry(due, f) => DrainFinishes(RetrySent(s, due, f), f);
    case _ =>
  }

  /** In every run without delivery errors, whenever the actor is at rest on a live connection, publishes wait only
      if they need a slot and all slots are taken; over MQTT 3 none waits. */
  lemma NoPublishWaitsForAFreeSlot(kept: Session, f: Faults, run: seq<Session>, acts: seq<Action>, i: nat)
    requires IsRun(kept, f, run, acts) && Kept(kept) && Errorless(f) && i < |run|
    requires forall j :: 0 <= j < i ==> NoErrors(acts[j])
    ensures run[i].active && run[i].flow.queue != [] ==>
              && run[i].profile.version.V5_0? && (forall d :: d in run[i].flow.queue ==> d.publish.qos > 0)
              && run[i].flow.slots >= Max(1, run[i].profile.receiveMaximum)
  {
    RunKeepsBusy(kept, f, run, acts, i);
    RunKeepsSafe(kept, f, run, acts, i);
    forall d | d in run[i].flow.queue ensures d.publish.qos > 0 {
      assert DeferredOk(run[i].profile, run[i].memory, d);
    }
  }

  lemma {:induction false} RunKeepsBusy(kept: Session, f: Faults, run: seq<Session>, acts: seq<Action>, i: nat)
    requires IsRun(kept, f, run, acts) && Errorless(f) && i < |run|
    requires forall j :: 0 <= j < i ==> NoErrors(acts[j])
    ensures !Drainable(run[i])
  {
    if i == 0 {
      DrainFinishes(RecoveryQueued(kept, f), f);
    } else {
      RunKeepsBusy(kept, f, run, acts, i - 1);
      StepKeepsBusy(run[i - 1], acts[i - 1]);
    }
  }

  // ---- order ----

  lemma {:induction false} DrainTakesFromTheFront(s: Session, f: Faults) returns (n: nat)
    ensures n <= |s.flow.queue| && Drained(s, f).flow.queue == s.flow.queue[n..]
    decreases |s.flow.queue|
  {
    n := 0;
    if Drainable(s) {
      TurnShrinksQueue(s, f);
      var (s1, more) := DrainStep(s, f);
      if more {
        n := DrainTakesFromTheFront(s1, f);
        n := n + 1;
      }
    }
  }

  /** What the queue of a state is after a message, up to what was drained from its front. */
  function QueueBefore(s: Session, a: Action): seq<Deferred> {
    match a
    case InflightRetry(_, f) => Without(s.flow.queue, ExpiryPass(s, f).1)
    case _ => s.flow.queue
  }

  lemma AcceptKeepsOrder(s: Session, publish: Publish, f: Faults) returns (n: nat, added: seq<Deferred>)
    ensures n <= |s.flow.queue| && Accepted(s, publish, f).0.flow.queue == s.flow.queue[n..] + added
    ensures |added| <= 1 && (added != [] ==> n == 0 && SameMessage(added[0].publish, publish))
  {
    n, added := 0, [];
    var s' := Accepted(s, publish, f).0;
    if s.profile.clean {
      if UsesSlot(s, publish) && !CanReserve(s) {
        added := [Deferred(publish, None)];
      }
    } else {
      var uses := UsesSlot(s, publish);
      var wait := uses && !CanReserve(s);
      var s0 := if uses && !wait then Reserved(s) else s;
      PersistentFlow(s0, publish, wait, f);
      PersistentQueues(s0, publish, wait, f);
      var (s1, status) := DeliverPersistent(s0, publish, wait, f);
      if status.DeferredAs? {
        added := [Deferred(status.publish, Some(status.key))];
      } else if (status.NotSent? || status.Error?) && uses && !wait {
        n := DrainTakesFromTheFront(Released(s1), f);
      }
    }
  }

  /** Deferred publishes keep their order: a message only takes from the front of the queue what it delivers, drops
      from it what has expired, and appends at its end the one publish it may defer. */
  lemma QueueKeepsOrder(s: Session, a: Action) returns (n: nat, added: seq<Deferred>)
    requires Enabled(s, a)
    ensures n <= |QueueBefore(s, a)| && Apply(s, a).flow.queue == QueueBefore(s, a)[n..] + added
    ensures |added| <= 1 && (added != [] ==> n == 0 && a.Outbound? && SameMessage(added[0].publish, a.publish))
  {
    n, added := 0, [];
    match a
    case Outbound(publish, f) => n, added := AcceptKeepsOrder(s, publish, f);
    case Complete(k, f) => n := CompleteKeepsOrder(s, k, f);
    case Puback(id, acked, f) => n := PubackKeepsOrder(s, id, acked, f);
    case Pubrec(id, acked, f) => n := PubrecKeepsOrder(s, id, acked, f);
    case InflightRetry(due, f) => n := DrainTakesFromTheFront(RetrySent(s, due, f), f);
    case _ =>
  }

  lemma CompleteKeepsOrder(s: Session, k: Key, f: Faults) returns (n: nat)
    requires k in s.deliveries
    ensures n <= |s.flow.queue| && DeliveryCompleted(s, k, s.deliveries[k], f).flow.queue == s.flow.queue[n..]
  {
    n := 0;
    if s.deliveries[k].reserved && s.deliveries[k].phase == Ended(false) {
      n := DrainTakesFromTheFront(Released(s.(deliveries := s.deliveries - {k})), f);
    }
  }

  lemma PubackKeepsOrder(s: Session, id: u16, acked: Option<Copy>, f: Faults) returns (n: nat)
    ensures n <= |s.flow.queue| && PubackHandled(s, id, acked, f).flow.queue == s.flow.queue[n..]
  {
    n := 0;
    var s1 := Answered(s, acked);
    if InState(s1.memory, id, WaitPuback) && (s.profile.clean || !f.raft) {
      var m := AdvancedMemory(s1.memory, id, s.clock);
      n := DrainTakesFromTheFront(
        Released(s1.(memory := if s.profile.clean || f.cleanup then m else CleanedMemory(m))), f);
    }
  }

  lemma PubrecKeepsOrder(s: Session, id: u16, acked: Option<Copy>, f: Faults) returns (n: nat)
    ensures n <= |s.flow.queue| && PubrecHandled(s, id, acked, f).flow.queue == s.flow.queue[n..]
  {
    n := 0;
    var s1 := Answered(s, acked);
    if InState(s1.memory, id, WaitPubrec) && (f.control || s.profile.clean || !f.raft) {
      n := DrainTakesFromTheFront(
        Released(if f.control then s1 else s1.(memory := AdvancedMemory(s1.memory, id, s.clock))), f);
    }
  }
}
