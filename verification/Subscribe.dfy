/** Handling of SUBSCRIBE: one decision for each requested filter, in order. */
module Subscribe {
  import opened MqttTypes

  type Filter = nat
  type Retained = nat

  datatype RetainHandling = SendAtSubscribe | SendAtSubscribeIfNew | DoNotSend

  datatype Topic = Topic(
    filter: Filter, qos: u8, noLocal: bool, retainAsPublished: bool, retainHandling: RetainHandling)

  datatype ReasonCode =
    | GrantedQos0 | GrantedQos1 | GrantedQos2
    | UnspecifiedError | NotAuthorized | TopicFilterInvalid | SubscriptionIdentifiersNotSupported

  /** What the other services say about one filter: whether it is a malformed shared filter, whether the plugins
      authorize it, what their subscribe policy grants, whether the topic service takes it, and the retained messages
      it finds. */
  datatype Answers = Answers(
    malformed: bool,
    authorized: bool,
    policy: Option<Policy>,
    subscribed: bool,
    retained: Option<seq<Retained>>)

  datatype Policy = Policy(allowed: bool, grantedQos: u8)

  datatype Success = Success(filter: Filter, qos: QoS, noLocal: bool, retainAsPublished: bool)

  datatype QoS = AtMostOnce | AtLeastOnce | ExactlyOnce

  datatype Delivery = Delivery(packet: Retained, requestedQos: u8, retainAsPublished: bool)

  /** The conversion panics on any other value. */
  function QoSFrom(qos: u8): QoS
    requires qos <= 2
  {
    if qos == 0 then AtMostOnce else if qos == 1 then AtLeastOnce else ExactlyOnce
  }

  function GrantedQosReason(qos: u8): ReasonCode {
    if qos == 0 then GrantedQos0
    else if qos == 1 then GrantedQos1
    else if qos == 2 then GrantedQos2
    else UnspecifiedError
  }

  // ---- the decision about one filter ----

  predicate Granted(a: Answers) {
    !a.malformed && a.authorized && a.policy.Some? && a.policy.value.allowed && a.subscribed
  }

  function GrantedQos(t: Topic, a: Answers): u8
    requires a.policy.Some?
  {
    Min(Min(a.policy.value.grantedQos, t.qos), 2)
  }

  function Recorded(t: Topic, a: Answers): Success
    requires Granted(a)
  {
    Success(t.filter, QoSFrom(GrantedQos(t, a)), t.noLocal, t.retainAsPublished)
  }

  predicate SendsRetained(t: Topic, existing: set<Filter>) {
    match t.retainHandling
    case SendAtSubscribe => true
    case SendAtSubscribeIfNew => t.filter !in existing
    case DoNotSend => false
  }

  function RetainedFor(t: Topic, a: Answers, existing: set<Filter>): seq<Delivery> {
    if Granted(a) && SendsRetained(t, existing) && a.retained.Some? then
      seq(|a.retained.value|, i requires 0 <= i < |a.retained.value| =>
        Delivery(a.retained.value[i], GrantedQos(t, a), t.retainAsPublished))
    else []
  }

  // ---- what a decision means ----

  predicate Allowed(a: Answers) {
    a.authorized && a.policy.Some? && a.policy.value.allowed
  }

  /** `n` is the least of what the client asks for, the plugins grant, and the protocol has. */
  predicate IsLeastQos(n: int, t: Topic, a: Answers)
    requires a.policy.Some?
  {
    && n <= t.qos && n <= a.policy.value.grantedQos && n <= 2
    && (n == t.qos || n == a.policy.value.grantedQos || n == 2)
  }

  /** The code says what became of the filter. */
  predicate CodeSays(code: ReasonCode, t: Topic, a: Answers) {
    && (code.TopicFilterInvalid? <==> a.malformed)
    && (code.NotAuthorized? <==> !a.malformed && !Allowed(a))
    && (code.UnspecifiedError? <==> !a.malformed && Allowed(a) && !a.subscribed)
    && (code.GrantedQos0? <==> !a.malformed && Allowed(a) && a.subscribed && IsLeastQos(0, t, a))
    && (code.GrantedQos1? <==> !a.malformed && Allowed(a) && a.subscribed && IsLeastQos(1, t, a))
    && (code.GrantedQos2? <==> !a.malformed && Allowed(a) && a.subscribed && IsLeastQos(2, t, a))
  }

  function Reason(t: Topic, a: Answers): (code: ReasonCode)
    ensures CodeSays(code, t, a)
  {
    if a.malformed then TopicFilterInvalid
    else if !Allowed(a) then NotAuthorized
    else if !a.subscribed then UnspecifiedError
    else GrantedQosReason(GrantedQos(t, a))
  }

  /** The record has the filter, the options and the granted QoS of the request. */
  predicate IsRecordOf(x: Success, t: Topic, a: Answers)
    requires a.policy.Some?
  {
    && x.filter == t.filter && x.noLocal == t.noLocal && x.retainAsPublished == t.retainAsPublished
    && (x.qos.AtMostOnce? <==> IsLeastQos(0, t, a))
    && (x.qos.AtLeastOnce? <==> IsLeastQos(1, t, a))
    && (x.qos.ExactlyOnce? <==> IsLeastQos(2, t, a))
  }

  /** How many retained messages the filter brings. */
  function RetainedCount(t: Topic, a: Answers, existing: set<Filter>): nat {
    if Granted(a) && a.retained.Some?
       && (t.retainHandling.SendAtSubscribe? || (t.retainHandling.SendAtSubscribeIfNew? && t.filter !in existing))
    then |a.retained.value| else 0
  }

  // ---- the whole request ----

  function Successes(topics: seq<Topic>, answers: seq<Answers>): seq<Success>
    requires |topics| == |answers|
  {
    if topics == [] then []
    else
      var n := |topics| - 1;
      Successes(topics[..n], answers[..n]) + (if Granted(answers[n]) then [Recorded(topics[n], answers[n])] else [])
  }

  function AllRetained(topics: seq<Topic>, answers: seq<Answers>, existing: set<Filter>): seq<Delivery>
    requires |topics| == |answers|
  {
    if topics == [] then []
    else
      var n := |topics| - 1;
      AllRetained(topics[..n], answers[..n], existing) + RetainedFor(topics[n], answers[n], existing)
  }

  /** How many filters before `i` were granted. */
  function Rank(answers: seq<Answers>, i: nat): nat
    requires i <= |answers|
  {
    if i == 0 then 0 else Rank(answers, i - 1) + (if Granted(answers[i - 1]) then 1 else 0)
  }

  datatype Result = Result(reasonCodes: seq<ReasonCode>, succeeded: seq<Success>, retained: seq<Delivery>)

  /** `answers[i]` are the answers about the `i`-th filter. */
  method HandleSubscribe(version: ProtocolVersion, hasIdentifiers: bool, topics: seq<Topic>, answers: seq<Answers>,
                         existing: set<Filter>) returns (r: Result)
    requires |topics| == |answers|
    ensures |r.reasonCodes| == |topics|
    ensures version.V5_0? && hasIdentifiers ==>
              r.succeeded == [] && r.retained == []
              && forall i :: 0 <= i < |topics| ==> r.reasonCodes[i] == SubscriptionIdentifiersNotSupported
    ensures !(version.V5_0? && hasIdentifiers) ==>
              && (forall i :: 0 <= i < |topics| ==> CodeSays(r.reasonCodes[i], topics[i], answers[i]))
              && r.succeeded == Successes(topics, answers)
              && r.retained == AllRetained(topics, answers, existing)
  {
    if version == V5_0 && hasIdentifiers {
      return Result(seq(|topics|, _ => SubscriptionIdentifiersNotSupported), [], []);
    }
    var codes: seq<ReasonCode>, succeeded: seq<Success>, retained: seq<Delivery> := [], [], [];
    var i := 0;
    while i < |topics|
      invariant 0 <= i <= |topics| && |codes| == i
      invariant forall j :: 0 <= j < i ==> codes[j] == Reason(topics[j], answers[j])
      invariant succeeded == Successes(topics[..i], answers[..i])
      invariant retained == AllRetained(topics[..i], answers[..i], existing)
    {
      var topic, a := topics[i], answers[i];
      assert topics[..i + 1][..i] == topics[..i] && answers[..i + 1][..i] == answers[..i];
      i := i + 1;
      if a.malformed {
        codes := codes + [TopicFilterInvalid];
        continue;
      }
      if !Allowed(a) {
        codes := codes + [NotAuthorized];
        continue;
      }
      var grantedQos: u8 := Min(Min(a.policy.value.grantedQos, topic.qos), 2);
      if !a.subscribed {
        codes := codes + [UnspecifiedError];
        continue;
      }
      succeeded := succeeded + [Success(topic.filter, QoSFrom(grantedQos), topic.noLocal, topic.retainAsPublished)];
      codes := codes + [GrantedQosReason(grantedQos)];
      retained := retained + RetainedFor(topic, a, existing);
    }
    assert topics[..i] == topics && answers[..i] == answers;
    r := Result(codes, succeeded, retained);
  }

  /** A filter is granted exactly if its code says so, the code names the QoS that is recorded, and that is no more than
      the client asked for, the plugins allow, and the protocol has. */
  lemma GrantIsWithinBounds(t: Topic, a: Answers)
    ensures var code := Reason(t, a);
            && (code.GrantedQos0? || code.GrantedQos1? || code.GrantedQos2? <==> Granted(a))
            && (Granted(a) ==>
                  && IsRecordOf(Recorded(t, a), t, a) && IsLeastQos(GrantedQos(t, a), t, a)
                  && (code.GrantedQos0? <==> Recorded(t, a).qos.AtMostOnce?)
                  && (code.GrantedQos1? <==> Recorded(t, a).qos.AtLeastOnce?)
                  && (code.GrantedQos2? <==> Recorded(t, a).qos.ExactlyOnce?))
  {
  }

  /** The recorded successes are exactly the granted filters, in the order of the request, each with the QoS that its
      reason code names. */
  lemma {:induction false} SuccessesAreTheGrants(topics: seq<Topic>, answers: seq<Answers>, i: nat)
    requires |topics| == |answers| && i < |topics|
    ensures |Successes(topics, answers)| == Rank(answers, |answers|)
    ensures Granted(answers[i]) ==>
              && Rank(answers, i) < |Successes(topics, answers)|
              && IsRecordOf(Successes(topics, answers)[Rank(answers, i)], topics[i], answers[i])
    decreases |topics|
  {
    var n := |topics| - 1;
    RankOfPrefix(answers, n, n);
    if i < n {
      SuccessesAreTheGrants(topics[..n], answers[..n], i);
      RankOfPrefix(answers, n, i);
    } else if n > 0 {
      SuccessesAreTheGrants(topics[..n], answers[..n], 0);
    }
  }

  lemma {:induction false} RankOfPrefix(answers: seq<Answers>, n: nat, i: nat)
    requires i <= n <= |answers|
    ensures Rank(answers[..n], i) == Rank(answers, i)
  {
    if i > 0 {
      RankOfPrefix(answers, n, i - 1);
    }
  }

  /** The `j`-th retained message of the filter, as it is sent. */
  predicate IsRetainedOf(d: Delivery, t: Topic, a: Answers, j: int) {
    && a.retained.Some? && 0 <= j < |a.retained.value| && d.packet == a.retained.value[j]
    && a.policy.Some? && IsLeastQos(d.requestedQos, t, a) && d.retainAsPublished == t.retainAsPublished
  }

  lemma RetainedForOne(t: Topic, a: Answers, existing: set<Filter>)
    ensures var block := RetainedFor(t, a, existing);
            && |block| == RetainedCount(t, a, existing)
            && forall j :: 0 <= j < |block| ==> IsRetainedOf(block[j], t, a, j)
  {
    var block := RetainedFor(t, a, existing);
    forall j | 0 <= j < |block| ensures IsRetainedOf(block[j], t, a, j) {
      assert block[j] == Delivery(a.retained.value[j], GrantedQos(t, a), t.retainAsPublished);
    }
  }

  lemma {:induction false} RetainedOfPrefix(topics: seq<Topic>, answers: seq<Answers>, existing: set<Filter>, m: nat)
    requires |topics| == |answers| && m <= |topics|
    ensures AllRetained(topics[..m], answers[..m], existing) <= AllRetained(topics, answers, existing)
    decreases |topics|
  {
    var n := |topics| - 1;
    if m <= n {
      RetainedOfPrefix(topics[..n], answers[..n], existing, m);
      assert topics[..n][..m] == topics[..m] && answers[..n][..m] == answers[..m];
    } else {
      assert topics[..m] == topics && answers[..m] == answers;
    }
  }

  lemma RetainedGrows(topics: seq<Topic>, answers: seq<Answers>, existing: set<Filter>, i: nat)
    requires |topics| == |answers| && i < |topics|
    ensures AllRetained(topics[..i + 1], answers[..i + 1], existing) ==
            AllRetained(topics[..i], answers[..i], existing) + RetainedFor(topics[i], answers[i], existing)
  {
    assert topics[..i + 1][..i] == topics[..i] && answers[..i + 1][..i] == answers[..i];
  }

  lemma BlockAfter(before: seq<Delivery>, block: seq<Delivery>, all: seq<Delivery>, j: int)
    requires before + block <= all && |before| <= j < |before| + |block|
    ensures j < |all| && all[j] == block[j - |before|]
  {
    assert (before + block)[j] == block[j - |before|];
  }

  /** The retained messages are those of the granted filters that ask for them, filter after filter, each with the
      QoS granted to its filter. */
  lemma RetainedInOrder(topics: seq<Topic>, answers: seq<Answers>, existing: set<Filter>, i: nat)
    requires |topics| == |answers| && i < |topics|
    ensures var all, before := AllRetained(topics, answers, existing), AllRetained(topics[..i], answers[..i], existing);
            var upto := AllRetained(topics[..i + 1], answers[..i + 1], existing);
            && |upto| == |before| + RetainedCount(topics[i], answers[i], existing) && before <= upto <= all
            && (i + 1 == |topics| ==> upto == all)
            && forall j :: |before| <= j < |upto| ==> IsRetainedOf(all[j], topics[i], answers[i], j - |before|)
  {
    var all, before := AllRetained(topics, answers, existing), AllRetained(topics[..i], answers[..i], existing);
    var block := RetainedFor(topics[i], answers[i], existing);
    RetainedGrows(topics, answers, existing, i);
    RetainedForOne(topics[i], answers[i], existing);
    RetainedOfPrefix(topics, answers, existing, i + 1);
    forall j | |before| <= j < |before + block| ensures IsRetainedOf(all[j], topics[i], answers[i], j - |before|) {
      BlockAfter(before, block, all, j);
    }
    if i + 1 == |topics| {
      assert topics[..i + 1] == topics && answers[..i + 1] == answers;
    }
  }
}
