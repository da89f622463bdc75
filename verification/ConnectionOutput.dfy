/** The way out of a connection: packets are encoded into a buffer, handed over in batches through a bounded
    channel, collected by the network sender and written. */
module ConnectionOutput {
  import opened MqttTypes

  const BATCH_SIZE := 100
  const CHANNEL_CAPACITY := 1000
  const FLUSH_BYTES := 64 * 1024
  const FLUSH_COUNT := 200

  datatype Command = Send(data: Bytes) | Shutdown

  /** Whether the actor has the sender, is about to shut it down, or has told it. */
  datatype Link = Live | Closing | Gone

  /** A batch that was handed over, or refused by the channel, with the packets in it. */
  datatype Batch = Batch(packets: seq<Bytes>, refused: bool)

  /** What happened: the packets that were accepted, the batches they went into, the packets still in the buffer,
      and how many of the batches that were not refused have been taken from the channel and written. */
  datatype Log = Log(accepted: seq<Bytes>, batches: seq<Batch>, buffered: seq<Bytes>, taken: nat, written: nat)

  datatype Output = Output(
    version: ProtocolVersion,
    limit: Option<nat>,
    link: Link,
    buffer: Bytes,
    pending: nat,
    channel: seq<Command>,
    batch: Bytes,
    count: nat,
    wire: Bytes,
    stopped: bool,
    dropped: nat,
    log: Log)

  datatype Reply = Ok | Closed | TooLarge

  function Joined(packets: seq<Bytes>): Bytes {
    if packets == [] then [] else Joined(packets[..|packets| - 1]) + packets[|packets| - 1]
  }

  /** The packets of all batches. */
  function Flat(batches: seq<Batch>): seq<Bytes> {
    if batches == [] then [] else Flat(batches[..|batches| - 1]) + batches[|batches| - 1].packets
  }

  /** The bytes of each batch that was not refused. */
  function Kept(batches: seq<Batch>): seq<Bytes> {
    if batches == [] then []
    else
      var last := batches[|batches| - 1];
      Kept(batches[..|batches| - 1]) + (if last.refused then [] else [Joined(last.packets)])
  }

  /** The batches in the channel. */
  function Sends(channel: seq<Command>): seq<Bytes> {
    if channel == [] then []
    else (if channel[0].Send? then [channel[0].data] else []) + Sends(channel[1..])
  }

  // ---- the actor's side ----

  /** `flush_batch`: the batch is refused exactly when the channel is full or the sender has stopped. */
  function Flushed(o: Output): Output {
    if o.pending == 0 || !o.link.Live? then o
    else
      var refused := |o.channel| >= CHANNEL_CAPACITY || o.stopped;
      o.(buffer := [], pending := 0,
         channel := if refused then o.channel else o.channel + [Send(o.buffer)],
         log := o.log.(batches := o.log.batches + [Batch(o.log.buffered, refused)], buffered := []))
  }

  function Accepted(o: Output, packet: Bytes): Output {
    o.(buffer := o.buffer + packet, pending := o.pending + 1,
       log := o.log.(accepted := o.log.accepted + [packet], buffered := o.log.buffered + [packet]))
  }

  predicate Exceeds(o: Output, packet: Bytes) {
    o.version.V5_0? && o.limit.Some? && |packet| > o.limit.value
  }

  /** A packet, encoded, unless it is a publish that has expired. */
  function PacketWritten(o: Output, packet: Bytes, isPublish: bool, expired: bool): (Output, Reply) {
    if !o.link.Live? then (o, Closed)
    else if expired then (o, Ok)
    else if Exceeds(o, packet) then
      if isPublish then (o.(dropped := o.dropped + 1), Ok) else (o, TooLarge)
    else
      var o1 := Accepted(o, packet);
      (if o1.pending >= BATCH_SIZE then Flushed(o1) else o1, Ok)
  }

  /** Disconnection flushes, and gives up the sender for its shutdown. */
  function Disconnected(o: Output): Output {
    if o.link.Live? then Flushed(o).(link := Closing) else o
  }

  /** The shutdown command waits for room in the channel. */
  function ShutdownSent(o: Output): Output {
    if o.link.Closing? && |o.channel| < CHANNEL_CAPACITY then o.(channel := o.channel + [Shutdown], link := Gone) else o
  }

  // ---- the sender's side ----

  /** `flush`: the whole batch, if there is one. */
  function BatchWritten(o: Output): Output {
    if o.batch == [] then o
    else o.(wire := o.wire + o.batch, batch := [], count := 0, log := o.log.(written := o.log.taken))
  }

  function Taken(o: Output, data: Bytes): Output
    requires o.channel != []
  {
    o.(channel := o.channel[1..], batch := o.batch + data, count := o.count + 1,
       log := o.log.(taken := o.log.taken + 1))
  }

  /** The sender takes a command. */
  function Received(o: Output): Output {
    if o.stopped || o.channel == [] then o
    else match o.channel[0]
      case Send(data) =>
        var o1 := Taken(o, data);
        if |o1.batch| >= FLUSH_BYTES || o1.count >= FLUSH_COUNT then BatchWritten(o1) else o1
      case Shutdown => CleanedUp(o.(channel := o.channel[1..]))
  }

  /** The end of the sender: what it has, then what is left in the channel. */
  function CleanedUp(o: Output): Output {
    var rest := Sends(o.channel);
    o.(wire := o.wire + o.batch + Joined(rest), batch := [], count := 0, channel := [], stopped := true,
       log := o.log.(taken := o.log.taken + |rest|, written := o.log.taken + |rest|))
  }

  function Ticked(o: Output): Output {
    if o.stopped then o else BatchWritten(o)
  }

  // ---- runs ----

  datatype Action =
    | Write(packet: Bytes, isPublish: bool, expired: bool)
    | FlushTimer
    | SetLimit(limit: Option<nat>)
    | Disconnect
    | SendShutdown
    | Receive
    | Tick

  function Apply(o: Output, a: Action): Output {
    match a
    case Write(packet, isPublish, expired) => PacketWritten(o, packet, isPublish, expired).0
    case FlushTimer => Flushed(o)
    case SetLimit(limit) => o.(limit := limit)
    case Disconnect => Disconnected(o)
    case SendShutdown => ShutdownSent(o)
    case Receive => Received(o)
    case Tick => Ticked(o)
  }

  function Opened(version: ProtocolVersion): Output {
    Output(version, None, Live, [], 0, [], [], 0, [], false, 0, Log([], [], [], 0, 0))
  }

  function After(version: ProtocolVersion, acts: seq<Action>): Output {
    if acts == [] then Opened(version) else Apply(After(version, acts[..|acts| - 1]), acts[|acts| - 1])
  }

  // ---- what every step keeps ----

  /** The shutdown command comes last. */
  predicate ShutdownIsLast(o: Output) {
    && (forall i :: 0 <= i < |o.channel| && o.channel[i].Shutdown? ==> i == |o.channel| - 1 && o.link.Gone?)
    && (o.stopped ==> o.link.Gone?)
  }

  predicate BufferOk(o: Output) {
    && o.buffer == Joined(o.log.buffered) && o.pending == |o.log.buffered|
    && o.log.accepted == Flat(o.log.batches) + o.log.buffered
    && (!o.link.Live? ==> o.log.buffered == [])
  }

  predicate StreamOk(o: Output) {
    var kept := Kept(o.log.batches);
    && o.log.written <= o.log.taken <= |kept|
    && o.wire == Joined(kept[..o.log.written])
    && o.batch == Joined(kept[o.log.written..o.log.taken])
    && Sends(o.channel) == kept[o.log.taken..]
    && (o.stopped ==> o.channel == [] && o.log.written == |kept|)
  }

  predicate Inv(o: Output) {
    BufferOk(o) && StreamOk(o) && ShutdownIsLast(o)
  }

  lemma {:induction false} JoinedConcat(a: seq<Bytes>, b: seq<Bytes>)
    ensures Joined(a + b) == Joined(a) + Joined(b)
  {
    if b == [] {
      assert a + b == a;
    } else {
      var n := |b| - 1;
      JoinedConcat(a, b[..n]);
      assert (a + b)[..|a + b| - 1] == a + b[..n];
    }
  }

  lemma {:induction false} SendsConcat(a: seq<Command>, b: seq<Command>)
    ensures Sends(a + b) == Sends(a) + Sends(b)
  {
    if a == [] {
      assert a + b == b;
    } else {
      var first := if a[0].Send? then [a[0].data] else [];
      SendsConcat(a[1..], b);
      assert (a + b)[0] == a[0] && (a + b)[1..] == a[1..] + b;
      assert Sends(a + b) == first + (Sends(a[1..]) + Sends(b));
      assert first + (Sends(a[1..]) + Sends(b)) == (first + Sends(a[1..])) + Sends(b);
    }
  }

  lemma FlushKeepsInv(o: Output)
    requires Inv(o)
    ensures Inv(Flushed(o))
  {
    var o' := Flushed(o);
    if o' != o {
      var b := o.log.batches + [Batch(o.log.buffered, |o.channel| >= CHANNEL_CAPACITY || o.stopped)];
      assert b[..|b| - 1] == o.log.batches;
      SendsConcat(o.channel, [Send(o.buffer)]);
      KeptGrows(o, o');
    }
  }

  /** A batch that is handed over comes after all that were. */
  lemma KeptGrows(o: Output, o': Output)
    requires StreamOk(o) && o'.log.taken == o.log.taken && o'.log.written == o.log.written
    requires o'.wire == o.wire && o'.batch == o.batch && o'.stopped == o.stopped
    requires Kept(o.log.batches) <= Kept(o'.log.batches)
    requires Sends(o'.channel) == Sends(o.channel) + Kept(o'.log.batches)[|Kept(o.log.batches)|..]
    requires o.stopped ==> o'.channel == [] && o'.log.batches == o.log.batches
    ensures StreamOk(o')
  {
    var kept, kept' := Kept(o.log.batches), Kept(o'.log.batches);
    assert kept' == kept + kept'[|kept|..];
    PrefixesStay(kept, kept'[|kept|..], o.log.written, o.log.taken);
  }

  lemma PrefixesStay(kept: seq<Bytes>, more: seq<Bytes>, written: nat, taken: nat)
    requires written <= taken <= |kept|
    ensures (kept + more)[..written] == kept[..written] && (kept + more)[written..taken] == kept[written..taken]
    ensures (kept + more)[taken..] == kept[taken..] + more
  {
  }

  lemma AcceptKeepsInv(o: Output, packet: Bytes)
    requires Inv(o) && o.link.Live?
    ensures Inv(Accepted(o, packet))
  {
    var o' := Accepted(o, packet);
    assert o'.log.buffered[..|o'.log.buffered| - 1] == o.log.buffered;
    assert o'.log.accepted == Flat(o.log.batches) + (o.log.buffered + [packet]);
  }

  lemma WriteKeepsInv(o: Output, packet: Bytes, isPublish: bool, expired: bool)
    requires Inv(o)
    ensures Inv(PacketWritten(o, packet, isPublish, expired).0)
  {
    if o.link.Live? {
      AcceptKeepsInv(o, packet);
      FlushKeepsInv(Accepted(o, packet));
    }
  }

  lemma DisconnectKeepsInv(o: Output)
    requires Inv(o)
    ensures Inv(Disconnected(o))
  {
    FlushKeepsInv(o);
    assert |o.log.buffered| == 0 ==> o.log.buffered == [];
  }

  lemma ShutdownKeepsInv(o: Output)
    requires Inv(o)
    ensures Inv(ShutdownSent(o))
  {
    SendsConcat(o.channel, [Shutdown]);
    assert Sends(o.channel) + [] == Sends(o.channel);
  }

  lemma BatchWriteKeepsStream(o: Output)
    requires StreamOk(o) && !o.stopped
    ensures StreamOk(BatchWritten(o))
  {
    var kept := Kept(o.log.batches);
    JoinedConcat(kept[..o.log.written], kept[o.log.written..o.log.taken]);
    assert kept[..o.log.written] + kept[o.log.written..o.log.taken] == kept[..o.log.taken];
  }

  lemma TakeKeepsStream(o: Output)
    requires StreamOk(o) && !o.stopped && o.channel != [] && o.channel[0].Send?
    ensures StreamOk(Taken(o, o.channel[0].data))
  {
    var kept := Kept(o.log.batches);
    var data := o.channel[0].data;
    assert kept[o.log.taken..] == [data] + Sends(o.channel[1..]);
    assert kept[o.log.taken] == data && kept[o.log.taken + 1..] == Sends(o.channel[1..]);
    var taken := kept[o.log.written..o.log.taken + 1];
    assert taken[..|taken| - 1] == kept[o.log.written..o.log.taken] && taken[|taken| - 1] == data;
  }

  lemma CleanupKeepsStream(o: Output)
    requires StreamOk(o)
    ensures StreamOk(CleanedUp(o))
  {
    var kept := Kept(o.log.batches);
    JoinedConcat(kept[..o.log.written], kept[o.log.written..o.log.taken]);
    assert kept[..o.log.written] + kept[o.log.written..o.log.taken] == kept[..o.log.taken];
    JoinedConcat(kept[..o.log.taken], kept[o.log.taken..]);
    assert kept[..o.log.taken] + kept[o.log.taken..] == kept;
    assert kept[..|kept|] == kept && kept[|kept|..] == [];
  }

  lemma ShutdownKeepsStream(o: Output)
    requires StreamOk(o) && !o.stopped && o.channel != [] && o.channel[0].Shutdown?
    ensures StreamOk(CleanedUp(o.(channel := o.channel[1..])))
  {
    assert Sends(o.channel) == Sends(o.channel[1..]);
    CleanupKeepsStream(o.(channel := o.channel[1..]));
  }

  lemma ReceiveKeepsStream(o: Output)
    requires StreamOk(o)
    ensures StreamOk(Received(o))
  {
    if !o.stopped && o.channel != [] {
      if o.channel[0].Send? {
        TakeKeepsStream(o);
        BatchWriteKeepsStream(Taken(o, o.channel[0].data));
      } else {
        ShutdownKeepsStream(o);
      }
    }
  }

  lemma ReceiveKeepsInv(o: Output)
    requires Inv(o)
    ensures Inv(Received(o))
  {
    ReceiveKeepsStream(o);
    var o' := Received(o);
    assert o'.link == o.link && o'.log.buffered == o.log.buffered && o'.log.batches == o.log.batches;
    assert o'.channel == o.channel || o'.channel == [] || o'.channel == o.channel[1..];
    forall i | 0 <= i < |o'.channel| && o'.channel[i].Shutdown? ensures i == |o'.channel| - 1 && o'.link.Gone? {
      if o'.channel != o.channel {
        assert o.channel[i + 1].Shutdown?;
      }
    }
  }

  lemma StepKeepsInv(o: Output, a: Action)
    requires Inv(o)
    ensures Inv(Apply(o, a))
  {
    match a
    case Write(packet, isPublish, expired) => WriteKeepsInv(o, packet, isPublish, expired);
    case FlushTimer => FlushKeepsInv(o);
    case SetLimit(_) =>
    case Disconnect => DisconnectKeepsInv(o);
    case SendShutdown => ShutdownKeepsInv(o);
    case Receive => ReceiveKeepsInv(o);
    case Tick => if !o.stopped { BatchWriteKeepsStream(o); }
  }

  lemma {:induction false} RunKeepsInv(version: ProtocolVersion, acts: seq<Action>)
    ensures Inv(After(version, acts))
  {
    if acts != [] {
      RunKeepsInv(version, acts[..|acts| - 1]);
      StepKeepsInv(After(version, acts[..|acts| - 1]), acts[|acts| - 1]);
    }
  }

  /** After any run, what is on the wire is a concatenation of whole packets: those of the first batches that were
      not refused, in order. Every accepted packet is, in order, in a batch or still in the buffer; and once the
      sender has stopped, no packet is in the buffer, and every batch that was not refused is on the wire. */
  lemma WireCarriesWholePackets(version: ProtocolVersion, acts: seq<Action>)
    ensures var o := After(version, acts);
            && o.log.accepted == Flat(o.log.batches) + o.log.buffered
            && o.log.written <= |Kept(o.log.batches)|
            && o.wire == Joined(Kept(o.log.batches)[..o.log.written])
            && (o.stopped ==> o.log.accepted == Flat(o.log.batches) && o.wire == Joined(Kept(o.log.batches)))
  {
    RunKeepsInv(version, acts);
    var o := After(version, acts);
    assert Kept(o.log.batches)[..|Kept(o.log.batches)|] == Kept(o.log.batches);
    assert Flat(o.log.batches) + [] == Flat(o.log.batches);
  }

  // ---- what is accepted ----

  /** Exactly what becomes of a packet: it is accepted if the connection is open, the packet has not expired and is
      within the client's limit; a publish beyond the limit is counted and forgotten, any other packet is an error. */
  lemma WriteIsExact(o: Output, packet: Bytes, isPublish: bool, expired: bool)
    ensures var (o', reply) := PacketWritten(o, packet, isPublish, expired);
            var tooLarge := o.version.V5_0? && o.limit.Some? && |packet| > o.limit.value;
            && o'.log.accepted == o.log.accepted + (if o.link.Live? && !expired && !tooLarge then [packet] else [])
            && o'.dropped == o.dropped + (if o.link.Live? && !expired && tooLarge && isPublish then 1 else 0)
            && (reply.Closed? <==> !o.link.Live?)
            && (reply.TooLarge? <==> o.link.Live? && !expired && tooLarge && !isPublish)
  {
  }

  /** Nobody has disconnected. */
  predicate IsOpen(acts: seq<Action>) {
    Disconnect !in acts
  }

  /** The client's limit, as it was last set. */
  function LimitSet(acts: seq<Action>): Option<nat> {
    if acts == [] then None
    else if acts[|acts| - 1].SetLimit? then acts[|acts| - 1].limit
    else LimitSet(acts[..|acts| - 1])
  }

  /** What the client is to get of the packets that were written: those that had not expired and were within its
      limit, while the connection was open. */
  function ForTheClient(version: ProtocolVersion, acts: seq<Action>): seq<Bytes> {
    if acts == [] then []
    else
      var before, a := acts[..|acts| - 1], acts[|acts| - 1];
      var limit := LimitSet(before);
      ForTheClient(version, before) +
      (if a.Write? && !a.expired && IsOpen(before) && !(version.V5_0? && limit.Some? && |a.packet| > limit.value)
       then [a.packet] else [])
  }

  lemma StepLinkAndLimit(o: Output, a: Action)
    ensures var o' := Apply(o, a);
            && o'.version == o.version && o'.limit == (if a.SetLimit? then a.limit else o.limit)
            && (o'.link.Live? <==> o.link.Live? && !a.Disconnect?)
  {
  }

  lemma {:induction false} LinkAndLimit(version: ProtocolVersion, acts: seq<Action>)
    ensures var o := After(version, acts);
            o.version == version && o.limit == LimitSet(acts) && (o.link.Live? <==> IsOpen(acts))
  {
    if acts != [] {
      var before, a := acts[..|acts| - 1], acts[|acts| - 1];
      LinkAndLimit(version, before);
      StepLinkAndLimit(After(version, before), a);
      assert acts == before + [a];
    }
  }

  /** In every run, what is accepted is exactly what the client is to get, in the order it was written. */
  lemma {:induction false} AcceptsWhatIsForTheClient(version: ProtocolVersion, acts: seq<Action>)
    ensures After(version, acts).log.accepted == ForTheClient(version, acts)
  {
    if acts != [] {
      var before, a := acts[..|acts| - 1], acts[|acts| - 1];
      AcceptsWhatIsForTheClient(version, before);
      LinkAndLimit(version, before);
      if a.Write? {
        WriteIsExact(After(version, before), a.packet, a.isPublish, a.expired);
      } else {
        StepAccepts(After(version, before), a);
      }
    }
  }

  /** Without a refused batch, what is on the wire when the sender has stopped is what the client is to get of what was
      written, byte for byte. */
  lemma NothingRefusedNothingLost(version: ProtocolVersion, acts: seq<Action>)
    requires After(version, acts).stopped
    requires forall i :: 0 <= i < |After(version, acts).log.batches| ==> !After(version, acts).log.batches[i].refused
    ensures After(version, acts).wire == Joined(ForTheClient(version, acts))
  {
    WireCarriesWholePackets(version, acts);
    KeptIsFlat(After(version, acts).log.batches);
    AcceptsWhatIsForTheClient(version, acts);
  }

  lemma {:induction false} KeptIsFlat(batches: seq<Batch>)
    requires forall i :: 0 <= i < |batches| ==> !batches[i].refused
    ensures Joined(Kept(batches)) == Joined(Flat(batches))
  {
    if batches != [] {
      var n := |batches| - 1;
      KeptIsFlat(batches[..n]);
      JoinedConcat(Kept(batches[..n]), [Joined(batches[n].packets)]);
      JoinedConcat(Flat(batches[..n]), batches[n].packets);
      assert Joined([Joined(batches[n].packets)]) == Joined(batches[n].packets);
    }
  }

  /** From `o` to `o'` at most one batch is added, of these packets. It goes to the end of the channel, or is refused by
      a full one. */
  predicate Adds(o: Output, o': Output, packets: seq<Bytes>) {
    o'.log.batches == o.log.batches ||
    (var refused := |o.channel| == CHANNEL_CAPACITY;
     && packets != [] && o'.log.batches == o.log.batches + [Batch(packets, refused)]
     && o'.channel == (if refused then o.channel else o.channel + [Send(Joined(packets))]))
  }

  lemma FlushAdds(o: Output)
    requires o.pending == |o.log.buffered| && o.buffer == Joined(o.log.buffered)
    requires |o.channel| <= CHANNEL_CAPACITY && (o.stopped ==> !o.link.Live?)
    ensures Adds(o, Flushed(o), o.log.buffered)
  {
  }

  lemma WriteAdds(o: Output, packet: Bytes, isPublish: bool, expired: bool)
    requires o.pending == |o.log.buffered| && o.buffer == Joined(o.log.buffered)
    requires |o.channel| <= CHANNEL_CAPACITY && (o.stopped ==> !o.link.Live?)
    ensures Adds(o, PacketWritten(o, packet, isPublish, expired).0, o.log.buffered + [packet])
  {
    var o1 := Accepted(o, packet);
    assert (o.log.buffered + [packet])[..|o.log.buffered|] == o.log.buffered;
    FlushAdds(o1);
  }

  /** A batch holds all the packets that are in none yet, the one just written included. */
  lemma StepAdds(o: Output, a: Action)
    requires Inv(o) && |o.channel| <= CHANNEL_CAPACITY
    ensures Adds(o, Apply(o, a), o.log.buffered + (if a.Write? then [a.packet] else []))
  {
    assert o.log.buffered + [] == o.log.buffered;
    FlushAdds(o);
    match a
    case Write(packet, isPublish, expired) => WriteAdds(o, packet, isPublish, expired);
    case Receive => assert Received(o).log.batches == o.log.batches;
    case _ =>
  }

  /** A batch is refused only by a full channel: whatever step of whatever run makes it, a timer, a disconnection or
      the write that fills it, the sender has not stopped then. A batch that is not refused goes to the end of the
      channel. */
  lemma RefusedOnlyWhenFull(version: ProtocolVersion, acts: seq<Action>, a: Action)
    ensures var o, o' := After(version, acts), Apply(After(version, acts), a);
            && |o.channel| <= CHANNEL_CAPACITY
            && (o'.log.batches != o.log.batches ==>
                  && |o'.log.batches| == |o.log.batches| + 1 && o.log.batches <= o'.log.batches
                  && var last := o'.log.batches[|o.log.batches|];
                     && last.packets == o.log.buffered + (if a.Write? then [a.packet] else []) && last.packets != []
                     && (last.refused <==> |o.channel| == CHANNEL_CAPACITY)
                     && o'.channel == (if last.refused then o.channel else o.channel + [Send(Joined(last.packets))]))
  {
    RunKeepsInv(version, acts);
    ChannelIsBounded(version, acts);
    StepAdds(After(version, acts), a);
  }

  lemma StepBoundsChannel(o: Output, a: Action)
    requires |o.channel| <= CHANNEL_CAPACITY
    ensures |Apply(o, a).channel| <= CHANNEL_CAPACITY
  {
  }

  lemma {:induction false} ChannelIsBounded(version: ProtocolVersion, acts: seq<Action>)
    ensures |After(version, acts).channel| <= CHANNEL_CAPACITY
  {
    if acts != [] {
      ChannelIsBounded(version, acts[..|acts| - 1]);
      StepBoundsChannel(After(version, acts[..|acts| - 1]), acts[|acts| - 1]);
    }
  }

  /** How many packets had been accepted when the client's limits were last set. */
  function Before(version: ProtocolVersion, acts: seq<Action>): nat {
    if acts == [] then 0
    else if acts[|acts| - 1].SetLimit? then |After(version, acts).log.accepted|
    else Before(version, acts[..|acts| - 1])
  }

  /** Over MQTT 5, every packet accepted after the client's limit was set is within it. */
  lemma {:induction false} PacketsStayWithinTheLimit(version: ProtocolVersion, acts: seq<Action>)
    ensures var o := After(version, acts);
            && o.version == version && Before(version, acts) <= |o.log.accepted|
            && (version.V5_0? && o.limit.Some? ==>
                  forall i :: Before(version, acts) <= i < |o.log.accepted| ==> |o.log.accepted[i]| <= o.limit.value)
  {
    if acts != [] {
      PacketsStayWithinTheLimit(version, acts[..|acts| - 1]);
      StepAccepts(After(version, acts[..|acts| - 1]), acts[|acts| - 1]);
    }
  }

  /** A step accepts at most one packet, which is within the limit. */
  lemma StepAccepts(o: Output, a: Action)
    ensures var o' := Apply(o, a);
            && o'.version == o.version && (o'.limit == o.limit || a.SetLimit?)
            && (o'.log.accepted == o.log.accepted
                || (a.Write? && !Exceeds(o, a.packet) && o'.log.accepted == o.log.accepted + [a.packet]))
  {
  }

  // ---- progress ----

  predicate Small(o: Output) {
    o.pending < 100 && (o.batch != [] ==> |o.batch| < 65536 && o.count < 200)
  }

  lemma StepStaysSmall(o: Output, a: Action)
    requires Small(o)
    ensures Small(Apply(o, a))
  {
    match a
    case Receive =>
      if !o.stopped && o.channel != [] && o.channel[0].Send? {
        var o1 := Taken(o, o.channel[0].data);
        assert o1.batch == [] || BatchWritten(o1).batch == [];
      }
    case _ =>
  }

  /** Neither the buffer nor the sender's batch holds back as much as its limits, and a timer empties each. */
  lemma {:induction false} NothingIsHeldBack(version: ProtocolVersion, acts: seq<Action>)
    ensures var o := After(version, acts);
            && o.pending < 100 && (o.batch != [] ==> |o.batch| < 65536 && o.count < 200)
            && (o.link.Live? ==> Apply(o, FlushTimer).log.buffered == [])
            && (!o.stopped ==> Apply(o, Tick).batch == [] && Apply(o, Tick).wire == o.wire + o.batch)
  {
    if acts != [] {
      NothingIsHeldBack(version, acts[..|acts| - 1]);
      StepStaysSmall(After(version, acts[..|acts| - 1]), acts[|acts| - 1]);
    }
    RunKeepsInv(version, acts);
    assert After(version, acts).wire + [] == After(version, acts).wire;
  }

  /** The sender takes what is next in the channel. */
  lemma SenderTakesTheNext(o: Output)
    requires Inv(o) && !o.stopped && o.channel != []
    ensures var o' := Apply(o, Receive);
            && o'.link == o.link && (o.channel[0].Shutdown? ==> o'.stopped)
            && (o.channel[0].Send? ==>
                  !o'.stopped && o'.channel == o.channel[1..] && o'.log.taken == o.log.taken + 1)
  {
  }

  /** `all` goes on from `acts` without writing. */
  ghost predicate GoesOn(acts: seq<Action>, all: seq<Action>) {
    acts <= all && forall i :: |acts| <= i < |all| ==> !all[i].Write? && !all[i].SetLimit?
  }

  lemma OneMore(version: ProtocolVersion, acts: seq<Action>, all: seq<Action>, a: Action)
    requires GoesOn(acts, all) && !a.Write? && !a.SetLimit?
    ensures GoesOn(acts, all + [a]) && After(version, all + [a]) == Apply(After(version, all), a)
  {
    assert (all + [a])[..|all|] == all;
  }

  /** From every state of every run the connection can be brought to its end: the buffer is flushed, the shutdown finds
      room, and the sender stops at it. */
  lemma ConnectionEnds(version: ProtocolVersion, acts: seq<Action>) returns (all: seq<Action>)
    ensures GoesOn(acts, all) && After(version, all).stopped
  {
    all := acts;
    if After(version, all).link.Live? {
      OneMore(version, acts, all, Disconnect);
      all := all + [Disconnect];
    }
    if After(version, all).link.Closing? {
      all := ShutDown(version, acts, all);
    }
    all := TakeAll(version, acts, all);
  }

  /** The sender takes a batch if the channel is full, and the command fits in. */
  lemma ShutDown(version: ProtocolVersion, acts: seq<Action>, all: seq<Action>) returns (all': seq<Action>)
    requires GoesOn(acts, all) && After(version, all).link.Closing?
    ensures GoesOn(acts, all') && After(version, all').link.Gone?
  {
    all' := all;
    ChannelIsBounded(version, all);
    RunKeepsInv(version, all);
    if |After(version, all).channel| == CHANNEL_CAPACITY {
      SenderTakesTheNext(After(version, all));
      OneMore(version, acts, all, Receive);
      all' := all + [Receive];
    }
    OneMore(version, acts, all', SendShutdown);
    all' := all' + [SendShutdown];
  }

  lemma {:induction false} TakeAll(version: ProtocolVersion, acts: seq<Action>, all: seq<Action>)
      returns (all': seq<Action>)
    requires GoesOn(acts, all) && After(version, all).link.Gone?
    ensures GoesOn(acts, all') && After(version, all').stopped
    decreases |After(version, all).channel|
  {
    all' := all;
    if !After(version, all).stopped {
      RunKeepsInv(version, all);
      GoneHasShutdown(version, all);
      SenderTakesTheNext(After(version, all));
      OneMore(version, acts, all, Receive);
      all' := all + [Receive];
      if !After(version, all').stopped {
        all' := TakeAll(version, acts, all');
      }
    }
  }

  predicate EndsInShutdown(channel: seq<Command>) {
    channel != [] && channel[|channel| - 1].Shutdown?
  }

  lemma StepKeepsShutdown(o: Output, a: Action)
    requires o.link.Gone? && !o.stopped ==> EndsInShutdown(o.channel)
    ensures Apply(o, a).link.Gone? && !Apply(o, a).stopped ==> EndsInShutdown(Apply(o, a).channel)
  {
    match a
    case Receive =>
      if !o.stopped && o.channel != [] && o.channel[0].Send? {
        assert Received(o).channel == o.channel[1..] && Received(o).link == o.link;
        assert |o.channel| > 1 ==> o.channel[1..][|o.channel| - 2] == o.channel[|o.channel| - 1];
      }
    case _ =>
  }

  /** Once told to shut down, the sender has stopped or has the command before it. */
  lemma {:induction false} GoneHasShutdown(version: ProtocolVersion, acts: seq<Action>)
    ensures var o := After(version, acts);
            o.link.Gone? && !o.stopped ==> EndsInShutdown(o.channel)
  {
    if acts != [] {
      GoneHasShutdown(version, acts[..|acts| - 1]);
      StepKeepsShutdown(After(version, acts[..|acts| - 1]), acts[|acts| - 1]);
    }
  }

  // ---- the code ----

  /** The fields of the connection actor and of its network sender, with the channel between them. */
  class Connection {
    const version: ProtocolVersion
    var maximumPacketSize: Option<nat>
    var link: Link
    var encodeBuffer: Bytes
    var pendingCount: nat
    var channel: seq<Command>
    var batch: Bytes
    var msgCount: nat
    var wire: Bytes
    var stopped: bool
    var messagesDropped: nat
    ghost var log: Log

    ghost function View(): Output
      reads this
    {
      Output(version, maximumPacketSize, link, encodeBuffer, pendingCount, channel, batch, msgCount, wire, stopped,
             messagesDropped, log)
    }

    constructor (version: ProtocolVersion)
      ensures View() == Opened(version)
    {
      this.version := version;
      maximumPacketSize, link, encodeBuffer, pendingCount, channel := None, Live, [], 0, [];
      batch, msgCount, wire, stopped, messagesDropped := [], 0, [], false, 0;
      log := Log([], [], [], 0, 0);
    }

    method TrySend(data: Bytes) returns (ok: bool)
      modifies this
      ensures ok <==> |old(channel)| < CHANNEL_CAPACITY && !stopped
      ensures View() == if ok then old(View()).(channel := old(channel) + [Send(data)]) else old(View())
    {
      ok := |channel| < CHANNEL_CAPACITY && !stopped;
      if ok {
        channel := channel + [Send(data)];
      }
    }

    method FlushBatch()
      modifies this
      ensures View() == Flushed(old(View()))
    {
      if pendingCount == 0 {
        return;
      }
      if link == Live {
        var data := encodeBuffer;
        encodeBuffer := [];
        var ok := TrySend(data);
        pendingCount := 0;
        log := log.(batches := log.batches + [Batch(log.buffered, !ok)], buffered := []);
      }
    }

    method WritePacketToClient(packet: Bytes, isPublish: bool, expired: bool) returns (reply: Reply)
      modifies this
      ensures (View(), reply) == PacketWritten(old(View()), packet, isPublish, expired)
    {
      if link != Live {
        return Closed;
      }
      if expired {
        return Ok;
      }
      if version == V5_0 && maximumPacketSize.Some? && |packet| > maximumPacketSize.value {
        if isPublish {
          messagesDropped := messagesDropped + 1;
          return Ok;
        }
        return TooLarge;
      }
      encodeBuffer := encodeBuffer + packet;
      pendingCount := pendingCount + 1;
      log := log.(accepted := log.accepted + [packet], buffered := log.buffered + [packet]);
      if pendingCount >= BATCH_SIZE {
        FlushBatch();
      }
      reply := Ok;
    }

    method Flush()
      modifies this
      ensures View() == BatchWritten(old(View()))
    {
      if batch == [] {
        return;
      }
      wire := wire + batch;
      batch, msgCount := [], 0;
      log := log.(written := log.taken);
    }

    /** One turn of the sender's main loop that finds a command. */
    method HandleCommand()
      requires channel != [] && !stopped
      modifies this
      ensures View() == Received(old(View()))
    {
      var command := channel[0];
      channel := channel[1..];
      if command.Shutdown? {
        CleanUp();
        return;
      }
      batch := batch + command.data;
      msgCount := msgCount + 1;
      log := log.(taken := log.taken + 1);
      if |batch| >= FLUSH_BYTES || msgCount >= FLUSH_COUNT {
        Flush();
      }
    }

    method HandleTick()
      requires !stopped
      modifies this
      ensures View() == Ticked(old(View()))
    {
      Flush();
    }

    /** After the main loop: the batch, then whatever the channel still holds. */
    method CleanUp()
      modifies this
      ensures View() == CleanedUp(old(View()))
    {
      ghost var o := View();
      Flush();
      ghost var o1 := View();
      DrainChannel();
      ghost var o2 := View();
      Flush();
      CleanUpAmountsTo(o, o1, o2, View());
      stopped, msgCount := true, 0;
      log := log.(written := log.taken);
    }

    method DrainChannel()
      modifies this`batch, this`channel, this`log
      ensures batch == old(batch) + Joined(Sends(old(channel))) && channel == []
      ensures log == old(log).(taken := old(log).taken + |Sends(old(channel))|)
    {
      var all, i := channel, 0;
      while i < |all|
        invariant 0 <= i <= |all| && channel == all[i..]
        invariant batch == old(batch) + Joined(Sends(all[..i]))
        invariant log == old(log).(taken := old(log).taken + |Sends(all[..i])|)
      {
        DrainNext(all, i);
        if all[i].Send? {
          batch := batch + all[i].data;
          log := log.(taken := log.taken + 1);
        }
        i := i + 1;
        channel := all[i..];
      }
      assert all[..i] == all;
    }
  }

  lemma CleanUpAmountsTo(o: Output, o1: Output, o2: Output, o3: Output)
    requires o1 == BatchWritten(o) && o3 == BatchWritten(o2)
    requires var rest := Sends(o.channel);
             o2 == o1.(batch := o1.batch + Joined(rest), channel := [], log := o1.log.(taken := o1.log.taken + |rest|))
    ensures o3.(stopped := true, count := 0, log := o3.log.(written := o3.log.taken)) == CleanedUp(o)
  {
    var rest := Sends(o.channel);
    assert o1.wire == o.wire + o.batch && o1.batch == [];
    assert o3.wire == o1.wire + Joined(rest) && o3.batch == [];
  }

  lemma DrainNext(all: seq<Command>, i: nat)
    requires i < |all|
    ensures Sends(all[..i + 1]) == Sends(all[..i]) + (if all[i].Send? then [all[i].data] else [])
    ensures Joined(Sends(all[..i + 1])) == Joined(Sends(all[..i])) + (if all[i].Send? then all[i].data else [])
  {
    SendsConcat(all[..i], [all[i]]);
    assert all[..i + 1] == all[..i] + [all[i]];
    assert Sends([all[i]]) == if all[i].Send? then [all[i].data] else [];
    if all[i].Send? {
      JoinedConcat(Sends(all[..i]), [all[i].data]);
      assert Joined([all[i].data]) == all[i].data;
    } else {
      assert Sends(all[..i]) + [] == Sends(all[..i]);
    }
  }
}
