/** Message expiry (section 3.3.2.3.3 of MQTT 5.0): a relative interval is turned into an absolute
    deadline once, and turned back into a remaining interval at every delivery. */
module MessageExpiry {
  import opened MqttTypes

  function Stamped(p: Publish, now: u64): Publish {
    if p.expiresAt.None? && p.messageExpiryInterval.Some?
    then p.(expiresAt := Some(SaturatingAdd(now, p.messageExpiryInterval.value)))
    else p
  }

  predicate IsExpired(p: Publish, now: u64) {
    p.expiresAt.Some? && now >= p.expiresAt.value
  }

  /** The publish as it goes out at `now`, or None when it is refused. */
  function Prepared(p: Publish, version: ProtocolVersion, now: u64): Option<Publish> {
    if p.expiresAt.None? then Some(p)
    else if now >= p.expiresAt.value then None
    else if version.V5_0?
    then Some(p.(messageExpiryInterval := Some(Min(SaturatingSub(p.expiresAt.value, now), U32_MAX))))
    else Some(p)
  }

  /** When the router gives up on a route created at `now`. */
  function RouteExpiryAt(p: Publish, routeTtl: u64, now: u64): u64 {
    var routeExpiry := SaturatingAdd(now, routeTtl);
    if p.expiresAt.Some? then Min(p.expiresAt.value, routeExpiry) else routeExpiry
  }

  // ---- what these mean ----

  predicate HasExpired(packet: Publish, now: u64) {
    packet.expiresAt.Some? && packet.expiresAt.value <= now
  }

  /** A publish that has expired is one that is refused. */
  lemma ExpiredIsRefused(p: Publish, version: ProtocolVersion, now: u64)
    ensures IsExpired(p, now) <==> HasExpired(p, now)
    ensures Prepared(p, version, now).None? <==> HasExpired(p, now)
  {
  }

  /** The earlier of the packet's own deadline, if it has one, and the time to live. */
  predicate IsRouteDeadline(expiryAt: u64, packet: Publish, ttlOver: u64) {
    && expiryAt <= ttlOver && (packet.expiresAt.Some? ==> expiryAt <= packet.expiresAt.value)
    && (expiryAt == ttlOver || packet.expiresAt == Some(expiryAt))
  }

  lemma DeadlineIsTheEarlier(packet: Publish, ttl: u64, now: u64)
    ensures var expiryAt := RouteExpiryAt(packet, ttl, now);
            && IsRouteDeadline(expiryAt, packet, SaturatingAdd(now, ttl))
            && (expiryAt <= now <==> HasExpired(packet, now) || SaturatingAdd(now, ttl) <= now)
  {
  }

  /** A publish that is updated in place on its way through the broker. */
  class PublishBuffer {
    var publish: Publish

    constructor (p: Publish)
      ensures publish == p
    {
      publish := p;
    }

    method StampPublishExpiry(now: u64)
      modifies this
      ensures publish == Stamped(old(publish), now)
    {
      if publish.expiresAt.None? {
        if publish.messageExpiryInterval.Some? {
          publish := publish.(expiresAt := Some(SaturatingAdd(now, publish.messageExpiryInterval.value)));
        }
      }
    }

    method PreparePublishForDelivery(version: ProtocolVersion, now: u64) returns (deliver: bool)
      modifies this
      ensures deliver == Prepared(old(publish), version, now).Some?
      ensures publish == if deliver then Prepared(old(publish), version, now).value else old(publish)
    {
      if publish.expiresAt.None? {
        return true;
      }
      var expiresAt := publish.expiresAt.value;
      if now >= expiresAt {
        return false;
      }
      if version == V5_0 {
        var remaining: u32 := Min(SaturatingSub(expiresAt, now), U32_MAX);
        publish := publish.(messageExpiryInterval := Some(remaining));
      }
      return true;
    }
  }

  /** One thing a hop (session, router, store, connection) may do to a publish. */
  datatype Hop = Stamp(at: u64) | Prepare(version: ProtocolVersion, at: u64)

  ghost predicate NonDecreasing(hops: seq<Hop>, from: u64) {
    && (forall i :: 0 <= i < |hops| ==> from <= hops[i].at)
    && (forall i, j :: 0 <= i < j < |hops| ==> hops[i].at <= hops[j].at)
  }

  /** The publish after all hops, or None as soon as one of them refuses it. */
  function AfterHops(p: Publish, hops: seq<Hop>): Option<Publish>
    decreases |hops|
  {
    if hops == [] then Some(p)
    else
      var before := AfterHops(p, hops[..|hops| - 1]);
      if before.None? then None
      else match hops[|hops| - 1]
        case Stamp(at) => Some(Stamped(before.value, at))
        case Prepare(version, at) => Prepared(before.value, version, at)
  }

  ghost predicate RefusedBy(hops: seq<Hop>, deadline: u64) {
    exists i :: 0 <= i < |hops| && hops[i].Prepare? && hops[i].at >= deadline
  }

  /** Everything a run of hops can do to a stamped publish: nothing but the interval changes, the
      deadline stays, and a refusal means a preparation at or after the deadline. */
  lemma {:induction false} HopsKeepDeadline(p: Publish, hops: seq<Hop>)
    requires p.expiresAt.Some?
    ensures AfterHops(p, hops).None? <==> RefusedBy(hops, p.expiresAt.value)
    ensures AfterHops(p, hops).Some? ==>
              exists left :: AfterHops(p, hops).value == p.(messageExpiryInterval := left)
    decreases |hops|
  {
    if hops == [] {
      assert p == p.(messageExpiryInterval := p.messageExpiryInterval);
    } else {
      var init := hops[..|hops| - 1];
      HopsKeepDeadline(p, init);
      assert forall i :: 0 <= i < |init| ==> init[i] == hops[i];
      if AfterHops(p, hops).Some? {
        var left :| AfterHops(p, init).value == p.(messageExpiryInterval := left);
        var out := AfterHops(p, hops).value;
        assert out == p.(messageExpiryInterval := out.messageExpiryInterval);
      }
    }
  }

  /** Expiry telescopes: a publish stamped at `s` with interval `i` and then stamped and prepared any
      number of times at non-decreasing times behaves as if it had been prepared once, at the last
      time `t`. It is refused exactly when `t` has reached `s + i` (saturating); otherwise an MQTT 5
      receiver sees the seconds that are left, never more than `i`, so the clamp to `u32` is idle. */
  lemma ExpiryTelescopes(p: Publish, s: u64, hops: seq<Hop>, version: ProtocolVersion, t: u64)
    requires p.expiresAt.None? && p.messageExpiryInterval.Some?
    requires NonDecreasing(hops + [Prepare(version, t)], s)
    ensures var i := p.messageExpiryInterval.value;
            var out := AfterHops(Stamped(p, s), hops + [Prepare(version, t)]);
            && (out.None? <==> t >= SaturatingAdd(s, i))
            && (out.None? <==> Prepared(Stamped(p, s), version, t).None?)
            && (version.V5_0? ==> out == Prepared(Stamped(p, s), version, t))
            && (version.V5_0? && out.Some? ==>
                  && out.value.messageExpiryInterval == Some(SaturatingAdd(s, i) - t)
                  && SaturatingAdd(s, i) - t <= i)
  {
    var stamped := Stamped(p, s);
    var all := hops + [Prepare(version, t)];
    var deadline := stamped.expiresAt.value;
    HopsKeepDeadline(stamped, all);
    HopsKeepDeadline(stamped, hops);
    assert all[..|all| - 1] == hops;
    assert all[|hops|] == Prepare(version, t);
    assert forall k :: 0 <= k < |all| ==> all[k].at <= t;
    assert forall k :: 0 <= k < |hops| ==> hops[k] == all[k];
  }

  /** A publish that carries no interval is never refused and never touched by any hop. */
  lemma {:induction false} NoIntervalNeverExpires(p: Publish, hops: seq<Hop>)
    requires p.expiresAt.None? && p.messageExpiryInterval.None?
    ensures AfterHops(p, hops) == Some(p)
    decreases |hops|
  {
    if hops != [] {
      NoIntervalNeverExpires(p, hops[..|hops| - 1]);
    }
  }
}
