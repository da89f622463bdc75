/** Shared subscriptions: each publish goes to one member of the group, picked round robin. */
module SharedSubscription {
  import opened MqttTypes

  /** Client identifiers; only their order matters. */
  type ClientId = nat

  type GroupKey = nat

  /** A subscription in the group; `options` stands for what else it says (QoS, retain as published). */
  datatype Candidate = Candidate(client: ClientId, noLocal: bool, options: nat)

  /** What comes of handing a publish to a member. */
  datatype Attempt = Delivered | Unroutable | Failed

  /** What comes of handing it to the group: the member at an index of the sorted list, nobody, or an error that
      ends routing. */
  datatype Outcome = To(index: nat) | Dropped | Aborted

  // ---- selection ----

  /** The member `j` after `start`, cyclically. */
  function After(n: nat, start: nat, j: nat): (x: nat)
    requires n > 0
    ensures x < n
  {
    (start + j) % n
  }

  /** The first member at or after `start`, cyclically, from the `i`-th on, that is not unroutable. */
  function FirstFrom(attempts: seq<Attempt>, start: nat, i: nat): (r: Option<nat>)
    requires attempts != [] && i <= |attempts|
    ensures r.Some? ==> r.value < |attempts| && attempts[r.value] != Unroutable
    ensures r.None? ==> forall j :: i <= j < |attempts| ==> attempts[After(|attempts|, start, j)] == Unroutable
    decreases |attempts| - i
  {
    if i == |attempts| then None
    else if attempts[After(|attempts|, start, i)] != Unroutable then Some(After(|attempts|, start, i))
    else FirstFrom(attempts, start, i + 1)
  }

  function Chosen(attempts: seq<Attempt>, cursor: nat): Option<nat>
    requires attempts != []
  {
    FirstFrom(attempts, cursor % |attempts|, 0)
  }

  function Routed(attempts: seq<Attempt>, cursor: nat): Outcome
    requires attempts != []
  {
    match Chosen(attempts, cursor)
    case None => Dropped
    case Some(i) => if attempts[i].Delivered? then To(i) else Aborted
  }

  /** The `j`-th member from the cursor on, cyclically, is the first that is not unroutable. */
  predicate IsFirst(attempts: seq<Attempt>, cursor: nat, j: nat)
    requires attempts != []
  {
    && j < |attempts| && attempts[(cursor % |attempts| + j) % |attempts|] != Unroutable
    && forall i :: 0 <= i < j ==> attempts[After(|attempts|, cursor % |attempts|, i)] == Unroutable
  }

  lemma {:induction false} FirstIsFound(attempts: seq<Attempt>, cursor: nat, i: nat) returns (j: nat)
    requires attempts != [] && i <= |attempts|
    requires forall k :: 0 <= k < i ==> attempts[After(|attempts|, cursor % |attempts|, k)] == Unroutable
    ensures var first := FirstFrom(attempts, cursor % |attempts|, i);
            first.Some? ==> IsFirst(attempts, cursor, j) && first.value == (cursor % |attempts| + j) % |attempts|
    decreases |attempts| - i
  {
    j := i;
    if i < |attempts| && attempts[After(|attempts|, cursor % |attempts|, i)] == Unroutable {
      j := FirstIsFound(attempts, cursor, i + 1);
    }
  }

  /** Each publish is handed to the first member from the cursor on, cyclically, that is not unroutable: it reaches that
      one, or, if handing it over fails, routing ends there. It reaches none exactly when all are unroutable. */
  lemma PublishReachesOneMember(attempts: seq<Attempt>, cursor: nat) returns (j: nat)
    requires attempts != []
    ensures match Routed(attempts, cursor)
            case To(i) =>
              IsFirst(attempts, cursor, j) && i == (cursor % |attempts| + j) % |attempts| && attempts[i] == Delivered
            case Dropped => forall x :: 0 <= x < |attempts| ==> attempts[x] == Unroutable
            case Aborted =>
              IsFirst(attempts, cursor, j) && attempts[(cursor % |attempts| + j) % |attempts|] == Failed
    ensures (exists x :: 0 <= x < |attempts| && attempts[x] != Unroutable) ==> !Routed(attempts, cursor).Dropped?
    ensures Failed !in attempts && Delivered in attempts ==> Routed(attempts, cursor).To?
  {
    var n, start := |attempts|, cursor % |attempts|;
    j := FirstIsFound(attempts, cursor, 0);
    if Chosen(attempts, cursor).None? {
      forall x | 0 <= x < n ensures attempts[x] == Unroutable {
        var k := if x >= start then x - start else x + n - start;
        ModWrap(start + k, n);
        assert attempts[After(n, start, k)] == Unroutable;
      }
    }
  }

  // ---- arithmetic ----

  lemma MulGrows(n: int, a: int, b: int)
    requires 0 < n && a > b
    ensures n * a >= n * b + n
  {
    MulPositive(n, a - b);
    assert n * a == n * b + n * (a - b);
  }

  lemma MulPositive(n: int, d: int)
    requires 0 < n && 1 <= d
    ensures n * d >= n
  {
  }

  lemma ModIs(x: int, n: int, q: int, r: int)
    requires 0 < n && x == n * q + r && 0 <= r < n
    ensures x % n == r
  {
    if x / n > q {
      MulGrows(n, x / n, q);
      assert false;
    } else if q > x / n {
      MulGrows(n, q, x / n);
      assert false;
    }
  }

  lemma ModWrap(x: int, n: int)
    requires 0 < n && 0 <= x < 2 * n
    ensures x % n == if x < n then x else x - n
  {
  }

  lemma ModPeriod(x: int, n: int)
    requires 0 < n && 0 <= x
    ensures (x + n) % n == x % n
  {
    assert x + n == n * (x / n + 1) + x % n;
    ModIs(x + n, n, x / n + 1, x % n);
  }

  lemma ModNext(x: int, n: int)
    requires 0 < n && 0 <= x
    ensures (x % n + 1) % n == (x + 1) % n
  {
    var q, r := x / n, x % n;
    if r + 1 < n {
      ModIs(x + 1, n, q, r + 1);
      ModIs(r + 1, n, 0, r + 1);
    } else {
      assert x + 1 == n * (q + 1) + 0;
      ModIs(x + 1, n, q + 1, 0);
      ModIs(r + 1, n, 1, 0);
    }
  }

  // ---- how often a member is reached ----

  /** How many of `k` publishes reach the member `m`, when the cursor is at `cursor` before the first. */
  function Received(attempts: seq<Attempt>, cursor: nat, k: nat, m: nat): nat
    requires attempts != []
    decreases k
  {
    if k == 0 then 0
    else (if Routed(attempts, cursor) == To(m) then 1 else 0)
         + Received(attempts, cursor % |attempts| + 1, k - 1, m)
  }

  /** The `e`-th member before `m`, cyclically. */
  function Before(n: nat, m: nat, e: nat): nat
    requires m < n && e <= n
  {
    (m + n - e) % n
  }

  /** How many members just before `m` are unroutable, from the `e`-th on. */
  function UnroutableFrom(attempts: seq<Attempt>, m: nat, e: nat): nat
    requires m < |attempts| && 1 <= e
    decreases |attempts| - e
  {
    if e < |attempts| && attempts[Before(|attempts|, m, e)] == Unroutable
    then 1 + UnroutableFrom(attempts, m, e + 1) else 0
  }

  function UnroutableBefore(attempts: seq<Attempt>, m: nat): nat
    requires m < |attempts|
  {
    UnroutableFrom(attempts, m, 1)
  }

  predicate AllUnroutable(attempts: seq<Attempt>, m: nat, d: nat)
    requires m < |attempts| && d < |attempts|
  {
    forall e :: 1 <= e <= d ==> attempts[Before(|attempts|, m, e)] == Unroutable
  }

  /** `d` members before `m` are unroutable exactly if `d` is no more than the count. */
  lemma {:induction false} CountsTheGap(attempts: seq<Attempt>, m: nat, e: nat, d: nat)
    requires m < |attempts| && 1 <= e && d < |attempts|
    ensures e + UnroutableFrom(attempts, m, e) <= Max(e, |attempts|)
    ensures d < e + UnroutableFrom(attempts, m, e) <==>
              forall j :: e <= j <= d ==> attempts[Before(|attempts|, m, j)] == Unroutable
    decreases |attempts| - e
  {
    if e < |attempts| && attempts[Before(|attempts|, m, e)] == Unroutable {
      CountsTheGap(attempts, m, e + 1, d);
    }
  }

  /** From `d` members before `m`, after `i` steps: selection ends at `m` exactly if all between are unroutable. */
  lemma {:induction false} SelectionEndsAt(attempts: seq<Attempt>, m: nat, d: nat, i: nat)
    requires m < |attempts| && attempts[m] != Unroutable && i <= d < |attempts|
    ensures FirstFrom(attempts, Before(|attempts|, m, d), i) == Some(m) <==> AllUnroutable(attempts, m, d - i)
    decreases d - i
  {
    var n := |attempts|;
    ModWrap(m + n - d, n);
    ModWrap(Before(n, m, d) + i, n);
    ModWrap(m + n - (d - i), n);
    assert (Before(n, m, d) + i) % n == Before(n, m, d - i);
    if i < d {
      SelectionEndsAt(attempts, m, d, i + 1);
    }
  }

  predicate Hits(attempts: seq<Attempt>, m: nat, x: nat)
    requires attempts != []
  {
    Chosen(attempts, x) == Some(m)
  }

  function Count(attempts: seq<Attempt>, m: nat, from: nat, k: nat): nat
    requires attempts != []
    decreases k
  {
    if k == 0 then 0 else (if Hits(attempts, m, from) then 1 else 0) + Count(attempts, m, from + 1, k - 1)
  }

  lemma {:induction false} CountAppends(attempts: seq<Attempt>, m: nat, from: nat, k: nat)
    requires attempts != []
    ensures Count(attempts, m, from, k + 1) ==
            Count(attempts, m, from, k) + (if Hits(attempts, m, from + k) then 1 else 0)
    decreases k
  {
    if k > 0 {
      CountAppends(attempts, m, from + 1, k - 1);
    }
  }

  /** A window of `n` publishes may start anywhere. */
  lemma {:induction false} WindowSlides(attempts: seq<Attempt>, m: nat, t: nat)
    requires attempts != []
    ensures Count(attempts, m, t, |attempts|) == Count(attempts, m, 0, |attempts|)
    decreases t
  {
    if t > 0 {
      WindowSlides(attempts, m, t - 1);
      CountAppends(attempts, m, t, |attempts| - 1);
      ModPeriod(t - 1, |attempts|);
      assert Hits(attempts, m, t - 1 + |attempts|) == Hits(attempts, m, t - 1);
    }
  }

  /** In the window that ends at `m`, only the last publishes reach it. */
  lemma {:induction false} WindowEnding(attempts: seq<Attempt>, m: nat, j: nat)
    requires m < |attempts| && attempts[m] != Unroutable && j <= |attempts|
    ensures Count(attempts, m, m + 1 + j, |attempts| - j) == Min(|attempts| - j, 1 + UnroutableBefore(attempts, m))
    decreases |attempts| - j
  {
    var n := |attempts|;
    CountsTheGap(attempts, m, 1, 0);
    if j < n {
      WindowEnding(attempts, m, j + 1);
      var d := n - 1 - j;
      ModWrap(m + 1 + j, n);
      ModWrap(m + n - d, n);
      assert (m + 1 + j) % n == Before(n, m, d);
      SelectionEndsAt(attempts, m, d, 0);
      CountsTheGap(attempts, m, 1, d);
    }
  }

  /** The cursor only matters up to whole rounds. */
  lemma {:induction false} ReceivedCounts(attempts: seq<Attempt>, cursor: nat, from: nat, k: nat, m: nat)
    requires attempts != [] && Failed !in attempts && cursor % |attempts| == from % |attempts| && m < |attempts|
    ensures Received(attempts, cursor, k, m) == Count(attempts, m, from, k)
    decreases k
  {
    if k > 0 {
      ModNext(cursor, |attempts|);
      ModNext(from, |attempts|);
      ReceivedCounts(attempts, cursor % |attempts| + 1, from + 1, k - 1, m);
      var _ := PublishReachesOneMember(attempts, cursor);
    }
  }

  /** Over any `n` consecutive publishes to a group of `n` members, from any cursor, a routable member receives
      exactly one publish and one more for every unroutable member just before it. */
  lemma GroupSharesExactly(attempts: seq<Attempt>, cursor: nat, m: nat)
    requires m < |attempts| && attempts[m] == Delivered && Failed !in attempts
    ensures Received(attempts, cursor, |attempts|, m) == 1 + UnroutableBefore(attempts, m)
  {
    var n := |attempts|;
    ReceivedCounts(attempts, cursor, cursor, n, m);
    WindowSlides(attempts, m, cursor);
    WindowSlides(attempts, m, m + 1);
    WindowEnding(attempts, m, 0);
    CountsTheGap(attempts, m, 1, 0);
  }

  // ---- the members of a group ----

  predicate Sorted(s: seq<Candidate>) {
    |s| <= 1 || (s[0].client <= s[1].client && Sorted(s[1..]))
  }

  function Inserted(s: seq<Candidate>, x: Candidate): (r: seq<Candidate>)
    requires Sorted(s)
    ensures Sorted(r) && r != [] && (r[0] == x || (s != [] && r[0] == s[0]))
  {
    if s == [] || x.client <= s[0].client then [x] + s
    else
      var rest := Inserted(s[1..], x);
      assert ([s[0]] + rest)[1..] == rest;
      [s[0]] + rest
  }

  function SortedMembers(s: seq<Candidate>): (r: seq<Candidate>)
    ensures Sorted(r)
  {
    if s == [] then [] else Inserted(SortedMembers(s[1..]), s[0])
  }

  lemma {:induction false} InsertedAdds(s: seq<Candidate>, x: Candidate)
    requires Sorted(s)
    ensures multiset(Inserted(s, x)) == multiset(s) + multiset{x}
  {
    if s != [] && x.client > s[0].client {
      InsertedAdds(s[1..], x);
      assert s == [s[0]] + s[1..];
    }
  }

  /** Sorting keeps the members. */
  lemma {:induction false} SortingKeepsMembers(s: seq<Candidate>)
    ensures multiset(SortedMembers(s)) == multiset(s)
  {
    if s != [] {
      SortingKeepsMembers(s[1..]);
      InsertedAdds(SortedMembers(s[1..]), s[0]);
      assert s == [s[0]] + s[1..];
    }
  }

  lemma {:induction false} HeadIsLeast(s: seq<Candidate>, x: Candidate)
    requires Sorted(s) && x in s
    ensures s[0].client <= x.client
  {
    if x != s[0] {
      assert s == [s[0]] + s[1..];
      HeadIsLeast(s[1..], x);
    }
  }

  /** The candidates a publish of `source` may go to. */
  function Eligible(candidates: seq<Candidate>, source: Option<ClientId>): seq<Candidate> {
    if candidates == [] then []
    else
      var last := candidates[|candidates| - 1];
      Eligible(candidates[..|candidates| - 1], source) +
      (if last.noLocal && source == Some(last.client) then [] else [last])
  }

  /** A subscription is left out exactly if it is the publisher's own and asks for that (No Local); the others stay,
      each as often as it was there. */
  lemma {:induction false} EligibleAreTheOthers(candidates: seq<Candidate>, source: Option<ClientId>, x: Candidate)
    ensures multiset(Eligible(candidates, source))[x] ==
            (if x.noLocal && source.Some? && source.value == x.client then 0 else multiset(candidates)[x])
    ensures x in Eligible(candidates, source) <==>
              x in candidates && !(x.noLocal && source.Some? && source.value == x.client)
  {
    if candidates != [] {
      var n := |candidates| - 1;
      EligibleAreTheOthers(candidates[..n], source, x);
      assert candidates == candidates[..n] + [candidates[n]];
    }
    assert x in Eligible(candidates, source) <==> x in multiset(Eligible(candidates, source));
    assert x in candidates <==> x in multiset(candidates);
  }

  /** The subscriptions of one client. */
  function Of(s: seq<Candidate>, client: ClientId): seq<Candidate> {
    if s == [] then [] else (if s[0].client == client then [s[0]] else []) + Of(s[1..], client)
  }

  lemma {:induction false} InsertedIsFirst(s: seq<Candidate>, x: Candidate, client: ClientId)
    requires Sorted(s)
    ensures Of(Inserted(s, x), client) == (if x.client == client then [x] else []) + Of(s, client)
  {
    if s != [] && x.client > s[0].client {
      InsertedIsFirst(s[1..], x, client);
      assert Inserted(s, x)[1..] == Inserted(s[1..], x);
    } else {
      assert Inserted(s, x)[1..] == s;
    }
  }

  /** Sorting is stable: the subscriptions of a client keep their order. */
  lemma {:induction false} SortingIsStable(s: seq<Candidate>, client: ClientId)
    ensures Of(SortedMembers(s), client) == Of(s, client)
  {
    if s != [] {
      SortingIsStable(s[1..], client);
      InsertedIsFirst(SortedMembers(s[1..]), s[0], client);
    }
  }

  /** No client has two different subscriptions in the group. */
  ghost predicate OnePerClient(s: seq<Candidate>) {
    forall x, y :: x in s && y in s && x.client == y.client ==> x == y
  }

  /** Two sorted lists of the same members are the same list, so selection does not depend on the order in which
      the subscriptions were found. */
  lemma {:induction false} SortedMembersAreUnique(a: seq<Candidate>, b: seq<Candidate>)
    requires Sorted(a) && Sorted(b) && multiset(a) == multiset(b) && OnePerClient(a)
    ensures a == b
    decreases |a|
  {
    assert |multiset(a)| == |a| && |multiset(b)| == |b|;
    if a != [] {
      assert a == [a[0]] + a[1..] && b == [b[0]] + b[1..];
      assert a[0] in multiset(b) && b[0] in multiset(a);
      HeadIsLeast(a, b[0]);
      HeadIsLeast(b, a[0]);
      assert a[0] in a && b[0] in a && a[0] == b[0];
      TailsAgree(a, b);
      assert forall x :: x in a[1..] ==> x in a;
      SortedMembersAreUnique(a[1..], b[1..]);
    }
  }

  lemma TailsAgree(a: seq<Candidate>, b: seq<Candidate>)
    requires a != [] && b != [] && a[0] == b[0] && multiset(a) == multiset(b)
    ensures multiset(a[1..]) == multiset(b[1..])
  {
    assert a == [a[0]] + a[1..] && b == [b[0]] + b[1..];
    assert multiset(a[1..]) == multiset(a) - multiset{a[0]};
    assert multiset(b[1..]) == multiset(b) - multiset{b[0]};
  }

  /** The stable sort by client gives the same list for every order of the subscriptions, provided no client has two
      different ones. */
  lemma OrderIsIrrelevant(a: seq<Candidate>, b: seq<Candidate>)
    requires multiset(a) == multiset(b) && OnePerClient(a)
    ensures SortedMembers(a) == SortedMembers(b)
  {
    SortingKeepsMembers(a);
    SortingKeepsMembers(b);
    forall x ensures x in SortedMembers(a) <==> x in a {
      assert x in multiset(SortedMembers(a)) <==> x in multiset(a);
    }
    SortedMembersAreUnique(SortedMembers(a), SortedMembers(b));
  }

  /** What the members answer. */
  function Attempts(members: seq<Candidate>, attempt: Candidate -> Attempt): seq<Attempt> {
    seq(|members|, i requires 0 <= i < |members| => attempt(members[i]))
  }

  /** The router's cursors, one for each group, and its count of dropped messages. */
  class GroupCursors {
    var cursors: map<GroupKey, nat>
    var dropped: nat

    constructor ()
      ensures cursors == map[] && dropped == 0
    {
      cursors, dropped := map[], 0;
    }

    /** Routes a publish of `source` to one member of the group: None if nobody is eligible. */
    method RouteToGroup(key: GroupKey, candidates: seq<Candidate>, source: Option<ClientId>,
                        attempt: Candidate -> Attempt)
        returns (outcome: Option<Outcome>)
      modifies this
      ensures var members := SortedMembers(Eligible(candidates, source));
              var cursor := if key in old(cursors) then old(cursors)[key] else 0;
              if members == [] then
                outcome.None? && cursors == old(cursors) && dropped == old(dropped)
              else
                && outcome == Some(Routed(Attempts(members, attempt), cursor))
                && cursors == old(cursors)[key := cursor % |members| + 1]
                && dropped == old(dropped) + (if outcome.value.Dropped? then 1 else 0)
    {
      var eligible := CollectEligible(candidates, source);
      var members := SortedMembers(eligible);
      if members == [] {
        return None;
      }
      var entry := if key in cursors then cursors[key] else 0;
      var start := entry % |members|;
      cursors := cursors[key := start + 1];
      var index := FindRoutable(members, start, attempt);
      if index.None? {
        dropped := dropped + 1;
        return Some(Dropped);
      }
      outcome := Some(if attempt(members[index.value]) == Delivered then To(index.value) else Aborted);
    }
  }

  /** Leaves out the publisher's own subscriptions that ask for it. */
  method CollectEligible(candidates: seq<Candidate>, source: Option<ClientId>) returns (eligible: seq<Candidate>)
    ensures eligible == Eligible(candidates, source)
  {
    eligible := [];
    var c := 0;
    while c < |candidates|
      invariant 0 <= c <= |candidates|
      invariant eligible == Eligible(candidates[..c], source)
    {
      assert candidates[..c + 1][..c] == candidates[..c];
      if !(candidates[c].noLocal && source == Some(candidates[c].client)) {
        eligible := eligible + [candidates[c]];
      }
      c := c + 1;
    }
    assert candidates[..c] == candidates;
  }

  /** Tries the members in turn, from `start` on. */
  method FindRoutable(members: seq<Candidate>, start: nat, attempt: Candidate -> Attempt) returns (index: Option<nat>)
    requires start < |members|
    ensures index == FirstFrom(Attempts(members, attempt), start, 0)
  {
    var i := 0;
    while i < |members|
      invariant 0 <= i <= |members|
      invariant FirstFrom(Attempts(members, attempt), start, i) == FirstFrom(Attempts(members, attempt), start, 0)
    {
      if attempt(members[(start + i) % |members|]) != Unroutable {
        return Some((start + i) % |members|);
      }
      i := i + 1;
    }
    index := None;
  }
}
