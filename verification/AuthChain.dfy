/** The chain of authentication plugins: an early-exit loop over the registered hooks, and the order-free rule it
    amounts to. */
module AuthChain {
  import opened MqttTypes

  type Name = nat
  type Tenant = nat

  datatype Hook = Hook(plugin: Name, instance: nat)

  /** What comes of a call: an approval for a tenant, a denial, no answer in time, a failed call, or a response that
      is missing, of another type or cannot be decoded. */
  datatype Answer =
    | Approved(tenant: Option<Tenant>)
    | Denied(tenant: Option<Tenant>)
    | TimedOut
    | CallFailed
    | Unusable

  datatype Plugin = Plugin(authCode: nat, isRunning: bool, hasSender: bool, answer: Answer)

  datatype Verdict = Verdict(authenticated: bool, tenant: Option<Tenant>)

  const REJECTED := Verdict(false, None)

  // ---- the order-free rule ----

  /** There is somebody to call: the plugin is there, is the instance that registered the hook, runs, and has a
      sender. */
  predicate Callable(hook: Hook, running: map<Name, Plugin>) {
    && hook.plugin in running && running[hook.plugin].authCode == hook.instance
    && running[hook.plugin].isRunning && running[hook.plugin].hasSender
  }

  /** The call of the hook `i` gives this answer. */
  predicate SaysAt(hooks: seq<Hook>, running: map<Name, Plugin>, i: nat, answer: Answer) {
    i < |hooks| && Callable(hooks[i], running) && running[hooks[i].plugin].answer == answer
  }

  ghost predicate Says(hooks: seq<Hook>, running: map<Name, Plugin>, answer: Answer) {
    exists i :: 0 <= i < |hooks| && SaysAt(hooks, running, i, answer)
  }

  ghost predicate SomeoneApproves(hooks: seq<Hook>, running: map<Name, Plugin>) {
    exists tenant :: Says(hooks, running, Approved(tenant))
  }

  ghost predicate NobodyObjects(hooks: seq<Hook>, running: map<Name, Plugin>) {
    !Says(hooks, running, TimedOut) && forall tenant :: !Says(hooks, running, Denied(tenant))
  }

  ghost predicate OneTenant(hooks: seq<Hook>, running: map<Name, Plugin>) {
    forall a, b :: Says(hooks, running, Approved(a)) && Says(hooks, running, Approved(b)) ==> a == b
  }

  ghost predicate Accepts(hooks: seq<Hook>, running: map<Name, Plugin>) {
    SomeoneApproves(hooks, running) && NobodyObjects(hooks, running) && OneTenant(hooks, running)
  }

  /** The hooks before `i` neither object nor approve for two tenants, and the one at `i` denies. */
  ghost predicate FirstDenies(hooks: seq<Hook>, running: map<Name, Plugin>, i: nat, tenant: Option<Tenant>) {
    && SaysAt(hooks, running, i, Denied(tenant))
    && NobodyObjects(hooks[..i], running) && OneTenant(hooks[..i], running)
  }

  /** The verdict is that of the rule. Accepted, it has the tenant of every approval; rejected, that of the denial the
      chain came to, and none if it did not come to one. */
  ghost predicate Follows(v: Verdict, hooks: seq<Hook>, running: map<Name, Plugin>) {
    && (v.authenticated <==> Accepts(hooks, running))
    && (v.authenticated ==> forall tenant :: Says(hooks, running, Approved(tenant)) ==> tenant == v.tenant)
    && (!v.authenticated ==>
          || (exists i :: FirstDenies(hooks, running, i, v.tenant))
          || (v.tenant.None? && forall i, tenant :: !FirstDenies(hooks, running, i, tenant)))
  }

  // ---- the loop ----

  /** What the calls so far amount to: no objection, and one tenant, which is the verdict's, or no approval. */
  ghost predicate SoFar(v: Verdict, isFirstCalled: bool, hooks: seq<Hook>, running: map<Name, Plugin>) {
    && NobodyObjects(hooks, running)
    && (isFirstCalled ==> v == REJECTED && !SomeoneApproves(hooks, running))
    && (!isFirstCalled ==> v.authenticated && Says(hooks, running, Approved(v.tenant)))
    && (!isFirstCalled ==> forall tenant :: Says(hooks, running, Approved(tenant)) ==> tenant == v.tenant)
  }

  /** What one more call adds. */
  lemma SaysNext(hooks: seq<Hook>, running: map<Name, Plugin>, i: nat, answer: Answer)
    requires i < |hooks|
    ensures Says(hooks[..i + 1], running, answer) <==>
              Says(hooks[..i], running, answer) || SaysAt(hooks, running, i, answer)
    ensures Says(hooks[..i + 1], running, answer) ==> Says(hooks, running, answer)
  {
    var before, upto := hooks[..i], hooks[..i + 1];
    if Says(before, running, answer) {
      var j :| 0 <= j < i && SaysAt(before, running, j, answer);
      assert SaysAt(upto, running, j, answer) && SaysAt(hooks, running, j, answer);
    }
    if SaysAt(hooks, running, i, answer) {
      assert SaysAt(upto, running, i, answer);
    }
    if Says(upto, running, answer) {
      var j :| 0 <= j < i + 1 && SaysAt(upto, running, j, answer);
      assert SaysAt(hooks, running, j, answer) && (j < i ==> SaysAt(before, running, j, answer));
    }
  }

  /** The chain comes to at most one denial. */
  lemma FirstDenialIsOne(hooks: seq<Hook>, running: map<Name, Plugin>, i: nat, a: Option<Tenant>, j: nat,
                         b: Option<Tenant>)
    requires FirstDenies(hooks, running, i, a) && FirstDenies(hooks, running, j, b)
    ensures i == j && a == b
  {
    if i < j {
      assert SaysAt(hooks[..j], running, i, Denied(a));
    } else if j < i {
      assert SaysAt(hooks[..i], running, j, Denied(b));
    }
  }

  /** The rule leaves no choice. */
  lemma VerdictIsUnique(v: Verdict, w: Verdict, hooks: seq<Hook>, running: map<Name, Plugin>)
    requires Follows(v, hooks, running) && Follows(w, hooks, running)
    ensures v == w
  {
    if v.authenticated {
      var tenant :| Says(hooks, running, Approved(tenant));
    } else if exists i :: FirstDenies(hooks, running, i, v.tenant) {
      var i :| FirstDenies(hooks, running, i, v.tenant);
      var j :| FirstDenies(hooks, running, j, w.tenant);
      FirstDenialIsOne(hooks, running, i, v.tenant, j, w.tenant);
    }
  }

  /** The answer to the call of a hook, if there is somebody to call. */
  function Reply(hook: Hook, running: map<Name, Plugin>): (reply: Option<Answer>)
    ensures reply.Some? <==> Callable(hook, running)
    ensures reply.Some? ==> reply.value == running[hook.plugin].answer
  {
    if hook.plugin !in running then None
    else
      var plugin := running[hook.plugin];
      if plugin.authCode != hook.instance || !plugin.isRunning || !plugin.hasSender then None else Some(plugin.answer)
  }

  lemma CallAdds(hooks: seq<Hook>, running: map<Name, Plugin>, i: nat)
    requires i < |hooks|
    ensures forall answer :: Says(hooks[..i + 1], running, answer) <==>
              Says(hooks[..i], running, answer) || SaysAt(hooks, running, i, answer)
    ensures forall answer :: Says(hooks[..i + 1], running, answer) ==> Says(hooks, running, answer)
  {
    forall answer
      ensures Says(hooks[..i + 1], running, answer) <==>
                Says(hooks[..i], running, answer) || SaysAt(hooks, running, i, answer)
      ensures Says(hooks[..i + 1], running, answer) ==> Says(hooks, running, answer)
    {
      SaysNext(hooks, running, i, answer);
    }
  }

  /** The chain ends at the hook `i`, with a denial or without one. */
  lemma EndsAt(hooks: seq<Hook>, running: map<Name, Plugin>, i: nat, v: Verdict)
    requires i < |hooks| && !v.authenticated && !Accepts(hooks, running)
    requires NobodyObjects(hooks[..i], running) && OneTenant(hooks[..i], running)
    requires SaysAt(hooks, running, i, Denied(v.tenant)) ||
             (v.tenant.None? && !(NobodyObjects(hooks[..i + 1], running) && OneTenant(hooks[..i + 1], running))
              && forall tenant :: !SaysAt(hooks, running, i, Denied(tenant)))
    ensures Follows(v, hooks, running)
  {
    if SaysAt(hooks, running, i, Denied(v.tenant)) {
      assert FirstDenies(hooks, running, i, v.tenant);
    } else {
      forall j: nat, tenant ensures !FirstDenies(hooks, running, j, tenant) {
        if j < i {
          assert SaysAt(hooks[..i], running, j, Denied(tenant)) <==> SaysAt(hooks, running, j, Denied(tenant));
        } else if i < j <= |hooks| {
          StopsAtOnce(hooks, running, i + 1, j);
        }
      }
    }
  }

  /** What is said early is said. */
  lemma StopsAtOnce(hooks: seq<Hook>, running: map<Name, Plugin>, i: nat, j: nat)
    requires i <= j <= |hooks|
    ensures NobodyObjects(hooks[..j], running) ==> NobodyObjects(hooks[..i], running)
    ensures OneTenant(hooks[..j], running) ==> OneTenant(hooks[..i], running)
  {
    forall answer | Says(hooks[..i], running, answer) ensures Says(hooks[..j], running, answer) {
      var k :| 0 <= k < |hooks[..i]| && SaysAt(hooks[..i], running, k, answer);
      assert SaysAt(hooks[..j], running, k, answer);
    }
  }

  /** Authenticates against the registered hooks; None stands for no registration at all. */
  method CallAuthenticateHook(hooks: Option<seq<Hook>>, running: map<Name, Plugin>, defaultResult: bool)
      returns (v: Verdict)
    ensures hooks.None? ==> v == Verdict(defaultResult, None)
    ensures hooks.Some? ==> Follows(v, hooks.value, running)
  {
    if hooks.None? {
      return Verdict(defaultResult, None);
    }
    var isFirstCalled, calledAnyPlugin := true, false;
    v := REJECTED;
    var i := 0;
    while i < |hooks.value|
      invariant 0 <= i <= |hooks.value|
      invariant SoFar(v, isFirstCalled, hooks.value[..i], running)
      invariant !calledAnyPlugin ==> isFirstCalled
    {
      var reply := Reply(hooks.value[i], running);
      CallAdds(hooks.value, running, i);
      if reply.None? {
        i := i + 1;
        continue;
      }
      calledAnyPlugin := true;
      assert SaysAt(hooks.value, running, i, reply.value);
      match reply.value {
        case Approved(tenant) =>
          if !isFirstCalled {
            if tenant != v.tenant {
              EndsAt(hooks.value, running, i, REJECTED);
              return REJECTED;
            }
          } else {
            isFirstCalled := false;
          }
          v := Verdict(true, tenant);
        case Denied(tenant) =>
          EndsAt(hooks.value, running, i, Verdict(false, tenant));
          return Verdict(false, tenant);
        case TimedOut =>
          EndsAt(hooks.value, running, i, REJECTED);
          return REJECTED;
        case _ =>
      }
      i := i + 1;
    }
    assert hooks.value[..i] == hooks.value;
    NoDenial(hooks.value, running);
    if !calledAnyPlugin {
      return REJECTED;
    }
  }

  lemma NoDenial(hooks: seq<Hook>, running: map<Name, Plugin>)
    requires NobodyObjects(hooks, running)
    ensures forall i, tenant :: !FirstDenies(hooks, running, i, tenant)
  {
    forall i, tenant ensures !FirstDenies(hooks, running, i, tenant) {
      assert SaysAt(hooks, running, i, Denied(tenant)) ==> Says(hooks, running, Denied(tenant));
    }
  }

  // ---- what does not matter ----

  /** However the same hooks are ordered, the chain gives the same verdict and accepts for the same tenant. */
  lemma ChainIsOrderFree(a: seq<Hook>, b: seq<Hook>, running: map<Name, Plugin>, va: Verdict, vb: Verdict)
    requires multiset(a) == multiset(b)
    requires Follows(va, a, running) && Follows(vb, b, running)
    ensures va.authenticated == vb.authenticated
    ensures va.authenticated ==> va.tenant == vb.tenant
  {
    forall answer ensures Says(a, running, answer) <==> Says(b, running, answer) {
      if Says(a, running, answer) {
        var i :| 0 <= i < |a| && SaysAt(a, running, i, answer);
        assert a[i] in multiset(b);
        var j :| 0 <= j < |b| && b[j] == a[i];
        assert SaysAt(b, running, j, answer);
      }
      if Says(b, running, answer) {
        var i :| 0 <= i < |b| && SaysAt(b, running, i, answer);
        assert b[i] in multiset(a);
        var j :| 0 <= j < |a| && a[j] == b[i];
        assert SaysAt(a, running, j, answer);
      }
    }
  }

  function Without(hooks: seq<Hook>, n: nat): seq<Hook>
    requires n < |hooks|
  {
    hooks[..n] + hooks[n + 1..]
  }

  lemma SaysWithout(hooks: seq<Hook>, running: map<Name, Plugin>, n: nat, answer: Answer)
    requires n < |hooks| && !Callable(hooks[n], running)
    ensures Says(Without(hooks, n), running, answer) <==> Says(hooks, running, answer)
  {
    var less := Without(hooks, n);
    if Says(hooks, running, answer) {
      var i :| 0 <= i < |hooks| && SaysAt(hooks, running, i, answer);
      assert SaysAt(less, running, if i < n then i else i - 1, answer);
    }
    if Says(less, running, answer) {
      var i :| 0 <= i < |less| && SaysAt(less, running, i, answer);
      assert SaysAt(hooks, running, if i < n then i else i + 1, answer);
    }
  }

  /** A hook whose plugin is gone, is another instance, does not run or has no sender makes no difference: without it
      the verdict is the same, tenant included. */
  lemma StaleHookIsIgnored(hooks: seq<Hook>, running: map<Name, Plugin>, n: nat, v: Verdict, w: Verdict)
    requires n < |hooks| && !Callable(hooks[n], running)
    requires Follows(v, hooks, running) && Follows(w, Without(hooks, n), running)
    ensures v == w
  {
    var less := Without(hooks, n);
    forall answer ensures Says(less, running, answer) <==> Says(hooks, running, answer) {
      SaysWithout(hooks, running, n, answer);
    }
    forall i: nat, tenant | FirstDenies(hooks, running, i, tenant)
      ensures FirstDenies(less, running, if i < n then i else i - 1, tenant)
    {
      DenialWithout(hooks, running, n, i, tenant);
    }
    forall i: nat, tenant | FirstDenies(less, running, i, tenant)
      ensures FirstDenies(hooks, running, if i < n then i else i + 1, tenant)
    {
      DenialWithout(hooks, running, n, if i < n then i else i + 1, tenant);
    }
    assert Follows(w, hooks, running);
    VerdictIsUnique(v, w, hooks, running);
  }

  lemma DenialWithout(hooks: seq<Hook>, running: map<Name, Plugin>, n: nat, i: nat, tenant: Option<Tenant>)
    requires n < |hooks| && !Callable(hooks[n], running) && i != n
    ensures FirstDenies(hooks, running, i, tenant) <==>
              FirstDenies(Without(hooks, n), running, if i < n then i else i - 1, tenant)
  {
    var less, j := Without(hooks, n), if i < n then i else i - 1;
    if i < |hooks| {
      if i < n {
        assert less[..j] == hooks[..i];
      } else {
        assert hooks[..i][n] == hooks[n] && less[..j] == Without(hooks[..i], n);
        forall answer ensures Says(less[..j], running, answer) <==> Says(hooks[..i], running, answer) {
          SaysWithout(hooks[..i], running, n, answer);
        }
      }
    }
  }
}
