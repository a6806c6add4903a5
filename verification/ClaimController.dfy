/**
 * The reconciler of server claims, call by call. Each method performs, up to its first failing call, a plan of World.
 */
module ClaimController {
  import opened Options
  import opened Metal
  import opened World
  import opened ApiServer

  // ----- the searches, which only read -----

  /** What a claim asks of a server that it names or selects. */
  predicate Suits(s: Server, c: Claim) {
    && (s.claimRef.None? || s.claimRef.value.uid == c.uid)
    && (s.state == Available || s.state == Reserved)
    && s.powerState == Off
    && (c.selector.Some? ==> forall r :: r in c.selector.value ==> Meets(s.labels, r))
  }

  /** The first listed server that already refers to this claim. */
  method CheckForPrevUsedServer(servers: map<Name, Server>, order: seq<Name>, key: Key,
                                c: Claim) returns (r: Option<Name>)
    ensures r == PreviouslyUsed(servers, order, key, c)
    ensures r.Some? ==> r.value in servers && servers[r.value].claimRef == Some(ClaimRef(key, c.uid))
    ensures r.Some? ==> exists i :: 0 <= i < |order| && order[i] == r.value
                          && forall j :: 0 <= j < i && order[j] in servers ==> !Own(servers[order[j]], key, c.uid)
    ensures r.None? ==> forall j :: 0 <= j < |order| && order[j] in servers ==>
                                      servers[order[j]].claimRef != Some(ClaimRef(key, c.uid))
  {
    assert order[0..] == order;
    for i := 0 to |order|
      invariant PreviouslyUsed(servers, order, key, c) == PreviouslyUsed(servers, order[i..], key, c)
      invariant forall j :: 0 <= j < i && order[j] in servers ==> !Own(servers[order[j]], key, c.uid)
    {
      assert order[i..][1..] == order[i + 1..];
      if order[i] in servers && Own(servers[order[i]], key, c.uid) {
        return Some(order[i]);
      }
    }
    return None;
  }

  /** The first listed server that is unclaimed and Available. */
  method FindFirstFree(servers: map<Name, Server>, order: seq<Name>) returns (r: Option<Name>)
    ensures r == FirstFree(servers, order)
    ensures r.Some? ==> r.value in servers && servers[r.value].claimRef == None && servers[r.value].state == Available
    ensures r.Some? ==> exists i :: 0 <= i < |order| && order[i] == r.value
                          && forall j :: 0 <= j < i && order[j] in servers ==> !FirstBest(servers[order[j]])
    ensures r.None? ==> forall j :: 0 <= j < |order| && order[j] in servers ==>
                                      servers[order[j]].claimRef.Some? || servers[order[j]].state != Available
  {
    assert order[0..] == order;
    for i := 0 to |order|
      invariant FirstFree(servers, order) == FirstFree(servers, order[i..])
      invariant forall j :: 0 <= j < i && order[j] in servers ==> !FirstBest(servers[order[j]])
    {
      assert order[i..][1..] == order[i + 1..];
      if order[i] !in servers || servers[order[i]].claimRef.Some? {
        continue;
      }
      if servers[order[i]].state != Available {
        continue;
      }
      return Some(order[i]);
    }
    return None;
  }

  /** The first listed server that matches, is free or the claim's, is Available or Reserved, and is switched off. */
  method FindBySelector(servers: map<Name, Server>, order: seq<Name>, c: Claim) returns (r: Option<Name>)
    requires c.selector.Some?
    ensures r == BySelector(servers, order, c)
    ensures r.Some? ==> r.value in servers && Suits(servers[r.value], c)
    ensures r.None? ==> forall j :: 0 <= j < |order| && order[j] in servers ==> !Suits(servers[order[j]], c)
    ensures r.Some? ==> exists i :: 0 <= i < |order| && order[i] == r.value && SelectorPicks(servers, c, r.value)
                                    && forall j :: 0 <= j < i ==> !SelectorPicks(servers, c, order[j])
    ensures r.None? ==> forall j :: 0 <= j < |order| ==> !SelectorPicks(servers, c, order[j])
  {
    assert order[0..] == order;
    for i := 0 to |order|
      invariant BySelector(servers, order, c) == BySelector(servers, order[i..], c)
      invariant forall j :: 0 <= j < i ==> !SelectorPicks(servers, c, order[j])
    {
      assert order[i..][1..] == order[i + 1..];
      if order[i] !in servers || !Matches(servers[order[i]].labels, c.selector.value) {
        continue;
      }
      var s := servers[order[i]];
      if s.claimRef.Some? && s.claimRef.value.uid != c.uid {
        continue;
      }
      if s.state != Available && s.state != Reserved {
        continue;
      }
      if s.powerState != Off {
        continue;
      }
      return Some(order[i]);
    }
    return None;
  }

  class ClaimReconciler {
    const api: Api

    constructor (api: Api)
      ensures this.api == api
    {
      this.api := api;
    }

    // ----- finding a server -----

    /** The server for the claim, as the strategies choose it. A missing server named by reference is an error. */
    method FindServer(key: Key, c: Claim) returns (found: Option<Name>, ok: bool)
      modifies api
      ensures api.world == old(api.world) && api.done == old(api.done) && api.faults >= old(api.faults)
      ensures ok ==> found == Candidate(api.world.servers, api.world.order, key, c)
      ensures !ok && api.faults == old(api.faults) ==> Candidate(api.world.servers, api.world.order, key, c).None?
    {
      ok := api.Read();
      if !ok {
        return None, false;
      }
      var w := api.world;
      if c.serverRef.Some? {
        found, ok := ClaimServerByReference(w.servers, c, c.serverRef.value);
      } else if c.selector.Some? {
        found := FindBySelector(w.servers, w.order, c);
      } else {
        found := CheckForPrevUsedServer(w.servers, w.order, key, c);
        if found.None? {
          found := FindFirstFree(w.servers, w.order);
        }
      }
    }

    /** The named server, exactly if it exists and suits the claim; a server that does not exist is an error. */
    method ClaimServerByReference(servers: map<Name, Server>, c: Claim, n: Name) returns (found: Option<Name>, ok: bool)
      ensures found == ByReference(servers, c, n) && ok == (n in servers)
      ensures found == if n in servers && Suits(servers[n], c) then Some(n) else None
    {
      if n !in servers {
        return None, false;
      }
      var s := servers[n];
      if s.claimRef.Some? && s.claimRef.value.uid != c.uid {
        return None, true;
      }
      if s.state != Available && s.state != Reserved {
        return None, true;
      }
      if s.powerState != Off {
        return None, true;
      }
      if c.selector.None? {
        return Some(n), true;
      }
      if !Matches(s.labels, c.selector.value) {
        return None, true;
      }
      return Some(n), true;
    }

    // ----- binding -----

    method EnsureObjectRefForServer(key: Key, c: Claim, n: Name, s: Server) returns (modified: bool, ok: bool)
      modifies api
      ensures Ran(old(api.Now()), When(s.claimRef.None?, SetClaimRef(n, Some(ClaimRef(key, c.uid)))), api.Now(), ok)
      ensures ok ==> modified == s.claimRef.None? && api.faults == old(api.faults)
      ensures ok && !modified ==> api.world == old(api.world)
      ensures !ok ==> api.faults > old(api.faults)
    {
      if s.claimRef.Some? {
        RanNothing(old(api.Now()), [], api.Now(), true);
        return false, true;
      }
      ok := api.Write(true, SetClaimRef(n, Some(ClaimRef(key, c.uid))));
      return ok, ok;
    }

    /**
     * Creates the claim's configuration or brings it up to date; its boot state and its kind stay. Refused if something
     * else controls it.
     */
    method CreateOrPatchConfiguration(key: Key, c: Claim, n: Name) returns (ok: bool)
      modifies api
      ensures ForeignConfig(old(api.world), key, c) ==>
                !ok && api.world == old(api.world) && api.done == old(api.done) && api.faults >= old(api.faults)
      ensures !ForeignConfig(old(api.world), key, c) ==>
                && Ran(old(api.Now()), ConfigEffects(old(api.world), key, ClaimConfig(old(api.world), key, c, n)),
                       api.Now(), ok)
                && (ok <==> api.faults == old(api.faults))
      ensures ok ==> Configured(old(api.world), api.world, key, c, n) && api.world.servers == old(api.world).servers
    {
      ok := api.Read();
      if !ok {
        RanNothing(old(api.Now()), ConfigEffects(api.world, key, ClaimConfig(api.world, key, c, n)), api.Now(), false);
        return;
      }
      if key in api.world.configs && api.world.configs[key].owner.Some? && api.world.configs[key].owner.value != c.uid {
        return false;
      }
      var config := ClaimConfig(api.world, key, c, n);
      ok := api.Write(!(key in api.world.configs && api.world.configs[key] == config), PutConfig(key, config));
    }

    /** The configuration carries what the claim asks for, and what was there before is kept. */
    ghost predicate Configured(w: World, w': World, key: Key, c: Claim, n: Name) {
      && key in w'.configs && Carries(w'.configs[key], c, n)
      && (key in w.configs ==>
            && w.configs[key].owner in {None, Some(c.uid)}
            && w'.configs[key].state == w.configs[key].state && w'.configs[key].internal == w.configs[key].internal)
    }

    /** Creates or updates the claim's configuration, then points the server at it. */
    method ApplyBootConfiguration(key: Key, c: Claim, n: Name, s: Server) returns (ok: bool)
      modifies api
      ensures ForeignConfig(old(api.world), key, c) ==>
                !ok && api.world == old(api.world) && api.done == old(api.done) && api.faults >= old(api.faults)
      ensures !ForeignConfig(old(api.world), key, c) ==>
                && Ran(old(api.Now()), BootPlan(old(api.world), key, c, n, s), api.Now(), ok)
                && (ok <==> api.faults == old(api.faults))
      ensures ok ==> Configured(old(api.world), api.world, key, c, n)
      ensures ok && n in old(api.world).servers && old(api.world).servers[n] == s ==>
                n in api.world.servers && api.world.servers[n] == s.(bootRef := Some(key))
    {
      ghost var before := api.Now();
      ghost var first := ConfigEffects(api.world, key, ClaimConfig(api.world, key, c, n));
      ghost var second := BootRefEffects(n, s, key);
      ok := CreateOrPatchConfiguration(key, c, n);
      if !ok {
        if !ForeignConfig(before.world, key, c) {
          RanFirst(before, first, api.Now(), second);
        }
        return;
      }
      ghost var between := api.Now();
      ok := SetBootReference(key, n, s);
      RanBoth(before, first, between, second, api.Now(), ok);
      if ok {
        SameConfigured(before.world, between.world, api.world, key, c, n);
      }
    }

    method SetBootReference(key: Key, n: Name, s: Server) returns (ok: bool)
      modifies api
      ensures Ran(old(api.Now()), BootRefEffects(n, s, key), api.Now(), ok) && (ok <==> api.faults == old(api.faults))
      ensures ok ==> api.world.configs == old(api.world).configs
      ensures ok && n in old(api.world).servers && old(api.world).servers[n] == s ==>
                n in api.world.servers && api.world.servers[n] == s.(bootRef := Some(key))
    {
      ok := api.Write(s.bootRef != Some(key), SetBootRef(n, Some(key)));
    }

    lemma {:induction false} SameConfigured(w: World, w1: World, w2: World, key: Key, c: Claim, n: Name)
      requires Configured(w, w1, key, c, n) && w2.configs == w1.configs
      ensures Configured(w, w2, key, c, n)
    {
    }

    ghost function BootPlan(w: World, key: Key, c: Claim, n: Name, s: Server): seq<Effect> {
      ConfigEffects(w, key, ClaimConfig(w, key, c, n)) + BootRefEffects(n, s, key)
    }

    method EnsurePowerStateForServer(c: Claim, n: Name, s: Server) returns (ok: bool)
      modifies api
      ensures Ran(old(api.Now()), When(s.claimRef.Some? && s.power != c.power, SetPower(n, c.power)), api.Now(), ok)
    {
      if s.power == c.power || s.claimRef.None? {
        RanNothing(old(api.Now()), [], api.Now(), true);
        return true;
      }
      ok := api.Write(true, SetPower(n, c.power));
    }

    /**
     * The server is claimed and named: its configuration, the phase and the power follow, one change of the last two.
     */
    method Bind(key: Key, c: Claim, n: Name) returns (ok: bool)
      requires n in api.world.servers && api.world.servers[n].claimRef.Some?
      modifies api
      ensures Ran(old(api.Now()), BindPlan(old(api.world), key, c, n), api.Now(), ok)
    {
      ghost var before := api.Now();
      var s := api.world.servers[n];
      ghost var first, last := BootPlan(api.world, key, c, n, s), FinishEffects(key, c, n, s);
      ok := ApplyBootConfiguration(key, c, n, s);
      if !ok {
        if ForeignConfig(before.world, key, c) {
          RanNothing(before, [], api.Now(), false);
        } else {
          RanFirst(before, first, api.Now(), last);
        }
        return;
      }
      ghost var between := api.Now();
      if c.phase != Bound {
        ok := api.Write(true, SetPhase(key, Bound));
      } else {
        ok := EnsurePowerStateForServer(c, n, s);
      }
      RanBoth(before, first, between, last, api.Now(), ok);
    }

    // ----- finalising -----

    method RemoveClaimRefFromServer(n: Name) returns (ok: bool)
      modifies api
      ensures Ran(old(api.Now()), UnclaimEffects(old(api.world), n), api.Now(), ok)
      ensures ok ==> api.faults == old(api.faults) && api.world.configs == old(api.world.configs)
                     && SameBoot(old(api.world), api.world, n)
      ensures !ok ==> api.faults > old(api.faults)
    {
      ok := api.Read();
      if !ok {
        assert api.done[|old(api.done)|..] == [];
        return;
      }
      ghost var w := api.world;
      ok := api.Write(n in api.world.servers && api.world.servers[n].claimRef.Some?, SetClaimRef(n, None));
    }

    ghost predicate SameBoot(w: World, w': World, n: Name) {
      (n in w.servers <==> n in w'.servers) && (n in w.servers ==> w.servers[n].bootRef == w'.servers[n].bootRef)
    }

    method RemoveBootConfigRefFromServerAndPowerOff(key: Key, n: Name) returns (ok: bool)
      modifies api
      ensures Ran(old(api.Now()), DropBootRefEffects(old(api.world), key, n), api.Now(), ok)
      ensures ok ==> api.faults == old(api.faults)
      ensures !ok ==> api.faults > old(api.faults)
    {
      if n !in api.world.servers || api.world.servers[n].bootRef.None? {
        RanNothing(old(api.Now()), [], api.Now(), true);
        return true;
      }
      var boot := api.world.servers[n].bootRef.value;
      if boot.name != key.name && boot.namespace != key.namespace {
        RanNothing(old(api.Now()), [], api.Now(), true);
        return true;
      }
      ok := api.Write(true, UnsetBootRefAndPowerOff(n));
    }

    ghost function DetachPlan(w: World, key: Key, n: Name): seq<Effect> {
      UnclaimEffects(w, n) + When(key in w.configs, DeleteConfig(key))
    }

    /** Takes the claim reference off the server, whoever it refers to, and deletes the claim's configuration. */
    method Detach(key: Key, n: Name) returns (ok: bool)
      modifies api
      ensures Ran(old(api.Now()), DetachPlan(old(api.world), key, n), api.Now(), ok)
      ensures ok <==> api.faults == old(api.faults)
      ensures ok ==> SameBoot(old(api.world), api.world, n)
    {
      ghost var w, before := api.world, api.Now();
      ghost var first, second := UnclaimEffects(w, n), When(key in w.configs, DeleteConfig(key));
      ok := RemoveClaimRefFromServer(n);
      if !ok {
        RanFirst(before, first, api.Now(), second);
        return;
      }
      ghost var between := api.Now();
      ok := api.Write(key in api.world.configs, DeleteConfig(key));
      RanBoth(before, first, between, second, api.Now(), ok);
      if ok {
        SameBootWithoutConfig(w, between.world, api.world, key, n);
      }
    }

    lemma {:induction false} SameBootWithoutConfig(w: World, w': World, w'': World, key: Key, n: Name)
      requires SameBoot(w, w', n) && (w'' == w' || w'' == Apply(w', DeleteConfig(key)))
      ensures SameBoot(w, w'', n)
    {
    }

    method CleanupAndShutdownServer(key: Key, c: Claim) returns (ok: bool)
      modifies api
      ensures Ran(old(api.Now()), CleanupPlan(old(api.world), key, c), api.Now(), ok)
      ensures ok <==> api.faults == old(api.faults)
    {
      ghost var before := api.Now();
      if c.serverRef.None? {
        RanNothing(before, [], before, true);
        return true;
      }
      var n := c.serverRef.value;
      ghost var first, last := DetachPlan(api.world, key, n), DropBootRefEffects(api.world, key, n);
      ok := Detach(key, n);
      if !ok {
        RanFirst(before, first, api.Now(), last);
        return;
      }
      ghost var between := api.Now();
      ok := RemoveBootConfigRefFromServerAndPowerOff(key, n);
      RanBoth(before, first, between, last, api.Now(), ok);
    }

    method Delete(key: Key, c: Claim) returns (ok: bool)
      requires key in api.world.claims && api.world.claims[key] == c && c.deleting
      modifies api
      ensures Ran(old(api.Now()), ClaimPlan(old(api.world), key), api.Now(), ok)
    {
      ghost var before := api.Now();
      if !c.finalizer {
        RanNothing(before, [], before, true);
        return true;
      }
      ghost var plan := CleanupPlan(api.world, key, c);
      ok := CleanupAndShutdownServer(key, c);
      if !ok {
        RanFirst(before, plan, api.Now(), [ReleaseClaim(key)]);
        return;
      }
      ghost var between := api.Now();
      ok := api.Write(true, ReleaseClaim(key));
      RanBoth(before, plan, between, [ReleaseClaim(key)], api.Now(), ok);
    }

    // ----- reconciling -----

    /** The part of a reconcile that follows once a server was found. */
    method Take(key: Key, c: Claim, n: Name) returns (ok: bool)
      requires key in api.world.claims && api.world.claims[key] == c
      requires !c.deleting && !c.ignored && c.phase != NoPhase && c.finalizer
      requires Candidate(api.world.servers, api.world.order, key, c) == Some(n)
      modifies api
      ensures Ran(old(api.Now()), ClaimPlan(old(api.world), key), api.Now(), ok)
    {
      var s := api.world.servers[n];
      var modified;
      ghost var before := api.Now();
      modified, ok := EnsureObjectRefForServer(key, c, n, s);
      if !ok || modified {
        return;
      }
      assert api.done == before.done;
      if c.serverRef.None? {
        ok := api.Write(true, SetServerRef(key, n));
        return;
      }
      if c.serverRef.value != n {
        RanNothing(before, [], api.Now(), false);
        return false;
      }
      ok := Bind(key, c, n);
    }

    method Reconcile(key: Key, c: Claim) returns (ok: bool)
      requires key in api.world.claims && api.world.claims[key] == c && !c.deleting
      modifies api
      ensures Ran(old(api.Now()), ClaimPlan(old(api.world), key), api.Now(), ok)
    {
      ghost var before := api.Now();
      if c.ignored {
        RanNothing(before, [], before, true);
        return true;
      }
      if c.phase == NoPhase {
        ok := api.Write(true, SetPhase(key, Unbound));
        return;
      }
      if !c.finalizer {
        ok := api.Write(true, AddClaimFinalizer(key));
        return;
      }
      var found;
      found, ok := FindServer(key, c);
      if !ok || found.None? {
        RanNothing(before, ClaimPlan(before.world, key), api.Now(), ok);
        return;
      }
      ok := Take(key, c, found.value);
    }

    /**
     * One reconcile of the claim with this key: the effects of its plan, in order, up to the first call that fails, and
     * all of them if none does. This is the step ReconcileClaim of a run.
     */
    method ReconcileRequest(key: Key, ghost cfg: Settings) returns (ok: bool)
      modifies api
      ensures Ran(old(api.Now()), ClaimPlan(old(api.world), key), api.Now(), ok)
      ensures |api.done| >= |old(api.done)|
      ensures var step := ReconcileClaim(key, |api.done| - |old(api.done)|);
              && api.world == After(old(api.world), cfg, step)
              && api.done == old(api.done) + Performed(old(api.world), cfg, step)
    {
      ghost var before := api.Now();
      ok := api.Read();
      if !ok || key !in api.world.claims {
        RanNothing(before, ClaimPlan(before.world, key), api.Now(), ok);
      } else if api.world.claims[key].deleting {
        ok := Delete(key, api.world.claims[key]);
      } else {
        ok := Reconcile(key, api.world.claims[key]);
      }
      RanIsCut(before, ClaimPlan(before.world, key), api.Now(), ok);
    }
  }
}
