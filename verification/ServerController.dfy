/** The reconciler of servers, call by call. Each method performs, up to its first failing call, a plan of World. */
module ServerController {
  import opened Options
  import opened Metal
  import opened World
  import opened ApiServer

  class ServerReconciler {
    const api: Api
    const cfg: Settings

    constructor (api: Api, cfg: Settings)
      ensures this.api == api && this.cfg == cfg
    {
      this.api, this.cfg := api, cfg;
    }

    // ----- single steps -----

    method PatchServerState(n: Name, s: Server, state: ServerState) returns (ok: bool)
      modifies api
      ensures Ran(old(api.Now()), When(s.state != state, SetState(n, state)), api.Now(), ok)
      ensures ok <==> api.faults == old(api.faults)
    {
      if s.state == state {
        RanNothing(old(api.Now()), [], api.Now(), true);
        return true;
      }
      ok := api.Write(true, SetState(n, state));
    }

    /** Commands the BMC if the power state is not the desired one; without a BMC that is an error. */
    method EnsureServerPowerState(n: Name, s: Server) returns (ok: bool)
      modifies api
      ensures Ran(old(api.Now()), if s.hasBmc then Commands(n, PowerOp(s.power, s.powerState)) else [], api.Now(), ok)
      ensures ok ==> api.faults == old(api.faults) && (s.hasBmc || PowerOp(s.power, s.powerState).None?)
      ensures !ok && api.faults == old(api.faults) ==> !s.hasBmc && PowerOp(s.power, s.powerState).Some?
      ensures ok ==> Alike(old(api.world), api.world)
    {
      if s.power == PowerUnset {
        RanNothing(old(api.Now()), [], api.Now(), true);
        return true;
      }
      var op: Option<bool> := None;
      if s.powerState != On && s.powerState != PoweringOn && s.power == PowerOn {
        op := Some(true);
      }
      if s.powerState != Off && s.powerState != PoweringOff && s.power == PowerOff {
        op := Some(false);
      }
      if op.None? || !s.hasBmc {
        RanNothing(old(api.Now()), [], api.Now(), false);
        return op.None?;
      }
      ok := api.Write(true, Command(n, op.value));
    }

    /** Nothing changed that the rest of a handler looks up. */
    ghost predicate Alike(w: World, w': World) {
      w'.configs == w.configs && w'.registry == w.registry
    }

    method SetAndPatchServerPower(n: Name, s: Server, power: Power) returns (updated: bool, ok: bool)
      modifies api
      ensures Ran(old(api.Now()), When(s.power != power, SetPower(n, power)), api.Now(), ok)
      ensures ok <==> api.faults == old(api.faults)
      ensures ok ==> updated == (s.power != power) && Alike(old(api.world), api.world)
    {
      ok := api.Write(s.power != power, SetPower(n, power));
      updated := s.power != power;
    }

    /** `ready` is whether the server's boot configuration is Ready; a reference to a missing one is an error. */
    method ServerBootConfigurationIsReady(n: Name, s: Server) returns (ready: bool, ok: bool)
      modifies api
      ensures Ran(old(api.Now()), When(BootReady(old(api.world), s), Observe(n)), api.Now(), ok)
      ensures ok ==> ready == BootReady(old(api.world), s) && api.faults == old(api.faults)
      ensures ready ==> ok && s.bootRef.Some? && s.bootRef.value in old(api.world).configs
                        && old(api.world).configs[s.bootRef.value].state == Ready
      ensures !ok && api.faults == old(api.faults) ==> s.bootRef.Some? && s.bootRef.value !in old(api.world).configs
      ensures ok ==> Alike(old(api.world), api.world)
      ensures !ok && api.faults == old(api.faults) ==> !BootReady(old(api.world), s)
    {
      if s.bootRef.None? {
        RanNothing(old(api.Now()), [], api.Now(), true);
        return false, true;
      }
      ok := api.Read();
      if !ok || s.bootRef.value !in api.world.configs {
        RanNothing(old(api.Now()), When(BootReady(api.world, s), Observe(n)), api.Now(), false);
        return false, false;
      }
      ready := api.world.configs[s.bootRef.value].state == Ready;
      if ready {
        api.Note(n);
      } else {
        RanNothing(old(api.Now()), [], api.Now(), true);
      }
    }

    // ----- Initial -----

    /** `requeue`: something was changed and the handler stops here. */
    method EnsureInitialConditions(n: Name, s: Server) returns (requeue: bool, ok: bool)
      modifies api
      ensures Ran(old(api.Now()), When(WaitsForOff(s), SetPower(n, PowerOff)), api.Now(), ok)
      ensures ok <==> api.faults == old(api.faults)
      ensures ok ==> requeue == WaitsForOff(s)
      ensures !WaitsForOff(s) ==> api.world == old(api.world) && api.done == old(api.done)
    {
      if s.power == PowerUnset && s.powerState == Off {
        requeue, ok := SetAndPatchServerPower(n, s, PowerOff);
        return;
      }
      if s.powerState == On && cfg.enforceFirstBoot {
        requeue, ok := SetAndPatchServerPower(n, s, PowerOff);
        return;
      }
      RanNothing(old(api.Now()), [], api.Now(), true);
      return false, true;
    }

    predicate WaitsForOff(s: Server) {
      || (s.power == PowerUnset && s.powerState == Off)
      || (s.powerState == On && cfg.enforceFirstBoot && s.power != PowerOff)
    }

    method ApplyBootConfigurationForDiscovery(n: Name, s: Server) returns (ok: bool)
      modifies api
      ensures Ran(old(api.Now()), ProbePlan(old(api.world), n, s), api.Now(), ok)
      ensures ok <==> api.faults == old(api.faults)
    {
      ghost var before := api.Now();
      var key, config := InternalKey(cfg, n), InternalConfig(api.world, cfg, n);
      ghost var first, last := ConfigEffects(api.world, key, config), BootRefEffects(n, s, key);
      ok := api.Write(!(key in api.world.configs && api.world.configs[key] == config), PutConfig(key, config));
      if !ok {
        RanFirst(before, first, api.Now(), last);
        return;
      }
      ghost var between := api.Now();
      ok := api.Write(s.bootRef != Some(key), SetBootRef(n, Some(key)));
      RanBoth(before, first, between, last, api.Now(), ok);
    }

    ghost function ProbePlan(w: World, n: Name, s: Server): seq<Effect> {
      ConfigEffects(w, InternalKey(cfg, n), InternalConfig(w, cfg, n)) + BootRefEffects(n, s, InternalKey(cfg, n))
    }

    /** The boot configuration is in place: the next boot is set to PXE, and the server goes to Discovery. */
    method PxeBootAndDiscover(n: Name, s: Server) returns (ok: bool)
      requires s.state == Initial
      modifies api
      ensures Ran(old(api.Now()), When(s.hasBmc, SetState(n, Discovery)), api.Now(), ok)
    {
      if !s.hasBmc {
        RanNothing(old(api.Now()), [], api.Now(), false);
        return false;
      }
      ok := api.Read();
      if !ok {
        RanNothing(old(api.Now()), [SetState(n, Discovery)], api.Now(), false);
        return;
      }
      ok := PatchServerState(n, s, Discovery);
    }

    method PrepareProbe(n: Name, s: Server) returns (ok: bool)
      requires s.state == Initial
      modifies api
      ensures Ran(old(api.Now()), ProbePlan(old(api.world), n, s) + When(s.hasBmc, SetState(n, Discovery)),
                  api.Now(), ok)
    {
      ghost var before := api.Now();
      ghost var first, last := ProbePlan(api.world, n, s), When(s.hasBmc, SetState(n, Discovery));
      ok := ApplyBootConfigurationForDiscovery(n, s);
      if !ok {
        RanFirst(before, first, api.Now(), last);
        return;
      }
      ghost var between := api.Now();
      ok := PxeBootAndDiscover(n, s);
      RanBoth(before, first, between, last, api.Now(), ok);
    }

    method HandleInitialState(n: Name, s: Server) returns (ok: bool)
      requires s.state == Initial
      modifies api
      ensures Ran(old(api.Now()), InitialPlan(old(api.world), cfg, n, s), api.Now(), ok)
    {
      ghost var before := api.Now();
      var requeue;
      requeue, ok := EnsureInitialConditions(n, s);
      if !ok || requeue {
        if !WaitsForOff(s) {
          RanNothing(before, InitialPlan(before.world, cfg, n, s), api.Now(), false);
        }
        return;
      }
      ghost var op := PowerOp(s.power, s.powerState);
      ghost var plan := ProbePlan(before.world, n, s) + When(s.hasBmc, SetState(n, Discovery));
      SamePlans(before.world, n, s);
      ok := EnsureServerPowerState(n, s);
      if !ok {
        if s.hasBmc {
          RanFirst(before, Commands(n, op), api.Now(), plan);
        }
        return;
      }
      ghost var between := api.Now();
      SameProbePlan(before.world, between.world, n, s);
      ok := PrepareProbe(n, s);
      RanBoth(before, Commands(n, op), between, plan, api.Now(), ok);
    }

    lemma {:induction false} SamePlans(w: World, n: Name, s: Server)
      requires !WaitsForOff(s)
      ensures InitialPlan(w, cfg, n, s) == if PowerOp(s.power, s.powerState).Some? && !s.hasBmc then []
              else Commands(n, PowerOp(s.power, s.powerState))
                   + (ProbePlan(w, n, s) + When(s.hasBmc, SetState(n, Discovery)))
    {
    }

    lemma {:induction false} SameProbePlan(w: World, w': World, n: Name, s: Server)
      requires Alike(w, w')
      ensures ProbePlan(w, n, s) == ProbePlan(w', n, s)
    {
    }

    // ----- Discovery -----

    /** Stores the probe's report in the status; `ready` is false while there is none. */
    method ExtractServerDetailsFromRegistry(n: Name, s: Server) returns (ready: bool, ok: bool)
      modifies api
      ensures var w := old(api.world);
              Ran(old(api.Now()), if s.uuid in w.registry then [SetNics(n, w.registry[s.uuid])] else [], api.Now(), ok)
      ensures ok <==> api.faults == old(api.faults)
      ensures ok ==> ready == (s.uuid in old(api.world).registry)
    {
      ok := api.Read();
      if !ok {
        var w := api.world;
        RanNothing(old(api.Now()), if s.uuid in w.registry then [SetNics(n, w.registry[s.uuid])] else [],
                   api.Now(), false);
        return false, false;
      }
      if s.uuid !in api.world.registry {
        RanNothing(old(api.Now()), [], api.Now(), true);
        return false, true;
      }
      ok := api.Write(true, SetNics(n, api.world.registry[s.uuid]));
      ready := ok;
    }

    method InvalidateAndRelease(n: Name, s: Server) returns (ok: bool)
      requires s.state == Discovery
      modifies api
      ensures Ran(old(api.Now()), [Unregister(s.uuid)] + [SetState(n, Available)], api.Now(), ok)
    {
      ghost var before := api.Now();
      ok := api.Write(true, Unregister(s.uuid));
      if !ok {
        RanFirst(before, [Unregister(s.uuid)], api.Now(), [SetState(n, Available)]);
        return;
      }
      ghost var between := api.Now();
      ok := PatchServerState(n, s, Available);
      RanBoth(before, [Unregister(s.uuid)], between, [SetState(n, Available)], api.Now(), ok);
    }

    /** `late` is the verdict of the discovery timeout. */
    method EndDiscovery(n: Name, s: Server, late: bool) returns (ok: bool)
      requires s.state == Discovery
      modifies api
      ensures Ran(old(api.Now()), DiscoveryEnd(old(api.world), n, s, late), api.Now(), ok)
    {
      ghost var before := api.Now();
      if late {
        ok := PatchServerState(n, s, Initial);
        return;
      }
      ghost var w := api.world;
      ghost var last := [Unregister(s.uuid)] + [SetState(n, Available)];
      var ready;
      ready, ok := ExtractServerDetailsFromRegistry(n, s);
      ghost var first := if s.uuid in w.registry then [SetNics(n, w.registry[s.uuid])] else [];
      assert s.uuid in w.registry ==> DiscoveryEnd(w, n, s, late) == first + last;
      if !ok {
        if s.uuid in w.registry {
          RanFirst(before, first, api.Now(), last);
        }
        return;
      }
      if !ready {
        return;
      }
      ghost var between := api.Now();
      ok := InvalidateAndRelease(n, s);
      RanBoth(before, first, between, last, api.Now(), ok);
    }

    ghost function ProbingPlan(w: World, n: Name, s: Server, late: bool): seq<Effect> {
      if !s.hasBmc then [] else Commands(n, PowerOp(PowerOn, s.powerState)) + DiscoveryEnd(w, n, s, late)
    }

    /** The server is to be on; the storages are read from the BMC before the registry is asked. */
    method Probe(n: Name, s: Server, late: bool) returns (ok: bool)
      requires s.state == Discovery && s.power == PowerOn
      modifies api
      ensures Ran(old(api.Now()), ProbingPlan(old(api.world), n, s, late), api.Now(), ok)
    {
      ghost var before := api.Now();
      ghost var first, last := Commands(n, PowerOp(PowerOn, s.powerState)), DiscoveryEnd(api.world, n, s, late);
      ok := EnsureServerPowerState(n, s);
      if !s.hasBmc {
        RanNothing(before, [], api.Now(), false);
        return false;
      }
      if !ok {
        RanFirst(before, first, api.Now(), last);
        return;
      }
      ghost var between := api.Now();
      ok := api.Read();
      if !ok {
        RanNothing(between, last, api.Now(), false);
      } else {
        SameEnd(before.world, between.world, n, s, late);
        ok := EndDiscovery(n, s, late);
      }
      RanBoth(before, first, between, last, api.Now(), ok);
    }

    lemma {:induction false} SameEnd(w: World, w': World, n: Name, s: Server, late: bool)
      requires Alike(w, w')
      ensures DiscoveryEnd(w, n, s, late) == DiscoveryEnd(w', n, s, late)
    {
    }

    ghost function SwitchPlan(w: World, n: Name, s: Server, late: bool): seq<Effect> {
      When(s.power != PowerOn, SetPower(n, PowerOn)) + ProbingPlan(w, n, s.(power := PowerOn), late)
    }

    method HandleDiscoveryState(n: Name, s: Server, late: bool) returns (ok: bool)
      requires s.state == Discovery
      modifies api
      ensures Ran(old(api.Now()), DiscoveryPlan(old(api.world), n, s, late), api.Now(), ok)
    {
      ghost var w, before := api.world, api.Now();
      DiscoveryParts(w, n, s, late);
      ghost var rest := SwitchPlan(w, n, s, late);
      var ready;
      ready, ok := ServerBootConfigurationIsReady(n, s);
      if !ok || !ready {
        if BootReady(w, s) {
          RanFirst(before, [Observe(n)], api.Now(), rest);
        }
        return;
      }
      ghost var between := api.Now();
      ok := SwitchAndProbe(n, s, late, w);
      RanBoth(before, [Observe(n)], between, rest, api.Now(), ok);
    }

    lemma {:induction false} DiscoveryParts(w: World, n: Name, s: Server, late: bool)
      ensures DiscoveryPlan(w, n, s, late) == if BootReady(w, s) then [Observe(n)] + SwitchPlan(w, n, s, late) else []
    {
      var switch := When(s.power != PowerOn, SetPower(n, PowerOn));
      var last := ProbingPlan(w, n, s.(power := PowerOn), late);
      assert [Observe(n)] + (switch + last) == [Observe(n)] + switch + last;
    }

    method SwitchAndProbe(n: Name, s: Server, late: bool, ghost w: World) returns (ok: bool)
      requires s.state == Discovery && Alike(w, api.world)
      modifies api
      ensures Ran(old(api.Now()), SwitchPlan(w, n, s, late), api.Now(), ok)
    {
      ghost var before := api.Now();
      ghost var switch := When(s.power != PowerOn, SetPower(n, PowerOn));
      ghost var last := ProbingPlan(w, n, s.(power := PowerOn), late);
      var updated;
      updated, ok := SetAndPatchServerPower(n, s, PowerOn);
      if !ok {
        RanFirst(before, switch, api.Now(), last);
        return;
      }
      ghost var between := api.Now();
      SameEnd(w, between.world, n, s.(power := PowerOn), late);
      ok := Probe(n, s.(power := PowerOn), late);
      RanBoth(before, switch, between, last, api.Now(), ok);
    }

    // ----- Available -----

    ghost function DropPlan(w: World, n: Name, s: Server): seq<Effect> {
      if s.bootRef.Some? && s.bootRef.value in w.configs && w.configs[s.bootRef.value].internal
      then [DeleteConfig(s.bootRef.value)] + [SetBootRef(n, None)] else []
    }

    /** Deletes the configuration of the probe, and nobody else's; a dangling reference is an error. */
    method EnsureInitialBootConfigurationIsDeleted(n: Name, s: Server) returns (ok: bool)
      modifies api
      ensures Ran(old(api.Now()), DropPlan(old(api.world), n, s), api.Now(), ok)
    {
      ghost var before := api.Now();
      if s.bootRef.None? {
        RanNothing(before, [], before, true);
        return true;
      }
      ok := api.Read();
      var key := s.bootRef.value;
      if !ok || key !in api.world.configs {
        RanNothing(before, DropPlan(before.world, n, s), api.Now(), false);
        return false;
      }
      if !api.world.configs[key].internal {
        RanNothing(before, [], api.Now(), true);
        return true;
      }
      ok := api.Write(true, DeleteConfig(key));
      if !ok {
        RanFirst(before, [DeleteConfig(key)], api.Now(), [SetBootRef(n, None)]);
        return;
      }
      ghost var between := api.Now();
      ok := api.Write(true, SetBootRef(n, None));
      RanBoth(before, [DeleteConfig(key)], between, [SetBootRef(n, None)], api.Now(), ok);
    }

    predicate CannotShutDown(s: Server) {
      !s.hasBmc && s.powerState != Off && PowerOp(PowerOff, s.powerState).Some?
    }

    method EnsureOff(n: Name, s: Server) returns (ok: bool)
      modifies api
      ensures Ran(old(api.Now()), ShutDown(n, s), api.Now(), ok)
      ensures ok ==> api.faults == old(api.faults) && !CannotShutDown(s) && Alike(old(api.world), api.world)
      ensures !ok && api.faults == old(api.faults) ==> CannotShutDown(s)
    {
      ghost var before := api.Now();
      if s.powerState == Off {
        RanNothing(before, [], before, true);
        return true;
      }
      ghost var first := When(s.power != PowerOff, SetPower(n, PowerOff));
      ghost var last := Commands(n, if s.hasBmc then PowerOp(PowerOff, s.powerState) else None);
      var updated;
      updated, ok := SetAndPatchServerPower(n, s, PowerOff);
      if !ok {
        RanFirst(before, first, api.Now(), last);
        return;
      }
      ghost var between := api.Now();
      ok := EnsureServerPowerState(n, s.(power := PowerOff));
      RanBoth(before, first, between, last, api.Now(), ok);
    }

    method HandleAvailableState(n: Name, s: Server) returns (ok: bool)
      modifies api
      ensures Ran(old(api.Now()), AvailablePlan(old(api.world), n, s), api.Now(), ok)
    {
      ghost var before := api.Now();
      ghost var first, last := ShutDown(n, s), DropPlan(api.world, n, s);
      AvailableParts(before.world, n, s);
      ok := EnsureOff(n, s);
      if !ok {
        if !CannotShutDown(s) {
          RanFirst(before, first, api.Now(), last);
        }
        return;
      }
      ghost var between := api.Now();
      ok := EnsureInitialBootConfigurationIsDeleted(n, s);
      RanBoth(before, first, between, last, api.Now(), ok);
    }

    lemma {:induction false} AvailableParts(w: World, n: Name, s: Server)
      ensures AvailablePlan(w, n, s) == if CannotShutDown(s) then ShutDown(n, s) else ShutDown(n, s) + DropPlan(w, n, s)
    {
      assert ShutDown(n, s) + [] == ShutDown(n, s);
    }

    // ----- Reserved -----

    method HandleReservedState(n: Name, s: Server) returns (ok: bool)
      modifies api
      ensures Ran(old(api.Now()), ReservedPlan(old(api.world), n, s), api.Now(), ok)
    {
      ghost var before := api.Now();
      var ready;
      ready, ok := ServerBootConfigurationIsReady(n, s);
      ghost var last := if !s.hasBmc then [] else Commands(n, PowerOp(s.power, s.powerState));
      if !ok || !ready {
        if BootReady(before.world, s) {
          RanFirst(before, [Observe(n)], api.Now(), last);
        }
        return;
      }
      ghost var between := api.Now();
      if s.powerState == Off {
        ok := api.Read();
        if !ok || !s.hasBmc {
          RanNothing(between, last, api.Now(), false);
          RanBoth(before, [Observe(n)], between, last, api.Now(), false);
          return false;
        }
      }
      ok := EnsureServerPowerState(n, s);
      RanBoth(before, [Observe(n)], between, last, api.Now(), ok);
    }

    // ----- reconciling -----

    method EnsureServerStateTransition(n: Name, s: Server, late: bool) returns (ok: bool)
      modifies api
      ensures Ran(old(api.Now()), HandlerPlan(old(api.world), cfg, n, s, late), api.Now(), ok)
    {
      match s.state {
        case Initial => ok := HandleInitialState(n, s);
        case Discovery => ok := HandleDiscoveryState(n, s, late);
        case Available => ok := HandleAvailableState(n, s);
        case Reserved => ok := HandleReservedState(n, s);
        case Empty =>
          RanNothing(old(api.Now()), [], api.Now(), true);
          ok := true;
      }
    }

    /** Copies the power state reported by the BMC into the status. */
    method UpdateServerStatus(n: Name) returns (s': Server, ok: bool)
      requires n in api.world.servers
      modifies api
      ensures var w, s := old(api.world), old(api.world.servers[n]);
              && s' == Refreshed(w, n)
              && Ran(old(api.Now()), When(s'.powerState != s.powerState, SetPowerState(n, s'.powerState)),
                     api.Now(), ok)
      ensures ok <==> api.faults == old(api.faults)
      ensures ok ==> Alike(old(api.world), api.world)
    {
      var s := api.world.servers[n];
      s' := s;
      if s.hasBmc && n in api.world.bmc {
        s' := s.(powerState := api.world.bmc[n]);
      }
      ok := api.Write(s'.powerState != s.powerState, SetPowerState(n, s'.powerState));
    }

    method Reconcile(n: Name, late: bool) returns (ok: bool)
      requires n in api.world.servers
      modifies api
      ensures Ran(old(api.Now()), ServerPlan(old(api.world), cfg, n, late), api.Now(), ok)
    {
      var s := api.world.servers[n];
      if s.ignored {
        RanNothing(old(api.Now()), [], api.Now(), true);
        return true;
      }
      if s.state == Empty {
        ok := PatchServerState(n, s, Initial);
        return;
      }
      if !s.finalizer {
        ok := api.Write(true, AddServerFinalizer(n));
        return;
      }
      if s.claimRef.Some? && s.state != Reserved {
        ok := PatchServerState(n, s, Reserved);
        return;
      }
      if s.claimRef.None? && s.state == Reserved {
        ok := PatchServerState(n, s, Available);
        return;
      }
      ok := Handle(n, late);
    }

    /** The status is brought up to date, BIOS settings and boot order are applied, and the state is acted upon. */
    method Handle(n: Name, late: bool) returns (ok: bool)
      requires n in api.world.servers
      modifies api
      ensures var w := old(api.world);
              var s, s' := w.servers[n], Refreshed(w, n);
              Ran(old(api.Now()),
                  When(s'.powerState != s.powerState, SetPowerState(n, s'.powerState))
                  + HandlerPlan(w, cfg, n, s', late),
                  api.Now(), ok)
    {
      ghost var w, before := api.world, api.Now();
      ghost var s := w.servers[n];
      var s';
      s', ok := UpdateServerStatus(n);
      ghost var first := When(s'.powerState != s.powerState, SetPowerState(n, s'.powerState));
      ghost var last := HandlerPlan(w, cfg, n, s', late);
      if !ok {
        RanFirst(before, first, api.Now(), last);
        return;
      }
      ghost var between := api.Now();
      SameHandlerPlan(w, between.world, n, s', late);
      ok := api.Read();
      if !ok {
        RanNothing(between, last, api.Now(), false);
      } else {
        ok := EnsureServerStateTransition(n, s', late);
      }
      RanBoth(before, first, between, last, api.Now(), ok);
    }

    lemma {:induction false} SameHandlerPlan(w: World, w': World, n: Name, s: Server, late: bool)
      requires Alike(w, w')
      ensures HandlerPlan(w, cfg, n, s, late) == HandlerPlan(w', cfg, n, s, late)
    {
    }

    /**
     * One reconcile of the server with this name: the effects of its plan, in order, up to the first call that fails,
     * and all of them if none does. This is the step ReconcileServer of a run.
     */
    method ReconcileRequest(n: Name, late: bool) returns (ok: bool)
      modifies api
      ensures Ran(old(api.Now()), ServerPlan(old(api.world), cfg, n, late), api.Now(), ok)
      ensures |api.done| >= |old(api.done)|
      ensures var step := ReconcileServer(n, late, |api.done| - |old(api.done)|);
              && api.world == After(old(api.world), cfg, step)
              && api.done == old(api.done) + Performed(old(api.world), cfg, step)
    {
      ghost var before := api.Now();
      ok := api.Read();
      if !ok || n !in api.world.servers {
        RanNothing(before, ServerPlan(before.world, cfg, n, late), api.Now(), ok);
      } else {
        ok := Reconcile(n, late);
      }
      RanIsCut(before, ServerPlan(before.world, cfg, n, late), api.Now(), ok);
    }
  }
}
