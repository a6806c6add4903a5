/** The registry in the runs of the controllers, and which report a server's network interfaces come from. */
module Reports {
  import opened Options
  import opened Metal
  import opened World
  import Registry

  /** What the effects of a reconcile do to the registry. */
  ghost function Deletions(es: seq<Effect>): seq<Registry.Event> {
    if es == [] then [] else
      var last := es[|es| - 1];
      Deletions(es[..|es| - 1]) + if last.Unregister? then [Registry.Removed(last.uuid)] else []
  }

  /** What a step does to the registry: probes register, reconciles delete. */
  ghost function EventsOf(w: World, cfg: Settings, step: Step): seq<Registry.Event> {
    if step.Register? then [Registry.Registered(step.uuid, step.nics)] else Deletions(Performed(w, cfg, step))
  }

  /** The history of the registry after the first `i` steps of a run. */
  ghost function History(cfg: Settings, ws: seq<World>, steps: seq<Step>, i: nat): seq<Registry.Event>
    requires i <= |steps| < |ws|
  {
    if i == 0 then [] else History(cfg, ws, steps, i - 1) + EventsOf(ws[i - 1], cfg, steps[i - 1])
  }

  lemma {:induction false} ReplayDeletions(w: World, log: seq<Registry.Event>, es: seq<Effect>)
    requires w.registry == Registry.Replay(log)
    ensures ApplyAll(w, es).registry == Registry.Replay(log + Deletions(es))
  {
    if es == [] {
      assert log + [] == log;
    } else {
      var front, last := es[..|es| - 1], es[|es| - 1];
      ReplayDeletions(w, log, front);
      var before, all := log + Deletions(front), log + Deletions(es);
      RegistryOf(ApplyAll(w, front), last);
      if last.Unregister? {
        assert all == before + [Registry.Removed(last.uuid)];
        assert all[..|all| - 1] == before;
      } else {
        assert all == before;
      }
    }
  }

  lemma {:induction false} RegistryOf(w: World, e: Effect)
    ensures Apply(w, e).registry == if e.Unregister? then w.registry - {e.uuid} else w.registry
  {
  }

  lemma {:induction false} ReplayStep(w: World, cfg: Settings, step: Step, log: seq<Registry.Event>)
    requires w.registry == Registry.Replay(log)
    ensures After(w, cfg, step).registry == Registry.Replay(log + EventsOf(w, cfg, step))
  {
    if step.Register? {
      ReplayRegistration(w.registry, log, step.uuid, step.nics);
    } else if step.ReconcileClaim? || step.ReconcileServer? {
      ReplayDeletions(w, log, Performed(w, cfg, step));
    } else {
      OthersLeaveRegistry(w, cfg, step);
      assert log + [] == log;
    }
  }

  lemma {:induction false} ReplayRegistration(registry: map<string, Nics>, log: seq<Registry.Event>, uuid: string,
                                              nics: Nics)
    requires registry == Registry.Replay(log)
    ensures registry[uuid := nics] == Registry.Replay(log + [Registry.Registered(uuid, nics)])
  {
    var all := log + [Registry.Registered(uuid, nics)];
    assert all[..|all| - 1] == log;
  }

  lemma {:induction false} OthersLeaveRegistry(w: World, cfg: Settings, step: Step)
    requires !step.Register? && !step.ReconcileClaim? && !step.ReconcileServer?
    ensures After(w, cfg, step).registry == w.registry && EventsOf(w, cfg, step) == []
  {
  }

  /** The registry of a run is the store that the registry server has after the run's registrations and deletions. */
  lemma {:induction false} RegistryIsReplay(cfg: Settings, ws: seq<World>, steps: seq<Step>, i: nat)
    requires Run(cfg, ws, steps) && i < |ws|
    ensures ws[i].registry == Registry.Replay(History(cfg, ws, steps, i))
  {
    if i > 0 {
      RegistryIsReplay(cfg, ws, steps, i - 1);
      ReplayStep(ws[i - 1], cfg, steps[i - 1], History(cfg, ws, steps, i - 1));
    }
  }

  /**
   * Whenever a reconcile stores network interfaces in a server's status, they are those last registered for its system
   * UUID and not deleted since.
   */
  lemma {:induction false} ReportIsLastWord(cfg: Settings, ws: seq<World>, steps: seq<Step>, i: nat, n: Name,
                                            nics: Nics)
    requires Run(cfg, ws, steps) && i < |steps|
    ensures SetNics(n, nics) in Performed(ws[i], cfg, steps[i]) ==>
              && steps[i].ReconcileServer? && steps[i].n == n && n in ws[i].servers
              && exists j: nat :: Registry.LastWord(History(cfg, ws, steps, i), j, ws[i].servers[n].uuid, nics)
  {
    if SetNics(n, nics) in Performed(ws[i], cfg, steps[i]) {
      StoresReport(ws[i], cfg, steps[i], n, nics);
      RegistryIsReplay(cfg, ws, steps, i);
      Registry.StoreHoldsLastWord(History(cfg, ws, steps, i), ws[i].servers[n].uuid, nics);
    }
  }

  /** The step stores what the registry holds for the server. */
  lemma {:induction false} StoresReport(w: World, cfg: Settings, step: Step, n: Name, nics: Nics)
    ensures SetNics(n, nics) in Performed(w, cfg, step) ==>
              && step.ReconcileServer? && step.n == n && n in w.servers
              && w.servers[n].uuid in w.registry && w.registry[w.servers[n].uuid] == nics
  {
    match step {
      case ReconcileClaim(key, cut) => ClaimStoresNone(w, key, n, nics);
      case ReconcileServer(m, late, cut) => ServerStoresReport(w, cfg, m, late, n, nics);
      case _ =>
    }
  }

  lemma {:induction false} ClaimStoresNone(w: World, key: Key, n: Name, nics: Nics)
    ensures SetNics(n, nics) !in ClaimPlan(w, key)
  {
  }

  lemma {:induction false} ServerStoresReport(w: World, cfg: Settings, m: Name, late: bool, n: Name, nics: Nics)
    ensures SetNics(n, nics) in ServerPlan(w, cfg, m, late) ==>
              && m == n && n in w.servers
              && w.servers[n].uuid in w.registry && w.registry[w.servers[n].uuid] == nics
  {
    if m in w.servers {
      HandlerStoresReport(w, cfg, m, Refreshed(w, m), late, n, nics);
    }
  }

  lemma {:induction false} HandlerStoresReport(w: World, cfg: Settings, m: Name, s: Server, late: bool, n: Name,
                                               nics: Nics)
    ensures SetNics(n, nics) in HandlerPlan(w, cfg, m, s, late) ==>
              m == n && s.uuid in w.registry && w.registry[s.uuid] == nics
  {
    match s.state {
      case Initial => InitialStoresNone(w, cfg, m, s);
      case Available => AvailableStoresNone(w, m, s);
      case _ =>
    }
  }

  predicate StoresNone(es: seq<Effect>) {
    forall k :: 0 <= k < |es| ==> !es[k].SetNics?
  }

  lemma {:induction false} InitialStoresNone(w: World, cfg: Settings, n: Name, s: Server)
    ensures StoresNone(InitialPlan(w, cfg, n, s))
  {
    var key := InternalKey(cfg, n);
    var head := Commands(n, PowerOp(s.power, s.powerState)) + ConfigEffects(w, key, InternalConfig(w, cfg, n));
    var tail := BootRefEffects(n, s, key) + When(s.hasBmc, SetState(n, Discovery));
    assert StoresNone(head) && StoresNone(tail);
    assert StoresNone(head + tail);
  }

  lemma {:induction false} AvailableStoresNone(w: World, n: Name, s: Server)
    ensures StoresNone(AvailablePlan(w, n, s))
  {
    assert StoresNone(ShutDown(n, s));
  }
}
