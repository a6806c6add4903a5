/** A run, from the very beginning, in which a Bound claim loses its server because another claim is finalised. */
module Unbinding {
  import opened Options
  import opened Metal
  import opened World
  import opened Reservation
  import opened Progress
  import opened PowerCommands

  /** A run that leads here, without a claim finalised against another's server so far. */
  ghost predicate Reaches(cfg: Settings, ws: seq<World>, steps: seq<Step>, w: World) {
    && Run(cfg, ws, steps) && ws[|steps|] == w
    && forall j :: 0 <= j < |steps| ==> Allowed(ws[j], View(cfg, true), steps[j])
  }

  lemma {:induction false} Further(cfg: Settings, ws: seq<World>, steps: seq<Step>, w: World, step: Step)
    returns (ws': seq<World>, steps': seq<Step>)
    requires Reaches(cfg, ws, steps, w) && Allowed(w, View(cfg, true), step)
    ensures Reaches(cfg, ws', steps', After(w, cfg, step))
  {
    ws', steps' := ws + [After(w, cfg, step)], steps + [step];
    RunGrows(cfg, ws, steps, step);
    AllowedGrows(cfg, ws, steps, step, After(w, cfg, step));
  }

  lemma {:induction false} AllowedGrows(cfg: Settings, ws: seq<World>, steps: seq<Step>, step: Step, w: World)
    requires |ws| == |steps| + 1 && Allowed(ws[|steps|], View(cfg, true), step)
    requires forall j :: 0 <= j < |steps| ==> Allowed(ws[j], View(cfg, true), steps[j])
    ensures forall j :: 0 <= j <= |steps| ==> Allowed((ws + [w])[j], View(cfg, true), (steps + [step])[j])
  {
  }

  // ----- a server comes up -----

  /** A server with a BMC that is off and is to be off, in this state. */
  function Fresh(uuid: string, state: ServerState, boot: Option<Key>): Server {
    Server(map[], uuid, true, true, false, PowerOff, None, boot, state, Off, [])
  }

  function ProbeConfig(cfg: Settings, n: Name, state: BootState): Config {
    Config(n, cfg.probeImage, Some(n), None, true, state)
  }

  /** Initial prepares the probe. */
  lemma {:induction false} Prepares(w: World, cfg: Settings, n: Name, uuid: string)
    requires n in w.servers && w.servers[n] == Fresh(uuid, Initial, None) && w.configs == map[]
    requires n in w.bmc && w.bmc[n] == Off
    ensures var key := InternalKey(cfg, n);
            After(w, cfg, ReconcileServer(n, false, 9)) ==
            OnServer(w.(configs := map[key := ProbeConfig(cfg, n, NoBootState)]), n,
                     Fresh(uuid, Discovery, Some(key)))
  {
    var key, config := InternalKey(cfg, n), ProbeConfig(cfg, n, NoBootState);
    var a, b, c := PutConfig(key, config), SetBootRef(n, Some(key)), SetState(n, Discovery);
    PreparesPlan(w, cfg, n, uuid);
    ApplyOne(w, a);
    ApplyAllSum(w, [a], [b, c]);
    ApplyTwo(Apply(w, a), b, c);
  }

  lemma {:induction false} PreparesPlan(w: World, cfg: Settings, n: Name, uuid: string)
    requires n in w.servers && w.servers[n] == Fresh(uuid, Initial, None) && w.configs == map[]
    requires n in w.bmc && w.bmc[n] == Off
    ensures var key := InternalKey(cfg, n);
            ServerPlan(w, cfg, n, false) ==
            [PutConfig(key, ProbeConfig(cfg, n, NoBootState))] + [SetBootRef(n, Some(key)), SetState(n, Discovery)]
  {
  }

  lemma {:induction false} ApplyTwo(w: World, a: Effect, b: Effect)
    ensures ApplyAll(w, [a, b]) == Apply(Apply(w, a), b)
  {
    ApplyOne(w, a);
    ApplyOne(Apply(w, a), b);
    ApplyAllSum(w, [a], [b]);
    assert [a] + [b] == [a, b];
  }

  lemma {:induction false} ApplySix(w: World, a: Effect, b: Effect, c: Effect, d: Effect, e: Effect, f: Effect)
    ensures ApplyAll(w, [a, b] + [c, d] + [e, f]) == Apply(Apply(Apply(Apply(Apply(Apply(w, a), b), c), d), e), f)
  {
    var w1 := Apply(Apply(w, a), b);
    var w2 := Apply(Apply(w1, c), d);
    ApplyTwo(w, a, b);
    ApplyTwo(w1, c, d);
    ApplyTwo(w2, e, f);
    ApplyAllSum(w, [a, b], [c, d]);
    ApplyAllSum(w, [a, b] + [c, d], [e, f]);
  }

  /** A server about to be discovered: its probe has been booted and has reported. */
  ghost predicate Reported(w: World, n: Name, uuid: string, key: Key) {
    && n in w.servers && w.servers[n] == Fresh(uuid, Discovery, Some(key))
    && key in w.configs && w.configs[key].state == Ready
    && n in w.bmc && w.bmc[n] == Off && uuid in w.registry && w.registry[uuid] == []
  }

  lemma {:induction false} DiscoversPlan(w: World, cfg: Settings, n: Name, uuid: string, key: Key)
    requires Reported(w, n, uuid, key)
    ensures ServerPlan(w, cfg, n, false) ==
            [Observe(n), SetPower(n, PowerOn)] + [Command(n, true), SetNics(n, [])]
            + [Unregister(uuid), SetState(n, Available)]
  {
    assert DiscoveryEnd(w, n, w.servers[n], false) == [SetNics(n, []), Unregister(uuid), SetState(n, Available)];
    assert Commands(n, PowerOp(PowerOn, Off)) == [Command(n, true)];
  }

  /** Discovery takes the probe's report; the status still says that the machine is off. */
  lemma {:induction false} Discovers(w: World, cfg: Settings, n: Name, uuid: string, key: Key) returns (w': World)
    requires Reported(w, n, uuid, key)
    ensures w' == After(w, cfg, ReconcileServer(n, false, 9))
    ensures w'.servers == w.servers[n := Fresh(uuid, Available, Some(key)).(power := PowerOn)]
    ensures w'.claims == w.claims && w'.configs == w.configs && w'.order == w.order && w'.nextUid == w.nextUid
  {
    DiscoversPlan(w, cfg, n, uuid, key);
    ApplySix(w, Observe(n), SetPower(n, PowerOn), Command(n, true), SetNics(n, []), Unregister(uuid),
             SetState(n, Available));
    w' := AfterSix(w, n, uuid, key);
  }

  lemma {:induction false} AfterSix(w: World, n: Name, uuid: string, key: Key) returns (w': World)
    requires n in w.servers && w.servers[n] == Fresh(uuid, Discovery, Some(key))
    ensures w' == Apply(Apply(Apply(Apply(Apply(Apply(w, Observe(n)), SetPower(n, PowerOn)), Command(n, true)),
                                    SetNics(n, [])), Unregister(uuid)), SetState(n, Available))
    ensures w'.servers == w.servers[n := Fresh(uuid, Available, Some(key)).(power := PowerOn)]
    ensures w'.claims == w.claims && w'.configs == w.configs && w'.order == w.order && w'.nextUid == w.nextUid
  {
    var w1 := Apply(Apply(w, Observe(n)), SetPower(n, PowerOn));
    var w2 := Apply(Apply(w1, Command(n, true)), SetNics(n, []));
    w' := Apply(Apply(w2, Unregister(uuid)), SetState(n, Available));
  }

  lemma {:induction false} ComesUp(cfg: Settings, w: World, n: Name, uuid: string)
    returns (ws: seq<World>, steps: seq<Step>, w': World)
    requires Start(w)
    ensures Reaches(cfg, ws, steps, w') && w'.claims == map[] && w'.order == [n] && w'.nextUid == w.nextUid
    ensures var key := InternalKey(cfg, n);
            && w'.servers == map[n := Fresh(uuid, Available, Some(key)).(power := PowerOn)]
            && w'.configs == map[key := ProbeConfig(cfg, n, Ready)]
  {
    var key, reconcile := InternalKey(cfg, n), ReconcileServer(n, false, 9);
    ws, steps := [w], [];
    ws, steps := Further(cfg, ws, steps, w, CreateServer(n, Fresh(uuid, Empty, None), Off));
    var w1 := After(w, cfg, CreateServer(n, Fresh(uuid, Empty, None), Off));
    ws, steps := Further(cfg, ws, steps, w1, reconcile);
    FirstReconciles(cfg, w1, n);
    var w2 := OnServer(w1, n, Fresh(uuid, Initial, None));
    ws, steps, w' := Probed(cfg, ws, steps, w2, n, uuid);
  }

  lemma {:induction false} Probed(cfg: Settings, ws: seq<World>, steps: seq<Step>, w: World, n: Name, uuid: string)
    returns (ws': seq<World>, steps': seq<Step>, w': World)
    requires Reaches(cfg, ws, steps, w)
    requires w.servers == map[n := Fresh(uuid, Initial, None)] && w.configs == map[]
    requires n in w.bmc && w.bmc[n] == Off
    ensures Reaches(cfg, ws', steps', w')
    ensures w'.claims == w.claims && w'.order == w.order && w'.nextUid == w.nextUid
    ensures var key := InternalKey(cfg, n);
            && w'.servers == map[n := Fresh(uuid, Available, Some(key)).(power := PowerOn)]
            && w'.configs == map[key := ProbeConfig(cfg, n, Ready)]
  {
    var w1;
    ws', steps', w1 := ProbeBoots(cfg, ws, steps, w, n, uuid);
    ws', steps' := Further(cfg, ws', steps', w1, ReconcileServer(n, false, 9));
    w' := Discovers(w1, cfg, n, uuid, InternalKey(cfg, n));
  }

  lemma {:induction false} ProbeBoots(cfg: Settings, ws: seq<World>, steps: seq<Step>, w: World, n: Name, uuid: string)
    returns (ws': seq<World>, steps': seq<Step>, w': World)
    requires Reaches(cfg, ws, steps, w)
    requires w.servers == map[n := Fresh(uuid, Initial, None)] && w.configs == map[]
    requires n in w.bmc && w.bmc[n] == Off
    ensures var key := InternalKey(cfg, n);
            && Reaches(cfg, ws', steps', w') && Reported(w', n, uuid, key)
            && w'.servers == map[n := Fresh(uuid, Discovery, Some(key))]
            && w'.configs == map[key := ProbeConfig(cfg, n, Ready)]
    ensures w'.claims == w.claims && w'.order == w.order && w'.nextUid == w.nextUid
  {
    var key, reconcile := InternalKey(cfg, n), ReconcileServer(n, false, 9);
    ws', steps' := Further(cfg, ws, steps, w, reconcile);
    Prepares(w, cfg, n, uuid);
    var w1 := After(w, cfg, reconcile);
    ws', steps' := Further(cfg, ws', steps', w1, MarkConfig(key, Ready));
    var w2 := Marked(w1, cfg, n);
    ws', steps' := Further(cfg, ws', steps', w2, Register(uuid, []));
    w' := Registered(w2, cfg, uuid);
  }

  lemma {:induction false} Marked(w: World, cfg: Settings, n: Name) returns (w': World)
    requires w.configs == map[InternalKey(cfg, n) := ProbeConfig(cfg, n, NoBootState)]
    ensures w' == After(w, cfg, MarkConfig(InternalKey(cfg, n), Ready))
    ensures w'.configs == map[InternalKey(cfg, n) := ProbeConfig(cfg, n, Ready)]
    ensures w'.servers == w.servers && w'.claims == w.claims && w'.order == w.order && w'.nextUid == w.nextUid
    ensures w'.bmc == w.bmc
  {
    w' := After(w, cfg, MarkConfig(InternalKey(cfg, n), Ready));
  }

  lemma {:induction false} Registered(w: World, cfg: Settings, uuid: string) returns (w': World)
    ensures w' == After(w, cfg, Register(uuid, [])) && uuid in w'.registry && w'.registry[uuid] == []
    ensures w'.servers == w.servers && w'.claims == w.claims && w'.order == w.order && w'.nextUid == w.nextUid
    ensures w'.bmc == w.bmc && w'.configs == w.configs
  {
    w' := After(w, cfg, Register(uuid, []));
  }

  // ----- two claims -----

  function Naming(uid: UID, n: Name): Claim {
    Claim(uid, PowerOff, Some(n), None, "", None, NoPhase, false, false, false)
  }

  /** Fault-free reconciles bring a servable claim that names its server to its fixpoint. */
  lemma {:induction false} Settles(cfg: Settings, ws: seq<World>, steps: seq<Step>, w: World, key: Key)
    returns (ws': seq<World>, steps': seq<Step>, w': World)
    requires Reaches(cfg, ws, steps, w) && Servable(w, key) && w.claims[key].serverRef.Some?
    ensures Reaches(cfg, ws', steps', w') && Settled(w', key)
    ensures w'.claims.Keys == w.claims.Keys && !w'.claims[key].deleting
    ensures w'.claims[key].serverRef == w.claims[key].serverRef
    decreases Remaining(w, key)
  {
    if Remaining(w, key) == 0 {
      NothingRemains(w, key);
      ws', steps', w' := ws, steps, w;
    } else {
      Progresses(w, key);
      SameClaims(w, key);
      ws', steps' := OnceMore(cfg, ws, steps, w, key);
      ws', steps', w' := Settles(cfg, ws', steps', ReconcileOnce(w, key), key);
    }
  }

  lemma {:induction false} OnceMore(cfg: Settings, ws: seq<World>, steps: seq<Step>, w: World, key: Key)
    returns (ws': seq<World>, steps': seq<Step>)
    requires Reaches(cfg, ws, steps, w) && Servable(w, key)
    ensures Reaches(cfg, ws', steps', ReconcileOnce(w, key))
  {
    ws', steps' := Further(cfg, ws, steps, w, ReconcileClaim(key, |ClaimPlan(w, key)|));
  }

  /** The first two reconciles of a claim concern only the claim. */
  lemma {:induction false} Initialised(cfg: Settings, w: World, key: Key)
    requires key in w.claims
    requires var c := w.claims[key]; !c.deleting && !c.ignored && (c.phase == NoPhase || !c.finalizer)
    ensures var c := w.claims[key];
            After(w, cfg, ReconcileClaim(key, 9)) ==
            OnClaim(w, key, if c.phase == NoPhase then c.(phase := Unbound) else c.(finalizer := true))
  {
    InitialiseResult(w, key);
  }

  /** A second claim names the server of the first, gets its finalizer and is deleted. */
  lemma {:induction false} Rival(cfg: Settings, ws: seq<World>, steps: seq<Step>, w: World, key: Key, n: Name)
    returns (ws': seq<World>, steps': seq<Step>, w': World)
    requires Reaches(cfg, ws, steps, w) && key !in w.claims && key.namespace != cfg.managerNamespace
    ensures Reaches(cfg, ws', steps', w') && w'.servers == w.servers && w'.configs == w.configs
    ensures var c := Naming(w.nextUid, n).(phase := Unbound, finalizer := true, deleting := true);
            w'.claims == w.claims[key := c]
  {
    var c := Naming(w.nextUid, n);
    ws', steps' := Further(cfg, ws, steps, w, CreateClaim(key, c));
    var w1 := After(w, cfg, CreateClaim(key, c));
    ws', steps' := Further(cfg, ws', steps', w1, ReconcileClaim(key, 9));
    Initialised(cfg, w1, key);
    var w2 := After(w1, cfg, ReconcileClaim(key, 9));
    ws', steps' := Further(cfg, ws', steps', w2, ReconcileClaim(key, 9));
    Initialised(cfg, w2, key);
    var w3 := After(w2, cfg, ReconcileClaim(key, 9));
    ws', steps' := Further(cfg, ws', steps', w3, DeleteClaim(key));
    w' := After(w3, cfg, DeleteClaim(key));
  }

  /** The first claim is Bound to the server. */
  lemma {:induction false} Binds(cfg: Settings, w: World, n: Name, uuid: string, a: Key)
    returns (ws: seq<World>, steps: seq<Step>, w': World)
    requires Start(w) && a.namespace != cfg.managerNamespace
    ensures Reaches(cfg, ws, steps, w') && Settled(w', a) && !w'.claims[a].deleting
    ensures w'.claims.Keys == {a} && w'.claims[a].serverRef == Some(n)
  {
    var w1;
    ws, steps, w1 := ComesUp(cfg, w, n, uuid);
    ws, steps := Further(cfg, ws, steps, w1, CreateClaim(a, Naming(w1.nextUid, n)));
    var w2 := After(w1, cfg, CreateClaim(a, Naming(w1.nextUid, n)));
    assert Servable(w2, a);
    ws, steps, w' := Settles(cfg, ws, steps, w2, a);
  }

  /** A reconcile of a servable claim leaves the set of claims and the server it names. */
  lemma {:induction false} SameClaims(w: World, key: Key)
    requires Servable(w, key) && w.claims[key].serverRef.Some?
    ensures var w' := ReconcileOnce(w, key);
            && w'.claims.Keys == w.claims.Keys && !w'.claims[key].deleting
            && w'.claims[key].serverRef == w.claims[key].serverRef
  {
    var c := w.claims[key];
    if c.phase == NoPhase || !c.finalizer {
      InitialiseResult(w, key);
    } else if w.servers[c.serverRef.value].claimRef.None? {
      TakeNamedResult(w, key);
    } else {
      BindResult(w, key);
    }
  }

  /**
   * A run in which a live Bound claim is coherent until its last step, the finalisation of another claim that names the
   * same server, and is not coherent after it.
   */
  lemma {:induction false} LosesItsServer(cfg: Settings, w: World, n: Name, uuid: string, a: Key, b: Key)
    returns (ws: seq<World>, steps: seq<Step>)
    requires Start(w) && a != b && a.namespace != cfg.managerNamespace && b.namespace != cfg.managerNamespace
    ensures Run(cfg, ws, steps) && |steps| > 0
    ensures var last := |steps| - 1;
            && Live(ws[last], View(cfg, true), a) && Coherent(ws[last], a)
            && Live(ws[last + 1], View(cfg, true), a) && !Coherent(ws[last + 1], a)
  {
    var w1, w2;
    ws, steps, w1 := Binds(cfg, w, n, uuid, a);
    ws, steps, w2 := Rival(cfg, ws, steps, w1, b, n);
    RunKeeps(View(cfg, true), ws, steps, |steps|);
    FinalisingUnbindsOthers(w2, cfg, b, a);
    ws, steps := Finalised(cfg, ws, steps, w2, b);
  }

  lemma {:induction false} Finalised(cfg: Settings, ws: seq<World>, steps: seq<Step>, w: World, key: Key)
    returns (ws': seq<World>, steps': seq<Step>)
    requires Run(cfg, ws, steps) && ws[|steps|] == w
    ensures Run(cfg, ws', steps') && |steps'| == |steps| + 1
    ensures ws'[|steps|] == w && ws'[|steps'|] == After(w, cfg, ReconcileClaim(key, |ClaimPlan(w, key)|))
  {
    var step := ReconcileClaim(key, |ClaimPlan(w, key)|);
    RunGrows(cfg, ws, steps, step);
    ws', steps' := ws + [After(w, cfg, step)], steps + [step];
  }
}
