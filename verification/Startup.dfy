/**
 * What reconciles of new servers must do: a server that has been created becomes Available, with the probe's report.
 */
module Startup {
  import opened Options
  import opened Metal
  import opened World
  import opened Progress
  import opened Convergence
  import opened Serving

  // ----- what one reconcile does -----

  /** A server that a reconcile finds before it is Available. */
  predicate Found(w: World, n: Name, state: ServerState) {
    && n in w.servers && n in w.bmc
    && var s := w.servers[n];
    && s.hasBmc && s.finalizer && !s.ignored && s.claimRef.None? && s.state == state
  }

  /** The power state is refreshed, then the handler runs. */
  lemma {:induction false} HandlerRuns(w: World, cfg: Settings, n: Name, late: bool) returns (w1: World)
    requires n in w.servers && n in w.bmc
    requires Found(w, n, Initial) || Found(w, n, Discovery)
    ensures w1 == OnServer(w, n, w.servers[n].(powerState := w.bmc[n]))
    ensures ApplyAll(w, ServerPlan(w, cfg, n, late)) == ApplyAll(w1, HandlerPlan(w, cfg, n, w1.servers[n], late))
  {
    var s' := Refreshed(w, n);
    RefreshOnly(w, n);
    w1 := OnServer(w, n, s');
    ApplyAllSum(w, When(s'.powerState != w.servers[n].powerState, SetPowerState(n, s'.powerState)),
                HandlerPlan(w, cfg, n, s', late));
  }

  /** A server gets its first state, then its finalizer. */
  lemma {:induction false} FirstResults(w: World, cfg: Settings, n: Name, late: bool)
    requires n in w.servers && !w.servers[n].ignored && (w.servers[n].state == Empty || !w.servers[n].finalizer)
    ensures var s := w.servers[n];
            ApplyAll(w, ServerPlan(w, cfg, n, late)) ==
            OnServer(w, n, if s.state == Empty then s.(state := Initial) else s.(finalizer := true))
  {
    ApplyOne(w, SetState(n, Initial));
    ApplyOne(w, AddServerFinalizer(n));
  }

  /**
   * Initial waits until the desired power is Off: it was unset, or the machine is on and the first boot is enforced.
   */
  predicate Waits(w: World, cfg: Settings, n: Name)
    requires n in w.servers && n in w.bmc
  {
    var s := w.servers[n];
    || (s.power == PowerUnset && w.bmc[n] == Off)
    || (s.power != PowerOff && w.bmc[n] == On && cfg.enforceFirstBoot)
  }

  /** Waiting, Initial asks for Off and does nothing else. */
  lemma {:induction false} WaitResult(w: World, cfg: Settings, n: Name, late: bool)
    requires Found(w, n, Initial) && Waits(w, cfg, n)
    ensures ApplyAll(w, ServerPlan(w, cfg, n, late)) ==
            OnServer(w, n, w.servers[n].(powerState := w.bmc[n], power := PowerOff))
  {
    var w1 := HandlerRuns(w, cfg, n, late);
    ApplyOne(w1, SetPower(n, PowerOff));
    assert InitialPlan(w, cfg, n, w1.servers[n]) == [SetPower(n, PowerOff)];
  }

  /**
   * Otherwise it brings the machine to the desired power, puts the configuration of the probe in place and goes to
   * Discovery. So if the first boot is enforced, a machine that was on is off by then.
   */
  lemma {:induction false} InitialResult(w: World, cfg: Settings, n: Name, late: bool)
    requires Found(w, n, Initial) && !Waits(w, cfg, n)
    ensures var key, w' := Key(cfg.managerNamespace, n), ApplyAll(w, ServerPlan(w, cfg, n, late));
            && n in w'.servers && w'.servers == w.servers[n := w'.servers[n]]
            && w'.servers[n] == w.servers[n].(powerState := w.bmc[n], bootRef := Some(key), state := Discovery)
            && key in w'.configs && w'.configs == w.configs[key := w'.configs[key]] && BootsProbe(w', cfg, n)
            && (key in w.configs ==> w'.configs[key].state == w.configs[key].state)
            && w'.bmc == w.bmc[n := Commanded(w.servers[n].power, w.bmc[n])]
            && w'.registry == w.registry && w'.claims == w.claims
            && (cfg.enforceFirstBoot && w.bmc[n] == On ==> w'.bmc[n] == Off)
  {
    var w1 := HandlerRuns(w, cfg, n, late);
    var w' := InitialEffects(w, w1, cfg, n, w1.servers[n]);
  }

  lemma {:induction false} InitialEffects(w: World, w1: World, cfg: Settings, n: Name, s: Server) returns (w': World)
    requires n in w1.servers && n in w1.bmc && w1.servers[n] == s && s.hasBmc && s.powerState == w1.bmc[n]
    requires w1.configs == w.configs && s.state == Initial && !Waits(w1, cfg, n)
    ensures w' == ApplyAll(w1, InitialPlan(w, cfg, n, s))
    ensures var key := Key(cfg.managerNamespace, n);
            && w'.servers == w1.servers[n := s.(bootRef := Some(key), state := Discovery)]
            && key in w'.configs && w'.configs == w1.configs[key := w'.configs[key]] && BootsProbe(w', cfg, n)
            && (key in w.configs ==> w'.configs[key].state == w.configs[key].state)
    ensures w'.bmc == w1.bmc[n := Commanded(s.power, w1.bmc[n])]
    ensures w'.registry == w1.registry && w'.claims == w1.claims
  {
    var key, config := InternalKey(cfg, n), InternalConfig(w, cfg, n);
    var a, b := Commands(n, PowerOp(s.power, s.powerState)), ConfigEffects(w, key, config);
    var c, d := BootRefEffects(n, s, key), [SetState(n, Discovery)];
    CommandsBring(w1, n, s);
    var w2 := w1.(bmc := w1.bmc[n := Commanded(s.power, w1.bmc[n])]);
    ConfigPut(w, w2, key, config);
    var w3 := w2.(configs := w.configs[key := config]);
    ApplyAllSum(w1, a, b);
    BootedAndDiscovering(w3, n, key);
    w' := OnServer(w3, n, s.(bootRef := Some(key), state := Discovery));
    ApplyAllSum(w1, a + b, c + d);
  }

  lemma {:induction false} ConfigPut(w: World, w2: World, key: Key, config: Config)
    requires w2.configs == w.configs
    ensures ApplyAll(w2, ConfigEffects(w, key, config)) == w2.(configs := w.configs[key := config])
  {
    ApplyWhen(w2, !(key in w.configs && w.configs[key] == config), PutConfig(key, config));
  }

  lemma {:induction false} BootedAndDiscovering(w: World, n: Name, key: Key)
    requires n in w.servers
    ensures ApplyAll(w, BootRefEffects(n, w.servers[n], key) + [SetState(n, Discovery)]) ==
            OnServer(w, n, w.servers[n].(bootRef := Some(key), state := Discovery))
  {
    var s := w.servers[n];
    ApplyWhen(w, s.bootRef != Some(key), SetBootRef(n, Some(key)));
    var w1 := OnServer(w, n, s.(bootRef := Some(key)));
    assert ApplyAll(w, BootRefEffects(n, s, key)) == w1;
    ApplyAllSum(w, BootRefEffects(n, s, key), [SetState(n, Discovery)]);
    ApplyOne(w1, SetState(n, Discovery));
  }

  /**
   * Discovery, once its boot configuration is Ready, switches the machine on. When it is late it goes back to Initial;
   * otherwise it takes the report, if there is one, removes it from the registry and becomes Available.
   */
  lemma {:induction false} DiscoveryResult(w: World, cfg: Settings, n: Name, late: bool)
    requires Found(w, n, Discovery)
    requires var boot := w.servers[n].bootRef;
             boot.Some? && boot.value in w.configs && w.configs[boot.value].state == Ready
    ensures var w' := ApplyAll(w, ServerPlan(w, cfg, n, late));
            var s := w.servers[n].(powerState := w.bmc[n], power := PowerOn);
            && n in w'.servers && w'.servers == w.servers[n := w'.servers[n]]
            && w'.servers[n] == (if late then s.(state := Initial)
                                 else if s.uuid in w.registry
                                 then s.(nics := w.registry[s.uuid], state := Available) else s)
            && w'.registry == (if late then w.registry else w.registry - {s.uuid})
            && w'.bmc == w.bmc[n := Commanded(PowerOn, w.bmc[n])]
            && w'.configs == w.configs && w'.claims == w.claims
  {
    var w1 := HandlerRuns(w, cfg, n, late);
    var w' := DiscoveryEffects(w, w1, n, w1.servers[n], late);
  }

  lemma {:induction false} DiscoveryEffects(w: World, w1: World, n: Name, s: Server, late: bool) returns (w': World)
    requires n in w1.servers && n in w1.bmc && w1.servers[n] == s && s.hasBmc && s.powerState == w1.bmc[n]
    requires BootReady(w, s) && w1.registry == w.registry
    ensures w' == ApplyAll(w1, DiscoveryPlan(w, n, s, late))
    ensures n in w'.servers && w'.servers == w1.servers[n := w'.servers[n]]
    ensures var s' := s.(power := PowerOn);
            w'.servers[n] == if late then s'.(state := Initial)
                             else if s.uuid in w.registry then s'.(nics := w.registry[s.uuid], state := Available)
                             else s'
    ensures w'.registry == if late then w.registry else w.registry - {s.uuid}
    ensures w'.bmc == w1.bmc[n := Commanded(PowerOn, w1.bmc[n])] && w'.configs == w1.configs && w'.claims == w1.claims
  {
    var a := [Observe(n)] + When(s.power != PowerOn, SetPower(n, PowerOn));
    var b := Commands(n, PowerOp(PowerOn, s.powerState));
    var s' := s.(power := PowerOn);
    SwitchedOn(w1, n);
    var w2 := OnServer(Apply(w1, Observe(n)), n, s');
    CommandsBring(w2, n, s');
    var w3 := w2.(bmc := w2.bmc[n := Commanded(PowerOn, w2.bmc[n])]);
    ApplyAllSum(w2, b, DiscoveryEnd(w, n, s, late));
    ApplyAllSum(w1, a, b + DiscoveryEnd(w, n, s, late));
    w' := EndEffects(w, w3, n, s', late);
    assert DiscoveryEnd(w, n, s, late) == DiscoveryEnd(w, n, s', late);
  }

  lemma {:induction false} SwitchedOn(w: World, n: Name)
    requires n in w.servers
    ensures ApplyAll(w, [Observe(n)] + When(w.servers[n].power != PowerOn, SetPower(n, PowerOn))) ==
            OnServer(Apply(w, Observe(n)), n, w.servers[n].(power := PowerOn))
  {
    var e := When(w.servers[n].power != PowerOn, SetPower(n, PowerOn));
    ApplyAllSum(w, [Observe(n)], e);
    ApplyOne(w, Observe(n));
    ApplyWhen(Apply(w, Observe(n)), w.servers[n].power != PowerOn, SetPower(n, PowerOn));
  }

  lemma {:induction false} EndEffects(w: World, w1: World, n: Name, s: Server, late: bool) returns (w': World)
    requires n in w1.servers && w1.servers[n] == s && w1.registry == w.registry
    ensures w' == ApplyAll(w1, DiscoveryEnd(w, n, s, late))
    ensures n in w'.servers && w'.servers == w1.servers[n := w'.servers[n]]
    ensures w'.servers[n] == if late then s.(state := Initial)
                             else if s.uuid in w.registry then s.(nics := w.registry[s.uuid], state := Available) else s
    ensures w'.registry == if late then w.registry else w.registry - {s.uuid}
    ensures w'.bmc == w1.bmc && w'.configs == w1.configs && w'.claims == w1.claims
  {
    if late {
      ApplyOne(w1, SetState(n, Initial));
      w' := Apply(w1, SetState(n, Initial));
    } else if s.uuid in w.registry {
      w' := ReportTaken(w1, n, w.registry[s.uuid]);
    } else {
      w' := w1;
      assert ApplyAll(w1, []) == w1;
    }
  }

  lemma {:induction false} ReportTaken(w: World, n: Name, nics: Nics) returns (w': World)
    requires n in w.servers
    ensures w' == ApplyAll(w, [SetNics(n, nics), Unregister(w.servers[n].uuid), SetState(n, Available)])
    ensures n in w'.servers && w'.servers == w.servers[n := w'.servers[n]]
    ensures w'.servers[n] == w.servers[n].(nics := nics, state := Available)
    ensures w'.registry == w.registry - {w.servers[n].uuid}
    ensures w'.bmc == w.bmc && w'.configs == w.configs && w'.claims == w.claims
  {
    var a, b, c := SetNics(n, nics), Unregister(w.servers[n].uuid), SetState(n, Available);
    ApplyThree(w, a, b, c);
    w' := Apply(Apply(Apply(w, a), b), c);
  }

  lemma {:induction false} ApplyThree(w: World, a: Effect, b: Effect, c: Effect)
    ensures ApplyAll(w, [a, b, c]) == Apply(Apply(Apply(w, a), b), c)
  {
    assert [a, b, c][..2] == [a, b] && [a, b][..1] == [a];
    ApplyOne(w, a);
  }

  // ----- from creation to Available -----

  /** The probe boots and reports: its configuration becomes Ready, and it registers these interfaces. */
  function Help(w: World, cfg: Settings, n: Name, nics: Nics): World {
    var w1 := After(w, cfg, MarkConfig(InternalKey(cfg, n), Ready));
    if n in w.servers then After(w1, cfg, Register(w.servers[n].uuid, nics)) else w1
  }

  /** One fault-free reconcile of the server in time, after the probe did its part. */
  function UpRound(w: World, cfg: Settings, n: Name, nics: Nics): World {
    ApplyAll(Help(w, cfg, n, nics), ServerPlan(Help(w, cfg, n, nics), cfg, n, false))
  }

  /** The configuration that boots the probe. */
  predicate BootsProbe(w: World, cfg: Settings, n: Name) {
    var key := Key(cfg.managerNamespace, n);
    && key in w.configs
    && var config := w.configs[key];
    config.serverRef == n && config.image == cfg.probeImage && config.ignition == Some(n) && config.internal
  }

  /** An unclaimed server with a BMC that is not Available yet. */
  predicate Starting(w: World, cfg: Settings, n: Name) {
    && n in w.servers && n in w.bmc
    && var s := w.servers[n];
    && s.hasBmc && !s.ignored && s.claimRef.None? && !Claimed(s.state)
    && (s.state == Discovery ==> s.bootRef == Some(Key(cfg.managerNamespace, n)) && BootsProbe(w, cfg, n))
  }

  /** The server is Available with the probe's report, and its machine runs the probe. */
  predicate Discovered(w: World, cfg: Settings, n: Name, nics: Nics) {
    && n in w.servers && n in w.bmc
    && var s := w.servers[n];
    && s.hasBmc && !s.ignored && s.claimRef.None? && s.state == Available && s.finalizer
    && s.nics == nics && s.uuid !in w.registry
    && s.power == PowerOn && (w.bmc[n] == On || w.bmc[n] == PoweringOn)
    && s.bootRef == Some(Key(cfg.managerNamespace, n)) && BootsProbe(w, cfg, n)
  }

  function UpRoundsLeft(w: World, cfg: Settings, n: Name): nat
    requires Starting(w, cfg, n)
  {
    var s := w.servers[n];
    (if s.finalizer then 0 else 1)
    + match s.state
      case Empty => 4
      case Initial => if Waits(w, cfg, n) then 3 else 2
      case _ => 1
  }

  lemma {:induction false} HelpResult(w: World, cfg: Settings, n: Name, nics: Nics) returns (w': World)
    requires Starting(w, cfg, n)
    ensures w' == Help(w, cfg, n, nics) && Starting(w', cfg, n) && UpRoundsLeft(w', cfg, n) == UpRoundsLeft(w, cfg, n)
    ensures w'.servers == w.servers && w'.bmc == w.bmc
    ensures w.servers[n].uuid in w'.registry && w'.registry[w.servers[n].uuid] == nics
    ensures w.servers[n].state == Discovery ==> BootReady(w', w'.servers[n])
  {
    w' := Help(w, cfg, n, nics);
  }

  lemma {:induction false} UpRoundProgress(w: World, cfg: Settings, n: Name, nics: Nics)
    requires Starting(w, cfg, n)
    ensures var w' := UpRound(w, cfg, n, nics);
            Discovered(w', cfg, n, nics) || (Starting(w', cfg, n) && UpRoundsLeft(w', cfg, n) < UpRoundsLeft(w, cfg, n))
  {
    var w1 := HelpResult(w, cfg, n, nics);
    var s := w1.servers[n];
    if s.state == Empty || !s.finalizer {
      FirstResults(w1, cfg, n, false);
    } else if s.state == Initial {
      InitialProgress(w1, cfg, n);
    } else {
      DiscoveryProgress(w1, cfg, n, nics);
    }
  }

  lemma {:induction false} InitialProgress(w: World, cfg: Settings, n: Name)
    requires Starting(w, cfg, n) && Found(w, n, Initial)
    ensures var w' := ApplyAll(w, ServerPlan(w, cfg, n, false));
            Starting(w', cfg, n) && UpRoundsLeft(w', cfg, n) < UpRoundsLeft(w, cfg, n)
  {
    if Waits(w, cfg, n) {
      WaitResult(w, cfg, n, false);
    } else {
      InitialResult(w, cfg, n, false);
    }
  }

  lemma {:induction false} DiscoveryProgress(w: World, cfg: Settings, n: Name, nics: Nics)
    requires Starting(w, cfg, n) && Found(w, n, Discovery) && BootReady(w, w.servers[n])
    requires w.servers[n].uuid in w.registry && w.registry[w.servers[n].uuid] == nics
    ensures Discovered(ApplyAll(w, ServerPlan(w, cfg, n, false)), cfg, n, nics)
  {
    DiscoveryResult(w, cfg, n, false);
  }

  /** Available, or so many rounds away from it. */
  predicate Upcoming(w: World, cfg: Settings, n: Name, nics: Nics, left: nat) {
    Discovered(w, cfg, n, nics) || (Starting(w, cfg, n) && UpRoundsLeft(w, cfg, n) <= left)
  }

  lemma {:induction false} OneRoundUp(w: World, cfg: Settings, n: Name, nics: Nics, left: nat)
    requires Upcoming(w, cfg, n, nics, left) && !Discovered(w, cfg, n, nics)
    ensures left > 0 && Upcoming(UpRound(w, cfg, n, nics), cfg, n, nics, left - 1)
  {
    UpRoundProgress(w, cfg, n, nics);
  }

  /** Four reconciles on, the machine is off, the probe's configuration is dropped, and the server can be claimed. */
  ghost predicate Usable(w: World, cfg: Settings, n: Name) {
    forall more: nat :: more >= 4 ==>
      ReadyForUse(Rounds(w, cfg, n, more), n) && Rounds(w, cfg, n, more).servers[n].bootRef.None?
  }

  /** Within so many rounds the server is Available with the probe's report, and on its way to be ready for use. */
  ghost predicate UpWithin(w: World, cfg: Settings, n: Name, nics: Nics, left: nat)
    decreases left
  {
    || (Discovered(w, cfg, n, nics) && Usable(w, cfg, n))
    || (left > 0 && UpWithin(UpRound(w, cfg, n, nics), cfg, n, nics, left - 1))
  }

  lemma {:induction false} ComesUp(w: World, cfg: Settings, n: Name, nics: Nics, left: nat)
    requires Upcoming(w, cfg, n, nics, left)
    ensures UpWithin(w, cfg, n, nics, left)
    decreases left
  {
    if Discovered(w, cfg, n, nics) {
      DiscoveredIsUsable(w, cfg, n, nics);
    } else {
      OneRoundUp(w, cfg, n, nics, left);
      ComesUp(UpRound(w, cfg, n, nics), cfg, n, nics, left - 1);
    }
  }

  lemma {:induction false} DiscoveredIsUsable(w: World, cfg: Settings, n: Name, nics: Nics)
    requires Discovered(w, cfg, n, nics)
    ensures Usable(w, cfg, n)
  {
    forall more: nat | more >= 4
      ensures ReadyForUse(Rounds(w, cfg, n, more), n) && Rounds(w, cfg, n, more).servers[n].bootRef.None?
    {
      FourRounds(w, cfg, n, more);
    }
  }

  /**
   * From wherever it is before Available, and whatever its desired power, a server with a BMC becomes Available with
   * the probe's report within five fault-free reconciles, if the probe boots and reports in time. Four more, and the
   * machine is off, the configuration of the probe is dropped, and the server is ready to be claimed.
   */
  lemma {:induction false} NewServerIsReadyForUse(w: World, cfg: Settings, n: Name, nics: Nics)
    requires Starting(w, cfg, n)
    ensures UpWithin(w, cfg, n, nics, 5)
  {
    ComesUp(w, cfg, n, nics, 5);
  }
}
