/** When machines are switched on. */
module PowerCommands {
  import opened Options
  import opened Metal
  import opened World
  import opened Reservation

  // ----- what a reconcile looks at before it commands -----

  /**
   * What the observations and PowerOn commands among these effects say about the server: only a configuration that is
   * Ready is observed, and no command comes before an observation, except in Initial for a server that is to be on.
   * `seen`: there was an observation before.
   */
  ghost predicate Telling(w: World, n: Name, s: Server, seen: bool, es: seq<Effect>) {
    && (forall m :: Observe(m) in es ==> m == n && BootReady(w, s))
    && (forall k :: 0 <= k < |es| && es[k].Command? && es[k].on ==>
          es[k].n == n && (seen || Observe(n) in es[..k] || (s.state == Initial && s.power == PowerOn)))
  }

  lemma {:induction false} TellingSum(w: World, n: Name, s: Server, seen: bool, a: seq<Effect>, b: seq<Effect>)
    requires Telling(w, n, s, seen, a) && Telling(w, n, s, seen || Observe(n) in a, b)
    ensures Telling(w, n, s, seen, a + b)
  {
    var es := a + b;
    forall k | 0 <= k < |es| && es[k].Command? && es[k].on
      ensures es[k].n == n && (seen || Observe(n) in es[..k] || (s.state == Initial && s.power == PowerOn))
    {
      if k < |a| {
        assert es[..k] == a[..k];
      } else {
        assert es[..k] == a + b[..k - |a|];
      }
    }
    assert forall e :: e in es <==> e in a || e in b;
  }

  lemma {:induction false} TellingCut(w: World, n: Name, s: Server, es: seq<Effect>, cut: nat)
    requires Telling(w, n, s, false, es)
    ensures Telling(w, n, s, false, Cut(es, cut))
  {
    if cut < |es| {
      assert forall k :: 0 <= k < cut ==> es[..cut][..k] == es[..k];
      assert forall e :: e in es[..cut] ==> e in es;
    }
  }

  predicate Silent(es: seq<Effect>) {
    forall k :: 0 <= k < |es| ==> !es[k].Observe? && !(es[k].Command? && es[k].on)
  }

  lemma {:induction false} SilentTells(w: World, n: Name, s: Server, seen: bool, es: seq<Effect>)
    requires Silent(es)
    ensures Telling(w, n, s, seen, es)
  {
  }

  lemma {:induction false} SilentSum(a: seq<Effect>, b: seq<Effect>)
    requires Silent(a) && Silent(b)
    ensures Silent(a + b)
  {
  }

  lemma {:induction false} ClaimPlanIsSilent(w: World, key: Key)
    ensures Silent(ClaimPlan(w, key))
  {
    if key in w.claims && w.claims[key].deleting && w.claims[key].finalizer {
      CleanupIsSilent(w, key, w.claims[key]);
    }
  }

  lemma {:induction false} CleanupIsSilent(w: World, key: Key, c: Claim)
    ensures Silent(CleanupPlan(w, key, c) + [ReleaseClaim(key)])
  {
  }

  lemma {:induction false} InitialTells(w: World, cfg: Settings, n: Name, s: Server)
    requires s.state == Initial
    ensures Telling(w, n, s, false, InitialPlan(w, cfg, n, s))
  {
    var op, key, config := PowerOp(s.power, s.powerState), InternalKey(cfg, n), InternalConfig(w, cfg, n);
    var a, b := Commands(n, op), ConfigEffects(w, key, config);
    var c, d := BootRefEffects(n, s, key), When(s.hasBmc, SetState(n, Discovery));
    SilentSum(c, d);
    SilentTells(w, n, s, false, b);
    TellingSum(w, n, s, false, a, b);
    SilentTells(w, n, s, false, c + d);
    TellingSum(w, n, s, false, a + b, c + d);
  }

  lemma {:induction false} DiscoveryTells(w: World, n: Name, s: Server, late: bool)
    ensures Telling(w, n, s, false, DiscoveryPlan(w, n, s, late))
  {
    if BootReady(w, s) {
      var a, b := [Observe(n)], When(s.power != PowerOn, SetPower(n, PowerOn));
      var c, d := Commands(n, PowerOp(PowerOn, s.powerState)), DiscoveryEnd(w, n, s, late);
      TellingSum(w, n, s, false, a, b);
      SilentTells(w, n, s, true, d);
      TellingSum(w, n, s, true, c, d);
      assert Observe(n) in a + b;
      TellingSum(w, n, s, false, a + b, if s.hasBmc then c + d else []);
    }
  }

  lemma {:induction false} AvailableIsSilent(w: World, n: Name, s: Server)
    ensures Silent(AvailablePlan(w, n, s))
  {
    SilentSum(When(s.power != PowerOff, SetPower(n, PowerOff)),
              Commands(n, if s.hasBmc then PowerOp(PowerOff, s.powerState) else None));
    if s.bootRef.Some? {
      SilentSum(ShutDown(n, s), [DeleteConfig(s.bootRef.value)] + [SetBootRef(n, None)]);
    }
  }

  lemma {:induction false} ReservedTells(w: World, n: Name, s: Server)
    ensures Telling(w, n, s, false, ReservedPlan(w, n, s))
  {
    if BootReady(w, s) {
      TellingSum(w, n, s, false, [Observe(n)], if s.hasBmc then Commands(n, PowerOp(s.power, s.powerState)) else []);
    }
  }

  lemma {:induction false} HandlerTells(w: World, cfg: Settings, n: Name, s: Server, late: bool)
    ensures Telling(w, n, s, false, HandlerPlan(w, cfg, n, s, late))
  {
    match s.state {
      case Initial => InitialTells(w, cfg, n, s);
      case Discovery => DiscoveryTells(w, n, s, late);
      case Available =>
        AvailableIsSilent(w, n, s);
        SilentTells(w, n, s, false, AvailablePlan(w, n, s));
      case Reserved => ReservedTells(w, n, s);
      case Empty =>
    }
  }

  lemma {:induction false} ServerPlanTells(w: World, cfg: Settings, n: Name, late: bool)
    ensures n in w.servers ==> Telling(w, n, w.servers[n], false, ServerPlan(w, cfg, n, late))
    ensures n !in w.servers ==> ServerPlan(w, cfg, n, late) == []
  {
    if n in w.servers {
      var s, s' := w.servers[n], Refreshed(w, n);
      var e1 := When(s'.powerState != s.powerState, SetPowerState(n, s'.powerState));
      var es := HandlerPlan(w, cfg, n, s', late);
      HandlerTells(w, cfg, n, s', late);
      assert Telling(w, n, s, false, es);
      TellingSum(w, n, s, false, e1, es);
    }
  }

  /** What a step performs is silent, or it is the reconcile of a server and tells about it. */
  lemma {:induction false} PerformedTells(w: World, cfg: Settings, step: Step)
    ensures || Silent(Performed(w, cfg, step))
            || (&& step.ReconcileServer? && step.n in w.servers
                && Telling(w, step.n, w.servers[step.n], false, Performed(w, cfg, step)))
  {
    match step {
      case ReconcileClaim(key, cut) => ClaimPlanIsSilent(w, key);
      case ReconcileServer(n, late, cut) =>
        ServerPlanTells(w, cfg, n, late);
        if n in w.servers {
          TellingCut(w, n, w.servers[n], ServerPlan(w, cfg, n, late), cut);
        }
      case _ =>
    }
  }

  // ----- observations -----

  /** The step looked at the server's boot configuration and found it Ready. */
  ghost predicate SawReady(cfg: Settings, ws: seq<World>, steps: seq<Step>, i: nat, n: Name)
    requires i < |steps| < |ws|
  {
    Observe(n) in Performed(ws[i], cfg, steps[i])
  }

  /** Only a reconcile of the server looks, and what it calls Ready is Ready. */
  lemma {:induction false} ObserveMeansReady(w: World, cfg: Settings, step: Step, n: Name)
    ensures Observe(n) in Performed(w, cfg, step) ==>
              && step.ReconcileServer? && step.n == n && n in w.servers
              && var boot := w.servers[n].bootRef;
              boot.Some? && boot.value in w.configs && w.configs[boot.value].state == Ready
  {
    PerformedTells(w, cfg, step);
  }

  /** The history holds no more than what some step saw. */
  lemma {:induction false} ObservedEarlier(cfg: Settings, ws: seq<World>, steps: seq<Step>, i: nat, n: Name)
    returns (j: nat)
    requires Run(cfg, ws, steps) && i < |ws| && n in ws[i].observed
    ensures j < i && SawReady(cfg, ws, steps, j, n)
  {
    if i > 0 && n in ws[i - 1].observed {
      j := ObservedEarlier(cfg, ws, steps, i - 1, n);
    } else {
      j := i - 1;
      ObservedNow(ws[j], cfg, steps[j], ws[i], n);
    }
  }

  lemma {:induction false} ObservedNow(w: World, cfg: Settings, step: Step, w': World, n: Name)
    requires w' == After(w, cfg, step)
    ensures n !in w.observed && n in w'.observed ==> Observe(n) in Performed(w, cfg, step)
  {
    HistoryOf(w, Performed(w, cfg, step));
  }

  // ----- creation -----

  /** The step creates the server with PowerOn as its desired power. */
  predicate CreatesOn(step: Step, n: Name) {
    step.CreateServer? && step.n == n && step.s.power == PowerOn
  }

  lemma {:induction false} CreatedEarlier(cfg: Settings, ws: seq<World>, steps: seq<Step>, i: nat, n: Name)
    returns (j: nat)
    requires Run(cfg, ws, steps) && i < |ws| && n in ws[i].createdOn
    ensures j < i && CreatesOn(steps[j], n)
  {
    if i > 0 && n in ws[i - 1].createdOn {
      j := CreatedEarlier(cfg, ws, steps, i - 1, n);
    } else {
      j := i - 1;
      CreatedNow(ws[j], cfg, steps[j], ws[i], n);
    }
  }

  lemma {:induction false} CreatedNow(w: World, cfg: Settings, step: Step, w': World, n: Name)
    requires w' == After(w, cfg, step)
    ensures n !in w.createdOn && n in w'.createdOn ==> CreatesOn(step, n)
  {
    HistoryOf(w, Performed(w, cfg, step));
  }

  // ----- the commands of a run -----

  /** The `k`-th effect of a step switches this machine on. */
  predicate SwitchesOn(w: World, cfg: Settings, step: Step, k: nat, n: Name) {
    k < |Performed(w, cfg, step)| && Performed(w, cfg, step)[k] == Command(n, true)
  }

  /**
   * Every PowerOn command of every run is issued by a reconcile that has looked at the server's boot configuration
   * before and found it Ready; or in Initial, after an earlier reconcile of the same run did or because the server
   * was created with PowerOn as its desired power.
   */
  lemma {:induction false} PowerOnIsJustified(cfg: Settings, ws: seq<World>, steps: seq<Step>, i: nat, k: nat, n: Name)
    requires Run(cfg, ws, steps) && i < |steps|
    ensures SwitchesOn(ws[i], cfg, steps[i], k, n) ==>
              && steps[i].ReconcileServer? && steps[i].n == n && n in ws[i].servers
              && (|| Observe(n) in Performed(ws[i], cfg, steps[i])[..k]
                  || (&& ws[i].servers[n].state == Initial
                      && (|| (exists j :: 0 <= j < i && SawReady(cfg, ws, steps, j, n))
                          || (exists j :: 0 <= j < i && CreatesOn(steps[j], n)))))
  {
    if SwitchesOn(ws[i], cfg, steps[i], k, n) {
      PowerOnTells(ws[i], cfg, steps[i], k, n);
      if Observe(n) !in Performed(ws[i], cfg, steps[i])[..k] {
        RunKeepsBasics(cfg, ws, steps, i);
        if n in ws[i].observed {
          var j := ObservedEarlier(cfg, ws, steps, i, n);
        } else {
          var j := CreatedEarlier(cfg, ws, steps, i, n);
        }
      }
    }
  }

  lemma {:induction false} PowerOnTells(w: World, cfg: Settings, step: Step, k: nat, n: Name)
    ensures SwitchesOn(w, cfg, step, k, n) ==>
              && step.ReconcileServer? && step.n == n && n in w.servers
              && (|| Observe(n) in Performed(w, cfg, step)[..k]
                  || (w.servers[n].state == Initial && w.servers[n].power == PowerOn))
  {
    PerformedTells(w, cfg, step);
  }

  /** So without servers created that way, no machine is switched on before its boot configuration was seen Ready. */
  lemma {:induction false} NoPowerBeforeReady(cfg: Settings, ws: seq<World>, steps: seq<Step>, i: nat, k: nat, n: Name)
    requires Run(cfg, ws, steps) && i < |steps|
    requires forall j :: 0 <= j < |steps| ==> !CreatesOn(steps[j], n)
    ensures SwitchesOn(ws[i], cfg, steps[i], k, n) ==> exists j :: 0 <= j <= i && SawReady(cfg, ws, steps, j, n)
  {
    if SwitchesOn(ws[i], cfg, steps[i], k, n) {
      PowerOnIsJustified(cfg, ws, steps, i, k, n);
      var es := Performed(ws[i], cfg, steps[i]);
      if Observe(n) in es[..k] {
        assert Observe(n) in es;
        assert SawReady(cfg, ws, steps, i, n);
      }
    }
  }

  // ----- a server created with PowerOn -----

  lemma {:induction false} OneEffect(w: World, e: Effect)
    ensures ApplyAll(w, [e]) == Apply(w, e)
  {
    assert [e][..0] == [];
  }

  /** The first two reconciles of a server: its state, then its finalizer. */
  lemma {:induction false} FirstReconciles(cfg: Settings, w: World, n: Name)
    requires n in w.servers && !w.servers[n].ignored && (w.servers[n].state == Empty || !w.servers[n].finalizer)
    ensures var s := w.servers[n];
            After(w, cfg, ReconcileServer(n, false, 9)) ==
            OnServer(w, n, if s.state == Empty then s.(state := Initial) else s.(finalizer := true))
  {
    OneEffect(w, SetState(n, Initial));
    OneEffect(w, AddServerFinalizer(n));
  }

  lemma {:induction false} SwitchedOnInInitial(cfg: Settings, w: World, n: Name)
    requires n in w.servers && n in w.bmc && w.bmc[n] == Off
    requires var s := w.servers[n];
             && !s.ignored && s.finalizer && s.state == Initial && s.claimRef.None? && s.hasBmc
             && s.power == PowerOn && s.powerState == Off
    ensures SwitchesOn(w, cfg, ReconcileServer(n, false, 9), 0, n)
  {
  }

  /**
   * A server with a BMC that is to be on from the start is switched on by its third reconcile, whatever it would
   * boot.
   */
  lemma {:induction false} CreatedOnIsSwitchedOn(cfg: Settings, w: World, n: Name, s: Server)
    returns (ws: seq<World>, steps: seq<Step>)
    requires Start(w) && s.state == Empty && s.claimRef.None? && s.power == PowerOn && s.powerState == Off
    requires s.hasBmc && !s.finalizer && !s.ignored
    ensures Run(cfg, ws, steps) && |steps| == 4 && SwitchesOn(ws[3], cfg, steps[3], 0, n)
    ensures forall j :: 0 <= j < 4 ==> ws[j].configs == map[]
  {
    var create, reconcile := CreateServer(n, s, Off), ReconcileServer(n, false, 9);
    var w1 := After(w, cfg, create);
    FirstReconciles(cfg, w1, n);
    var w2 := OnServer(w1, n, s.(state := Initial));
    FirstReconciles(cfg, w2, n);
    var w3 := OnServer(w2, n, s.(state := Initial, finalizer := true));
    SwitchedOnInInitial(cfg, w3, n);
    ws, steps := [w, w1, w2, w3, After(w3, cfg, reconcile)], [create, reconcile, reconcile, reconcile];
  }
}
