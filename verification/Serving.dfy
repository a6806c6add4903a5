/** What reconciles of claimed servers must do: their machines follow the power that is desired. */
module Serving {
  import opened Options
  import opened Metal
  import opened World
  import opened Reservation
  import opened Progress
  import opened Convergence

  // ----- a reserved machine follows -----

  /** A claimed server whose reconcile reaches the handler of Reserved. */
  predicate InService(w: World, n: Name) {
    && n in w.servers && n in w.bmc
    && var s := w.servers[n];
    && s.claimRef.Some? && s.state == Reserved && s.finalizer && !s.ignored && s.hasBmc
  }

  /** What a machine is after a command, if one is needed. */
  function Commanded(desired: Power, current: PowerState): (r: PowerState)
    ensures Obeys(desired, r)
    ensures Obeys(desired, current) ==> r == current
    ensures !Obeys(desired, current) ==> r == if desired == PowerOn then On else Off
  {
    if desired == PowerOn && current != On && current != PoweringOn then On
    else if desired == PowerOff && current != Off && current != PoweringOff then Off
    else current
  }

  lemma {:induction false} CommandsBring(w: World, n: Name, s: Server)
    requires n in w.bmc && s.powerState == w.bmc[n]
    ensures ApplyAll(w, Commands(n, PowerOp(s.power, s.powerState))) ==
            w.(bmc := w.bmc[n := Commanded(s.power, w.bmc[n])])
  {
    CommandResult(w, n, PowerOp(s.power, s.powerState));
    assert w.bmc[n := w.bmc[n]] == w.bmc;
  }

  /**
   * A reconcile of a reserved server whose boot configuration is Ready brings its machine to the desired power;
   * otherwise it commands nothing. Either way the status shows what the machine was, and nothing else of the server
   * changes.
   */
  lemma {:induction false} ReservedResult(w: World, cfg: Settings, n: Name, late: bool)
    requires InService(w, n)
    ensures var s, w' := w.servers[n], ApplyAll(w, ServerPlan(w, cfg, n, late));
            && w'.servers == w.servers[n := s.(powerState := w.bmc[n])]
            && w'.claims == w.claims && w'.configs == w.configs
            && w'.bmc == if s.bootRef.Some? && s.bootRef.value in w.configs && w.configs[s.bootRef.value].state == Ready
                         then w.bmc[n := Commanded(s.power, w.bmc[n])] else w.bmc
  {
    var s' := Refreshed(w, n);
    var e1 := When(s'.powerState != w.servers[n].powerState, SetPowerState(n, s'.powerState));
    RefreshOnly(w, n);
    var w1 := OnServer(w, n, s');
    ApplyAllSum(w, e1, ReservedPlan(w, n, s'));
    ReservedEffect(w, w1, n, s');
  }

  lemma {:induction false} ReservedEffect(w: World, w1: World, n: Name, s: Server)
    requires n in w1.bmc && s.powerState == w1.bmc[n] && s.hasBmc
    ensures var w' := ApplyAll(w1, ReservedPlan(w, n, s));
            && w'.servers == w1.servers && w'.claims == w1.claims && w'.configs == w1.configs
            && w'.bmc == if BootReady(w, s) then w1.bmc[n := Commanded(s.power, w1.bmc[n])] else w1.bmc
  {
    assert ApplyAll(w1, []) == w1;
    if BootReady(w, s) {
      ApplyOne(w1, Observe(n));
      var w2 := Apply(w1, Observe(n));
      CommandsBring(w2, n, s);
      ApplyAllSum(w1, [Observe(n)], Commands(n, PowerOp(s.power, s.powerState)));
    }
  }

  /** A claimed server gets its finalizer and becomes Reserved. */
  lemma {:induction false} BecomesReserved(w: World, cfg: Settings, n: Name, late: bool)
    requires n in w.servers && w.servers[n].claimRef.Some? && !w.servers[n].ignored && w.servers[n].state != Empty
    requires !w.servers[n].finalizer || w.servers[n].state != Reserved
    ensures var s := w.servers[n];
            ApplyAll(w, ServerPlan(w, cfg, n, late)) ==
            OnServer(w, n, if !s.finalizer then s.(finalizer := true) else s.(state := Reserved))
  {
    ApplyOne(w, AddServerFinalizer(n));
    ApplyOne(w, SetState(n, Reserved));
  }

  // ----- the machine of a claim that has arrived -----

  /** The claim has arrived, its configuration is Ready, and its server can be reconciled. */
  ghost predicate Running(w: World, key: Key, n: Name) {
    && Arrived(w, key) && w.claims[key].serverRef == Some(n) && w.configs[key].state == Ready
    && n in w.bmc && w.servers[n].hasBmc && !w.servers[n].ignored
  }

  /** Reconciles of the server still needed. */
  function Toil(w: World, n: Name): nat
    requires n in w.servers && n in w.bmc
  {
    var s := w.servers[n];
    (if s.finalizer then 0 else 1) + (if s.state == Reserved then 0 else 1)
    + (if Obeys(s.power, w.bmc[n]) then 0 else 1)
  }

  /** The step is a reconcile of the server in which no call fails. */
  predicate Serves(w: World, cfg: Settings, step: Step, n: Name) {
    step.ReconcileServer? && step.n == n && step.cut >= |ServerPlan(w, cfg, n, step.late)|
  }

  lemma {:induction false} ServedOnce(w: World, cfg: Settings, n: Name, late: bool, key: Key)
    requires Running(w, key, n) && Toil(w, n) > 0
    ensures var w' := ApplyAll(w, ServerPlan(w, cfg, n, late));
            n in w'.servers && n in w'.bmc && Toil(w', n) < Toil(w, n)
  {
    if w.servers[n].finalizer && w.servers[n].state == Reserved {
      ReservedResult(w, cfg, n, late);
    } else {
      BecomesReserved(w, cfg, n, late);
    }
  }

  /** Nothing that happens meanwhile is a step back. */
  lemma {:induction false} KeepsRunning(w: World, cfg: Settings, step: Step, key: Key, n: Name)
    requires Running(w, key, n) && Peaceful(w, step, key)
    requires var w' := After(w, cfg, step); key in w'.configs ==> w'.configs[key].state == Ready
    ensures var w' := After(w, cfg, step); Running(w', key, n) && Toil(w', n) <= Toil(w, n)
    ensures var w' := After(w, cfg, step);
            w'.claims[key] == w.claims[key]
  {
    var w' := After(w, cfg, step);
    match step {
      case ReconcileClaim(k, cut) =>
        ArrivedIsCoherent(w, key);
        assert Cut([], cut) == [] && ApplyAll(w, []) == w;
      case ReconcileServer(m, late, cut) =>
        if m in w.servers {
          ServerStepIsMild(w, cfg, m, late, cut, key);
          MildRunning(w, w', m, key, n);
        } else {
          assert Cut([], cut) == [] && ApplyAll(w, []) == w;
        }
      case MarkConfig(k, state) => assert Aside(w, w', key);
      case Register(uuid, nics) => assert Aside(w, w', key);
      case Relist(order) => assert Aside(w, w', key);
      case _ =>
    }
  }

  lemma {:induction false} MildRunning(w: World, w': World, m: Name, key: Key, n: Name)
    requires m in w.servers && Claimed(w.servers[m].state) && Mild(w, w', m, key) && Running(w, key, n)
    ensures Running(w', key, n) && Toil(w', n) <= Toil(w, n)
  {
    MildKeepsArrived(w, w', m, key);
    assert w'.configs[key] == w.configs[key];
  }

  /** The claim is as it was, and so many reconciles of the server are still needed. */
  ghost predicate OnDuty(w: World, key: Key, n: Name, c: Claim, left: nat) {
    Running(w, key, n) && w.claims[key] == c && Toil(w, n) <= left
  }

  /** Whatever happens while the configuration is Ready, no ground is lost. */
  lemma {:induction false} RunsOn(cfg: Settings, ws: seq<World>, steps: seq<Step>, key: Key, n: Name, c: Claim,
                                  left: nat, a: nat, b: nat)
    requires PeacefulRun(cfg, ws, steps, key) && a <= b < |ws| && OnDuty(ws[a], key, n, c, left)
    requires forall j :: a <= j <= b && key in ws[j].configs ==> ws[j].configs[key].state == Ready
    ensures OnDuty(ws[b], key, n, c, left)
    decreases b - a
  {
    if a < b {
      RunsAt(cfg, ws, steps, key, n, a, c, left);
      RunsOn(cfg, ws, steps, key, n, c, left, a + 1, b);
    }
  }

  lemma {:induction false} RunsAt(cfg: Settings, ws: seq<World>, steps: seq<Step>, key: Key, n: Name, i: nat, c: Claim,
                                  left: nat)
    requires PeacefulRun(cfg, ws, steps, key) && i < |steps| && OnDuty(ws[i], key, n, c, left)
    requires key in ws[i + 1].configs ==> ws[i + 1].configs[key].state == Ready
    ensures OnDuty(ws[i + 1], key, n, c, left)
  {
    RunsOnce(ws[i], cfg, steps[i], ws[i + 1], key, n, c, left);
  }

  lemma {:induction false} RunsOnce(w: World, cfg: Settings, step: Step, w': World, key: Key, n: Name, c: Claim,
                                    left: nat)
    requires OnDuty(w, key, n, c, left) && Peaceful(w, step, key) && w' == After(w, cfg, step)
    requires key in w'.configs ==> w'.configs[key].state == Ready
    ensures OnDuty(w', key, n, c, if Serves(w, cfg, step, n) && left > 0 then left - 1 else left)
  {
    KeepsRunning(w, cfg, step, key, n);
    if Serves(w, cfg, step, n) && Toil(w, n) > 0 {
      ServedOnce(w, cfg, n, step.late, key);
    }
  }

  /** On to the next reconcile of the server without a failing call, and past it. */
  lemma {:induction false} ServedAt(cfg: Settings, ws: seq<World>, steps: seq<Step>, key: Key, n: Name, c: Claim,
                                    left: nat, a: nat, i: nat)
    requires PeacefulRun(cfg, ws, steps, key) && a <= i < |steps| && OnDuty(ws[a], key, n, c, left) && left > 0
    requires forall j :: a <= j <= i + 1 && key in ws[j].configs ==> ws[j].configs[key].state == Ready
    requires Serves(ws[i], cfg, steps[i], n)
    ensures OnDuty(ws[i + 1], key, n, c, left - 1)
  {
    RunsOn(cfg, ws, steps, key, n, c, left, a, i);
    RunsOnce(ws[i], cfg, steps[i], ws[i + 1], key, n, c, left);
  }

  /**
   * A claim that has arrived gets its machine: once its server has been reconciled three times without a failing call
   * while the configuration was Ready, the machine has the power the claim asks for, or is on its way there.
   */
  lemma {:induction false} MachineFollows(cfg: Settings, ws: seq<World>, steps: seq<Step>, key: Key, n: Name, a: nat,
                                          i1: nat, i2: nat, i3: nat, b: nat)
    requires PeacefulRun(cfg, ws, steps, key) && a <= i1 < i2 < i3 < b < |ws|
    requires OnItsWay(ws[0], key) && Successes(ws, steps, key, a) >= 6
    requires key in ws[a].claims && ws[a].claims[key].serverRef == Some(n)
    requires n in ws[a].bmc && n in ws[a].servers && ws[a].servers[n].hasBmc && !ws[a].servers[n].ignored
    requires forall j :: a <= j <= b && key in ws[j].configs ==> ws[j].configs[key].state == Ready
    requires Serves(ws[i1], cfg, steps[i1], n) && Serves(ws[i2], cfg, steps[i2], n) && Serves(ws[i3], cfg, steps[i3], n)
    ensures Arrived(ws[b], key) && ws[b].claims[key] == ws[a].claims[key] && n in ws[b].bmc
    ensures ws[b].claims[key].power == PowerOn ==> ws[b].bmc[n] == On || ws[b].bmc[n] == PoweringOn
    ensures ws[b].claims[key].power == PowerOff ==> ws[b].bmc[n] == Off || ws[b].bmc[n] == PoweringOff
  {
    var c := ws[a].claims[key];
    ClaimArrives(cfg, ws, steps, key, a);
    ServedAt(cfg, ws, steps, key, n, c, 3, a, i1);
    ServedAt(cfg, ws, steps, key, n, c, 2, i1 + 1, i2);
    ServedAt(cfg, ws, steps, key, n, c, 1, i2 + 1, i3);
    RunsOn(cfg, ws, steps, key, n, c, 0, i3 + 1, b);
  }
}
