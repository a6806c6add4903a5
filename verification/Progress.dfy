/** What repeated fault-free reconciles reach when nothing else happens: claims get servers, servers are released. */
module Progress {
  import opened Options
  import opened Metal
  import opened World
  import opened Reservation

  // ----- a claim converges -----

  function ReconcileOnce(w: World, key: Key): World {
    ApplyAll(w, ClaimPlan(w, key))
  }

  function Reconciles(w: World, key: Key, times: nat): World {
    if times == 0 then w else ReconcileOnce(Reconciles(w, key, times - 1), key)
  }

  ghost predicate HoldsOne(w: World, key: Key, c: Claim) {
    exists n :: n in w.servers && Own(w.servers[n], key, c.uid)
  }

  /**
   * A claim without a selector that can be served: it names a claimable server that is free or its own, or it names
   * none and there is a free Available server or one it holds already, all of these being Off.
   */
  ghost predicate Servable(w: World, key: Key) {
    && key in w.claims && Listing(w.order, w.servers)
    && var c := w.claims[key];
    && !c.deleting && !c.ignored && c.selector.None? && !ForeignConfig(w, key, c)
    && match c.serverRef
       case Some(n) =>
         && n in w.servers && (w.servers[n].claimRef.None? || Own(w.servers[n], key, c.uid))
         && Claimable(w.servers[n], c.uid)
       case None =>
         && c.phase != Bound
         && (forall n :: n in w.servers && Own(w.servers[n], key, c.uid) ==> Claimable(w.servers[n], c.uid))
         && (forall n :: n in w.servers && FirstBest(w.servers[n]) ==> w.servers[n].powerState == Off)
         && (HoldsOne(w, key, c) || exists n :: n in w.servers && FirstBest(w.servers[n]))
  }

  /** Boot configuration, boot reference and phase are as the claim wants them. */
  predicate Applied(w: World, key: Key, c: Claim, n: Name)
    requires n in w.servers
  {
    && key in w.configs && Carries(w.configs[key], c, n)
    && w.servers[n].bootRef == Some(key) && c.phase == Bound
  }

  ghost predicate Settled(w: World, key: Key) {
    && key in w.claims && w.claims[key].phase == Bound && w.claims[key].finalizer && Coherent(w, key)
    && Carries(w.configs[key], w.claims[key], w.claims[key].serverRef.value)
    && w.servers[w.claims[key].serverRef.value].power == w.claims[key].power
    && ReconcileOnce(w, key) == w
  }

  ghost function Remaining(w: World, key: Key): nat
    requires Servable(w, key)
  {
    var c := w.claims[key];
    (if c.phase == NoPhase then 1 else 0) + (if !c.finalizer then 1 else 0)
    + (if c.serverRef.None? then if HoldsOne(w, key, c) then 3 else 4
       else (if w.servers[c.serverRef.value].claimRef.None? then 1 else 0)
            + (if Applied(w, key, c, c.serverRef.value) then 0 else 1)
            + (if w.servers[c.serverRef.value].power == c.power then 0 else 1))
  }

  lemma {:induction false} ApplyOne(w: World, e: Effect)
    ensures ApplyAll(w, [e]) == Apply(w, e)
  {
    assert [e][..0] == [];
    assert ApplyAll(w, []) == w;
  }

  lemma {:induction false} ApplyWhen(w: World, b: bool, e: Effect)
    ensures ApplyAll(w, When(b, e)) == if b then Apply(w, e) else w
  {
    ApplyOne(w, e);
    assert ApplyAll(w, []) == w;
  }

  /** The first reconciles set phase and finalizer. */
  lemma {:induction false} InitialiseProgress(w: World, key: Key)
    requires Servable(w, key) && (w.claims[key].phase == NoPhase || !w.claims[key].finalizer)
    ensures Servable(ReconcileOnce(w, key), key) && Remaining(ReconcileOnce(w, key), key) < Remaining(w, key)
  {
    var c := w.claims[key];
    var c' := if c.phase == NoPhase then c.(phase := Unbound) else c.(finalizer := true);
    InitialiseResult(w, key);
    assert HoldsOne(OnClaim(w, key, c'), key, c') <==> HoldsOne(w, key, c);
  }

  lemma {:induction false} InitialiseResult(w: World, key: Key)
    requires key in w.claims
    requires var c := w.claims[key]; !c.deleting && !c.ignored && (c.phase == NoPhase || !c.finalizer)
    ensures var c := w.claims[key];
            && |ClaimPlan(w, key)| == 1
            && ReconcileOnce(w, key) ==
               OnClaim(w, key, if c.phase == NoPhase then c.(phase := Unbound) else c.(finalizer := true))
  {
    ApplyOne(w, SetPhase(key, Unbound));
    ApplyOne(w, AddClaimFinalizer(key));
  }

  /** The next ones take a server and name it. */
  lemma {:induction false} TakeProgress(w: World, key: Key)
    requires Servable(w, key) && w.claims[key].phase != NoPhase && w.claims[key].finalizer
    requires w.claims[key].serverRef.None?
    ensures Servable(ReconcileOnce(w, key), key) && Remaining(ReconcileOnce(w, key), key) < Remaining(w, key)
  {
    var c := w.claims[key];
    PreviouslyUsedIsOwn(w.servers, w.order, key, c);
    FirstFreeIsFree(w.servers, w.order);
    var n := Best(w.servers, w.order, key, c).value;
    if HoldsOne(w, key, c) {
      assert Own(w.servers[n], key, c.uid);
      ApplyOne(w, SetServerRef(key, n));
      assert ReconcileOnce(w, key) == OnClaim(w, key, c.(serverRef := Some(n)));
    } else {
      TakeFree(w, key, n);
    }
  }

  lemma {:induction false} TakeFree(w: World, key: Key, n: Name)
    requires Servable(w, key) && w.claims[key].phase != NoPhase && w.claims[key].finalizer
    requires w.claims[key].serverRef.None? && !HoldsOne(w, key, w.claims[key])
    requires n in w.servers && Best(w.servers, w.order, key, w.claims[key]) == Some(n) && FirstBest(w.servers[n])
    ensures Servable(ReconcileOnce(w, key), key) && Remaining(ReconcileOnce(w, key), key) < Remaining(w, key)
  {
    var c := w.claims[key];
    var ref := Some(ClaimRef(key, c.uid));
    ApplyOne(w, SetClaimRef(n, ref));
    var w' := OnServer(w, n, w.servers[n].(claimRef := ref));
    assert ReconcileOnce(w, key) == w';
    assert Own(w'.servers[n], key, c.uid);
    assert HoldsOne(w', key, c);
  }

  /** A claim that names a free server takes it. */
  lemma {:induction false} TakeNamed(w: World, key: Key)
    requires Servable(w, key) && w.claims[key].phase != NoPhase && w.claims[key].finalizer
    requires w.claims[key].serverRef.Some? && w.servers[w.claims[key].serverRef.value].claimRef.None?
    ensures Servable(ReconcileOnce(w, key), key) && Remaining(ReconcileOnce(w, key), key) < Remaining(w, key)
  {
    var c, n := w.claims[key], w.claims[key].serverRef.value;
    TakeNamedResult(w, key);
    assert Applied(ReconcileOnce(w, key), key, c, n) == Applied(w, key, c, n);
  }

  lemma {:induction false} TakeNamedResult(w: World, key: Key)
    requires Servable(w, key) && w.claims[key].phase != NoPhase && w.claims[key].finalizer
    requires w.claims[key].serverRef.Some? && w.servers[w.claims[key].serverRef.value].claimRef.None?
    ensures var n := w.claims[key].serverRef.value;
            ReconcileOnce(w, key) ==
            OnServer(w, n, w.servers[n].(claimRef := Some(ClaimRef(key, w.claims[key].uid))))
  {
    ApplyOne(w, SetClaimRef(w.claims[key].serverRef.value, Some(ClaimRef(key, w.claims[key].uid))));
  }

  /** The claim is past its first reconciles and has the server it names. */
  ghost predicate HasNamed(w: World, key: Key) {
    && Servable(w, key) && w.claims[key].phase != NoPhase && w.claims[key].finalizer && w.claims[key].serverRef.Some?
    && w.servers[w.claims[key].serverRef.value].claimRef.Some?
  }

  lemma {:induction false} PlanIsBind(w: World, key: Key)
    requires HasNamed(w, key)
    ensures ClaimPlan(w, key) == BindPlan(w, key, w.claims[key], w.claims[key].serverRef.value)
  {
  }

  lemma {:induction false} ConfigAndBootRef(w: World, key: Key, config: Config, n: Name)
    requires n in w.servers
    ensures ApplyAll(w, ConfigEffects(w, key, config) + BootRefEffects(n, w.servers[n], key)) ==
            OnServer(w.(configs := w.configs[key := config]), n, w.servers[n].(bootRef := Some(key)))
  {
    var s := w.servers[n];
    ApplyWhen(w, !(key in w.configs && w.configs[key] == config), PutConfig(key, config));
    var w1 := w.(configs := w.configs[key := config]);
    assert ApplyAll(w, ConfigEffects(w, key, config)) == w1;
    ApplyWhen(w1, s.bootRef != Some(key), SetBootRef(n, Some(key)));
    ApplyAllSum(w, ConfigEffects(w, key, config), BootRefEffects(n, s, key));
  }

  lemma {:induction false} Finish(w: World, key: Key, c: Claim, n: Name, s: Server)
    requires key in w.claims && w.claims[key] == c && n in w.servers && w.servers[n].power == s.power
    ensures ApplyAll(w, FinishEffects(key, c, n, s)) ==
            if c.phase != Bound then OnClaim(w, key, c.(phase := Bound))
            else OnServer(w, n, w.servers[n].(power := c.power))
  {
    ApplyOne(w, SetPhase(key, Bound));
    ApplyWhen(w, s.power != c.power, SetPower(n, c.power));
  }

  /** What one reconcile of a claim with its server leaves. */
  lemma {:induction false} BindResult(w: World, key: Key)
    requires HasNamed(w, key)
    ensures var c, n := w.claims[key], w.claims[key].serverRef.value;
            var s := w.servers[n].(bootRef := Some(key));
            ReconcileOnce(w, key) ==
            w.(configs := w.configs[key := ClaimConfig(w, key, c, n)],
               servers := w.servers[n := if c.phase == Bound then s.(power := c.power) else s],
               claims := w.claims[key := c.(phase := Bound)])
  {
    var c, n := w.claims[key], w.claims[key].serverRef.value;
    var s, config := w.servers[n], ClaimConfig(w, key, c, n);
    PlanIsBind(w, key);
    var es := ConfigEffects(w, key, config) + BootRefEffects(n, s, key);
    ConfigAndBootRef(w, key, config, n);
    ApplyAllSum(w, es, FinishEffects(key, c, n, s));
    Finish(ApplyAll(w, es), key, c, n, s);
  }

  lemma {:induction false} BindProgress(w: World, key: Key)
    requires HasNamed(w, key) && Remaining(w, key) > 0
    ensures Servable(ReconcileOnce(w, key), key) && Remaining(ReconcileOnce(w, key), key) < Remaining(w, key)
  {
    BindResult(w, key);
    var w' := ReconcileOnce(w, key);
    var c, n := w.claims[key], w.claims[key].serverRef.value;
    assert Applied(w', key, w'.claims[key], n);
  }

  lemma {:induction false} NothingRemains(w: World, key: Key)
    requires Servable(w, key) && Remaining(w, key) == 0
    ensures Settled(w, key) && ClaimPlan(w, key) == []
  {
    BindResult(w, key);
    PlanIsBind(w, key);
    var c, n := w.claims[key], w.claims[key].serverRef.value;
    assert w.configs[key := ClaimConfig(w, key, c, n)] == w.configs;
    assert w.claims[key := c.(phase := Bound)] == w.claims;
    assert ReconcileOnce(w, key) == w;
  }

  lemma {:induction false} Progresses(w: World, key: Key)
    requires Servable(w, key) && Remaining(w, key) > 0
    ensures Servable(ReconcileOnce(w, key), key) && Remaining(ReconcileOnce(w, key), key) < Remaining(w, key)
  {
    var c := w.claims[key];
    if c.phase == NoPhase || !c.finalizer {
      InitialiseProgress(w, key);
    } else if c.serverRef.None? {
      TakeProgress(w, key);
    } else if w.servers[c.serverRef.value].claimRef.None? {
      TakeNamed(w, key);
    } else {
      BindProgress(w, key);
    }
  }

  /** Servable, and at most so many reconciles from the fixpoint. */
  ghost predicate Nearing(w: World, key: Key, left: nat) {
    Servable(w, key) && Remaining(w, key) <= left
  }

  lemma {:induction false} ComesNearer(w: World, key: Key, left: nat)
    requires Nearing(w, key, left)
    ensures Nearing(ReconcileOnce(w, key), key, if left > 0 then left - 1 else 0)
  {
    if Remaining(w, key) == 0 {
      NothingRemains(w, key);
    } else {
      Progresses(w, key);
    }
  }

  lemma {:induction false} CountsDown(w: World, key: Key, left: nat, times: nat)
    requires Nearing(w, key, left)
    ensures Nearing(Reconciles(w, key, times), key, if times < left then left - times else 0)
  {
    if times > 0 {
      CountsDown(w, key, left, times - 1);
      OneNearer(w, key, if times - 1 < left then left - (times - 1) else 0, times);
    }
  }

  lemma {:induction false} OneNearer(w: World, key: Key, left: nat, times: nat)
    requires times > 0 && Nearing(Reconciles(w, key, times - 1), key, left)
    ensures Nearing(Reconciles(w, key, times), key, if left > 0 then left - 1 else 0)
  {
    ComesNearer(Reconciles(w, key, times - 1), key, left);
  }

  /**
   * Six reconciles are enough: the claim is then Bound to one server, references and power agree, its configuration
   * carries its image and ignition, and reconciling again changes nothing.
   */
  lemma {:induction false} ClaimConverges(w: World, key: Key)
    requires Servable(w, key)
    ensures Settled(Reconciles(w, key, 6), key)
    ensures forall times: nat :: times >= 6 ==> Reconciles(w, key, times) == Reconciles(w, key, 6)
  {
    CountsDown(w, key, 6, 6);
    NothingRemains(Reconciles(w, key, 6), key);
    forall times: nat | times >= 6 ensures Reconciles(w, key, times) == Reconciles(w, key, 6) {
      StaysSettled(w, key, times);
    }
  }

  lemma {:induction false} StaysSettled(w: World, key: Key, times: nat)
    requires Settled(Reconciles(w, key, 6), key) && times >= 6
    ensures Reconciles(w, key, times) == Reconciles(w, key, 6)
  {
    if times > 6 {
      StaysSettled(w, key, times - 1);
    }
  }

  // ----- what a claim does not do -----

  /** A claim takes a server only with its finalizer in place, only in its own name, and only a free one. */
  lemma {:induction false} TakesWithFinalizer(w: World, key: Key, n: Name, ref: ClaimRef)
    ensures SetClaimRef(n, Some(ref)) in ClaimPlan(w, key) ==>
              && key in w.claims && w.claims[key].finalizer && !w.claims[key].deleting && !w.claims[key].ignored
              && ref == ClaimRef(key, w.claims[key].uid) && n in w.servers && w.servers[n].claimRef == None
  {
  }

  /** Objects marked to be ignored are left alone; only the deletion of a claim is not held up by that. */
  lemma {:induction false} IgnoredIsLeftAlone(w: World, cfg: Settings, key: Key, n: Name, late: bool)
    ensures key in w.claims && w.claims[key].ignored && !w.claims[key].deleting ==> ClaimPlan(w, key) == []
    ensures n in w.servers && w.servers[n].ignored ==> ServerPlan(w, cfg, n, late) == []
  {
  }

  /**
   * A claim is not reconciled while the machine it names runs: whatever its user changes, neither its configuration nor
   * the power of its server follows until the status says that the machine is off.
   */
  lemma {:induction false} EditsWait(w: World, cfg: Settings, key: Key, n: Name, power: Power, image: string,
                                     ignition: Option<string>, cut: nat)
    requires key in w.claims && w.claims[key].serverRef == Some(n) && w.claims[key].phase != NoPhase
    requires w.claims[key].finalizer && !w.claims[key].deleting
    requires n in w.servers && w.servers[n].powerState != Off
    ensures var w' := After(w, cfg, EditClaim(key, power, image, ignition, false));
            After(w', cfg, ReconcileClaim(key, cut)) == w'
  {
    var w' := After(w, cfg, EditClaim(key, power, image, ignition, false));
    assert ClaimPlan(w', key) == [];
    assert Cut([], cut) == [] && ApplyAll(w', []) == w';
  }

  // ----- a server is released -----

  /** One fault-free reconcile of the server, after which a machine that is powering off is off. */
  function Round(w: World, cfg: Settings, n: Name): World {
    var w' := ApplyAll(w, ServerPlan(w, cfg, n, false));
    if n in w'.bmc && w'.bmc[n] == PoweringOff then w'.(bmc := w'.bmc[n := Off]) else w'
  }

  function Rounds(w: World, cfg: Settings, n: Name, times: nat): World
    decreases times
  {
    if times == 0 then w else Rounds(Round(w, cfg, n), cfg, n, times - 1)
  }

  /** A server without a claim that was in use. */
  predicate Freed(w: World, n: Name) {
    && n in w.servers && n in w.bmc
    && var s := w.servers[n];
    && s.claimRef.None? && Claimed(s.state) && s.hasBmc && !s.ignored
  }

  /** The boot configuration the server refers to is an internal one and exists. */
  predicate InternalBoot(w: World, s: Server) {
    s.bootRef.Some? && s.bootRef.value in w.configs && w.configs[s.bootRef.value].internal
  }

  /** Available, off and unclaimed. */
  predicate ReadyForUse(w: World, n: Name) {
    && Freed(w, n) && w.servers[n].finalizer && w.servers[n].state == Available
    && w.servers[n].powerState == Off && w.bmc[n] == Off
  }

  function RoundsLeft(w: World, n: Name): nat
    requires Freed(w, n)
  {
    var s := w.servers[n];
    (if s.finalizer then 0 else 1) + (if s.state == Available then 0 else 1)
    + (if w.bmc[n] != Off || InternalBoot(w, s) then 2 else if s.powerState != Off then 1 else 0)
  }

  /** A boot reference is dropped in the end exactly if it is internal. */
  predicate WillDrop(w: World, n: Name)
    requires n in w.servers
  {
    w.servers[n].bootRef.None? || InternalBoot(w, w.servers[n])
  }

  lemma {:induction false} FirstRounds(w: World, cfg: Settings, n: Name)
    requires Freed(w, n) && (!w.servers[n].finalizer || w.servers[n].state == Reserved)
    ensures Freed(Round(w, cfg, n), n)
    ensures RoundsLeft(Round(w, cfg, n), n) <= RoundsLeft(w, n) - 1 && WillDrop(Round(w, cfg, n), n) == WillDrop(w, n)
  {
    var s := w.servers[n];
    ApplyOne(w, AddServerFinalizer(n));
    ApplyOne(w, SetState(n, Available));
    var s' := if !s.finalizer then s.(finalizer := true) else s.(state := Available);
    assert ApplyAll(w, ServerPlan(w, cfg, n, false)) == OnServer(w, n, s');
  }

  lemma {:induction false} CommandResult(w: World, n: Name, op: Option<bool>)
    ensures ApplyAll(w, Commands(n, op)) ==
            if op.None? then w else w.(bmc := w.bmc[n := if op.value then On else Off])
  {
    if op.Some? {
      ApplyOne(w, Command(n, op.value));
    } else {
      assert ApplyAll(w, []) == w;
    }
  }

  /** What shutting a server down changes: its desired power and the machine. */
  lemma {:induction false} ShutDownResult(w: World, n: Name)
    requires n in w.servers && n in w.bmc && w.servers[n].hasBmc && w.servers[n].powerState == w.bmc[n]
    ensures var w' := ApplyAll(w, ShutDown(n, w.servers[n]));
            && n in w'.servers && n in w'.bmc && w'.configs == w.configs
            && w'.servers[n] == w.servers[n].(power := if w.bmc[n] == Off then w.servers[n].power else PowerOff)
            && w'.bmc[n] == if w.bmc[n] == PoweringOff then PoweringOff else Off
  {
    if w.servers[n].powerState == Off {
      assert ApplyAll(w, []) == w;
    } else {
      SwitchOffResult(w, n, PowerOp(PowerOff, w.bmc[n]));
    }
  }

  lemma {:induction false} SwitchOffResult(w: World, n: Name, op: Option<bool>)
    requires n in w.servers && w.servers[n].hasBmc && w.servers[n].powerState != Off
    requires op == PowerOp(PowerOff, w.servers[n].powerState)
    ensures ApplyAll(w, ShutDown(n, w.servers[n])) ==
            OnServer(w, n, w.servers[n].(power := PowerOff)).(bmc := if op.None? then w.bmc else w.bmc[n := Off])
  {
    PowerOffResult(w, n);
    CommandResult(OnServer(w, n, w.servers[n].(power := PowerOff)), n, op);
    ApplyAllSum(w, When(w.servers[n].power != PowerOff, SetPower(n, PowerOff)), Commands(n, op));
  }

  lemma {:induction false} PowerOffResult(w: World, n: Name)
    requires n in w.servers
    ensures ApplyAll(w, When(w.servers[n].power != PowerOff, SetPower(n, PowerOff))) ==
            OnServer(w, n, w.servers[n].(power := PowerOff))
  {
    ApplyWhen(w, w.servers[n].power != PowerOff, SetPower(n, PowerOff));
  }

  lemma {:induction false} DropResult(w: World, n: Name, key: Key)
    requires n in w.servers
    ensures ApplyAll(w, [DeleteConfig(key)] + [SetBootRef(n, None)]) ==
            OnServer(w.(configs := w.configs - {key}), n, w.servers[n].(bootRef := None))
  {
    ApplyAllSum(w, [DeleteConfig(key)], [SetBootRef(n, None)]);
    ApplyOne(w, DeleteConfig(key));
    ApplyOne(Apply(w, DeleteConfig(key)), SetBootRef(n, None));
  }

  /** What the reconcile of an Available server leaves: a machine that is off, and no configuration of the probe. */
  lemma {:induction false} AvailableResult(w: World, n: Name)
    requires n in w.servers && n in w.bmc && w.servers[n].hasBmc && w.servers[n].powerState == w.bmc[n]
    ensures var w' := ApplyAll(w, AvailablePlan(w, n, w.servers[n]));
            && n in w'.servers && n in w'.bmc
            && w'.servers[n] == w.servers[n].(power := if w.bmc[n] == Off then w.servers[n].power else PowerOff,
                                              bootRef := w'.servers[n].bootRef)
            && w'.bmc[n] == (if w.bmc[n] == PoweringOff then PoweringOff else Off)
            && (InternalBoot(w, w.servers[n]) ==>
                  w'.servers[n].bootRef.None? && w'.configs == w.configs - {w.servers[n].bootRef.value})
            && (!InternalBoot(w, w.servers[n]) ==>
                  w'.servers[n].bootRef == w.servers[n].bootRef && w'.configs == w.configs)
  {
    var s := w.servers[n];
    ShutDownResult(w, n);
    if InternalBoot(w, s) {
      var w1 := ApplyAll(w, ShutDown(n, s));
      ApplyAllSum(w, ShutDown(n, s), [DeleteConfig(s.bootRef.value)] + [SetBootRef(n, None)]);
      DropResult(w1, n, s.bootRef.value);
    }
  }

  lemma {:induction false} LastRounds(w: World, cfg: Settings, n: Name)
    requires Freed(w, n) && w.servers[n].finalizer && w.servers[n].state == Available
    ensures Freed(Round(w, cfg, n), n) && WillDrop(Round(w, cfg, n), n) == WillDrop(w, n)
    ensures RoundsLeft(Round(w, cfg, n), n) <= if RoundsLeft(w, n) == 0 then 0 else RoundsLeft(w, n) - 1
  {
    var w1 := RefreshResult(w, cfg, n);
    AvailableResult(w1, n);
  }

  /** The reconcile of an Available server: the power state is refreshed, then the handler runs on what is there. */
  lemma {:induction false} RefreshResult(w: World, cfg: Settings, n: Name) returns (w1: World)
    requires Freed(w, n) && w.servers[n].finalizer && w.servers[n].state == Available
    ensures w1 == OnServer(w, n, w.servers[n].(powerState := w.bmc[n]))
    ensures ApplyAll(w, ServerPlan(w, cfg, n, false)) == ApplyAll(w1, AvailablePlan(w1, n, w1.servers[n]))
  {
    var s' := Refreshed(w, n);
    RefreshOnly(w, n);
    w1 := OnServer(w, n, s');
    ApplyAllSum(w, When(s'.powerState != w.servers[n].powerState, SetPowerState(n, s'.powerState)),
                AvailablePlan(w, n, s'));
    SameAvailable(w, w1, n, s');
  }

  lemma {:induction false} RefreshOnly(w: World, n: Name)
    requires n in w.servers
    ensures var s' := Refreshed(w, n);
            ApplyAll(w, When(s'.powerState != w.servers[n].powerState, SetPowerState(n, s'.powerState))) ==
            OnServer(w, n, s')
  {
    var s' := Refreshed(w, n);
    ApplyWhen(w, s'.powerState != w.servers[n].powerState, SetPowerState(n, s'.powerState));
  }

  lemma {:induction false} SameAvailable(w: World, w': World, n: Name, s: Server)
    requires w'.configs == w.configs
    ensures AvailablePlan(w', n, s) == AvailablePlan(w, n, s)
  {
  }

  lemma {:induction false} RoundProgress(w: World, cfg: Settings, n: Name)
    requires Freed(w, n)
    ensures Freed(Round(w, cfg, n), n) && WillDrop(Round(w, cfg, n), n) == WillDrop(w, n)
    ensures RoundsLeft(Round(w, cfg, n), n) <= if RoundsLeft(w, n) == 0 then 0 else RoundsLeft(w, n) - 1
  {
    if !w.servers[n].finalizer || w.servers[n].state == Reserved {
      FirstRounds(w, cfg, n);
    } else {
      LastRounds(w, cfg, n);
    }
  }

  /**
   * From four rounds on, a freed server is ready for use; it has lost its boot reference exactly if that was
   * internal.
   */
  lemma {:induction false} FourRounds(w: World, cfg: Settings, n: Name, times: nat)
    requires Freed(w, n) && times >= 4
    ensures ReadyForUse(Rounds(w, cfg, n, times), n)
    ensures Rounds(w, cfg, n, times).servers[n].bootRef.None? <==> WillDrop(w, n)
  {
    RoundsCountDown(w, cfg, n, WillDrop(w, n), 4, times);
    NoRoundsLeft(Rounds(w, cfg, n, times), n);
  }

  /** Freed, with at most so many rounds to go, and with the boot reference dropped in the end or not. */
  predicate Freeing(w: World, n: Name, drops: bool, left: nat) {
    Freed(w, n) && WillDrop(w, n) == drops && RoundsLeft(w, n) <= left
  }

  lemma {:induction false} OneRound(w: World, cfg: Settings, n: Name, drops: bool, left: nat)
    requires Freeing(w, n, drops, left)
    ensures Freeing(Round(w, cfg, n), n, drops, if left > 0 then left - 1 else 0)
  {
    RoundProgress(w, cfg, n);
  }

  lemma {:induction false} RoundsCountDown(w: World, cfg: Settings, n: Name, drops: bool, left: nat, times: nat)
    requires Freeing(w, n, drops, left)
    ensures Freeing(Rounds(w, cfg, n, times), n, drops, if times < left then left - times else 0)
    decreases times
  {
    if times > 0 {
      OneRound(w, cfg, n, drops, left);
      RoundsCountDown(Round(w, cfg, n), cfg, n, drops, if left > 0 then left - 1 else 0, times - 1);
    }
  }

  lemma {:induction false} NoRoundsLeft(w: World, n: Name)
    requires Freed(w, n) && RoundsLeft(w, n) == 0
    ensures ReadyForUse(w, n) && (w.servers[n].bootRef.None? <==> WillDrop(w, n))
  {
  }

  /** Whether releasing this claim frees its server of its boot reference. */
  predicate Releasable(w: World, key: Key, n: Name)
    requires n in w.servers
  {
    var boot := w.servers[n].bootRef;
    boot.Some? ==>
      || boot.value.name == key.name || boot.value.namespace == key.namespace
      || (boot.value in w.configs && w.configs[boot.value].internal)
  }

  /**
   * What clean-up leaves of the server: no claim; and no boot reference, with power off, if the reference has the name
   * or the namespace of the claim.
   */
  lemma {:induction false} CleanupResult(w: World, key: Key, n: Name)
    requires key in w.claims && w.claims[key].deleting && w.claims[key].finalizer && w.claims[key].serverRef == Some(n)
    requires n in w.servers
    ensures var s, w' := w.servers[n], ReconcileOnce(w, key);
            var drops := s.bootRef.Some? &&
                         (s.bootRef.value.name == key.name || s.bootRef.value.namespace == key.namespace);
            && n in w'.servers && key !in w'.claims && w'.configs == w.configs - {key} && w'.bmc == w.bmc
            && w'.servers[n] == s.(claimRef := None, bootRef := if drops then None else s.bootRef,
                                   power := if drops then PowerOff else s.power)
  {
    var c := w.claims[key];
    var e2, e3 := When(key in w.configs, DeleteConfig(key)), DropBootRefEffects(w, key, n);
    UnclaimResult(w, key, n);
    var w2 := OnServer(w, n, w.servers[n].(claimRef := None)).(configs := w.configs - {key});
    ApplyAllSum(w, UnclaimEffects(w, n) + e2, e3);
    DropBootRefResult(w, w2, key, n);
    ApplyAllSum(w, CleanupPlan(w, key, c), [ReleaseClaim(key)]);
    ApplyOne(ApplyAll(w, CleanupPlan(w, key, c)), ReleaseClaim(key));
  }

  lemma {:induction false} UnclaimResult(w: World, key: Key, n: Name)
    requires n in w.servers
    ensures ApplyAll(w, UnclaimEffects(w, n) + When(key in w.configs, DeleteConfig(key))) ==
            OnServer(w, n, w.servers[n].(claimRef := None)).(configs := w.configs - {key})
  {
    ApplyWhen(w, w.servers[n].claimRef.Some?, SetClaimRef(n, None));
    var w1 := OnServer(w, n, w.servers[n].(claimRef := None));
    assert ApplyAll(w, UnclaimEffects(w, n)) == w1;
    ApplyWhen(w1, key in w.configs, DeleteConfig(key));
    ApplyAllSum(w, UnclaimEffects(w, n), When(key in w.configs, DeleteConfig(key)));
  }

  lemma {:induction false} DropBootRefResult(w: World, w2: World, key: Key, n: Name)
    requires n in w.servers && n in w2.servers && w2.servers[n].bootRef == w.servers[n].bootRef
    ensures var drops := w.servers[n].bootRef.Some? && DropsBootRef(w.servers[n].bootRef.value, key);
            ApplyAll(w2, DropBootRefEffects(w, key, n)) ==
            if drops then OnServer(w2, n, w2.servers[n].(bootRef := None, power := PowerOff)) else w2
  {
    ApplyWhen(w2, w.servers[n].bootRef.Some? && DropsBootRef(w.servers[n].bootRef.value, key),
              UnsetBootRefAndPowerOff(n));
  }

  /**
   * Once a claim with a server is finalised, four fault-free server reconciles bring the server to Available, off and
   * unclaimed, and it stays so. It loses its boot reference exactly if clean-up drops it or it is an existing internal
   * one; a dangling or foreign reference stays for good.
   */
  lemma {:induction false} ServerIsReleased(w: World, cfg: Settings, key: Key, n: Name, times: nat)
    requires key in w.claims && w.claims[key].deleting && w.claims[key].finalizer && w.claims[key].serverRef == Some(n)
    requires n in w.servers && n in w.bmc && Claimed(w.servers[n].state)
    requires w.servers[n].hasBmc && !w.servers[n].ignored && times >= 4
    ensures key !in ReconcileOnce(w, key).claims
    ensures var w' := Rounds(ReconcileOnce(w, key), cfg, n, times);
            ReadyForUse(w', n) && (w'.servers[n].bootRef.None? <==> Releasable(w, key, n))
  {
    CleanupResult(w, key, n);
    FourRounds(ReconcileOnce(w, key), cfg, n, times);
  }

  /** A claim that does not name its server yet leaves it claimed when it is finalised. */
  lemma {:induction false} UnnamedServerIsNotReleased(w: World, key: Key, n: Name)
    requires key in w.claims && w.claims[key].deleting && w.claims[key].finalizer && w.claims[key].serverRef.None?
    requires n in w.servers
    ensures var w' := ReconcileOnce(w, key);
            key !in w'.claims && n in w'.servers && w'.servers[n] == w.servers[n]
  {
    ApplyOne(w, ReleaseClaim(key));
    assert ClaimPlan(w, key) == [ReleaseClaim(key)];
  }
}
