/**
 * A claim gets its server although nothing waits for it: reconciles of servers come in between, calls fail, boot
 * configurations change state, and servers are listed in changing order.
 */
module Convergence {
  import opened Options
  import opened Metal
  import opened World
  import opened Reservation
  import opened Progress

  /** The machine is off and stays off as long as nobody asks for something else. */
  predicate Calm(w: World, n: Name)
    requires n in w.servers
  {
    && w.servers[n].powerState == Off && w.servers[n].power != PowerOn
    && (w.servers[n].hasBmc && n in w.bmc ==> w.bmc[n] == Off)
  }

  /** The machine is as desired, or on its way there. */
  predicate Obeys(desired: Power, current: PowerState) {
    && (desired == PowerOn ==> current == On || current == PoweringOn)
    && (desired == PowerOff ==> current == Off || current == PoweringOff)
  }

  /** A server the claim may get: its own, or a free one in use. */
  predicate InReach(w: World, key: Key, n: Name)
    requires key in w.claims && n in w.servers
  {
    Own(w.servers[n], key, w.claims[key].uid) || (w.servers[n].claimRef.None? && Claimed(w.servers[n].state))
  }

  /** The claim can be served, and the servers it may get are calm. */
  ghost predicate OnItsWay(w: World, key: Key) {
    && Servable(w, key) && (key in w.configs ==> !w.configs[key].internal)
    && forall n :: n in w.servers && InReach(w, key, n) ==> Calm(w, n)
  }

  /** The claim is Bound to the server it names, which has its configuration and the power it asks for. */
  ghost predicate Arrived(w: World, key: Key) {
    && key in w.claims
    && var c := w.claims[key];
    && !c.deleting && !c.ignored && c.selector.None? && c.finalizer
    && c.serverRef.Some? && c.serverRef.value in w.servers
    && var s := w.servers[c.serverRef.value];
    && Own(s, key, c.uid) && Claimed(s.state) && Applied(w, key, c, c.serverRef.value) && s.power == c.power
    && !w.configs[key].internal
  }

  lemma {:induction false} ArrivedIsCoherent(w: World, key: Key)
    requires Arrived(w, key)
    ensures w.claims[key].phase == Bound && Coherent(w, key) && ClaimPlan(w, key) == []
    ensures Carries(w.configs[key], w.claims[key], w.claims[key].serverRef.value)
  {
  }

  lemma {:induction false} NothingLeftIsArrived(w: World, key: Key)
    requires OnItsWay(w, key) && Remaining(w, key) == 0
    ensures Arrived(w, key)
  {
  }

  /** On its way with so many reconciles to go, or there. */
  ghost predicate Within(w: World, key: Key, left: nat) {
    Arrived(w, key) || (OnItsWay(w, key) && Remaining(w, key) <= left)
  }

  // ----- reconciles of the claim -----

  /** A reconcile without a failing call comes closer. */
  lemma {:induction false} FullReconcile(w: World, key: Key)
    requires OnItsWay(w, key) && Remaining(w, key) > 0
    ensures Within(ReconcileOnce(w, key), key, Remaining(w, key) - 1)
  {
    var c := w.claims[key];
    Progresses(w, key);
    if c.phase == NoPhase || !c.finalizer {
      InitialiseStays(w, key);
    } else if c.serverRef.None? {
      TakeStays(w, key);
    } else if w.servers[c.serverRef.value].claimRef.None? {
      ClaimedStays(w, key, c.serverRef.value);
    } else {
      BindStays(w, key);
    }
  }

  lemma {:induction false} InitialiseStays(w: World, key: Key)
    requires OnItsWay(w, key) && (w.claims[key].phase == NoPhase || !w.claims[key].finalizer)
    requires Servable(ReconcileOnce(w, key), key)
    ensures OnItsWay(ReconcileOnce(w, key), key)
  {
    var c := w.claims[key];
    var c' := if c.phase == NoPhase then c.(phase := Unbound) else c.(finalizer := true);
    ApplyOne(w, SetPhase(key, Unbound));
    ApplyOne(w, AddClaimFinalizer(key));
    ClaimOnly(w, key, c');
  }

  /** Changes of the claim itself disturb nothing. */
  lemma {:induction false} ClaimOnly(w: World, key: Key, c: Claim)
    requires OnItsWay(w, key) && c.uid == w.claims[key].uid && Servable(OnClaim(w, key, c), key)
    ensures OnItsWay(OnClaim(w, key, c), key)
  {
    var w' := OnClaim(w, key, c);
    forall n | n in w'.servers && InReach(w', key, n) ensures Calm(w', n) {
      assert InReach(w, key, n);
    }
  }

  lemma {:induction false} TakeStays(w: World, key: Key)
    requires OnItsWay(w, key) && w.claims[key].phase != NoPhase && w.claims[key].finalizer
    requires w.claims[key].serverRef.None? && Servable(ReconcileOnce(w, key), key)
    ensures OnItsWay(ReconcileOnce(w, key), key)
  {
    var c := w.claims[key];
    PreviouslyUsedIsOwn(w.servers, w.order, key, c);
    FirstFreeIsFree(w.servers, w.order);
    var n := Best(w.servers, w.order, key, c).value;
    if HoldsOne(w, key, c) {
      ApplyOne(w, SetServerRef(key, n));
      ClaimOnly(w, key, c.(serverRef := Some(n)));
    } else {
      ClaimedStays(w, key, n);
    }
  }

  lemma {:induction false} ClaimedStays(w: World, key: Key, n: Name)
    requires OnItsWay(w, key) && n in w.servers && w.servers[n].claimRef.None? && Claimed(w.servers[n].state)
    requires ClaimPlan(w, key) == [SetClaimRef(n, Some(ClaimRef(key, w.claims[key].uid)))]
    requires Servable(ReconcileOnce(w, key), key)
    ensures OnItsWay(ReconcileOnce(w, key), key)
  {
    var ref := Some(ClaimRef(key, w.claims[key].uid));
    ApplyOne(w, SetClaimRef(n, ref));
    var w' := OnServer(w, n, w.servers[n].(claimRef := ref));
    forall m | m in w'.servers && InReach(w', key, m) ensures Calm(w', m) {
      assert InReach(w, key, m) && Calm(w, m);
    }
  }

  lemma {:induction false} BindStays(w: World, key: Key)
    requires OnItsWay(w, key) && HasNamed(w, key)
    requires Servable(ReconcileOnce(w, key), key) && Remaining(ReconcileOnce(w, key), key) < Remaining(w, key)
    ensures Within(ReconcileOnce(w, key), key, Remaining(w, key) - 1)
  {
    BindResult(w, key);
    var w', c, n := ReconcileOnce(w, key), w.claims[key], w.claims[key].serverRef.value;
    if c.phase == Bound {
      assert Arrived(w', key);
    } else {
      forall m | m in w'.servers && InReach(w', key, m) ensures Calm(w', m) {
        assert InReach(w, key, m) && Calm(w, m);
      }
    }
  }

  // ----- reconciles of the claim that fail -----

  /** What a failing reconcile may have done: the configuration, and the reference to it. */
  ghost predicate HalfBound(w: World, w': World, key: Key, n: Name)
    requires key in w.claims && n in w.servers
  {
    var c, s := w.claims[key], w.servers[n];
    && (w' == w.(configs := w'.configs, servers := w'.servers))
    && (w'.configs == w.configs || w'.configs == w.configs[key := ClaimConfig(w, key, c, n)])
    && (w'.servers == w.servers || w'.servers == w.servers[n := s.(bootRef := Some(key))])
  }

  lemma {:induction false} HalfBoundStays(w: World, w': World, key: Key)
    requires OnItsWay(w, key) && HasNamed(w, key) && HalfBound(w, w', key, w.claims[key].serverRef.value)
    ensures OnItsWay(w', key) && Remaining(w', key) <= Remaining(w, key)
  {
    var c, n := w.claims[key], w.claims[key].serverRef.value;
    forall m | m in w'.servers && InReach(w', key, m) ensures Calm(w', m) {
      assert InReach(w, key, m) && Calm(w, m);
    }
    assert Applied(w, key, c, n) ==> Applied(w', key, c, n);
  }

  /** A proper part of what a reconcile would do. */
  lemma {:induction false} FailedReconcile(w: World, key: Key, cut: nat)
    requires OnItsWay(w, key) && cut < |ClaimPlan(w, key)|
    ensures var w' := ApplyAll(w, Cut(ClaimPlan(w, key), cut));
            OnItsWay(w', key) && Remaining(w', key) <= Remaining(w, key)
  {
    if cut == 0 {
      assert ClaimPlan(w, key)[..0] == [];
    } else {
      assert HasNamed(w, key);
      var n := w.claims[key].serverRef.value;
      var w' := PartOfBind(w, key, cut);
      HalfBoundStays(w, w', key);
    }
  }

  lemma {:induction false} PartOfBind(w: World, key: Key, cut: nat) returns (w': World)
    requires HasNamed(w, key) && 0 < cut < |ClaimPlan(w, key)|
    ensures w' == ApplyAll(w, Cut(ClaimPlan(w, key), cut))
    ensures HalfBound(w, w', key, w.claims[key].serverRef.value)
  {
    PlanIsBind(w, key);
    var c, n := w.claims[key], w.claims[key].serverRef.value;
    var config := ClaimConfig(w, key, c, n);
    var a, b := ConfigEffects(w, key, config), BootRefEffects(n, w.servers[n], key);
    var f := FinishEffects(key, c, n, w.servers[n]);
    assert |a| <= 1 && |b| <= 1 && |f| <= 1;
    var plan := a + b + f;
    if cut == |a| + |b| {
      assert plan[..cut] == a + b;
      ConfigAndBootRef(w, key, config, n);
      w' := ApplyAll(w, a + b);
      AfterConfigAndBootRef(w, w', key, n);
    } else {
      assert cut == 1 && |a| + |b| == 2;
      assert plan[..cut] == a && a == [PutConfig(key, config)];
      ApplyOne(w, PutConfig(key, config));
      w' := w.(configs := w.configs[key := config]);
    }
  }

  lemma {:induction false} AfterConfigAndBootRef(w: World, w': World, key: Key, n: Name)
    requires key in w.claims && n in w.servers
    requires w' == OnServer(w.(configs := w.configs[key := ClaimConfig(w, key, w.claims[key], n)]), n,
                            w.servers[n].(bootRef := Some(key)))
    ensures HalfBound(w, w', key, n)
  {
  }

  // ----- reconciles of servers -----

  /**
   * What a reconcile of an Available or Reserved server, or any part of it, leaves as it is: all other servers, the
   * claim's configuration and, of the server itself, whose it is, whether it is in use and whether it is calm.
   */
  ghost predicate Mild(w: World, w': World, n: Name, key: Key)
    requires n in w.servers
  {
    && w'.claims == w.claims && w'.order == w.order && n in w'.servers && w'.servers == w.servers[n := w'.servers[n]]
    && (key in w.configs ==> key in w'.configs && w'.configs[key] == w.configs[key])
    && (key in w'.configs ==> key in w.configs)
    && (forall m :: m != n ==> (m in w'.bmc <==> m in w.bmc) && (m in w.bmc ==> w'.bmc[m] == w.bmc[m]))
    && (n in w.bmc ==> n in w'.bmc)
    && MildServer(w, w', n, key)
  }

  ghost predicate MildServer(w: World, w': World, n: Name, key: Key)
    requires n in w.servers && n in w'.servers
  {
    var s, s' := w.servers[n], w'.servers[n];
    && s'.claimRef == s.claimRef && s'.hasBmc == s.hasBmc && s'.ignored == s.ignored && Claimed(s'.state)
    && (s.finalizer ==> s'.finalizer) && (s.claimRef.Some? && s.state == Reserved ==> s'.state == Reserved)
    && (s.claimRef.Some? && n in w.bmc && n in w'.bmc && Obeys(s.power, w.bmc[n]) ==> Obeys(s.power, w'.bmc[n]))
    && (s.claimRef.None? && s.state == Available ==> s'.state == Available)
    && (s.claimRef.Some? || Calm(w, n) ==> s'.power == s.power)
    && (s.claimRef.Some? || s.bootRef == Some(key) ==> s'.bootRef == s.bootRef)
    && (Calm(w, n) ==> Calm(w', n))
  }

  /** The effects such a reconcile may have. */
  predicate MildEffect(w: World, n: Name, key: Key, e: Effect)
    requires n in w.servers
  {
    var s := w.servers[n];
    match e
    case SetState(m, state) => m == n && state == if s.claimRef.None? then Available else Reserved
    case AddServerFinalizer(m) => m == n
    case SetPowerState(m, ps) => m == n && (Calm(w, n) ==> ps == Off)
    case SetPower(m, p) => m == n && s.claimRef.None? && !Calm(w, n)
    case SetBootRef(m, _) => m == n && s.claimRef.None? && s.bootRef != Some(key)
    case Command(m, on) => m == n && !Calm(w, n) && (s.claimRef.Some? ==> on == (s.power == PowerOn))
    case DeleteConfig(k) => k != key
    case Observe(_) => true
    case _ => false
  }

  lemma {:induction false} OneMild(w: World, w': World, n: Name, key: Key, e: Effect)
    requires n in w.servers && Mild(w, w', n, key) && MildEffect(w, n, key, e)
    ensures Mild(w, Apply(w', e), n, key)
  {
  }

  predicate AllMild(w: World, n: Name, key: Key, es: seq<Effect>)
    requires n in w.servers
  {
    forall k :: 0 <= k < |es| ==> MildEffect(w, n, key, es[k])
  }

  lemma {:induction false} MildSum(w: World, n: Name, key: Key, a: seq<Effect>, b: seq<Effect>)
    requires n in w.servers && AllMild(w, n, key, a) && AllMild(w, n, key, b)
    ensures AllMild(w, n, key, a + b)
  {
  }

  lemma {:induction false} MildEffects(w: World, n: Name, key: Key, es: seq<Effect>)
    requires n in w.servers && Claimed(w.servers[n].state) && AllMild(w, n, key, es)
    ensures Mild(w, ApplyAll(w, es), n, key)
  {
    if es != [] {
      MildEffects(w, n, key, es[..|es| - 1]);
      OneMild(w, ApplyAll(w, es[..|es| - 1]), n, key, es[|es| - 1]);
    }
  }

  lemma {:induction false} AvailableIsMild(w: World, n: Name, key: Key, s: Server)
    requires n in w.servers && w.servers[n].claimRef.None? && s == Refreshed(w, n)
    requires key in w.configs ==> !w.configs[key].internal
    ensures AllMild(w, n, key, AvailablePlan(w, n, s))
  {
    assert AllMild(w, n, key, ShutDown(n, s));
    if s.bootRef.Some? && s.bootRef.value in w.configs && w.configs[s.bootRef.value].internal {
      MildSum(w, n, key, ShutDown(n, s), [DeleteConfig(s.bootRef.value)] + [SetBootRef(n, None)]);
    }
  }

  lemma {:induction false} ReservedIsMild(w: World, n: Name, key: Key, s: Server)
    requires n in w.servers && s == Refreshed(w, n)
    ensures AllMild(w, n, key, ReservedPlan(w, n, s))
  {
  }

  lemma {:induction false} ServerPlanIsMild(w: World, cfg: Settings, n: Name, late: bool, key: Key)
    requires n in w.servers && Claimed(w.servers[n].state) && (key in w.configs ==> !w.configs[key].internal)
    ensures AllMild(w, n, key, ServerPlan(w, cfg, n, late))
  {
    var s, s' := w.servers[n], Refreshed(w, n);
    if !s.ignored && s.finalizer && (s.claimRef.Some? <==> s.state == Reserved) {
      var e1 := When(s'.powerState != s.powerState, SetPowerState(n, s'.powerState));
      if s.state == Available {
        AvailableIsMild(w, n, key, s');
        MildSum(w, n, key, e1, AvailablePlan(w, n, s'));
      } else {
        ReservedIsMild(w, n, key, s');
        MildSum(w, n, key, e1, ReservedPlan(w, n, s'));
      }
    }
  }

  lemma {:induction false} ServerStepIsMild(w: World, cfg: Settings, n: Name, late: bool, cut: nat, key: Key)
    requires n in w.servers && Claimed(w.servers[n].state) && (key in w.configs ==> !w.configs[key].internal)
    ensures Mild(w, After(w, cfg, ReconcileServer(n, late, cut)), n, key)
  {
    ServerPlanIsMild(w, cfg, n, late, key);
    MildEffects(w, n, key, Cut(ServerPlan(w, cfg, n, late), cut));
  }

  lemma {:induction false} MildStays(w: World, w': World, n: Name, key: Key)
    requires n in w.servers && Claimed(w.servers[n].state) && Mild(w, w', n, key) && OnItsWay(w, key)
    ensures OnItsWay(w', key) && Remaining(w', key) <= Remaining(w, key)
  {
    MildReach(w, w', n, key);
    MildServable(w, w', n, key);
    MildRemaining(w, w', n, key);
  }

  lemma {:induction false} MildReach(w: World, w': World, n: Name, key: Key)
    requires n in w.servers && Claimed(w.servers[n].state) && Mild(w, w', n, key) && OnItsWay(w, key)
    ensures forall m :: m in w'.servers && InReach(w', key, m) ==> InReach(w, key, m) && Calm(w', m)
    ensures HoldsOne(w', key, w.claims[key]) <==> HoldsOne(w, key, w.claims[key])
  {
    forall m | m in w'.servers && InReach(w', key, m) ensures InReach(w, key, m) && Calm(w', m) {
      assert InReach(w, key, m) && Calm(w, m);
    }
    assert forall m :: m in w.servers ==> w'.servers[m].claimRef == w.servers[m].claimRef;
  }

  lemma {:induction false} MildServable(w: World, w': World, n: Name, key: Key)
    requires n in w.servers && Claimed(w.servers[n].state) && Mild(w, w', n, key) && OnItsWay(w, key)
    requires forall m :: m in w'.servers && InReach(w', key, m) ==> InReach(w, key, m) && Calm(w', m)
    requires HoldsOne(w', key, w.claims[key]) <==> HoldsOne(w, key, w.claims[key])
    ensures Servable(w', key)
  {
    var c := w.claims[key];
    match c.serverRef {
      case Some(m) => assert InReach(w', key, m) && Calm(w', m);
      case None =>
        forall m | m in w'.servers && Own(w'.servers[m], key, c.uid) ensures Claimable(w'.servers[m], c.uid) {
          assert InReach(w', key, m) && Claimed(w.servers[m].state);
        }
        forall m | m in w'.servers && FirstBest(w'.servers[m]) ensures w'.servers[m].powerState == Off {
          assert InReach(w', key, m);
        }
        if m :| m in w.servers && FirstBest(w.servers[m]) {
          assert FirstBest(w'.servers[m]);
        }
    }
  }

  lemma {:induction false} MildRemaining(w: World, w': World, n: Name, key: Key)
    requires n in w.servers && Mild(w, w', n, key) && OnItsWay(w, key) && Servable(w', key)
    requires HoldsOne(w', key, w.claims[key]) <==> HoldsOne(w, key, w.claims[key])
    ensures Remaining(w', key) <= Remaining(w, key)
  {
    var c := w.claims[key];
    if c.serverRef.Some? {
      assert InReach(w, key, c.serverRef.value);
      assert Applied(w, key, c, c.serverRef.value) ==> Applied(w', key, c, c.serverRef.value);
    }
  }

  lemma {:induction false} MildKeepsArrived(w: World, w': World, n: Name, key: Key)
    requires n in w.servers && Claimed(w.servers[n].state) && Mild(w, w', n, key) && Arrived(w, key)
    ensures Arrived(w', key)
  {
  }

  // ----- runs -----

  /** What may happen while the claim is on its way. */
  predicate Peaceful(w: World, step: Step, key: Key) {
    match step
    case ReconcileClaim(k, _) => k == key
    case ReconcileServer(n, _, _) => n in w.servers ==> Claimed(w.servers[n].state)
    case MarkConfig(_, _) => true
    case Register(_, _) => true
    case Relist(order) => Listing(order, w.servers)
    case _ => false
  }

  /** The step is a reconcile of the claim in which no call fails. */
  predicate Succeeds(w: World, step: Step, key: Key) {
    step.ReconcileClaim? && step.key == key && step.cut >= |ClaimPlan(w, key)|
  }

  /** One step: nothing is lost, and a reconcile of the claim that succeeds gains one. */
  lemma {:induction false} PeacefulStep(w: World, cfg: Settings, step: Step, key: Key, left: nat)
    requires Within(w, key, left) && Peaceful(w, step, key)
    ensures Within(After(w, cfg, step), key, if Succeeds(w, step, key) && left > 0 then left - 1 else left)
  {
    match step {
      case ReconcileClaim(k, cut) => ClaimReconciled(w, cfg, key, cut, left);
      case ReconcileServer(n, late, cut) =>
        if n in w.servers {
          ServerStepIsMild(w, cfg, n, late, cut, key);
          var w' := After(w, cfg, step);
          if Arrived(w, key) {
            MildKeepsArrived(w, w', n, key);
          } else {
            MildStays(w, w', n, key);
          }
        } else {
          assert Cut([], cut) == [] && ApplyAll(w, []) == w;
        }
      case _ => OtherStep(w, cfg, step, key, left);
    }
  }

  lemma {:induction false} ClaimReconciled(w: World, cfg: Settings, key: Key, cut: nat, left: nat)
    requires Within(w, key, left)
    ensures var step := ReconcileClaim(key, cut);
            Within(After(w, cfg, step), key, if Succeeds(w, step, key) && left > 0 then left - 1 else left)
  {
    if Arrived(w, key) {
      ArrivedIsCoherent(w, key);
      assert Cut([], cut) == [] && ApplyAll(w, []) == w;
    } else if cut < |ClaimPlan(w, key)| {
      FailedReconcile(w, key, cut);
    } else {
      if Remaining(w, key) == 0 {
        NothingLeftIsArrived(w, key);
      }
      FullReconcile(w, key);
    }
  }

  lemma {:induction false} OtherStep(w: World, cfg: Settings, step: Step, key: Key, left: nat)
    requires Within(w, key, left) && (step.MarkConfig? || step.Register? || step.Relist?) && Peaceful(w, step, key)
    ensures Within(After(w, cfg, step), key, left)
  {
    var w' := After(w, cfg, step);
    assert Aside(w, w', key);
    if Arrived(w, key) {
      assert Arrived(w', key);
    } else {
      AsideStays(w, w', key);
    }
  }

  /** Servers and claims are as they were, and so is the claim's configuration but for its state. */
  ghost predicate Aside(w: World, w': World, key: Key) {
    && w'.servers == w.servers && w'.claims == w.claims && w'.bmc == w.bmc
    && (w'.order == w.order || Listing(w'.order, w'.servers))
    && (key in w'.configs <==> key in w.configs)
    && (key in w.configs ==> w'.configs[key] == w.configs[key].(state := w'.configs[key].state))
  }

  lemma {:induction false} AsideStays(w: World, w': World, key: Key)
    requires Aside(w, w', key) && OnItsWay(w, key)
    ensures OnItsWay(w', key) && Remaining(w', key) == Remaining(w, key)
  {
    var c := w.claims[key];
    assert HoldsOne(w', key, c) <==> HoldsOne(w, key, c);
    assert forall n :: n in w.servers ==> InReach(w', key, n) == InReach(w, key, n) && Calm(w', n) == Calm(w, n);
    assert c.serverRef.Some? ==> Applied(w', key, c, c.serverRef.value) == Applied(w, key, c, c.serverRef.value);
  }

  ghost predicate PeacefulRun(cfg: Settings, ws: seq<World>, steps: seq<Step>, key: Key) {
    && |ws| == |steps| + 1
    && forall i :: 0 <= i < |steps| ==> Peaceful(ws[i], steps[i], key) && ws[i + 1] == After(ws[i], cfg, steps[i])
  }

  /** How many of the first `i` steps are reconciles of the claim in which no call fails. */
  function Successes(ws: seq<World>, steps: seq<Step>, key: Key, i: nat): nat
    requires i <= |steps| < |ws|
  {
    if i == 0 then 0 else
      Successes(ws, steps, key, i - 1) + if Succeeds(ws[i - 1], steps[i - 1], key) then 1 else 0
  }

  lemma {:induction false} Approaches(cfg: Settings, ws: seq<World>, steps: seq<Step>, key: Key, i: nat)
    requires PeacefulRun(cfg, ws, steps, key) && i < |ws| && OnItsWay(ws[0], key)
    ensures var done := Successes(ws, steps, key, i); Within(ws[i], key, if done < 6 then 6 - done else 0)
  {
    if i > 0 {
      Approaches(cfg, ws, steps, key, i - 1);
      var done := Successes(ws, steps, key, i - 1);
      PeacefulStep(ws[i - 1], cfg, steps[i - 1], key, if done < 6 then 6 - done else 0);
    }
  }

  /**
   * As soon as six of its reconciles have succeeded, whatever came in between, the claim is Bound, the references
   * agree, the server has the power the claim asks for, and further reconciles of the claim change nothing.
   */
  lemma {:induction false} ClaimArrives(cfg: Settings, ws: seq<World>, steps: seq<Step>, key: Key, i: nat)
    requires PeacefulRun(cfg, ws, steps, key) && i < |ws| && OnItsWay(ws[0], key) && Successes(ws, steps, key, i) >= 6
    ensures Arrived(ws[i], key) && Coherent(ws[i], key) && ClaimPlan(ws[i], key) == []
    ensures Carries(ws[i].configs[key], ws[i].claims[key], ws[i].claims[key].serverRef.value)
  {
    Approaches(cfg, ws, steps, key, i);
    if !Arrived(ws[i], key) {
      NothingLeftIsArrived(ws[i], key);
    }
    ArrivedIsCoherent(ws[i], key);
  }
}
