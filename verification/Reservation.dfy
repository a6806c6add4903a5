/** What every reconcile keeps, at every point between its writes, and what follows for whole runs. */
module Reservation {
  import opened Options
  import opened Metal
  import opened World

  /** What is stated: with `bindings`, also that the live Bound claims are coherent. */
  datatype View = View(cfg: Settings, bindings: bool)

  predicate Live(w: World, v: View, key: Key) {
    v.bindings && key in w.claims && !w.claims[key].deleting && w.claims[key].phase == Bound
  }

  /** Claim, server and boot configuration agree about each other. */
  predicate Coherent(w: World, key: Key)
    requires key in w.claims
  {
    var c := w.claims[key];
    && c.serverRef.Some? && c.serverRef.value in w.servers
    && var n := c.serverRef.value;
    && w.servers[n].claimRef.Some? && w.servers[n].claimRef.value.uid == c.uid
    && w.servers[n].bootRef == Some(key)
    && key in w.configs && w.configs[key].serverRef == n && w.configs[key].owner == Some(c.uid)
  }

  /** Some live Bound claim names this server. */
  ghost predicate BoundTo(w: World, v: View, n: Name) {
    exists key :: Live(w, v, key) && w.claims[key].serverRef == Some(n)
  }

  ghost predicate ServerOk(w: World, n: Name, s: Server) {
    && (s.claimRef.Some? ==> Claimed(s.state))
    && (!Claimed(s.state) && s.power == PowerOn ==> n in w.observed || n in w.createdOn)
    && (Claimed(s.state) ==> (s.uuid, s.nics) in w.registrations)
  }

  ghost predicate ServersOk(w: World) {
    && Listing(w.order, w.servers)
    && forall n :: n in w.servers ==> ServerOk(w, n, w.servers[n])
  }

  ghost predicate ClaimsOk(w: World, v: View) {
    && (forall k :: k in w.claims ==>
          && k.namespace != v.cfg.managerNamespace && w.claims[k].uid < w.nextUid
          && (w.claims[k].deleting ==> w.claims[k].finalizer))
    && (forall k, l :: k in w.claims && l in w.claims && w.claims[k].uid == w.claims[l].uid ==> k == l)
  }

  /** The internal configurations are those in the manager's namespace. */
  ghost predicate ConfigsOk(w: World, v: View) {
    forall k :: k in w.configs ==> (w.configs[k].internal <==> k.namespace == v.cfg.managerNamespace)
  }

  ghost predicate RegistryOk(w: World) {
    forall u :: u in w.registry ==> (u, w.registry[u]) in w.registrations
  }

  ghost predicate BoundOk(w: World, v: View) {
    forall k :: Live(w, v, k) ==> Coherent(w, k)
  }

  ghost predicate Inv(w: World, v: View) {
    ServersOk(w) && ClaimsOk(w, v) && ConfigsOk(w, v) && RegistryOk(w) && BoundOk(w, v)
  }

  // ----- changes of one object -----

  lemma {:induction false} KeepServer(w: World, v: View, n: Name, s: Server)
    requires Inv(w, v) && n in w.servers && ServerOk(w, n, s)
    requires BoundTo(w, v, n) ==> s.claimRef == w.servers[n].claimRef && s.bootRef == w.servers[n].bootRef
    ensures Inv(OnServer(w, n, s), v)
  {
    var w' := OnServer(w, n, s);
    forall k | Live(w', v, k) ensures Coherent(w', k) {
      assert Live(w, v, k) && Coherent(w, k);
    }
  }

  lemma {:induction false} KeepClaim(w: World, v: View, key: Key, c: Claim)
    requires Inv(w, v) && key in w.claims && c.uid == w.claims[key].uid && (c.deleting ==> c.finalizer)
    requires v.bindings && !c.deleting && c.phase == Bound ==> Coherent(OnClaim(w, key, c), key)
    ensures Inv(OnClaim(w, key, c), v)
  {
    var w' := OnClaim(w, key, c);
    forall k | Live(w', v, k) ensures Coherent(w', k) {
      if k != key {
        assert Live(w, v, k) && Coherent(w, k);
      }
    }
  }

  lemma {:induction false} KeepConfig(w: World, v: View, key: Key, config: Config)
    requires Inv(w, v) && (config.internal <==> key.namespace == v.cfg.managerNamespace)
    requires Live(w, v, key) ==>
               w.claims[key].serverRef == Some(config.serverRef) && config.owner == Some(w.claims[key].uid)
    ensures Inv(w.(configs := w.configs[key := config]), v)
  {
    var w' := w.(configs := w.configs[key := config]);
    forall k | Live(w', v, k) ensures Coherent(w', k) {
      assert Live(w, v, k) && Coherent(w, k);
    }
  }

  lemma {:induction false} KeepWithoutConfig(w: World, v: View, key: Key)
    requires Inv(w, v) && !Live(w, v, key)
    ensures Inv(w.(configs := w.configs - {key}), v)
  {
    var w' := w.(configs := w.configs - {key});
    forall k | Live(w', v, k) ensures Coherent(w', k) {
      assert Live(w, v, k) && Coherent(w, k);
    }
  }

  lemma {:induction false} KeepWithoutClaim(w: World, v: View, key: Key)
    requires Inv(w, v)
    ensures Inv(w.(claims := w.claims - {key}), v)
  {
    var w' := w.(claims := w.claims - {key});
    forall k | Live(w', v, k) ensures Coherent(w', k) {
      assert Live(w, v, k) && Coherent(w, k);
    }
  }

  lemma {:induction false} KeepObserved(w: World, v: View, n: Name)
    requires Inv(w, v)
    ensures Inv(w.(observed := w.observed + {n}), v)
  {
    var w' := w.(observed := w.observed + {n});
    forall k | Live(w', v, k) ensures Coherent(w', k) {
      assert Live(w, v, k) && Coherent(w, k);
    }
  }

  /** Power states of machines and deletions from the registry matter to none of it. */
  lemma {:induction false} KeepElsewhere(w: World, v: View, bmc: map<Name, PowerState>, uuid: string)
    requires Inv(w, v)
    ensures Inv(w.(bmc := bmc), v) && Inv(w.(registry := w.registry - {uuid}), v)
  {
    forall w' | w' == w.(bmc := bmc) || w' == w.(registry := w.registry - {uuid}) ensures BoundOk(w', v) {
      forall k | Live(w', v, k) ensures Coherent(w', k) {
        assert Live(w, v, k) && Coherent(w, k);
      }
    }
  }

  // ----- plans -----

  /** The invariant holds at every point of performing `es`. */
  ghost predicate Keeps(w: World, v: View, es: seq<Effect>) {
    Inv(ApplyAll(w, es), v) && (es != [] ==> Keeps(w, v, es[..|es| - 1]))
  }

  lemma {:induction false} KeepsCut(w: World, v: View, es: seq<Effect>, cut: nat)
    requires Keeps(w, v, es)
    ensures Inv(ApplyAll(w, Cut(es, cut)), v)
    decreases |es|
  {
    if cut < |es| {
      var front := es[..|es| - 1];
      KeepsCut(w, v, front, cut);
      assert Cut(front, cut) == Cut(es, cut);
    }
  }

  lemma {:induction false} KeepsSum(w: World, v: View, a: seq<Effect>, b: seq<Effect>)
    requires Keeps(w, v, a) && Keeps(ApplyAll(w, a), v, b)
    ensures Keeps(w, v, a + b)
    decreases |b|
  {
    ApplyAllSum(w, a, b);
    if b == [] {
      assert a + b == a;
    } else {
      KeepsSum(w, v, a, b[..|b| - 1]);
      assert (a + b)[..|a + b| - 1] == a + b[..|b| - 1];
    }
  }

  lemma {:induction false} KeepsOne(w: World, v: View, e: Effect)
    requires Inv(w, v) && Inv(Apply(w, e), v)
    ensures Keeps(w, v, [e]) && ApplyAll(w, [e]) == Apply(w, e)
  {
    assert [e][..0] == [];
    assert ApplyAll(w, []) == w;
    assert Keeps(w, v, []);
  }

  lemma {:induction false} KeepsWhen(w: World, v: View, b: bool, e: Effect)
    requires Inv(w, v) && (b ==> Inv(Apply(w, e), v))
    ensures Keeps(w, v, When(b, e)) && ApplyAll(w, When(b, e)) == if b then Apply(w, e) else w
  {
    if b {
      KeepsOne(w, v, e);
    } else {
      assert ApplyAll(w, []) == w;
    }
  }

  // ----- claim reconciles -----

  /** No claim but `key` itself can be Bound to a server that carries its UID. */
  lemma {:induction false} NotBoundTo(w: World, v: View, key: Key, n: Name)
    requires Inv(w, v) && n in w.servers && key in w.claims && !Live(w, v, key)
    requires w.servers[n].claimRef.Some? ==> w.servers[n].claimRef.value.uid == w.claims[key].uid
    ensures !BoundTo(w, v, n)
  {
    forall k | Live(w, v, k) ensures w.claims[k].serverRef != Some(n) {
      assert Coherent(w, k);
    }
  }

  lemma {:induction false} KeepsThree(w: World, v: View, a: seq<Effect>, b: seq<Effect>, c: seq<Effect>)
    requires Keeps(w, v, a) && Keeps(ApplyAll(w, a), v, b) && Keeps(ApplyAll(ApplyAll(w, a), b), v, c)
    ensures Keeps(w, v, a + b + c) && ApplyAll(w, a + b + c) == ApplyAll(ApplyAll(ApplyAll(w, a), b), c)
  {
    KeepsSum(w, v, a, b);
    ApplyAllSum(w, a, b);
    KeepsSum(w, v, a + b, c);
    ApplyAllSum(w, a + b, c);
  }

  /** The claim reads its server as its own. */
  ghost predicate Binding(w: World, key: Key, n: Name) {
    && key in w.claims && n in w.servers && !w.claims[key].deleting && w.claims[key].serverRef == Some(n)
    && w.servers[n].claimRef.Some? && w.servers[n].claimRef.value.uid == w.claims[key].uid
  }

  lemma {:induction false} BindKeeps(w: World, v: View, key: Key, n: Name)
    requires Inv(w, v) && Binding(w, key, n) && !ForeignConfig(w, key, w.claims[key])
    ensures Keeps(w, v, BindPlan(w, key, w.claims[key], n))
  {
    var c, s := w.claims[key], w.servers[n];
    var config := ClaimConfig(w, key, c, n);
    var w1 := w.(configs := w.configs[key := config]);
    var w2 := OnServer(w1, n, s.(bootRef := Some(key)));
    BindConfig(w, v, key, n);
    BindBoot(w1, v, key, n);
    BindFinish(w2, v, key, n);
    SameFinish(key, c, n, s, s.(bootRef := Some(key)));
    KeepsThree(w, v, ConfigEffects(w, key, config), BootRefEffects(n, s, key), FinishEffects(key, c, n, s));
  }

  lemma {:induction false} SameFinish(key: Key, c: Claim, n: Name, s: Server, s': Server)
    requires s.power == s'.power
    ensures FinishEffects(key, c, n, s) == FinishEffects(key, c, n, s')
  {
  }

  lemma {:induction false} BindConfig(w: World, v: View, key: Key, n: Name)
    requires Inv(w, v) && Binding(w, key, n) && !ForeignConfig(w, key, w.claims[key])
    ensures var config := ClaimConfig(w, key, w.claims[key], n);
            && Keeps(w, v, ConfigEffects(w, key, config))
            && ApplyAll(w, ConfigEffects(w, key, config)) == w.(configs := w.configs[key := config])
  {
    var config := ClaimConfig(w, key, w.claims[key], n);
    assert Live(w, v, key) ==> Coherent(w, key);
    KeepConfig(w, v, key, config);
    KeepsWhen(w, v, !(key in w.configs && w.configs[key] == config), PutConfig(key, config));
  }

  lemma {:induction false} BindBoot(w: World, v: View, key: Key, n: Name)
    requires Inv(w, v) && Binding(w, key, n)
    ensures var s := w.servers[n];
            && Keeps(w, v, BootRefEffects(n, s, key))
            && ApplyAll(w, BootRefEffects(n, s, key)) == OnServer(w, n, s.(bootRef := Some(key)))
  {
    var s := w.servers[n];
    if s.bootRef != Some(key) {
      assert Live(w, v, key) ==> Coherent(w, key);
      NotBoundTo(w, v, key, n);
      KeepServer(w, v, n, s.(bootRef := Some(key)));
    }
    KeepsWhen(w, v, s.bootRef != Some(key), SetBootRef(n, Some(key)));
  }

  lemma {:induction false} BindFinish(w: World, v: View, key: Key, n: Name)
    requires Inv(w, v) && Binding(w, key, n) && w.servers[n].bootRef == Some(key)
    requires key in w.configs && w.configs[key].serverRef == n && w.configs[key].owner == Some(w.claims[key].uid)
    ensures Keeps(w, v, FinishEffects(key, w.claims[key], n, w.servers[n]))
  {
    var c, s := w.claims[key], w.servers[n];
    if c.phase != Bound {
      KeepClaim(w, v, key, c.(phase := Bound));
      KeepsOne(w, v, SetPhase(key, Bound));
    } else {
      KeepServer(w, v, n, s.(power := c.power));
      KeepsWhen(w, v, s.power != c.power, SetPower(n, c.power));
    }
  }

  /** Clean-up keeps the invariant when no live Bound claim names the server. */
  lemma {:induction false} CleanupKeeps(w: World, v: View, key: Key, n: Name)
    requires Inv(w, v) && !Live(w, v, key) && !BoundTo(w, v, n)
    ensures Keeps(w, v, UnclaimEffects(w, n) + When(key in w.configs, DeleteConfig(key))
                        + DropBootRefEffects(w, key, n))
  {
    var e := UnclaimEffects(w, n) + When(key in w.configs, DeleteConfig(key));
    var w' := DetachKeeps(w, v, key, n);
    CleanBoot(w', v, key, n);
    KeepsSum(w, v, e, DropBootRefEffects(w, key, n));
  }

  lemma {:induction false} DetachKeeps(w: World, v: View, key: Key, n: Name) returns (w': World)
    requires Inv(w, v) && !Live(w, v, key) && !BoundTo(w, v, n)
    ensures var e := UnclaimEffects(w, n) + When(key in w.configs, DeleteConfig(key));
            Keeps(w, v, e) && w' == ApplyAll(w, e)
    ensures Inv(w', v) && !BoundTo(w', v, n) && DropBootRefEffects(w', key, n) == DropBootRefEffects(w, key, n)
  {
    var w1 := CleanRef(w, v, n);
    SameBindings(w, w1, v, n);
    w' := CleanConfig(w1, v, key);
    SameBindings(w1, w', v, n);
    KeepsSum(w, v, UnclaimEffects(w, n), When(key in w.configs, DeleteConfig(key)));
    ApplyAllSum(w, UnclaimEffects(w, n), When(key in w.configs, DeleteConfig(key)));
    SameDrop(w, w1, w', key, n);
  }

  lemma {:induction false} SameDrop(w: World, w1: World, w': World, key: Key, n: Name)
    requires (n in w.servers <==> n in w1.servers) && (n in w.servers ==> w1.servers[n].bootRef == w.servers[n].bootRef)
    requires w'.servers == w1.servers
    ensures DropBootRefEffects(w', key, n) == DropBootRefEffects(w, key, n)
  {
  }

  lemma {:induction false} CleanRef(w: World, v: View, n: Name) returns (w': World)
    requires Inv(w, v) && !BoundTo(w, v, n)
    ensures Keeps(w, v, UnclaimEffects(w, n)) && ApplyAll(w, UnclaimEffects(w, n)) == w' && Inv(w', v)
    ensures w'.claims == w.claims && w'.configs == w.configs
    ensures (n in w.servers <==> n in w'.servers) && (n in w.servers ==> w'.servers[n].bootRef == w.servers[n].bootRef)
  {
    w' := w;
    if n in w.servers {
      KeepServer(w, v, n, w.servers[n].(claimRef := None));
      w' := OnServer(w, n, w.servers[n].(claimRef := None));
    }
    KeepsWhen(w, v, n in w.servers && w.servers[n].claimRef.Some?, SetClaimRef(n, None));
  }

  lemma {:induction false} CleanConfig(w: World, v: View, key: Key) returns (w': World)
    requires Inv(w, v) && !Live(w, v, key)
    ensures Keeps(w, v, When(key in w.configs, DeleteConfig(key)))
    ensures ApplyAll(w, When(key in w.configs, DeleteConfig(key))) == w' && Inv(w', v)
    ensures w'.claims == w.claims && w'.servers == w.servers
  {
    KeepWithoutConfig(w, v, key);
    KeepsWhen(w, v, key in w.configs, DeleteConfig(key));
    w' := w.(configs := w.configs - {key});
  }

  lemma {:induction false} CleanBoot(w: World, v: View, key: Key, n: Name)
    requires Inv(w, v) && !BoundTo(w, v, n)
    ensures Keeps(w, v, DropBootRefEffects(w, key, n))
  {
    if n in w.servers {
      KeepServer(w, v, n, w.servers[n].(bootRef := None, power := PowerOff));
    }
    KeepsWhen(w, v, n in w.servers && w.servers[n].bootRef.Some? && DropsBootRef(w.servers[n].bootRef.value, key),
              UnsetBootRefAndPowerOff(n));
  }

  lemma {:induction false} SameBindings(w: World, w': World, v: View, n: Name)
    requires w'.claims == w.claims
    ensures BoundTo(w', v, n) <==> BoundTo(w, v, n)
  {
    forall k ensures Live(w', v, k) <==> Live(w, v, k) {
    }
  }

  /** A claim may be finalised when no live Bound claim names the server it names. */
  ghost predicate MayFinalise(w: World, v: View, key: Key) {
    key in w.claims && w.claims[key].deleting && w.claims[key].serverRef.Some? ==>
      !BoundTo(w, v, w.claims[key].serverRef.value)
  }

  lemma {:induction false} ClaimKeeps(w: World, v: View, key: Key)
    requires Inv(w, v) && MayFinalise(w, v, key)
    ensures Keeps(w, v, ClaimPlan(w, key))
  {
    assert ApplyAll(w, []) == w;
    if key in w.claims {
      var c := w.claims[key];
      if c.deleting {
        if c.finalizer {
          if c.serverRef.Some? {
            CleanupKeeps(w, v, key, c.serverRef.value);
          }
          var w' := ApplyAll(w, CleanupPlan(w, key, c));
          KeepWithoutClaim(w', v, key);
          KeepsOne(w', v, ReleaseClaim(key));
          KeepsSum(w, v, CleanupPlan(w, key, c), [ReleaseClaim(key)]);
        }
      } else if c.ignored {
      } else if c.phase == NoPhase {
        KeepClaim(w, v, key, c.(phase := Unbound));
        KeepsOne(w, v, SetPhase(key, Unbound));
      } else if !c.finalizer {
        assert Live(w, v, key) ==> Coherent(w, key);
        KeepClaim(w, v, key, c.(finalizer := true));
        KeepsOne(w, v, AddClaimFinalizer(key));
      } else {
        ChosenKeeps(w, v, key);
      }
    }
  }

  lemma {:induction false} TakeKeeps(w: World, v: View, key: Key, n: Name)
    requires Inv(w, v) && key in w.claims && !Live(w, v, key)
    requires n in w.servers && w.servers[n].claimRef.None? && Claimed(w.servers[n].state)
    ensures Keeps(w, v, [SetClaimRef(n, Some(ClaimRef(key, w.claims[key].uid)))])
  {
    var ref := Some(ClaimRef(key, w.claims[key].uid));
    NotBoundTo(w, v, key, n);
    KeepServer(w, v, n, w.servers[n].(claimRef := ref));
    KeepsOne(w, v, SetClaimRef(n, ref));
  }

  lemma {:induction false} ChosenKeeps(w: World, v: View, key: Key)
    requires Inv(w, v) && key in w.claims && !w.claims[key].deleting && !w.claims[key].ignored
    requires w.claims[key].phase != NoPhase && w.claims[key].finalizer
    ensures Keeps(w, v, ClaimPlan(w, key))
  {
    var c := w.claims[key];
    assert ApplyAll(w, []) == w;
    assert Live(w, v, key) ==> Coherent(w, key);
    if Candidate(w.servers, w.order, key, c).Some? {
      CandidateIsFreeOrOwn(w.servers, w.order, key, c);
      var n := Candidate(w.servers, w.order, key, c).value;
      if w.servers[n].claimRef.None? {
        assert !Live(w, v, key);
        TakeKeeps(w, v, key, n);
      } else if c.serverRef.None? {
        KeepClaim(w, v, key, c.(serverRef := Some(n)));
        KeepsOne(w, v, SetServerRef(key, n));
      } else if c.serverRef.value == n && !ForeignConfig(w, key, c) {
        BindKeeps(w, v, key, n);
      }
    }
  }

  // ----- server reconciles -----

  lemma {:induction false} FreeIsNotBound(w: World, v: View, n: Name)
    requires Inv(w, v) && n in w.servers && w.servers[n].claimRef.None?
    ensures !BoundTo(w, v, n)
  {
    forall k | Live(w, v, k) ensures w.claims[k].serverRef != Some(n) {
      assert Coherent(w, k);
    }
  }

  /** A patch of a free server, or of fields other than the two references. */
  lemma {:induction false} PatchKeeps(w: World, v: View, n: Name, e: Effect, s: Server, b: bool)
    requires Inv(w, v) && n in w.servers && ServerOk(w, n, s) && Apply(w, e) == OnServer(w, n, s)
    requires w.servers[n].claimRef.Some? ==> s.claimRef == w.servers[n].claimRef && s.bootRef == w.servers[n].bootRef
    ensures Keeps(w, v, When(b, e)) && ApplyAll(w, When(b, e)) == if b then OnServer(w, n, s) else w
  {
    if w.servers[n].claimRef.None? {
      FreeIsNotBound(w, v, n);
    }
    KeepServer(w, v, n, s);
    KeepsWhen(w, v, b, e);
  }

  lemma {:induction false} CommandsKeep(w: World, v: View, n: Name, op: Option<bool>) returns (w': World)
    requires Inv(w, v)
    ensures Keeps(w, v, Commands(n, op)) && ApplyAll(w, Commands(n, op)) == w' && Inv(w', v)
    ensures w' == w.(bmc := w'.bmc)
  {
    w' := if op.Some? then w.(bmc := w.bmc[n := if op.value then On else Off]) else w;
    KeepElsewhere(w, v, w'.bmc, "");
    if op.Some? {
      KeepsOne(w, v, Command(n, op.value));
    } else {
      assert ApplyAll(w, []) == w;
    }
  }

  lemma {:induction false} InternalConfigKeeps(w: World, v: View, n: Name, config: Config)
    requires Inv(w, v) && config.internal
    ensures var key := InternalKey(v.cfg, n);
            && Keeps(w, v, ConfigEffects(w, key, config))
            && ApplyAll(w, ConfigEffects(w, key, config)) == w.(configs := w.configs[key := config])
  {
    var key := InternalKey(v.cfg, n);
    KeepConfig(w, v, key, config);
    KeepsWhen(w, v, !(key in w.configs && w.configs[key] == config), PutConfig(key, config));
  }

  lemma {:induction false} InitialHead(w: World, v: View, n: Name, op: Option<bool>, config: Config)
    returns (w': World)
    requires Inv(w, v) && config.internal
    ensures var key := InternalKey(v.cfg, n);
            && Keeps(w, v, Commands(n, op) + ConfigEffects(w, key, config))
            && ApplyAll(w, Commands(n, op) + ConfigEffects(w, key, config)) == w'
    ensures w'.servers == w.servers && w'.observed == w.observed && Inv(w', v)
  {
    var key := InternalKey(v.cfg, n);
    var w1 := CommandsKeep(w, v, n, op);
    InternalConfigKeeps(w1, v, n, config);
    assert ConfigEffects(w1, key, config) == ConfigEffects(w, key, config);
    KeepsSum(w, v, Commands(n, op), ConfigEffects(w, key, config));
    ApplyAllSum(w, Commands(n, op), ConfigEffects(w, key, config));
    w' := w1.(configs := w1.configs[key := config]);
  }

  lemma {:induction false} InitialTail(w: World, v: View, n: Name, key: Key)
    requires Inv(w, v) && n in w.servers && w.servers[n].state == Initial
    ensures var s := w.servers[n];
            Keeps(w, v, BootRefEffects(n, s, key) + When(s.hasBmc, SetState(n, Discovery)))
  {
    var s := w.servers[n];
    var w1 := BootRefKeeps(w, v, n, key);
    DiscoverKeeps(w1, v, n, s.hasBmc);
    KeepsSum(w, v, BootRefEffects(n, s, key), When(s.hasBmc, SetState(n, Discovery)));
  }

  lemma {:induction false} BootRefKeeps(w: World, v: View, n: Name, key: Key) returns (w': World)
    requires Inv(w, v) && n in w.servers && w.servers[n].state == Initial
    ensures Keeps(w, v, BootRefEffects(n, w.servers[n], key)) && ApplyAll(w, BootRefEffects(n, w.servers[n], key)) == w'
    ensures Inv(w', v) && n in w'.servers && w'.servers[n] == w.servers[n].(bootRef := Some(key))
  {
    var s := w.servers[n].(bootRef := Some(key));
    PatchKeeps(w, v, n, SetBootRef(n, Some(key)), s, w.servers[n].bootRef != Some(key));
    w' := OnServer(w, n, s);
  }

  lemma {:induction false} DiscoverKeeps(w: World, v: View, n: Name, b: bool)
    requires Inv(w, v) && n in w.servers && w.servers[n].state == Initial
    ensures Keeps(w, v, When(b, SetState(n, Discovery)))
  {
    PatchKeeps(w, v, n, SetState(n, Discovery), w.servers[n].(state := Discovery), b);
  }

  lemma {:induction false} InitialKeeps(w: World, v: View, n: Name)
    requires Inv(w, v) && n in w.servers && w.servers[n].state == Initial
    ensures Keeps(w, v, InitialPlan(w, v.cfg, n, w.servers[n]))
  {
    var s := w.servers[n];
    if (s.power == PowerUnset && s.powerState == Off) ||
       (s.powerState == On && v.cfg.enforceFirstBoot && s.power != PowerOff) {
      PatchKeeps(w, v, n, SetPower(n, PowerOff), s.(power := PowerOff), true);
    } else if PowerOp(s.power, s.powerState).Some? && !s.hasBmc {
      assert ApplyAll(w, []) == w;
    } else {
      var op, key, config := PowerOp(s.power, s.powerState), InternalKey(v.cfg, n), InternalConfig(w, v.cfg, n);
      var head := Commands(n, op) + ConfigEffects(w, key, config);
      var tail := BootRefEffects(n, s, key) + When(s.hasBmc, SetState(n, Discovery));
      var w' := InitialHead(w, v, n, op, config);
      InitialTail(w', v, n, key);
      KeepsSum(w, v, head, tail);
    }
  }

  lemma {:induction false} ReservedKeeps(w: World, v: View, n: Name)
    requires Inv(w, v) && n in w.servers
    ensures Keeps(w, v, ReservedPlan(w, n, w.servers[n]))
  {
    var s := w.servers[n];
    assert ApplyAll(w, []) == w;
    if BootReady(w, s) {
      KeepObserved(w, v, n);
      KeepsOne(w, v, Observe(n));
      var w1 := Apply(w, Observe(n));
      assert ApplyAll(w1, []) == w1;
      if s.hasBmc {
        var w2 := CommandsKeep(w1, v, n, PowerOp(s.power, s.powerState));
        KeepsSum(w, v, [Observe(n)], Commands(n, PowerOp(s.power, s.powerState)));
      } else {
        KeepsSum(w, v, [Observe(n)], []);
      }
    }
  }

  lemma {:induction false} ShutDownKeeps(w: World, v: View, n: Name) returns (w': World)
    requires Inv(w, v) && n in w.servers
    ensures Keeps(w, v, ShutDown(n, w.servers[n])) && ApplyAll(w, ShutDown(n, w.servers[n])) == w' && Inv(w', v)
    ensures w'.configs == w.configs && n in w'.servers
    ensures w'.servers[n].claimRef == w.servers[n].claimRef && w'.servers[n].bootRef == w.servers[n].bootRef
  {
    var s := w.servers[n];
    if s.powerState == Off {
      assert ApplyAll(w, []) == w;
      w' := w;
    } else {
      var e1 := When(s.power != PowerOff, SetPower(n, PowerOff));
      var op := if s.hasBmc then PowerOp(PowerOff, s.powerState) else None;
      var w1 := PowerOffKeeps(w, v, n);
      w' := CommandsKeep(w1, v, n, op);
      KeepsSum(w, v, e1, Commands(n, op));
      ApplyAllSum(w, e1, Commands(n, op));
    }
  }

  lemma {:induction false} PowerOffKeeps(w: World, v: View, n: Name) returns (w': World)
    requires Inv(w, v) && n in w.servers
    ensures var e := When(w.servers[n].power != PowerOff, SetPower(n, PowerOff));
            Keeps(w, v, e) && ApplyAll(w, e) == w' && Inv(w', v)
    ensures w'.configs == w.configs && n in w'.servers && w'.servers[n] == w.servers[n].(power := PowerOff)
  {
    var s := w.servers[n].(power := PowerOff);
    PatchKeeps(w, v, n, SetPower(n, PowerOff), s, w.servers[n].power != PowerOff);
    w' := OnServer(w, n, s);
  }

  lemma {:induction false} AvailableKeeps(w: World, v: View, n: Name)
    requires Inv(w, v) && n in w.servers && w.servers[n].claimRef.None?
    ensures Keeps(w, v, AvailablePlan(w, n, w.servers[n]))
  {
    var s := w.servers[n];
    var w' := ShutDownKeeps(w, v, n);
    if s.bootRef.Some? && s.bootRef.value in w.configs && w.configs[s.bootRef.value].internal {
      InternalGone(w', v, n, s.bootRef.value);
      KeepsSum(w, v, ShutDown(n, s), [DeleteConfig(s.bootRef.value)] + [SetBootRef(n, None)]);
    }
  }

  lemma {:induction false} InternalGone(w: World, v: View, n: Name, key: Key)
    requires Inv(w, v) && n in w.servers && w.servers[n].claimRef.None?
    requires key in w.configs && w.configs[key].internal
    ensures Keeps(w, v, [DeleteConfig(key)] + [SetBootRef(n, None)])
  {
    KeepWithoutConfig(w, v, key);
    KeepsOne(w, v, DeleteConfig(key));
    NoBootRefKeeps(Apply(w, DeleteConfig(key)), v, n);
    KeepsSum(w, v, [DeleteConfig(key)], [SetBootRef(n, None)]);
  }

  lemma {:induction false} NoBootRefKeeps(w: World, v: View, n: Name)
    requires Inv(w, v) && n in w.servers && w.servers[n].claimRef.None?
    ensures Keeps(w, v, [SetBootRef(n, None)])
  {
    PatchKeeps(w, v, n, SetBootRef(n, None), w.servers[n].(bootRef := None), true);
  }

  /** The end of discovery: the probe's report is stored before the server becomes Available. */
  lemma {:induction false} ReportKeeps(w: World, v: View, n: Name)
    requires Inv(w, v) && n in w.servers && w.servers[n].state == Discovery && w.servers[n].uuid in w.registry
    ensures var uuid := w.servers[n].uuid;
            Keeps(w, v, [SetNics(n, w.registry[uuid]), Unregister(uuid), SetState(n, Available)])
  {
    var s := w.servers[n];
    var e1, e2, e3 := SetNics(n, w.registry[s.uuid]), Unregister(s.uuid), SetState(n, Available);
    var s1 := s.(nics := w.registry[s.uuid]);
    PatchKeeps(w, v, n, e1, s1, true);
    var w1 := OnServer(w, n, s1);
    MakeAvailableKeeps(w1, v, n);
    KeepsSum(w, v, [e1], [e2, e3]);
    assert [e1] + [e2, e3] == [e1, e2, e3];
  }

  lemma {:induction false} MakeAvailableKeeps(w: World, v: View, n: Name)
    requires Inv(w, v) && n in w.servers && (w.servers[n].uuid, w.servers[n].nics) in w.registrations
    ensures Keeps(w, v, [Unregister(w.servers[n].uuid), SetState(n, Available)])
  {
    var s := w.servers[n];
    var e2, e3 := Unregister(s.uuid), SetState(n, Available);
    KeepElsewhere(w, v, w.bmc, s.uuid);
    KeepsOne(w, v, e2);
    PatchKeeps(Apply(w, e2), v, n, e3, s.(state := Available), true);
    KeepsSum(w, v, [e2], [e3]);
    assert [e2] + [e3] == [e2, e3];
  }

  lemma {:induction false} SwitchOnKeeps(w: World, v: View, n: Name) returns (w': World)
    requires Inv(w, v) && n in w.servers
    ensures var es := [Observe(n)] + When(w.servers[n].power != PowerOn, SetPower(n, PowerOn));
            Keeps(w, v, es) && ApplyAll(w, es) == w' && Inv(w', v)
    ensures n in w'.observed && w'.registry == w.registry
    ensures n in w'.servers && w'.servers[n] == w.servers[n].(power := PowerOn)
  {
    var s := w.servers[n];
    var e2 := When(s.power != PowerOn, SetPower(n, PowerOn));
    KeepObserved(w, v, n);
    KeepsOne(w, v, Observe(n));
    var w1 := Apply(w, Observe(n));
    PatchKeeps(w1, v, n, SetPower(n, PowerOn), s.(power := PowerOn), s.power != PowerOn);
    w' := OnServer(w1, n, s.(power := PowerOn));
    assert ApplyAll(w1, e2) == w';
    KeepsSum(w, v, [Observe(n)], e2);
    ApplyAllSum(w, [Observe(n)], e2);
  }

  lemma {:induction false} DiscoveryKeeps(w: World, v: View, n: Name, late: bool)
    requires Inv(w, v) && n in w.servers && w.servers[n].state == Discovery
    ensures Keeps(w, v, DiscoveryPlan(w, n, w.servers[n], late))
  {
    var s := w.servers[n];
    assert ApplyAll(w, []) == w;
    if BootReady(w, s) {
      var es := [Observe(n)] + When(s.power != PowerOn, SetPower(n, PowerOn));
      var w2 := SwitchOnKeeps(w, v, n);
      if s.hasBmc {
        ProbeKeeps(w2, v, n, late);
        assert DiscoveryEnd(w2, n, w2.servers[n], late) == DiscoveryEnd(w, n, s, late);
        KeepsSum(w, v, es, Commands(n, PowerOp(PowerOn, s.powerState)) + DiscoveryEnd(w, n, s, late));
      } else {
        assert es + [] == es;
      }
    }
  }

  lemma {:induction false} ProbeKeeps(w: World, v: View, n: Name, late: bool)
    requires Inv(w, v) && n in w.servers && w.servers[n].state == Discovery && n in w.observed
    ensures var s := w.servers[n];
            Keeps(w, v, Commands(n, PowerOp(PowerOn, s.powerState)) + DiscoveryEnd(w, n, s, late))
  {
    var s := w.servers[n];
    var w3 := CommandsKeep(w, v, n, PowerOp(PowerOn, s.powerState));
    DiscoveryEndKeeps(w3, v, n, late);
    KeepsSum(w, v, Commands(n, PowerOp(PowerOn, s.powerState)), DiscoveryEnd(w, n, s, late));
  }

  lemma {:induction false} DiscoveryEndKeeps(w: World, v: View, n: Name, late: bool)
    requires Inv(w, v) && n in w.servers && w.servers[n].state == Discovery && n in w.observed
    ensures Keeps(w, v, DiscoveryEnd(w, n, w.servers[n], late))
  {
    assert ApplyAll(w, []) == w;
    if late {
      PatchKeeps(w, v, n, SetState(n, Initial), w.servers[n].(state := Initial), true);
    } else if w.servers[n].uuid in w.registry {
      ReportKeeps(w, v, n);
    }
  }

  lemma {:induction false} HandlerKeeps(w: World, v: View, n: Name, late: bool)
    requires Inv(w, v) && n in w.servers
    requires w.servers[n].claimRef.Some? ==> w.servers[n].state == Reserved
    ensures Keeps(w, v, HandlerPlan(w, v.cfg, n, w.servers[n], late))
  {
    match w.servers[n].state {
      case Initial => InitialKeeps(w, v, n);
      case Discovery => DiscoveryKeeps(w, v, n, late);
      case Available => AvailableKeeps(w, v, n);
      case Reserved => ReservedKeeps(w, v, n);
      case Empty => assert ApplyAll(w, []) == w;
    }
  }

  lemma {:induction false} ServerKeeps(w: World, v: View, n: Name, late: bool)
    requires Inv(w, v)
    ensures Keeps(w, v, ServerPlan(w, v.cfg, n, late))
  {
    if n !in w.servers || w.servers[n].ignored {
      assert ApplyAll(w, []) == w;
    } else {
      var s := w.servers[n];
      if s.state == Empty || !s.finalizer || (s.claimRef.Some? <==> s.state != Reserved) {
        FirstChecksKeep(w, v, n, late);
      } else {
        HandledKeeps(w, v, n, late);
      }
    }
  }

  lemma {:induction false} FirstChecksKeep(w: World, v: View, n: Name, late: bool)
    requires Inv(w, v) && n in w.servers && !w.servers[n].ignored
    requires var s := w.servers[n]; s.state == Empty || !s.finalizer || (s.claimRef.Some? <==> s.state != Reserved)
    ensures Keeps(w, v, ServerPlan(w, v.cfg, n, late))
  {
    var s := w.servers[n];
    if s.state == Empty {
      PatchKeeps(w, v, n, SetState(n, Initial), s.(state := Initial), true);
    } else if !s.finalizer {
      PatchKeeps(w, v, n, AddServerFinalizer(n), s.(finalizer := true), true);
    } else if s.claimRef.Some? {
      PatchKeeps(w, v, n, SetState(n, Reserved), s.(state := Reserved), true);
    } else {
      PatchKeeps(w, v, n, SetState(n, Available), s.(state := Available), true);
    }
  }

  lemma {:induction false} HandledKeeps(w: World, v: View, n: Name, late: bool)
    requires Inv(w, v) && n in w.servers && !w.servers[n].ignored
    requires var s := w.servers[n]; s.state != Empty && s.finalizer && !(s.claimRef.Some? <==> s.state != Reserved)
    ensures Keeps(w, v, ServerPlan(w, v.cfg, n, late))
  {
    var s, s' := w.servers[n], Refreshed(w, n);
    var e1 := When(s'.powerState != s.powerState, SetPowerState(n, s'.powerState));
    PatchKeeps(w, v, n, SetPowerState(n, s'.powerState), s', s'.powerState != s.powerState);
    var w1 := OnServer(w, n, s');
    assert ApplyAll(w, e1) == w1;
    HandlerKeeps(w1, v, n, late);
    SameHandler(w, v, n, s', late);
    KeepsSum(w, v, e1, HandlerPlan(w, v.cfg, n, s', late));
  }

  lemma {:induction false} SameHandler(w: World, v: View, n: Name, s: Server, late: bool)
    ensures HandlerPlan(OnServer(w, n, s), v.cfg, n, s, late) == HandlerPlan(w, v.cfg, n, s, late)
  {
  }

  // ----- whole runs -----

  /** The steps that may be taken: a claim is finalised only when that unbinds no one else. */
  ghost predicate Allowed(w: World, v: View, step: Step) {
    Enabled(w, v.cfg, step) && (step.ReconcileClaim? ==> MayFinalise(w, v, step.key))
  }

  lemma {:induction false} StepKeeps(w: World, v: View, step: Step)
    requires Inv(w, v) && Allowed(w, v, step)
    ensures Inv(After(w, v.cfg, step), v)
  {
    match step {
      case ReconcileClaim(key, cut) =>
        ClaimKeeps(w, v, key);
        KeepsCut(w, v, ClaimPlan(w, key), cut);
      case ReconcileServer(n, late, cut) =>
        ServerKeeps(w, v, n, late);
        KeepsCut(w, v, ServerPlan(w, v.cfg, n, late), cut);
      case CreateServer(n, s, current) =>
        AddServerKeeps(w, v, n, s, current);
      case CreateClaim(key, c) =>
        AddClaimKeeps(w, v, key, c);
      case DeleteClaim(key) =>
        KeepWithoutClaim(w, v, key);
        if key in w.claims && w.claims[key].finalizer {
          KeepClaim(w, v, key, w.claims[key].(deleting := true));
        }
      case EditClaim(key, power, image, ignition, ignored) =>
        if key in w.claims {
          assert Live(w, v, key) ==> Coherent(w, key);
          KeepClaim(w, v, key,
                    w.claims[key].(power := power, image := image, ignition := ignition, ignored := ignored));
        }
      case CompleteClaim(key, serverRef, selector) =>
        if key in w.claims {
          assert Live(w, v, key) ==> Coherent(w, key);
          KeepClaim(w, v, key, Completed(w.claims[key], serverRef, selector));
        }
      case Relabel(n, labels, ignored) =>
        if n in w.servers {
          KeepServer(w, v, n, w.servers[n].(labels := labels, ignored := ignored));
        }
      case MarkConfig(key, state) =>
        if key in w.configs {
          assert Live(w, v, key) ==> Coherent(w, key);
          KeepConfig(w, v, key, w.configs[key].(state := state));
        }
      case Register(uuid, nics) =>
        RegisterKeeps(w, v, uuid, nics);
      case BmcChanges(n, current) =>
        KeepElsewhere(w, v, w.bmc[n := current], "");
      case Relist(order) =>
        RelistKeeps(w, v, order);
    }
  }

  lemma {:induction false} RelistKeeps(w: World, v: View, order: seq<Name>)
    requires Inv(w, v) && Listing(order, w.servers)
    ensures Inv(w.(order := order), v)
  {
    var w' := w.(order := order);
    forall k | Live(w', v, k) ensures Coherent(w', k) {
      assert Live(w, v, k) && Coherent(w, k);
    }
  }

  lemma {:induction false} AddServerKeeps(w: World, v: View, n: Name, s: Server, current: PowerState)
    requires Inv(w, v) && Enabled(w, v.cfg, CreateServer(n, s, current))
    ensures Inv(After(w, v.cfg, CreateServer(n, s, current)), v)
  {
    var w' := After(w, v.cfg, CreateServer(n, s, current));
    forall k | Live(w', v, k) ensures Coherent(w', k) {
      assert Live(w, v, k) && Coherent(w, k);
    }
  }

  lemma {:induction false} AddClaimKeeps(w: World, v: View, key: Key, c: Claim)
    requires Inv(w, v) && Enabled(w, v.cfg, CreateClaim(key, c))
    ensures Inv(After(w, v.cfg, CreateClaim(key, c)), v)
  {
    var w' := After(w, v.cfg, CreateClaim(key, c));
    forall k | Live(w', v, k) ensures Coherent(w', k) {
      assert Live(w, v, k) && Coherent(w, k);
    }
  }

  lemma {:induction false} RegisterKeeps(w: World, v: View, uuid: string, nics: Nics)
    requires Inv(w, v)
    ensures Inv(After(w, v.cfg, Register(uuid, nics)), v)
  {
    var w' := After(w, v.cfg, Register(uuid, nics));
    forall k | Live(w', v, k) ensures Coherent(w', k) {
      assert Live(w, v, k) && Coherent(w, k);
    }
  }

  lemma {:induction false} RunKeeps(v: View, ws: seq<World>, steps: seq<Step>, i: nat)
    requires Run(v.cfg, ws, steps) && i < |ws|
    requires forall j :: 0 <= j < |steps| ==> Allowed(ws[j], v, steps[j])
    ensures Inv(ws[i], v)
  {
    if i > 0 {
      RunKeeps(v, ws, steps, i - 1);
      StepKeeps(ws[i - 1], v, steps[i - 1]);
    }
  }

  /**
   * In every run in which no claim is finalised against a server that a live Bound claim names, a live Bound claim
   * has a server, that server carries its UID, and the server's boot configuration is the claim's, for that server.
   */
  lemma {:induction false} BoundIsCoherent(cfg: Settings, ws: seq<World>, steps: seq<Step>, i: nat, key: Key)
    requires Run(cfg, ws, steps) && i < |ws|
    requires forall j :: 0 <= j < |steps| ==> Allowed(ws[j], View(cfg, true), steps[j])
    requires key in ws[i].claims && !ws[i].claims[key].deleting && ws[i].claims[key].phase == Bound
    ensures Coherent(ws[i], key)
  {
    RunKeeps(View(cfg, true), ws, steps, i);
    assert Live(ws[i], View(cfg, true), key);
  }

  /** Everything but coherence holds in every run without any restriction. */
  lemma {:induction false} RunKeepsBasics(cfg: Settings, ws: seq<World>, steps: seq<Step>, i: nat)
    requires Run(cfg, ws, steps) && i < |ws|
    ensures Inv(ws[i], View(cfg, false))
  {
    RunKeeps(View(cfg, false), ws, steps, i);
  }

  /**
   * Every server in Available or Reserved carries the network interfaces of some registration made for its UUID, and a
   * claimed server is in one of these states.
   */
  lemma {:induction false} NicsComeFromTheProbe(cfg: Settings, ws: seq<World>, steps: seq<Step>, i: nat, n: Name)
    requires Run(cfg, ws, steps) && i < |ws| && n in ws[i].servers
    ensures Claimed(ws[i].servers[n].state) ==>
              exists j :: 0 <= j < i && steps[j] == Register(ws[i].servers[n].uuid, ws[i].servers[n].nics)
    ensures ws[i].servers[n].claimRef.Some? ==> Claimed(ws[i].servers[n].state)
  {
    RunKeepsBasics(cfg, ws, steps, i);
    if Claimed(ws[i].servers[n].state) {
      var j := RegistrationStep(cfg, ws, steps, i, ws[i].servers[n].uuid, ws[i].servers[n].nics);
    }
  }

  lemma {:induction false} RegistrationStep(cfg: Settings, ws: seq<World>, steps: seq<Step>, i: nat, uuid: string,
                                            nics: Nics) returns (j: nat)
    requires Run(cfg, ws, steps) && i < |ws| && (uuid, nics) in ws[i].registrations
    ensures j < i && steps[j] == Register(uuid, nics)
  {
    if i > 0 && (uuid, nics) in ws[i - 1].registrations {
      j := RegistrationStep(cfg, ws, steps, i - 1, uuid, nics);
    } else {
      j := i - 1;
      RegisteredNow(ws[j], cfg, steps[j], ws[i], (uuid, nics));
    }
  }

  lemma {:induction false} RegisteredNow(w: World, cfg: Settings, step: Step, w': World, entry: (string, Nics))
    requires w' == After(w, cfg, step)
    ensures entry !in w.registrations && entry in w'.registrations ==> step == Register(entry.0, entry.1)
  {
    HistoryOf(w, Performed(w, cfg, step));
  }

  /** Reconciles add no registrations, and observe only what they list. */
  lemma {:induction false} HistoryOf(w: World, es: seq<Effect>)
    ensures ApplyAll(w, es).registrations == w.registrations && ApplyAll(w, es).createdOn == w.createdOn
    ensures forall n :: n in ApplyAll(w, es).observed ==> n in w.observed || Observe(n) in es
  {
    if es != [] {
      var front, last := es[..|es| - 1], es[|es| - 1];
      HistoryOf(w, front);
      HistoryOfOne(ApplyAll(w, front), last);
      assert forall e :: e in front ==> e in es;
      assert last in es;
    }
  }

  lemma {:induction false} HistoryOfOne(w: World, e: Effect)
    ensures Apply(w, e).registrations == w.registrations && Apply(w, e).createdOn == w.createdOn
    ensures forall n :: n in Apply(w, e).observed ==> n in w.observed || e == Observe(n)
  {
  }

  // ----- the guard on finalising is needed -----

  /**
   * Finalising a claim whose server another live Bound claim names takes that server away from the other claim; so the
   * guard is exactly what coherence needs.
   */
  lemma {:induction false} FinalisingUnbindsOthers(w: World, cfg: Settings, key: Key, other: Key)
    requires Inv(w, View(cfg, true)) && key in w.claims && w.claims[key].deleting && w.claims[key].serverRef.Some?
    requires Live(w, View(cfg, true), other) && w.claims[other].serverRef == w.claims[key].serverRef
    ensures var w' := After(w, cfg, ReconcileClaim(key, |ClaimPlan(w, key)|));
            Live(w', View(cfg, true), other) && !Coherent(w', other)
  {
    assert Coherent(w, other);
    var n := w.claims[key].serverRef.value;
    var es := ClaimPlan(w, key);
    Unclaims(w, es, n);
    OthersStay(w, es, key, other);
  }

  lemma {:induction false} Unclaims(w: World, es: seq<Effect>, n: Name)
    requires n in w.servers
    requires forall e :: e in es ==> e.SetClaimRef? ==> e.ref.None?
    ensures n in ApplyAll(w, es).servers
    ensures SetClaimRef(n, None) in es || w.servers[n].claimRef.None? ==> ApplyAll(w, es).servers[n].claimRef.None?
  {
    if es != [] {
      var front, last := es[..|es| - 1], es[|es| - 1];
      assert es == front + [last];
      Unclaims(w, front, n);
      UnclaimsOne(ApplyAll(w, front), last, n);
    }
  }

  lemma {:induction false} UnclaimsOne(w: World, e: Effect, n: Name)
    requires n in w.servers && (e.SetClaimRef? ==> e.ref.None?)
    ensures n in Apply(w, e).servers
    ensures e == SetClaimRef(n, None) || w.servers[n].claimRef.None? ==> Apply(w, e).servers[n].claimRef.None?
  {
  }

  predicate CleanupEffect(e: Effect, key: Key) {
    e == ReleaseClaim(key) || e.SetClaimRef? || e.DeleteConfig? || e.UnsetBootRefAndPowerOff?
  }

  lemma {:induction false} OthersStay(w: World, es: seq<Effect>, key: Key, other: Key)
    requires key != other && other in w.claims
    requires forall i :: 0 <= i < |es| ==> CleanupEffect(es[i], key)
    ensures other in ApplyAll(w, es).claims && ApplyAll(w, es).claims[other] == w.claims[other]
  {
    if es != [] {
      var front, last := es[..|es| - 1], es[|es| - 1];
      OthersStay(w, front, key, other);
      assert CleanupEffect(last, key);
    }
  }
}
