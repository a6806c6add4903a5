/**
 * Whole reconciles are sequences of single calls: every run of World is a run of Interleaving, so that what is proved
 * of the calls in any order holds of the reconcilers.
 */
module Refinement {
  import opened Options
  import opened Metal
  import opened World
  import Interleaving
  import opened Naming
  import opened Progress
  import Reservation

  type State = Interleaving.State
  type Action = Interleaving.Action

  /** The servers and claims, with the workers at these points. */
  function Seen(w: World, pc: Interleaving.ClaimPc, pcs: map<Name, Interleaving.ServerPc>): State {
    Interleaving.State(w.servers, w.claims, w.nextUid, pc, pcs)
  }

  /** Between two reconciles no worker is anywhere. */
  function Rest(w: World): State {
    Seen(w, Interleaving.Idle, map[])
  }

  // ----- writes that only matter to World -----

  /** Effects that touch neither claims nor the claim reference or the state of a server. */
  predicate Quiet(e: Effect) {
    match e
    case SetPhase(_, _) => false
    case AddClaimFinalizer(_) => false
    case SetServerRef(_, _) => false
    case ReleaseClaim(_) => false
    case SetClaimRef(_, _) => false
    case SetState(_, _) => false
    case _ => true
  }

  predicate AllQuiet(es: seq<Effect>) {
    forall k :: 0 <= k < |es| ==> Quiet(es[k])
  }

  /** A quiet effect is a patch of other fields, or nothing that is seen. */
  lemma {:induction false} QuietStep(w: World, e: Effect, pc: Interleaving.ClaimPc,
                                     pcs: map<Name, Interleaving.ServerPc>) returns (n: Name)
    requires Quiet(e)
    ensures var s, s' := Seen(w, pc, pcs), Seen(Apply(w, e), pc, pcs);
            s' == s || (n in Apply(w, e).servers
                        && Interleaving.Next(s, Interleaving.PatchOther(n, Apply(w, e).servers[n]), s'))
  {
    n := "";
    if Apply(w, e).servers != w.servers {
      n := e.n;
      PatchedOther(w, e, n);
      assert Interleaving.NextUser(Seen(w, pc, pcs), Interleaving.PatchOther(n, Apply(w, e).servers[n]),
                                   Seen(Apply(w, e), pc, pcs));
    } else {
      SeenAlike(w, e);
    }
  }

  lemma {:induction false} PatchedOther(w: World, e: Effect, n: Name)
    requires Quiet(e) && Apply(w, e).servers != w.servers
    requires || e.SetBootRef? || e.SetPower? || e.UnsetBootRefAndPowerOff?
             || e.AddServerFinalizer? || e.SetPowerState? || e.SetNics?
    requires e.n == n
    ensures var w' := Apply(w, e);
            && n in w.servers && n in w'.servers && w'.servers == w.servers[n := w'.servers[n]]
            && w'.servers[n].claimRef == w.servers[n].claimRef && w'.servers[n].state == w.servers[n].state
            && w'.claims == w.claims && w'.nextUid == w.nextUid
  {
  }

  lemma {:induction false} SeenAlike(w: World, e: Effect)
    requires Quiet(e)
    ensures Apply(w, e).claims == w.claims && Apply(w, e).nextUid == w.nextUid
  {
  }

  /** Quiet effects lead from what is seen before them to what is seen after them. */
  lemma {:induction false} QuietPath(s: State, ss: seq<State>, actions: seq<Action>, w: World,
                                     pc: Interleaving.ClaimPc, pcs: map<Name, Interleaving.ServerPc>, es: seq<Effect>)
    returns (ss': seq<State>, actions': seq<Action>)
    requires Leads(s, ss, actions, Seen(w, pc, pcs)) && AllQuiet(es)
    ensures Leads(s, ss', actions', Seen(ApplyAll(w, es), pc, pcs))
  {
    ss', actions' := ss, actions;
    if es != [] {
      var front, last := es[..|es| - 1], es[|es| - 1];
      ss', actions' := QuietPath(s, ss, actions, w, pc, pcs, front);
      ss', actions' := OneQuiet(s, ss', actions', ApplyAll(w, front), pc, pcs, last);
    }
  }

  lemma {:induction false} OneQuiet(s: State, ss: seq<State>, actions: seq<Action>, w: World,
                                    pc: Interleaving.ClaimPc, pcs: map<Name, Interleaving.ServerPc>, e: Effect)
    returns (ss': seq<State>, actions': seq<Action>)
    requires Leads(s, ss, actions, Seen(w, pc, pcs)) && Quiet(e)
    ensures Leads(s, ss', actions', Seen(Apply(w, e), pc, pcs))
  {
    ss', actions' := ss, actions;
    var n := QuietStep(w, e, pc, pcs);
    if Seen(Apply(w, e), pc, pcs) != Seen(w, pc, pcs) {
      ss', actions' := Further(s, ss, actions, Seen(w, pc, pcs), Interleaving.PatchOther(n, Apply(w, e).servers[n]),
                               Seen(Apply(w, e), pc, pcs));
    }
  }

  // ----- reconciles of claims -----

  /** The worker gives up, or has nothing more to do. */
  lemma {:induction false} ComesToRest(s: State, ss: seq<State>, actions: seq<Action>, w: World,
                                       pc: Interleaving.ClaimPc)
    returns (ss': seq<State>, actions': seq<Action>)
    requires Leads(s, ss, actions, Seen(w, pc, map[]))
    ensures Leads(s, ss', actions', Rest(w))
  {
    assert Interleaving.NextClaim(Seen(w, pc, map[]), Interleaving.ClaimGivesUp, Rest(w));
    ss', actions' := Further(s, ss, actions, Seen(w, pc, map[]), Interleaving.ClaimGivesUp, Rest(w));
  }

  lemma {:induction false} ReadsClaim(w: World, key: Key) returns (ss: seq<State>, actions: seq<Action>)
    requires key in w.claims
    ensures Leads(Rest(w), ss, actions, Seen(w, Interleaving.Dispatch(key, w.claims[key]), map[]))
  {
    var s' := Seen(w, Interleaving.Dispatch(key, w.claims[key]), map[]);
    assert Interleaving.NextClaim(Rest(w), Interleaving.ClaimReads(key), s');
    Onward(Rest(w), Interleaving.ClaimReads(key), s');
    ss, actions := [Rest(w), s'], [Interleaving.ClaimReads(key)];
  }

  /** Phase or finalizer. */
  lemma {:induction false} InitialiseRefines(w: World, key: Key) returns (ss: seq<State>, actions: seq<Action>)
    requires key in w.claims
    requires var c := w.claims[key]; !c.deleting && !c.ignored && (c.phase == NoPhase || !c.finalizer)
    ensures Leads(Rest(w), ss, actions, Rest(ReconcileOnce(w, key)))
  {
    InitialiseResult(w, key);
    var s := Seen(w, Interleaving.Initialise(key, w.claims[key]), map[]);
    ss, actions := ReadsClaim(w, key);
    assert Interleaving.NextClaim(s, Interleaving.ClaimInitialises, Rest(ReconcileOnce(w, key)));
    ss, actions := Further(Rest(w), ss, actions, s, Interleaving.ClaimInitialises, Rest(ReconcileOnce(w, key)));
  }

  /** A claim that is ready to have a server. */
  predicate Seeking(w: World, key: Key) {
    && key in w.claims && Listing(w.order, w.servers)
    && var c := w.claims[key]; !c.deleting && !c.ignored && c.phase != NoPhase && c.finalizer
  }

  lemma {:induction false} ChoosesServer(w: World, key: Key, n: Name) returns (ss: seq<State>, actions: seq<Action>)
    requires Seeking(w, key) && Candidate(w.servers, w.order, key, w.claims[key]) == Some(n)
    ensures var c := w.claims[key];
            Leads(Rest(w), ss, actions,
                  Seen(w, if w.servers[n].claimRef.None? then Interleaving.TakeServer(key, c, n)
                          else Interleaving.NameServer(key, c, n), map[]))
  {
    var c := w.claims[key];
    var s := Seen(w, Interleaving.Choose(key, c), map[]);
    var s' := Seen(w, if w.servers[n].claimRef.None? then Interleaving.TakeServer(key, c, n)
                      else Interleaving.NameServer(key, c, n), map[]);
    ss, actions := ReadsClaim(w, key);
    assert Interleaving.NextClaim(s, Interleaving.ClaimChooses(w.order), s');
    ss, actions := Further(Rest(w), ss, actions, s, Interleaving.ClaimChooses(w.order), s');
  }

  /** Taking a server, or naming it. */
  lemma {:induction false} TakeRefines(w: World, key: Key, n: Name) returns (ss: seq<State>, actions: seq<Action>)
    requires Seeking(w, key) && Candidate(w.servers, w.order, key, w.claims[key]) == Some(n)
    requires w.servers[n].claimRef.None? || w.claims[key].serverRef.None?
    ensures Leads(Rest(w), ss, actions, Rest(ReconcileOnce(w, key)))
  {
    var c := w.claims[key];
    ss, actions := ChoosesServer(w, key, n);
    if w.servers[n].claimRef.None? {
      ApplyOne(w, SetClaimRef(n, Some(ClaimRef(key, c.uid))));
      var s := Seen(w, Interleaving.TakeServer(key, c, n), map[]);
      assert Interleaving.NextClaim(s, Interleaving.ClaimTakesServer, Rest(ReconcileOnce(w, key)));
      ss, actions := Further(Rest(w), ss, actions, s, Interleaving.ClaimTakesServer, Rest(ReconcileOnce(w, key)));
    } else {
      ApplyOne(w, SetServerRef(key, n));
      var s := Seen(w, Interleaving.NameServer(key, c, n), map[]);
      assert Interleaving.NextClaim(s, Interleaving.ClaimNamesServer, Rest(ReconcileOnce(w, key)));
      ss, actions := Further(Rest(w), ss, actions, s, Interleaving.ClaimNamesServer, Rest(ReconcileOnce(w, key)));
    }
  }

  /** Binding: the configuration and the reference to it, then the phase or the power. */
  lemma {:induction false} BindRefines(w: World, key: Key, n: Name, cut: nat)
    returns (ss: seq<State>, actions: seq<Action>)
    requires Seeking(w, key) && Candidate(w.servers, w.order, key, w.claims[key]) == Some(n)
    requires w.servers[n].claimRef.Some? && w.claims[key].serverRef == Some(n) && !ForeignConfig(w, key, w.claims[key])
    ensures Leads(Rest(w), ss, actions, Rest(ApplyAll(w, Cut(BindPlan(w, key, w.claims[key], n), cut))))
  {
    var c, s := w.claims[key], w.servers[n];
    var pc := Interleaving.Bind(key, c, n);
    ss, actions := ChoosesServer(w, key, n);
    assert Interleaving.NextClaim(Seen(w, Interleaving.NameServer(key, c, n), map[]), Interleaving.ClaimNamesServer,
                                  Seen(w, pc, map[]));
    ss, actions := Further(Rest(w), ss, actions, Seen(w, Interleaving.NameServer(key, c, n), map[]),
                           Interleaving.ClaimNamesServer, Seen(w, pc, map[]));
    var q := ConfigEffects(w, key, ClaimConfig(w, key, c, n)) + BootRefEffects(n, s, key);
    var f := FinishEffects(key, c, n, s);
    assert AllQuiet(q);
    if c.phase == Bound || cut <= |q| {
      CutIsQuiet(q, f, cut);
      ss, actions := QuietPath(Rest(w), ss, actions, w, pc, map[], Cut(q + f, cut));
      ss, actions := ComesToRest(Rest(w), ss, actions, ApplyAll(w, Cut(q + f, cut)), pc);
    } else {
      assert Cut(q + f, cut) == q + f;
      ss, actions := QuietPath(Rest(w), ss, actions, w, pc, map[], q);
      QuietClaims(w, q);
      ss, actions := Binds(Rest(w), ss, actions, ApplyAll(w, q), key, pc);
      ApplyAllSum(w, q, f);
    }
  }

  lemma {:induction false} CutIsQuiet(q: seq<Effect>, f: seq<Effect>, cut: nat)
    requires AllQuiet(q) && (AllQuiet(f) || cut <= |q|)
    ensures AllQuiet(Cut(q + f, cut))
  {
  }

  lemma {:induction false} QuietClaims(w: World, es: seq<Effect>)
    requires AllQuiet(es)
    ensures ApplyAll(w, es).claims == w.claims
  {
    if es != [] {
      QuietClaims(w, es[..|es| - 1]);
      SeenAlike(ApplyAll(w, es[..|es| - 1]), es[|es| - 1]);
    }
  }

  lemma {:induction false} Binds(s: State, ss: seq<State>, actions: seq<Action>, w: World, key: Key,
                                 pc: Interleaving.ClaimPc)
    returns (ss': seq<State>, actions': seq<Action>)
    requires Leads(s, ss, actions, Seen(w, pc, map[])) && key in w.claims && pc.Bind? && pc.key == key
    ensures Leads(s, ss', actions', Rest(ApplyAll(w, [SetPhase(key, Bound)])))
  {
    ApplyOne(w, SetPhase(key, Bound));
    var s' := Rest(Apply(w, SetPhase(key, Bound)));
    assert Interleaving.NextClaim(Seen(w, pc, map[]), Interleaving.ClaimBinds, s');
    ss', actions' := Further(s, ss, actions, Seen(w, pc, map[]), Interleaving.ClaimBinds, s');
  }

  /** Finalising: the claim reference, then quiet effects, then the claim itself. */
  lemma {:induction false} FinaliseRefines(w: World, key: Key, cut: nat)
    returns (ss: seq<State>, actions: seq<Action>)
    requires key in w.claims && w.claims[key].deleting && w.claims[key].finalizer && cut > 0
    ensures Leads(Rest(w), ss, actions, Rest(ApplyAll(w, Cut(ClaimPlan(w, key), cut))))
  {
    var c := w.claims[key];
    ss, actions := ReadsClaim(w, key);
    var pc := Interleaving.Release(key, c);
    if c.serverRef.None? {
      assert ClaimPlan(w, key) == [] + [ReleaseClaim(key)];
      assert ApplyAll(w, []) == w;
      ss, actions := Releases(Rest(w), ss, actions, w, key, [], cut);
    } else {
      var n := c.serverRef.value;
      var u, d, b := UnclaimEffects(w, n), When(key in w.configs, DeleteConfig(key)), DropBootRefEffects(w, key, n);
      ss, actions := Unclaims(w, key, n, ss, actions);
      assert AllQuiet(d + b);
      UnclaimKeepsClaims(w, n);
      ss, actions := Releases(Rest(w), ss, actions, ApplyAll(w, u), key, d + b, if cut < |u| then 0 else cut - |u|);
      CutOfSum(w, u, (d + b) + [ReleaseClaim(key)], cut);
      assert ClaimPlan(w, key) == u + ((d + b) + [ReleaseClaim(key)]);
    }
  }

  lemma {:induction false} UnclaimKeepsClaims(w: World, n: Name)
    ensures ApplyAll(w, UnclaimEffects(w, n)).claims == w.claims
  {
    ApplyWhen(w, n in w.servers && w.servers[n].claimRef.Some?, SetClaimRef(n, None));
  }

  lemma {:induction false} CutOfSum(w: World, a: seq<Effect>, b: seq<Effect>, cut: nat)
    requires cut >= |a|
    ensures ApplyAll(w, Cut(a + b, cut)) == ApplyAll(ApplyAll(w, a), Cut(b, cut - |a|))
  {
    assert Cut(a + b, cut) == a + Cut(b, cut - |a|);
    ApplyAllSum(w, a, Cut(b, cut - |a|));
  }

  /** The server is read, and its claim reference cleared if there is one. */
  lemma {:induction false} Unclaims(w: World, key: Key, n: Name, ss: seq<State>, actions: seq<Action>)
    returns (ss': seq<State>, actions': seq<Action>)
    requires key in w.claims && w.claims[key].serverRef == Some(n)
    requires Leads(Rest(w), ss, actions, Seen(w, Interleaving.Cleanup(key, w.claims[key]), map[]))
    ensures Leads(Rest(w), ss', actions',
                  Seen(ApplyAll(w, UnclaimEffects(w, n)), Interleaving.Release(key, w.claims[key]), map[]))
  {
    var c := w.claims[key];
    var s := Seen(w, Interleaving.Cleanup(key, c), map[]);
    ApplyWhen(w, n in w.servers && w.servers[n].claimRef.Some?, SetClaimRef(n, None));
    if n in w.servers && w.servers[n].claimRef.Some? {
      var s1 := Seen(w, Interleaving.ClearRef(key, c, n), map[]);
      var s2 := Seen(Apply(w, SetClaimRef(n, None)), Interleaving.Release(key, c), map[]);
      assert Interleaving.NextClaim(s, Interleaving.ClaimReadsForCleanup, s1);
      ss', actions' := Further(Rest(w), ss, actions, s, Interleaving.ClaimReadsForCleanup, s1);
      assert Interleaving.NextClaim(s1, Interleaving.ClaimClearsRef, s2);
      ss', actions' := Further(Rest(w), ss', actions', s1, Interleaving.ClaimClearsRef, s2);
    } else {
      var s1 := Seen(w, Interleaving.Release(key, c), map[]);
      assert Interleaving.NextClaim(s, Interleaving.ClaimReadsForCleanup, s1);
      ss', actions' := Further(Rest(w), ss, actions, s, Interleaving.ClaimReadsForCleanup, s1);
    }
  }

  /** Quiet effects and the release, as far as the reconcile gets. */
  lemma {:induction false} Releases(s: State, ss: seq<State>, actions: seq<Action>, w: World, key: Key,
                                    q: seq<Effect>, cut: nat)
    returns (ss': seq<State>, actions': seq<Action>)
    requires key in w.claims && w.claims[key].deleting && AllQuiet(q)
    requires exists c :: Leads(s, ss, actions, Seen(w, Interleaving.Release(key, c), map[]))
    ensures Leads(s, ss', actions', Rest(ApplyAll(w, Cut(q + [ReleaseClaim(key)], cut))))
  {
    var c :| Leads(s, ss, actions, Seen(w, Interleaving.Release(key, c), map[]));
    var pc := Interleaving.Release(key, c);
    if cut <= |q| {
      CutIsQuiet(q, [ReleaseClaim(key)], cut);
      ss', actions' := QuietPath(s, ss, actions, w, pc, map[], Cut(q + [ReleaseClaim(key)], cut));
      ss', actions' := ComesToRest(s, ss', actions', ApplyAll(w, Cut(q + [ReleaseClaim(key)], cut)), pc);
    } else {
      assert Cut(q + [ReleaseClaim(key)], cut) == q + [ReleaseClaim(key)];
      ss', actions' := QuietPath(s, ss, actions, w, pc, map[], q);
      QuietClaims(w, q);
      ApplyAllSum(w, q, [ReleaseClaim(key)]);
      ss', actions' := ReleasesClaim(s, ss', actions', ApplyAll(w, q), key, pc);
    }
  }

  lemma {:induction false} ReleasesClaim(s: State, ss: seq<State>, actions: seq<Action>, w: World, key: Key,
                                         pc: Interleaving.ClaimPc)
    returns (ss': seq<State>, actions': seq<Action>)
    requires Leads(s, ss, actions, Seen(w, pc, map[])) && key in w.claims && w.claims[key].deleting
    requires pc.Release? && pc.key == key
    ensures Leads(s, ss', actions', Rest(ApplyAll(w, [ReleaseClaim(key)])))
  {
    ApplyOne(w, ReleaseClaim(key));
    var s' := Rest(Apply(w, ReleaseClaim(key)));
    assert Interleaving.NextClaim(Seen(w, pc, map[]), Interleaving.ClaimReleases, s');
    ss', actions' := Further(s, ss, actions, Seen(w, pc, map[]), Interleaving.ClaimReleases, s');
  }

  /** A plan of one effect is performed or not. */
  lemma {:induction false} OneOrNone(w: World, key: Key, cut: nat)
    requires |ClaimPlan(w, key)| <= 1
    ensures Cut(ClaimPlan(w, key), cut) == if cut == 0 then [] else ClaimPlan(w, key)
    ensures ApplyAll(w, Cut(ClaimPlan(w, key), cut)) == if cut == 0 then w else ReconcileOnce(w, key)
  {
    assert ApplyAll(w, []) == w;
  }

  lemma {:induction false} ClaimRefines(w: World, key: Key, cut: nat) returns (ss: seq<State>, actions: seq<Action>)
    requires Listing(w.order, w.servers)
    ensures Leads(Rest(w), ss, actions, Rest(ApplyAll(w, Cut(ClaimPlan(w, key), cut))))
  {
    ss, actions := [Rest(w)], [];
    assert ApplyAll(w, []) == w;
    if cut == 0 || ClaimPlan(w, key) == [] {
      assert Cut(ClaimPlan(w, key), cut) == [];
    } else {
      var c := w.claims[key];
      if c.deleting {
        ss, actions := FinaliseRefines(w, key, cut);
      } else if c.phase == NoPhase || !c.finalizer {
        InitialiseResult(w, key);
        OneOrNone(w, key, cut);
        ss, actions := InitialiseRefines(w, key);
      } else {
        ss, actions := ServedRefines(w, key, cut);
      }
    }
  }

  lemma {:induction false} ServedRefines(w: World, key: Key, cut: nat) returns (ss: seq<State>, actions: seq<Action>)
    requires Seeking(w, key) && ClaimPlan(w, key) != [] && cut > 0
    ensures Leads(Rest(w), ss, actions, Rest(ApplyAll(w, Cut(ClaimPlan(w, key), cut))))
  {
    var c := w.claims[key];
    var n := Candidate(w.servers, w.order, key, c).value;
    if w.servers[n].claimRef.None? || c.serverRef.None? {
      OneOrNone(w, key, cut);
      ss, actions := TakeRefines(w, key, n);
    } else {
      ss, actions := BindRefines(w, key, n, cut);
    }
  }

  // ----- reconciles of servers -----

  lemma {:induction false} ReadsServer(w: World, n: Name) returns (ss: seq<State>, actions: seq<Action>)
    requires n in w.servers
    ensures var s := w.servers[n];
            Leads(Rest(w), ss, actions, Seen(w, Interleaving.Idle, map[n := Interleaving.Read(s.claimRef, s.state)]))
  {
    var s := w.servers[n];
    var s' := Seen(w, Interleaving.Idle, map[n := Interleaving.Read(s.claimRef, s.state)]);
    assert Interleaving.NextServer(Rest(w), Interleaving.ServerReads(n), s');
    Onward(Rest(w), Interleaving.ServerReads(n), s');
    ss, actions := [Rest(w), s'], [Interleaving.ServerReads(n)];
  }

  /** A state that is patched before the handlers. */
  lemma {:induction false} CheckRefines(w: World, n: Name, state: ServerState)
    returns (ss: seq<State>, actions: seq<Action>)
    requires n in w.servers && Interleaving.CheckTarget(w.servers[n].claimRef, w.servers[n].state) == Some(state)
    ensures Leads(Rest(w), ss, actions, Rest(Apply(w, SetState(n, state))))
  {
    var s := w.servers[n];
    var s1 := Seen(w, Interleaving.Idle, map[n := Interleaving.Read(s.claimRef, s.state)]);
    ss, actions := ReadsServer(w, n);
    assert s1.serverPc - {n} == map[];
    assert Interleaving.NextServer(s1, Interleaving.ServerChecks(n), Rest(Apply(w, SetState(n, state))));
    ss, actions := Further(Rest(w), ss, actions, s1, Interleaving.ServerChecks(n), Rest(Apply(w, SetState(n, state))));
  }

  /** Past the checks. */
  lemma {:induction false} PastChecks(w: World, n: Name) returns (ss: seq<State>, actions: seq<Action>)
    requires n in w.servers && Interleaving.CheckTarget(w.servers[n].claimRef, w.servers[n].state).None?
    ensures Leads(Rest(w), ss, actions,
                  Seen(w, Interleaving.Idle, map[n := Interleaving.Handling(w.servers[n].state)]))
  {
    var s := w.servers[n];
    var s1 := Seen(w, Interleaving.Idle, map[n := Interleaving.Read(s.claimRef, s.state)]);
    var s2 := Seen(w, Interleaving.Idle, map[n := Interleaving.Handling(s.state)]);
    ss, actions := ReadsServer(w, n);
    assert s1.serverPc[n := Interleaving.Handling(s.state)] == s2.serverPc;
    assert Interleaving.NextServer(s1, Interleaving.ServerChecks(n), s2);
    ss, actions := Further(Rest(w), ss, actions, s1, Interleaving.ServerChecks(n), s2);
  }

  /** The handler's last write is the state, or it has none. */
  lemma {:induction false} HandledRefines(w: World, n: Name, q: seq<Effect>, l: seq<Effect>, cut: nat)
    returns (ss: seq<State>, actions: seq<Action>)
    requires n in w.servers && Interleaving.CheckTarget(w.servers[n].claimRef, w.servers[n].state).None?
    requires AllQuiet(q) && (l == [] || (exists target :: l == [SetState(n, target)]
                                           && Interleaving.HandlerTarget(w.servers[n].state, target)))
    ensures Leads(Rest(w), ss, actions, Rest(ApplyAll(w, Cut(q + l, cut))))
  {
    var state := w.servers[n].state;
    var pcs := map[n := Interleaving.Handling(state)];
    ss, actions := PastChecks(w, n);
    if l == [] || cut <= |q| {
      CutIsQuiet(q, l, cut);
      ss, actions := QuietPath(Rest(w), ss, actions, w, Interleaving.Idle, pcs, Cut(q + l, cut));
      ss, actions := ServerRests(Rest(w), ss, actions, ApplyAll(w, Cut(q + l, cut)), n, pcs);
    } else {
      var target :| l == [SetState(n, target)] && Interleaving.HandlerTarget(state, target);
      assert Cut(q + l, cut) == q + l;
      ss, actions := QuietPath(Rest(w), ss, actions, w, Interleaving.Idle, pcs, q);
      QuietServers(w, q, n);
      ApplyAllSum(w, q, l);
      ss, actions := Handles(Rest(w), ss, actions, ApplyAll(w, q), n, state, target);
    }
  }

  lemma {:induction false} QuietServers(w: World, es: seq<Effect>, n: Name)
    requires AllQuiet(es) && n in w.servers
    ensures n in ApplyAll(w, es).servers
  {
    if es != [] {
      QuietServers(w, es[..|es| - 1], n);
      ServersStay(ApplyAll(w, es[..|es| - 1]), es[|es| - 1], n);
    }
  }

  lemma {:induction false} ServersStay(w: World, e: Effect, n: Name)
    requires n in w.servers
    ensures n in Apply(w, e).servers
  {
  }

  lemma {:induction false} ServerRests(s: State, ss: seq<State>, actions: seq<Action>, w: World, n: Name,
                                       pcs: map<Name, Interleaving.ServerPc>)
    returns (ss': seq<State>, actions': seq<Action>)
    requires Leads(s, ss, actions, Seen(w, Interleaving.Idle, pcs)) && pcs.Keys == {n}
    ensures Leads(s, ss', actions', Rest(w))
  {
    assert pcs - {n} == map[];
    assert Interleaving.NextServer(Seen(w, Interleaving.Idle, pcs), Interleaving.ServerGivesUp(n), Rest(w));
    ss', actions' := Further(s, ss, actions, Seen(w, Interleaving.Idle, pcs), Interleaving.ServerGivesUp(n), Rest(w));
  }

  lemma {:induction false} Handles(s: State, ss: seq<State>, actions: seq<Action>, w: World, n: Name,
                                   state: ServerState, target: ServerState)
    returns (ss': seq<State>, actions': seq<Action>)
    requires Leads(s, ss, actions, Seen(w, Interleaving.Idle, map[n := Interleaving.Handling(state)]))
    requires n in w.servers && Interleaving.HandlerTarget(state, target)
    ensures Leads(s, ss', actions', Rest(ApplyAll(w, [SetState(n, target)])))
  {
    var pcs := map[n := Interleaving.Handling(state)];
    ApplyOne(w, SetState(n, target));
    var s' := Rest(Apply(w, SetState(n, target)));
    assert pcs - {n} == map[];
    assert Interleaving.NextServer(Seen(w, Interleaving.Idle, pcs), Interleaving.ServerHandles(n, target), s');
    ss', actions' := Further(s, ss, actions, Seen(w, Interleaving.Idle, pcs), Interleaving.ServerHandles(n, target),
                             s');
  }

  /** How a handler's plan divides into quiet effects and a last one on the state. */
  lemma {:induction false} HandlerShape(w: World, cfg: Settings, n: Name, s: Server, late: bool)
    returns (q: seq<Effect>, l: seq<Effect>)
    ensures HandlerPlan(w, cfg, n, s, late) == q + l && AllQuiet(q)
    ensures l == [] || (exists target :: l == [SetState(n, target)] && Interleaving.HandlerTarget(s.state, target))
  {
    match s.state {
      case Initial => q, l := InitialShape(w, cfg, n, s);
      case Discovery => q, l := DiscoveryShape(w, n, s, late);
      case Available =>
        AvailableIsQuiet(w, n, s);
        q, l := AvailablePlan(w, n, s), [];
      case Reserved => q, l := ReservedPlan(w, n, s), [];
      case Empty => q, l := [], [];
    }
  }

  lemma {:induction false} InitialShape(w: World, cfg: Settings, n: Name, s: Server)
    returns (q: seq<Effect>, l: seq<Effect>)
    requires s.state == Initial
    ensures InitialPlan(w, cfg, n, s) == q + l && AllQuiet(q)
    ensures l == [] || l == [SetState(n, Discovery)]
  {
    var op, key, config := PowerOp(s.power, s.powerState), InternalKey(cfg, n), InternalConfig(w, cfg, n);
    var a, c := Commands(n, op) + ConfigEffects(w, key, config), BootRefEffects(n, s, key);
    if || (s.power == PowerUnset && s.powerState == Off)
       || (s.powerState == On && cfg.enforceFirstBoot && s.power != PowerOff)
    {
      q, l := [SetPower(n, PowerOff)], [];
    } else if op.Some? && !s.hasBmc {
      q, l := [], [];
    } else {
      q, l := a + c, When(s.hasBmc, SetState(n, Discovery));
      assert AllQuiet(a) && AllQuiet(c);
      assert a + (c + l) == (a + c) + l;
    }
  }

  lemma {:induction false} DiscoveryShape(w: World, n: Name, s: Server, late: bool)
    returns (q: seq<Effect>, l: seq<Effect>)
    requires s.state == Discovery
    ensures DiscoveryPlan(w, n, s, late) == q + l && AllQuiet(q)
    ensures l == [] || l == [SetState(n, Initial)] || l == [SetState(n, Available)]
  {
    var a := [Observe(n)] + When(s.power != PowerOn, SetPower(n, PowerOn));
    var b := Commands(n, PowerOp(PowerOn, s.powerState));
    if !BootReady(w, s) {
      q, l := [], [];
    } else if !s.hasBmc {
      q, l := a, [];
    } else if late {
      q, l := a + b, [SetState(n, Initial)];
      assert a + (b + l) == (a + b) + l;
    } else if s.uuid in w.registry {
      var d := [SetNics(n, w.registry[s.uuid]), Unregister(s.uuid)];
      q, l := a + b + d, [SetState(n, Available)];
      assert AllQuiet(a + b) && AllQuiet(d);
      assert a + (b + (d + l)) == (a + b + d) + l;
      assert DiscoveryEnd(w, n, s, late) == d + l;
    } else {
      q, l := a + b, [];
    }
  }

  lemma {:induction false} AvailableIsQuiet(w: World, n: Name, s: Server)
    ensures AllQuiet(AvailablePlan(w, n, s))
  {
    assert AllQuiet(ShutDown(n, s));
  }

  lemma {:induction false} ServerRefines(w: World, cfg: Settings, n: Name, late: bool, cut: nat)
    returns (ss: seq<State>, actions: seq<Action>)
    ensures Leads(Rest(w), ss, actions, Rest(ApplyAll(w, Cut(ServerPlan(w, cfg, n, late), cut))))
  {
    ss, actions := [Rest(w)], [];
    assert ApplyAll(w, []) == w;
    if cut == 0 || ServerPlan(w, cfg, n, late) == [] {
      assert Cut(ServerPlan(w, cfg, n, late), cut) == [];
    } else {
      var s := w.servers[n];
      if s.state != Empty && !s.finalizer {
        ss, actions := QuietPath(Rest(w), ss, actions, w, Interleaving.Idle, map[], [AddServerFinalizer(n)]);
      } else if Interleaving.CheckTarget(s.claimRef, s.state).Some? {
        var state := Interleaving.CheckTarget(s.claimRef, s.state).value;
        ApplyOne(w, SetState(n, state));
        assert ServerPlan(w, cfg, n, late) == [SetState(n, state)];
        ss, actions := CheckRefines(w, n, state);
      } else {
        ss, actions := StateRefines(w, cfg, n, late, cut);
      }
    }
  }

  lemma {:induction false} StateRefines(w: World, cfg: Settings, n: Name, late: bool, cut: nat)
    returns (ss: seq<State>, actions: seq<Action>)
    requires n in w.servers && !w.servers[n].ignored && w.servers[n].state != Empty && w.servers[n].finalizer
    requires Interleaving.CheckTarget(w.servers[n].claimRef, w.servers[n].state).None?
    ensures Leads(Rest(w), ss, actions, Rest(ApplyAll(w, Cut(ServerPlan(w, cfg, n, late), cut))))
  {
    var s' := Refreshed(w, n);
    var e := When(s'.powerState != w.servers[n].powerState, SetPowerState(n, s'.powerState));
    var q, l := HandlerShape(w, cfg, n, s', late);
    assert AllQuiet(e + q);
    ss, actions := HandledRefines(w, n, e + q, l, cut);
    assert ServerPlan(w, cfg, n, late) == (e + q) + l;
  }

  // ----- the environment -----

  lemma {:induction false} UserRefines(w: World, a: Action, w': World) returns (ss: seq<State>, actions: seq<Action>)
    requires Interleaving.NextUser(Rest(w), a, Rest(w'))
    ensures Leads(Rest(w), ss, actions, Rest(w'))
  {
    Onward(Rest(w), a, Rest(w'));
    ss, actions := [Rest(w), Rest(w')], [a];
  }

  lemma {:induction false} OtherRefines(w: World, cfg: Settings, step: Step)
    returns (ss: seq<State>, actions: seq<Action>)
    requires Enabled(w, cfg, step) && !step.ReconcileClaim? && !step.ReconcileServer?
    ensures Leads(Rest(w), ss, actions, Rest(After(w, cfg, step)))
  {
    if step.CreateClaim? || step.DeleteClaim? || step.EditClaim? || step.CompleteClaim? {
      ss, actions := UsersRefine(w, cfg, step);
    } else {
      ss, actions := [Rest(w)], [];
      match step {
        case CreateServer(n, s, _) =>
          ss, actions := UserRefines(w, Interleaving.CreateServer(n, s), After(w, cfg, step));
        case Relabel(n, labels, ignored) =>
          if n in w.servers {
            var s := w.servers[n].(labels := labels, ignored := ignored);
            ss, actions := UserRefines(w, Interleaving.PatchOther(n, s), OnServer(w, n, s));
          }
        case _ =>
      }
    }
  }

  /** What users do to claims. */
  lemma {:induction false} UsersRefine(w: World, cfg: Settings, step: Step)
    returns (ss: seq<State>, actions: seq<Action>)
    requires Enabled(w, cfg, step) && (step.CreateClaim? || step.DeleteClaim? || step.EditClaim? || step.CompleteClaim?)
    ensures Leads(Rest(w), ss, actions, Rest(After(w, cfg, step)))
  {
    ss, actions := [Rest(w)], [];
    if step.CreateClaim? {
      ss, actions := UserRefines(w, Interleaving.CreateClaim(step.key, step.c), After(w, cfg, step));
    } else if step.key in w.claims {
      if step.DeleteClaim? {
        ss, actions := UserRefines(w, Interleaving.DeleteClaim(step.key), After(w, cfg, step));
      } else if step.EditClaim? {
        var c := w.claims[step.key].(power := step.power, image := step.image, ignition := step.ignition,
                                     ignored := step.ignored);
        ss, actions := UserRefines(w, Interleaving.EditClaim(step.key, c), OnClaim(w, step.key, c));
      } else {
        ss, actions := Completes(Rest(w), step.key, step.serverRef, step.selector);
      }
    }
  }

  /** A selector, then a server reference, each where there is none. */
  lemma {:induction false} Completes(s: State, key: Key, serverRef: Option<Name>, selector: Option<Selector>)
    returns (ss: seq<State>, actions: seq<Action>)
    requires key in s.claims
    ensures Leads(s, ss, actions, s.(claims := s.claims[key := Completed(s.claims[key], serverRef, selector)]))
  {
    var c := s.claims[key];
    var c1 := c.(selector := if c.selector.Some? then c.selector else selector);
    var s1 := s.(claims := s.claims[key := c1]);
    assert Interleaving.NextUser(s, Interleaving.EditClaim(key, c1), s1);
    Onward(s, Interleaving.EditClaim(key, c1), s1);
    ss, actions := [s, s1], [Interleaving.EditClaim(key, c1)];
    if c.serverRef.None? && serverRef.Some? {
      var s2 := s1.(claims := s1.claims[key := c1.(serverRef := serverRef)]);
      assert Interleaving.NextUser(s1, Interleaving.UserSetsServerRef(key, serverRef.value), s2);
      ss, actions := Further(s, ss, actions, s1, Interleaving.UserSetsServerRef(key, serverRef.value), s2);
    } else {
      assert Completed(c, serverRef, selector) == c1;
    }
  }

  // ----- runs -----

  /** One step of a run, as calls and patches from rest to rest. */
  lemma {:induction false} StepRefines(w: World, cfg: Settings, step: Step)
    returns (ss: seq<State>, actions: seq<Action>)
    requires Enabled(w, cfg, step) && Listing(w.order, w.servers)
    ensures Leads(Rest(w), ss, actions, Rest(After(w, cfg, step)))
  {
    match step {
      case ReconcileClaim(key, cut) => ss, actions := ClaimRefines(w, key, cut);
      case ReconcileServer(n, late, cut) => ss, actions := ServerRefines(w, cfg, n, late, cut);
      case _ => ss, actions := OtherRefines(w, cfg, step);
    }
  }

  lemma {:induction false} LeadsOn(s: State, ss: seq<State>, actions: seq<Action>, t: State, ts: seq<State>,
                                   more: seq<Action>, u: State)
    returns (ss': seq<State>, actions': seq<Action>)
    requires Leads(s, ss, actions, t) && Leads(t, ts, more, u)
    ensures Leads(s, ss', actions', u) && actions' == actions + more
  {
    ss', actions' := ss + ts[1..], actions + more;
    forall i | 0 <= i < |actions'| ensures Interleaving.Next(ss'[i], actions'[i], ss'[i + 1]) {
      if i >= |actions| {
        assert ss'[i] == ts[i - |actions|] && ss'[i + 1] == ts[i - |actions| + 1];
      }
    }
  }

  /** Every run of reconciles, failing or not, is a run of single calls. */
  lemma {:induction false} RunIsInterleaved(cfg: Settings, ws: seq<World>, steps: seq<Step>, i: nat)
    returns (ss: seq<State>, actions: seq<Action>)
    requires Run(cfg, ws, steps) && i < |ws|
    ensures Interleaving.Run(ss, actions) && ss[0] == Rest(ws[0]) && ss[|actions|] == Rest(ws[i])
  {
    if i == 0 {
      ss, actions := [Rest(ws[0])], [];
    } else {
      ss, actions := RunIsInterleaved(cfg, ws, steps, i - 1);
      Reservation.RunKeepsBasics(cfg, ws, steps, i - 1);
      var ts, more := StepRefines(ws[i - 1], cfg, steps[i - 1]);
      ss, actions := LeadsOn(Rest(ws[0]), ss, actions, Rest(ws[i - 1]), ts, more, Rest(ws[i]));
    }
  }
}
