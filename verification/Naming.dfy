/**
 * When a user may name a server for a claim. One server per claim is kept exactly by the namings that Interleaving
 * calls harmless; here is what every other one leads to, and how a user can tell.
 */
module Naming {
  import opened Options
  import opened Metal
  import opened Interleaving

  // ----- paths -----

  /** Steps from some state on. */
  ghost predicate Path(states: seq<State>, actions: seq<Action>) {
    && |states| == |actions| + 1
    && forall i :: 0 <= i < |actions| ==> Next(states[i], actions[i], states[i + 1])
  }

  ghost predicate Leads(s: State, states: seq<State>, actions: seq<Action>, t: State) {
    Path(states, actions) && states[0] == s && states[|actions|] == t
  }

  lemma {:induction false} Onward(s: State, a: Action, t: State)
    requires Next(s, a, t)
    ensures Leads(s, [s, t], [a], t)
  {
  }

  lemma {:induction false} Further(s: State, ss: seq<State>, actions: seq<Action>, t: State, a: Action, u: State)
    returns (ss': seq<State>, actions': seq<Action>)
    requires Leads(s, ss, actions, t) && Next(t, a, u)
    ensures Leads(s, ss', actions', u) && actions <= actions'
  {
    ss', actions' := ss + [u], actions + [a];
  }

  // ----- a server comes up -----

  function InState(s: State, n: Name, state: ServerState): State
    requires n in s.servers
  {
    s.(servers := s.servers[n := s.servers[n].(state := state)])
  }

  /** An unclaimed server that no worker is at goes to the next state of its handler. */
  lemma {:induction false} Advances(s: State, ss: seq<State>, actions: seq<Action>, t: State, n: Name,
                                    target: ServerState)
    returns (ss': seq<State>, actions': seq<Action>)
    requires Leads(s, ss, actions, t)
    requires n in t.servers && n !in t.serverPc && t.servers[n].claimRef.None?
    requires HandlerTarget(t.servers[n].state, target)
    ensures Leads(s, ss', actions', InState(t, n, target)) && actions <= actions'
  {
    var t1, t2 := ReadsAndChecks(t, n, target);
    ss', actions' := Further(s, ss, actions, t, ServerReads(n), t1);
    ss', actions' := Further(s, ss', actions', t1, ServerChecks(n), t2);
    ss', actions' := Further(s, ss', actions', t2, ServerHandles(n, target), InState(t, n, target));
  }

  lemma {:induction false} ReadsAndChecks(t: State, n: Name, target: ServerState) returns (t1: State, t2: State)
    requires n in t.servers && n !in t.serverPc && t.servers[n].claimRef.None?
    requires HandlerTarget(t.servers[n].state, target)
    ensures Next(t, ServerReads(n), t1) && Next(t1, ServerChecks(n), t2)
    ensures Next(t2, ServerHandles(n, target), InState(t, n, target))
  {
    var state := t.servers[n].state;
    t1 := t.(serverPc := t.serverPc[n := Read(None, state)]);
    t2 := t.(serverPc := t.serverPc[n := Handling(state)]);
    assert t1.serverPc[n := Handling(state)] == t2.serverPc && t2.serverPc - {n} == t.serverPc;
    assert NextServer(t, ServerReads(n), t1);
    assert NextServer(t1, ServerChecks(n), t2);
    assert NextServer(t2, ServerHandles(n, target), InState(t, n, target));
  }

  function WithServer(s: State, n: Name, server: Server, state: ServerState): State {
    s.(servers := s.servers[n := server.(state := state)])
  }

  /** A server is created and becomes Available. */
  lemma {:induction false} ComesUp(s: State, ss: seq<State>, actions: seq<Action>, t: State, n: Name, server: Server)
    returns (ss': seq<State>, actions': seq<Action>)
    requires Leads(s, ss, actions, t) && n !in t.servers && n !in t.serverPc
    requires server.state == Empty && server.claimRef.None?
    ensures Leads(s, ss', actions', WithServer(t, n, server, Available)) && actions <= actions'
  {
    ss', actions' := Starts(s, ss, actions, t, n, server);
    var t1 := WithServer(t, n, server, Initial);
    ss', actions' := Advances(s, ss', actions', t1, n, Discovery);
    assert InState(t1, n, Discovery) == WithServer(t, n, server, Discovery);
    ss', actions' := Advances(s, ss', actions', WithServer(t, n, server, Discovery), n, Available);
    assert InState(WithServer(t, n, server, Discovery), n, Available) == WithServer(t, n, server, Available);
  }

  lemma {:induction false} Starts(s: State, ss: seq<State>, actions: seq<Action>, t: State, n: Name, server: Server)
    returns (ss': seq<State>, actions': seq<Action>)
    requires Leads(s, ss, actions, t) && n !in t.servers && n !in t.serverPc
    requires server.state == Empty && server.claimRef.None?
    ensures Leads(s, ss', actions', WithServer(t, n, server, Initial)) && actions <= actions'
  {
    var t1 := t.(servers := t.servers[n := server]);
    var t2 := t1.(serverPc := t1.serverPc[n := Read(None, Empty)]);
    var t3 := WithServer(t, n, server, Initial);
    assert t2.serverPc - {n} == t.serverPc;
    assert t2.servers[n := t2.servers[n].(state := Initial)] == t3.servers;
    assert NextUser(t, CreateServer(n, server), t1);
    ss', actions' := Further(s, ss, actions, t, CreateServer(n, server), t1);
    assert NextServer(t1, ServerReads(n), t2);
    ss', actions' := Further(s, ss', actions', t1, ServerReads(n), t2);
    assert NextServer(t2, ServerChecks(n), t3);
    ss', actions' := Further(s, ss', actions', t2, ServerChecks(n), t3);
  }

  // ----- naming that does harm -----

  function Named(s: State, key: Key, n: Name): State
    requires key in s.claims
  {
    s.(claims := s.claims[key := s.claims[key].(serverRef := Some(n))])
  }

  /** The steps lead to a state in which this claim has more than the server it names. */
  ghost predicate LeadsToTwo(s: State, states: seq<State>, actions: seq<Action>, key: Key) {
    && Path(states, actions) && states[0] == s
    && var last := states[|actions|];
    && key in last.claims && last.claims[key].selector.None? && !OneServer(last, last.claims[key])
  }

  /** The worker is about to take another server: it takes it. */
  lemma {:induction false} TakenAfterNaming(s: State, ss: seq<State>, actions: seq<Action>, t: State, key: Key, n: Name)
    returns (ss': seq<State>, actions': seq<Action>)
    requires Leads(s, ss, actions, t) && key in t.claims && t.claims[key].selector.None?
    requires t.claims[key].serverRef == Some(n)
    requires t.claimPc.TakeServer? && t.claimPc.key == key && t.claimPc.n != n && t.claimPc.n in t.servers
    requires t.claimPc.c.uid == t.claims[key].uid
    ensures LeadsToTwo(s, ss', actions', key) && actions <= actions'
  {
    var m := t.claimPc.n;
    var u := t.(claimPc := Idle, servers := PatchRef(t, m, Some(ClaimRef(key, t.claimPc.c.uid))));
    assert NextClaim(t, ClaimTakesServer, u);
    ss', actions' := Further(s, ss, actions, t, ClaimTakesServer, u);
    assert Holds(u, u.claims[key].uid, m);
  }

  /** The worker is about to choose, and the claim holds nothing: a server that has come up is taken. */
  lemma {:induction false} ChosenAfterNaming(s: State, ss: seq<State>, actions: seq<Action>, t: State, key: Key,
                                             n: Name, other: Name, server: Server, order: seq<Name>)
    returns (ss': seq<State>, actions': seq<Action>)
    requires Leads(s, ss, actions, t) && key in t.claims && t.claims[key].selector.None?
    requires t.claims[key].serverRef == Some(n) && forall m :: !Holds(t, t.claims[key].uid, m)
    requires t.claimPc.Choose? && t.claimPc.key == key && t.claimPc.c.uid == t.claims[key].uid
    requires t.claimPc.c.serverRef.None? && t.claimPc.c.selector.None?
    requires other !in t.servers && other !in t.serverPc && other != n && Listing(order, t.servers)
    requires server.state == Empty && server.claimRef.None?
    ensures LeadsToTwo(s, ss', actions', key) && actions <= actions'
  {
    ss', actions' := ComesUp(s, ss, actions, t, other, server);
    var t1 := WithServer(t, other, server, Available);
    var c, order1 := t.claimPc.c, [other] + order;
    ChoosesFresh(t, t1, key, c, other, server, order);
    var t2 := t1.(claimPc := TakeServer(key, c, other));
    assert NextClaim(t1, ClaimChooses(order1), t2);
    ss', actions' := Further(s, ss', actions', t1, ClaimChooses(order1), t2);
    ss', actions' := TakenAfterNaming(s, ss', actions', t2, key, n);
  }

  lemma {:induction false} ChoosesFresh(t: State, t1: State, key: Key, c: Claim, other: Name, server: Server,
                                        order: seq<Name>)
    requires Listing(order, t.servers) && t1 == WithServer(t, other, server, Available)
    requires c.serverRef.None? && c.selector.None? && server.claimRef.None? && forall m :: !Holds(t, c.uid, m)
    ensures Listing([other] + order, t1.servers)
    ensures Candidate(t1.servers, [other] + order, key, c) == Some(other)
  {
    PreviouslyUsedIsOwn(t1.servers, [other] + order, key, c);
    forall m | m in t1.servers ensures !Own(t1.servers[m], key, c.uid) {
      assert !Holds(t, c.uid, m);
    }
    assert FirstFree(t1.servers, [other] + order) == Some(other);
  }

  /**
   * Wherever naming is not harmless, it leads to a claim with more than the server it names: at once, when the worker
   * takes the server it had found, or when it chooses one that comes up meanwhile.
   */
  lemma {:induction false} HarmIsReal(s: State, key: Key, n: Name, other: Name, server: Server, order: seq<Name>)
    returns (ss: seq<State>, actions: seq<Action>)
    requires Tidy(s) && key in s.claims && s.claims[key].selector.None? && s.claims[key].serverRef.None?
    requires !Harmless(s, key, n)
    requires other !in s.servers && other != n && server.state == Empty && server.claimRef.None?
    requires Listing(order, s.servers)
    ensures LeadsToTwo(s, ss, actions, key) && [UserSetsServerRef(key, n)] <= actions
  {
    var t := Named(s, key, n);
    assert NextUser(s, UserSetsServerRef(key, n), t);
    Onward(s, UserSetsServerRef(key, n), t);
    ss, actions := [s, t], [UserSetsServerRef(key, n)];
    var uid := s.claims[key].uid;
    assert forall m :: Holds(t, uid, m) <==> Holds(s, uid, m);
    if m :| Holds(s, uid, m) && m != n {
      assert Holds(t, t.claims[key].uid, m);
    } else if s.claimPc.TakeServer? && s.claimPc.key == key && s.claimPc.n != n {
      ss, actions := TakenAfterNaming(s, ss, actions, t, key, n);
    } else {
      assert other !in t.serverPc;
      ss, actions := ChosenAfterNaming(s, ss, actions, t, key, n, other, server, order);
    }
  }

  // ----- what a user can check -----

  /**
   * What can be read off the objects: no other server is held, and the claim has no finalizer yet or holds this one.
   */
  ghost predicate MayName(s: State, key: Key, n: Name)
    requires key in s.claims
  {
    var c := s.claims[key];
    && (forall m :: Holds(s, c.uid, m) ==> m == n)
    && (c.finalizer ==> Holds(s, c.uid, n))
  }

  /** Wherever the worker may be, naming is harmless if and only if the objects say so. */
  lemma {:induction false} MayNameIsExact(s: State, key: Key, n: Name)
    requires Tidy(s) && key in s.claims && s.claims[key].selector.None? && s.claims[key].serverRef.None?
    ensures MayName(s, key, n) <==>
            forall pc :: Tidy(s.(claimPc := pc)) ==> Harmless(s.(claimPc := pc), key, n)
  {
    var uid := s.claims[key].uid;
    forall pc, m ensures Holds(s.(claimPc := pc), uid, m) <==> Holds(s, uid, m) {
    }
    if MayName(s, key, n) {
      forall pc | Tidy(s.(claimPc := pc)) ensures Harmless(s.(claimPc := pc), key, n) {
        MayNameIsHarmless(s.(claimPc := pc), key, n);
      }
    } else if s.claims[key].finalizer && !Holds(s, uid, n) {
      AboutToChoose(s, key);
      var at := s.(claimPc := Choose(key, s.claims[key]));
      assert !Harmless(at, key, n);
    } else {
      assert s == s.(claimPc := s.claimPc);
      assert !Harmless(s, key, n);
    }
  }

  lemma {:induction false} MayNameIsHarmless(s: State, key: Key, n: Name)
    requires Tidy(s) && key in s.claims && s.claims[key].selector.None? && s.claims[key].serverRef.None?
    requires MayName(s, key, n)
    ensures Harmless(s, key, n)
  {
  }

  /** The worker may always be about to choose for a claim that has its finalizer. */
  lemma {:induction false} AboutToChoose(s: State, key: Key)
    requires Tidy(s) && key in s.claims && s.claims[key].finalizer
    ensures Tidy(s.(claimPc := Choose(key, s.claims[key])))
  {
    var t := s.(claimPc := Choose(key, s.claims[key]));
    assert forall u, m :: Holds(t, u, m) <==> Holds(s, u, m);
    forall k | k in t.claims && t.claims[k].selector.None? ensures OneServer(t, t.claims[k]) {
      assert OneServer(s, s.claims[k]);
    }
  }

  /** Users go by what they can check. */
  ghost predicate Careful(s: State, a: Action) {
    a.UserSetsServerRef? && a.key in s.claims && s.claims[a.key].selector.None? ==> MayName(s, a.key, a.n)
  }

  lemma {:induction false} CarefulIsConsiderate(states: seq<State>, actions: seq<Action>, i: nat)
    requires Run(states, actions) && i <= |actions|
    requires forall j :: 0 <= j < |actions| ==> Careful(states[j], actions[j])
    ensures forall j :: 0 <= j < i ==> Considerate(states[j], actions[j])
  {
    if i > 0 {
      CarefulIsConsiderate(states, actions, i - 1);
      RunIsTidy(states, actions, i - 1);
      CarefulStep(states[i - 1], actions[i - 1], states[i]);
    }
  }

  lemma {:induction false} CarefulStep(s: State, a: Action, s': State)
    requires Tidy(s) && Next(s, a, s') && Careful(s, a)
    ensures Considerate(s, a)
  {
    if a.UserSetsServerRef? && s.claims[a.key].selector.None? {
      MayNameIsHarmless(s, a.key, a.n);
    }
  }

  /** With such users, every claim without a selector has one server at every point of every run. */
  lemma {:induction false} CarefulUsersGetOneServer(states: seq<State>, actions: seq<Action>, i: nat, key: Key)
    requires Run(states, actions) && i < |states|
    requires forall j :: 0 <= j < |actions| ==> Careful(states[j], actions[j])
    requires key in states[i].claims && states[i].claims[key].selector.None?
    ensures OneServer(states[i], states[i].claims[key])
  {
    CarefulIsConsiderate(states, actions, |actions|);
    ClaimsHoldOneServer(states, actions, i, key);
  }

  // ----- two servers, from the very beginning -----

  function WithClaim(s: State, key: Key, c: Claim): State {
    s.(claims := s.claims[key := c])
  }

  /** The worker brings the claim from `t.claims[key]` to what its first write makes of it. */
  lemma {:induction false} Initialises(s: State, ss: seq<State>, actions: seq<Action>, t: State, key: Key, c': Claim)
    returns (ss': seq<State>, actions': seq<Action>)
    requires Leads(s, ss, actions, t) && key in t.claims && t.claimPc == Idle
    requires var c := t.claims[key];
             && !c.deleting && !c.ignored && (c.phase == NoPhase || !c.finalizer)
             && c' == if c.phase == NoPhase then c.(phase := Unbound) else c.(finalizer := true)
    ensures Leads(s, ss', actions', WithClaim(t, key, c')) && actions <= actions'
  {
    var t1 := t.(claimPc := Initialise(key, t.claims[key]));
    assert NextClaim(t, ClaimReads(key), t1);
    ss', actions' := Further(s, ss, actions, t, ClaimReads(key), t1);
    assert NextClaim(t1, ClaimInitialises, WithClaim(t, key, c'));
    ss', actions' := Further(s, ss', actions', t1, ClaimInitialises, WithClaim(t, key, c'));
  }

  /** The worker takes the first server listed. */
  lemma {:induction false} TakesFirst(s: State, ss: seq<State>, actions: seq<Action>, t: State, key: Key, a: Name,
                                      order: seq<Name>)
    returns (ss': seq<State>, actions': seq<Action>, u: State)
    requires Leads(s, ss, actions, t) && key in t.claims && t.claimPc == Idle
    requires var c := t.claims[key]; Dispatch(key, c) == Choose(key, c) && c.selector.None? && c.serverRef.None?
    requires Listing(order, t.servers) && order != [] && order[0] == a && a in t.servers && FirstBest(t.servers[a])
    requires forall m :: m in t.servers ==> t.servers[m].claimRef.None?
    ensures u == t.(servers := PatchRef(t, a, Some(ClaimRef(key, t.claims[key].uid))))
    ensures Leads(s, ss', actions', u) && actions <= actions'
  {
    var c := t.claims[key];
    var t1 := t.(claimPc := Choose(key, c));
    var t2 := t.(claimPc := TakeServer(key, c, a));
    u := t.(servers := PatchRef(t, a, Some(ClaimRef(key, c.uid))));
    PreviouslyUsedIsOwn(t.servers, order, key, c);
    assert Candidate(t.servers, order, key, c) == Some(a);
    assert NextClaim(t, ClaimReads(key), t1);
    ss', actions' := Further(s, ss, actions, t, ClaimReads(key), t1);
    assert NextClaim(t1, ClaimChooses(order), t2);
    ss', actions' := Further(s, ss', actions', t1, ClaimChooses(order), t2);
    assert NextClaim(t2, ClaimTakesServer, u);
    ss', actions' := Further(s, ss', actions', t2, ClaimTakesServer, u);
  }

  lemma {:induction false} BothComeUp(s: State, a: Name, b: Name, server: Server)
    returns (ss: seq<State>, actions: seq<Action>, t: State)
    requires Init(s) && a != b && server.state == Empty && server.claimRef.None?
    ensures Leads(s, ss, actions, t)
    ensures t == s.(servers := map[a := server.(state := Available), b := server.(state := Available)])
  {
    ss, actions := [s], [];
    ss, actions := ComesUp(s, ss, actions, s, a, server);
    var t1 := WithServer(s, a, server, Available);
    ss, actions := ComesUp(s, ss, actions, t1, b, server);
    t := WithServer(t1, b, server, Available);
  }

  /** Two servers come up; a claim is created, gets its finalizer and takes the first of them. */
  lemma {:induction false} HoldsFirst(s: State, key: Key, c: Claim, a: Name, b: Name, server: Server)
    returns (ss: seq<State>, actions: seq<Action>, t: State)
    requires Init(s) && a != b && server.state == Empty && server.claimRef.None?
    requires c.uid == s.nextUid && c.phase == NoPhase && !c.finalizer && !c.deleting && !c.ignored
    requires c.selector.None? && c.serverRef.None?
    ensures Leads(s, ss, actions, t) && t.claimPc == Idle
    ensures t.claims == map[key := c.(phase := Unbound, finalizer := true)]
    ensures t.servers == map[a := server.(state := Available, claimRef := Some(ClaimRef(key, c.uid))),
                             b := server.(state := Available)]
  {
    var t2;
    ss, actions, t2 := BothComeUp(s, a, b, server);
    var t3 := t2.(claims := t2.claims[key := c], nextUid := t2.nextUid + 1);
    assert NextUser(t2, CreateClaim(key, c), t3);
    ss, actions := Further(s, ss, actions, t2, CreateClaim(key, c), t3);
    ss, actions := Initialises(s, ss, actions, t3, key, c.(phase := Unbound));
    var t4 := WithClaim(t3, key, c.(phase := Unbound));
    ss, actions := Initialises(s, ss, actions, t4, key, c.(phase := Unbound, finalizer := true));
    var t5 := WithClaim(t4, key, c.(phase := Unbound, finalizer := true));
    ss, actions, t := TakesFirst(s, ss, actions, t5, key, a, [a, b]);
  }

  /** A run from the initial state in which a claim ends up with two servers, because its user named the second one. */
  lemma {:induction false} TwoServersInARun(s: State, key: Key, c: Claim, a: Name, b: Name, server: Server)
    returns (ss: seq<State>, actions: seq<Action>)
    requires Init(s) && a != b && server.state == Empty && server.claimRef.None? && server.powerState == Off
    requires c.uid == s.nextUid && c.phase == NoPhase && !c.finalizer && !c.deleting && !c.ignored
    requires c.selector.None? && c.serverRef.None?
    ensures Run(ss, actions) && ss[0] == s
    ensures Holds(ss[|actions|], c.uid, a) && Holds(ss[|actions|], c.uid, b)
  {
    var t;
    ss, actions, t := HoldsFirst(s, key, c, a, b, server);
    var more, steps := NamingAnotherServerTakesTwo(t, key, a, b, [a, b]);
    ss, actions := Further(s, ss, actions, t, steps[0], more[1]);
    ss, actions := Further(s, ss, actions, more[1], steps[1], more[2]);
    ss, actions := Further(s, ss, actions, more[2], steps[2], more[3]);
    ss, actions := Further(s, ss, actions, more[3], steps[3], more[4]);
  }
}
