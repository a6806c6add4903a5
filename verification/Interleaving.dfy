/**
 * The reservation protocol at the granularity of single API calls: one claim worker, one server worker per server,
 * users and other writers in between. A worker acts on the copies it has read; its writes are field-level patches
 * without optimistic locking.
 */
module Interleaving {
  import opened Options
  import opened Metal

  /** Where the claim worker is in Reconcile. `c` is the claim as read. */
  datatype ClaimPc =
    | Idle
    | Initialise(key: Key, c: Claim)          // phase or finalizer is missing
    | Choose(key: Key, c: Claim)              // about to read the servers
    | TakeServer(key: Key, c: Claim, n: Name) // read server n unclaimed, about to patch its claim reference
    | NameServer(key: Key, c: Claim, n: Name) // read server n as its own, about to patch the claim's server reference
    | Bind(key: Key, c: Claim, n: Name)       // about to apply the boot configuration, phase and power
    | Cleanup(key: Key, c: Claim)             // claim is being deleted, about to read its server
    | ClearRef(key: Key, c: Claim, n: Name)   // read server n claimed, about to clear its claim reference
    | Release(key: Key, c: Claim)             // about to remove the finalizer

  /** Where the worker of a server is: past reading it with this reference and state, or past the two claim checks. */
  datatype ServerPc = Read(ref: Option<ClaimRef>, state: ServerState) | Handling(state: ServerState)

  datatype State = State(servers: map<Name, Server>, claims: map<Key, Claim>, nextUid: UID, claimPc: ClaimPc,
                         serverPc: map<Name, ServerPc>)

  datatype Action =
    | CreateServer(n: Name, s: Server)
    | PatchOther(n: Name, s: Server)  // any patch of fields other than claim reference and state, by anyone
    | CreateClaim(key: Key, c: Claim)
    | DeleteClaim(key: Key)
    | UserSetsServerRef(key: Key, n: Name)
    | EditClaim(key: Key, c: Claim)   // whatever else a user may change; a selector can be set once
    | ClaimReads(key: Key)
    | ClaimInitialises
    | ClaimChooses(order: seq<Name>)
    | ClaimTakesServer
    | ClaimNamesServer
    | ClaimBinds
    | ClaimReadsForCleanup
    | ClaimClearsRef
    | ClaimReleases
    | ClaimGivesUp
    | ServerReads(n: Name)
    | ServerChecks(n: Name)
    | ServerHandles(n: Name, target: ServerState)
    | ServerGivesUp(n: Name)

  function Dispatch(key: Key, c: Claim): ClaimPc {
    if c.deleting then
      if !c.finalizer then Idle else if c.serverRef.None? then Release(key, c) else Cleanup(key, c)
    else if c.ignored then Idle
    else if c.phase == NoPhase || !c.finalizer then Initialise(key, c)
    else Choose(key, c)
  }

  /** The state the two checks before the state machine patch, if any. */
  function CheckTarget(ref: Option<ClaimRef>, state: ServerState): Option<ServerState> {
    if state == Empty then Some(Initial)
    else if ref.Some? && state != Reserved then Some(Reserved)
    else if ref.None? && state == Reserved then Some(Available)
    else None
  }

  /** The states the handler of `state` may patch. */
  predicate HandlerTarget(state: ServerState, target: ServerState) {
    || (state == Initial && target == Discovery)
    || (state == Discovery && (target == Initial || target == Available))
  }

  function PatchRef(s: State, n: Name, ref: Option<ClaimRef>): map<Name, Server>
    requires n in s.servers
  {
    s.servers[n := s.servers[n].(claimRef := ref)]
  }

  ghost predicate NextUser(s: State, a: Action, s': State) {
    match a
    case CreateServer(n, server) =>
      && n !in s.servers && server.state == Empty && server.claimRef.None?
      && s' == s.(servers := s.servers[n := server])
    case PatchOther(n, server) =>
      && n in s.servers && server.claimRef == s.servers[n].claimRef && server.state == s.servers[n].state
      && s' == s.(servers := s.servers[n := server])
    case CreateClaim(key, c) =>
      && key !in s.claims && c.uid == s.nextUid && c.phase == NoPhase && !c.finalizer && !c.deleting
      && s' == s.(claims := s.claims[key := c], nextUid := s.nextUid + 1)
    case DeleteClaim(key) =>
      && key in s.claims
      && s' == s.(claims := if s.claims[key].finalizer then s.claims[key := s.claims[key].(deleting := true)]
                            else s.claims - {key})
    case UserSetsServerRef(key, n) =>
      && key in s.claims && s.claims[key].serverRef.None?
      && s' == s.(claims := s.claims[key := s.claims[key].(serverRef := Some(n))])
    case EditClaim(key, c) =>
      && key in s.claims
      && var now := s.claims[key];
      && c.uid == now.uid && c.serverRef == now.serverRef && c.phase == now.phase && c.finalizer == now.finalizer
      && c.deleting == now.deleting && (now.selector.Some? ==> c.selector == now.selector)
      && s' == s.(claims := s.claims[key := c])
    case _ => false
  }

  ghost predicate NextClaim(s: State, a: Action, s': State) {
    match a
    case ClaimReads(key) =>
      && s.claimPc == Idle && key in s.claims
      && s' == s.(claimPc := Dispatch(key, s.claims[key]))
    case ClaimInitialises =>
      && s.claimPc.Initialise?
      && var key, c := s.claimPc.key, s.claimPc.c;
      && key in s.claims
      && var now := s.claims[key];
      && s' == s.(claimPc := Idle, claims := s.claims[key :=
             if c.phase == NoPhase then now.(phase := Unbound)
             else if now.deleting then now else now.(finalizer := true)])
    case ClaimChooses(order) =>
      && s.claimPc.Choose? && Listing(order, s.servers)
      && var key, c := s.claimPc.key, s.claimPc.c;
      && var found := Candidate(s.servers, order, key, c);
      && s' == s.(claimPc := if found.None? then Idle
                             else if s.servers[found.value].claimRef.None? then TakeServer(key, c, found.value)
                             else NameServer(key, c, found.value))
    case ClaimTakesServer =>
      && s.claimPc.TakeServer? && s.claimPc.n in s.servers
      && s' == s.(claimPc := Idle,
                  servers := PatchRef(s, s.claimPc.n, Some(ClaimRef(s.claimPc.key, s.claimPc.c.uid))))
    case ClaimNamesServer =>
      && s.claimPc.NameServer?
      && var key, c, n := s.claimPc.key, s.claimPc.c, s.claimPc.n;
      if c.serverRef.Some? then
        s' == s.(claimPc := if c.serverRef == Some(n) then Bind(key, c, n) else Idle)
      else
        // the API server refuses to change a reference that has been set meanwhile
        && key in s.claims && s.claims[key].serverRef.None?
        && s' == s.(claimPc := Idle, claims := s.claims[key := s.claims[key].(serverRef := Some(n))])
    case ClaimBinds =>
      && s.claimPc.Bind? && s.claimPc.key in s.claims
      && s' == s.(claimPc := Idle, claims := s.claims[s.claimPc.key := s.claims[s.claimPc.key].(phase := Bound)])
    case ClaimReadsForCleanup =>
      && s.claimPc.Cleanup? && s.claimPc.c.serverRef.Some?
      && var key, c, n := s.claimPc.key, s.claimPc.c, s.claimPc.c.serverRef.value;
      && s' == s.(claimPc := if n in s.servers && s.servers[n].claimRef.Some? then ClearRef(key, c, n)
                             else Release(key, c))
    case ClaimClearsRef =>
      && s.claimPc.ClearRef? && s.claimPc.n in s.servers
      && s' == s.(claimPc := Release(s.claimPc.key, s.claimPc.c), servers := PatchRef(s, s.claimPc.n, None))
    case ClaimReleases =>
      && s.claimPc.Release? && s.claimPc.key in s.claims
      && var key := s.claimPc.key;
      && s' == s.(claimPc := Idle, claims := if s.claims[key].deleting then s.claims - {key}
                                             else s.claims[key := s.claims[key].(finalizer := false)])
    case ClaimGivesUp =>
      s' == s.(claimPc := Idle)
    case _ => false
  }

  ghost predicate NextServer(s: State, a: Action, s': State) {
    match a
    case ServerReads(n) =>
      && n in s.servers && n !in s.serverPc
      && s' == s.(serverPc := s.serverPc[n := Read(s.servers[n].claimRef, s.servers[n].state)])
    case ServerChecks(n) =>
      && n in s.servers && n in s.serverPc && s.serverPc[n].Read?
      && var target := CheckTarget(s.serverPc[n].ref, s.serverPc[n].state);
      if target.Some? then
        s' == s.(serverPc := s.serverPc - {n}, servers := s.servers[n := s.servers[n].(state := target.value)])
      else
        s' == s.(serverPc := s.serverPc[n := Handling(s.serverPc[n].state)])
    case ServerHandles(n, target) =>
      && n in s.servers && n in s.serverPc && s.serverPc[n].Handling? && HandlerTarget(s.serverPc[n].state, target)
      && s' == s.(serverPc := s.serverPc - {n}, servers := s.servers[n := s.servers[n].(state := target)])
    case ServerGivesUp(n) =>
      s' == s.(serverPc := s.serverPc - {n})
    case _ => false
  }

  ghost predicate Next(s: State, a: Action, s': State) {
    NextUser(s, a, s') || NextClaim(s, a, s') || NextServer(s, a, s')
  }

  ghost predicate Init(s: State) {
    s.servers == map[] && s.claims == map[] && s.claimPc == Idle && s.serverPc == map[]
  }

  ghost predicate Run(states: seq<State>, actions: seq<Action>) {
    && |states| == |actions| + 1 && Init(states[0])
    && forall i :: 0 <= i < |actions| ==> Next(states[i], actions[i], states[i + 1])
  }

  // ----- exclusivity and lifecycle -----

  /** The edges of the server state machine. */
  predicate Edge(a: ServerState, b: ServerState) {
    || a == b
    || (a == Empty && b == Initial)
    || (a == Initial && b == Discovery)
    || (a == Discovery && (b == Initial || b == Available))
    || (a == Available && b == Reserved)
    || (a == Reserved && b == Available)
  }

  /** A claim reference is set on a free server or cleared; it never passes from one claim to another. */
  predicate Exclusive(a: Option<ClaimRef>, b: Option<ClaimRef>) {
    a == b || a.None? || b.None?
  }

  /** What the server workers know is current; what the claim worker knows of its server's claim reference is too. */
  ghost predicate InSync(s: State) {
    && (forall n :: n in s.serverPc ==>
          && n in s.servers && s.serverPc[n].state == s.servers[n].state
          && (s.serverPc[n].Read? && s.serverPc[n].ref.Some? ==> Claimed(s.serverPc[n].state))
          && (s.serverPc[n].Handling? ==> s.serverPc[n].state != Empty))
    && (s.claimPc.TakeServer? ==>
          && s.claimPc.n in s.servers && s.servers[s.claimPc.n].claimRef.None? && Claimed(s.servers[s.claimPc.n].state))
    && (s.claimPc.NameServer? || s.claimPc.Bind? ==>
          && s.claimPc.n in s.servers && s.servers[s.claimPc.n].claimRef.Some?
          && s.servers[s.claimPc.n].claimRef.value.uid == s.claimPc.c.uid)
  }

  /** A claimed server is Available or Reserved. */
  ghost predicate ClaimedIsClaimable(s: State) {
    forall n :: n in s.servers && s.servers[n].claimRef.Some? ==> Claimed(s.servers[n].state)
  }

  ghost predicate Safe(s: State) {
    InSync(s) && ClaimedIsClaimable(s)
  }

  ghost predicate StepOk(s: State, s': State) {
    forall n :: n in s.servers ==>
                  && n in s'.servers
                  && Exclusive(s.servers[n].claimRef, s'.servers[n].claimRef)
                  && Edge(s.servers[n].state, s'.servers[n].state)
  }

  lemma {:induction false} UserStep(s: State, a: Action, s': State)
    requires Safe(s) && NextUser(s, a, s')
    ensures Safe(s') && StepOk(s, s')
  {
  }

  lemma {:induction false} ClaimStep(s: State, a: Action, s': State)
    requires Safe(s) && NextClaim(s, a, s')
    ensures Safe(s') && StepOk(s, s')
  {
    if a.ClaimChooses? {
      ChooseStep(s, a.order, s');
    } else if a.ClaimTakesServer? {
      RefPatched(s, s.claimPc.n, Some(ClaimRef(s.claimPc.key, s.claimPc.c.uid)), s');
    } else if a.ClaimClearsRef? {
      RefPatched(s, s.claimPc.n, None, s');
    }
  }

  lemma {:induction false} ChooseStep(s: State, order: seq<Name>, s': State)
    requires Safe(s) && NextClaim(s, ClaimChooses(order), s')
    ensures Safe(s') && StepOk(s, s')
  {
    if Candidate(s.servers, order, s.claimPc.key, s.claimPc.c).Some? {
      CandidateIsFreeOrOwn(s.servers, order, s.claimPc.key, s.claimPc.c);
    }
  }

  /** A claim reference is written by a worker that then has nothing more to do with the server. */
  lemma {:induction false} RefPatched(s: State, n: Name, ref: Option<ClaimRef>, s': State)
    requires Safe(s) && n in s.servers && (s.servers[n].claimRef.None? || ref.None?)
    requires ref.Some? ==> Claimed(s.servers[n].state)
    requires s' == s.(claimPc := s'.claimPc, servers := PatchRef(s, n, ref))
    requires s'.claimPc.Idle? || s'.claimPc.Release?
    ensures Safe(s') && StepOk(s, s')
  {
  }

  lemma {:induction false} ServerStep(s: State, a: Action, s': State)
    requires Safe(s) && NextServer(s, a, s')
    ensures Safe(s') && StepOk(s, s')
  {
    match a {
      case ServerReads(n) =>
      case ServerChecks(n) =>
        var target := CheckTarget(s.serverPc[n].ref, s.serverPc[n].state);
        if target.Some? {
          StatePatched(s, n, target.value, s');
        }
      case ServerHandles(n, target) =>
        StatePatched(s, n, target, s');
      case ServerGivesUp(n) =>
    }
  }

  lemma {:induction false} StatePatched(s: State, n: Name, target: ServerState, s': State)
    requires Safe(s) && n in s.servers && Edge(s.servers[n].state, target)
    requires s' == s.(serverPc := s.serverPc - {n}, servers := s.servers[n := s.servers[n].(state := target)])
    ensures Safe(s') && StepOk(s, s')
  {
    assert s.servers[n].claimRef.Some? ==> Claimed(s.servers[n].state);
  }

  lemma {:induction false} RunIsSafe(states: seq<State>, actions: seq<Action>, i: nat)
    requires Run(states, actions) && i < |states|
    ensures Safe(states[i])
  {
    if i > 0 {
      RunIsSafe(states, actions, i - 1);
      NextIsSafe(states[i - 1], actions[i - 1], states[i]);
    }
  }

  lemma {:induction false} NextIsSafe(s: State, a: Action, s': State)
    requires Safe(s) && Next(s, a, s')
    ensures Safe(s') && StepOk(s, s')
  {
    if NextUser(s, a, s') {
      UserStep(s, a, s');
    } else if NextClaim(s, a, s') {
      ClaimStep(s, a, s');
    } else {
      ServerStep(s, a, s');
    }
  }

  /**
   * In every interleaving a server's claim reference goes only from nil to a claim and from a claim to nil, and a
   * claimed server is Available or Reserved.
   */
  lemma {:induction false} ClaimsAreExclusive(states: seq<State>, actions: seq<Action>, i: nat, n: Name)
    requires Run(states, actions) && i < |actions| && n in states[i].servers
    ensures n in states[i + 1].servers
    ensures Exclusive(states[i].servers[n].claimRef, states[i + 1].servers[n].claimRef)
    ensures states[i].servers[n].claimRef.Some? ==> Claimed(states[i].servers[n].state)
  {
    RunIsSafe(states, actions, i);
    NextIsSafe(states[i], actions[i], states[i + 1]);
  }

  // ----- the state history of a server -----

  /** The successive states of a server, without repetitions and without the empty state it is created in. */
  ghost function Log(states: seq<State>, n: Name): seq<ServerState> {
    if states == [] then [] else
      var log, last := Log(states[..|states| - 1], n), states[|states| - 1];
      if n in last.servers && last.servers[n].state != Empty &&
         (log == [] || log[|log| - 1] != last.servers[n].state)
      then log + [last.servers[n].state] else log
  }

  /** (Discovery Initial) repeated. */
  function Retries(m: nat): seq<ServerState> {
    if m == 0 then [] else Retries(m - 1) + [Discovery, Initial]
  }

  /** (Reserved Available) repeated. */
  function Reservations(k: nat): seq<ServerState> {
    if k == 0 then [] else Reservations(k - 1) + [Reserved, Available]
  }

  /** Initial (Discovery Initial)^m Discovery Available (Reserved Available)^k */
  function Life(m: nat, k: nat): seq<ServerState> {
    [Initial] + Retries(m) + [Discovery, Available] + Reservations(k)
  }

  ghost predicate PartOfLife(log: seq<ServerState>) {
    exists m: nat, k: nat :: log <= Life(m, k)
  }

  /** A log that can be continued: which part of a life it is. */
  ghost predicate Shape(log: seq<ServerState>, m: nat, k: nat) {
    || (log == [] && m == 0 && k == 0)
    || (log == [Initial] + Retries(m) && k == 0)
    || (log == [Initial] + Retries(m) + [Discovery] && k == 0)
    || log == Life(m, k)
    || log == Life(m, k) + [Reserved]
  }

  lemma {:induction false} LastOfShape(log: seq<ServerState>, m: nat, k: nat)
    requires Shape(log, m, k)
    ensures log <= Life(m, k + 1)
    ensures log != [] ==>
              var last := log[|log| - 1];
              && last != Empty
              && (last == Initial ==> log == [Initial] + Retries(m) && k == 0)
              && (last == Discovery ==> log == [Initial] + Retries(m) + [Discovery] && k == 0)
              && (last == Available ==> log == Life(m, k))
              && (last == Reserved ==> log == Life(m, k) + [Reserved])
  {
    var tail := Reservations(k);
    assert Life(m, k + 1) == Life(m, k) + [Reserved, Available];
    assert k > 0 ==> tail[|tail| - 1] == Available;
    assert m > 0 ==> Retries(m)[|Retries(m)| - 1] == Initial;
  }

  /** One more step along an edge. */
  lemma {:induction false} ShapeGrows(log: seq<ServerState>, m: nat, k: nat, b: ServerState) returns (m': nat, k': nat)
    requires Shape(log, m, k) && b != Empty
    requires log == [] ==> b == Initial
    requires log != [] ==> Edge(log[|log| - 1], b) && log[|log| - 1] != b
    ensures Shape(log + [b], m', k')
  {
    m', k' := m, k;
    LifeSums(m, k);
    if log != [] {
      LastOfShape(log, m, k);
      match log[|log| - 1] {
        case Discovery => m' := if b == Initial then m + 1 else m;
        case Reserved => k' := k + 1;
        case _ =>
      }
    }
  }

  lemma {:induction false} LifeSums(m: nat, k: nat)
    ensures [Initial] + Retries(0) == [] + [Initial]
    ensures [Initial] + Retries(m) + [Discovery] + [Initial] == [Initial] + Retries(m + 1)
    ensures [Initial] + Retries(m) + [Discovery] + [Available] == Life(m, 0)
    ensures Life(m, k) + [Reserved] + [Available] == Life(m, k + 1)
  {
  }

  ghost predicate LogFollows(states: seq<State>, n: Name)
    requires states != []
  {
    var log, last := Log(states, n), states[|states| - 1];
    && (exists m: nat, k: nat :: Shape(log, m, k))
    && (n !in last.servers || last.servers[n].state == Empty ==> log == [])
    && (n in last.servers && last.servers[n].state != Empty ==> log != [] && log[|log| - 1] == last.servers[n].state)
  }

  /** The new state is one the log does not end with. */
  predicate Prolongs(log: seq<ServerState>, last: State, n: Name) {
    n in last.servers && last.servers[n].state != Empty && (log == [] || log[|log| - 1] != last.servers[n].state)
  }

  lemma {:induction false} LogStep(front: seq<State>, last: State, n: Name)
    ensures Log(front + [last], n) ==
            Log(front, n) + if Prolongs(Log(front, n), last, n) then [last.servers[n].state] else []
  {
    assert (front + [last])[..|front|] == front;
  }

  lemma {:induction false} LogGrows(front: seq<State>, last: State, n: Name)
    requires front != [] && LogFollows(front, n) && StepOk(front[|front| - 1], last)
    requires n in last.servers && n !in front[|front| - 1].servers ==> last.servers[n].state == Empty
    ensures LogFollows(front + [last], n)
  {
    var log := Log(front, n);
    LogStep(front, last, n);
    var m: nat, k: nat :| Shape(log, m, k);
    if Prolongs(log, last, n) {
      var m', k' := ShapeGrows(log, m, k, last.servers[n].state);
    } else {
      assert log + [] == log;
    }
  }

  lemma {:induction false} LogAlong(states: seq<State>, actions: seq<Action>, i: nat, n: Name)
    requires Run(states, actions) && i < |states|
    ensures LogFollows(states[..i + 1], n)
  {
    if i == 0 {
      assert states[..1][..0] == [];
      assert Log(states[..1], n) == [];
      assert Shape([], 0, 0);
    } else {
      LogAlong(states, actions, i - 1, n);
      RunIsSafe(states, actions, i - 1);
      LogNext(states[..i], actions[i - 1], states[i], n);
      PrefixGrows(states, i);
    }
  }

  lemma {:induction false} PrefixGrows<T>(s: seq<T>, i: nat)
    requires i < |s|
    ensures s[..i + 1] == s[..i] + [s[i]]
  {
  }

  lemma {:induction false} LogNext(front: seq<State>, a: Action, last: State, n: Name)
    requires front != [] && LogFollows(front, n) && Safe(front[|front| - 1]) && Next(front[|front| - 1], a, last)
    ensures LogFollows(front + [last], n)
  {
    NextIsSafe(front[|front| - 1], a, last);
    NewServersAreEmpty(front[|front| - 1], a, last);
    LogGrows(front, last, n);
  }

  lemma {:induction false} NewServersAreEmpty(s: State, a: Action, s': State)
    requires Next(s, a, s')
    ensures forall n :: n in s'.servers && n !in s.servers ==> s'.servers[n].state == Empty
  {
    if NextUser(s, a, s') {
      match a {
        case CreateServer(n, server) =>
        case PatchOther(n, server) =>
        case _ => assert s'.servers == s.servers;
      }
    } else if NextServer(s, a, s') {
      OnlyServerStateChanges(s, a, s');
    } else {
      OnlyRefsChange(s, a, s');
    }
  }

  lemma {:induction false} OnlyRefsChange(s: State, a: Action, s': State)
    requires NextClaim(s, a, s')
    ensures s'.servers.Keys == s.servers.Keys
  {
  }

  /**
   * In every run the state history of a server is a prefix of
   * Initial (Discovery Initial)* Discovery Available (Reserved Available)*.
   */
  lemma {:induction false} LifecycleIsRegular(states: seq<State>, actions: seq<Action>, n: Name)
    requires Run(states, actions)
    ensures PartOfLife(Log(states, n))
  {
    LogAlong(states, actions, |actions|, n);
    assert states[..|actions| + 1] == states;
    var m: nat, k: nat :| Shape(Log(states, n), m, k);
    LastOfShape(Log(states, n), m, k);
  }

  // ----- one server per claim -----

  predicate Holds(s: State, uid: UID, n: Name) {
    n in s.servers && s.servers[n].claimRef.Some? && s.servers[n].claimRef.value.uid == uid
  }

  /**
   * A claim without a selector holds at most one server, and if it names a server, it holds no other.
   */
  ghost predicate OneServerEach(s: State) {
    forall key :: key in s.claims && s.claims[key].selector.None? ==> OneServer(s, s.claims[key])
  }

  ghost predicate OneServer(s: State, c: Claim) {
    && (forall n, m :: Holds(s, c.uid, n) && Holds(s, c.uid, m) ==> n == m)
    && (c.serverRef.Some? ==> forall n :: Holds(s, c.uid, n) ==> n == c.serverRef.value)
  }

  /** UIDs are given once: to one claim, and to references to it. */
  ghost predicate UidsOk(s: State) {
    && (forall k :: k in s.claims ==> s.claims[k].uid < s.nextUid && (s.claims[k].deleting ==> s.claims[k].finalizer))
    && (forall k, l :: k in s.claims && l in s.claims && s.claims[k].uid == s.claims[l].uid ==> k == l)
    && (forall n :: n in s.servers && s.servers[n].claimRef.Some? ==>
          var ref := s.servers[n].claimRef.value;
          && ref.uid < s.nextUid
          && (forall k :: k in s.claims && s.claims[k].uid == ref.uid ==> k == ref.key))
  }

  /**
   * The claim the worker has read still exists, and so does the reference it has read. A reference set meanwhile is to
   * the server that the worker is about to take, or to the one the claim holds.
   */
  ghost predicate ClaimCurrent(s: State) {
    !s.claimPc.Idle? && !s.claimPc.Initialise? ==>
      && s.claimPc.key in s.claims
      && var now, c := s.claims[s.claimPc.key], s.claimPc.c;
      && now.uid == c.uid && now.finalizer && (c.selector.Some? ==> now.selector.Some?)
      && (c.serverRef.Some? ==> now.serverRef == c.serverRef)
      && (now.selector.None? ==> NamedInTime(s, now, c))
      && (s.claimPc.NameServer? || s.claimPc.Bind? ==> Holds(s, c.uid, s.claimPc.n))
  }

  ghost predicate NamedInTime(s: State, now: Claim, c: Claim) {
    && (s.claimPc.Choose? && c.serverRef.None? && now.serverRef.Some? ==> Holds(s, c.uid, now.serverRef.value))
    && (s.claimPc.TakeServer? && now.serverRef.Some? ==> now.serverRef.value == s.claimPc.n)
    && (s.claimPc.TakeServer? && c.serverRef.None? ==> forall m :: !Holds(s, c.uid, m))
  }

  ghost predicate Tidy(s: State) {
    Safe(s) && UidsOk(s) && ClaimCurrent(s) && OneServerEach(s)
  }

  /**
   * It does no harm to name server `n` for this claim: the claim holds no other server, and the worker is not about to
   * take another one or to choose one.
   */
  ghost predicate Harmless(s: State, key: Key, n: Name)
    requires key in s.claims
  {
    var uid, pc := s.claims[key].uid, s.claimPc;
    && (forall m :: Holds(s, uid, m) ==> m == n)
    && (pc.TakeServer? && pc.key == key ==> pc.n == n)
    && (pc.Choose? && pc.key == key ==> Holds(s, uid, n))
  }

  /** Users name servers for claims without a selector only where that does no harm. */
  ghost predicate Considerate(s: State, a: Action) {
    a.UserSetsServerRef? && a.key in s.claims && s.claims[a.key].selector.None? ==> Harmless(s, a.key, a.n)
  }

  lemma {:induction false} TidyUser(s: State, a: Action, s': State)
    requires Tidy(s) && NextUser(s, a, s') && Considerate(s, a)
    ensures Tidy(s')
  {
    UserStep(s, a, s');
    match a {
      case CreateServer(n, server) => TidyFrame(s, s');
      case PatchOther(n, server) => TidyFrame(s, s');
      case CreateClaim(key, c) => TidyCreate(s, key, c, s');
      case DeleteClaim(key) => TidyDelete(s, key, s');
      case UserSetsServerRef(key, n) => TidyNaming(s, key, n, s');
      case EditClaim(key, c) => TidyEdit(s, key, c, s');
    }
  }

  lemma {:induction false} TidyDelete(s: State, key: Key, s': State)
    requires Tidy(s) && NextUser(s, DeleteClaim(key), s') && Safe(s')
    ensures Tidy(s')
  {
    assert forall u, m :: Holds(s', u, m) <==> Holds(s, u, m);
    assert ClaimsFollow(s, s');
    assert ClaimCurrent(s');
    TidyClaims(s, s');
  }

  lemma {:induction false} TidyEdit(s: State, key: Key, c: Claim, s': State)
    requires Tidy(s) && NextUser(s, EditClaim(key, c), s') && Safe(s')
    ensures Tidy(s')
  {
    assert forall u, m :: Holds(s', u, m) <==> Holds(s, u, m);
    assert ClaimsFollow(s, s');
    assert ClaimCurrent(s');
    TidyClaims(s, s');
  }

  lemma {:induction false} TidyNaming(s: State, key: Key, n: Name, s': State)
    requires Tidy(s) && NextUser(s, UserSetsServerRef(key, n), s') && Safe(s')
    requires Considerate(s, UserSetsServerRef(key, n))
    ensures Tidy(s')
  {
    assert forall u, m :: Holds(s', u, m) <==> Holds(s, u, m);
    assert ClaimsFollow(s, s');
    assert ClaimCurrent(s');
    TidyClaims(s, s');
  }

  lemma {:induction false} TidyCreate(s: State, key: Key, c: Claim, s': State)
    requires Tidy(s) && NextUser(s, CreateClaim(key, c), s') && Safe(s')
    ensures Tidy(s')
  {
    assert forall u, m :: Holds(s', u, m) <==> Holds(s, u, m);
    assert UidsOk(s');
    assert ClaimCurrent(s');
    forall k | k in s'.claims && s'.claims[k].selector.None? ensures OneServer(s', s'.claims[k]) {
      if k == key {
        assert forall m :: !Holds(s, c.uid, m);
      } else {
        assert OneServer(s, s.claims[k]);
      }
    }
  }

  /**
   * Claims may go, and may change apart from their UID, as long as a server reference that is set is the one
   * held.
   */
  ghost predicate ClaimsFollow(s: State, s': State) {
    && s'.servers == s.servers && s'.nextUid == s.nextUid
    && forall k :: k in s'.claims ==>
                     && k in s.claims && s'.claims[k].uid == s.claims[k].uid
                     && (s.claims[k].selector.Some? ==> s'.claims[k].selector.Some?)
                     && (s'.claims[k].deleting ==> s'.claims[k].finalizer)
                     && (s'.claims[k].serverRef == s.claims[k].serverRef || s'.claims[k].selector.Some? ||
                         (s'.claims[k].serverRef.Some? &&
                          forall m :: Holds(s, s.claims[k].uid, m) ==> m == s'.claims[k].serverRef.value))
  }

  lemma {:induction false} TidyClaims(s: State, s': State)
    requires Tidy(s) && ClaimsFollow(s, s') && Safe(s') && ClaimCurrent(s')
    ensures Tidy(s')
  {
    assert forall u, m :: Holds(s', u, m) <==> Holds(s, u, m);
    assert UidsOk(s');
    forall k | k in s'.claims && s'.claims[k].selector.None? ensures OneServer(s', s'.claims[k]) {
      assert OneServer(s, s.claims[k]);
    }
  }

  lemma {:induction false} TidyServer(s: State, a: Action, s': State)
    requires Tidy(s) && NextServer(s, a, s')
    ensures Tidy(s')
  {
    ServerStep(s, a, s');
    OnlyServerStateChanges(s, a, s');
    TidyFrame(s, s');
  }

  lemma {:induction false} OnlyServerStateChanges(s: State, a: Action, s': State)
    requires NextServer(s, a, s')
    ensures s'.claims == s.claims && s'.nextUid == s.nextUid && s'.claimPc == s.claimPc
    ensures s'.servers.Keys == s.servers.Keys
    ensures forall n :: n in s.servers ==> s'.servers[n].claimRef == s.servers[n].claimRef
  {
  }

  lemma {:induction false} TidyFrame(s: State, s': State)
    requires UidsOk(s) && ClaimCurrent(s) && OneServerEach(s)
    requires s'.claims == s.claims && s'.nextUid == s.nextUid && s'.claimPc == s.claimPc
    requires s.servers.Keys <= s'.servers.Keys
    requires forall n :: n in s.servers ==> s'.servers[n].claimRef == s.servers[n].claimRef
    requires forall n :: n in s'.servers && n !in s.servers ==> s'.servers[n].claimRef.None?
    ensures UidsOk(s') && ClaimCurrent(s') && OneServerEach(s')
  {
    assert forall u, m :: Holds(s', u, m) <==> Holds(s, u, m);
  }

  lemma {:induction false} TidyClaim(s: State, a: Action, s': State)
    requires Tidy(s) && NextClaim(s, a, s')
    ensures Tidy(s')
  {
    ClaimStep(s, a, s');
    if a.ClaimTakesServer? {
      TidyTake(s, s');
    } else if a.ClaimClearsRef? {
      TidyClear(s, s');
    } else if a.ClaimChooses? {
      TidyChoose(s, a, s');
    } else if a.ClaimNamesServer? {
      TidyName(s, s');
    } else if a.ClaimReads? || a.ClaimReadsForCleanup? || a.ClaimGivesUp? {
      TidyRead(s, a, s');
    } else {
      TidyClaimPatch(s, a, s');
    }
  }

  lemma {:induction false} TidyChoose(s: State, a: Action, s': State)
    requires Tidy(s) && NextClaim(s, a, s') && Safe(s') && a.ClaimChooses?
    ensures Tidy(s')
  {
    assert s'.servers == s.servers && s'.claims == s.claims;
    assert forall u, m :: Holds(s', u, m) <==> Holds(s, u, m);
    assert UidsOk(s') && OneServerEach(s');
    var key, c := s.claimPc.key, s.claimPc.c;
    if Candidate(s.servers, a.order, key, c).Some? {
      CandidateIsFreeOrOwn(s.servers, a.order, key, c);
      assert forall m :: Holds(s, c.uid, m) ==> Own(s.servers[m], key, c.uid);
    }
  }

  lemma {:induction false} TidyName(s: State, s': State)
    requires Tidy(s) && NextClaim(s, ClaimNamesServer, s') && Safe(s')
    ensures Tidy(s')
  {
    assert forall u, m :: Holds(s', u, m) <==> Holds(s, u, m);
    assert Holds(s, s.claimPc.c.uid, s.claimPc.n);
    assert s.claims[s.claimPc.key].selector.None? ==> OneServer(s, s.claims[s.claimPc.key]);
    assert ClaimsFollow(s, s');
    TidyClaims(s, s');
  }

  lemma {:induction false} TidyClaimPatch(s: State, a: Action, s': State)
    requires Tidy(s) && NextClaim(s, a, s') && Safe(s') && (a.ClaimInitialises? || a.ClaimBinds? || a.ClaimReleases?)
    ensures Tidy(s')
  {
    assert s'.claimPc.Idle?;
    assert ClaimsFollow(s, s');
    TidyClaims(s, s');
  }

  /** The worker only reads, or gives up. */
  lemma {:induction false} TidyRead(s: State, a: Action, s': State)
    requires Tidy(s) && NextClaim(s, a, s') && Safe(s') && (a.ClaimReads? || a.ClaimReadsForCleanup? || a.ClaimGivesUp?)
    ensures Tidy(s')
  {
    assert s' == s.(claimPc := s'.claimPc);
    assert ClaimCurrent(s');
    TidyClaims(s, s');
  }

  lemma {:induction false} TidyTake(s: State, s': State)
    requires Tidy(s) && NextClaim(s, ClaimTakesServer, s') && Safe(s')
    ensures Tidy(s')
  {
    var n, c := s.claimPc.n, s.claimPc.c;
    assert forall u, m :: Holds(s', u, m) <==> (Holds(s, u, m) || (u == c.uid && m == n));
    assert UidsOk(s') && ClaimCurrent(s');
    forall k | k in s'.claims && s'.claims[k].selector.None? ensures OneServer(s', s'.claims[k]) {
      assert OneServer(s, s.claims[k]);
    }
  }

  lemma {:induction false} TidyClear(s: State, s': State)
    requires Tidy(s) && NextClaim(s, ClaimClearsRef, s') && Safe(s')
    ensures Tidy(s')
  {
    var n := s.claimPc.n;
    assert forall u, m :: Holds(s', u, m) <==> (Holds(s, u, m) && m != n);
    assert UidsOk(s') && ClaimCurrent(s');
    forall k | k in s'.claims && s'.claims[k].selector.None? ensures OneServer(s', s'.claims[k]) {
      assert OneServer(s, s.claims[k]);
    }
  }

  lemma {:induction false} RunIsTidy(states: seq<State>, actions: seq<Action>, i: nat)
    requires Run(states, actions) && i < |states|
    requires forall j :: 0 <= j < i ==> Considerate(states[j], actions[j])
    ensures Tidy(states[i])
  {
    if i > 0 {
      RunIsTidy(states, actions, i - 1);
      var s, a, s' := states[i - 1], actions[i - 1], states[i];
      assert Next(s, a, s');
      if NextUser(s, a, s') {
        TidyUser(s, a, s');
      } else if NextClaim(s, a, s') {
        TidyClaim(s, a, s');
      } else {
        TidyServer(s, a, s');
      }
    }
  }

  /**
   * At every point of every run, also between taking a server and naming it, a claim without a selector has one
   * server.
   */
  lemma {:induction false} ClaimsHoldOneServer(states: seq<State>, actions: seq<Action>, i: nat, key: Key)
    requires Run(states, actions) && i < |states|
    requires forall j :: 0 <= j < |actions| ==> Considerate(states[j], actions[j])
    requires key in states[i].claims && states[i].claims[key].selector.None?
    ensures OneServer(states[i], states[i].claims[key])
  {
    RunIsTidy(states, actions, i);
  }

  /**
   * The restriction on users is needed: whenever a claim holds one server that it does not name yet, naming another
   * free one makes the worker take that one too.
   */
  lemma {:induction false} NamingAnotherServerTakesTwo(s: State, key: Key, held: Name, other: Name, order: seq<Name>)
    returns (run: seq<State>, actions: seq<Action>)
    requires key in s.claims && s.claimPc == Idle && Listing(order, s.servers)
    requires var c := s.claims[key];
             && Dispatch(key, c).Choose? && c.selector.None? && c.serverRef.None?
             && Holds(s, c.uid, held)
             && other in s.servers && s.servers[other].claimRef.None? && Claimable(s.servers[other], c.uid)
    ensures |run| == 5 && |actions| == 4 && run[0] == s
    ensures forall i :: 0 <= i < 4 ==> Next(run[i], actions[i], run[i + 1])
    ensures held != other && Holds(run[4], s.claims[key].uid, held) && Holds(run[4], s.claims[key].uid, other)
  {
    var c := s.claims[key].(serverRef := Some(other));
    var s1 := s.(claims := s.claims[key := c]);
    var s2 := s1.(claimPc := Choose(key, c));
    var s3 := s2.(claimPc := TakeServer(key, c, other));
    var s4 := s3.(claimPc := Idle, servers := PatchRef(s3, other, Some(ClaimRef(key, c.uid))));
    run := [s, s1, s2, s3, s4];
    actions := [UserSetsServerRef(key, other), ClaimReads(key), ClaimChooses(order), ClaimTakesServer];
    assert NextUser(s, actions[0], s1);
    assert NextClaim(s1, actions[1], s2);
    assert NextClaim(s2, actions[2], s3);
    assert NextClaim(s3, actions[3], s4);
  }
}
