/** The API objects of the operator: servers, claims and boot configurations, with the fields the controllers use. */
module Metal {
  import opened Options

  type Name = string
  type UID = nat
  type Labels = map<string, string>

  /** Namespace and name of a namespaced object. */
  datatype Key = Key(namespace: string, name: string)

  datatype Power = PowerUnset | PowerOn | PowerOff

  datatype PowerState = UnknownPower | On | Off | Paused | PoweringOn | PoweringOff

  datatype ServerState = Empty | Initial | Discovery | Available | Reserved

  datatype Phase = NoPhase | Unbound | Bound

  datatype BootState = NoBootState | Pending | Ready | Failed

  /** A reference to a claim: which claim, and which incarnation of it. */
  datatype ClaimRef = ClaimRef(key: Key, uid: UID)

  datatype Requirement =
    | In(tag: string, values: set<string>)
    | NotIn(tag: string, values: set<string>)
    | Exists(tag: string)
    | DoesNotExist(tag: string)

  type Selector = seq<Requirement>

  predicate Meets(labels: Labels, r: Requirement) {
    match r
    case In(l, vs) => l in labels && labels[l] in vs
    case NotIn(l, vs) => l in labels ==> labels[l] !in vs
    case Exists(l) => l in labels
    case DoesNotExist(l) => l !in labels
  }

  predicate Matches(labels: Labels, selector: Selector) {
    forall i :: 0 <= i < |selector| ==> Meets(labels, selector[i])
  }

  type Nics = seq<string>

  datatype Server = Server(
    labels: Labels, uuid: string, hasBmc: bool, finalizer: bool, ignored: bool,
    power: Power, claimRef: Option<ClaimRef>, bootRef: Option<Key>,
    state: ServerState, powerState: PowerState, nics: Nics)

  datatype Claim = Claim(
    uid: UID, power: Power, serverRef: Option<Name>, selector: Option<Selector>,
    image: string, ignition: Option<string>,
    phase: Phase, finalizer: bool, deleting: bool, ignored: bool)

  datatype Config = Config(
    serverRef: Name, image: string, ignition: Option<string>, owner: Option<UID>, internal: bool, state: BootState)

  /** The states in which a server may be claimed. */
  predicate Claimed(s: ServerState) {
    s == Available || s == Reserved
  }

  /** A server that a claim may take or keep: in a claimable state, and free or already its own. */
  predicate Claimable(s: Server, uid: UID) {
    && (s.claimRef.Some? ==> s.claimRef.value.uid == uid)
    && Claimed(s.state)
    && s.powerState == Off
  }

  predicate Own(s: Server, key: Key, uid: UID) {
    s.claimRef == Some(ClaimRef(key, uid))
  }

  predicate FirstBest(s: Server) {
    s.claimRef.None? && s.state == Available
  }

  /** The servers in some order. */
  predicate Listing(order: seq<Name>, servers: map<Name, Server>) {
    (forall n :: n in order ==> n in servers) && (forall n :: n in servers ==> n in order)
  }

  // ----- the three ways a claim finds its server -----

  /** By reference: the named server, when it exists and the claim may take it. */
  function ByReference(servers: map<Name, Server>, c: Claim, n: Name): (r: Option<Name>)
    ensures r.Some? ==> r.value in servers
  {
    if && n in servers && Claimable(servers[n], c.uid)
       && (c.selector.Some? ==> Matches(servers[n].labels, c.selector.value))
    then Some(n) else None
  }

  predicate SelectorPicks(servers: map<Name, Server>, c: Claim, n: Name) {
    n in servers && c.selector.Some? && Matches(servers[n].labels, c.selector.value) && Claimable(servers[n], c.uid)
  }

  /** By selector: the first server listed that matches and may be taken. */
  function BySelector(servers: map<Name, Server>, order: seq<Name>, c: Claim): (r: Option<Name>)
    ensures r.Some? ==> r.value in servers
  {
    if order == [] then None
    else if SelectorPicks(servers, c, order[0]) then Some(order[0])
    else BySelector(servers, order[1..], c)
  }

  function PreviouslyUsed(servers: map<Name, Server>, order: seq<Name>, key: Key, c: Claim): (r: Option<Name>)
    ensures r.Some? ==> r.value in servers
  {
    if order == [] then None
    else if order[0] in servers && Own(servers[order[0]], key, c.uid) then Some(order[0])
    else PreviouslyUsed(servers, order[1..], key, c)
  }

  function FirstFree(servers: map<Name, Server>, order: seq<Name>): (r: Option<Name>)
    ensures r.Some? ==> r.value in servers
  {
    if order == [] then None
    else if order[0] in servers && FirstBest(servers[order[0]]) then Some(order[0])
    else FirstFree(servers, order[1..])
  }

  /** First best: a server the claim holds already, else the first free one. */
  function Best(servers: map<Name, Server>, order: seq<Name>, key: Key, c: Claim): (r: Option<Name>)
    ensures r.Some? ==> r.value in servers
  {
    var used := PreviouslyUsed(servers, order, key, c);
    if used.Some? then used else FirstFree(servers, order)
  }

  function Candidate(servers: map<Name, Server>, order: seq<Name>, key: Key, c: Claim): (r: Option<Name>)
    ensures r.Some? ==> r.value in servers
  {
    if c.serverRef.Some? then ByReference(servers, c, c.serverRef.value)
    else if c.selector.Some? then BySelector(servers, order, c)
    else Best(servers, order, key, c)
  }

  lemma {:induction false} BySelectorPicks(servers: map<Name, Server>, order: seq<Name>, c: Claim)
    ensures BySelector(servers, order, c).Some? ==> SelectorPicks(servers, c, BySelector(servers, order, c).value)
    ensures BySelector(servers, order, c).None? ==> forall n :: n in order ==> !SelectorPicks(servers, c, n)
  {
    if order != [] && !SelectorPicks(servers, c, order[0]) {
      BySelectorPicks(servers, order[1..], c);
      assert forall n :: n in order ==> n == order[0] || n in order[1..];
    }
  }

  lemma {:induction false} PreviouslyUsedIsOwn(servers: map<Name, Server>, order: seq<Name>, key: Key, c: Claim)
    ensures var r := PreviouslyUsed(servers, order, key, c);
            && (r.Some? ==> r.value in servers && Own(servers[r.value], key, c.uid))
            && (r.None? ==> forall n :: n in order && n in servers ==> !Own(servers[n], key, c.uid))
  {
    if order != [] && !(order[0] in servers && Own(servers[order[0]], key, c.uid)) {
      PreviouslyUsedIsOwn(servers, order[1..], key, c);
      assert forall n :: n in order ==> n == order[0] || n in order[1..];
    }
  }

  lemma {:induction false} FirstFreeIsFree(servers: map<Name, Server>, order: seq<Name>)
    ensures var r := FirstFree(servers, order);
            && (r.Some? ==> r.value in servers && FirstBest(servers[r.value]))
            && (r.None? ==> forall n :: n in order && n in servers ==> !FirstBest(servers[n]))
  {
    if order != [] && !(order[0] in servers && FirstBest(servers[order[0]])) {
      FirstFreeIsFree(servers, order[1..]);
      assert forall n :: n in order ==> n == order[0] || n in order[1..];
    }
  }

  /**
   * Whatever the strategy, the server chosen is free or the claim's own, and a free one is in a claimable state. A
   * claim with a reference only ever gets the server it names; with a reference or a selector the server is Available
   * or Reserved, is switched off and matches the selector, if there is one. A claim with neither gets a server it
   * holds, or an Available one, and a free one only if it holds none.
   */
  lemma {:induction false} CandidateIsFreeOrOwn(servers: map<Name, Server>, order: seq<Name>, key: Key, c: Claim)
    requires Listing(order, servers) && Candidate(servers, order, key, c).Some?
    ensures var n := Candidate(servers, order, key, c).value;
            && n in servers
            && (servers[n].claimRef.Some? ==> servers[n].claimRef.value.uid == c.uid)
            && (servers[n].claimRef.None? ==> Claimed(servers[n].state))
            && (c.serverRef.Some? ==> c.serverRef.value == n)
            && (c.serverRef.Some? || c.selector.Some? ==>
                  servers[n].powerState == Off && (servers[n].state == Available || servers[n].state == Reserved))
            && (c.selector.Some? ==> Matches(servers[n].labels, c.selector.value))
            && (c.serverRef.None? && c.selector.None? ==>
                  || servers[n].claimRef == Some(ClaimRef(key, c.uid))
                  || (servers[n].claimRef == None && servers[n].state == Available))
            && (c.serverRef.None? && c.selector.None? && servers[n].claimRef.None? ==>
                  forall m :: m in servers ==> !Own(servers[m], key, c.uid))
  {
    BySelectorPicks(servers, order, c);
    PreviouslyUsedIsOwn(servers, order, key, c);
    FirstFreeIsFree(servers, order);
  }

  /**
   * A claim that gets no server could not have had one: the named server, or each server, is missing something that the
   * strategy asks for.
   */
  lemma {:induction false} NoCandidateNoServer(servers: map<Name, Server>, order: seq<Name>, key: Key, c: Claim,
                                               n: Name)
    requires Listing(order, servers) && Candidate(servers, order, key, c).None? && n in servers
    ensures c.serverRef == Some(n) || (c.serverRef.None? && c.selector.Some?) ==>
              || (servers[n].claimRef.Some? && servers[n].claimRef.value.uid != c.uid)
              || (servers[n].state != Available && servers[n].state != Reserved)
              || servers[n].powerState != Off
              || (c.selector.Some? && !Matches(servers[n].labels, c.selector.value))
    ensures c.serverRef.None? && c.selector.None? ==>
              && servers[n].claimRef != Some(ClaimRef(key, c.uid))
              && (servers[n].claimRef.Some? || servers[n].state != Available)
  {
    BySelectorPicks(servers, order, c);
    PreviouslyUsedIsOwn(servers, order, key, c);
    FirstFreeIsFree(servers, order);
  }

  /** What the four operators of a selector mean for a label that is there and for one that is not. */
  lemma {:induction false} SelectorOperators(labels: Labels, tag: string, values: set<string>)
    ensures Matches(labels, [])
    ensures tag in labels ==>
              && (Matches(labels, [In(tag, values)]) <==> labels[tag] in values)
              && (Matches(labels, [NotIn(tag, values)]) <==> labels[tag] !in values)
              && Matches(labels, [Exists(tag)]) && !Matches(labels, [DoesNotExist(tag)])
    ensures tag !in labels ==>
              && !Matches(labels, [In(tag, values)]) && Matches(labels, [NotIn(tag, values)])
              && !Matches(labels, [Exists(tag)]) && Matches(labels, [DoesNotExist(tag)])
  {
    forall r: Requirement ensures Matches(labels, [r]) <==> Meets(labels, r) {
      assert [r][0] == r;
    }
  }

  /** All requirements of a selector must be met. */
  lemma {:induction false} SelectorsConjoin(labels: Labels, a: Selector, b: Selector)
    ensures Matches(labels, a + b) <==> Matches(labels, a) && Matches(labels, b)
  {
    if Matches(labels, a + b) {
      assert forall i :: 0 <= i < |a| ==> a[i] == (a + b)[i];
      assert forall i :: 0 <= i < |b| ==> b[i] == (a + b)[|a| + i];
    }
  }
}
