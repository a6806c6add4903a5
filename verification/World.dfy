/**
 * The shared state of the controllers and what one reconcile does to it. A reconcile is the list of its writes, its
 * plan, computed from the state it starts in. Every error ends a reconcile, so a reconcile that fails is one that
 * performs only a prefix of its plan. Reads that fail and BMC calls without effect on the model need no entry of
 * their own.
 */
module World {
  import opened Options
  import opened Metal

  datatype Settings = Settings(managerNamespace: string, enforceFirstBoot: bool, probeImage: string)

  /**
   * `order` is the order in which servers are listed. `registry` is the store of the probe registry, `bmc` the actual
   * power state of each machine. `registrations`, `observed` and `createdOn` are history: every registration ever
   * made, the servers whose boot configuration a reconcile has seen Ready, and those created with PowerOn as desired
   * power.
   */
  datatype World = World(
    order: seq<Name>, servers: map<Name, Server>, claims: map<Key, Claim>, configs: map<Key, Config>,
    registry: map<string, Nics>, bmc: map<Name, PowerState>, nextUid: UID,
    registrations: set<(string, Nics)>, observed: set<Name>, createdOn: set<Name>)

  datatype Effect =
    // on claims
    | SetPhase(key: Key, phase: Phase)
    | AddClaimFinalizer(key: Key)
    | SetServerRef(key: Key, n: Name)
    | ReleaseClaim(key: Key)
    // on boot configurations
    | PutConfig(key: Key, config: Config)
    | DeleteConfig(key: Key)
    // on servers
    | SetClaimRef(n: Name, ref: Option<ClaimRef>)
    | SetBootRef(n: Name, boot: Option<Key>)
    | SetPower(n: Name, power: Power)
    | UnsetBootRefAndPowerOff(n: Name)
    | AddServerFinalizer(n: Name)
    | SetState(n: Name, state: ServerState)
    | SetPowerState(n: Name, powerState: PowerState)
    | SetNics(n: Name, nics: Nics)
    // elsewhere
    | Unregister(uuid: string)
    | Observe(n: Name)
    | Command(n: Name, on: bool)

  function OnServer(w: World, n: Name, s: Server): World {
    w.(servers := w.servers[n := s])
  }

  function OnClaim(w: World, key: Key, c: Claim): World {
    w.(claims := w.claims[key := c])
  }

  function Apply(w: World, e: Effect): World {
    match e
    case SetPhase(key, phase) => if key in w.claims then OnClaim(w, key, w.claims[key].(phase := phase)) else w
    case AddClaimFinalizer(key) => if key in w.claims then OnClaim(w, key, w.claims[key].(finalizer := true)) else w
    case SetServerRef(key, n) => if key in w.claims then OnClaim(w, key, w.claims[key].(serverRef := Some(n))) else w
    case ReleaseClaim(key) => w.(claims := w.claims - {key})
    case PutConfig(key, config) => w.(configs := w.configs[key := config])
    case DeleteConfig(key) => w.(configs := w.configs - {key})
    case SetClaimRef(n, ref) => if n in w.servers then OnServer(w, n, w.servers[n].(claimRef := ref)) else w
    case SetBootRef(n, boot) => if n in w.servers then OnServer(w, n, w.servers[n].(bootRef := boot)) else w
    case SetPower(n, power) => if n in w.servers then OnServer(w, n, w.servers[n].(power := power)) else w
    case UnsetBootRefAndPowerOff(n) =>
      if n in w.servers then OnServer(w, n, w.servers[n].(bootRef := None, power := PowerOff)) else w
    case AddServerFinalizer(n) => if n in w.servers then OnServer(w, n, w.servers[n].(finalizer := true)) else w
    case SetState(n, state) => if n in w.servers then OnServer(w, n, w.servers[n].(state := state)) else w
    case SetPowerState(n, ps) => if n in w.servers then OnServer(w, n, w.servers[n].(powerState := ps)) else w
    case SetNics(n, nics) => if n in w.servers then OnServer(w, n, w.servers[n].(nics := nics)) else w
    case Unregister(uuid) => w.(registry := w.registry - {uuid})
    case Observe(n) => w.(observed := w.observed + {n})
    case Command(n, on) => w.(bmc := w.bmc[n := if on then On else Off])
  }

  function ApplyAll(w: World, es: seq<Effect>): World {
    if es == [] then w else Apply(ApplyAll(w, es[..|es| - 1]), es[|es| - 1])
  }

  lemma {:induction false} ApplyAllSum(w: World, a: seq<Effect>, b: seq<Effect>)
    ensures ApplyAll(w, a + b) == ApplyAll(ApplyAll(w, a), b)
  {
    if b == [] {
      assert a + b == a;
    } else {
      ApplyAllSum(w, a, b[..|b| - 1]);
      assert (a + b)[..|a + b| - 1] == a + b[..|b| - 1];
    }
  }

  /** The effect only if it changes something: a patch with an empty difference writes nothing. */
  function When(changes: bool, e: Effect): seq<Effect> {
    if changes then [e] else []
  }

  // ----- the claim controller -----

  /** The configuration of a claim for its server, keeping what the controller does not set. */
  function ClaimConfig(w: World, key: Key, c: Claim, n: Name): Config {
    var base := if key in w.configs then w.configs[key] else Config(n, "", None, None, false, NoBootState);
    base.(serverRef := n, image := c.image, ignition := c.ignition, owner := Some(c.uid))
  }

  /** The configuration is the claim's, for this server: what the claim asks for is in it. */
  predicate Carries(config: Config, c: Claim, n: Name) {
    && config.serverRef == n && config.owner == Some(c.uid)
    && config.image == c.image && config.ignition == c.ignition
  }

  /** A configuration of that name belongs to something else; setting the controller reference fails. */
  predicate ForeignConfig(w: World, key: Key, c: Claim) {
    key in w.configs && w.configs[key].owner.Some? && w.configs[key].owner.value != c.uid
  }

  /** Whether clean-up drops this reference: only if both name and namespace differ is it kept. */
  predicate DropsBootRef(boot: Key, key: Key) {
    !(boot.name != key.name && boot.namespace != key.namespace)
  }

  function UnclaimEffects(w: World, n: Name): seq<Effect> {
    When(n in w.servers && w.servers[n].claimRef.Some?, SetClaimRef(n, None))
  }

  function DropBootRefEffects(w: World, key: Key, n: Name): seq<Effect> {
    When(n in w.servers && w.servers[n].bootRef.Some? && DropsBootRef(w.servers[n].bootRef.value, key),
         UnsetBootRefAndPowerOff(n))
  }

  function CleanupPlan(w: World, key: Key, c: Claim): seq<Effect> {
    if c.serverRef.None? then [] else
      UnclaimEffects(w, c.serverRef.value)
      + When(key in w.configs, DeleteConfig(key))
      + DropBootRefEffects(w, key, c.serverRef.value)
  }

  function ConfigEffects(w: World, key: Key, config: Config): seq<Effect> {
    When(!(key in w.configs && w.configs[key] == config), PutConfig(key, config))
  }

  function BootRefEffects(n: Name, s: Server, key: Key): seq<Effect> {
    When(s.bootRef != Some(key), SetBootRef(n, Some(key)))
  }

  function FinishEffects(key: Key, c: Claim, n: Name, s: Server): seq<Effect> {
    if c.phase != Bound then [SetPhase(key, Bound)] else When(s.power != c.power, SetPower(n, c.power))
  }

  function BindPlan(w: World, key: Key, c: Claim, n: Name): seq<Effect>
    requires n in w.servers
  {
    if ForeignConfig(w, key, c) then [] else
      ConfigEffects(w, key, ClaimConfig(w, key, c, n)) + BootRefEffects(n, w.servers[n], key)
      + FinishEffects(key, c, n, w.servers[n])
  }

  function ClaimPlan(w: World, key: Key): seq<Effect> {
    if key !in w.claims then [] else
      var c := w.claims[key];
      if c.deleting then
        if c.finalizer then CleanupPlan(w, key, c) + [ReleaseClaim(key)] else []
      else if c.ignored then []
      else if c.phase == NoPhase then [SetPhase(key, Unbound)]
      else if !c.finalizer then [AddClaimFinalizer(key)]
      else
        var found := Candidate(w.servers, w.order, key, c);
        if found.None? then [] else
          var n := found.value;
          if w.servers[n].claimRef.None? then [SetClaimRef(n, Some(ClaimRef(key, c.uid)))]
          else if c.serverRef.None? then [SetServerRef(key, n)]
          else if c.serverRef.value != n then []
          else BindPlan(w, key, c, n)
  }

  // ----- the server controller -----

  predicate BootReady(w: World, s: Server) {
    s.bootRef.Some? && s.bootRef.value in w.configs && w.configs[s.bootRef.value].state == Ready
  }

  /** The power command that brings `current` to `desired`: true is PowerOn. */
  function PowerOp(desired: Power, current: PowerState): Option<bool> {
    if desired == PowerOn && current != On && current != PoweringOn then Some(true)
    else if desired == PowerOff && current != Off && current != PoweringOff then Some(false)
    else None
  }

  function Commands(n: Name, op: Option<bool>): seq<Effect> {
    if op.Some? then [Command(n, op.value)] else []
  }

  function InternalKey(cfg: Settings, n: Name): Key {
    Key(cfg.managerNamespace, n)
  }

  function InternalConfig(w: World, cfg: Settings, n: Name): Config {
    var key := InternalKey(cfg, n);
    var base := if key in w.configs then w.configs[key] else Config(n, "", None, None, true, NoBootState);
    base.(serverRef := n, image := cfg.probeImage, ignition := Some(n), internal := true)
  }

  function InitialPlan(w: World, cfg: Settings, n: Name, s: Server): seq<Effect> {
    if s.power == PowerUnset && s.powerState == Off then [SetPower(n, PowerOff)]
    else if s.powerState == On && cfg.enforceFirstBoot && s.power != PowerOff then [SetPower(n, PowerOff)]
    else
      var op, key, config := PowerOp(s.power, s.powerState), InternalKey(cfg, n), InternalConfig(w, cfg, n);
      if op.Some? && !s.hasBmc then [] else
        (Commands(n, op) + ConfigEffects(w, key, config))
        + (BootRefEffects(n, s, key) + When(s.hasBmc, SetState(n, Discovery)))
  }

  /** `late`: the probe has not reported in time. */
  function DiscoveryEnd(w: World, n: Name, s: Server, late: bool): seq<Effect> {
    if late then [SetState(n, Initial)]
    else if s.uuid in w.registry then [SetNics(n, w.registry[s.uuid]), Unregister(s.uuid), SetState(n, Available)]
    else []
  }

  function DiscoveryPlan(w: World, n: Name, s: Server, late: bool): seq<Effect> {
    if !BootReady(w, s) then [] else
      [Observe(n)] + When(s.power != PowerOn, SetPower(n, PowerOn))
      + if !s.hasBmc then [] else Commands(n, PowerOp(PowerOn, s.powerState)) + DiscoveryEnd(w, n, s, late)
  }

  function ShutDown(n: Name, s: Server): seq<Effect> {
    if s.powerState == Off then [] else
      When(s.power != PowerOff, SetPower(n, PowerOff))
      + Commands(n, if s.hasBmc then PowerOp(PowerOff, s.powerState) else None)
  }

  function AvailablePlan(w: World, n: Name, s: Server): seq<Effect> {
    if !s.hasBmc && s.powerState != Off && PowerOp(PowerOff, s.powerState).Some? then ShutDown(n, s)
    else if s.bootRef.Some? && s.bootRef.value in w.configs && w.configs[s.bootRef.value].internal then
      ShutDown(n, s) + ([DeleteConfig(s.bootRef.value)] + [SetBootRef(n, None)])
    else ShutDown(n, s)
  }

  function ReservedPlan(w: World, n: Name, s: Server): seq<Effect> {
    if !BootReady(w, s) then [] else
      [Observe(n)]
      + (if !s.hasBmc then [] else Commands(n, PowerOp(s.power, s.powerState)))
  }

  function HandlerPlan(w: World, cfg: Settings, n: Name, s: Server, late: bool): seq<Effect> {
    match s.state
    case Initial => InitialPlan(w, cfg, n, s)
    case Discovery => DiscoveryPlan(w, n, s, late)
    case Available => AvailablePlan(w, n, s)
    case Reserved => ReservedPlan(w, n, s)
    case Empty => []
  }

  /** The server as it is after its power state has been read from its BMC. */
  function Refreshed(w: World, n: Name): Server
    requires n in w.servers
  {
    if w.servers[n].hasBmc && n in w.bmc then w.servers[n].(powerState := w.bmc[n]) else w.servers[n]
  }

  function ServerPlan(w: World, cfg: Settings, n: Name, late: bool): seq<Effect> {
    if n !in w.servers then [] else
      var s := w.servers[n];
      if s.ignored then []
      else if s.state == Empty then [SetState(n, Initial)]
      else if !s.finalizer then [AddServerFinalizer(n)]
      else if s.claimRef.Some? && s.state != Reserved then [SetState(n, Reserved)]
      else if s.claimRef.None? && s.state == Reserved then [SetState(n, Available)]
      else
        var s' := Refreshed(w, n);
        When(s'.powerState != s.powerState, SetPowerState(n, s'.powerState)) + HandlerPlan(w, cfg, n, s', late)
  }

  // ----- runs -----

  function Cut(es: seq<Effect>, cut: nat): seq<Effect> {
    if cut < |es| then es[..cut] else es
  }

  datatype Step =
    | ReconcileClaim(key: Key, cut: nat)
    | ReconcileServer(n: Name, late: bool, cut: nat)
    | CreateServer(n: Name, s: Server, current: PowerState)
    | CreateClaim(key: Key, c: Claim)
    | DeleteClaim(key: Key)
    | EditClaim(key: Key, power: Power, image: string, ignition: Option<string>, ignored: bool)
    | CompleteClaim(key: Key, serverRef: Option<Name>, selector: Option<Selector>)
    | Relabel(n: Name, labels: Labels, ignored: bool)
    | MarkConfig(key: Key, state: BootState)
    | Register(uuid: string, nics: Nics)
    | BmcChanges(n: Name, current: PowerState)
    | Relist(order: seq<Name>)

  /** What a step performs: a prefix of a reconcile's plan. */
  function Performed(w: World, cfg: Settings, step: Step): seq<Effect> {
    match step
    case ReconcileClaim(key, cut) => Cut(ClaimPlan(w, key), cut)
    case ReconcileServer(n, late, cut) => Cut(ServerPlan(w, cfg, n, late), cut)
    case _ => []
  }

  predicate Enabled(w: World, cfg: Settings, step: Step) {
    match step
    case CreateServer(n, s, _) =>
      n !in w.servers && s.state == Empty && s.claimRef.None?
    case CreateClaim(key, c) =>
      && key !in w.claims && key.namespace != cfg.managerNamespace
      && c.uid == w.nextUid && c.phase == NoPhase && !c.finalizer && !c.deleting
    case Relist(order) => Listing(order, w.servers)
    case _ => true
  }

  /** The claim with a reference and a selector where it has none: neither can be changed once it is set. */
  function Completed(c: Claim, serverRef: Option<Name>, selector: Option<Selector>): Claim {
    c.(serverRef := if c.serverRef.Some? then c.serverRef else serverRef,
       selector := if c.selector.Some? then c.selector else selector)
  }

  function After(w: World, cfg: Settings, step: Step): World {
    match step
    case ReconcileClaim(_, _) => ApplyAll(w, Performed(w, cfg, step))
    case ReconcileServer(_, _, _) => ApplyAll(w, Performed(w, cfg, step))
    case CreateServer(n, s, current) =>
      w.(order := w.order + [n], servers := w.servers[n := s], bmc := w.bmc[n := current],
         createdOn := if s.power == PowerOn then w.createdOn + {n} else w.createdOn)
    case CreateClaim(key, c) => w.(claims := w.claims[key := c], nextUid := w.nextUid + 1)
    case DeleteClaim(key) =>
      if key !in w.claims then w
      else if w.claims[key].finalizer then OnClaim(w, key, w.claims[key].(deleting := true))
      else w.(claims := w.claims - {key})
    case EditClaim(key, power, image, ignition, ignored) =>
      if key !in w.claims then w
      else OnClaim(w, key, w.claims[key].(power := power, image := image, ignition := ignition, ignored := ignored))
    case CompleteClaim(key, serverRef, selector) =>
      if key !in w.claims then w else OnClaim(w, key, Completed(w.claims[key], serverRef, selector))
    case Relabel(n, labels, ignored) =>
      if n !in w.servers then w else OnServer(w, n, w.servers[n].(labels := labels, ignored := ignored))
    case MarkConfig(key, state) =>
      if key !in w.configs then w else w.(configs := w.configs[key := w.configs[key].(state := state)])
    case Register(uuid, nics) =>
      w.(registry := w.registry[uuid := nics], registrations := w.registrations + {(uuid, nics)})
    case BmcChanges(n, current) => w.(bmc := w.bmc[n := current])
    case Relist(order) => w.(order := order)
  }

  ghost predicate Start(w: World) {
    && w.order == [] && w.servers == map[] && w.claims == map[] && w.configs == map[] && w.registry == map[]
    && w.bmc == map[] && w.registrations == {} && w.observed == {} && w.createdOn == {}
  }

  ghost predicate Run(cfg: Settings, ws: seq<World>, steps: seq<Step>) {
    && |ws| == |steps| + 1 && Start(ws[0])
    && forall i :: 0 <= i < |steps| ==> Enabled(ws[i], cfg, steps[i]) && ws[i + 1] == After(ws[i], cfg, steps[i])
  }

  lemma {:induction false} RunGrows(cfg: Settings, ws: seq<World>, steps: seq<Step>, step: Step)
    requires Run(cfg, ws, steps) && Enabled(ws[|steps|], cfg, step)
    ensures Run(cfg, ws + [After(ws[|steps|], cfg, step)], steps + [step])
  {
  }
}
