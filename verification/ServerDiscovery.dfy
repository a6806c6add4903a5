/** How a BMC's systems become Server objects, and why two BMCs never contend for one. */
module ServerDiscovery {
  import opened Options

  // ----- names -----

  function Digit(d: nat): (c: char)
    requires d < 10
    ensures '0' <= c <= '9' && c as int == '0' as int + d
  {
    ('0' as int + d) as char
  }

  /** Decimal notation, without leading zeros. */
  function Decimal(n: nat): (s: string)
    ensures |s| > 0 && forall i :: 0 <= i < |s| ==> '0' <= s[i] <= '9'
  {
    if n < 10 then [Digit(n)] else Decimal(n / 10) + [Digit(n % 10)]
  }

  /** What a string of digits denotes. */
  function Denotes(s: string): int {
    if s == [] then 0 else 10 * Denotes(s[..|s| - 1]) + (s[|s| - 1] as int - '0' as int)
  }

  lemma {:induction false} DecimalDenotes(n: nat)
    ensures Denotes(Decimal(n)) == n
  {
    var s := Decimal(n);
    if n >= 10 {
      DecimalDenotes(n / 10);
      assert s[..|s| - 1] == Decimal(n / 10);
    } else {
      assert s[..|s| - 1] == [];
    }
  }

  const Middle := "-system-"

  function ServerName(bmc: string, index: nat): (r: string) {
    bmc + Middle + Decimal(index)
  }

  /** Digits hold no dash: where the last dash stands tells how long the number is. */
  lemma {:induction false} LastDash(a: string, d: string, b: string, e: string)
    requires a + Middle + d == b + Middle + e
    requires forall i :: 0 <= i < |d| ==> '0' <= d[i] <= '9'
    requires forall i :: 0 <= i < |e| ==> '0' <= e[i] <= '9'
    ensures a == b && d == e
  {
    var s, t := a + Middle + d, b + Middle + e;
    var i, j := |s| - |d| - 1, |t| - |e| - 1;
    assert s[i] == Middle[7] == '-' && t[j] == Middle[7] == '-';
    assert forall k :: i < k < |s| ==> s[k] == d[k - i - 1];
    assert forall k :: j < k < |t| ==> t[k] == e[k - j - 1];
    assert i == j;
    assert d == s[i + 1..] && e == t[j + 1..];
    assert a == s[..i - 7] && b == t[..j - 7];
  }

  /** The name tells the BMC and the index apart, whatever the BMC is called. */
  lemma {:induction false} ServerNameInjective(a: string, i: nat, b: string, j: nat)
    requires ServerName(a, i) == ServerName(b, j)
    ensures a == b && i == j
  {
    LastDash(a, Decimal(i), b, Decimal(j));
    DecimalDenotes(i);
    DecimalDenotes(j);
  }

  // ----- the objects -----

  /** A BMC: its name, the UID of this incarnation of it, and its labels. */
  datatype Bmc = Bmc(name: string, uid: nat, labels: map<string, string>)

  datatype Server = Server(labels: map<string, string>, uuid: string, bmcRef: Option<string>, owner: Option<nat>)

  function LowerChar(c: char): char {
    if 'A' <= c <= 'Z' then c - 'A' + 'a' else c
  }

  /** Letters become small letters, and nothing else changes. */
  function ToLower(s: string): (r: string)
    ensures |r| == |s|
    ensures forall i :: 0 <= i < |s| ==> r[i] as int == s[i] as int + if 'A' <= s[i] <= 'Z' then 32 else 0
    ensures forall i :: 0 <= i < |r| ==> !('A' <= r[i] <= 'Z')
  {
    seq(|s|, i requires 0 <= i < |s| => LowerChar(s[i]))
  }

  /** Another incarnation or another object controls the server. */
  predicate Foreign(s: Server, bmc: Bmc) {
    s.owner.Some? && s.owner.value != bmc.uid
  }

  /** The server as the BMC wants it: the BMC's labels beside the others it has, its UUID in small letters. */
  function Desired(base: Server, bmc: Bmc, uuid: string): (s: Server)
    ensures s.bmcRef == Some(bmc.name) && s.owner == Some(bmc.uid)
    ensures s.labels.Keys == base.labels.Keys + bmc.labels.Keys
    ensures forall k :: k in bmc.labels ==> s.labels[k] == bmc.labels[k]
    ensures forall k :: k in base.labels && k !in bmc.labels ==> s.labels[k] == base.labels[k]
    ensures |s.uuid| == |uuid|
    ensures forall i :: 0 <= i < |uuid| ==> s.uuid[i] as int == uuid[i] as int + if 'A' <= uuid[i] <= 'Z' then 32 else 0
  {
    Server(base.labels + bmc.labels, ToLower(uuid), Some(bmc.name), Some(bmc.uid))
  }

  const Blank := Server(map[], "", None, None)

  function Base(servers: map<string, Server>, n: string): Server {
    if n in servers then servers[n] else Blank
  }

  // ----- one discovery -----

  class Store {
    var servers: map<string, Server>
    ghost var faults: nat

    /** Creates the server or brings it to what the BMC wants; refused if something else controls it. */
    method CreateOrPatch(bmc: Bmc, n: string, uuid: string) returns (ok: bool)
      modifies this
      ensures ok ==> servers == old(servers)[n := Desired(Base(old(servers), n), bmc, uuid)] && faults == old(faults)
                     && !Foreign(Base(old(servers), n), bmc)
      ensures !ok ==> servers == old(servers)
      ensures !ok && faults == old(faults) ==> Foreign(Base(old(servers), n), bmc)
    {
      ok := *;
      if !ok {
        faults := faults + 1;
        return;
      }
      if Foreign(Base(servers, n), bmc) {
        return false;
      }
      servers := servers[n := Desired(Base(servers, n), bmc, uuid)];
    }

    /**
     * After a discovery, the first `done` systems, and all of them on success, have their server, under the BMC's
     * name and with what was there before; every other server is untouched.
     */
    method DiscoverServers(bmc: Bmc, systems: seq<string>) returns (ok: bool, done: nat)
      modifies this
      ensures done <= |systems| && (ok <==> done == |systems|)
      ensures forall i :: 0 <= i < done ==>
                var n := ServerName(bmc.name, i);
                n in servers && servers[n] == Desired(Base(old(servers), n), bmc, systems[i])
      ensures forall n :: n in servers || n in old(servers) ==>
                (exists i :: 0 <= i < done && n == ServerName(bmc.name, i)) || Same(old(servers), servers, n)
      ensures !ok && faults == old(faults) ==> Foreign(Base(old(servers), ServerName(bmc.name, done)), bmc)
    {
      done, ok := 0, true;
      while done < |systems|
        invariant done <= |systems| && ok && faults == old(faults)
        invariant forall i :: 0 <= i < done ==>
                    var n := ServerName(bmc.name, i);
                    n in servers && servers[n] == Desired(Base(old(servers), n), bmc, systems[i])
        invariant forall n :: n in servers || n in old(servers) ==>
                    (exists i :: 0 <= i < done && n == ServerName(bmc.name, i)) || Same(old(servers), servers, n)
      {
        var n := ServerName(bmc.name, done);
        forall i | 0 <= i < done ensures ServerName(bmc.name, i) != n {
          if ServerName(bmc.name, i) == n {
            ServerNameInjective(bmc.name, i, bmc.name, done);
          }
        }
        assert Base(servers, n) == Base(old(servers), n);
        ok := CreateOrPatch(bmc, n, systems[done]);
        if !ok {
          return;
        }
        done := done + 1;
      }
    }
  }

  ghost predicate Same(a: map<string, Server>, b: map<string, Server>, n: string) {
    n in a && n in b && a[n] == b[n]
  }

  // ----- several discoveries at once -----

  /** What a discovery has read: the index it is at and the server it found there, if any. */
  datatype Read = Read(bmc: Bmc, index: nat, found: Option<Server>)

  /** `pending` are the discoveries between their read and their write, one per BMC worker. */
  datatype State = State(servers: map<string, Server>, pending: map<nat, Read>)

  datatype Step =
    | Look(worker: nat, bmc: Bmc, index: nat)
    | Write(worker: nat, uuid: string)
    | UserCreates(name: string, server: Server)

  predicate Enabled(s: State, step: Step) {
    match step
    case Look(_, _, _) => true
    case Write(worker, _) => worker in s.pending
    case UserCreates(n, _) => n !in s.servers
  }

  /** A merge patch: what the writer changed of what it had read, and the rest as it is now. */
  function Patched(now: Server, base: Server, wanted: Server): Server {
    var changed := map k | k in wanted.labels && !(k in base.labels && base.labels[k] == wanted.labels[k])
                       :: wanted.labels[k];
    Server(now.labels + changed,
           if wanted.uuid != base.uuid then wanted.uuid else now.uuid,
           if wanted.bmcRef != base.bmcRef then wanted.bmcRef else now.bmcRef,
           if wanted.owner != base.owner then wanted.owner else now.owner)
  }

  function WriteServer(servers: map<string, Server>, r: Read, uuid: string): map<string, Server> {
    var n := ServerName(r.bmc.name, r.index);
    match r.found
    case None => if n in servers then servers else servers[n := Desired(Blank, r.bmc, uuid)]
    case Some(base) =>
      if Foreign(base, r.bmc) || n !in servers then servers
      else servers[n := Patched(servers[n], base, Desired(base, r.bmc, uuid))]
  }

  function After(s: State, step: Step): State {
    match step
    case Look(worker, bmc, index) =>
      var n := ServerName(bmc.name, index);
      s.(pending := s.pending[worker := Read(bmc, index, if n in s.servers then Some(s.servers[n]) else None)])
    case Write(worker, uuid) =>
      if worker !in s.pending then s
      else s.(servers := WriteServer(s.servers, s.pending[worker], uuid), pending := s.pending - {worker})
    case UserCreates(n, server) => s.(servers := s.servers[n := server])
  }

  ghost predicate Run(states: seq<State>, steps: seq<Step>) {
    && |states| == |steps| + 1 && states[0].pending == map[]
    && forall t :: 0 <= t < |steps| ==> Enabled(states[t], steps[t]) && states[t + 1] == After(states[t], steps[t])
  }

  /** Step `t` is a discovery of this BMC writing this server. */
  ghost predicate Writes(states: seq<State>, steps: seq<Step>, t: nat, bmc: string, n: string)
    requires |states| == |steps| + 1
  {
    && t < |steps| && steps[t].Write? && steps[t].worker in states[t].pending
    && var r := states[t].pending[steps[t].worker];
    && r.bmc.name == bmc && n == ServerName(bmc, r.index)
    && (r.found.None? ==> n !in states[t].servers) && (r.found.Some? ==> !Foreign(r.found.value, r.bmc))
  }

  /** A read that saw its own BMC's reference on a server is still right about it. */
  ghost predicate ReadOk(s: State, r: Read) {
    r.found.Some? ==>
      var n := ServerName(r.bmc.name, r.index);
      && n in s.servers
      && (r.found.value.bmcRef == Some(r.bmc.name) ==> s.servers[n].bmcRef == Some(r.bmc.name))
  }

  ghost predicate Inv(s: State) {
    forall worker :: worker in s.pending ==> ReadOk(s, s.pending[worker])
  }

  /** A server that carries the reference of the BMC whose name it bears. */
  predicate Carries(s: State, bmc: string, index: nat) {
    var n := ServerName(bmc, index);
    n in s.servers && s.servers[n].bmcRef == Some(bmc)
  }

  lemma {:induction false} StepCarries(s: State, step: Step, bmc: string, index: nat)
    requires Inv(s) && Enabled(s, step) && Carries(s, bmc, index)
    ensures Carries(After(s, step), bmc, index)
  {
    if step.Write? {
      var r := s.pending[step.worker];
      if ServerName(r.bmc.name, r.index) == ServerName(bmc, index) {
        ServerNameInjective(r.bmc.name, r.index, bmc, index);
      }
    }
  }

  lemma {:induction false} StepKeeps(s: State, step: Step)
    requires Inv(s) && Enabled(s, step)
    ensures Inv(After(s, step))
  {
    var s' := After(s, step);
    forall worker | worker in s'.pending ensures ReadOk(s', s'.pending[worker]) {
      var r := s'.pending[worker];
      if !(step.Look? && step.worker == worker) {
        assert worker in s.pending && s.pending[worker] == r && ReadOk(s, r);
        if r.found.Some? && r.found.value.bmcRef == Some(r.bmc.name) {
          StepCarries(s, step, r.bmc.name, r.index);
        }
      }
    }
  }

  lemma {:induction false} RunKeeps(states: seq<State>, steps: seq<Step>, t: nat)
    requires Run(states, steps) && t < |states|
    ensures Inv(states[t])
  {
    if t > 0 {
      RunKeeps(states, steps, t - 1);
      StepKeeps(states[t - 1], steps[t - 1]);
    }
  }

  lemma {:induction false} CarriesOn(states: seq<State>, steps: seq<Step>, t: nat, u: nat, bmc: string, index: nat)
    requires Run(states, steps) && t <= u < |states| && Carries(states[t], bmc, index)
    ensures Carries(states[u], bmc, index)
  {
    if t < u {
      CarriesOn(states, steps, t, u - 1, bmc, index);
      RunKeeps(states, steps, u - 1);
      StepCarries(states[u - 1], steps[u - 1], bmc, index);
    }
  }

  /**
   * However discoveries interleave between their reads and writes, no two BMCs write the same server, and a server
   * written for a BMC carries that BMC's reference ever after.
   */
  lemma {:induction false} DiscoveriesNeverContend(states: seq<State>, steps: seq<Step>, t: nat, a: string, n: string)
    requires Run(states, steps) && Writes(states, steps, t, a, n)
    ensures forall u: nat, b :: Writes(states, steps, u, b, n) ==> a == b
    ensures forall u: nat :: t < u < |states| ==> n in states[u].servers && states[u].servers[n].bmcRef == Some(a)
  {
    var r := states[t].pending[steps[t].worker];
    forall u: nat, b | Writes(states, steps, u, b, n) ensures a == b {
      ServerNameInjective(a, r.index, b, states[u].pending[steps[u].worker].index);
    }
    RunKeeps(states, steps, t);
    assert Carries(states[t + 1], a, r.index);
    forall u: nat | t < u < |states| ensures n in states[u].servers && states[u].servers[n].bmcRef == Some(a) {
      CarriesOn(states, steps, t + 1, u, a, r.index);
    }
  }
}
