/** The running operator: its two reconcilers at work on one API server, among users, probes and machines. */
module Operator {
  import opened Metal
  import opened World
  import opened PowerCommands
  import opened ApiServer
  import opened ClaimController
  import opened ServerController

  /** The same step, whatever part of a reconcile it performs. */
  predicate SameTask(a: Step, b: Step) {
    match a
    case ReconcileClaim(key, _) => b.ReconcileClaim? && b.key == key
    case ReconcileServer(n, late, _) => b.ReconcileServer? && b.n == n && b.late == late
    case _ => a == b
  }

  /** `steps` are the steps scheduled, in order; only steps of the environment may have been left out. */
  ghost predicate Follows(schedule: seq<Step>, steps: seq<Step>) {
    if schedule == [] then steps == [] else
      var front, last := schedule[..|schedule| - 1], schedule[|schedule| - 1];
      || (steps != [] && SameTask(last, steps[|steps| - 1]) && Follows(front, steps[..|steps| - 1]))
      || (!last.ReconcileClaim? && !last.ReconcileServer? && Follows(front, steps))
  }

  /** The effects of a run, in the order in which they are performed. */
  ghost function Trace(cfg: Settings, ws: seq<World>, steps: seq<Step>): seq<Effect>
    requires |steps| <= |ws|
  {
    if steps == [] then [] else
      var k := |steps| - 1;
      Trace(cfg, ws, steps[..k]) + Performed(ws[k], cfg, steps[k])
  }

  lemma {:induction false} TraceOf(cfg: Settings, ws: seq<World>, more: seq<World>, steps: seq<Step>)
    requires |steps| <= |ws|
    ensures Trace(cfg, ws + more, steps) == Trace(cfg, ws, steps)
  {
    if steps != [] {
      TraceOf(cfg, ws, more, steps[..|steps| - 1]);
    }
  }

  /** No machine is switched on before its boot configuration was seen Ready, unless its server was created to be on. */
  ghost predicate Justified(trace: seq<Effect>, steps: seq<Step>) {
    forall k :: 0 <= k < |trace| && trace[k].Command? && trace[k].on ==>
                  || Observe(trace[k].n) in trace[..k]
                  || exists j :: 0 <= j < |steps| && CreatesOn(steps[j], trace[k].n)
  }

  lemma {:induction false} CommandsAreJustified(cfg: Settings, ws: seq<World>, steps: seq<Step>, i: nat)
    requires Run(cfg, ws, steps) && i <= |steps|
    ensures Justified(Trace(cfg, ws, steps[..i]), steps)
  {
    if i > 0 {
      CommandsAreJustified(cfg, ws, steps, i - 1);
      var before, now := Trace(cfg, ws, steps[..i - 1]), Performed(ws[i - 1], cfg, steps[i - 1]);
      TraceNext(cfg, ws, steps, i - 1);
      forall k | 0 <= k < |now| && now[k].Command? && now[k].on
        ensures || Observe(now[k].n) in before + now[..k]
                || exists j :: 0 <= j < |steps| && CreatesOn(steps[j], now[k].n)
      {
        CommandIsJustified(cfg, ws, steps, i - 1, k, now[k].n);
      }
      JustifiedSum(before, now, steps);
    }
  }

  lemma {:induction false} TraceNext(cfg: Settings, ws: seq<World>, steps: seq<Step>, i: nat)
    requires i < |steps| < |ws|
    ensures Trace(cfg, ws, steps[..i + 1]) == Trace(cfg, ws, steps[..i]) + Performed(ws[i], cfg, steps[i])
  {
    assert steps[..i + 1][..i] == steps[..i];
  }

  lemma {:induction false} CommandIsJustified(cfg: Settings, ws: seq<World>, steps: seq<Step>, i: nat, k: nat, n: Name)
    requires Run(cfg, ws, steps) && i < |steps|
    ensures SwitchesOn(ws[i], cfg, steps[i], k, n) ==>
              || Observe(n) in Trace(cfg, ws, steps[..i]) + Performed(ws[i], cfg, steps[i])[..k]
              || exists j :: 0 <= j < |steps| && CreatesOn(steps[j], n)
  {
    PowerOnIsJustified(cfg, ws, steps, i, k, n);
    if j :| 0 <= j < i && SawReady(cfg, ws, steps, j, n) {
      TraceHolds(cfg, ws, steps, i, j, Observe(n));
    }
  }

  lemma {:induction false} TraceHolds(cfg: Settings, ws: seq<World>, steps: seq<Step>, i: nat, j: nat, e: Effect)
    requires j < i <= |steps| < |ws|
    ensures e in Performed(ws[j], cfg, steps[j]) ==> e in Trace(cfg, ws, steps[..i])
  {
    TraceNext(cfg, ws, steps, i - 1);
    if j < i - 1 {
      TraceHolds(cfg, ws, steps, i - 1, j, e);
    }
  }

  lemma {:induction false} JustifiedSum(a: seq<Effect>, b: seq<Effect>, steps: seq<Step>)
    requires Justified(a, steps)
    requires forall k :: 0 <= k < |b| && b[k].Command? && b[k].on ==>
                           || Observe(b[k].n) in a + b[..k]
                           || exists j :: 0 <= j < |steps| && CreatesOn(steps[j], b[k].n)
    ensures Justified(a + b, steps)
  {
    var es := a + b;
    forall k | 0 <= k < |es| && es[k].Command? && es[k].on
      ensures Observe(es[k].n) in es[..k] || exists j :: 0 <= j < |steps| && CreatesOn(steps[j], es[k].n)
    {
      if k < |a| {
        assert es[..k] == a[..k] && es[k] == a[k];
      } else {
        assert es[..k] == a + b[..k - |a|] && es[k] == b[k - |a|];
      }
    }
  }

  ghost predicate Execution(cfg: Settings, first: World, schedule: seq<Step>, ws: seq<World>, steps: seq<Step>,
                            now: World, done: seq<Effect>)
  {
    && Follows(schedule, steps) && Run(cfg, ws, steps) && ws[0] == first && ws[|steps|] == now
    && done == Trace(cfg, ws, steps)
  }

  /**
   * Whatever is scheduled and whichever calls fail, what the reconcilers do is a run, in its states and in its writes
   * and commands: what is proved of runs holds of every execution. Steps of the environment that are not possible are
   * skipped.
   */
  method Operate(cfg: Settings, schedule: seq<Step>, api: Api)
    returns (ghost ws: seq<World>, ghost steps: seq<Step>)
    requires Start(api.world)
    modifies api
    ensures Run(cfg, ws, steps) && ws[0] == old(api.world) && ws[|steps|] == api.world
    ensures Follows(schedule, steps)
    ensures api.done == old(api.done) + Trace(cfg, ws, steps)
    ensures Justified(Trace(cfg, ws, steps), steps)
  {
    ghost var done;
    ws, steps, done := Execute(cfg, schedule, api);
    assert schedule[..|schedule|] == schedule;
    assert steps[..|steps|] == steps;
    CommandsAreJustified(cfg, ws, steps, |steps|);
  }

  method Execute(cfg: Settings, schedule: seq<Step>, api: Api)
    returns (ghost ws: seq<World>, ghost steps: seq<Step>, ghost done: seq<Effect>)
    requires Start(api.world)
    modifies api
    ensures Execution(cfg, old(api.world), schedule[..|schedule|], ws, steps, api.world, done)
    ensures api.done == old(api.done) + done
  {
    var claims := new ClaimReconciler(api);
    var servers := new ServerReconciler(api, cfg);
    ws, steps, done := [api.world], [], [];
    NothingExecuted(cfg, api.world);
    for i := 0 to |schedule|
      invariant Execution(cfg, old(api.world), schedule[..i], ws, steps, api.world, done)
      invariant api.done == old(api.done) + done
    {
      ws, steps, done := Turn(cfg, old(api.world), schedule, i, api, claims, servers, ws, steps, done, old(api.done));
    }
  }

  method Turn(cfg: Settings, ghost first: World, schedule: seq<Step>, i: nat, api: Api, claims: ClaimReconciler,
              servers: ServerReconciler, ghost ws: seq<World>, ghost steps: seq<Step>, ghost done: seq<Effect>,
              ghost base: seq<Effect>)
    returns (ghost ws': seq<World>, ghost steps': seq<Step>, ghost done': seq<Effect>)
    requires claims.api == api && servers.api == api && servers.cfg == cfg
    requires i < |schedule| && Execution(cfg, first, schedule[..i], ws, steps, api.world, done)
    requires api.done == base + done
    modifies api
    ensures Execution(cfg, first, schedule[..i + 1], ws', steps', api.world, done')
    ensures api.done == base + done'
  {
    ghost var now := api.world;
    var possible := Enabled(api.world, cfg, schedule[i]);
    if possible {
      ghost var step := Perform(cfg, schedule[i], api, claims, servers);
      Executed(cfg, first, schedule, i, ws, steps, now, done, step);
      SumOfSums(base, done, Performed(now, cfg, step));
      ws', steps', done' := ws + [api.world], steps + [step], done + Performed(now, cfg, step);
    } else {
      Skipped(cfg, first, schedule, i, ws, steps, now, done);
      ws', steps', done' := ws, steps, done;
    }
  }

  lemma {:induction false} SumOfSums<T>(a: seq<T>, b: seq<T>, c: seq<T>)
    ensures a + b + c == a + (b + c)
  {
  }

  lemma {:induction false} NothingExecuted(cfg: Settings, w: World)
    requires Start(w)
    ensures Execution(cfg, w, [], [w], [], w, [])
  {
  }

  lemma {:induction false} Executed(cfg: Settings, first: World, schedule: seq<Step>, i: nat, ws: seq<World>,
                                    steps: seq<Step>, now: World, done: seq<Effect>, step: Step)
    requires i < |schedule| && Execution(cfg, first, schedule[..i], ws, steps, now, done)
    requires SameTask(schedule[i], step) && Enabled(now, cfg, step)
    ensures var next := After(now, cfg, step);
            Execution(cfg, first, schedule[..i + 1], ws + [next], steps + [step], next,
                      done + Performed(now, cfg, step))
  {
    var next := schedule[..i + 1];
    assert next[..i] == schedule[..i] && next[i] == schedule[i];
    assert (steps + [step])[..|steps|] == steps;
    RunGrows(cfg, ws, steps, step);
    TraceOf(cfg, ws, [After(now, cfg, step)], steps);
  }

  lemma {:induction false} Skipped(cfg: Settings, first: World, schedule: seq<Step>, i: nat, ws: seq<World>,
                                   steps: seq<Step>, now: World, done: seq<Effect>)
    requires i < |schedule| && !schedule[i].ReconcileClaim? && !schedule[i].ReconcileServer?
    ensures Execution(cfg, first, schedule[..i], ws, steps, now, done) ==>
              Execution(cfg, first, schedule[..i + 1], ws, steps, now, done)
  {
    var next := schedule[..i + 1];
    assert next[..i] == schedule[..i] && next[i] == schedule[i];
  }

  method Perform(cfg: Settings, task: Step, api: Api, claims: ClaimReconciler, servers: ServerReconciler)
    returns (ghost step: Step)
    requires claims.api == api && servers.api == api && servers.cfg == cfg && Enabled(api.world, cfg, task)
    modifies api
    ensures SameTask(task, step) && Enabled(old(api.world), cfg, step) && api.world == After(old(api.world), cfg, step)
    ensures api.done == old(api.done) + Performed(old(api.world), cfg, step)
  {
    ghost var before := |api.done|;
    match task {
      case ReconcileClaim(key, _) =>
        var ok := claims.ReconcileRequest(key, cfg);
        step := ReconcileClaim(key, |api.done| - before);
      case ReconcileServer(n, late, _) =>
        var ok := servers.ReconcileRequest(n, late);
        step := ReconcileServer(n, late, |api.done| - before);
      case _ =>
        step := task;
        api.world := After(api.world, cfg, task);
    }
  }
}
