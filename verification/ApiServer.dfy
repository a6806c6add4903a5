/** The API server, the registry and the BMCs as the reconcilers reach them: single calls, each of which may fail. */
module ApiServer {
  import opened Metal
  import opened World

  /** A point in an execution: the state, the writes performed so far and the number of calls that failed. */
  datatype Moment = Moment(world: World, done: seq<Effect>, faults: nat)

  /**
   * Between `a` and `b` the plan was performed in order, up to some point. It was performed in full if the operation
   * reported success, and also if no call failed.
   */
  ghost predicate Ran(a: Moment, plan: seq<Effect>, b: Moment, ok: bool) {
    && a.faults <= b.faults
    && a.done <= b.done <= a.done + plan
    && b.world == ApplyAll(a.world, b.done[|a.done|..])
    && (ok || a.faults == b.faults ==> b.done == a.done + plan)
  }

  lemma {:induction false} RanNothing(a: Moment, plan: seq<Effect>, b: Moment, ok: bool)
    requires a.world == b.world && a.done == b.done && a.faults <= b.faults
    requires ok || a.faults == b.faults ==> plan == []
    ensures Ran(a, plan, b, ok)
  {
    assert b.done[|a.done|..] == [];
  }

  /** What was performed is the plan cut off after as many effects as there were writes. */
  lemma {:induction false} RanIsCut(a: Moment, plan: seq<Effect>, b: Moment, ok: bool)
    requires Ran(a, plan, b, ok)
    ensures b.world == ApplyAll(a.world, Cut(plan, |b.done| - |a.done|))
    ensures b.done == a.done + Cut(plan, |b.done| - |a.done|)
  {
    var k := |b.done| - |a.done|;
    assert b.done[|a.done|..] == plan[..k];
    assert k == |plan| ==> plan[..k] == plan;
  }

  lemma {:induction false} RanWhole(a: Moment, plan: seq<Effect>, b: Moment)
    requires Ran(a, plan, b, true)
    ensures b.world == ApplyAll(a.world, plan)
  {
    assert b.done[|a.done|..] == plan;
  }

  lemma {:induction false} RanBoth(a: Moment, p: seq<Effect>, b: Moment, q: seq<Effect>, c: Moment, ok: bool)
    requires Ran(a, p, b, true) && Ran(b, q, c, ok)
    ensures Ran(a, p + q, c, ok)
  {
    var r := c.done[|b.done|..];
    assert c.done[|a.done|..] == p + r by {
      assert c.done == b.done + r;
    }
    RanWhole(a, p, b);
    ApplyAllSum(a.world, p, r);
    assert a.done + p + q == a.done + (p + q);
  }

  /** A call failed in the first part: the second is never started. */
  lemma {:induction false} RanFirst(a: Moment, p: seq<Effect>, b: Moment, q: seq<Effect>)
    requires Ran(a, p, b, false) && a.faults < b.faults
    ensures Ran(a, p + q, b, false)
  {
    assert a.done + (p + q) == a.done + p + q;
  }

  class Api {
    var world: World
    ghost var done: seq<Effect>
    ghost var faults: nat

    constructor (w: World)
      ensures world == w && done == [] && faults == 0
    {
      world, done, faults := w, [], 0;
    }

    ghost function Now(): (m: Moment)
      reads this
    {
      Moment(world, done, faults)
    }

    /** A call that only reads. */
    method Read() returns (ok: bool)
      modifies this`faults
      ensures faults == old(faults) + if ok then 0 else 1
    {
      ok := *;
      if !ok {
        faults := faults + 1;
      }
    }

    /** One write, or a call with an empty difference, which changes nothing. */
    method Write(changes: bool, e: Effect) returns (ok: bool)
      modifies this
      ensures Ran(old(Now()), When(changes, e), Now(), ok)
      ensures ok ==> faults == old(faults) && world == if changes then Apply(old(world), e) else old(world)
      ensures !ok ==> faults > old(faults)
    {
      ok := *;
      ghost var before := Now();
      if !ok {
        faults := faults + 1;
        assert done[|before.done|..] == [];
      } else if changes {
        world, done := Apply(world, e), done + [e];
        assert done[|before.done|..] == [e];
        assert [e][..0] == [];
        assert ApplyAll(before.world, [e]) == Apply(ApplyAll(before.world, [e][..0]), e);
      } else {
        RanNothing(before, [], Now(), ok);
      }
    }

    /** History: a boot configuration was seen Ready. */
    method Note(n: Name)
      modifies this
      ensures Ran(old(Now()), [Observe(n)], Now(), true)
      ensures world == Apply(old(world), Observe(n)) && faults == old(faults)
    {
      ghost var before := Now();
      world, done := Apply(world, Observe(n)), done + [Observe(n)];
      assert done[|before.done|..] == [Observe(n)];
      assert [Observe(n)][..0] == [];
      assert ApplyAll(before.world, [Observe(n)]) == Apply(ApplyAll(before.world, [Observe(n)][..0]), Observe(n));
    }
  }
}
