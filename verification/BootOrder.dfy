/** Bringing the boot order of a machine in line with its spec. */
module BootOrder {
  datatype Entry = Entry(name: string, priority: int, device: string)

  ghost predicate Sorted(s: seq<Entry>) {
    forall i, j :: 0 <= i < j < |s| ==> s[i].priority <= s[j].priority
  }

  function Devices(s: seq<Entry>): (r: seq<string>)
    ensures |r| == |s|
  {
    seq(|s|, i requires 0 <= i < |s| => s[i].device)
  }

  /** `p` is the spec in non-decreasing priority. */
  ghost predicate SortOf(p: seq<Entry>, spec: seq<Entry>) {
    Sorted(p) && multiset(p) == multiset(spec)
  }

  /** The order begins with the devices of the spec, in some order of non-decreasing priority. */
  ghost predicate StartsSorted(order: seq<string>, spec: seq<Entry>) {
    exists p :: SortOf(p, spec) && Devices(p) <= order
  }

  /** Entries of equal priority name the same device. */
  ghost predicate Determined(spec: seq<Entry>) {
    forall i, j :: 0 <= i < |spec| && 0 <= j < |spec| && spec[i].priority == spec[j].priority ==>
                     spec[i].device == spec[j].device
  }

  predicate DistinctPriorities(spec: seq<Entry>) {
    forall i, j :: 0 <= i < j < |spec| ==> spec[i].priority != spec[j].priority
  }

  // ----- when sorting determines the devices -----

  function Priorities(s: seq<Entry>): (r: seq<int>)
    ensures |r| == |s|
  {
    seq(|s|, i requires 0 <= i < |s| => s[i].priority)
  }

  lemma {:induction false} MembersOf(p: seq<Entry>, q: seq<Entry>, i: nat) returns (j: nat)
    requires i < |p| && multiset(p) == multiset(q)
    ensures j < |q| && q[j] == p[i]
  {
    assert p[i] in multiset(p);
    assert p[i] in q;
    j :| 0 <= j < |q| && q[j] == p[i];
  }

  function Without<T>(s: seq<T>, i: nat): (r: seq<T>)
    requires i < |s|
  {
    s[..i] + s[i + 1..]
  }

  lemma {:induction false} WithoutOne<T>(s: seq<T>, i: nat)
    requires i < |s|
    ensures multiset(Without(s, i)) == multiset(s) - multiset{s[i]}
    ensures multiset(s) == multiset(Without(s, i)) + multiset{s[i]}
  {
    assert s == s[..i] + [s[i]] + s[i + 1..];
  }

  lemma {:induction false} PrioritiesTogether(p: seq<Entry>, q: seq<Entry>)
    requires multiset(p) == multiset(q)
    ensures multiset(Priorities(p)) == multiset(Priorities(q))
  {
    if p == [] {
      assert |q| == |multiset(q)| == 0;
    } else {
      var j := MembersOf(p, q, 0);
      WithoutOne(p, 0);
      WithoutOne(q, j);
      PrioritiesTogether(Without(p, 0), Without(q, j));
      PrioritiesWithout(p, 0);
      PrioritiesWithout(q, j);
    }
  }

  lemma {:induction false} PrioritiesWithout(s: seq<Entry>, i: nat)
    requires i < |s|
    ensures multiset(Priorities(s)) == multiset(Priorities(Without(s, i))) + multiset{s[i].priority}
  {
    WithoutOne(Priorities(s), i);
    assert Priorities(Without(s, i)) == Without(Priorities(s), i);
  }

  predicate Ordered(a: seq<int>) {
    forall i, j :: 0 <= i < j < |a| ==> a[i] <= a[j]
  }

  lemma {:induction false} OrderedIsUnique(a: seq<int>, b: seq<int>)
    requires Ordered(a) && Ordered(b) && multiset(a) == multiset(b)
    ensures a == b
  {
    if a == [] {
      assert |b| == |multiset(b)| == 0;
    } else {
      assert a[0] in multiset(b);
      HeadIsLeast(a, b);
      HeadIsLeast(b, a);
      TailIsOrdered(a);
      TailIsOrdered(b);
      OrderedIsUnique(a[1..], b[1..]);
      assert a == [a[0]] + a[1..] && b == [b[0]] + b[1..];
    }
  }

  lemma {:induction false} TailIsOrdered(a: seq<int>)
    requires Ordered(a) && a != []
    ensures Ordered(a[1..]) && multiset(a[1..]) == multiset(a) - multiset{a[0]}
  {
    WithoutOne(a, 0);
    assert Without(a, 0) == a[1..];
  }

  lemma {:induction false} HeadIsLeast(a: seq<int>, b: seq<int>)
    requires Ordered(a) && multiset(a) == multiset(b) && a != [] && b != []
    ensures a[0] <= b[0]
  {
    assert b[0] in multiset(a);
    assert b[0] in a;
  }

  /** All ways of sorting the spec give the same devices. */
  ghost predicate OneOutcome(spec: seq<Entry>) {
    forall p, q :: SortOf(p, spec) && SortOf(q, spec) ==> Devices(p) == Devices(q)
  }

  lemma {:induction false} SameDevices(spec: seq<Entry>, p: seq<Entry>, q: seq<Entry>)
    requires Determined(spec) && SortOf(p, spec) && SortOf(q, spec)
    ensures Devices(p) == Devices(q)
  {
    PrioritiesTogether(p, q);
    OrderedIsUnique(Priorities(p), Priorities(q));
    forall k | 0 <= k < |p| ensures |q| == |p| && p[k].device == q[k].device {
      assert Priorities(p)[k] == Priorities(q)[k];
      var i := MembersOf(p, spec, k);
      var j := MembersOf(q, spec, k);
    }
    assert |p| == |Priorities(p)| == |q|;
  }

  lemma {:induction false} Inserted(p: seq<Entry>, e: Entry) returns (r: seq<Entry>)
    requires Sorted(p)
    ensures SortOf(r, p + [e])
  {
    if p == [] || p[|p| - 1].priority <= e.priority {
      r := p + [e];
    } else {
      var last := p[|p| - 1];
      var s := Inserted(p[..|p| - 1], e);
      r := s + [last];
      InsertedBefore(p, e, s);
      forall i | 0 <= i < |s| ensures s[i].priority <= last.priority {
        var j := MembersOf(s, p[..|p| - 1] + [e], i);
      }
    }
  }

  lemma {:induction false} InsertedBefore(p: seq<Entry>, e: Entry, s: seq<Entry>)
    requires p != [] && multiset(s) == multiset(p[..|p| - 1] + [e])
    ensures multiset(s + [p[|p| - 1]]) == multiset(p + [e])
  {
    assert p == p[..|p| - 1] + [p[|p| - 1]];
  }

  lemma {:induction false} SortExists(spec: seq<Entry>) returns (p: seq<Entry>)
    ensures SortOf(p, spec)
  {
    if spec == [] {
      p := [];
    } else {
      var front, e := spec[..|spec| - 1], spec[|spec| - 1];
      var q := SortExists(front);
      p := Inserted(q, e);
      assert spec == front + [e];
    }
  }

  lemma {:induction false} SwappedDevices(spec: seq<Entry>, i: nat, j: nat)
    requires i < |spec| && j < |spec| && spec[i].priority == spec[j].priority && spec[i].device != spec[j].device
    ensures !OneOutcome(spec)
  {
    var p := SortExists(spec);
    var a := MembersOf(spec, p, i);
    var b := MembersOf(spec, p, j);
    var q := p[a := p[b]][b := p[a]];
    assert Sorted(q);
    assert multiset(q) == multiset(p);
    assert SortOf(q, spec);
    assert Devices(p)[a] == p[a].device && Devices(q)[a] == p[b].device;
  }

  /** The devices do not depend on how ties are broken if and only if entries of equal priority name the same device. */
  lemma {:induction false} DeterminedIsExact(spec: seq<Entry>)
    ensures Determined(spec) <==> OneOutcome(spec)
    ensures DistinctPriorities(spec) ==> Determined(spec)
  {
    if Determined(spec) {
      forall p, q | SortOf(p, spec) && SortOf(q, spec) ensures Devices(p) == Devices(q) {
        SameDevices(spec, p, q);
      }
    } else {
      var i, j :| 0 <= i < |spec| && 0 <= j < |spec| && spec[i].priority == spec[j].priority
                  && spec[i].device != spec[j].device;
      SwappedDevices(spec, i, j);
    }
  }

  // ----- the BMC -----

  /** `writes` counts the SetBootOrder commands issued, `faults` the calls that failed. */
  class Machine {
    var order: seq<string>
    ghost var writes: nat
    ghost var faults: nat

    method GetBootOrder() returns (got: seq<string>, ok: bool)
      modifies this`faults
      ensures ok ==> got == order && faults == old(faults)
      ensures !ok ==> faults == old(faults) + 1
    {
      ok := *;
      if !ok {
        faults := faults + 1;
      }
      got := order;
    }

    method SetBootOrder(newOrder: seq<string>) returns (ok: bool)
      modifies this
      ensures writes == old(writes) + 1
      ensures ok ==> order == newOrder && faults == old(faults)
      ensures !ok ==> order == old(order) && faults == old(faults) + 1
    {
      ok := *;
      writes := writes + 1;
      if ok {
        order := newOrder;
      } else {
        faults := faults + 1;
      }
    }
  }

  // ----- sorting in place -----

  method Swap(a: array<Entry>, i: nat, j: nat)
    requires i < a.Length && j < a.Length
    modifies a
    ensures a[..] == old(a[..])[i := old(a[j])][j := old(a[i])]
    ensures multiset(a[..]) == multiset(old(a[..]))
  {
    a[i], a[j] := a[j], a[i];
  }

  method Lowest(a: array<Entry>, from: nat) returns (k: nat)
    requires from < a.Length
    ensures from <= k < a.Length
    ensures forall j :: from <= j < a.Length ==> a[k].priority <= a[j].priority
  {
    k := from;
    for j := from to a.Length
      invariant from <= k < a.Length
      invariant forall m :: from <= m < j ==> a[k].priority <= a[m].priority
    {
      if a[j].priority < a[k].priority {
        k := j;
      }
    }
  }

  /** Callers may rely on the order and on nothing about ties. */
  method SortByPriority(a: array<Entry>)
    modifies a
    ensures SortOf(a[..], old(a[..]))
  {
    for i := 0 to a.Length
      invariant forall x, y :: 0 <= x < i && x < y < a.Length ==> a[x].priority <= a[y].priority
      invariant multiset(a[..]) == multiset(old(a[..]))
    {
      var k := Lowest(a, i);
      Swap(a, i, k);
    }
  }

  // ----- the operation -----

  datatype Outcome = Applied | CallFailed | Panicked

  /** The loop over the sorted spec: the devices in order, and whether the machine's order differs from them. */
  method Compare(spec: array<Entry>, order: seq<string>) returns (newOrder: seq<string>, change: bool)
    requires spec.Length <= |order|
    ensures newOrder == Devices(spec[..])
    ensures change <==> !(newOrder <= order)
  {
    newOrder, change := [], false;
    for i := 0 to spec.Length
      invariant |newOrder| == i
      invariant forall j :: 0 <= j < i ==> newOrder[j] == spec[j].device
      invariant change <==> exists j :: 0 <= j < i && order[j] != spec[j].device
    {
      newOrder := newOrder + [spec[i].device];
      if order[i] != spec[i].device {
        change := true;
      }
    }
  }

  /**
   * Success leaves the machine's order starting with the spec's devices in non-decreasing priority. An order that
   * starts that way already is left alone if ties do not matter, so that the second of two calls issues no command.
   * The operation panics exactly when the machine reports fewer entries than the spec has.
   */
  method ApplyBootOrder(hasBmc: bool, bmc: Machine, spec: array<Entry>) returns (outcome: Outcome)
    modifies bmc, spec
    ensures multiset(spec[..]) == multiset(old(spec[..]))
    ensures !hasBmc ==> outcome == Applied && spec[..] == old(spec[..])
                        && bmc.order == old(bmc.order) && bmc.writes == old(bmc.writes)
    ensures hasBmc && outcome == Applied ==> StartsSorted(bmc.order, old(spec[..]))
    ensures outcome != Applied ==> bmc.order == old(bmc.order)
    ensures outcome == Panicked ==> |old(bmc.order)| < spec.Length
    ensures hasBmc && bmc.faults == old(bmc.faults) ==>
              outcome == if |old(bmc.order)| < spec.Length then Panicked else Applied
    ensures old(bmc.writes) <= bmc.writes <= old(bmc.writes) + 1
    ensures bmc.writes > old(bmc.writes) && outcome == Applied ==>
              |bmc.order| == spec.Length && !(bmc.order <= old(bmc.order))
    ensures StartsSorted(old(bmc.order), old(spec[..])) && Determined(old(spec[..])) ==>
              bmc.writes == old(bmc.writes) && bmc.order == old(bmc.order)
  {
    if !hasBmc {
      return Applied;
    }
    ghost var was := spec[..];
    var order, ok := bmc.GetBootOrder();
    if !ok {
      return CallFailed;
    }
    SortByPriority(spec);
    if spec.Length > |order| {
      return Panicked;
    }
    var newOrder, change := Compare(spec, order);
    assert StartsSorted(newOrder, was) by {
      assert SortOf(spec[..], was) && Devices(spec[..]) <= newOrder;
    }
    if change {
      if StartsSorted(order, was) && Determined(was) {
        var p :| SortOf(p, was) && Devices(p) <= order;
        SameDevices(was, p, spec[..]);
        assert false;
      }
      ok := bmc.SetBootOrder(newOrder);
      return if ok then Applied else CallFailed;
    }
    assert StartsSorted(order, was) by {
      assert SortOf(spec[..], was) && Devices(spec[..]) <= order;
    }
    return Applied;
  }
}
