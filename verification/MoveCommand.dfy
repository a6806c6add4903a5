/** The whole command: select what to move, create it, take it back on failure. */
module MoveCommand {
  import opened Options
  import opened Resources
  import opened OwnerForest
  import opened Creation

  // ----- what has landed, CR by CR -----

  /**
   * `c` has been moved: body and status are the source's, and a single reference to a moved owner is to its new UID.
   */
  ghost predicate FaithfulCopy(crs: seq<CR>, c: CR, objects: map<Key, CR>) {
    && c.key in objects
    && objects[c.key].body == c.body && objects[c.key].status == c.status
    && (Root(crs, c) || |c.owners| != 1 ==> objects[c.key].owners == c.owners)
    && (forall q :: q in crs && OwnedBy(c, q.uid) && |c.owners| == 1 ==>
          q.key in objects && objects[c.key].owners == [c.owners[0].(uid := objects[q.key].uid)])
  }

  ghost function OwnerUid(path: seq<CR>, objects: map<Key, CR>): Option<UID> {
    if |path| < 2 || path[|path| - 2].key !in objects then None else Some(objects[path[|path| - 2].key].uid)
  }

  /** Landing reaches the end of every chain. */
  lemma {:induction false} LandedAlong(crs: seq<CR>, path: seq<CR>, objects: map<Key, CR>)
    requires DistinctUids(crs) && Chain(crs, path) && path != []
    requires Landed(Forest(crs, []), None, objects)
    ensures LandedTree(Tree(path[|path| - 1], Forest(crs, path)), OwnerUid(path, objects), objects)
    ensures |path| > 1 ==> path[|path| - 2].key in objects
    decreases |path|
  {
    var front := path[..|path| - 1];
    var i := TreeAt(crs, path);
    if front == [] {
      assert LandedTree(Forest(crs, [])[i], None, objects);
    } else {
      LandedAlong(crs, front, objects);
      LandedKid(Tree(front[|front| - 1], Forest(crs, front)), i, OwnerUid(front, objects), objects);
    }
  }

  /** Where the last CR of a chain has its tree, below those before it. */
  lemma {:induction false} TreeAt(crs: seq<CR>, path: seq<CR>) returns (i: nat)
    requires DistinctUids(crs) && Chain(crs, path) && path != []
    ensures var front := path[..|path| - 1];
            && Chain(crs, front) && i < |Forest(crs, front)|
            && Forest(crs, front)[i] == Tree(path[|path| - 1], Forest(crs, path))
  {
    var front, c := path[..|path| - 1], path[|path| - 1];
    assert path == front + [c];
    BelowMembers(crs, front);
    i :| 0 <= i < |Below(crs, front)| && Below(crs, front)[i] == c;
    KidsOf(crs, front, i);
  }

  lemma {:induction false} LandedKid(t: Tree, i: nat, ownerUid: Option<UID>, objects: map<Key, CR>)
    requires LandedTree(t, ownerUid, objects) && i < |t.kids|
    ensures t.cr.key in objects && LandedTree(t.kids[i], Some(objects[t.cr.key].uid), objects)
  {
  }

  lemma {:induction false} LandedIsFaithful(crs: seq<CR>, objects: map<Key, CR>, c: CR)
    requires DistinctUids(crs) && Landed(Forest(crs, []), None, objects) && Rooted(crs, c)
    ensures FaithfulCopy(crs, c, objects)
  {
    var path: seq<CR> :| ChainTo(crs, path, c);
    LandedAlong(crs, path, objects);
    LongChain(crs, path, c);
    if |path| > 1 {
      var q := path[|path| - 2];
      assert OwnedBy(path[|path| - 1], q.uid) && q in crs;
      forall q' | q' in crs && OwnedBy(c, q'.uid) ensures q' == q {
        SameUid(crs, q, q');
      }
    }
  }

  // ----- cleanup -----

  /** The new deletions are the writes from number `mark` up to `n`, all of them and no others. */
  ghost predicate RemovedFrom(before: set<nat>, after: set<nat>, mark: nat, n: nat) {
    forall i :: i in after <==> i in before || mark <= i < n
  }

  /**
   * Deletes what was created. Every failed deletion leaves one object behind; without failures nothing is left. The
   * deletions are made in the order of creation.
   */
  method Cleanup(cl: Cluster, crs: seq<CR>, ghost base: map<Key, CR>) returns (errors: nat)
    requires cl.Valid() && Creates(base, cl.objects, crs)
    modifies cl
    ensures cl.Valid() && cl.faults >= old(cl.faults)
    ensures cl.objects.Keys <= base.Keys + Keys(crs) && |cl.objects.Keys - base.Keys| == errors
    ensures forall k :: k in base ==> k in cl.objects && cl.objects[k] == base[k]
    ensures errors == 0 ==> cl.objects == base
    ensures cl.faults >= old(cl.faults) + errors
    ensures old(cl.stages) <= cl.stages
    ensures RemovedFrom(old(cl.removals), cl.removals, |old(cl.stages)|, |cl.stages|)
    ensures errors == 0 ==> InOrder(base.Keys, crs, cl.stages[|old(cl.stages)|..], |crs|)
  {
    errors := 0;
    ghost var left: set<Key> := {};
    CleanStart(base, cl.objects, crs);
    for i := 0 to |crs|
      invariant cl.Valid() && cl.faults >= old(cl.faults) + errors
      invariant |left| == errors && CleanedUp(base, cl.objects, crs, i, left)
      invariant CleanStages(base.Keys, crs, i, old(cl.stages), cl.stages, left)
      invariant RemovedFrom(old(cl.removals), cl.removals, |old(cl.stages)|, |cl.stages|)
    {
      var ok;
      ok, left := DeleteNext(cl, crs, base, i, left, old(cl.stages));
      if !ok {
        errors := errors + 1;
      }
    }
    CleanAll(base, cl.objects, crs, left);
  }

  method DeleteNext(cl: Cluster, crs: seq<CR>, ghost base: map<Key, CR>, i: nat, ghost left: set<Key>,
                    ghost before: seq<set<Key>>)
    returns (ok: bool, ghost left': set<Key>)
    requires cl.Valid() && i < |crs| && DistinctKeys(crs) && CleanedUp(base, cl.objects, crs, i, left)
    requires CleanStages(base.Keys, crs, i, before, cl.stages, left)
    modifies cl
    ensures cl.Valid() && CleanedUp(base, cl.objects, crs, i + 1, left')
    ensures |left'| == |left| + if ok then 0 else 1
    ensures cl.faults >= old(cl.faults) + if ok then 0 else 1
    ensures CleanStages(base.Keys, crs, i + 1, before, cl.stages, left')
    ensures RemovedFrom(old(cl.removals), cl.removals, |old(cl.stages)|, |cl.stages|)
    ensures old(cl.stages) <= cl.stages
  {
    CleanNext(base, cl.objects, crs, i, left);
    OneStageLess(base, cl.objects - {crs[i].key}, crs, i, before, cl.stages, left);
    ok := cl.Delete(crs[i].key);
    left' := if ok then left else left + {crs[i].key};
  }

  /** The key sets left behind by deleting the first `i` of `crs` one after the other. */
  ghost predicate InOrder(base: set<Key>, crs: seq<CR>, stages: seq<set<Key>>, i: nat)
    requires i <= |crs|
  {
    |stages| == i && forall j :: 0 <= j < i ==> stages[j] == base + Keys(crs[j + 1..])
  }

  /** What the cleanup loop has recorded, `before` being what had been recorded when it started. */
  ghost predicate CleanStages(base: set<Key>, crs: seq<CR>, i: nat, before: seq<set<Key>>, stages: seq<set<Key>>,
                              left: set<Key>)
    requires i <= |crs|
  {
    && before <= stages
    && (left == {} ==> InOrder(base, crs, stages[|before|..], i))
  }

  lemma {:induction false} OneStageLess(base: map<Key, CR>, objects: map<Key, CR>, crs: seq<CR>, i: nat,
                                        before: seq<set<Key>>, stages: seq<set<Key>>, left: set<Key>)
    requires i < |crs| && CleanStages(base.Keys, crs, i, before, stages, left)
    requires CleanedUp(base, objects, crs, i + 1, left)
    ensures CleanStages(base.Keys, crs, i + 1, before, stages + [objects.Keys], left)
  {
    assert (stages + [objects.Keys])[|before|..] == stages[|before|..] + [objects.Keys];
  }

  /** Deleting in the order of creation takes owners away first: what they own is there without them for a while. */
  lemma {:induction false} RollbackOrphans(base: set<Key>, crs: seq<CR>, stages: seq<set<Key>>, i: nat, j: nat)
    requires DistinctKeys(crs) && InOrder(base, crs, stages, |crs|) && i < j < |crs| && crs[i].key !in base
    ensures crs[j].key in stages[i] && crs[i].key !in stages[i]
  {
    var rest := crs[i + 1..];
    KeysMembers(rest);
    assert rest[j - i - 1] == crs[j];
  }

  lemma {:induction false} CleanStart(base: map<Key, CR>, objects: map<Key, CR>, crs: seq<CR>)
    requires Creates(base, objects, crs)
    ensures CleanedUp(base, objects, crs, 0, {})
  {
    assert crs[0..] == crs;
    KeysMembers(crs);
  }

  /** The state of the cleanup loop: of the first `i` CRs, those in `left` could not be deleted. */
  ghost predicate CleanedUp(base: map<Key, CR>, objects: map<Key, CR>, crs: seq<CR>, i: nat, left: set<Key>)
    requires i <= |crs|
  {
    && left <= Keys(crs[..i]) && left !! base.Keys && Keys(crs[i..]) !! base.Keys
    && objects.Keys == base.Keys + left + Keys(crs[i..])
    && (forall k :: k in base ==> k in objects && objects[k] == base[k])
  }

  lemma {:induction false} CleanNext(base: map<Key, CR>, objects: map<Key, CR>, crs: seq<CR>, i: nat, left: set<Key>)
    requires i < |crs| && DistinctKeys(crs) && CleanedUp(base, objects, crs, i, left)
    ensures crs[i].key in objects && crs[i].key !in left
    ensures CleanedUp(base, objects - {crs[i].key}, crs, i + 1, left)
    ensures CleanedUp(base, objects, crs, i + 1, left + {crs[i].key})
    ensures |left + {crs[i].key}| == |left| + 1 && left + {crs[i].key} != {}
  {
    CleanupKeys(crs, i);
  }

  lemma {:induction false} CleanAll(base: map<Key, CR>, objects: map<Key, CR>, crs: seq<CR>, left: set<Key>)
    requires CleanedUp(base, objects, crs, |crs|, left)
    ensures objects.Keys <= base.Keys + Keys(crs) && objects.Keys - base.Keys == left
    ensures left == {} ==> objects == base
  {
    assert crs[|crs|..] == [] && Keys([]) == {};
    assert crs[..|crs|] == crs;
  }

  lemma {:induction false} CleanupKeys(crs: seq<CR>, i: nat)
    requires i < |crs| && DistinctKeys(crs)
    ensures Keys(crs[i..]) == Keys(crs[i + 1..]) + {crs[i].key} && crs[i].key !in Keys(crs[i + 1..])
    ensures Keys(crs[..i + 1]) == Keys(crs[..i]) + {crs[i].key} && crs[i].key !in Keys(crs[..i])
  {
    assert crs[i..] == [crs[i]] + crs[i + 1..];
    assert crs[..i + 1] == crs[..i] + [crs[i]];
    KeysOfSum([crs[i]], crs[i + 1..]);
    KeysOfSum(crs[..i], [crs[i]]);
    KeysMembers(crs[i + 1..]);
    KeysMembers(crs[..i]);
    assert Keys([crs[i]]) == {crs[i].key};
  }

  // ----- which CRs are to be moved -----

  /** The CRs of `source` that the target does not have, in order. */
  ghost function Missing(source: seq<CR>, present: set<Key>): seq<CR> {
    if source == [] then [] else
      var last := source[|source| - 1];
      Missing(source[..|source| - 1], present) + if last.key in present then [] else [last]
  }

  lemma {:induction false} MissingMembers(source: seq<CR>, present: set<Key>)
    ensures forall c :: c in Missing(source, present) <==> c in source && c.key !in present
    ensures DistinctUids(source) ==> DistinctUids(Missing(source, present))
    ensures DistinctKeys(source) ==> DistinctKeys(Missing(source, present))
  {
    if source != [] {
      var front, last := source[..|source| - 1], source[|source| - 1];
      assert source == front + [last];
      MissingMembers(front, present);
      DistinctSnoc(front, Missing(front, present), last);
      if DistinctKeys(source) {
        LastKeyIsNew(source, Missing(front, present));
      }
    }
  }

  lemma {:induction false} LastKeyIsNew(source: seq<CR>, some: seq<CR>)
    requires source != [] && DistinctKeys(source) && forall c :: c in some ==> c in source[..|source| - 1]
    ensures forall c :: c in some ==> c.key != source[|source| - 1].key
  {
    forall c | c in some ensures c.key != source[|source| - 1].key {
      var i :| 0 <= i < |source| - 1 && source[..|source| - 1][i] == c;
      assert source[i] == c;
    }
  }

  /** An object of the target that has the key of a source CR but differs from it in owners, content or status. */
  ghost predicate Conflict(source: seq<CR>, objects: map<Key, CR>) {
    exists c :: c in source && c.key in objects && !SameContent(c, objects[c.key])
  }

  lemma {:induction false} MissingNext(source: seq<CR>, i: nat, objects: map<Key, CR>)
    requires i < |source|
    ensures var c := source[i];
            && Missing(source[..i + 1], objects.Keys) ==
               Missing(source[..i], objects.Keys) + (if c.key in objects then [] else [c])
            && (Conflict(source[..i + 1], objects) <==>
                  Conflict(source[..i], objects) || (c.key in objects && !SameContent(c, objects[c.key])))
            && (c.key in objects && !SameContent(c, objects[c.key]) ==> Conflict(source, objects))
  {
    var next := source[..i + 1];
    assert next[..i] == source[..i] && next[i] == source[i];
    assert forall c :: c in next <==> c in next[..i] || c == next[i];
    assert source[i] in source;
  }

  method GetCrsToBeMoved(cl: Cluster, source: seq<CR>) returns (toMove: Option<seq<CR>>)
    requires cl.lagging == {}
    modifies cl`faults
    ensures cl.faults >= old(cl.faults)
    ensures toMove.Some? ==> toMove.value == Missing(source, cl.objects.Keys) && !Conflict(source, cl.objects)
    ensures toMove.None? ==> Conflict(source, cl.objects) || cl.faults > old(cl.faults)
  {
    var found := [];
    for i := 0 to |source|
      invariant cl.faults >= old(cl.faults)
      invariant found == Missing(source[..i], cl.objects.Keys) && !Conflict(source[..i], cl.objects)
    {
      MissingNext(source, i, cl.objects);
      var r := cl.Get(source[i].key);
      match r {
        case NotFound => found := found + [source[i]];
        case Failed => return None;
        case Found(targetCr) =>
          ClearFieldsIsContent(source[i], targetCr);
          if ClearFields(source[i]) != ClearFields(targetCr) {
            return None;
          }
      }
    }
    assert source[..|source|] == source;
    return Some(found);
  }

  // ----- Move -----

  datatype Outcome = Stopped | DryRun | RolledBack(errors: nat) | Completed

  /** No run of Move would create anything: each missing CR waits for an owner that is missing too. */
  ghost predicate NothingToMove(source: seq<CR>, present: set<Key>) {
    forall c :: c in Missing(source, present) ==> !Root(Missing(source, present), c)
  }

  lemma {:induction false} EmptyForest(source: seq<CR>, present: set<Key>)
    requires DistinctUids(Missing(source, present))
    ensures NothingToMove(source, present) <==> Forest(Missing(source, present), []) == []
  {
    var crs := Missing(source, present);
    NoRoots(crs, crs);
    assert |Forest(crs, [])| == |Below(crs, [])|;
  }

  lemma {:induction false} NoRoots(part: seq<CR>, crs: seq<CR>)
    ensures RootsOf(part, crs) == [] <==> forall c :: c in part ==> !Root(crs, c)
  {
    RootsOfMembers(part, crs);
    var roots := RootsOf(part, crs);
    if roots != [] {
      assert roots[0] in roots;
    }
  }

  /** After the forest has been created, what is still missing are the CRs it could not hold. */
  lemma {:induction false} MovedLeavesNothing(source: seq<CR>, before: set<Key>, after: set<Key>)
    requires DistinctUids(source) && DistinctKeys(source)
    requires DistinctUids(Missing(source, before))
    requires after == before + Keys(Order(Forest(Missing(source, before), [])))
    ensures NothingToMove(source, after)
    ensures forall c :: c in Missing(source, before) ==> (c.key in after <==> Rooted(Missing(source, before), c))
  {
    var crs, later := Missing(source, before), Missing(source, after);
    var order := Order(Forest(crs, []));
    MissingMembers(source, before);
    MissingMembers(source, after);
    ForestHoldsRooted(crs);
    KeysMembers(order);
    forall c | c in crs ensures c.key in after <==> Rooted(crs, c) {
      if c.key in after {
        var i :| 0 <= i < |order| && order[i].key == c.key;
        assert order[i] in order;
        RootedInside(crs, order[i]);
        assert order[i] == c;
      }
    }
    forall c | c in later ensures !Root(later, c) {
      assert c in crs && !Rooted(crs, c);
      var owner := UnrootedHasUnrootedOwner(crs, c);
      assert owner in later;
    }
  }

  lemma {:induction false} OwnersAtEveryStage(crs: seq<CR>, stages: seq<set<Key>>, base: set<Key>, n: nat)
    requires DistinctUids(crs) && DistinctKeys(crs) && n <= |Order(Forest(crs, []))|
    requires Staged(stages, base, Order(Forest(crs, [])), n) && forall c :: c in crs ==> c.key !in base
    ensures forall i, c, q ::
              (&& 0 <= i < |stages| && c in crs && q in crs && OwnedBy(c, q.uid)
               && c.key in stages[i]) ==> q.key in stages[i]
  {
    forall i, c, q | 0 <= i < |stages| && c in crs && q in crs && OwnedBy(c, q.uid) && c.key in stages[i]
      ensures q.key in stages[i]
    {
      StagesHoldOwners(crs, stages[i], base, n, c, q);
    }
  }

  /** Nothing the target has is in the way of the forest of what it misses. */
  lemma {:induction false} ForestFits(source: seq<CR>, present: set<Key>)
    requires DistinctKeys(source) && DistinctUids(Missing(source, present))
    ensures Fits(Order(Forest(Missing(source, present), [])), present)
  {
    var crs := Missing(source, present);
    var order := Order(Forest(crs, []));
    MissingMembers(source, present);
    ForestHoldsRooted(crs);
    forall c | c in order ensures c in crs {
      RootedInside(crs, c);
    }
    forall i, j | 0 <= i < j < |order| ensures order[i].key != order[j].key {
      assert order[i] in crs && order[j] in crs;
    }
  }

  lemma {:induction false} RootedKeys(crs: seq<CR>)
    requires DistinctUids(crs)
    ensures Keys(Order(Forest(crs, []))) == set c | c in crs && Rooted(crs, c) :: c.key
  {
    var order := Order(Forest(crs, []));
    ForestHoldsRooted(crs);
    KeysMembers(order);
    forall k ensures k in Keys(order) <==> k in set c | c in crs && Rooted(crs, c) :: c.key {
      if k in Keys(order) {
        var i :| 0 <= i < |order| && order[i].key == k;
        assert order[i] in order;
        RootedInside(crs, order[i]);
      }
    }
  }

  /** A completed move: exactly the CRs whose owner chain leaves the set are there, each a faithful copy. */
  ghost predicate AllMoved(crs: seq<CR>, present: set<Key>, objects: map<Key, CR>) {
    && objects.Keys == present + (set c | c in crs && Rooted(crs, c) :: c.key)
    && (forall c :: c in crs && Rooted(crs, c) ==> FaithfulCopy(crs, c, objects))
  }

  lemma {:induction false} AllLanded(crs: seq<CR>, present: set<Key>, objects: map<Key, CR>)
    requires DistinctUids(crs) && Landed(Forest(crs, []), None, objects)
    requires objects.Keys == present + Keys(Order(Forest(crs, [])))
    ensures AllMoved(crs, present, objects)
  {
    RootedKeys(crs);
    forall c | c in crs && Rooted(crs, c) ensures FaithfulCopy(crs, c, objects) {
      LandedIsFaithful(crs, objects, c);
    }
  }

  /**
   * The whole command against a target that no one else writes to. `mark` is the number of writes recorded before
   * any cleanup started.
   */
  method Move(cl: Cluster, source: seq<CR>, dryRun: bool, polls: nat) returns (r: Outcome, ghost mark: nat)
    requires cl.Valid() && cl.lagging == {} && polls > 0
    requires DistinctUids(source) && DistinctKeys(source)
    modifies cl
    ensures cl.Valid() && cl.faults >= old(cl.faults)
    // objects that were there before are never changed, and a failed move takes back what it created
    ensures Restored(old(cl.objects), cl.objects, r)
    ensures r.Stopped? || r.DryRun? ==> cl.objects == old(cl.objects) && cl.stages == old(cl.stages)
    // success moves exactly the CRs whose owner chain leaves the set, faithfully, and leaves nothing to move
    ensures r.Completed? ==>
              && AllMoved(Missing(source, old(cl.objects).Keys), old(cl.objects).Keys, cl.objects)
              && NothingToMove(source, cl.objects.Keys) && !Conflict(source, old(cl.objects))
    // until a cleanup starts, owners precede what they own; from then on, and not before, there are only deletions
    ensures |old(cl.stages)| <= mark <= |cl.stages| && (r.Completed? ==> mark == |cl.stages|)
    ensures RemovedFrom(old(cl.removals), cl.removals, mark, |cl.stages|)
    ensures OwnersPresent(Missing(source, old(cl.objects).Keys), cl.stages[|old(cl.stages)|..mark])
    // with nothing to move, nothing is written
    ensures NothingToMove(source, old(cl.objects).Keys) ==>
              cl.objects == old(cl.objects) && cl.stages == old(cl.stages) && !r.RolledBack?
    // without faults the command stops only on a conflict
    ensures cl.faults == old(cl.faults) ==>
              r == if Conflict(source, old(cl.objects)) then Stopped else if dryRun then DryRun else Completed
  {
    mark := |cl.stages|;
    var selected := GetCrsToBeMoved(cl, source);
    if selected.None? {
      return Stopped, mark;
    }
    if dryRun {
      return DryRun, mark;
    }
    r, mark := MoveMissing(cl, selected.value, source, polls);
  }

  /** Every object in one of these key sets has its owner there too. */
  ghost predicate OwnersPresent(crs: seq<CR>, stages: seq<set<Key>>) {
    forall i, c, q ::
      (&& 0 <= i < |stages| && c in crs && q in crs && OwnedBy(c, q.uid)
       && c.key in stages[i]) ==> q.key in stages[i]
  }

  /** The part of Move after the selection: build the forest, create it, roll back on failure. */
  method MoveMissing(cl: Cluster, crs: seq<CR>, ghost source: seq<CR>, polls: nat) returns (r: Outcome, ghost mark: nat)
    requires cl.Valid() && polls > 0 && DistinctUids(source) && DistinctKeys(source)
    requires crs == Missing(source, cl.objects.Keys)
    modifies cl
    ensures cl.Valid() && cl.faults >= old(cl.faults)
    ensures r.Completed? || r.RolledBack?
    ensures Restored(old(cl.objects), cl.objects, r)
    ensures r.RolledBack? ==> cl.faults > old(cl.faults)
    ensures r.Completed? ==> AllMoved(crs, old(cl.objects).Keys, cl.objects) && NothingToMove(source, cl.objects.Keys)
    ensures |old(cl.stages)| <= mark <= |cl.stages| && (r.Completed? ==> mark == |cl.stages|)
    ensures OwnersPresent(crs, cl.stages[|old(cl.stages)|..mark])
    ensures RemovedFrom(old(cl.removals), cl.removals, mark, |cl.stages|)
    ensures NothingToMove(source, old(cl.objects).Keys) ==>
              r.Completed? && cl.objects == old(cl.objects) && cl.stages == old(cl.stages)
  {
    ghost var base := cl.objects;
    MissingMembers(source, base.Keys);
    var roots, repr := BuildForest(crs);
    ghost var n;
    r, n, mark := MoveForest(cl, roots, polls, Forest(crs, []), repr);
    Afterwards(source, crs, base, cl.objects, r, cl.stages[|old(cl.stages)|..mark], n);
  }

  lemma {:induction false} Afterwards(source: seq<CR>, crs: seq<CR>, base: map<Key, CR>, objects: map<Key, CR>,
                                      r: Outcome, stages: seq<set<Key>>, n: nat)
    requires DistinctUids(source) && DistinctKeys(source) && DistinctUids(crs) && crs == Missing(source, base.Keys)
    requires n <= |Order(Forest(crs, []))| && Staged(stages, base.Keys, Order(Forest(crs, [])), n)
    requires r.Completed? ==>
               && Landed(Forest(crs, []), None, objects)
               && objects.Keys == base.Keys + Keys(Order(Forest(crs, [])))
    requires Restored(base, objects, r)
    ensures Fits(Order(Forest(crs, [])), base.Keys)
    ensures r.Completed? ==> AllMoved(crs, base.Keys, objects) && NothingToMove(source, objects.Keys)
    ensures OwnersPresent(crs, stages)
    ensures NothingToMove(source, base.Keys) ==> Forest(crs, []) == [] && (r.Completed? ==> objects == base)
  {
    MissingMembers(source, base.Keys);
    ForestFits(source, base.Keys);
    OwnersAtEveryStage(crs, stages, base.Keys, n);
    EmptyForest(source, base.Keys);
    if r.Completed? {
      AfterSuccess(source, crs, base, objects);
    }
  }

  lemma {:induction false} AfterSuccess(source: seq<CR>, crs: seq<CR>, base: map<Key, CR>, objects: map<Key, CR>)
    requires DistinctUids(source) && DistinctKeys(source) && DistinctUids(crs) && crs == Missing(source, base.Keys)
    requires Landed(Forest(crs, []), None, objects)
    requires objects.Keys == base.Keys + Keys(Order(Forest(crs, [])))
    requires forall k :: k in base ==> k in objects && objects[k] == base[k]
    ensures AllMoved(crs, base.Keys, objects) && NothingToMove(source, objects.Keys)
    ensures Forest(crs, []) == [] ==> objects == base
  {
    AllLanded(crs, base.Keys, objects);
    MovedLeavesNothing(source, base.Keys, objects.Keys);
    if Forest(crs, []) == [] {
      assert Order([]) == [] && Keys([]) == {};
    }
  }

  method BuildForest(crs: seq<CR>) returns (roots: seq<Node>, ghost repr: set<Node>)
    requires DistinctUids(crs)
    ensures Models(roots, Forest(crs, []), repr) && fresh(repr)
  {
    ghost var nodes;
    roots, nodes := OwnerReferenceTrees(crs);
    GraphModelsForest(crs, roots, nodes, []);
    repr := nodes.Values;
  }

  /** Creates the forest and takes it back when that fails. */
  method MoveForest(cl: Cluster, roots: seq<Node>, polls: nat, ghost trees: seq<Tree>, ghost repr: set<Node>)
    returns (r: Outcome, ghost n: nat, ghost mark: nat)
    requires cl.Valid() && polls > 0 && Models(roots, trees, repr)
    modifies cl
    ensures cl.Valid() && cl.faults >= old(cl.faults)
    ensures r.Completed? || r.RolledBack?
    ensures Restored(old(cl.objects), cl.objects, r)
    ensures r.RolledBack? && Fits(Order(trees), old(cl.objects).Keys) ==> cl.faults > old(cl.faults)
    ensures n <= |Order(trees)|
    ensures r.Completed? ==>
              && Landed(trees, None, cl.objects)
              && cl.objects.Keys == old(cl.objects).Keys + Keys(Order(trees))
    ensures |old(cl.stages)| <= mark <= |cl.stages| && (r.Completed? ==> mark == |cl.stages|)
    ensures RemovedFrom(old(cl.removals), cl.removals, mark, |cl.stages|)
    ensures Staged(cl.stages[|old(cl.stages)|..mark], old(cl.objects).Keys, Order(trees), n)
    ensures trees == [] ==> r.Completed? && cl.stages == old(cl.stages)
  {
    var moved, ok := MoveCrs(cl, roots, None, polls, trees, repr);
    n, mark := |moved|, |cl.stages|;
    if ok {
      AllCreated(old(cl.objects), cl.objects, moved, Order(trees));
      r := Completed;
    } else {
      r := RollBack(cl, moved, old(cl.objects));
    }
  }

  lemma {:induction false} AllCreated(before: map<Key, CR>, after: map<Key, CR>, moved: seq<CR>, order: seq<CR>)
    requires Creates(before, after, moved) && PrefixOf(moved, order) && |moved| == |order|
    ensures after.Keys == before.Keys + Keys(order) && Restored(before, after, Completed)
  {
    StageOf(before.Keys, order, moved);
    assert order[..|moved|] == order;
  }

  method RollBack(cl: Cluster, moved: seq<CR>, ghost base: map<Key, CR>) returns (r: Outcome)
    requires cl.Valid() && Creates(base, cl.objects, moved)
    modifies cl
    ensures cl.Valid() && cl.faults >= old(cl.faults)
    ensures old(cl.stages) <= cl.stages
    ensures RemovedFrom(old(cl.removals), cl.removals, |old(cl.stages)|, |cl.stages|)
    ensures r.RolledBack? && Restored(base, cl.objects, r)
  {
    var errors := Cleanup(cl, moved, base);
    r := RolledBack(errors);
  }

  /** What was there is unchanged; a rollback leaves as many other objects as there were failed deletions. */
  ghost predicate Restored(before: map<Key, CR>, after: map<Key, CR>, r: Outcome) {
    && (forall k :: k in before ==> k in after && after[k] == before[k])
    && (r.RolledBack? ==> |after.Keys - before.Keys| == r.errors)
    && (r == RolledBack(0) ==> after == before)
  }

  // ----- running the command again -----

  /** A moved CR whose one owner reference had to change, because its owner got a new UID. */
  ghost predicate ReferenceChanged(crs: seq<CR>, objects: map<Key, CR>) {
    exists c, q ::
      && c in crs && q in crs && Rooted(crs, c) && OwnedBy(c, q.uid) && |c.owners| == 1
      && q.key in objects && objects[q.key].uid != q.uid
  }

  /** After a successful move, source and target agree up to the cleared fields except where a reference changed. */
  lemma {:induction false} ConflictAfterMove(source: seq<CR>, before: map<Key, CR>, after: map<Key, CR>)
    requires DistinctUids(source) && DistinctKeys(source) && !Conflict(source, before)
    requires AllMoved(Missing(source, before.Keys), before.Keys, after)
    requires forall k :: k in before ==> k in after && after[k] == before[k]
    requires forall k :: k in after ==> after[k].key == k
    ensures Conflict(source, after) <==> ReferenceChanged(Missing(source, before.Keys), after)
  {
    ConflictIsReference(source, before, after);
    ReferenceIsConflict(source, before, after);
  }

  lemma {:induction false} ConflictIsReference(source: seq<CR>, before: map<Key, CR>, after: map<Key, CR>)
    requires DistinctUids(source) && DistinctKeys(source) && !Conflict(source, before)
    requires AllMoved(Missing(source, before.Keys), before.Keys, after)
    requires forall k :: k in before ==> k in after && after[k] == before[k]
    requires forall k :: k in after ==> after[k].key == k
    ensures Conflict(source, after) ==> ReferenceChanged(Missing(source, before.Keys), after)
  {
    var crs := Missing(source, before.Keys);
    MissingMembers(source, before.Keys);
    if c :| c in source && c.key in after && !SameContent(c, after[c.key]) {
      assert c.key !in before;
      var d :| d in crs && Rooted(crs, d) && d.key == c.key;
      SameKey(source, c, d);
      CopyDiffers(crs, c, after);
    }
  }

  lemma {:induction false} CopyDiffers(crs: seq<CR>, c: CR, objects: map<Key, CR>)
    requires c in crs && Rooted(crs, c) && FaithfulCopy(crs, c, objects) && objects[c.key].key == c.key
    requires !SameContent(c, objects[c.key])
    ensures ReferenceChanged(crs, objects)
  {
    SameOwnersSameContent(c, objects[c.key]);
    var q :| q in crs && OwnedBy(c, q.uid);
    assert objects[q.key].uid != q.uid;
  }

  lemma {:induction false} SameKey(source: seq<CR>, a: CR, b: CR)
    requires DistinctKeys(source) && a in source && b in source && a.key == b.key
    ensures a == b
  {
  }

  lemma {:induction false} ReferenceIsConflict(source: seq<CR>, before: map<Key, CR>, after: map<Key, CR>)
    requires AllMoved(Missing(source, before.Keys), before.Keys, after)
    ensures ReferenceChanged(Missing(source, before.Keys), after) ==> Conflict(source, after)
  {
    var crs := Missing(source, before.Keys);
    MissingMembers(source, before.Keys);
    if ReferenceChanged(crs, after) {
      var c, q :|
        && c in crs && q in crs && Rooted(crs, c) && OwnedBy(c, q.uid) && |c.owners| == 1
        && q.key in after && after[q.key].uid != q.uid;
      assert FaithfulCopy(crs, c, after);
      assert after[c.key].owners != c.owners;
    }
  }

  lemma {:induction false} SameOwnersSameContent(a: CR, b: CR)
    requires a.key == b.key && a.body == b.body && a.status == b.status
    ensures a.owners == b.owners ==> SameContent(a, b)
  {
  }

  /**
   * A run after a successful one creates, changes and deletes nothing. `before` is the target before the successful
   * run, and what is required is what Move promises of such a run. Without faults the later run reports an error
   * exactly when the earlier one had to change an owner reference.
   */
  method MoveAgain(cl: Cluster, source: seq<CR>, dryRun: bool, polls: nat, ghost before: map<Key, CR>)
    returns (r: Outcome)
    requires cl.Valid() && polls > 0
    requires DistinctUids(source) && DistinctKeys(source) && !Conflict(source, before)
    requires AllMoved(Missing(source, before.Keys), before.Keys, cl.objects)
    requires forall k :: k in before ==> k in cl.objects && cl.objects[k] == before[k]
    modifies cl
    ensures cl.Valid() && cl.faults >= old(cl.faults)
    ensures cl.objects == old(cl.objects) && cl.stages == old(cl.stages) && !r.RolledBack?
    ensures cl.faults == old(cl.faults) ==>
              r == if ReferenceChanged(Missing(source, before.Keys), cl.objects) then Stopped
                   else if dryRun then DryRun else Completed
  {
    ConflictAfterMove(source, before, cl.objects);
    NothingLeft(source, before.Keys, cl.objects);
    cl.Settle();
    ghost var mark;
    r, mark := Move(cl, source, dryRun, polls);
  }

  lemma {:induction false} NothingLeft(source: seq<CR>, before: set<Key>, objects: map<Key, CR>)
    requires DistinctUids(source) && DistinctKeys(source) && AllMoved(Missing(source, before), before, objects)
    ensures NothingToMove(source, objects.Keys)
  {
    MissingMembers(source, before);
    RootedKeys(Missing(source, before));
    MovedLeavesNothing(source, before, objects.Keys);
  }

  /** After a successful run and another one, everything is still as a successful run promises. */
  method MoveTwice(cl: Cluster, source: seq<CR>, polls: nat) returns (first: Outcome, second: Outcome)
    requires cl.Valid() && cl.lagging == {} && polls > 0
    requires DistinctUids(source) && DistinctKeys(source)
    modifies cl
    ensures Restored(old(cl.objects), cl.objects, first)
    ensures first.Completed? ==>
              AllMoved(Missing(source, old(cl.objects).Keys), old(cl.objects).Keys, cl.objects) && !second.RolledBack?
    ensures !first.Completed? ==> second == first
    ensures first.Completed? && cl.faults == old(cl.faults) ==>
              second == if ReferenceChanged(Missing(source, old(cl.objects).Keys), cl.objects) then Stopped
                        else Completed
  {
    ghost var mark;
    first, mark := Move(cl, source, false, polls);
    second := first;
    if first.Completed? {
      second := MoveAgain(cl, source, false, polls, old(cl.objects));
    }
  }

  // ----- an ownership cycle -----

  /** Two CRs that own each other are left behind by a move that has nothing else to do. */
  lemma {:induction false} CycleStaysBehind(a: CR, b: CR, present: set<Key>)
    requires a.uid != b.uid && a.key != b.key && OwnedBy(a, b.uid) && OwnedBy(b, a.uid)
    requires a.key !in present && b.key !in present
    ensures Missing([a, b], present) == [a, b] && NothingToMove([a, b], present)
    ensures !Rooted([a, b], a) && !Rooted([a, b], b)
  {
    var crs := [a, b];
    BothMissing(a, b, present);
    assert a in crs && b in crs;
    assert !Root(crs, a) && !Root(crs, b);
    forall path: seq<CR> ensures path != [] ==> !Chain(crs, path) {
    }
  }

  lemma {:induction false} BothMissing(a: CR, b: CR, present: set<Key>)
    requires a.key !in present && b.key !in present
    ensures Missing([a, b], present) == [a, b]
  {
    assert [a, b][..1] == [a] && [a][..0] == [];
    assert Missing([a], present) == [a];
  }
}
