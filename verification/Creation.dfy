/** moveCrs: create the forest level by level, copy status, and keep account of what was created. */
module Creation {
  import opened Options
  import opened Resources
  import opened OwnerForest

  // ----- what a successful and a failed move mean -----

  /** Owner references of a created CR: rewritten only when there is exactly one and the owner was moved. */
  function Rewritten(owners: seq<OwnerRef>, ownerUid: Option<UID>): seq<OwnerRef> {
    if |owners| == 1 && ownerUid.Some? then [owners[0].(uid := ownerUid.value)] else owners
  }

  /** The objects `after` are those `before`, unchanged, and one new object for each of `moved`. */
  ghost predicate Creates(before: map<Key, CR>, after: map<Key, CR>, moved: seq<CR>) {
    && DistinctKeys(moved)
    && (forall c :: c in moved ==> c.key !in before)
    && after.Keys == before.Keys + Keys(moved)
    && (forall k :: k in before ==> after[k] == before[k])
  }

  ghost predicate PrefixOf(moved: seq<CR>, order: seq<CR>) {
    |moved| <= |order| && forall j :: 0 <= j < |moved| ==> moved[j].key == order[j].key
  }

  /** The keys present after the first `p` CRs of `order` have been created. */
  ghost function Stage(base: set<Key>, order: seq<CR>, p: nat): set<Key>
    requires p <= |order|
  {
    base + Keys(order[..p])
  }

  ghost predicate IsStage(keys: set<Key>, base: set<Key>, order: seq<CR>, n: nat)
    requires n <= |order|
  {
    exists p: nat :: p <= n && keys == Stage(base, order, p)
  }

  /** Every one of these recorded key sets is a stage of the creation order. */
  ghost predicate Staged(stages: seq<set<Key>>, base: set<Key>, order: seq<CR>, n: nat)
    requires n <= |order|
  {
    forall q :: 0 <= q < |stages| ==> IsStage(stages[q], base, order, n)
  }

  /** `o` is `cr` as created under the owner `ownerUid`. */
  predicate CreatedAs(o: CR, cr: CR, ownerUid: Option<UID>) {
    o.key == cr.key && o.owners == Rewritten(cr.owners, ownerUid) && o.body == cr.body
  }

  /** Every CR of the forest is present with its status, and refers to its owner's new UID. */
  ghost predicate Landed(trees: seq<Tree>, ownerUid: Option<UID>, objects: map<Key, CR>) {
    forall i :: 0 <= i < |trees| ==> LandedTree(trees[i], ownerUid, objects)
  }

  ghost predicate LandedTree(t: Tree, ownerUid: Option<UID>, objects: map<Key, CR>) {
    && t.cr.key in objects
    && CreatedAs(objects[t.cr.key], t.cr, ownerUid)
    && objects[t.cr.key].status == t.cr.status
    && forall i :: 0 <= i < |t.kids| ==> LandedTree(t.kids[i], Some(objects[t.cr.key].uid), objects)
  }

  lemma {:induction false} LandedTreeFrame(t: Tree, ownerUid: Option<UID>, m: map<Key, CR>, m': map<Key, CR>)
    requires LandedTree(t, ownerUid, m)
    requires t.cr.key in m' && m'[t.cr.key] == m[t.cr.key]
    requires forall c :: c in Order(t.kids) ==> c.key in m && c.key in m' && m'[c.key] == m[c.key]
    ensures LandedTree(t, ownerUid, m')
  {
    forall i | 0 <= i < |t.kids| ensures LandedTree(t.kids[i], Some(m'[t.cr.key].uid), m') {
      TopsAt(t.kids);
      DeeperMembers(t.kids);
      assert Tops(t.kids)[i] in Order(t.kids);
      LandedTreeFrame(t.kids[i], Some(m[t.cr.key].uid), m, m');
    }
  }

  // ----- bookkeeping lemmas -----

  lemma {:induction false} CreatesOne(before: map<Key, CR>, mid: map<Key, CR>, moved: seq<CR>, c: CR)
    requires Creates(before, mid, moved) && c.key !in mid
    ensures Creates(before, mid[c.key := c], moved + [c])
  {
    KeysOfSum(moved, [c]);
    KeysMembers(moved);
    assert Keys([c]) == {c.key};
  }

  lemma {:induction false} CreatesMore(before: map<Key, CR>, mid: map<Key, CR>, after: map<Key, CR>, moved: seq<CR>,
                                       more: seq<CR>, k: Key)
    requires Creates(before, mid, moved) && k in Keys(moved) && k in after
    requires Creates(mid[k := after[k]], after, more)
    ensures Creates(before, after, moved + more)
  {
    KeysOfSum(moved, more);
    var mid' := mid[k := after[k]];
    assert mid'.Keys == mid.Keys;
    KeysMembers(moved);
    assert DistinctKeys(moved + more) by {
      var s := moved + more;
      forall i, j | 0 <= i < j < |s| ensures s[i].key != s[j].key {
        if i < |moved| <= j {
          assert s[i] in moved && s[j] in more;
        }
      }
    }
    forall b | b in before ensures after[b] == before[b] {
      assert b != k;
      assert b in mid';
    }
  }

  lemma {:induction false} DeeperPrefix(trees: seq<Tree>, i: nat)
    requires i <= |trees|
    ensures Deeper(trees[..i]) <= Deeper(trees)
    decreases |trees|
  {
    if i < |trees| {
      var front := trees[..|trees| - 1];
      assert front[..i] == trees[..i];
      DeeperPrefix(front, i);
    } else {
      assert trees[..i] == trees;
    }
  }

  /** Where the `i`-th tree's descendants stand in the creation order. */
  lemma {:induction false} OrderAt(trees: seq<Tree>, i: nat)
    requires i < |trees|
    ensures var done := Tops(trees) + Deeper(trees[..i]);
            && done <= Order(trees)
            && done + Order(trees[i].kids) <= Order(trees)
            && done + Order(trees[i].kids) == Tops(trees) + Deeper(trees[..i + 1])
  {
    DeeperPrefix(trees, i);
    DeeperPrefix(trees, i + 1);
    DeeperSnoc(trees, i);
    PrefixBehind(Tops(trees), Deeper(trees[..i]), Order(trees[i].kids), Deeper(trees));
  }

  lemma {:induction false} DeeperSnoc(trees: seq<Tree>, i: nat)
    requires i < |trees|
    ensures Deeper(trees[..i + 1]) == Deeper(trees[..i]) + Order(trees[i].kids)
  {
    assert trees[..i + 1][..i] == trees[..i];
  }

  lemma {:induction false} PrefixBehind(a: seq<CR>, b: seq<CR>, c: seq<CR>, d: seq<CR>)
    requires b + c <= d
    ensures a + b <= a + d && a + b + c <= a + d && a + b + c == a + (b + c)
  {
  }

  lemma {:induction false} StageOf(base: set<Key>, order: seq<CR>, moved: seq<CR>)
    requires PrefixOf(moved, order)
    ensures Stage(base, order, |moved|) == base + Keys(moved)
  {
    KeysMembers(order[..|moved|]);
    KeysMembers(moved);
    assert Keys(order[..|moved|]) == Keys(moved);
  }

  lemma {:induction false} StagedLater(stages: seq<set<Key>>, base: set<Key>, order: seq<CR>, n: nat, done: seq<CR>,
                                       sub: seq<CR>, m: nat)
    requires n == |done| && done + sub <= order && m <= |sub|
    requires Staged(stages, Stage(base, order, n), sub, m)
    ensures Staged(stages, base, order, n + m)
  {
    forall q | 0 <= q < |stages| ensures IsStage(stages[q], base, order, n + m) {
      var p: nat :| p <= m && stages[q] == Stage(Stage(base, order, n), sub, p);
      assert order[..n + p] == order[..n] + sub[..p];
      KeysOfSum(order[..n], sub[..p]);
      assert stages[q] == Stage(base, order, n + p);
    }
  }

  lemma {:induction false} StagedConcat(a: seq<set<Key>>, b: seq<set<Key>>, base: set<Key>, order: seq<CR>, n: nat,
                                        m: nat)
    requires n <= m <= |order| && Staged(a, base, order, n) && Staged(b, base, order, m)
    ensures Staged(a + b, base, order, m)
  {
    forall q | 0 <= q < |a| ensures IsStage(a[q], base, order, m) {
      var p: nat :| p <= n && a[q] == Stage(base, order, p);
      assert p <= m;
    }
  }

  /** Nothing in the way of creating `order`: its keys differ and none is taken. */
  ghost predicate Fits(order: seq<CR>, base: set<Key>) {
    DistinctKeys(order) && forall c :: c in order ==> c.key !in base
  }

  lemma {:induction false} FitsNext(order: seq<CR>, base: set<Key>, p: nat)
    requires Fits(order, base) && p < |order|
    ensures order[p].key !in Stage(base, order, p)
  {
    KeysMembers(order[..p]);
  }

  lemma {:induction false} FitsLater(order: seq<CR>, base: set<Key>, done: seq<CR>, sub: seq<CR>)
    requires Fits(order, base) && done + sub <= order
    ensures Fits(sub, Stage(base, order, |done|))
  {
    assert forall j :: 0 <= j < |sub| ==> sub[j] == order[|done| + j];
    KeysMembers(order[..|done|]);
  }

  // ----- moveCrs -----

  /** The first loop of moveCrs: create one level of CRs, stopping at the first failure. */
  method CreateLevel(cl: Cluster, nodes: seq<Node>, ownerUid: Option<UID>, ghost trees: seq<Tree>,
                     ghost repr: set<Node>)
    returns (moved: seq<CR>, ok: bool)
    requires cl.Valid() && Models(nodes, trees, repr)
    modifies cl
    ensures cl.Valid() && cl.faults >= old(cl.faults) && cl.removals == old(cl.removals)
    ensures Creates(old(cl.objects), cl.objects, moved)
    ensures PrefixOf(moved, Tops(trees)) && |Tops(trees)| == |trees| && (ok ==> |moved| == |trees|)
    ensures forall j :: 0 <= j < |moved| ==>
                          && moved[j].key in cl.objects && cl.objects[moved[j].key] == moved[j]
                          && CreatedAs(moved[j], trees[j].cr, ownerUid) && moved[j].status == None
    ensures old(cl.stages) <= cl.stages
    ensures Staged(cl.stages[|old(cl.stages)|..], old(cl.objects).Keys, Tops(trees), |moved|)
    ensures !ok && cl.faults == old(cl.faults) ==> !Fits(Tops(trees), old(cl.objects).Keys)
    ensures trees == [] ==> ok && cl.stages == old(cl.stages)
  {
    TopsAt(trees);
    ghost var base := cl.objects;
    moved := [];
    for i := 0 to |nodes|
      invariant cl.Valid() && cl.faults >= old(cl.faults) && cl.removals == old(cl.removals)
      invariant |moved| == i && LevelDone(base, cl.objects, moved, trees, ownerUid)
      invariant old(cl.stages) <= cl.stages
      invariant Staged(cl.stages[|old(cl.stages)|..], base.Keys, Tops(trees), i)
      invariant i == 0 ==> cl.stages == old(cl.stages)
    {
      var created := CreateOne(cl, nodes[i].cr, ownerUid, moved, base, |old(cl.stages)|, trees);
      if created.None? {
        return moved, false;
      }
      moved := moved + [created.value];
    }
    ok := true;
  }

  method CreateOne(cl: Cluster, cr: CR, ownerUid: Option<UID>, ghost moved: seq<CR>, ghost base: map<Key, CR>,
                   ghost mark: nat, ghost trees: seq<Tree>)
    returns (created: Option<CR>)
    requires cl.Valid() && |moved| < |trees| && trees[|moved|].cr == cr
    requires LevelDone(base, cl.objects, moved, trees, ownerUid)
    requires mark <= |cl.stages| && Staged(cl.stages[mark..], base.Keys, Tops(trees), |moved|)
    modifies cl
    ensures cl.Valid() && cl.faults >= old(cl.faults) && cl.removals == old(cl.removals)
    ensures created.None? ==> cl.objects == old(cl.objects) && cl.stages == old(cl.stages)
    ensures created.None? && cl.faults == old(cl.faults) ==> !Fits(Tops(trees), base.Keys)
    ensures created.Some? ==> LevelDone(base, cl.objects, moved + [created.value], trees, ownerUid)
    ensures created.Some? ==>
              old(cl.stages) <= cl.stages && Staged(cl.stages[mark..], base.Keys, Tops(trees), |moved| + 1)
  {
    ghost var stages := cl.stages;
    LevelFits(base, cl.objects, moved, trees, ownerUid);
    created := cl.Create(cr.(owners := Rewritten(cr.owners, ownerUid), resourceVersion := 0));
    if created.Some? {
      LevelNext(base, old(cl.objects), moved, created.value, trees, ownerUid);
      assert cl.stages[mark..] == stages[mark..] + [cl.objects.Keys];
      StagedConcat(stages[mark..], [cl.objects.Keys], base.Keys, Tops(trees), |moved|, |moved| + 1);
    }
  }

  /** The state of the first loop: the first CRs of the level have been created as they should. */
  ghost predicate LevelDone(base: map<Key, CR>, objects: map<Key, CR>, moved: seq<CR>, trees: seq<Tree>,
                            ownerUid: Option<UID>)
  {
    && Creates(base, objects, moved)
    && |Tops(trees)| == |trees| && PrefixOf(moved, Tops(trees))
    && forall j :: 0 <= j < |moved| ==>
                     && moved[j].key in objects && objects[moved[j].key] == moved[j]
                     && CreatedAs(moved[j], trees[j].cr, ownerUid) && moved[j].status == None
  }

  lemma {:induction false} LevelNext(base: map<Key, CR>, before: map<Key, CR>, moved: seq<CR>, c: CR,
                                     trees: seq<Tree>, ownerUid: Option<UID>)
    requires LevelDone(base, before, moved, trees, ownerUid) && |moved| < |trees|
    requires c.key !in before && CreatedAs(c, trees[|moved|].cr, ownerUid) && c.status == None
    ensures LevelDone(base, before[c.key := c], moved + [c], trees, ownerUid)
    ensures IsStage(before[c.key := c].Keys, base.Keys, Tops(trees), |moved| + 1)
  {
    TopsAt(trees);
    CreatesOne(base, before, moved, c);
    StageOf(base.Keys, Tops(trees), moved + [c]);
    assert before[c.key := c].Keys == Stage(base.Keys, Tops(trees), |moved| + 1);
  }

  lemma {:induction false} LevelFits(base: map<Key, CR>, before: map<Key, CR>, moved: seq<CR>, trees: seq<Tree>,
                                     ownerUid: Option<UID>)
    requires LevelDone(base, before, moved, trees, ownerUid) && |moved| < |trees|
    ensures Fits(Tops(trees), base.Keys) ==> trees[|moved|].cr.key !in before
  {
    TopsAt(trees);
    StageOf(base.Keys, Tops(trees), moved);
    if Fits(Tops(trees), base.Keys) {
      FitsNext(Tops(trees), base.Keys, |moved|);
    }
  }

  /** The source CR's status replaces the target's; a source without status needs no call. */
  method CopyStatus(cl: Cluster, source: CR, target: CR) returns (ok: bool)
    requires cl.Valid() && target.key in cl.objects && cl.objects[target.key] == target
    modifies cl
    ensures cl.Valid() && cl.faults >= old(cl.faults) && cl.removals == old(cl.removals)
    ensures cl.objects.Keys == old(cl.objects).Keys
    ensures target.key in cl.objects && cl.objects == old(cl.objects)[target.key := cl.objects[target.key]]
    ensures var o := cl.objects[target.key];
            o.uid == target.uid && o.key == target.key && o.owners == target.owners && o.body == target.body
    ensures ok ==> cl.objects[target.key].status == if source.status.Some? then source.status else target.status
    ensures old(cl.stages) <= cl.stages
    ensures forall q :: |old(cl.stages)| <= q < |cl.stages| ==> cl.stages[q] == old(cl.objects).Keys
    ensures !ok ==> cl.faults > old(cl.faults)
  {
    if source.status.None? {
      return true;
    }
    ok := cl.UpdateStatus(target.(status := source.status));
    if ok {
      assert cl.objects.Keys == old(cl.objects).Keys;
    }
  }

  /** Polls for the created CR; `polls` attempts fit in the poll timeout. */
  method Await(cl: Cluster, key: Key, polls: nat) returns (cr: Option<CR>)
    requires key in cl.objects
    modifies cl`faults
    ensures cl.faults >= old(cl.faults)
    ensures cr.Some? ==> cr.value == cl.objects[key]
    ensures cr.None? && polls > 0 ==> cl.faults > old(cl.faults)
  {
    for n := 0 to polls
      invariant cl.faults >= old(cl.faults) && (n > 0 ==> cl.faults > old(cl.faults))
    {
      var r := cl.Get(key);
      match r {
        case Found(c) => return Some(c);
        case Failed => return None;
        case NotFound =>
      }
    }
    return None;
  }

  /** The body of the second loop of moveCrs: wait for the CR, copy its status, move its children. */
  method MoveBelow(cl: Cluster, node: Node, ownerUid: Option<UID>, polls: nat, ghost tree: Tree, ghost repr: set<Node>)
    returns (moved: seq<CR>, ok: bool)
    requires cl.Valid() && node in repr && node.cr == tree.cr && Models(node.children, tree.kids, repr)
    requires TopCreated(tree, ownerUid, cl.objects) && polls > 0
    modifies cl
    ensures cl.Valid() && cl.faults >= old(cl.faults) && cl.removals == old(cl.removals)
    ensures tree.cr.key in cl.objects
    ensures Creates(old(cl.objects)[tree.cr.key := cl.objects[tree.cr.key]], cl.objects, moved)
    ensures PrefixOf(moved, Order(tree.kids)) && (ok ==> |moved| == |Order(tree.kids)|)
    ensures ok ==> LandedTree(tree, ownerUid, cl.objects)
    ensures old(cl.stages) <= cl.stages
    ensures Staged(cl.stages[|old(cl.stages)|..], old(cl.objects).Keys, Order(tree.kids), |moved|)
    ensures !ok && cl.faults == old(cl.faults) ==> !Fits(Order(tree.kids), old(cl.objects).Keys)
    decreases tree
  {
    ghost var key, base, order := tree.cr.key, cl.objects.Keys, Order(tree.kids);
    moved := [];
    assert Stage(base, order, 0) == base;
    var found := Await(cl, node.cr.key, polls);
    if found.None? {
      return [], false;
    }
    ok := CopyStatus(cl, node.cr, found.value);
    ghost var mid, stages := cl.objects, cl.stages;
    assert Staged(stages[|old(cl.stages)|..], base, order, 0);
    if !ok {
      return [], false;
    }
    moved, ok := MoveCrs(cl, node.children, Some(found.value.uid), polls, tree.kids, repr);
    assert cl.stages[|old(cl.stages)|..] == stages[|old(cl.stages)|..] + cl.stages[|stages|..];
    StagedConcat(stages[|old(cl.stages)|..], cl.stages[|stages|..], base, order, 0, |moved|);
    assert old(cl.objects)[key := cl.objects[key]] == mid;
  }

  /**
   * Creates a level, then below each of its CRs in turn. Whatever fails, at whatever depth, `moved` is a prefix of the
   * creation order and holds exactly the objects that are new; nothing else has changed.
   */
  method MoveCrs(cl: Cluster, nodes: seq<Node>, ownerUid: Option<UID>, polls: nat, ghost trees: seq<Tree>,
                 ghost repr: set<Node>)
    returns (moved: seq<CR>, ok: bool)
    requires cl.Valid() && Models(nodes, trees, repr) && polls > 0
    modifies cl
    ensures cl.Valid() && cl.faults >= old(cl.faults) && cl.removals == old(cl.removals)
    ensures Creates(old(cl.objects), cl.objects, moved)
    ensures PrefixOf(moved, Order(trees)) && (ok ==> |moved| == |Order(trees)|)
    ensures ok ==> Landed(trees, ownerUid, cl.objects)
    ensures old(cl.stages) <= cl.stages
    ensures Staged(cl.stages[|old(cl.stages)|..], old(cl.objects).Keys, Order(trees), |moved|)
    ensures !ok && cl.faults == old(cl.faults) ==> !Fits(Order(trees), old(cl.objects).Keys)
    ensures trees == [] ==> ok && cl.stages == old(cl.stages)
    decreases trees
  {
    ghost var base, order := cl.objects.Keys, Order(trees);
    TopsAt(trees);
    moved, ok := CreateLevel(cl, nodes, ownerUid, trees, repr);
    LevelOfOrder(cl.stages[|old(cl.stages)|..], base, trees, |moved|);
    assert PrefixOf(moved, order);
    if !ok {
      return;
    }
    assert Deeper(trees[..0]) == [];
    assert Midway(old(cl.objects), cl.objects, moved, trees, 0, ownerUid);
    moved, ok := DescendAll(cl, nodes, ownerUid, polls, moved, old(cl.objects), |old(cl.stages)|, trees, repr);
    assert trees[..|trees|] == trees;
  }

  /** The second loop of moveCrs, from a created level `level` on; `base` and `mark` are the state before the level. */
  method DescendAll(cl: Cluster, nodes: seq<Node>, ownerUid: Option<UID>, polls: nat, level: seq<CR>,
                    ghost base: map<Key, CR>, ghost mark: nat, ghost trees: seq<Tree>, ghost repr: set<Node>)
    returns (moved: seq<CR>, ok: bool)
    requires cl.Valid() && Models(nodes, trees, repr) && polls > 0
    requires Midway(base, cl.objects, level, trees, 0, ownerUid)
    requires mark <= |cl.stages| && Staged(cl.stages[mark..], base.Keys, Order(trees), |level|)
    modifies cl
    ensures cl.Valid() && cl.faults >= old(cl.faults) && cl.removals == old(cl.removals)
    ensures Creates(base, cl.objects, moved) && PrefixOf(moved, Order(trees))
    ensures ok ==> Midway(base, cl.objects, moved, trees, |trees|, ownerUid)
    ensures old(cl.stages) <= cl.stages && Staged(cl.stages[mark..], base.Keys, Order(trees), |moved|)
    ensures !ok && cl.faults == old(cl.faults) ==> !Fits(Order(trees), base.Keys)
    ensures trees == [] ==> ok && cl.stages == old(cl.stages)
    decreases trees, 0
  {
    moved, ok := level, true;
    for i := 0 to |nodes|
      invariant cl.Valid() && cl.faults >= old(cl.faults) && cl.removals == old(cl.removals)
      invariant Midway(base, cl.objects, moved, trees, i, ownerUid)
      invariant old(cl.stages) <= cl.stages && Staged(cl.stages[mark..], base.Keys, Order(trees), |moved|)
      invariant i == 0 ==> cl.stages == old(cl.stages)
    {
      var below;
      below, ok := DescendOne(cl, nodes, ownerUid, polls, i, moved, base, mark, trees, repr);
      moved := moved + below;
      if !ok {
        return;
      }
    }
    ok := true;
  }

  method DescendOne(cl: Cluster, nodes: seq<Node>, ownerUid: Option<UID>, polls: nat, i: nat, ghost moved: seq<CR>,
                    ghost base: map<Key, CR>, ghost mark: nat, ghost trees: seq<Tree>, ghost repr: set<Node>)
    returns (below: seq<CR>, ok: bool)
    requires cl.Valid() && Models(nodes, trees, repr) && polls > 0
    requires i < |nodes| && Midway(base, cl.objects, moved, trees, i, ownerUid)
    requires mark <= |cl.stages| && Staged(cl.stages[mark..], base.Keys, Order(trees), |moved|)
    modifies cl
    ensures cl.Valid() && cl.faults >= old(cl.faults) && cl.removals == old(cl.removals)
    ensures Creates(base, cl.objects, moved + below) && PrefixOf(moved + below, Order(trees))
    ensures ok ==> Midway(base, cl.objects, moved + below, trees, i + 1, ownerUid)
    ensures old(cl.stages) <= cl.stages && Staged(cl.stages[mark..], base.Keys, Order(trees), |moved + below|)
    ensures !ok && cl.faults == old(cl.faults) ==> !Fits(Order(trees), base.Keys)
    decreases trees, 0, 0
  {
    ghost var before, stages := cl.objects, cl.stages;
    below, ok := MoveBelow(cl, nodes[i], ownerUid, polls, trees[i], repr);
    assert cl.stages[mark..] == stages[mark..] + cl.stages[|stages|..];
    Descended(base, before, cl.objects, moved, below, trees, i, ownerUid, ok, cl.stages[mark..], stages[mark..],
              cl.stages[|stages|..]);
  }

  lemma {:induction false} Descended(base: map<Key, CR>, before: map<Key, CR>, after: map<Key, CR>, moved: seq<CR>,
                                     below: seq<CR>, trees: seq<Tree>, i: nat, ownerUid: Option<UID>, ok: bool,
                                     all: seq<set<Key>>, a: seq<set<Key>>, b: seq<set<Key>>)
    requires i < |trees| && Midway(base, before, moved, trees, i, ownerUid)
    requires trees[i].cr.key in after && Creates(before[trees[i].cr.key := after[trees[i].cr.key]], after, below)
    requires PrefixOf(below, Order(trees[i].kids))
    requires ok ==> |below| == |Order(trees[i].kids)| && LandedTree(trees[i], ownerUid, after)
    requires all == a + b && Staged(a, base.Keys, Order(trees), |moved|)
    requires Staged(b, before.Keys, Order(trees[i].kids), |below|)
    ensures Creates(base, after, moved + below) && PrefixOf(moved + below, Order(trees))
    ensures ok ==> Midway(base, after, moved + below, trees, i + 1, ownerUid)
    ensures Staged(all, base.Keys, Order(trees), |moved + below|)
    ensures Fits(Order(trees), base.Keys) ==> Fits(Order(trees[i].kids), before.Keys)
  {
    MidwayNext(base, before, after, moved, below, trees, i, ownerUid);
    MidwayStage(base, before, moved, trees, i);
    StagesNext(all, a, b, base.Keys, trees, i, |moved|, |below|);
    if Fits(Order(trees), base.Keys) {
      MidwayFits(base.Keys, moved, trees, i);
    }
  }

  /** The state of the second loop: the first `i` trees have landed, the other tops are as created. */
  ghost predicate Midway(base: map<Key, CR>, objects: map<Key, CR>, moved: seq<CR>, trees: seq<Tree>, i: nat,
                         ownerUid: Option<UID>)
    requires i <= |trees|
  {
    && Creates(base, objects, moved)
    && PrefixOf(moved, Order(trees)) && |moved| == |trees| + |Deeper(trees[..i])|
    && (forall j :: 0 <= j < i ==> LandedTree(trees[j], ownerUid, objects))
    && (forall j :: i <= j < |trees| ==> TopCreated(trees[j], ownerUid, objects))
  }

  ghost predicate TopCreated(t: Tree, ownerUid: Option<UID>, objects: map<Key, CR>) {
    t.cr.key in objects && objects[t.cr.key].status == None && CreatedAs(objects[t.cr.key], t.cr, ownerUid)
  }

  lemma {:induction false} MidwayStage(base: map<Key, CR>, objects: map<Key, CR>, moved: seq<CR>, trees: seq<Tree>,
                                       i: nat)
    requires i < |trees| && Creates(base, objects, moved)
    requires PrefixOf(moved, Order(trees)) && |moved| == |trees| + |Deeper(trees[..i])|
    ensures objects.Keys == Stage(base.Keys, Order(trees), |moved|)
    ensures Order(trees)[..|moved|] + Order(trees[i].kids) <= Order(trees)
  {
    StageOf(base.Keys, Order(trees), moved);
    OrderSplit(trees, i);
  }

  lemma {:induction false} MidwayFits(base: set<Key>, moved: seq<CR>, trees: seq<Tree>, i: nat)
    requires i < |trees| && |moved| <= |Order(trees)| && Fits(Order(trees), base)
    requires Order(trees)[..|moved|] + Order(trees[i].kids) <= Order(trees)
    ensures Fits(Order(trees[i].kids), Stage(base, Order(trees), |moved|))
  {
    FitsLater(Order(trees), base, Order(trees)[..|moved|], Order(trees[i].kids));
  }

  lemma {:induction false} OrderSplit(trees: seq<Tree>, i: nat)
    requires i < |trees|
    ensures var n := |trees| + |Deeper(trees[..i])|;
            n <= |Order(trees)| && Order(trees)[..n] + Order(trees[i].kids) <= Order(trees)
  {
    TopsAt(trees);
    OrderAt(trees, i);
    CutPrefix(Tops(trees) + Deeper(trees[..i]), Order(trees[i].kids), Order(trees));
  }

  lemma {:induction false} CutPrefix(a: seq<CR>, b: seq<CR>, c: seq<CR>)
    requires a + b <= c
    ensures |a| <= |c| && c[..|a|] + b <= c
  {
    assert c[..|a|] == a;
  }

  lemma {:induction false} MidwayNext(base: map<Key, CR>, before: map<Key, CR>, after: map<Key, CR>, moved: seq<CR>,
                                      below: seq<CR>, trees: seq<Tree>, i: nat, ownerUid: Option<UID>)
    requires i < |trees| && Midway(base, before, moved, trees, i, ownerUid)
    requires trees[i].cr.key in after && Creates(before[trees[i].cr.key := after[trees[i].cr.key]], after, below)
    requires PrefixOf(below, Order(trees[i].kids))
    ensures Creates(base, after, moved + below) && PrefixOf(moved + below, Order(trees))
    ensures |below| == |Order(trees[i].kids)| && LandedTree(trees[i], ownerUid, after) ==>
              Midway(base, after, moved + below, trees, i + 1, ownerUid)
  {
    TopsMoved(trees, moved, Order(trees));
    CreatesMore(base, before, after, moved, below, trees[i].cr.key);
    MidwayStage(base, before, moved, trees, i);
    PrefixMore(moved, below, Order(trees), Order(trees[i].kids));
    DeeperSnoc(trees, i);
    MovedStays(moved, i, before, after, below);
    forall j | i < j < |trees| ensures TopCreated(trees[j], ownerUid, after) {
      assert moved[j].key == trees[j].cr.key;
    }
    forall j | 0 <= j < i ensures LandedTree(trees[j], ownerUid, after) {
      LandedStays(trees, i, j, moved, before, after, ownerUid);
    }
  }

  lemma {:induction false} StagesNext(all: seq<set<Key>>, a: seq<set<Key>>, b: seq<set<Key>>, base: set<Key>,
                                      trees: seq<Tree>, i: nat, n: nat, m: nat)
    requires i < |trees| && n <= |Order(trees)| && Order(trees)[..n] + Order(trees[i].kids) <= Order(trees)
    requires all == a + b && Staged(a, base, Order(trees), n)
    requires m <= |Order(trees[i].kids)| && Staged(b, Stage(base, Order(trees), n), Order(trees[i].kids), m)
    ensures Staged(all, base, Order(trees), n + m)
  {
    StagedLater(b, base, Order(trees), n, Order(trees)[..n], Order(trees[i].kids), m);
    StagedConcat(a, b, base, Order(trees), n, n + m);
  }

  lemma {:induction false} LevelOfOrder(stages: seq<set<Key>>, base: set<Key>, trees: seq<Tree>, n: nat)
    requires n <= |Tops(trees)| && Staged(stages, base, Tops(trees), n)
    ensures Staged(stages, base, Order(trees), n)
    ensures Fits(Order(trees), base) ==> Fits(Tops(trees), base)
  {
    var tops, order := Tops(trees), Order(trees);
    forall q | 0 <= q < |stages| ensures IsStage(stages[q], base, order, n) {
      var p: nat :| p <= n && stages[q] == Stage(base, tops, p);
      assert order[..p] == tops[..p];
      assert stages[q] == Stage(base, order, p);
    }
    assert forall j :: 0 <= j < |tops| ==> tops[j] == order[j];
  }

  lemma {:induction false} TopsMoved(trees: seq<Tree>, moved: seq<CR>, order: seq<CR>)
    requires order == Order(trees) && PrefixOf(moved, order) && |trees| <= |moved|
    ensures forall j :: 0 <= j < |trees| ==> moved[j].key == trees[j].cr.key && trees[j].cr.key in Keys(moved)
  {
    TopsAt(trees);
    KeysMembers(moved);
    assert forall j :: 0 <= j < |trees| ==> order[j] == Tops(trees)[j];
  }

  lemma {:induction false} PrefixMore(moved: seq<CR>, below: seq<CR>, order: seq<CR>, sub: seq<CR>)
    requires PrefixOf(moved, order) && PrefixOf(below, sub) && order[..|moved|] + sub <= order
    ensures PrefixOf(moved + below, order)
  {
    assert forall j :: 0 <= j < |sub| ==> sub[j] == order[|moved| + j];
  }

  /** Moving what is below the `i`-th object changes none of the others. */
  lemma {:induction false} MovedStays(moved: seq<CR>, i: nat, before: map<Key, CR>, after: map<Key, CR>, below: seq<CR>)
    requires i < |moved| && DistinctKeys(moved) && Keys(moved) <= before.Keys && moved[i].key in after
    requires Creates(before[moved[i].key := after[moved[i].key]], after, below)
    ensures forall j :: 0 <= j < |moved| && j != i ==>
                          && moved[j].key in before && moved[j].key in after
                          && after[moved[j].key] == before[moved[j].key]
  {
    KeysMembers(moved);
    forall j | 0 <= j < |moved| && j != i
      ensures moved[j].key in before && moved[j].key in after && after[moved[j].key] == before[moved[j].key]
    {
      assert moved[j].key in Keys(moved);
    }
  }

  lemma {:induction false} LandedStays(trees: seq<Tree>, i: nat, j: nat, moved: seq<CR>, before: map<Key, CR>,
                                       after: map<Key, CR>, ownerUid: Option<UID>)
    requires j < i < |trees| && PrefixOf(moved, Order(trees)) && |moved| == |trees| + |Deeper(trees[..i])|
    requires forall j :: 0 <= j < |moved| && j != i ==>
                           && moved[j].key in before && moved[j].key in after
                           && after[moved[j].key] == before[moved[j].key]
    requires LandedTree(trees[j], ownerUid, before)
    ensures LandedTree(trees[j], ownerUid, after)
  {
    TopsMoved(trees, moved, Order(trees));
    forall c | c in Order(trees[j].kids) ensures c.key in before && c.key in after && after[c.key] == before[c.key] {
      var d := PlaceInOrder(trees, i, j, c);
      assert moved[d].key == c.key;
    }
    assert moved[j].key == trees[j].cr.key;
    LandedTreeFrame(trees[j], ownerUid, before, after);
  }

  lemma {:induction false} PlaceInOrder(trees: seq<Tree>, i: nat, j: nat, c: CR) returns (d: nat)
    requires j < i < |trees| && c in Order(trees[j].kids)
    ensures |trees| <= d < |trees| + |Deeper(trees[..i])| <= |Order(trees)| && Order(trees)[d] == c
  {
    TopsAt(trees);
    OrderAt(trees, i);
    DeeperMembers(trees[..i]);
    assert trees[..i][j] == trees[j];
    assert c in Deeper(trees[..i]);
    var e :| 0 <= e < |Deeper(trees[..i])| && Deeper(trees[..i])[e] == c;
    d := |trees| + e;
    assert (Tops(trees) + Deeper(trees[..i]))[d] == c;
  }

  // ----- the order puts owners first -----

  /** Every owner of an element of `order` is in `front` or earlier in `order`. */
  ghost predicate OwnersFirst(crs: seq<CR>, front: seq<CR>, order: seq<CR>) {
    forall i, q :: 0 <= i < |order| && q in crs && OwnedBy(order[i], q.uid) ==> q in front || q in order[..i]
  }

  lemma {:induction false} OwnersFirstSum(crs: seq<CR>, front: seq<CR>, a: seq<CR>, b: seq<CR>)
    requires OwnersFirst(crs, front, a) && OwnersFirst(crs, front + a, b)
    ensures OwnersFirst(crs, front, a + b)
  {
    var s := a + b;
    forall i, q | 0 <= i < |s| && q in crs && OwnedBy(s[i], q.uid) ensures q in front || q in s[..i] {
      if i < |a| {
        assert s[..i] == a[..i];
      } else {
        assert s[i] == b[i - |a|];
        assert s[..i] == a + b[..i - |a|];
      }
    }
  }

  lemma {:induction false} OwnersFirstWider(crs: seq<CR>, front: seq<CR>, wider: seq<CR>, order: seq<CR>)
    requires OwnersFirst(crs, front, order) && forall c :: c in front ==> c in wider
    ensures OwnersFirst(crs, wider, order)
  {
  }

  lemma {:induction false} ForestOwnersFirst(crs: seq<CR>, path: seq<CR>)
    requires DistinctUids(crs) && Chain(crs, path)
    ensures OwnersFirst(crs, path, Order(Forest(crs, path)))
    decreases Rest(crs, path), 1, 0
  {
    var trees := Forest(crs, path);
    assert trees[..|trees|] == trees;
    LevelOwnersFirst(crs, path);
    DeeperOwnersFirst(crs, path, |trees|);
    OwnersFirstSum(crs, path, Tops(trees), Deeper(trees));
  }

  lemma {:induction false} LevelOwnersFirst(crs: seq<CR>, path: seq<CR>)
    requires DistinctUids(crs) && Chain(crs, path)
    ensures OwnersFirst(crs, path, Tops(Forest(crs, path)))
  {
    var tops, level := Tops(Forest(crs, path)), Below(crs, path);
    TopsAt(Forest(crs, path));
    RootsOfMembers(crs, crs);
    forall i, q | 0 <= i < |tops| && q in crs && OwnedBy(tops[i], q.uid) ensures q in path {
      assert tops[i] == level[i] && level[i] in level;
      ChildrenOfMembers(crs, path[|path| - 1].uid);
      SameUid(crs, q, path[|path| - 1]);
    }
  }

  lemma {:induction false} DeeperOwnersFirst(crs: seq<CR>, path: seq<CR>, n: nat)
    requires DistinctUids(crs) && Chain(crs, path) && n <= |Forest(crs, path)|
    ensures OwnersFirst(crs, path + Tops(Forest(crs, path)), Deeper(Forest(crs, path)[..n]))
    decreases Rest(crs, path), 0, n
  {
    if n > 0 {
      var trees := Forest(crs, path);
      var front, t := path + Tops(trees), trees[n - 1];
      DeeperOwnersFirst(crs, path, n - 1);
      KidsOf(crs, path, n - 1);
      ForestOwnersFirst(crs, path + [t.cr]);
      TopsAt(trees);
      assert Tops(trees)[n - 1] in Tops(trees);
      OwnersFirstWider(crs, path + [t.cr], front + Deeper(trees[..n - 1]), Order(t.kids));
      DeeperSnoc(trees, n - 1);
      OwnersFirstSum(crs, front, Deeper(trees[..n - 1]), Order(t.kids));
    }
  }

  /** At every stage of the creation, an object that is there has its tree parent there. */
  lemma {:induction false} StagesHoldOwners(crs: seq<CR>, keys: set<Key>, base: set<Key>, n: nat, c: CR, q: CR)
    requires DistinctUids(crs) && DistinctKeys(crs) && n <= |Order(Forest(crs, []))|
    requires IsStage(keys, base, Order(Forest(crs, [])), n)
    requires c in crs && q in crs && OwnedBy(c, q.uid) && c.key in keys && c.key !in base
    ensures q.key in keys
  {
    var order := Order(Forest(crs, []));
    var p: nat :| p <= n && keys == Stage(base, order, p);
    var i := PlaceOfKey(crs, c, p);
    ForestOwnersFirst(crs, []);
    assert q in order[..i];
    KeysMembers(order[..p]);
    var j :| 0 <= j < i && order[..i][j] == q;
    assert order[..p][j] == q;
  }

  lemma {:induction false} PlaceOfKey(crs: seq<CR>, c: CR, p: nat) returns (i: nat)
    requires DistinctUids(crs) && DistinctKeys(crs) && p <= |Order(Forest(crs, []))|
    requires c in crs && c.key in Keys(Order(Forest(crs, []))[..p])
    ensures i < p && Order(Forest(crs, []))[i] == c
  {
    var order := Order(Forest(crs, []));
    KeysMembers(order[..p]);
    i :| 0 <= i < p && order[..p][i].key == c.key;
    ForestHoldsRooted(crs);
    assert order[i] in order;
    RootedInside(crs, order[i]);
  }

  lemma {:induction false} RootedInside(crs: seq<CR>, c: CR)
    requires Rooted(crs, c)
    ensures c in crs
  {
    var path :| ChainTo(crs, path, c);
  }
}
