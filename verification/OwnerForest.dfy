/**
 * The owner-reference forest of `metalctl move`: the reference definition of which CR hangs below which, and the
 * in-place construction of the node graph. Owner references may be cyclic; the forest is what the roots reach.
 */
module OwnerForest {
  import opened Options
  import opened Resources

  // ----- reference definition -----

  predicate OwnedBy(c: CR, uid: UID) {
    c.owners != [] && c.owners[0].uid == uid
  }

  /** A CR whose first owner is not among `crs`. */
  ghost predicate Root(crs: seq<CR>, c: CR) {
    forall p :: p in crs ==> !OwnedBy(c, p.uid)
  }

  /** The CRs among `crs` whose first owner has this UID, in order. */
  ghost function ChildrenOf(crs: seq<CR>, uid: UID): seq<CR> {
    if crs == [] then [] else
      var last := crs[|crs| - 1];
      ChildrenOf(crs[..|crs| - 1], uid) + if OwnedBy(last, uid) then [last] else []
  }

  /** The CRs of `part` that are roots with respect to `crs`, in order. */
  ghost function RootsOf(part: seq<CR>, crs: seq<CR>): seq<CR> {
    if part == [] then [] else
      var last := part[|part| - 1];
      RootsOf(part[..|part| - 1], crs) + if Root(crs, last) then [last] else []
  }

  lemma {:induction false} DistinctSnoc(front: seq<CR>, some: seq<CR>, last: CR)
    requires forall c :: c in some ==> c in front
    ensures DistinctUids(front + [last]) && DistinctUids(some) ==> DistinctUids(some + [last])
    ensures DistinctUids(front + [last]) ==> DistinctUids(front)
  {
    var all := front + [last];
    assert forall i :: 0 <= i < |front| ==> all[i] == front[i];
    assert all[|front|] == last;
    forall i | 0 <= i < |some| && DistinctUids(all) ensures some[i].uid != last.uid {
      assert some[i] in front;
    }
  }

  lemma {:induction false} ChildrenOfMembers(crs: seq<CR>, uid: UID)
    ensures forall c :: c in ChildrenOf(crs, uid) <==> c in crs && OwnedBy(c, uid)
    ensures DistinctUids(crs) ==> DistinctUids(ChildrenOf(crs, uid))
  {
    if crs != [] {
      var front := crs[..|crs| - 1];
      assert crs == front + [crs[|crs| - 1]];
      ChildrenOfMembers(front, uid);
      DistinctSnoc(front, ChildrenOf(front, uid), crs[|crs| - 1]);
    }
  }

  lemma {:induction false} RootsOfMembers(part: seq<CR>, crs: seq<CR>)
    ensures forall c :: c in RootsOf(part, crs) <==> c in part && Root(crs, c)
    ensures DistinctUids(part) ==> DistinctUids(RootsOf(part, crs))
  {
    if part != [] {
      var front := part[..|part| - 1];
      assert part == front + [part[|part| - 1]];
      RootsOfMembers(front, crs);
      DistinctSnoc(front, RootsOf(front, crs), part[|part| - 1]);
    }
  }

  /** A path of owners: it starts at a root and each element is the first owner of the next. */
  ghost predicate Chain(crs: seq<CR>, path: seq<CR>) {
    && (forall k :: 0 <= k < |path| ==> path[k] in crs)
    && (path != [] ==> Root(crs, path[0]))
    && (forall k :: 0 < k < |path| ==> OwnedBy(path[k], path[k - 1].uid))
  }

  ghost predicate ChainTo(crs: seq<CR>, path: seq<CR>, c: CR) {
    Chain(crs, path) && path != [] && path[|path| - 1] == c
  }

  /** The first-owner chain of `c` leaves the set. */
  ghost predicate Rooted(crs: seq<CR>, c: CR) {
    exists path :: ChainTo(crs, path, c)
  }

  lemma {:induction false} SameUid(crs: seq<CR>, a: CR, b: CR)
    requires DistinctUids(crs) && a in crs && b in crs && a.uid == b.uid
    ensures a == b
  {
  }

  lemma {:induction false} LongChain(crs: seq<CR>, p: seq<CR>, c: CR)
    requires ChainTo(crs, p, c)
    ensures |p| > 1 ==> !Root(crs, c)
  {
    if |p| > 1 {
      assert OwnedBy(p[|p| - 1], p[|p| - 2].uid) && p[|p| - 2] in crs;
    }
  }

  /** Going up from a CR there is only one way, so chains are determined by their last element. */
  lemma {:induction false} ChainsUnique(crs: seq<CR>, p: seq<CR>, q: seq<CR>, c: CR)
    requires DistinctUids(crs) && ChainTo(crs, p, c) && ChainTo(crs, q, c)
    ensures p == q
    decreases |p|
  {
    LongChain(crs, p, c);
    LongChain(crs, q, c);
    if |p| > 1 && |q| > 1 {
      var p', q' := p[..|p| - 1], q[..|q| - 1];
      assert OwnedBy(c, p'[|p'| - 1].uid) && OwnedBy(c, q'[|q'| - 1].uid);
      SameUid(crs, p'[|p'| - 1], q'[|q'| - 1]);
      ChainsUnique(crs, p', q', p'[|p'| - 1]);
      assert p == p' + [c] && q == q' + [c];
    }
  }

  /** The level below a path: the roots below the empty path, the children of its last element otherwise. */
  ghost function Below(crs: seq<CR>, path: seq<CR>): seq<CR> {
    if path == [] then RootsOf(crs, crs) else ChildrenOf(crs, path[|path| - 1].uid)
  }

  lemma {:induction false} BelowMembers(crs: seq<CR>, path: seq<CR>)
    requires DistinctUids(crs) && Chain(crs, path)
    ensures forall c :: c in Below(crs, path) <==> Chain(crs, path + [c])
    ensures DistinctUids(Below(crs, path))
  {
    RootsOfMembers(crs, crs);
    if path != [] {
      ChildrenOfMembers(crs, path[|path| - 1].uid);
    }
    forall c
      ensures c in Below(crs, path) <==> Chain(crs, path + [c])
    {
      var longer := path + [c];
      if c in Below(crs, path) {
        forall k | 0 < k < |longer| ensures OwnedBy(longer[k], longer[k - 1].uid) {
        }
      }
      if Chain(crs, longer) {
        assert longer[|path|] == c;
        assert path != [] ==> OwnedBy(longer[|path|], longer[|path| - 1].uid);
      }
    }
  }

  /** The step that makes the recursion end: what hangs below a chain is not on it, whatever cycles exist elsewhere. */
  lemma {:induction false} BelowIsOffPath(crs: seq<CR>, path: seq<CR>, c: CR)
    requires DistinctUids(crs) && Chain(crs, path + [c])
    ensures c !in path
  {
    var longer := path + [c];
    if c in path {
      var k :| 0 <= k < |path| && path[k] == c;
      var early := longer[..k + 1];
      assert ChainTo(crs, early, c);
      assert ChainTo(crs, longer, c);
      ChainsUnique(crs, early, longer, c);
      assert false;
    }
  }

  datatype Tree = Tree(cr: CR, kids: seq<Tree>)

  ghost function Rest(crs: seq<CR>, path: seq<CR>): set<CR> {
    set c | c in crs && c !in path
  }

  /** The forest below a chain; `Forest(crs, [])` is the whole forest. */
  ghost function Forest(crs: seq<CR>, path: seq<CR>): seq<Tree>
    requires DistinctUids(crs) && Chain(crs, path)
    decreases Rest(crs, path)
  {
    seq(|Below(crs, path)|, i requires 0 <= i < |Below(crs, path)| =>
      var c := Below(crs, path)[i];
      Extends(crs, path, i);
      Tree(c, Forest(crs, path + [c])))
  }

  lemma {:induction false} Extends(crs: seq<CR>, path: seq<CR>, i: nat)
    requires DistinctUids(crs) && Chain(crs, path) && i < |Below(crs, path)|
    ensures Chain(crs, path + [Below(crs, path)[i]])
    ensures Rest(crs, path + [Below(crs, path)[i]]) < Rest(crs, path)
  {
    var c := Below(crs, path)[i];
    BelowMembers(crs, path);
    BelowIsOffPath(crs, path, c);
    assert (path + [c])[|path|] in crs;
    assert c in Rest(crs, path) && c !in Rest(crs, path + [c]);
  }

  // ----- the order in which the forest is created -----

  ghost function Tops(trees: seq<Tree>): seq<CR> {
    if trees == [] then [] else Tops(trees[..|trees| - 1]) + [trees[|trees| - 1].cr]
  }

  /** A level first, then below each of its trees in turn. */
  ghost function Order(trees: seq<Tree>): seq<CR>
    decreases trees, 1
  {
    Tops(trees) + Deeper(trees)
  }

  ghost function Deeper(trees: seq<Tree>): seq<CR>
    decreases trees, 0
  {
    if trees == [] then [] else Deeper(trees[..|trees| - 1]) + Order(trees[|trees| - 1].kids)
  }

  lemma {:induction false} TopsAt(trees: seq<Tree>)
    ensures |Tops(trees)| == |trees|
    ensures forall i :: 0 <= i < |trees| ==> Tops(trees)[i] == trees[i].cr
  {
    if trees != [] {
      TopsAt(trees[..|trees| - 1]);
    }
  }

  /** Every tree's own CR and everything below it is somewhere in the order, and nothing else is. */
  lemma {:induction false} DeeperMembers(trees: seq<Tree>)
    ensures forall c :: c in Deeper(trees) <==> exists i :: 0 <= i < |trees| && c in Order(trees[i].kids)
  {
    if trees != [] {
      var front, last := trees[..|trees| - 1], trees[|trees| - 1];
      DeeperMembers(front);
      forall c ensures c in Deeper(trees) <==> exists i :: 0 <= i < |trees| && c in Order(trees[i].kids) {
        DeeperMember(trees, c);
      }
    }
  }

  lemma {:induction false} DeeperMember(trees: seq<Tree>, c: CR)
    requires trees != []
    requires var front := trees[..|trees| - 1];
             c in Deeper(front) <==> exists i :: 0 <= i < |front| && c in Order(front[i].kids)
    ensures c in Deeper(trees) <==> exists i :: 0 <= i < |trees| && c in Order(trees[i].kids)
  {
    var front, last := trees[..|trees| - 1], trees[|trees| - 1];
    assert c in Deeper(trees) <==> c in Deeper(front) || c in Order(last.kids);
    if c in Deeper(front) {
      var i :| 0 <= i < |front| && c in Order(front[i].kids);
      assert trees[i] == front[i];
    }
    if i :| 0 <= i < |trees| && c in Order(trees[i].kids) {
      assert i < |front| ==> front[i] == trees[i];
    }
  }

  /** `c` ends a chain that continues `path`. */
  ghost predicate Reaches(crs: seq<CR>, path: seq<CR>, c: CR) {
    exists q :: ChainTo(crs, q, c) && path < q
  }

  lemma {:induction false} ReachesStep(crs: seq<CR>, path: seq<CR>, i: nat, c: CR)
    requires DistinctUids(crs) && Chain(crs, path) && i < |Below(crs, path)|
    requires Reaches(crs, path + [Below(crs, path)[i]], c) || c == Below(crs, path)[i]
    ensures Reaches(crs, path, c)
  {
    var here := path + [Below(crs, path)[i]];
    if c == Below(crs, path)[i] {
      Extends(crs, path, i);
      assert ChainTo(crs, here, c) && path < here;
    } else {
      var q :| ChainTo(crs, q, c) && here < q;
      assert path < q;
    }
  }

  lemma {:induction false} ReachesSplit(crs: seq<CR>, path: seq<CR>, c: CR) returns (i: nat)
    requires DistinctUids(crs) && Chain(crs, path) && Reaches(crs, path, c)
    ensures i < |Below(crs, path)|
    ensures c == Below(crs, path)[i] || Reaches(crs, path + [Below(crs, path)[i]], c)
  {
    var q :| ChainTo(crs, q, c) && path < q;
    NextOnChain(crs, path, q);
    i :| 0 <= i < |Below(crs, path)| && Below(crs, path)[i] == q[|path|];
    assert |q| > |path| + 1 ==> path + [q[|path|]] < q;
  }

  /** What the forest below a chain holds: the ends of the longer chains. */
  lemma {:induction false} ForestMembers(crs: seq<CR>, path: seq<CR>, c: CR)
    requires DistinctUids(crs) && Chain(crs, path)
    ensures c in Order(Forest(crs, path)) <==> Reaches(crs, path, c)
    decreases Rest(crs, path)
  {
    var trees := Forest(crs, path);
    TopsAt(trees);
    DeeperMembers(trees);
    if c in Tops(trees) {
      var i :| 0 <= i < |trees| && Tops(trees)[i] == c;
      ReachesStep(crs, path, i, c);
    } else if c in Deeper(trees) {
      var i :| 0 <= i < |trees| && c in Order(trees[i].kids);
      KidsOf(crs, path, i);
      ForestMembers(crs, path + [trees[i].cr], c);
      ReachesStep(crs, path, i, c);
    } else if Reaches(crs, path, c) {
      var i := ReachesSplit(crs, path, c);
      KidsOf(crs, path, i);
      assert Tops(trees)[i] == trees[i].cr;
      ForestMembers(crs, path + [trees[i].cr], c);
      assert false;
    }
  }

  lemma {:induction false} KidsOf(crs: seq<CR>, path: seq<CR>, i: nat)
    requires DistinctUids(crs) && Chain(crs, path) && i < |Below(crs, path)|
    ensures var t := Forest(crs, path)[i];
            && t.cr == Below(crs, path)[i]
            && Chain(crs, path + [t.cr])
            && t.kids == Forest(crs, path + [t.cr])
            && Rest(crs, path + [t.cr]) < Rest(crs, path)
  {
    Extends(crs, path, i);
  }

  lemma {:induction false} NextOnChain(crs: seq<CR>, path: seq<CR>, q: seq<CR>)
    requires DistinctUids(crs) && Chain(crs, path) && Chain(crs, q) && path < q
    ensures q[|path|] in Below(crs, path)
  {
    var next := q[..|path| + 1];
    assert next == path + [q[|path|]];
    assert Chain(crs, next);
    BelowMembers(crs, path);
  }

  ghost predicate NoDuplicates(s: seq<CR>) {
    forall i, j :: 0 <= i < j < |s| ==> s[i] != s[j]
  }

  lemma {:induction false} NoDuplicatesSum(a: seq<CR>, b: seq<CR>)
    requires NoDuplicates(a) && NoDuplicates(b) && forall c :: c in a ==> c !in b
    ensures NoDuplicates(a + b)
  {
    var s := a + b;
    forall i, j | 0 <= i < j < |s| ensures s[i] != s[j] {
      if i < |a| <= j {
        assert s[i] in a && s[j] in b;
      }
    }
  }

  /** Two trees side by side share nothing. */
  lemma {:induction false} TreesDisjoint(crs: seq<CR>, path: seq<CR>, i: nat, j: nat, c: CR)
    requires DistinctUids(crs) && Chain(crs, path) && i < j < |Below(crs, path)|
    ensures !(c in Order(Forest(crs, path)[i].kids) && c in Order(Forest(crs, path)[j].kids))
  {
    var trees := Forest(crs, path);
    KidsOf(crs, path, i);
    KidsOf(crs, path, j);
    ForestMembers(crs, path + [trees[i].cr], c);
    ForestMembers(crs, path + [trees[j].cr], c);
    BelowMembers(crs, path);
    if q, q' :| (ChainTo(crs, q, c) && path + [trees[i].cr] < q) && (ChainTo(crs, q', c) && path + [trees[j].cr] < q') {
      assert q[|path|] == trees[i].cr && q'[|path|] == trees[j].cr;
      ChainsUnique(crs, q, q', c);
    }
  }

  /** A CR is not also below itself or a sibling. */
  lemma {:induction false} TopsAreNotDeeper(crs: seq<CR>, path: seq<CR>, i: nat, j: nat)
    requires DistinctUids(crs) && Chain(crs, path) && i < |Below(crs, path)| && j < |Below(crs, path)|
    ensures Below(crs, path)[i] !in Order(Forest(crs, path)[j].kids)
  {
    var c, t := Below(crs, path)[i], Forest(crs, path)[j];
    KidsOf(crs, path, j);
    ForestMembers(crs, path + [t.cr], c);
    KidsOf(crs, path, i);
    if q :| ChainTo(crs, q, c) && path + [t.cr] < q {
      ChainsUnique(crs, q, path + [c], c);
    }
  }

  ghost predicate Apart(trees: seq<Tree>) {
    && (forall i :: 0 <= i < |trees| ==> NoDuplicates(Order(trees[i].kids)))
    && (forall i, j, c :: 0 <= i < j < |trees| && c in Order(trees[i].kids) ==> c !in Order(trees[j].kids))
  }

  lemma {:induction false} DeeperNoDuplicates(trees: seq<Tree>)
    requires Apart(trees)
    ensures NoDuplicates(Deeper(trees))
  {
    if trees != [] {
      var front, last := trees[..|trees| - 1], trees[|trees| - 1];
      DeeperNoDuplicates(front);
      DeeperMembers(front);
      forall c | c in Deeper(front) ensures c !in Order(last.kids) {
        var i :| 0 <= i < |front| && c in Order(front[i].kids);
        assert trees[i] == front[i];
      }
      NoDuplicatesSum(Deeper(front), Order(last.kids));
    }
  }

  lemma {:induction false} LevelIsNotDeeper(crs: seq<CR>, path: seq<CR>)
    requires DistinctUids(crs) && Chain(crs, path)
    ensures NoDuplicates(Tops(Forest(crs, path)))
    ensures forall c :: c in Tops(Forest(crs, path)) ==> c !in Deeper(Forest(crs, path))
  {
    var trees := Forest(crs, path);
    TopsAt(trees);
    BelowMembers(crs, path);
    forall c | c in Tops(trees) ensures c !in Deeper(trees) {
      var i :| 0 <= i < |trees| && Tops(trees)[i] == c;
      forall j | 0 <= j < |trees| ensures c !in Order(trees[j].kids) {
        TopsAreNotDeeper(crs, path, i, j);
      }
      DeeperMembers(trees);
    }
  }

  /** No CR is in the forest twice. */
  lemma {:induction false} ForestNoDuplicates(crs: seq<CR>, path: seq<CR>)
    requires DistinctUids(crs) && Chain(crs, path)
    ensures NoDuplicates(Order(Forest(crs, path)))
    decreases Rest(crs, path)
  {
    var trees := Forest(crs, path);
    assert Apart(trees) by {
      forall i | 0 <= i < |trees| ensures NoDuplicates(Order(trees[i].kids)) {
        KidsOf(crs, path, i);
        ForestNoDuplicates(crs, path + [trees[i].cr]);
      }
      forall i, j, c | 0 <= i < j < |trees| && c in Order(trees[i].kids) ensures c !in Order(trees[j].kids) {
        TreesDisjoint(crs, path, i, j, c);
      }
    }
    DeeperNoDuplicates(trees);
    LevelIsNotDeeper(crs, path);
    NoDuplicatesSum(Tops(trees), Deeper(trees));
  }

  /** The forest holds each CR whose first-owner chain leaves the set exactly once, and no other. */
  lemma {:induction false} ForestHoldsRooted(crs: seq<CR>)
    requires DistinctUids(crs)
    ensures forall c :: c in Order(Forest(crs, [])) <==> Rooted(crs, c)
    ensures NoDuplicates(Order(Forest(crs, [])))
  {
    ForestNoDuplicates(crs, []);
    forall c ensures c in Order(Forest(crs, [])) <==> Rooted(crs, c) {
      ForestMembers(crs, [], c);
      if path :| ChainTo(crs, path, c) {
        assert [] < path;
        assert Reaches(crs, [], c);
      }
    }
  }

  /** A closed walk along first owners. */
  ghost predicate Cycle(crs: seq<CR>, walk: seq<CR>) {
    && walk != []
    && (forall k :: 0 <= k < |walk| ==> walk[k] in crs)
    && (forall k :: 0 < k < |walk| ==> OwnedBy(walk[k], walk[k - 1].uid))
    && OwnedBy(walk[0], walk[|walk| - 1].uid)
  }

  /** A downward walk from `c`'s ancestors to `c`. */
  ghost predicate Walk(crs: seq<CR>, walk: seq<CR>) {
    && walk != []
    && (forall k :: 0 <= k < |walk| ==> walk[k] in crs)
    && (forall k :: 0 < k < |walk| ==> OwnedBy(walk[k], walk[k - 1].uid))
  }

  lemma {:induction false} WalkCloses(crs: seq<CR>, walk: seq<CR>, p: CR)
    requires Walk(crs, walk) && p in walk && OwnedBy(walk[0], p.uid)
    ensures exists w :: Cycle(crs, w)
  {
    var k :| 0 <= k < |walk| && walk[k] == p;
    assert Cycle(crs, walk[..k + 1]);
  }

  lemma {:induction false} ClimbToRoot(crs: seq<CR>, walk: seq<CR>)
    requires DistinctUids(crs) && Walk(crs, walk) && forall w :: !Cycle(crs, w)
    ensures Rooted(crs, walk[|walk| - 1])
    decreases Rest(crs, walk)
  {
    if Root(crs, walk[0]) {
      assert ChainTo(crs, walk, walk[|walk| - 1]);
    } else {
      var p :| p in crs && OwnedBy(walk[0], p.uid);
      if p in walk {
        WalkCloses(crs, walk, p);
        assert false;
      }
      var longer := [p] + walk;
      assert p in Rest(crs, walk) && p !in Rest(crs, longer);
      ClimbToRoot(crs, longer);
    }
  }

  /** Without ownership cycles the whole list is moved. */
  lemma {:induction false} AcyclicIsComplete(crs: seq<CR>)
    requires DistinctUids(crs) && forall w :: !Cycle(crs, w)
    ensures forall c :: c in Order(Forest(crs, [])) <==> c in crs
  {
    ForestHoldsRooted(crs);
    forall c | c in crs ensures Rooted(crs, c) {
      ClimbToRoot(crs, [c]);
    }
  }

  /** A CR that the forest misses has its first owner among `crs`, and the forest misses that owner too. */
  lemma {:induction false} UnrootedHasUnrootedOwner(crs: seq<CR>, c: CR) returns (owner: CR)
    requires DistinctUids(crs) && c in crs && !Rooted(crs, c)
    ensures owner in crs && OwnedBy(c, owner.uid) && !Rooted(crs, owner)
  {
    if Root(crs, c) {
      assert ChainTo(crs, [c], c);
      assert false;
    }
    owner :| owner in crs && OwnedBy(c, owner.uid);
    if path :| ChainTo(crs, path, owner) {
      assert ChainTo(crs, path + [c], c);
      assert false;
    }
  }

  // ----- the node graph, built in place -----

  class Node {
    const cr: CR
    var children: seq<Node>

    constructor (cr: CR)
      ensures this.cr == cr && children == []
    {
      this.cr := cr;
      children := [];
    }
  }

  ghost predicate Covers(nodes: map<UID, Node>, crs: seq<CR>) {
    forall c :: c in crs ==> c.uid in nodes
  }

  ghost function NodesOf(nodes: map<UID, Node>, crs: seq<CR>): seq<Node>
    requires Covers(nodes, crs)
  {
    seq(|crs|, i requires 0 <= i < |crs| => nodes[crs[i].uid])
  }

  /** One node for each CR. */
  ghost predicate OneNodeEach(crs: seq<CR>, nodes: map<UID, Node>) {
    && Covers(nodes, crs)
    && (forall u :: u in nodes ==> exists c :: c in crs && c.uid == u)
    && (forall c :: c in crs ==> nodes[c.uid].cr == c)
    && (forall u, v :: u in nodes && v in nodes && nodes[u] == nodes[v] ==> u == v)
  }

  /** The node graph is the reference one: the roots and each node's children are exactly the CRs they should be. */
  ghost predicate Built(crs: seq<CR>, roots: seq<Node>, nodes: map<UID, Node>)
    reads nodes.Values
  {
    && OneNodeEach(crs, nodes)
    && Covers(nodes, RootsOf(crs, crs)) && roots == NodesOf(nodes, RootsOf(crs, crs))
    && forall u :: u in nodes ==>
                     Covers(nodes, ChildrenOf(crs, u)) && nodes[u].children == NodesOf(nodes, ChildrenOf(crs, u))
  }

  method NewNodes(crs: seq<CR>) returns (nodes: map<UID, Node>)
    requires DistinctUids(crs)
    ensures OneNodeEach(crs, nodes) && fresh(nodes.Values)
    ensures forall u :: u in nodes ==> nodes[u].children == []
  {
    nodes := map[];
    for i := 0 to |crs|
      invariant OneNodeEach(crs[..i], nodes) && fresh(nodes.Values)
      invariant forall u :: u in nodes ==> nodes[u].children == []
    {
      var node := new Node(crs[i]);
      assert crs[..i + 1] == crs[..i] + [crs[i]];
      assert forall c :: c in crs[..i] ==> c.uid != crs[i].uid;
      ghost var before := nodes;
      nodes := nodes[crs[i].uid := node];
      assert nodes.Values <= before.Values + {node};
      assert forall u :: u in nodes && u != crs[i].uid ==> nodes[u] == before[u] && nodes[u] in before.Values;
    }
    assert crs[..|crs|] == crs;
  }

  lemma {:induction false} ChildrenSnoc(crs: seq<CR>, i: nat, uid: UID)
    requires i < |crs|
    ensures ChildrenOf(crs[..i + 1], uid) ==
            ChildrenOf(crs[..i], uid) + if OwnedBy(crs[i], uid) then [crs[i]] else []
  {
    assert crs[..i + 1][..i] == crs[..i];
  }

  lemma {:induction false} RootsSnoc(crs: seq<CR>, i: nat)
    requires i < |crs|
    ensures RootsOf(crs[..i + 1], crs) == RootsOf(crs[..i], crs) + if Root(crs, crs[i]) then [crs[i]] else []
  {
    assert crs[..i + 1][..i] == crs[..i];
  }

  lemma {:induction false} AllCovered(crs: seq<CR>, nodes: map<UID, Node>, i: nat)
    requires Covers(nodes, crs) && i <= |crs|
    ensures Covers(nodes, RootsOf(crs[..i], crs)) && forall u :: Covers(nodes, ChildrenOf(crs[..i], u))
  {
    RootsOfMembers(crs[..i], crs);
    forall u ensures Covers(nodes, ChildrenOf(crs[..i], u)) {
      ChildrenOfMembers(crs[..i], u);
    }
  }

  /** The graph after the first `i` CRs have been hung up. */
  ghost predicate Hung(crs: seq<CR>, i: nat, roots: seq<Node>, nodes: map<UID, Node>)
    requires i <= |crs|
    reads nodes.Values
  {
    && Covers(nodes, RootsOf(crs[..i], crs)) && roots == NodesOf(nodes, RootsOf(crs[..i], crs))
    && forall u :: u in nodes ==>
                     && Covers(nodes, ChildrenOf(crs[..i], u))
                     && nodes[u].children == NodesOf(nodes, ChildrenOf(crs[..i], u))
  }

  method OwnerReferenceTrees(crs: seq<CR>) returns (roots: seq<Node>, ghost nodes: map<UID, Node>)
    requires DistinctUids(crs)
    ensures Built(crs, roots, nodes) && fresh(nodes.Values)
  {
    var nodeMap := NewNodes(crs);
    roots := [];
    AllCovered(crs, nodeMap, 0);
    for i := 0 to |crs|
      invariant Hung(crs, i, roots, nodeMap)
    {
      roots := HangUp(crs, i, roots, nodeMap);
    }
    assert crs[..|crs|] == crs;
    nodes := nodeMap;
  }

  /** One round of the second loop: the CR becomes a root, or is appended to its owner's children. */
  method HangUp(crs: seq<CR>, i: nat, roots: seq<Node>, nodeMap: map<UID, Node>) returns (roots': seq<Node>)
    requires i < |crs| && OneNodeEach(crs, nodeMap) && Hung(crs, i, roots, nodeMap)
    modifies nodeMap.Values
    ensures Hung(crs, i + 1, roots', nodeMap)
  {
    var cr := crs[i];
    assert cr in crs;
    ChildrenSnocAll(crs, i);
    RootsSnoc(crs, i);
    AllCovered(crs, nodeMap, i + 1);
    if cr.owners == [] || cr.owners[0].uid !in nodeMap {
      assert Root(crs, cr);
      assert forall u :: u in nodeMap ==> ChildrenOf(crs[..i + 1], u) == ChildrenOf(crs[..i], u);
      roots' := roots + [nodeMap[cr.uid]];
      NodesOfSnoc(nodeMap, RootsOf(crs[..i], crs), cr);
    } else {
      var uid := cr.owners[0].uid;
      assert OwnedBy(cr, nodeMap[uid].cr.uid) && nodeMap[uid].cr in crs;
      assert RootsOf(crs[..i + 1], crs) == RootsOf(crs[..i], crs);
      assert forall u :: u in nodeMap && u != uid ==> ChildrenOf(crs[..i + 1], u) == ChildrenOf(crs[..i], u);
      NodesOfSnoc(nodeMap, ChildrenOf(crs[..i], uid), cr);
      var owner := nodeMap[uid];
      owner.children := owner.children + [nodeMap[cr.uid]];
      roots' := roots;
    }
  }

  lemma {:induction false} NodesOfSnoc(nodes: map<UID, Node>, crs: seq<CR>, c: CR)
    requires Covers(nodes, crs) && Covers(nodes, crs + [c])
    ensures c.uid in nodes
    ensures NodesOf(nodes, crs + [c]) == NodesOf(nodes, crs) + [nodes[c.uid]]
  {
    assert (crs + [c])[|crs|] == c;
  }

  lemma {:induction false} ChildrenSnocAll(crs: seq<CR>, i: nat)
    requires i < |crs|
    ensures forall u :: ChildrenOf(crs[..i + 1], u) ==
                        ChildrenOf(crs[..i], u) + if OwnedBy(crs[i], u) then [crs[i]] else []
  {
    forall u ensures ChildrenOf(crs[..i + 1], u) ==
                     ChildrenOf(crs[..i], u) + if OwnedBy(crs[i], u) then [crs[i]] else []
    {
      ChildrenSnoc(crs, i, u);
    }
  }

  /** The pointer graph is a forest: a node is listed as a child at most once, and a root never. */
  lemma {:induction false} PointersFormForest(crs: seq<CR>, roots: seq<Node>, nodes: map<UID, Node>)
    requires DistinctUids(crs) && Built(crs, roots, nodes)
    ensures forall u, v, i, j ::
              (&& u in nodes && v in nodes && 0 <= i < |nodes[u].children| && 0 <= j < |nodes[v].children|
               && nodes[u].children[i] == nodes[v].children[j]) ==> u == v && i == j
    ensures forall u :: u in nodes ==> forall r :: r in roots ==> r !in nodes[u].children
    ensures forall i, j :: 0 <= i < j < |roots| ==> roots[i] != roots[j]
  {
    RootsOfMembers(crs, crs);
    forall u | u in nodes
      ensures DistinctUids(ChildrenOf(crs, u))
      ensures forall c :: c in ChildrenOf(crs, u) ==> OwnedBy(c, u)
    {
      ChildrenOfMembers(crs, u);
    }
    forall u, v, i, j |
      && u in nodes && v in nodes && 0 <= i < |nodes[u].children| && 0 <= j < |nodes[v].children|
      && nodes[u].children[i] == nodes[v].children[j]
      ensures u == v && i == j
    {
      ChildAt(crs, roots, nodes, u, i);
      ChildAt(crs, roots, nodes, v, j);
    }
    forall u, r | u in nodes && r in roots ensures r !in nodes[u].children {
      var k :| 0 <= k < |roots| && roots[k] == r;
      assert RootsOf(crs, crs)[k] in RootsOf(crs, crs);
      assert nodes[u].cr in crs && nodes[u].cr.uid == u;
      if i :| 0 <= i < |nodes[u].children| && nodes[u].children[i] == r {
        ChildAt(crs, roots, nodes, u, i);
        assert false;
      }
    }
  }

  lemma {:induction false} ChildAt(crs: seq<CR>, roots: seq<Node>, nodes: map<UID, Node>, u: UID, i: nat)
    requires Built(crs, roots, nodes) && u in nodes && i < |nodes[u].children|
    ensures |ChildrenOf(crs, u)| == |nodes[u].children|
    ensures nodes[u].children[i].cr == ChildrenOf(crs, u)[i]
    ensures OwnedBy(ChildrenOf(crs, u)[i], u)
  {
    ChildrenOfMembers(crs, u);
    var c := ChildrenOf(crs, u)[i];
    assert c in ChildrenOf(crs, u);
    assert nodes[u].children[i] == nodes[c.uid];
  }

  /** The nodes stand for these trees; this is what makes the recursion over them well-founded. */
  ghost predicate Models(ns: seq<Node>, trees: seq<Tree>, repr: set<Node>)
    reads repr
    decreases trees
  {
    && |ns| == |trees|
    && forall i :: 0 <= i < |ns| ==>
                     && ns[i] in repr && ns[i].cr == trees[i].cr
                     && Models(ns[i].children, trees[i].kids, repr)
  }

  lemma {:induction false} GraphModelsForest(crs: seq<CR>, roots: seq<Node>, nodes: map<UID, Node>, path: seq<CR>)
    requires DistinctUids(crs) && Built(crs, roots, nodes) && Chain(crs, path)
    ensures Covers(nodes, Below(crs, path))
    ensures Models(NodesOf(nodes, Below(crs, path)), Forest(crs, path), nodes.Values)
    decreases Rest(crs, path)
  {
    var level, trees := Below(crs, path), Forest(crs, path);
    assert Covers(nodes, level) by {
      BelowInside(crs, path);
    }
    var ns := NodesOf(nodes, level);
    forall i | 0 <= i < |ns|
      ensures ns[i] in nodes.Values && ns[i].cr == trees[i].cr
      ensures Models(ns[i].children, trees[i].kids, nodes.Values)
    {
      BelowInside(crs, path);
      assert level[i] in level;
      KidsOf(crs, path, i);
      GraphModelsForest(crs, roots, nodes, path + [level[i]]);
    }
  }

  lemma {:induction false} BelowInside(crs: seq<CR>, path: seq<CR>)
    ensures forall c :: c in Below(crs, path) ==> c in crs
  {
    RootsOfMembers(crs, crs);
    if path != [] {
      ChildrenOfMembers(crs, path[|path| - 1].uid);
    }
  }
}
