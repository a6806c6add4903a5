/** Custom resources as `metalctl move` sees them, and the cluster they are moved to. */
module Resources {
  import opened Options

  type UID = nat

  /** What identifies an object in a cluster: its kind, namespace and name. */
  datatype Key = Key(kind: string, namespace: string, name: string)

  datatype OwnerRef = OwnerRef(kind: string, name: string, uid: UID)

  datatype Condition = Condition(kind: string, value: string, lastTransitionTime: Option<int>)

  /** A status: its condition list, when it has one, and everything else it holds. */
  datatype Status = Status(conditions: Option<seq<Condition>>, fields: string)

  /** `resourceVersion == 0` is the empty version. `body` is all that the API server stores as given: the spec,
      labels, annotations. */
  datatype CR = CR(key: Key, uid: UID, resourceVersion: nat, generation: int, creationTimestamp: int,
                   managedFields: string, owners: seq<OwnerRef>, body: string, status: Option<Status>)

  /** A CR with the fields removed that clearFields deletes. */
  datatype Bare = Bare(key: Key, owners: seq<OwnerRef>, body: string, status: Option<Status>)

  function Untimed(c: Condition): Condition {
    c.(lastTransitionTime := None)
  }

  function ClearFields(cr: CR): Bare {
    var status := match cr.status
      case Some(Status(Some(cs), fields)) =>
        Some(Status(Some(seq(|cs|, i requires 0 <= i < |cs| => Untimed(cs[i]))), fields))
      case other => other;
    Bare(cr.key, cr.owners, cr.body, status)
  }

  /** The same conditions, whenever they were last changed. */
  predicate SameConditions(a: seq<Condition>, b: seq<Condition>) {
    |a| == |b| && forall i :: 0 <= i < |a| ==> a[i].kind == b[i].kind && a[i].value == b[i].value
  }

  predicate SameStatus(a: Option<Status>, b: Option<Status>) {
    match (a, b)
    case (None, None) => true
    case (Some(Status(None, f)), Some(Status(None, g))) => f == g
    case (Some(Status(Some(cs), f)), Some(Status(Some(ds), g))) => f == g && SameConditions(cs, ds)
    case _ => false
  }

  /** Two objects of one name that `metalctl move` takes for equal: owners, content and status agree. */
  predicate SameContent(a: CR, b: CR) {
    a.key == b.key && a.owners == b.owners && a.body == b.body && SameStatus(a.status, b.status)
  }

  /** What is left after clearing tells two objects apart exactly if their owners, content or status differ. */
  lemma {:induction false} ClearFieldsIsContent(a: CR, b: CR)
    ensures ClearFields(a) == ClearFields(b) <==> SameContent(a, b)
  {
    match (a.status, b.status) {
      case (Some(Status(Some(cs), _)), Some(Status(Some(ds), _))) => UntimedIsSame(cs, ds);
      case _ =>
    }
  }

  lemma {:induction false} UntimedIsSame(cs: seq<Condition>, ds: seq<Condition>)
    ensures var us := seq(|cs|, i requires 0 <= i < |cs| => Untimed(cs[i]));
            var vs := seq(|ds|, i requires 0 <= i < |ds| => Untimed(ds[i]));
            us == vs <==> SameConditions(cs, ds)
  {
    var us := seq(|cs|, i requires 0 <= i < |cs| => Untimed(cs[i]));
    var vs := seq(|ds|, i requires 0 <= i < |ds| => Untimed(ds[i]));
    if us == vs {
      forall i | 0 <= i < |cs| ensures |cs| == |ds| && cs[i].kind == ds[i].kind && cs[i].value == ds[i].value {
        assert us[i] == vs[i];
      }
      assert |us| == |vs|;
    }
  }

  predicate DistinctUids(crs: seq<CR>) {
    forall i, j :: 0 <= i < j < |crs| ==> crs[i].uid != crs[j].uid
  }

  predicate DistinctKeys(crs: seq<CR>) {
    forall i, j :: 0 <= i < j < |crs| ==> crs[i].key != crs[j].key
  }

  function Keys(crs: seq<CR>): set<Key> {
    if crs == [] then {} else Keys(crs[..|crs| - 1]) + {crs[|crs| - 1].key}
  }

  lemma {:induction false} KeysMembers(crs: seq<CR>)
    ensures forall k :: k in Keys(crs) <==> exists i :: 0 <= i < |crs| && crs[i].key == k
  {
    if crs != [] {
      KeysMembers(crs[..|crs| - 1]);
    }
  }

  lemma {:induction false} KeysOfSum(a: seq<CR>, b: seq<CR>)
    ensures Keys(a + b) == Keys(a) + Keys(b)
  {
    if b == [] {
      assert a + b == a;
    } else {
      KeysOfSum(a, b[..|b| - 1]);
      assert (a + b)[..|a + b| - 1] == a + b[..|b| - 1];
    }
  }

  datatype Lookup = Found(cr: CR) | NotFound | Failed

  /**
   * The target cluster. Any call may fail on its own account; `faults` counts those failures. A created object may
   * be reported as missing for a while; `lagging` are the keys for which that can happen. `stages` records the set of
   * keys present after every write, `removals` which of these writes were deletions.
   */
  class Cluster {
    var objects: map<Key, CR>
    var nextUid: UID
    var revision: nat
    var lagging: set<Key>
    ghost var faults: nat
    ghost var stages: seq<set<Key>>
    ghost var removals: set<nat>

    ghost predicate Valid()
      reads this
    {
      forall k :: k in objects ==> objects[k].key == k && objects[k].uid < nextUid
    }

    /** Stores `cr` under a fresh UID and without its status. An existing object or a set version is refused. */
    method Create(cr: CR) returns (created: Option<CR>)
      requires Valid()
      modifies this
      ensures Valid() && faults >= old(faults) && removals == old(removals)
      ensures created.None? ==> objects == old(objects) && stages == old(stages) && lagging == old(lagging)
      ensures created.None? && faults == old(faults) ==> cr.key in old(objects) || cr.resourceVersion != 0
      ensures created.Some? ==>
                && cr.key !in old(objects)
                && objects == old(objects)[cr.key := created.value]
                && stages == old(stages) + [objects.Keys]
                && created.value.key == cr.key && created.value.owners == cr.owners
                && created.value.body == cr.body && created.value.status == None
                && created.value.uid == old(nextUid)
    {
      if * {
        faults := faults + 1;
        return None;
      }
      if cr.key in objects || cr.resourceVersion != 0 {
        return None;
      }
      var clock: int := *;
      var manager: string := *;
      var stored := cr.(uid := nextUid, resourceVersion := revision + 1, generation := 1, creationTimestamp := clock,
                        managedFields := manager, status := None);
      objects, nextUid, revision := objects[cr.key := stored], nextUid + 1, revision + 1;
      lagging := lagging + {cr.key};
      stages := stages + [objects.Keys];
      return Some(stored);
    }

    /** Reads one object; an object that is there is reported as missing only while it lags. */
    method Get(key: Key) returns (r: Lookup)
      modifies this`faults
      ensures faults >= old(faults)
      ensures r.Found? ==> key in objects && r.cr == objects[key]
      ensures r.NotFound? && key in objects ==> key in lagging
      ensures !r.Found? && faults == old(faults) ==> r.NotFound? && key !in objects
    {
      var late: bool, fails: bool := *, *;
      if late && key in lagging {
        faults := faults + 1;
        return NotFound;
      } else if fails {
        faults := faults + 1;
        return Failed;
      }
      return if key in objects then Found(objects[key]) else NotFound;
    }

    /** Replaces the status of an object; a copy older than the stored object is refused. */
    method UpdateStatus(cr: CR) returns (ok: bool)
      requires Valid()
      modifies this
      ensures Valid() && faults >= old(faults) && removals == old(removals)
      ensures !ok ==> objects == old(objects) && stages == old(stages)
      ensures !ok && faults == old(faults) ==>
                cr.key !in objects || old(objects[cr.key].resourceVersion) != cr.resourceVersion
      ensures ok ==>
                && cr.key in old(objects) && cr.key in objects
                && objects == old(objects)[cr.key := objects[cr.key]]
                && stages == old(stages) + [objects.Keys]
                && objects[cr.key].status == cr.status
                && objects[cr.key] == old(objects)[cr.key].(status := cr.status,
                                                            resourceVersion := objects[cr.key].resourceVersion)
    {
      if * {
        faults := faults + 1;
        return false;
      }
      if cr.key !in objects || objects[cr.key].resourceVersion != cr.resourceVersion {
        return false;
      }
      var stored := objects[cr.key].(status := cr.status, resourceVersion := revision + 1);
      objects, revision := objects[cr.key := stored], revision + 1;
      stages := stages + [objects.Keys];
      return true;
    }

    /** Time passes: everything created so far is visible. */
    method Settle()
      modifies this`lagging
      ensures lagging == {}
    {
      lagging := {};
    }

    method Delete(key: Key) returns (ok: bool)
      requires Valid()
      modifies this
      ensures Valid() && faults >= old(faults)
      ensures ok ==> key in old(objects) && objects == old(objects) - {key} && stages == old(stages) + [objects.Keys]
      ensures !ok ==> objects == old(objects) && stages == old(stages)
      ensures removals == old(removals) + if ok then {|old(stages)|} else {}
      ensures !ok && faults == old(faults) ==> key !in objects
    {
      if * {
        faults := faults + 1;
        return false;
      }
      if key !in objects {
        return false;
      }
      objects, revision := objects - {key}, revision + 1;
      removals := removals + {|stages|};
      stages := stages + [objects.Keys];
      return true;
    }
  }
}
