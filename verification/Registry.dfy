/** The registry that probes report to: an HTTP server over a concurrent map from system UUID to server details. */
module Registry {
  import opened Options

  type Details = seq<string>

  datatype Verb = GET | POST | DELETE | OtherVerb

  /** `registration` is the decoded body; None is a body that does not decode. */
  datatype Request = Request(verb: Verb, path: string, registration: Option<(string, Details)>)

  datatype Response = Response(status: int, body: Option<Details>)

  const Ok := 200
  const Created := 201
  const BadRequest := 400
  const NotFound := 404
  const MethodNotAllowed := 405

  /** What happened to the store, oldest first. */
  datatype Event = Registered(uuid: string, details: Details) | Removed(uuid: string)

  // ----- the meaning of a history -----

  /** The store that a history leads to. */
  function Replay(log: seq<Event>): map<string, Details> {
    if log == [] then map[] else
      var before, last := Replay(log[..|log| - 1]), log[|log| - 1];
      match last
      case Registered(uuid, details) => before[uuid := details]
      case Removed(uuid) => before - {uuid}
  }

  /** Event `i` registers these details for the system, and nothing happens to that system afterwards. */
  ghost predicate LastWord(log: seq<Event>, i: nat, uuid: string, details: Details) {
    && i < |log| && log[i] == Registered(uuid, details)
    && forall j :: i < j < |log| ==> log[j].uuid != uuid
  }

  /**
   * The store holds, for each system, the details last registered for it and not deleted since: it holds them if and
   * only if the history has such a registration.
   */
  lemma {:induction false} StoreHoldsLastWord(log: seq<Event>, uuid: string, details: Details)
    ensures uuid in Replay(log) && Replay(log)[uuid] == details <==> exists i: nat :: LastWord(log, i, uuid, details)
  {
    if log != [] {
      var before, last := log[..|log| - 1], |log| - 1;
      StoreHoldsLastWord(before, uuid, details);
      if log[last].uuid == uuid {
        if uuid in Replay(log) && Replay(log)[uuid] == details {
          assert LastWord(log, last, uuid, details);
        }
        forall i: nat | LastWord(log, i, uuid, details) ensures uuid in Replay(log) && Replay(log)[uuid] == details {
          assert i == last;
        }
      } else {
        forall i: nat | LastWord(before, i, uuid, details) ensures LastWord(log, i, uuid, details) {
          assert log[i] == before[i];
        }
        forall i: nat | LastWord(log, i, uuid, details) ensures LastWord(before, i, uuid, details) {
        }
      }
    }
  }

  /** A system is known exactly if there is a last word on it. */
  lemma {:induction false} KnownHasLastWord(log: seq<Event>, uuid: string)
    ensures uuid in Replay(log) <==> exists d, i: nat :: LastWord(log, i, uuid, d)
  {
    if uuid in Replay(log) {
      StoreHoldsLastWord(log, uuid, Replay(log)[uuid]);
    }
    forall d, i: nat | LastWord(log, i, uuid, d) ensures uuid in Replay(log) {
      StoreHoldsLastWord(log, uuid, d);
    }
  }

  // ----- paths -----

  const SystemsPath := "/systems/"
  const DeletePath := "/delete/"
  const RegisterPath := "/register"

  lemma {:induction false} PathsAreDistinct(path: string)
    ensures !(DeletePath <= RegisterPath) && !(SystemsPath <= RegisterPath)
    ensures !(DeletePath <= path && SystemsPath <= path)
  {
    assert RegisterPath[1] == 'r' && DeletePath[1] == 'd' && SystemsPath[1] == 's';
  }

  function Suffix(path: string, prefix: string): (uuid: string)
    requires prefix <= path
    ensures prefix + uuid == path
  {
    path[|prefix|..]
  }

  /** What a lookup answers, given the store. */
  function Answer(store: map<string, Details>, uuid: string): Response {
    if uuid in store then Response(Ok, Some(store[uuid])) else Response(NotFound, None)
  }

  /** `log` is what happened to the store, `mine` the part of it done by the request being looked at. */
  class RegistryServer {
    var systemsStore: map<string, Details>
    ghost var log: seq<Event>
    ghost var mine: seq<Event>

    ghost predicate Valid()
      reads this
    {
      systemsStore == Replay(log)
    }

    constructor ()
      ensures Valid() && log == [] && mine == []
    {
      systemsStore, log, mine := map[], [], [];
    }

    method Store(uuid: string, details: Details)
      requires Valid()
      modifies this
      ensures Valid() && log == old(log) + [Registered(uuid, details)]
      ensures mine == old(mine) + [Registered(uuid, details)]
    {
      systemsStore := systemsStore[uuid := details];
      log, mine := log + [Registered(uuid, details)], mine + [Registered(uuid, details)];
      assert log[..|log| - 1] == old(log);
    }

    method Remove(uuid: string)
      requires Valid()
      modifies this
      ensures Valid() && log == old(log) + [Removed(uuid)] && mine == old(mine) + [Removed(uuid)]
    {
      systemsStore := systemsStore - {uuid};
      log, mine := log + [Removed(uuid)], mine + [Removed(uuid)];
      assert log[..|log| - 1] == old(log);
    }

    /** Requests are served concurrently: between two accesses of one handler, others may store and delete. */
    method Others()
      requires Valid()
      modifies this
      ensures Valid() && old(log) <= log && mine == old(mine)
    {
      var more: nat := *;
      while more > 0
        invariant Valid() && old(log) <= log
      {
        var uuid: string, details: Details, store: bool := *, *, *;
        if store {
          Store(uuid, details);
        } else {
          Remove(uuid);
        }
        more := more - 1;
      }
      mine := old(mine);
    }

    /** Only a POST with a body that decodes stores anything, and it stores exactly what it was given. */
    method RegisterHandler(r: Request) returns (resp: Response)
      requires Valid()
      modifies this
      ensures Valid() && old(log) <= log && resp.body == None
      ensures resp.status == (if r.verb != POST then MethodNotAllowed
                              else if r.registration.None? then BadRequest else Created)
      ensures resp.status != Created ==> mine == old(mine)
      ensures resp.status == Created ==>
                && |log| > |old(log)| && log[|log| - 1] == Registered(r.registration.value.0, r.registration.value.1)
                && mine == old(mine) + [log[|log| - 1]]
    {
      Others();
      if r.verb != POST {
        return Response(MethodNotAllowed, None);
      }
      if r.registration.None? {
        return Response(BadRequest, None);
      }
      var (uuid, details) := r.registration.value;
      Store(uuid, details);
      return Response(Created, None);
    }

    /**
     * A lookup changes nothing and answers with the store as it was at one moment, `at`, while the request was
     * served.
     */
    method SystemsHandler(r: Request) returns (resp: Response, ghost at: nat)
      requires Valid() && SystemsPath <= r.path
      modifies this
      ensures Valid() && |old(log)| <= at <= |log| && old(log) <= log && mine == old(mine)
      ensures resp == if r.verb != GET then Response(MethodNotAllowed, None)
                      else Answer(Replay(log[..at]), Suffix(r.path, SystemsPath))
    {
      Others();
      at := |log|;
      ghost var seen := log;
      if r.verb != GET {
        return Response(MethodNotAllowed, None), at;
      }
      var uuid := Suffix(r.path, SystemsPath);
      resp := Answer(systemsStore, uuid);
      Others();
      assert log[..at] == seen;
    }

    /**
     * A deletion looks first and deletes afterwards. It answers 404 only if at some moment the system was unknown, and
     * 200 only if it was known at some moment; then its last act removed the system, even one registered in between.
     */
    method DeleteHandler(r: Request) returns (resp: Response, ghost at: nat)
      requires Valid() && DeletePath <= r.path
      modifies this
      ensures Valid() && |old(log)| <= at <= |log| && old(log) <= log && resp.body == None
      ensures resp.status == (if r.verb != DELETE then MethodNotAllowed
                              else Answer(Replay(log[..at]), Suffix(r.path, DeletePath)).status)
      ensures resp.status != Ok ==> mine == old(mine)
      ensures resp.status == Ok ==>
                && at < |log| && log[|log| - 1] == Removed(Suffix(r.path, DeletePath))
                && mine == old(mine) + [log[|log| - 1]]
    {
      Others();
      at := |log|;
      ghost var seen := log;
      assert log[..at] == seen;
      if r.verb != DELETE {
        return Response(MethodNotAllowed, None), at;
      }
      var uuid := Suffix(r.path, DeletePath);
      if uuid !in systemsStore {
        return Response(NotFound, None), at;
      }
      Others();
      Remove(uuid);
      assert log[..at] == seen;
      return Response(Ok, None), at;
    }

    /**
     * The mux: one exact path and two prefixes; anything else is unknown. A registration that is answered with 201 is
     * the last word on its system; a deletion that is answered with 200 has removed its system; a lookup answers with
     * the last word on the system it asks for, and with 404 if there is none. Nothing else writes.
     */
    method Serve(r: Request) returns (resp: Response, ghost at: nat)
      requires Valid()
      modifies this
      ensures Valid() && |old(log)| <= at <= |log| && old(log) <= log
      // registrations
      ensures r.path == RegisterPath ==>
                resp.status == if r.verb != POST then 405 else if r.registration.None? then 400 else 201
      ensures r.path == RegisterPath && resp.status == 201 ==>
                && |log| > |old(log)| && mine == old(mine) + [log[|log| - 1]]
                && LastWord(log, |log| - 1, r.registration.value.0, r.registration.value.1)
      // deletions
      ensures DeletePath <= r.path && r.verb != DELETE ==> resp.status == 405
      ensures DeletePath <= r.path && r.verb == DELETE ==>
                && (resp.status == 200 || resp.status == 404)
                && (resp.status == 200 <==> exists d, i: nat :: LastWord(log[..at], i, Suffix(r.path, DeletePath), d))
      ensures DeletePath <= r.path && resp.status == 200 ==>
                && |log| > |old(log)| && log[|log| - 1] == Removed(Suffix(r.path, DeletePath))
                && mine == old(mine) + [log[|log| - 1]]
      // lookups
      ensures SystemsPath <= r.path && r.verb != GET ==> resp.status == 405
      ensures SystemsPath <= r.path && r.verb == GET ==>
                && (resp.status == 200 || resp.status == 404) && (resp.status == 200 <==> resp.body.Some?)
      ensures resp.body.Some? ==>
                && SystemsPath <= r.path && r.verb == GET
                && exists i: nat :: LastWord(log[..at], i, Suffix(r.path, SystemsPath), resp.body.value)
      ensures resp.status == 404 && r.verb == GET && SystemsPath <= r.path ==>
                forall d, i: nat :: !LastWord(log[..at], i, Suffix(r.path, SystemsPath), d)
      // the rest
      ensures r.path != RegisterPath && !(DeletePath <= r.path) && !(SystemsPath <= r.path) ==> resp.status == 404
      ensures !(r.path == RegisterPath && resp.status == 201) && !(DeletePath <= r.path && resp.status == 200) ==>
                mine == old(mine)
    {
      PathsAreDistinct(r.path);
      if r.path == RegisterPath {
        resp := RegisterHandler(r);
        at := |log|;
      } else if DeletePath <= r.path {
        resp, at := DeleteHandler(r);
        KnownHasLastWord(log[..at], Suffix(r.path, DeletePath));
      } else if SystemsPath <= r.path {
        resp, at := SystemsHandler(r);
        ghost var uuid := Suffix(r.path, SystemsPath);
        KnownHasLastWord(log[..at], uuid);
        if resp.body.Some? {
          StoreHoldsLastWord(log[..at], uuid, resp.body.value);
        }
      } else {
        resp, at := Response(NotFound, None), |log|;
      }
    }
  }
}
