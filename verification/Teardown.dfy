/** The ids alive in one process, and their deletion one after the other. */
module Teardown {
  import opened Sequences
  import opened Orchestration

  // What is left of the cluster when every object of the given ids is gone
  function WithoutOwners(objects: Objects, ids: set<OrchId>): Objects {
    map n | n in objects && objects[n] !in ids :: objects[n]
  }

  datatype Kind = Deployments | Pods | ConfigMaps

  predicate OfKind(n: Name, kind: Kind) {
    match kind
    case Deployments => n.Deployment?
    case Pods => n.Pod?
    case ConfigMaps => n.IsConfigMap()
  }

  function WithoutKind(objects: Objects, o: OrchId, kind: Kind): Objects {
    map n | n in objects && !(OfKind(n, kind) && objects[n] == o) :: objects[n]
  }

  function Found(objects: Objects, o: OrchId, kind: Kind): set<Name> {
    set n | n in objects && OfKind(n, kind) && objects[n] == o
  }

  lemma MinusFound(objects: Objects, o: OrchId, kind: Kind)
    ensures objects - Found(objects, o, kind) == WithoutKind(objects, o, kind)
  {
  }

  lemma AllKinds(objects: Objects, o: OrchId)
    ensures WithoutKind(WithoutKind(WithoutKind(objects, o, Deployments), o, Pods), o, ConfigMaps)
      == WithoutOwners(objects, {o})
  {
  }

  lemma WithoutOneMore(objects: Objects, ids: set<OrchId>, id: OrchId)
    ensures WithoutOwners(WithoutOwners(objects, ids), {id}) == WithoutOwners(objects, ids + {id})
  {
  }

  function RemoveFirst(ids: seq<OrchId>, id: OrchId): seq<OrchId> {
    if ids == [] then [] else if ids[0] == id then ids[1..] else [ids[0]] + RemoveFirst(ids[1..], id)
  }

  lemma {:induction false} RemoveFirstFromDistinct(ids: seq<OrchId>, id: OrchId)
    requires Distinct(ids)
    ensures Distinct(RemoveFirst(ids, id))
    ensures forall x :: x in RemoveFirst(ids, id) <==> x in ids && x != id
  {
    if ids != [] {
      assert ids == [ids[0]] + ids[1..] && ids[0] !in ids[1..];
      if ids[0] != id {
        RemoveFirstFromDistinct(ids[1..], id);
        assert ids[0] !in RemoveFirst(ids[1..], id);
      }
    }
  }

  lemma HasFirst(ids: seq<OrchId>)
    requires ids != []
    ensures exists id :: id in ids
  {
    assert ids[0] in ids;
  }

  class OrchestratorManager {
    // Ids this process created and has not deleted, in order of creation
    var alive: seq<OrchId>
    // The cluster, as the calls below leave it
    var objects: Objects

    // An id is alive once: the cluster accepted its ConfigMap only once
    predicate Valid()
      reads this
    {
      Distinct(alive)
    }

    constructor (objects: Objects)
      ensures Valid() && alive == [] && this.objects == objects
    {
      alive := [];
      this.objects := objects;
    }

    method AppendToAlive(id: OrchId)
      requires Valid() && id !in alive
      modifies this`alive
      ensures Valid() && alive == old(alive) + [id]
    {
      alive := alive + [id];
    }

    method RemoveFromAlive(id: OrchId)
      requires Valid()
      modifies this`alive
      ensures Valid() && alive == RemoveFirst(old(alive), id)
    {
      RemoveFirstFromDistinct(alive, id);
      alive := RemoveFirst(alive, id);
    }

    // Collect, then delete one by one, the objects of one kind that carry the id
    method DeleteKind(o: OrchId, kind: Kind)
      modifies this`objects
      ensures objects == WithoutKind(old(objects), o, kind)
    {
      var found := Found(objects, o, kind);
      var pending := found;
      while pending != {}
        invariant pending <= found && objects == old(objects) - (found - pending)
        decreases |pending|
      {
        var name :| name in pending;
        objects := objects - {name};
        pending := pending - {name};
      }
      assert found - {} == found;
      MinusFound(old(objects), o, kind);
    }

    // delete_all_by_orchid without dry run: deployments first, so that none replicates pods later
    method DeleteAllByOrchid(o: OrchId)
      modifies this`objects
      ensures objects == WithoutOwners(old(objects), {o})
    {
      DeleteKind(o, Deployments);
      DeleteKind(o, Pods);
      DeleteKind(o, ConfigMaps);
      AllKinds(old(objects), o);
    }

    // One failed creation passes its own id, yet every id alive in the process is deleted: the
    // orchestrations that process had already handed out, or is still building, go too.
    method DeleteOrchestrationNetwork(given: seq<OrchId>)
      requires Valid()
      modifies this
      ensures objects == WithoutOwners(old(objects), (set id | id in old(alive)) + (set id | id in given))
      ensures alive == []
    {
      var ids := (set id | id in alive) + (set id | id in given);
      ghost var done: set<OrchId> := {};
      var rest := ids;
      while rest != {}
        invariant Valid() && ids == done + rest
        invariant objects == WithoutOwners(old(objects), done)
        invariant forall id <- alive :: id in rest
        decreases |rest|
      {
        var id :| id in rest;
        WithoutOneMore(old(objects), done, id);
        DeleteAllByOrchid(id);
        RemoveFirstFromDistinct(alive, id);
        RemoveFromAlive(id);
        done := done + {id};
        rest := rest - {id};
      }
      if alive != [] {
        HasFirst(alive);
        assert false;
      }
    }
  }
}
