/** What holds in every run of the cluster: of deletions, and of the ports that are held. */
module OrchestrationResults {
  import opened Sequences
  import opened Orchestration
  import opened Cluster

  // ------------------------------------------------------------------ deletions

  // Whatever the interleaving, once the deletion of an orchestration by its own thread has ended
  // nothing in the cluster carries its id: no pod, no deployment, and no ConfigMap, not even one
  // whose create reported an error.
  lemma DeletedLeavesNothing(run: seq<Event>, o: OrchId)
    requires CanRun(Empty, run) && InStage(After(Empty, run).state, o, Deleted)
    ensures Owned(After(Empty, run).state, o) == {}
  {
    RunKeepsInv(Empty, run);
    assert SnapshotIsComplete(After(Empty, run).state, o);
  }

  // The snapshots of that deletion are taken when every worker thread has come to rest, the nested
  // ones too, although shutting the executor down awaits only the builders
  lemma DeletionStartsAtRest(run: seq<Event>, o: OrchId, t: TaskId)
    requires CanRun(Empty, run) && Occurs(After(Empty, run), Step(BeginDelete(o)))
    requires t in After(Empty, run).state.tasks && After(Empty, run).state.tasks[t].owner == o
    ensures var phase := After(Empty, run).state.tasks[t].phase;
      phase != Queued && phase != Building && !phase.Reserving?
  {
    RunKeepsInv(Empty, run);
    RestWhenDeleting(After(Empty, run).state, o, t);
  }

  lemma RestWhenDeleting(s: State, o: OrchId, t: TaskId)
    requires ReservingIsNested(s) && TasksFollowStages(s) && Enabled(s, BeginDelete(o))
    requires t in s.tasks && s.tasks[t].owner == o
    ensures var phase := s.tasks[t].phase; phase != Queued && phase != Building && !phase.Reserving?
  {
  }

  // The id whose objects an event deletes, if it is one of deleting
  predicate Deletes(e: Event, o: OrchId) {
    (e.Step? && e.a.DeleteOne? && e.a.o == o) || (e.SweepOne? && e.p == o)
  }

  // A deletion, by the own thread of an orchestration or by another, removes no object of another
  lemma DeletionSparesOthers(run: seq<Event>, e: Event, o: OrchId, n: Name)
    requires CanRun(Empty, run) && Occurs(After(Empty, run), e) && Deletes(e, o)
    requires n in After(Empty, run).state.objects && After(Empty, run).state.objects[n] != o
    ensures n in Happen(After(Empty, run), e).state.objects
  {
    RunKeepsInv(Empty, run);
    DeleteSparesOthers(After(Empty, run), e, o, n);
  }

  lemma DeleteSparesOthers(w: World, e: Event, o: OrchId, n: Name)
    requires Sound(w.state) && SweepsAreOwn(w) && Occurs(w, e) && Deletes(e, o)
    requires n in w.state.objects && w.state.objects[n] != o
    ensures n in Happen(w, e).state.objects
  {
    if e.Step? { assert SnapshotIsComplete(w.state, o); } else { SweepsItsOwn(w, o, e.name); }
  }

  // ------------------------------------------------------------------ ports

  // In every run, sweeps included: ports that are kept by distinct threads are distinct, of the
  // range, and belong to the orchestrations of their threads
  lemma GetPortsIsExclusive(run: seq<Event>, threads: seq<TaskId>, ports: seq<int>)
    requires CanRun(Empty, run) && |threads| == |ports| && Distinct(threads)
    requires forall i :: 0 <= i < |threads| ==> Keeps(After(Empty, run), threads[i], ports[i])
    ensures Distinct(ports)
    ensures forall i :: 0 <= i < |ports| ==> OwnsPort(After(Empty, run).state, threads[i], ports[i])
  {
    RunKeepsInv(Empty, run);
    KeepersAreDistinct(After(Empty, run), threads, ports);
  }

  lemma KeepersAreDistinct(w: World, threads: seq<TaskId>, ports: seq<int>)
    requires KeepersOwn(w) && KeepersAreAlone(w) && |threads| == |ports| && Distinct(threads)
    requires forall i :: 0 <= i < |threads| ==> Keeps(w, threads[i], ports[i])
    ensures Distinct(ports) && forall i :: 0 <= i < |ports| ==> OwnsPort(w.state, threads[i], ports[i])
  {
    forall i, j | 0 <= i < j < |ports| ensures ports[i] != ports[j] {
      assert Keeps(w, threads[i], ports[i]) && Keeps(w, threads[j], ports[j]);
    }
    forall i | 0 <= i < |ports| ensures OwnsPort(w.state, threads[i], ports[i]) {
      assert Keeps(w, threads[i], ports[i]);
    }
  }

  function PortsOf(s: State, threads: seq<TaskId>): (ports: seq<int>)
    requires forall i :: 0 <= i < |threads| ==> threads[i] in s.tasks && s.tasks[threads[i]].phase.Holding?
    ensures |ports| == |threads|
    ensures forall i :: 0 <= i < |threads| ==> s.tasks[threads[i]].phase == Holding(ports[i])
  {
    seq(|threads|, i requires 0 <= i < |threads| => s.tasks[threads[i]].phase.port)
  }

  // The threads of t hold distinct ports of the range, which belong to its orchestration
  predicate GotPorts(s: State, t: TaskId, threads: seq<TaskId>) {
    && t in s.tasks
    && (forall i :: 0 <= i < |threads| ==> threads[i] in s.tasks && s.tasks[threads[i]].phase.Holding?)
    && var ports := PortsOf(s, threads);
      Distinct(ports) && forall i :: 0 <= i < |ports| ==> OwnsPort(s, t, ports[i])
  }

  // Nobody has begun to delete the ConfigMaps of the orchestration of t
  predicate KeepsPorts(w: World, t: TaskId) {
    && t in w.state.tasks && w.state.tasks[t].owner in w.state.stages
    && !w.state.stages[w.state.tasks[t].owner].PortsGone()
    && (w.state.tasks[t].owner in w.sweeps ==> !w.sweeps[w.state.tasks[t].owner].PortsGone())
  }

  lemma ChildrenKeep(w: World, t: TaskId, threads: seq<TaskId>)
    requires BuildersGotPorts(w.state) && InPhase(w.state, t, Done) && KeepsPorts(w, t)
    requires forall i :: 0 <= i < |threads| ==> IsChild(w.state, threads[i], t)
    ensures forall i :: 0 <= i < |threads| ==>
      threads[i] in w.state.tasks && w.state.tasks[threads[i]].phase.Holding?
    ensures forall i :: 0 <= i < |threads| ==>
      && Keeps(w, threads[i], PortsOf(w.state, threads)[i])
      && w.state.tasks[threads[i]].owner == w.state.tasks[t].owner
  {
    forall i | 0 <= i < |threads|
      ensures threads[i] in w.state.tasks && w.state.tasks[threads[i]].phase.Holding?
      ensures w.state.tasks[threads[i]].owner == w.state.tasks[t].owner
    {
      assert GotPort(w.state, t, threads[i]);
    }
  }

  // get_ports, in every run: once a builder has succeeded, its n threads hold n distinct ports of
  // the range, which its orchestration owns, until somebody begins to delete its ConfigMaps
  lemma GetPortsReturns(run: seq<Event>, t: TaskId, threads: seq<TaskId>)
    requires CanRun(Empty, run) && InPhase(After(Empty, run).state, t, Done) && KeepsPorts(After(Empty, run), t)
    requires Distinct(threads) && forall i :: 0 <= i < |threads| ==> IsChild(After(Empty, run).state, threads[i], t)
    ensures GotPorts(After(Empty, run).state, t, threads)
  {
    RunKeepsInv(Empty, run);
    var w := After(Empty, run);
    ChildrenGotPorts(w, t, threads);
  }

  lemma ChildrenGotPorts(w: World, t: TaskId, threads: seq<TaskId>)
    requires BuildersGotPorts(w.state) && KeepersOwn(w) && KeepersAreAlone(w)
    requires InPhase(w.state, t, Done) && KeepsPorts(w, t)
    requires Distinct(threads) && forall i :: 0 <= i < |threads| ==> IsChild(w.state, threads[i], t)
    ensures GotPorts(w.state, t, threads)
  {
    ChildrenKeep(w, t, threads);
    KeepersAreDistinct(w, threads, PortsOf(w.state, threads));
  }
}
