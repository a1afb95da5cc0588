/**
 What can be reached: a builder can get any free ports it asks for, and a deletion that has begun
 can come to its end.  So the results on ports and deletions are about runs that there are.
 */
module ClusterProgress {
  import opened Sequences
  import opened Orchestration
  import opened Cluster
  import opened Sweeping

  // ------------------------------------------------------------------ ports

  // The port is of the range, and nothing is there in its place
  predicate IsFree(s: State, port: int) {
    InRange(port) && Port(port) !in s.objects
  }

  // A builder at work, whose orchestration's ConfigMaps nobody has begun to delete
  predicate IsAtWork(w: World, t: TaskId) {
    && InPhase(w.state, t, Building)
    && var o := w.state.tasks[t].owner;
      o in w.state.stages && !w.state.stages[o].PortsGone() && (o in w.sweeps ==> !w.sweeps[o].PortsGone())
  }

  // Everything else is as before: one task more, and one object more
  predicate OnlyAdds(w: World, w': World, c: TaskId, task: Task, port: int) {
    && c !in w.state.tasks && Port(port) !in w.state.objects && w'.sweeps == w.sweeps
    && w'.state == w.state.(
        tasks := w.state.tasks[c := task], objects := w.state.objects[Port(port) := task.owner])
  }

  function Asks(c: TaskId, t: TaskId, port: int): seq<Event>
    requires InRange(port)
  {
    [Step(SpawnReserve(c, t))] + ([Step(Attempt(c, port - NUMBER_PORT_INIT, Accepted))] + [])
  }

  // One port more
  lemma GetsPort(w: World, t: TaskId, port: int) returns (c: TaskId, run: seq<Event>)
    requires IsAtWork(w, t) && IsFree(w.state, port)
    ensures CanRun(w, run) && OnlyAdds(w, After(w, run), c, Task(w.state.tasks[t].owner, t, Holding(port)), port)
  {
    c := FreshTask(w.state.tasks.Keys);
    var w1 := Happen(w, Step(SpawnReserve(c, t)));
    var a := Attempt(c, port - NUMBER_PORT_INIT, Accepted);
    assert w1.state.tasks[c].phase == Reserving(AllPorts());
    RunsOn(w1, Step(a), []);
    RunsOn(w, Step(SpawnReserve(c, t)), [Step(a)] + []);
    run := Asks(c, t, port);
    assert After(w, run).state.tasks == w.state.tasks[c := Task(w.state.tasks[t].owner, t, Holding(port))];
  }

  // The threads hold these ports for t, and t has no other children
  predicate HaveGot(s: State, t: TaskId, threads: seq<TaskId>, ports: seq<int>) {
    && |threads| == |ports| && Distinct(threads)
    && (forall i :: 0 <= i < |threads| ==> IsChild(s, threads[i], t) && s.tasks[threads[i]].phase == Holding(ports[i]))
    && (forall c <- s.tasks :: IsChild(s, c, t) ==> c in threads)
  }

  lemma OneMoreGot(w: World, w': World, t: TaskId, threads: seq<TaskId>, ports: seq<int>, c: TaskId, port: int)
    requires IsAtWork(w, t) && HaveGot(w.state, t, threads, ports)
    requires OnlyAdds(w, w', c, Task(w.state.tasks[t].owner, t, Holding(port)), port)
    ensures IsAtWork(w', t) && HaveGot(w'.state, t, threads + [c], ports + [port])
    ensures forall q :: IsFree(w.state, q) && q != port ==> IsFree(w'.state, q)
  {
    forall i | 0 <= i < |threads| ensures threads[i] != c { assert IsChild(w.state, threads[i], t); }
    DistinctAppend(threads, c);
    var more := threads + [c];
    forall d | d in w'.state.tasks && IsChild(w'.state, d, t) ensures d in more {
      if d != c { assert IsChild(w.state, d, t); }
    }
  }

  lemma {:induction false} GetsPorts(w: World, t: TaskId, ports: seq<int>)
    returns (threads: seq<TaskId>, run: seq<Event>)
    requires IsAtWork(w, t) && HaveGot(w.state, t, [], []) && Distinct(ports)
    requires forall i :: 0 <= i < |ports| ==> IsFree(w.state, ports[i])
    ensures CanRun(w, run) && IsAtWork(After(w, run), t) && HaveGot(After(w, run).state, t, threads, ports)
    ensures forall q :: IsFree(w.state, q) && q !in ports ==> IsFree(After(w, run).state, q)
    decreases |ports|
  {
    threads, run := [], [];
    if ports != [] {
      var n := |ports| - 1;
      var run1, run2, c;
      threads, run1 := GetsPorts(w, t, ports[..n]);
      var w1 := After(w, run1);
      assert ports == ports[..n] + [ports[n]] && ports[n] !in ports[..n];
      c, run2 := GetsPort(w1, t, ports[n]);
      OneMoreGot(w1, After(w1, run2), t, threads, ports[..n], c, ports[n]);
      AfterConcat(w, run1, run2);
      threads, run := threads + [c], run1 + run2;
    }
  }

  // A builder without threads can get any ports that are free, and succeed with exactly those
  lemma PortsCanBeGot(w: World, t: TaskId, ports: seq<int>) returns (threads: seq<TaskId>, run: seq<Event>)
    requires IsAtWork(w, t) && HaveGot(w.state, t, [], []) && Distinct(ports)
    requires forall i :: 0 <= i < |ports| ==> IsFree(w.state, ports[i])
    ensures CanRun(w, run) && InPhase(After(w, run).state, t, Done)
    ensures HaveGot(After(w, run).state, t, threads, ports)
  {
    var run1;
    threads, run1 := GetsPorts(w, t, ports);
    var w1 := After(w, run1);
    CanSucceed(w1, t, threads, ports);
    RunsOn(w1, Step(EndTask(t, true)), []);
    AfterConcat(w, run1, [Step(EndTask(t, true))] + []);
    run := run1 + ([Step(EndTask(t, true))] + []);
  }

  lemma CanSucceed(w: World, t: TaskId, threads: seq<TaskId>, ports: seq<int>)
    requires IsAtWork(w, t) && HaveGot(w.state, t, threads, ports)
    ensures Occurs(w, Step(EndTask(t, true)))
    ensures HaveGot(Happen(w, Step(EndTask(t, true))).state, t, threads, ports)
  {
    var s := w.state;
    forall c | c in s.tasks && IsChild(s, c, t) ensures s.tasks[c].phase.Holding? {
      var i :| 0 <= i < |threads| && threads[i] == c;
    }
    forall c | c in s.tasks && IsReserving(s, c) ensures s.tasks[c].parent != t {
      assert c != t;
    }
    var s' := Happen(w, Step(EndTask(t, true))).state;
    forall c | c in s'.tasks && IsChild(s', c, t) ensures c in threads { assert IsChild(s, c, t); }
  }

  // ------------------------------------------------------------------ deletions

  lemma {:induction false} DeletionGoesOn(w: World, o: OrchId) returns (run: seq<Event>)
    requires o in w.state.stages && w.state.stages[o].Tearing()
    ensures CanRun(w, run) && InStage(After(w, run).state, o, Deleted)
    decreases Rank(w.state.stages[o]), Pending(w.state.stages[o])
  {
    var stage := w.state.stages[o];
    if stage.Deleted? { return []; }
    var a := Advance(o);
    if n :| n in Pending(stage) { a := DeleteOne(o, n); } else { assert Pending(stage) == {}; }
    var rest := DeletionGoesOn(Happen(w, Step(a)), o);
    RunsOn(w, Step(a), rest);
    run := [Step(a)] + rest;
  }

  // A creation that fails while nothing builds for it can delete its id, whatever there is of it,
  // and then nothing of it is left
  lemma DeletionCanEnd(run: seq<Event>, o: OrchId) returns (more: seq<Event>)
    requires CanRun(Empty, run) && InStage(After(Empty, run).state, o, Draining) && o !in After(Empty, run).sweeps
    requires forall t <- After(Empty, run).state.tasks ::
               After(Empty, run).state.tasks[t].owner == o ==> After(Empty, run).state.tasks[t].phase != Building
    ensures CanRun(Empty, run + more) && InStage(After(Empty, run + more).state, o, Deleted)
  {
    var w := After(Empty, run);
    var rest := DeletionGoesOn(Happen(w, Step(BeginDelete(o))), o);
    RunsOn(w, Step(BeginDelete(o)), rest);
    more := [Step(BeginDelete(o))] + rest;
    AfterConcat(Empty, run, more);
  }
}
