/**
 What a sweep does to the orchestration it deletes: when it leaves nothing, and what becomes of
 the ports that its threads hold.
 */
module Sweeping {
  import opened Orchestration
  import opened Cluster

  // ------------------------------------------------------------------ at rest

  predicate Active(phase: Phase) {
    phase == Queued || phase == Building || phase.Reserving?
  }

  // No thread works for p, and its own thread will start none
  predicate AtRest(s: State, p: OrchId) {
    && p in s.stages && (s.stages[p] == Ready || s.stages[p] == Draining)
    && forall t <- s.tasks :: s.tasks[t].owner == p ==> !Active(s.tasks[t].phase)
  }

  lemma RestStays(s: State, a: Action, p: OrchId)
    requires ReservingIsNested(s) && AtRest(s, p) && Enabled(s, a) && a != BeginDelete(p)
    ensures AtRest(Apply(s, a), p)
  {
  }

  lemma RestCreatesNothing(s: State, a: Action, p: OrchId, n: Name)
    requires ReservingIsNested(s) && NamesTellOwners(s) && AtRest(s, p) && Enabled(s, a)
    requires n in Apply(s, a).objects && n !in s.objects && Apply(s, a).objects[n] == p
    ensures n.Pod? && exists d <- s.objects :: d.Deployment? && s.objects[d] == p
  {
  }

  lemma RestAddsNothing(s: State, a: Action, p: OrchId)
    requires Sound(s) && AtRest(s, p) && Enabled(s, a)
    ensures AddsNothing(s, Apply(s, a), p)
  {
    var s' := Apply(s, a);
    forall n | n in s'.objects && s'.objects[n] == p
      ensures (n in s.objects && s.objects[n] == p)
        || (n.Pod? && exists d <- s.objects :: d.Deployment? && s.objects[d] == p)
    {
      if n in s.objects { OldObjects(s, a, n); } else { RestCreatesNothing(s, a, p, n); }
    }
  }

  // What the sweep has still to delete is in its list, or comes from a deployment that is
  predicate Complete(s: State, p: OrchId, stage: Stage) {
    match stage
    case DeletingDeployments(pending) =>
      forall n <- s.objects :: s.objects[n] == p && n.Deployment? ==> n in pending
    case DeletingPods(pending) =>
      forall n <- s.objects :: s.objects[n] == p ==> !n.Deployment? && (n.Pod? ==> n in pending)
    case DeletingConfigMaps(pending) =>
      forall n <- s.objects :: s.objects[n] == p ==> n.IsConfigMap() && n in pending
    case Deleted => forall n <- s.objects :: s.objects[n] != p
    case _ => false
  }

  predicate CleanSweep(w: World, p: OrchId) {
    p in w.sweeps && AtRest(w.state, p) && Complete(w.state, p, w.sweeps[p])
  }

  lemma CompleteStays(s: State, s': State, p: OrchId, stage: Stage)
    requires Complete(s, p, stage) && AddsNothing(s, s', p)
    ensures Complete(s', p, stage)
  {
  }

  lemma SnapshotIsTaken(w: World, p: OrchId)
    requires p in w.sweeps && Complete(w.state, p, w.sweeps[p]) && Occurs(w, SweepNext(p))
    ensures Complete(w.state, p, Happen(w, SweepNext(p)).sweeps[p])
  {
  }

  lemma SweepStepIsClean(w: World, p: OrchId, e: Event)
    requires Sound(w.state) && CleanSweep(w, p) && Occurs(w, e)
    ensures CleanSweep(Happen(w, e), p)
  {
    match e
    case Step(a) =>
      RestStays(w.state, a, p);
      RestAddsNothing(w.state, a, p);
      CompleteStays(w.state, Apply(w.state, a), p, w.sweeps[p]);
    case Sweep(_) =>
    case SweepOne(_, _) =>
    case SweepNext(q) => if q == p { SnapshotIsTaken(w, p); }
  }

  lemma {:induction false} SweepRunIsClean(w: World, p: OrchId, run: seq<Event>)
    requires Inv(w) && CleanSweep(w, p) && CanRun(w, run)
    ensures CleanSweep(After(w, run), p)
    decreases |run|
  {
    if run != [] {
      SweepStepIsClean(w, p, run[0]);
      StepKeepsInv(w, run[0]);
      SweepRunIsClean(Happen(w, run[0]), p, run[1..]);
    }
  }

  // ------------------------------------------------------------------ finishing a sweep

  function Rank(stage: Stage): nat {
    match stage
    case DeletingDeployments(_) => 3
    case DeletingPods(_) => 2
    case DeletingConfigMaps(_) => 1
    case _ => 0
  }

  // Some objects of s are gone, and nothing else has changed
  predicate OnlyDeletes(s: State, s': State) {
    && s'.stages == s.stages && s'.tasks == s.tasks
    && forall n <- s'.objects :: n in s.objects && s'.objects[n] == s.objects[n]
  }

  // The sweep of p will come to this ConfigMap, if it is there
  predicate Catches(w: World, p: OrchId, n: Name) {
    && p in w.sweeps && n.IsConfigMap()
    && (n in w.state.objects ==>
          w.state.objects[n] == p && (w.sweeps[p].PortsGone() ==> n in Pending(w.sweeps[p])))
  }

  lemma StillCatches(w: World, p: OrchId, e: Event, n: Name)
    requires p in w.sweeps && w.sweeps[p].Tearing() && Catches(w, p, n)
    requires Occurs(w, e) && (e == SweepNext(p) || (e.SweepOne? && e.p == p))
    ensures Catches(Happen(w, e), p, n)
  {
  }

  // A sweep can always be finished at once; it then deletes every ConfigMap it comes to
  lemma FinishSweep(w: World, p: OrchId) returns (run: seq<Event>)
    requires p in w.sweeps && w.sweeps[p].Tearing()
    ensures CanRun(w, run) && After(w, run).sweeps == w.sweeps[p := Deleted] && forall q :: Sweep(q) !in run
    ensures OnlyDeletes(w.state, After(w, run).state)
    ensures forall n :: Catches(w, p, n) ==> n !in After(w, run).state.objects
    decreases Rank(w.sweeps[p]), Pending(w.sweeps[p])
  {
    if w.sweeps[p].Deleted? {
      assert w.sweeps[p := Deleted] == w.sweeps;
      return [];
    }
    var e := SweepNext(p);
    if n :| n in Pending(w.sweeps[p]) { e := SweepOne(p, n); }
    var rest := FinishSweep(Happen(w, e), p);
    RunsOn(w, e, rest);
    forall n | Catches(w, p, n) ensures n !in After(Happen(w, e), rest).state.objects {
      StillCatches(w, p, e, n);
    }
    run := [e] + rest;
  }

  // ------------------------------------------------------------------ not at rest

  lemma FreshTask(tasks: set<TaskId>) returns (t: TaskId)
    ensures forall x :: x in tasks ==> x < t
  {
    t := 0;
    var rest := tasks;
    while rest != {}
      invariant rest <= tasks && forall x :: x in tasks && x !in rest ==> x < t
      decreases rest
    {
      var x :| x in rest;
      rest := rest - {x};
      if t <= x { t := x + 1; }
    }
  }

  predicate Builds(s: State, p: OrchId, t: TaskId) {
    InPhase(s, t, Building) && s.tasks[t].owner == p
  }

  // The run comes to a world in which t builds for p, and changes no object and no sweep
  predicate Starts(w: World, run: seq<Event>, p: OrchId, t: TaskId) {
    && CanRun(w, run) && Builds(After(w, run).state, p, t)
    && After(w, run).state.objects == w.state.objects && After(w, run).sweeps == w.sweeps
  }

  lemma StartsLater(w: World, a: Action, rest: seq<Event>, p: OrchId, t: TaskId)
    requires Occurs(w, Step(a)) && Apply(w.state, a).objects == w.state.objects
    requires Starts(Happen(w, Step(a)), rest, p, t)
    ensures Starts(w, [Step(a)] + rest, p, t)
  {
    RunsOn(w, Step(a), rest);
  }

  // While p is not at rest, a builder of it can come to run
  lemma ReachBuilder(w: World, p: OrchId) returns (run: seq<Event>, t: TaskId)
    requires ReservingIsNested(w.state) && p in w.state.stages && !w.state.stages[p].Tearing() && !AtRest(w.state, p)
    ensures Starts(w, run, p, t)
    decreases if w.state.stages[p] == Preparing then 2 else if w.state.stages[p] == Working then 1 else 0
  {
    var s := w.state;
    if b :| b in s.tasks && s.tasks[b].owner == p && Active(s.tasks[b].phase) {
      if s.tasks[b].phase == Queued {
        t := b;
        StartsLater(w, StartTask(b), [], p, t);
        run := [Step(StartTask(b))] + [];
      } else {
        run, t := [], if s.tasks[b].phase.Reserving? then s.tasks[b].parent else b;
      }
    } else if s.stages[p] == Working {
      t := FreshTask(s.tasks.Keys);
      StartsLater(Happen(w, Step(Submit(p, t))), StartTask(t), [], p, t);
      StartsLater(w, Submit(p, t), [Step(StartTask(t))] + [], p, t);
      run := [Step(Submit(p, t))] + ([Step(StartTask(t))] + []);
    } else {
      run, t := ReachBuilder(Happen(w, Step(StartWork(p))), p);
      StartsLater(w, StartWork(p), run, p, t);
      run := [Step(StartWork(p))] + run;
    }
  }

  // A running builder leaves a pod behind
  lemma BuilderLeavesPod(w: World, p: OrchId, t: TaskId) returns (run: seq<Event>)
    requires Builds(w.state, p, t)
    requires Pod("", p) in w.state.objects ==> w.state.objects[Pod("", p)] == p
    ensures CanRun(w, run) && After(w, run).sweeps == w.sweeps && Owned(After(w, run).state, p) != {}
  {
    var pod := Pod("", p);
    if pod in w.state.objects {
      assert pod in Owned(w.state, p);
      return [];
    }
    var a := Build(t, pod, Accepted);
    RunsOn(w, Step(a), []);
    assert pod in Owned(Apply(w.state, a), p);
    run := [Step(a)] + [];
  }

  lemma DirtySweep(w: World, p: OrchId) returns (run: seq<Event>)
    requires ReservingIsNested(w.state) && NamesTellOwners(w.state) && CanSweep(w, p) && !AtRest(w.state, p)
    ensures CanRun(Happen(w, Sweep(p)), run) && Ends(After(Happen(w, Sweep(p)), run), p)
    ensures Owned(After(Happen(w, Sweep(p)), run).state, p) != {}
  {
    var w0 := Happen(w, Sweep(p));
    var run1 := FinishSweep(w0, p);
    var w1 := After(w0, run1);
    SameRest(w.state, w1.state, p);
    var run2 := LeavePod(w1, p);
    AfterConcat(w0, run1, run2);
    run := run1 + run2;
  }

  predicate Ends(w: World, p: OrchId) {
    p in w.sweeps && w.sweeps[p] == Deleted
  }

  lemma SameRest(s: State, s': State, p: OrchId)
    requires ReservingIsNested(s) && NamesTellOwners(s) && OnlyDeletes(s, s')
    ensures ReservingIsNested(s') && (AtRest(s', p) <==> AtRest(s, p))
    ensures Pod("", p) in s'.objects ==> s'.objects[Pod("", p)] == p
  {
  }

  lemma LeavePod(w: World, p: OrchId) returns (run: seq<Event>)
    requires ReservingIsNested(w.state) && p in w.state.stages && !w.state.stages[p].Tearing() && !AtRest(w.state, p)
    requires Pod("", p) in w.state.objects ==> w.state.objects[Pod("", p)] == p
    ensures CanRun(w, run) && After(w, run).sweeps == w.sweeps && Owned(After(w, run).state, p) != {}
  {
    var run1, t := ReachBuilder(w, p);
    var run2 := BuilderLeavesPod(After(w, run1), p, t);
    AfterConcat(w, run1, run2);
    run := run1 + run2;
  }

  // ------------------------------------------------------------------ what a sweep leaves

  // Every run in which the sweep of p begins now and comes to its end leaves nothing of p
  ghost predicate AlwaysCleans(w: World, p: OrchId)
    requires CanSweep(w, p)
  {
    forall run | CanRun(Happen(w, Sweep(p)), run) ::
      Ends(After(Happen(w, Sweep(p)), run), p) ==> Owned(After(Happen(w, Sweep(p)), run).state, p) == {}
  }

  // A sweep leaves nothing of an orchestration, whatever happens meanwhile, exactly when that
  // orchestration was at rest as the sweep began
  lemma SweepCleansWhenAtRest(w: World, p: OrchId)
    requires Inv(w) && CanSweep(w, p)
    ensures AlwaysCleans(w, p) <==> AtRest(w.state, p)
  {
    var w0 := Happen(w, Sweep(p));
    if AtRest(w.state, p) {
      StepKeepsInv(w, Sweep(p));
      forall run | CanRun(w0, run) ensures CleanSweep(After(w0, run), p) {
        SweepRunIsClean(w0, p, run);
      }
    } else {
      var run := DirtySweep(w, p);
    }
  }

  // ------------------------------------------------------------------ what a sweep does to ports

  // As long as no sweep of its orchestration begins, the thread owns the port while it holds it
  ghost predicate PortIsSafe(w: World, t: TaskId, port: int)
    requires t in w.state.tasks
  {
    forall run | CanRun(w, run) && Sweep(w.state.tasks[t].owner) !in run ::
      Holds(After(w, run).state, t, port) ==> OwnsPort(After(w, run).state, t, port)
  }

  // A thread that once holds a port keeps its owner, and holds it before when it does after
  lemma HolderStep(w: World, e: Event, t: TaskId, port: int)
    requires Occurs(w, e) && InPhase(w.state, t, Holding(port))
    ensures var w' := Happen(w, e);
      && InPhase(w'.state, t, Holding(port)) && w'.state.tasks[t].owner == w.state.tasks[t].owner
  {
    if e.Step? { TaskStays(w.state, e.a, t); }
  }

  lemma UnsweptStays(w: World, e: Event, o: OrchId)
    requires Occurs(w, e) && e != Sweep(o) && o !in w.sweeps
    ensures o !in Happen(w, e).sweeps
  {
  }

  lemma UnsweptOwns(w: World, t: TaskId, port: int)
    requires KeepersOwn(w) && Holds(w.state, t, port) && w.state.tasks[t].owner !in w.sweeps
    ensures OwnsPort(w.state, t, port)
  {
    assert Keeps(w, t, port);
  }

  lemma {:induction false} StaysUnswept(w: World, t: TaskId, port: int, run: seq<Event>)
    requires InPhase(w.state, t, Holding(port)) && w.state.tasks[t].owner !in w.sweeps
    requires CanRun(w, run) && Sweep(w.state.tasks[t].owner) !in run
    ensures var end := After(w, run);
      && InPhase(end.state, t, Holding(port)) && end.state.tasks[t].owner == w.state.tasks[t].owner
      && w.state.tasks[t].owner !in end.sweeps
    decreases |run|
  {
    if run != [] {
      assert run[0] in run;
      HolderStep(w, run[0], t, port);
      UnsweptStays(w, run[0], w.state.tasks[t].owner);
      StaysUnswept(Happen(w, run[0]), t, port, run[1..]);
    }
  }

  // Such a run: the sweep of its orchestration is finished, and the port is free while it is held
  lemma SweptPortIsLost(w: World, t: TaskId, port: int) returns (run: seq<Event>)
    requires Inv(w) && Keeps(w, t, port) && w.state.tasks[t].owner in w.sweeps
    ensures CanRun(w, run) && Sweep(w.state.tasks[t].owner) !in run
    ensures Holds(After(w, run).state, t, port) && Port(port) !in After(w, run).state.objects
  {
    var p := w.state.tasks[t].owner;
    run := FinishSweep(w, p);
    assert OwnsPort(w.state, t, port);
    assert Catches(w, p, Port(port));
  }

  // A thread that keeps a port goes on owning it, whatever happens while it holds it, exactly when
  // its orchestration is not being swept
  lemma PortIsSafeUnlessSwept(w: World, t: TaskId, port: int)
    requires Inv(w) && Keeps(w, t, port)
    ensures PortIsSafe(w, t, port) <==> w.state.tasks[t].owner !in w.sweeps
  {
    if w.state.tasks[t].owner in w.sweeps {
      var run := SweptPortIsLost(w, t, port);
    } else {
      forall run | CanRun(w, run) && Sweep(w.state.tasks[t].owner) !in run && Holds(After(w, run).state, t, port)
        ensures OwnsPort(After(w, run).state, t, port)
      {
        RunKeepsInv(w, run);
        StaysUnswept(w, t, port, run);
        UnsweptOwns(After(w, run), t, port);
      }
    }
  }

  // So of the ports kept as a sweep begins, exactly those of other orchestrations are safe
  lemma SweepTakesItsOwnPorts(w: World, p: OrchId, t: TaskId, port: int)
    requires Inv(w) && CanSweep(w, p) && Keeps(w, t, port) && w.state.tasks[t].owner !in w.sweeps
    ensures PortIsSafe(Happen(w, Sweep(p)), t, port) <==> w.state.tasks[t].owner != p
  {
    StepKeepsInv(w, Sweep(p));
    SweepBegins(w, p);
    PortIsSafeUnlessSwept(Happen(w, Sweep(p)), t, port);
  }
}
