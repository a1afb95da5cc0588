/**
 The whole cluster: orchestrations with their own deletions, and sweeps.  When a creation fails,
 its process deletes every id alive in it, also those that other threads are still building or
 have handed out; such a deletion by another thread is a sweep.
 */
module Cluster {
  import opened Orchestration

  // How far the sweeps are; an id is deleted by one thread only, its own or a sweeping one
  datatype World = World(state: State, sweeps: map<OrchId, Stage>)

  datatype Event =
    | Step(a: Action)
    | Sweep(p: OrchId)
    | SweepOne(p: OrchId, name: Name)
    | SweepNext(p: OrchId)

  predicate CanSweep(w: World, p: OrchId) {
    p in w.state.stages && !w.state.stages[p].Tearing() && p !in w.sweeps
  }

  function Pending(stage: Stage): set<Name> {
    if stage.DeletingDeployments? || stage.DeletingPods? || stage.DeletingConfigMaps? then stage.pending else {}
  }

  predicate Occurs(w: World, e: Event) {
    match e
    case Step(a) => Enabled(w.state, a) && (a.BeginDelete? ==> a.o !in w.sweeps)
    case Sweep(p) => CanSweep(w, p)
    case SweepOne(p, n) => p in w.sweeps && n in Pending(w.sweeps[p])
    case SweepNext(p) => p in w.sweeps && w.sweeps[p].Tearing() && !w.sweeps[p].Deleted? && Pending(w.sweeps[p]) == {}
  }

  function NextStage(stage: Stage): Stage {
    match stage
    case DeletingDeployments(_) => DeletingPods({})
    case DeletingPods(_) => DeletingConfigMaps({})
    case _ => Deleted
  }

  function Happen(w: World, e: Event): World
    requires Occurs(w, e)
  {
    match e
    case Step(a) => w.(state := Apply(w.state, a))
    case Sweep(p) => w.(sweeps := w.sweeps[p := Snapshot(w.state, p, DeletingDeployments({}))])
    case SweepOne(p, n) =>
      World(
        w.state.(objects := w.state.objects - {n}),
        w.sweeps[p := w.sweeps[p].(pending := w.sweeps[p].pending - {n})])
    case SweepNext(p) => w.(sweeps := w.sweeps[p := Snapshot(w.state, p, NextStage(w.sweeps[p]))])
  }

  // Worlds reached from the empty cluster by any interleaving of events
  const Empty: World := World(State(map[], map[], map[]), map[])

  predicate CanRun(w: World, run: seq<Event>)
    decreases |run|
  {
    run == [] || (Occurs(w, run[0]) && CanRun(Happen(w, run[0]), run[1..]))
  }

  function After(w: World, run: seq<Event>): World
    requires CanRun(w, run)
    decreases |run|
  {
    if run == [] then w else After(Happen(w, run[0]), run[1..])
  }

  // ------------------------------------------------------------------ the invariant

  // What a sweep has still to delete belongs to the id it sweeps
  predicate IsOwnSweep(s: State, p: OrchId, stage: Stage) {
    match stage
    case DeletingDeployments(pending) => forall n <- pending :: n.Deployment? && n.of == p
    case DeletingPods(pending) => forall n <- pending :: n.Pod? && n.of == p
    case DeletingConfigMaps(pending) => forall n <- pending :: n.IsConfigMap() && n in s.objects && s.objects[n] == p
    case Deleted => true
    case _ => false
  }

  // Swept ids are not deleted by their own thread as well
  predicate SweepsAreOwn(w: World) {
    forall p <- w.sweeps ::
      p in w.state.stages && !w.state.stages[p].Tearing() && IsOwnSweep(w.state, p, w.sweeps[p])
  }

  // A thread holds a port, and nobody has begun to delete the ConfigMaps of its orchestration
  predicate Keeps(w: World, t: TaskId, port: int) {
    && Holds(w.state, t, port)
    && (w.state.tasks[t].owner in w.sweeps ==> !w.sweeps[w.state.tasks[t].owner].PortsGone())
  }

  ghost predicate KeepersOwn(w: World) {
    forall t, port :: Keeps(w, t, port) ==> OwnsPort(w.state, t, port)
  }

  ghost predicate KeepersAreAlone(w: World) {
    forall t, u, port :: Keeps(w, t, port) && Keeps(w, u, port) ==> t == u
  }

  predicate Sound(s: State) {
    ReservingIsNested(s) && TasksFollowStages(s) && NamesTellOwners(s) && SnapshotsAreComplete(s)
  }

  ghost predicate Inv(w: World) {
    && Sound(w.state) && ChildrenFollow(w.state) && BuildersGotPorts(w.state)
    && SweepsAreOwn(w) && KeepersOwn(w) && KeepersAreAlone(w)
  }

  // ------------------------------------------------------------------ actions of the orchestrations

  lemma ActionKeepsSound(s: State, a: Action)
    requires Sound(s) && Enabled(s, a)
    ensures Sound(Apply(s, a))
  {
    StepKeepsNesting(s, a);
    StepKeepsTasks(s, a);
    StepKeepsNames(s, a);
    StepKeepsSnapshots(s, a);
  }

  // A ConfigMap that a sweep has to delete is deleted by nobody else
  lemma SweptStays(s: State, a: Action, p: OrchId, n: Name)
    requires SnapshotsAreComplete(s) && Enabled(s, a) && p in s.stages && !s.stages[p].Tearing()
    requires n.IsConfigMap() && n in s.objects && s.objects[n] == p
    ensures n in Apply(s, a).objects && Apply(s, a).objects[n] == p
  {
    if a.DeleteOne? { assert SnapshotIsComplete(s, a.o); }
    if n in Apply(s, a).objects { OldObjects(s, a, n); }
  }

  lemma SweptIsNotDeleted(s: State, a: Action, p: OrchId)
    requires Enabled(s, a) && a != BeginDelete(p) && p in s.stages && !s.stages[p].Tearing()
    ensures p in Apply(s, a).stages && !Apply(s, a).stages[p].Tearing()
  {
  }

  lemma ActionKeepsSweeps(w: World, a: Action)
    requires SnapshotsAreComplete(w.state) && SweepsAreOwn(w) && Occurs(w, Step(a))
    ensures SweepsAreOwn(Happen(w, Step(a)))
  {
    var s, s' := w.state, Apply(w.state, a);
    forall p | p in w.sweeps
      ensures p in s'.stages && !s'.stages[p].Tearing() && IsOwnSweep(s', p, w.sweeps[p])
    {
      SweptIsNotDeleted(s, a, p);
      if w.sweeps[p].DeletingConfigMaps? {
        forall n | n in w.sweeps[p].pending ensures n in s'.objects && s'.objects[n] == p {
          SweptStays(s, a, p, n);
        }
      }
    }
  }

  // A thread comes to keep a port only by having its create accepted
  lemma NewKeeper(w: World, a: Action, t: TaskId, port: int)
    requires TasksFollowStages(w.state) && Occurs(w, Step(a)) && Keeps(Happen(w, Step(a)), t, port)
    ensures Keeps(w, t, port) || (a.Attempt? && a.t == t && Port(port) !in w.state.objects)
  {
    NewHolder(w.state, a, t, port);
    if Holds(w.state, t, port) { TaskStays(w.state, a, t); }
  }

  lemma ActionKeepsKeepers(w: World, a: Action)
    requires Inv(w) && Occurs(w, Step(a))
    ensures KeepersOwn(Happen(w, Step(a))) && KeepersAreAlone(Happen(w, Step(a)))
  {
    var w' := Happen(w, Step(a));
    forall t, port | Keeps(w', t, port) ensures OwnsPort(w'.state, t, port) {
      NewKeeper(w, a, t, port);
      if Keeps(w, t, port) {
        HeldPortStays(w.state, a, t, port);
      } else {
        NewPortIsOwned(w.state, a, t, port);
      }
    }
    forall t, u, port | Keeps(w', t, port) && Keeps(w', u, port) ensures t == u {
      NewKeeper(w, a, t, port);
      NewKeeper(w, a, u, port);
    }
  }

  // ------------------------------------------------------------------ events of the sweeps

  lemma SnapshotIsOwn(s: State, p: OrchId, stage: Stage)
    requires NamesTellOwners(s) && (stage.Tearing() || stage.Deleted?)
    ensures IsOwnSweep(s, p, Snapshot(s, p, stage))
  {
  }

  // An event that changes only the sweeps, and lets nobody keep a port who did not
  lemma FewerKeep(w: World, w': World)
    requires KeepersOwn(w) && KeepersAreAlone(w) && w'.state == w.state
    requires forall t, port :: Keeps(w', t, port) ==> Keeps(w, t, port)
    ensures KeepersOwn(w') && KeepersAreAlone(w')
  {
  }

  lemma SweepBegins(w: World, p: OrchId)
    requires NamesTellOwners(w.state) && SweepsAreOwn(w) && CanSweep(w, p)
    ensures SweepsAreOwn(Happen(w, Sweep(p)))
    ensures forall t, port :: Keeps(Happen(w, Sweep(p)), t, port) <==> Keeps(w, t, port)
  {
    SnapshotIsOwn(w.state, p, DeletingDeployments({}));
  }

  lemma SweepGoesOn(w: World, p: OrchId)
    requires NamesTellOwners(w.state) && SweepsAreOwn(w) && Occurs(w, SweepNext(p))
    ensures SweepsAreOwn(Happen(w, SweepNext(p)))
    ensures forall t, port :: Keeps(Happen(w, SweepNext(p)), t, port) ==> Keeps(w, t, port)
  {
    SnapshotIsOwn(w.state, p, NextStage(w.sweeps[p]));
  }

  // A sweep deletes an object of its own id, and no ConfigMap before it has come to those
  lemma SweepsItsOwn(w: World, p: OrchId, n: Name)
    requires SweepsAreOwn(w) && NamesTellOwners(w.state) && Occurs(w, SweepOne(p, n))
    ensures n in w.state.objects ==> w.state.objects[n] == p
    ensures n.IsConfigMap() ==> w.sweeps[p].DeletingConfigMaps?
  {
  }

  lemma SweepOneKeepsSound(w: World, p: OrchId, n: Name)
    requires Sound(w.state) && SweepsAreOwn(w) && Occurs(w, SweepOne(p, n))
    ensures Sound(Happen(w, SweepOne(p, n)).state)
  {
    var s, s' := w.state, Happen(w, SweepOne(p, n)).state;
    SweepsItsOwn(w, p, n);
    forall o | o in s'.stages ensures SnapshotIsComplete(s', o) {
      assert SnapshotIsComplete(s, o);
    }
  }

  lemma SweepOneKeepsSweeps(w: World, p: OrchId, n: Name)
    requires NamesTellOwners(w.state) && SweepsAreOwn(w) && Occurs(w, SweepOne(p, n))
    ensures SweepsAreOwn(Happen(w, SweepOne(p, n)))
  {
    SweepsItsOwn(w, p, n);
  }

  lemma SweepOneKeepsKeepers(w: World, p: OrchId, n: Name)
    requires NamesTellOwners(w.state) && SweepsAreOwn(w) && KeepersOwn(w) && KeepersAreAlone(w)
    requires Occurs(w, SweepOne(p, n))
    ensures KeepersOwn(Happen(w, SweepOne(p, n))) && KeepersAreAlone(Happen(w, SweepOne(p, n)))
  {
    var w' := Happen(w, SweepOne(p, n));
    SweepsItsOwn(w, p, n);
    forall t, port | Keeps(w', t, port) ensures Keeps(w, t, port) && OwnsPort(w'.state, t, port) {
      assert Keeps(w, t, port);
    }
  }

  lemma SameTasks(s: State, s': State)
    requires ChildrenFollow(s) && BuildersGotPorts(s) && s'.tasks == s.tasks
    ensures ChildrenFollow(s') && BuildersGotPorts(s')
  {
    forall t, c ensures GotPort(s', t, c) {
      assert GotPort(s, t, c);
    }
  }

  lemma SweepOneKeepsInv(w: World, p: OrchId, n: Name)
    requires Inv(w) && Occurs(w, SweepOne(p, n))
    ensures Inv(Happen(w, SweepOne(p, n)))
  {
    SweepOneKeepsSound(w, p, n);
    SweepOneKeepsSweeps(w, p, n);
    SweepOneKeepsKeepers(w, p, n);
    SameTasks(w.state, Happen(w, SweepOne(p, n)).state);
  }

  // ------------------------------------------------------------------ every run

  lemma StepKeepsInv(w: World, e: Event)
    requires Inv(w) && Occurs(w, e)
    ensures Inv(Happen(w, e))
  {
    match e
    case Step(a) =>
      ActionKeepsSound(w.state, a);
      ActionKeepsSweeps(w, a);
      ActionKeepsKeepers(w, a);
      StepKeepsChildren(w.state, a);
      StepKeepsBuilders(w.state, a);
    case Sweep(p) =>
      SweepBegins(w, p);
      FewerKeep(w, Happen(w, e));
    case SweepOne(p, n) => SweepOneKeepsInv(w, p, n);
    case SweepNext(p) =>
      SweepGoesOn(w, p);
      FewerKeep(w, Happen(w, e));
  }

  lemma {:induction false} RunKeepsInv(w: World, run: seq<Event>)
    requires Inv(w) && CanRun(w, run)
    ensures Inv(After(w, run))
    decreases |run|
  {
    if run != [] {
      StepKeepsInv(w, run[0]);
      RunKeepsInv(Happen(w, run[0]), run[1..]);
    }
  }

  lemma RunsOn(w: World, e: Event, rest: seq<Event>)
    requires Occurs(w, e) && CanRun(Happen(w, e), rest)
    ensures CanRun(w, [e] + rest) && After(w, [e] + rest) == After(Happen(w, e), rest)
  {
    assert ([e] + rest)[1..] == rest;
  }

  lemma {:induction false} AfterConcat(w: World, a: seq<Event>, b: seq<Event>)
    requires CanRun(w, a) && CanRun(After(w, a), b)
    ensures CanRun(w, a + b) && After(w, a + b) == After(After(w, a), b)
    decreases |a|
  {
    if a == [] {
      assert a + b == b;
    } else {
      assert (a + b)[1..] == a[1..] + b;
      AfterConcat(Happen(w, a[0]), a[1..], b);
    }
  }
}
