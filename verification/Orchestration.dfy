/**
 The orchestrator's shared cluster: port reservation by racing to create ConfigMaps, and the
 teardown that gives everything back.

 Any number of orchestrations, each with any number of worker threads, run against one store
 of named objects.  Creating an existing name is refused; a create may also report an error, or
 raise, although it took effect.  One process deletes a given orchestration id.
 */
module Orchestration {
  import opened Sequences

  const NUMBER_PORT_INIT: int := 32000
  const NUMBER_OF_PORTS: int := 700

  type OrchId = string
  type TaskId = nat

  // Pod and deployment names end in the orchestration id
  datatype Name =
    | Port(number: int)
    | Identity(id: OrchId)
    | Data(tag: string)
    | Pod(tag: string, of: OrchId)
    | Deployment(tag: string, of: OrchId)
  {
    predicate IsConfigMap() { Port? || Identity? || Data? }
  }

  type Objects = map<Name, OrchId>

  // ------------------------------------------------------------------ one create request

  datatype Reply = Accepted | Refused(tookEffect: bool) | Raised(tookEffect: bool)

  predicate TookEffect(reply: Reply) {
    reply.Accepted? || reply.tookEffect
  }

  predicate Legal(objects: Objects, name: Name, reply: Reply) {
    name in objects ==> !TookEffect(reply)
  }

  function Create(objects: Objects, name: Name, owner: OrchId, reply: Reply): Objects {
    if TookEffect(reply) then objects[name := owner] else objects
  }

  // ------------------------------------------------------------------ tasks and stages

  // What a worker thread is doing.  A builder sets up one pod; while it does, it waits for
  // reserving children, one for each port it needs.
  datatype Phase =
    | Queued
    | Building
    | Reserving(possible: seq<int>)
    | Holding(port: int)
    | Done
    | Failed
    | Cancelled

  datatype Task = Task(owner: OrchId, parent: TaskId, phase: Phase)

  // How far the main thread of an orchestration is
  datatype Stage =
    | Preparing
    | Working
    | Ready
    | Draining
    | DeletingDeployments(pending: set<Name>)
    | DeletingPods(pending: set<Name>)
    | DeletingConfigMaps(pending: set<Name>)
    | Deleted
  {
    predicate Tearing() { DeletingDeployments? || DeletingPods? || DeletingConfigMaps? || Deleted? }
    predicate PortsGone() { DeletingConfigMaps? || Deleted? }
  }

  datatype State = State(objects: Objects, stages: map<OrchId, Stage>, tasks: map<TaskId, Task>)

  predicate InRange(port: int) {
    NUMBER_PORT_INIT <= port < NUMBER_PORT_INIT + NUMBER_OF_PORTS
  }

  function AllPorts(): (ports: seq<int>)
    ensures |ports| == NUMBER_OF_PORTS
    ensures forall i :: 0 <= i < |ports| ==> ports[i] == NUMBER_PORT_INIT + i
  {
    seq(NUMBER_OF_PORTS, i => NUMBER_PORT_INIT + i)
  }

  // Where one attempt on the i-th possible port leaves a reserving thread
  function AfterReply(possible: seq<int>, i: nat, reply: Reply): (next: Phase)
    requires i < |possible|
    ensures next.Reserving? ==> |next.possible| == |possible| - 1
  {
    match reply
    case Accepted => Holding(possible[i])
    case Refused(_) => Reserving(Without(possible, i))
    case Raised(_) => Failed
  }

  // ------------------------------------------------------------------ the transition system

  datatype Action =
    | ReserveId(o: OrchId, reply: Reply)
    | Prepare(o: OrchId, name: Name, reply: Reply)
    | StartWork(o: OrchId)
    | Submit(o: OrchId, t: TaskId)
    | StartTask(t: TaskId)
    | SpawnReserve(t: TaskId, parent: TaskId)
    | Attempt(t: TaskId, i: nat, reply: Reply)
    | Exhaust(t: TaskId)
    | Build(t: TaskId, name: Name, reply: Reply)
    | EndTask(t: TaskId, ok: bool)
    | Finish(o: OrchId)
    | Fail(o: OrchId)
    | BeginDelete(o: OrchId)
    | DeleteOne(o: OrchId, name: Name)
    | Advance(o: OrchId)
    | Replicate(deployment: Name, pod: Name)
    | Vanish(name: Name)

  predicate InPhase(s: State, t: TaskId, phase: Phase) {
    t in s.tasks && s.tasks[t].phase == phase
  }

  predicate IsReserving(s: State, t: TaskId) {
    t in s.tasks && s.tasks[t].phase.Reserving?
  }

  // A thread that gets a port for the builder t
  predicate IsChild(s: State, c: TaskId, t: TaskId) {
    c in s.tasks && c != t && s.tasks[c].parent == t
  }

  predicate InStage(s: State, o: OrchId, stage: Stage) {
    o in s.stages && s.stages[o] == stage
  }

  function Owned(s: State, o: OrchId): set<Name> {
    set n | n in s.objects && s.objects[n] == o
  }

  function Snapshot(s: State, o: OrchId, next: Stage): Stage {
    match next
    case DeletingDeployments(_) => DeletingDeployments(set n | n in Owned(s, o) && n.Deployment?)
    case DeletingPods(_) => DeletingPods(set n | n in Owned(s, o) && n.Pod?)
    case DeletingConfigMaps(_) => DeletingConfigMaps(set n | n in Owned(s, o) && n.IsConfigMap())
    case other => other
  }

  predicate Enabled(s: State, a: Action) {
    match a
    case ReserveId(o, reply) => o !in s.stages && Legal(s.objects, Identity(o), reply)
    case Prepare(o, name, reply) => InStage(s, o, Preparing) && name.Data? && Legal(s.objects, name, reply)
    case StartWork(o) => InStage(s, o, Preparing)
    case Submit(o, t) => InStage(s, o, Working) && t !in s.tasks
    case StartTask(t) => InPhase(s, t, Queued)
    case SpawnReserve(t, parent) => t !in s.tasks && InPhase(s, parent, Building)
    case Attempt(t, i, reply) =>
      && IsReserving(s, t) && i < |s.tasks[t].phase.possible|
      && Legal(s.objects, Port(s.tasks[t].phase.possible[i]), reply)
    case Exhaust(t) => InPhase(s, t, Reserving([]))
    case Build(t, name, reply) =>
      && InPhase(s, t, Building) && Legal(s.objects, name, reply)
      && (name.Data? || ((name.Pod? || name.Deployment?) && name.of == s.tasks[t].owner))
    case EndTask(t, ok) =>
      // leaving the executor of get_ports joins its threads, and a port that could not be had raises
      && InPhase(s, t, Building) && (forall c <- s.tasks :: IsReserving(s, c) ==> s.tasks[c].parent != t)
      && (ok ==> forall c <- s.tasks :: IsChild(s, c, t) ==> s.tasks[c].phase.Holding?)
    case Finish(o) =>
      InStage(s, o, Working) && forall t <- s.tasks :: s.tasks[t].owner == o ==> s.tasks[t].phase !in {Queued, Building}
    case Fail(o) => InStage(s, o, Preparing) || InStage(s, o, Working) || InStage(s, o, Ready)
    case BeginDelete(o) =>
      // executor.shutdown(wait=True) returned: no builder is running
      InStage(s, o, Draining) && forall t <- s.tasks :: s.tasks[t].owner == o ==> s.tasks[t].phase != Building
    case DeleteOne(o, name) =>
      o in s.stages && s.stages[o].Tearing() && !s.stages[o].Deleted? && name in s.stages[o].pending
    case Advance(o) => o in s.stages && s.stages[o].Tearing() && !s.stages[o].Deleted? && s.stages[o].pending == {}
    case Replicate(d, pod) => d.Deployment? && d in s.objects && pod.Pod? && pod.of == d.of && pod !in s.objects
    case Vanish(name) => name in s.objects && (name.Pod? || name.Deployment?)
  }

  function Move(s: State, o: OrchId, stage: Stage): State {
    s.(stages := s.stages[o := stage])
  }

  function SetPhase(s: State, t: TaskId, phase: Phase): State
    requires t in s.tasks
  {
    s.(tasks := s.tasks[t := s.tasks[t].(phase := phase)])
  }

  // cancel_futures=True: what has not started never will
  function CancelQueued(s: State, o: OrchId): State {
    s.(tasks := map t | t in s.tasks ::
      if s.tasks[t].owner == o && s.tasks[t].phase == Queued then s.tasks[t].(phase := Cancelled) else s.tasks[t])
  }

  function Apply(s: State, a: Action): State
    requires Enabled(s, a)
  {
    match a
    case ReserveId(o, reply) =>
      var s' := s.(objects := Create(s.objects, Identity(o), o, reply));
      if reply.Accepted? then Move(s', o, Preparing) else s'
    case Prepare(o, name, reply) => s.(objects := Create(s.objects, name, o, reply))
    case StartWork(o) => Move(s, o, Working)
    case Submit(o, t) => s.(tasks := s.tasks[t := Task(o, t, Queued)])
    case StartTask(t) => SetPhase(s, t, Building)
    case SpawnReserve(t, parent) =>
      var task := Task(s.tasks[parent].owner, parent, Reserving(AllPorts()));
      s.(tasks := s.tasks[t := task])
    case Attempt(t, i, reply) =>
      var possible := s.tasks[t].phase.possible;
      SetPhase(s, t, AfterReply(possible, i, reply)).(
        objects := Create(s.objects, Port(possible[i]), s.tasks[t].owner, reply))
    case Exhaust(t) => SetPhase(s, t, Failed)
    case Build(t, name, reply) => s.(objects := Create(s.objects, name, s.tasks[t].owner, reply))
    case EndTask(t, ok) => SetPhase(s, t, if ok then Done else Failed)
    case Finish(o) => Move(s, o, Ready)
    case Fail(o) => Move(CancelQueued(s, o), o, Draining)
    case BeginDelete(o) => Move(s, o, Snapshot(s, o, DeletingDeployments({})))
    case DeleteOne(o, name) =>
      Move(s, o, s.stages[o].(pending := s.stages[o].pending - {name})).(objects := s.objects - {name})
    case Advance(o) =>
      Move(s, o, Snapshot(s, o, match s.stages[o]
        case DeletingDeployments(_) => DeletingPods({})
        case DeletingPods(_) => DeletingConfigMaps({})
        case _ => Deleted))
    case Replicate(d, pod) => s.(objects := s.objects[pod := d.of])
    case Vanish(name) => s.(objects := s.objects - {name})
  }

  // ------------------------------------------------------------------ what each action keeps

  // A thread reserves only while its builder waits for it, and tries only real ports
  predicate ReservingIsNested(s: State) {
    forall t <- s.tasks :: s.tasks[t].phase.Reserving? ==>
      var parent := s.tasks[t].parent;
      && parent in s.tasks && s.tasks[parent].phase == Building && s.tasks[parent].owner == s.tasks[t].owner
      && forall p <- s.tasks[t].phase.possible :: InRange(p)
  }

  predicate TasksFollowStages(s: State) {
    forall t <- s.tasks ::
      && s.tasks[t].owner in s.stages
      && (s.tasks[t].phase == Queued ==> s.stages[s.tasks[t].owner] == Working)
      && (s.tasks[t].phase == Building || s.tasks[t].phase.Reserving? ==> !s.stages[s.tasks[t].owner].Tearing())
  }

  // A builder that succeeded got all the ports it asked for
  ghost predicate BuildersGotPorts(s: State) {
    forall t, c :: GotPort(s, t, c)
  }

  predicate GotPort(s: State, t: TaskId, c: TaskId) {
    InPhase(s, t, Done) && IsChild(s, c, t) ==> s.tasks[c].phase.Holding? && s.tasks[c].owner == s.tasks[t].owner
  }

  // Threads have the owner of their builder
  predicate ChildrenFollow(s: State) {
    forall c <- s.tasks :: s.tasks[c].parent in s.tasks && s.tasks[s.tasks[c].parent].owner == s.tasks[c].owner
  }

  // A port held by a thread whose orchestration has not begun deleting ConfigMaps
  predicate Holds(s: State, t: TaskId, port: int) {
    t in s.tasks && s.tasks[t].phase == Holding(port) && s.tasks[t].owner in s.stages
      && !s.stages[s.tasks[t].owner].PortsGone()
  }

  // The port exists and belongs to the orchestration of the thread
  predicate OwnsPort(s: State, t: TaskId, port: int) {
    t in s.tasks && InRange(port) && Port(port) in s.objects && s.objects[Port(port)] == s.tasks[t].owner
  }

  predicate NamesTellOwners(s: State) {
    forall n <- s.objects ::
      && (n.Pod? || n.Deployment? ==> s.objects[n] == n.of)
      && (n.Identity? ==> s.objects[n] == n.id)
      && (s.objects[n] in s.stages || n == Identity(s.objects[n]))
  }

  predicate SnapshotIsComplete(s: State, o: OrchId)
    requires o in s.stages
  {
    match s.stages[o]
    case DeletingDeployments(pending) =>
      && (forall n <- pending :: n.Deployment? && n.of == o)
      && (forall n <- s.objects :: s.objects[n] == o && n.Deployment? ==> n in pending)
    case DeletingPods(pending) =>
      && (forall n <- pending :: n.Pod? && n.of == o)
      && (forall n <- s.objects :: s.objects[n] == o ==> !n.Deployment? && (n.Pod? ==> n in pending))
    case DeletingConfigMaps(pending) =>
      && (forall n <- pending :: n in s.objects && s.objects[n] == o && n.IsConfigMap())
      && (forall n <- s.objects :: s.objects[n] == o ==> n in pending)
    case Deleted => forall n <- s.objects :: s.objects[n] != o
    case _ => true
  }

  predicate SnapshotsAreComplete(s: State) {
    forall o <- s.stages :: SnapshotIsComplete(s, o)
  }

  lemma StepKeepsNesting(s: State, a: Action)
    requires ReservingIsNested(s) && Enabled(s, a)
    ensures ReservingIsNested(Apply(s, a))
  {}

  lemma StageStepKeepsTasks(s: State, a: Action)
    requires ReservingIsNested(s) && TasksFollowStages(s) && Enabled(s, a)
    requires a.ReserveId? || a.StartWork? || a.Finish? || a.Fail?
    ensures TasksFollowStages(Apply(s, a))
  {}

  lemma DeletionKeepsTasks(s: State, a: Action)
    requires ReservingIsNested(s) && TasksFollowStages(s) && Enabled(s, a)
    requires a.BeginDelete? || a.DeleteOne? || a.Advance?
    ensures TasksFollowStages(Apply(s, a))
  {}

  lemma TaskStepKeepsTasks(s: State, a: Action)
    requires TasksFollowStages(s) && Enabled(s, a)
    requires a.Submit? || a.StartTask? || a.SpawnReserve? || a.Attempt? || a.Exhaust? || a.EndTask?
    ensures TasksFollowStages(Apply(s, a))
  {}

  lemma StepKeepsTasks(s: State, a: Action)
    requires ReservingIsNested(s) && TasksFollowStages(s) && Enabled(s, a)
    ensures TasksFollowStages(Apply(s, a))
  {
    if a.ReserveId? || a.StartWork? || a.Finish? || a.Fail? {
      StageStepKeepsTasks(s, a);
    } else if a.BeginDelete? || a.DeleteOne? || a.Advance? {
      DeletionKeepsTasks(s, a);
    } else if !a.Prepare? && !a.Build? && !a.Replicate? && !a.Vanish? {
      TaskStepKeepsTasks(s, a);
    }
  }

  // A thread keeps its owner, its parent and the port it holds
  lemma TaskStays(s: State, a: Action, t: TaskId)
    requires Enabled(s, a) && t in s.tasks
    ensures var s' := Apply(s, a);
      && t in s'.tasks && s'.tasks[t].owner == s.tasks[t].owner && s'.tasks[t].parent == s.tasks[t].parent
      && (s.tasks[t].phase.Holding? || s.tasks[t].phase == Done ==> s'.tasks[t].phase == s.tasks[t].phase)
  {}

  lemma NewTask(s: State, a: Action, t: TaskId)
    requires Enabled(s, a) && t in Apply(s, a).tasks && t !in s.tasks
    ensures var task := Apply(s, a).tasks[t];
      || task == Task(task.owner, t, Queued)
      || (task.phase.Reserving? && InPhase(s, task.parent, Building) && s.tasks[task.parent].owner == task.owner
        && a.SpawnReserve?)
  {}

  lemma BuilderEnds(s: State, a: Action, t: TaskId)
    requires Enabled(s, a) && t in s.tasks && Apply(s, a).tasks[t].phase == Done && s.tasks[t].phase != Done
    ensures a == EndTask(t, true) && Apply(s, a).tasks.Keys == s.tasks.Keys
  {}

  lemma StepKeepsChildren(s: State, a: Action)
    requires ChildrenFollow(s) && Enabled(s, a)
    ensures ChildrenFollow(Apply(s, a))
  {
    var s' := Apply(s, a);
    forall c | c in s'.tasks
      ensures s'.tasks[c].parent in s'.tasks && s'.tasks[s'.tasks[c].parent].owner == s'.tasks[c].owner {
      if c in s.tasks {
        TaskStays(s, a, c);
        TaskStays(s, a, s.tasks[c].parent);
      } else {
        NewTask(s, a, c);
        if s'.tasks[c].parent in s.tasks { TaskStays(s, a, s'.tasks[c].parent); }
      }
    }
  }

  lemma StepKeepsBuilders(s: State, a: Action)
    requires ChildrenFollow(s) && BuildersGotPorts(s) && Enabled(s, a)
    ensures BuildersGotPorts(Apply(s, a))
  {
    var s' := Apply(s, a);
    StepKeepsChildren(s, a);
    forall t, c ensures GotPort(s', t, c) {
      if InPhase(s', t, Done) && IsChild(s', c, t) {
        assert GotPort(s, t, c);
        BuilderKeepsPort(s, a, t, c);
      }
    }
  }

  lemma SuccessGotPorts(s: State, a: Action, t: TaskId, c: TaskId)
    requires Enabled(s, a) && t in s.tasks && s.tasks[t].phase != Done
    requires Apply(s, a).tasks[t].phase == Done && IsChild(Apply(s, a), c, t)
    ensures Apply(s, a).tasks[c].phase.Holding?
  {
    BuilderEnds(s, a, t);
    TaskStays(s, a, c);
    assert IsChild(s, c, t);
  }

  lemma NoNewChild(s: State, a: Action, t: TaskId, c: TaskId)
    requires Enabled(s, a) && InPhase(s, t, Done) && IsChild(Apply(s, a), c, t)
    ensures IsChild(s, c, t)
  {
    if c in s.tasks { TaskStays(s, a, c); } else { NewTask(s, a, c); }
  }

  lemma BuilderKeepsPort(s: State, a: Action, t: TaskId, c: TaskId)
    requires Enabled(s, a) && (InPhase(s, t, Done) && IsChild(s, c, t) ==> s.tasks[c].phase.Holding?)
    requires t in Apply(s, a).tasks && Apply(s, a).tasks[t].phase == Done && IsChild(Apply(s, a), c, t)
    ensures Apply(s, a).tasks[c].phase.Holding?
  {
    if t !in s.tasks {
      NewTask(s, a, t);
    } else if s.tasks[t].phase != Done {
      SuccessGotPorts(s, a, t, c);
    } else {
      NoNewChild(s, a, t, c);
      TaskStays(s, a, c);
    }
  }

  // A thread comes to hold a port only by having its create accepted
  lemma NewHolder(s: State, a: Action, t: TaskId, port: int)
    requires TasksFollowStages(s) && Enabled(s, a) && Holds(Apply(s, a), t, port)
    ensures Holds(s, t, port) || (a.Attempt? && a.t == t && Port(port) !in s.objects)
  {}

  // The port of a thread that goes on holding it stays
  lemma HeldPortStays(s: State, a: Action, t: TaskId, port: int)
    requires SnapshotsAreComplete(s) && Enabled(s, a) && OwnsPort(s, t, port)
    requires Holds(s, t, port) && Holds(Apply(s, a), t, port)
    ensures OwnsPort(Apply(s, a), t, port)
  {
    if a.DeleteOne? { assert SnapshotIsComplete(s, a.o); }
    if Port(port) in Apply(s, a).objects { OldObjects(s, a, Port(port)); }
    TaskStays(s, a, t);
  }

  lemma NewPortIsOwned(s: State, a: Action, t: TaskId, port: int)
    requires ReservingIsNested(s) && Enabled(s, a) && a.Attempt? && a.t == t
    requires Holds(Apply(s, a), t, port)
    ensures OwnsPort(Apply(s, a), t, port)
  {
    assert IsReserving(s, t);
  }

  lemma StepKeepsNames(s: State, a: Action)
    requires NamesTellOwners(s) && TasksFollowStages(s) && Enabled(s, a)
    ensures NamesTellOwners(Apply(s, a))
  {}

  // Only a working orchestration, or its deployments, add objects of its own
  lemma NewObjects(s: State, a: Action, n: Name)
    requires ReservingIsNested(s) && TasksFollowStages(s) && NamesTellOwners(s) && Enabled(s, a)
    requires n in Apply(s, a).objects && n !in s.objects
    ensures var o := Apply(s, a).objects[n];
      o in s.stages && s.stages[o].Tearing() ==> n.Pod? && exists d <- s.objects :: d.Deployment? && s.objects[d] == o
  {}

  lemma OldObjects(s: State, a: Action, n: Name)
    requires Enabled(s, a) && n in Apply(s, a).objects && n in s.objects
    ensures Apply(s, a).objects[n] == s.objects[n]
  {}

  // What may happen to the objects of o during its deletion without spoiling its snapshot
  ghost predicate AddsNothing(s: State, s': State, o: OrchId) {
    forall n <- s'.objects :: s'.objects[n] == o ==>
      (n in s.objects && s.objects[n] == o) || (n.Pod? && exists d <- s.objects :: d.Deployment? && s.objects[d] == o)
  }

  lemma SnapshotStays(s: State, s': State, o: OrchId)
    requires o in s.stages && o in s'.stages && s'.stages[o] == s.stages[o] && SnapshotIsComplete(s, o)
    requires NamesTellOwners(s') && (s.stages[o].Tearing() ==> AddsNothing(s, s', o))
    requires s.stages[o].DeletingConfigMaps?
      ==> forall n <- s.stages[o].pending :: n in s'.objects && s'.objects[n] == o
    ensures SnapshotIsComplete(s', o)
  {
  }

  lemma StepAddsNothing(s: State, a: Action, o: OrchId)
    requires ReservingIsNested(s) && TasksFollowStages(s) && NamesTellOwners(s) && Enabled(s, a)
    requires o in s.stages && s.stages[o].Tearing()
    ensures AddsNothing(s, Apply(s, a), o)
  {
    var s' := Apply(s, a);
    forall n | n in s'.objects && s'.objects[n] == o
      ensures (n in s.objects && s.objects[n] == o)
        || (n.Pod? && exists d <- s.objects :: d.Deployment? && s.objects[d] == o)
    {
      if n in s.objects { OldObjects(s, a, n); } else { NewObjects(s, a, n); }
    }
  }

  // An action that leaves the stage of o alone keeps its snapshot complete
  lemma OtherStepsKeepSnapshot(s: State, a: Action, o: OrchId)
    requires ReservingIsNested(s) && TasksFollowStages(s) && NamesTellOwners(s) && SnapshotsAreComplete(s)
      && Enabled(s, a)
    requires o in s.stages && Apply(s, a).stages[o] == s.stages[o]
    ensures SnapshotIsComplete(Apply(s, a), o)
  {
    var s' := Apply(s, a);
    assert SnapshotIsComplete(s, o);
    StepKeepsNames(s, a);
    if s.stages[o].Tearing() { StepAddsNothing(s, a, o); }
    if s.stages[o].DeletingConfigMaps? {
      forall n | n in s.stages[o].pending ensures n in s'.objects && s'.objects[n] == o {
        PendingStays(s, a, o, n);
      }
    }
    SnapshotStays(s, s', o);
  }

  // A ConfigMap waiting to be deleted is deleted by its own orchestration only
  lemma PendingStays(s: State, a: Action, o: OrchId, n: Name)
    requires SnapshotsAreComplete(s) && Enabled(s, a)
    requires o in s.stages && s.stages[o].DeletingConfigMaps? && n in s.stages[o].pending
    requires a.DeleteOne? ==> a.o != o
    ensures n in Apply(s, a).objects && Apply(s, a).objects[n] == o
  {
    assert SnapshotIsComplete(s, o);
    if a.DeleteOne? { assert SnapshotIsComplete(s, a.o); }
  }

  lemma StepKeepsSnapshots(s: State, a: Action)
    requires ReservingIsNested(s) && TasksFollowStages(s) && NamesTellOwners(s) && SnapshotsAreComplete(s)
      && Enabled(s, a)
    ensures SnapshotsAreComplete(Apply(s, a))
  {
    var s' := Apply(s, a);
    forall o | o in s'.stages ensures SnapshotIsComplete(s', o) {
      if o in s.stages && s'.stages[o] == s.stages[o] {
        OtherStepsKeepSnapshot(s, a, o);
      } else {
        OwnStepKeepsSnapshot(s, a, o);
      }
    }
  }

  lemma BeginTakesSnapshot(s: State, o: OrchId)
    requires NamesTellOwners(s) && Enabled(s, BeginDelete(o))
    ensures SnapshotIsComplete(Apply(s, BeginDelete(o)), o)
  {}

  lemma AdvanceTakesSnapshot(s: State, o: OrchId)
    requires NamesTellOwners(s) && Enabled(s, Advance(o)) && SnapshotIsComplete(s, o)
    ensures SnapshotIsComplete(Apply(s, Advance(o)), o)
  {}

  lemma DeleteKeepsSnapshot(s: State, o: OrchId, name: Name)
    requires Enabled(s, DeleteOne(o, name)) && SnapshotIsComplete(s, o)
    ensures SnapshotIsComplete(Apply(s, DeleteOne(o, name)), o)
  {}

  lemma OwnStepKeepsSnapshot(s: State, a: Action, o: OrchId)
    requires SnapshotsAreComplete(s) && NamesTellOwners(s) && Enabled(s, a)
    requires o in Apply(s, a).stages && (o !in s.stages || Apply(s, a).stages[o] != s.stages[o])
    ensures SnapshotIsComplete(Apply(s, a), o)
  {
    match a
    case BeginDelete(_) => BeginTakesSnapshot(s, o);
    case Advance(_) => AdvanceTakesSnapshot(s, o);
    case DeleteOne(_, name) => DeleteKeepsSnapshot(s, o, name);
    case _ =>
  }
}
