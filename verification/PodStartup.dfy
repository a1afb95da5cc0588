/**
 Starting a pod by polling the cluster: the loop for a deployment, which gives up after a few
 failed replicas, and the loop for a single pod, which creates it again after it is gone.
 */
module PodStartup {
  import opened Wrappers
  import opened Sequences

  const RETINA_DEPLOY_LABEL_KEY := "retina-deploy"
  const MAX_FAILED_PODS_BEFORE_ABORT := 3
  const UNSCHEDULABLE_POD_REASONS := ["OutOfcpu", "OutOfmemory", "OutOfephemeral-storage", "OutOfpods"]
  const HOPELESS_WAITING_REASONS := ["ErrImagePull", "CrashLoopBackOff", "InvalidImageName"]

  datatype Phase = Pending | Running | Failed | OtherPhase

  // containers: the reason each container waits for, where it does; None without statuses
  datatype Pod = Pod(
    name: string,
    labels: Option<map<string, string>>,
    phase: Phase,
    reason: string,
    containers: Option<seq<Option<string>>>
  )

  // _validate_containers_from_pod raises
  predicate Hopeless(p: Pod) {
    p.containers.Some? && exists c :: c in p.containers.value && c.Some? && c.value in HOPELESS_WAITING_REASONS
  }

  // ------------------------------------------------------------------ deployments

  // A missing label counts as an empty one
  predicate Own(p: Pod, name: string) {
    && p.labels.Some?
    && (if RETINA_DEPLOY_LABEL_KEY in p.labels.value then p.labels.value[RETINA_DEPLOY_LABEL_KEY] else "") == name
  }

  // Names of the deployment's failed pods among these
  function FailedNames(pods: seq<Pod>, name: string): (names: set<string>) {
    set p | p in pods && Own(p, name) && p.phase.Failed? :: p.name
  }

  datatype Verdict = Ready(pod: Pod) | Unschedulable | TooManyFailures | ContainerError | NoLabels | TimedOut

  // Why the loop ends at pod k of all it meets, one snapshot after the other; None: it goes on
  function Ends(pods: seq<Pod>, name: string, k: nat): Option<Verdict>
    requires k < |pods|
  {
    var p := pods[k];
    if p.labels.None? then Some(NoLabels)
    else if !Own(p, name) then None
    else if p.phase.Running? then Some(Ready(p))
    else if p.phase.Failed? then
      if p.reason in UNSCHEDULABLE_POD_REASONS then Some(Unschedulable)
      else if |FailedNames(pods[..k + 1], name)| >= MAX_FAILED_PODS_BEFORE_ABORT then Some(TooManyFailures)
      else None
    else if Hopeless(p) then Some(ContainerError)
    else None
  }

  predicate GoesOn(pods: seq<Pod>, name: string, k: nat) {
    k <= |pods| && forall j :: 0 <= j < k ==> Ends(pods, name, j) == None
  }

  // The pods it meets up to the end, the last one included
  function Met(pods: seq<Pod>, k: nat): seq<Pod> {
    if k < |pods| then pods[..k + 1] else pods
  }

  // Ends at k, the first pod at which it has a reason to
  predicate EndsAt(pods: seq<Pod>, name: string, k: nat, v: Verdict) {
    && GoesOn(pods, name, k)
    && (if k < |pods| then Ends(pods, name, k) == Some(v) else v == TimedOut)
  }

  function Flat(snapshots: seq<seq<Pod>>): seq<Pod> {
    if snapshots == [] then [] else Flat(snapshots[..|snapshots| - 1]) + snapshots[|snapshots| - 1]
  }

  lemma FailedNamesGrow(pods: seq<Pod>, name: string, k: nat)
    requires k < |pods|
    ensures FailedNames(pods[..k + 1], name)
      == FailedNames(pods[..k], name) + if Own(pods[k], name) && pods[k].phase.Failed? then {pods[k].name} else {}
  {
    assert pods[..k + 1] == pods[..k] + [pods[k]];
  }

  // While it goes on, it has seen fewer failures than the maximum
  lemma {:induction false} FewFailures(pods: seq<Pod>, name: string, k: nat)
    requires GoesOn(pods, name, k)
    ensures |FailedNames(pods[..k], name)| < MAX_FAILED_PODS_BEFORE_ABORT
  {
    if k > 0 {
      assert Ends(pods, name, k - 1) == None;
      if !(Own(pods[k - 1], name) && pods[k - 1].phase.Failed?) {
        FewFailures(pods, name, k - 1);
        FailedNamesGrow(pods, name, k - 1);
        assert FailedNames(pods[..k], name) == FailedNames(pods[..k - 1], name);
      }
    }
  }

  lemma {:induction false} DistinctCount(s: seq<string>)
    requires Distinct(s)
    ensures |Elements(s)| == |s|
  {
    if s != [] {
      var n := |s| - 1;
      DistinctCount(s[..n]);
      assert s[n] !in s[..n];
      assert Elements(s) == Elements(s[..n]) + {s[n]};
    }
  }

  // Such an input: any pod without labels, of whatever name, ends the loop where it is met
  lemma NoLabelsEnds(pods: seq<Pod>, name: string, k: nat)
    requires GoesOn(pods, name, k) && k < |pods| && pods[k].labels.None?
    ensures EndsAt(pods, name, k, NoLabels) && !Aborts(NoLabels)
  {
  }

  // ------------------------------------------------------------------ the verdicts

  // The label is the deployment's name; for the empty name it may be missing
  predicate Labelled(p: Pod, name: string) {
    && p.labels.Some?
    && (RETINA_DEPLOY_LABEL_KEY in p.labels.value ==> p.labels.value[RETINA_DEPLOY_LABEL_KEY] == name)
    && (RETINA_DEPLOY_LABEL_KEY !in p.labels.value ==> name == "")
  }

  // Some container waits for a reason that waiting will not change
  predicate WaitsInVain(p: Pod) {
    p.containers.Some? && exists r <- HOPELESS_WAITING_REASONS :: Some(r) in p.containers.value
  }

  predicate OwnFailure(p: Pod, name: string) {
    Labelled(p, name) && p.phase.Failed?
  }

  predicate Differ(a: string, b: string, c: string) {
    a != b && a != c && b != c
  }

  // The third of three failed pods with different names
  predicate IsThirdFailure(pods: seq<Pod>, name: string, k: nat)
    requires k < |pods|
  {
    && OwnFailure(pods[k], name)
    && exists i, j :: 0 <= i < k && 0 <= j < k && AreFailures(pods, name, i, j, k)
  }

  predicate AreFailures(pods: seq<Pod>, name: string, i: nat, j: nat, k: nat)
    requires i < |pods| && j < |pods| && k < |pods|
  {
    && OwnFailure(pods[i], name) && OwnFailure(pods[j], name)
    && Differ(pods[i].name, pods[j].name, pods[k].name)
  }

  // Pod k is a reason for this verdict
  predicate IsReason(pods: seq<Pod>, name: string, k: nat, v: Verdict)
    requires k < |pods|
  {
    var p := pods[k];
    match v
    case NoLabels => p.labels.None?
    case Ready(q) => q == p && Labelled(p, name) && p.phase.Running?
    case Unschedulable => OwnFailure(p, name) && p.reason in UNSCHEDULABLE_POD_REASONS
    case TooManyFailures => p.reason !in UNSCHEDULABLE_POD_REASONS && IsThirdFailure(pods, name, k)
    case ContainerError => Labelled(p, name) && !p.phase.Running? && !p.phase.Failed? && WaitsInVain(p)
    case TimedOut => false
  }

  ghost predicate IsHarmless(pods: seq<Pod>, name: string, k: nat)
    requires k < |pods|
  {
    forall v :: !IsReason(pods, name, k, v)
  }

  // The verdict comes from the first pod that is a reason for any, and is what it is a reason
  // for; without such a pod it is the deadline's
  ghost predicate IsFirstReason(pods: seq<Pod>, name: string, k: nat, v: Verdict) {
    && k <= |pods| && (forall j :: 0 <= j < k ==> IsHarmless(pods, name, j))
    && if k < |pods| then IsReason(pods, name, k, v) else v.TimedOut?
  }

  lemma KindsAreTests(p: Pod, name: string)
    ensures Labelled(p, name) <==> Own(p, name)
    ensures WaitsInVain(p) <==> Hopeless(p)
  {
    if Hopeless(p) {
      var c :| c in p.containers.value && c.Some? && c.value in HOPELESS_WAITING_REASONS;
      assert c == Some(c.value);
    }
  }

  predicate TwoOthers(names: set<string>, x: string) {
    exists a, b :: a in names && b in names && Differ(a, b, x)
  }

  lemma ThreeOrMore(names: set<string>, x: string)
    requires x in names
    ensures |names| >= 3 <==> TwoOthers(names, x)
  {
    var others := names - {x};
    assert |others| == |names| - 1;
    if |others| >= 1 {
      var a :| a in others;
      assert |others - {a}| == |others| - 1;
      if |others| >= 2 {
        var b :| b in others - {a};
        assert a in names && b in names && Differ(a, b, x);
      } else {
        assert others - {a} == {};
        assert forall b <- names :: b == x || b == a;
      }
    }
  }

  predicate IsFailureName(pods: seq<Pod>, name: string, k: nat, x: string)
    requires k <= |pods|
  {
    exists i :: 0 <= i < k && OwnFailure(pods[i], name) && pods[i].name == x
  }

  lemma FailureNames(pods: seq<Pod>, name: string, k: nat, x: string)
    requires k <= |pods|
    ensures x in FailedNames(pods[..k], name) <==> IsFailureName(pods, name, k, x)
  {
    if x in FailedNames(pods[..k], name) {
      var p :| p in pods[..k] && Own(p, name) && p.phase.Failed? && p.name == x;
      var i :| 0 <= i < k && pods[i] == p;
      KindsAreTests(p, name);
    }
    if IsFailureName(pods, name, k, x) {
      var i :| 0 <= i < k && OwnFailure(pods[i], name) && pods[i].name == x;
      KindsAreTests(pods[i], name);
      assert pods[i] in pods[..k];
    }
  }

  lemma TwoOtherFailures(pods: seq<Pod>, name: string, k: nat)
    requires k < |pods| && OwnFailure(pods[k], name)
    ensures IsThirdFailure(pods, name, k) <==>
      exists a, b :: IsFailureName(pods, name, k, a) && IsFailureName(pods, name, k, b) && Differ(a, b, pods[k].name)
  {
    if IsThirdFailure(pods, name, k) {
      var i, j :| 0 <= i < k && 0 <= j < k && AreFailures(pods, name, i, j, k);
      assert IsFailureName(pods, name, k, pods[i].name) && IsFailureName(pods, name, k, pods[j].name);
    }
    if a, b :| IsFailureName(pods, name, k, a) && IsFailureName(pods, name, k, b) && Differ(a, b, pods[k].name) {
      var i :| 0 <= i < k && OwnFailure(pods[i], name) && pods[i].name == a;
      var j :| 0 <= j < k && OwnFailure(pods[j], name) && pods[j].name == b;
      assert AreFailures(pods, name, i, j, k);
    }
  }

  // The third name is reached at the third of three failures
  lemma ThirdFailure(pods: seq<Pod>, name: string, k: nat)
    requires k < |pods| && OwnFailure(pods[k], name)
    ensures |FailedNames(pods[..k + 1], name)| >= MAX_FAILED_PODS_BEFORE_ABORT <==> IsThirdFailure(pods, name, k)
  {
    var before, x := FailedNames(pods[..k], name), pods[k].name;
    KindsAreTests(pods[k], name);
    FailedNamesGrow(pods, name, k);
    ThreeOrMore(before + {x}, x);
    TwoOtherFailures(pods, name, k);
    forall a ensures a in before <==> IsFailureName(pods, name, k, a) { FailureNames(pods, name, k, a); }
    OthersOfMore(before, x);
  }

  lemma OthersOfMore(names: set<string>, x: string)
    ensures TwoOthers(names + {x}, x) <==> TwoOthers(names, x)
  {
  }

  lemma EndIsReason(pods: seq<Pod>, name: string, k: nat, v: Verdict)
    requires k < |pods|
    ensures Ends(pods, name, k) == Some(v) <==> IsReason(pods, name, k, v)
  {
    KindsAreTests(pods[k], name);
    if OwnFailure(pods[k], name) { ThirdFailure(pods, name, k); }
  }

  lemma NoEndIsHarmless(pods: seq<Pod>, name: string, k: nat)
    requires k < |pods|
    ensures Ends(pods, name, k) == None <==> IsHarmless(pods, name, k)
  {
    forall v ensures Ends(pods, name, k) == Some(v) <==> IsReason(pods, name, k, v) {
      EndIsReason(pods, name, k, v);
    }
    if Ends(pods, name, k).Some? { assert IsReason(pods, name, k, Ends(pods, name, k).value); }
  }

  // Whatever the snapshots hold, each verdict is reached exactly when the first pod that is a
  // reason for any is a reason for it
  lemma VerdictIsFirstReason(pods: seq<Pod>, name: string, k: nat, v: Verdict)
    ensures EndsAt(pods, name, k, v) <==> IsFirstReason(pods, name, k, v)
  {
    if k <= |pods| {
      forall j | 0 <= j < k ensures Ends(pods, name, j) == None <==> IsHarmless(pods, name, j) {
        NoEndIsHarmless(pods, name, j);
      }
      if k < |pods| { EndIsReason(pods, name, k, v); }
    }
  }

  // ------------------------------------------------------------------ the loop

  // What it has deleted, and remembers, before pod k
  predicate Deleted(pods: seq<Pod>, name: string, k: nat, deleted: seq<string>, seen: set<string>) {
    k <= |pods| && Distinct(deleted) && Elements(deleted) == seen && seen == FailedNames(pods[..k], name)
  }

  lemma DeletedOneMore(pods: seq<Pod>, name: string, k: nat, deleted: seq<string>, seen: set<string>)
    requires k < |pods| && Deleted(pods, name, k, deleted, seen)
    ensures var fails, x := Own(pods[k], name) && pods[k].phase.Failed?, pods[k].name;
      Deleted(
        pods, name, k + 1, if fails && x !in seen then deleted + [x] else deleted, if fails then seen + {x} else seen)
  {
    FailedNamesGrow(pods, name, k);
    var x := pods[k].name;
    assert Elements(deleted + [x]) == Elements(deleted) + {x};
    if x !in seen { assert x !in deleted; }
  }

  lemma KeepsGoing(pods: seq<Pod>, name: string, k: nat)
    requires k < |pods| && GoesOn(pods, name, k) && Ends(pods, name, k) == None
    ensures GoesOn(pods, name, k + 1)
  {
  }

  lemma FailuresMet(pods: seq<Pod>, name: string, k: nat)
    requires GoesOn(pods, name, k)
    ensures |FailedNames(Met(pods, k), name)| <= MAX_FAILED_PODS_BEFORE_ABORT
    ensures |FailedNames(Met(pods, k), name)| == MAX_FAILED_PODS_BEFORE_ABORT
      ==> k < |pods| && Own(pods[k], name) && pods[k].phase.Failed?
  {
    FewFailures(pods, name, k);
    if k < |pods| { FailedNamesGrow(pods, name, k); } else { assert pods[..k] == pods; }
  }

  // It never deletes more pods than the maximum.  Giving up on too many failures is deleting
  // that many; deleting that many is giving up, for the failures or for the last one's reason.
  lemma DeletesFewPods(pods: seq<Pod>, name: string, k: nat, v: Verdict, deleted: seq<string>)
    requires EndsAt(pods, name, k, v) && Distinct(deleted) && Elements(deleted) == FailedNames(Met(pods, k), name)
    ensures |deleted| <= MAX_FAILED_PODS_BEFORE_ABORT
    ensures v.TooManyFailures? ==> |deleted| == MAX_FAILED_PODS_BEFORE_ABORT
    ensures |deleted| == MAX_FAILED_PODS_BEFORE_ABORT ==> v.TooManyFailures? || v.Unschedulable?
  {
    DistinctCount(deleted);
    FailuresMet(pods, name, k);
  }

  // The loop's body for one pod
  method Examine(p: Pod, name: string, deleted: seq<string>, seen: set<string>, ghost pods: seq<Pod>, ghost k: nat)
    returns (verdict: Option<Verdict>, deleted': seq<string>, seen': set<string>)
    requires k < |pods| && pods[k] == p && Deleted(pods, name, k, deleted, seen)
    ensures verdict == Ends(pods, name, k)
    ensures Deleted(pods, name, k + 1, deleted', seen')
  {
    DeletedOneMore(pods, name, k, deleted, seen);
    deleted', seen' := deleted, seen;
    if p.labels.None? { return Some(NoLabels), deleted', seen'; }
    if !Own(p, name) { return None, deleted', seen'; }
    if p.phase.Running? { return Some(Ready(p)), deleted', seen'; }
    if p.phase.Failed? {
      if p.name in seen {
        assert seen + {p.name} == seen;
      } else {
        seen' := seen + {p.name};
        deleted' := deleted + [p.name];
      }
      if p.reason in UNSCHEDULABLE_POD_REASONS { return Some(Unschedulable), deleted', seen'; }
      if |seen'| >= MAX_FAILED_PODS_BEFORE_ABORT { return Some(TooManyFailures), deleted', seen'; }
      return None, deleted', seen';
    }
    return if Hopeless(p) then Some(ContainerError) else None, deleted', seen';
  }

  predicate Aborts(v: Verdict) {
    v.Unschedulable? || v.TooManyFailures? || v.TimedOut?
  }

  lemma ReadyIsOwn(pods: seq<Pod>, name: string, k: nat, v: Verdict)
    requires EndsAt(pods, name, k, v) && v.Ready?
    ensures v.pod in pods && Own(v.pod, name) && v.pod.phase.Running?
  {
  }

  // create_deployment_until_pod_scheduled: one snapshot a turn, until the deadline
  method CreateDeployment(name: string, snapshots: seq<seq<Pod>>)
    returns (verdict: Verdict, deleted: seq<string>, aborted: bool, ghost end: nat)
    ensures IsFirstReason(Flat(snapshots), name, end, verdict) && EndsAt(Flat(snapshots), name, end, verdict)
    ensures verdict.Ready? ==> verdict.pod in Flat(snapshots) && Own(verdict.pod, name) && verdict.pod.phase.Running?
    ensures Distinct(deleted) && Elements(deleted) == FailedNames(Met(Flat(snapshots), end), name)
    ensures aborted <==> Aborts(verdict)
  {
    ghost var pods := Flat(snapshots);
    deleted := [];
    end := 0;
    var seen: set<string> := {};
    for turn := 0 to |snapshots|
      invariant end == |Flat(snapshots[..turn])|
      invariant GoesOn(pods, name, end) && Deleted(pods, name, end, deleted, seen)
    {
      var snapshot := snapshots[turn];
      ghost var before := end;
      FlatTurn(snapshots, turn);
      for i := 0 to |snapshot|
        invariant end == before + i
        invariant GoesOn(pods, name, end) && Deleted(pods, name, end, deleted, seen)
      {
        var reason: Option<Verdict>;
        reason, deleted, seen := Examine(snapshot[i], name, deleted, seen, pods, end);
        if reason.Some? {
          verdict := reason.value;
          VerdictIsFirstReason(pods, name, end, verdict);
          if verdict.Ready? { ReadyIsOwn(pods, name, end, verdict); }
          return verdict, deleted, Aborts(verdict), end;
        }
        KeepsGoing(pods, name, end);
        end := end + 1;
      }
    }
    assert snapshots[..|snapshots|] == snapshots && pods[..end] == pods;
    VerdictIsFirstReason(pods, name, end, TimedOut);
    return TimedOut, deleted, true, end;
  }

  lemma {:induction false} FlatPrefix(snapshots: seq<seq<Pod>>, turn: nat)
    requires turn <= |snapshots|
    ensures Flat(snapshots[..turn]) <= Flat(snapshots)
    decreases |snapshots|
  {
    var n := |snapshots|;
    if turn < n {
      FlatPrefix(snapshots[..n - 1], turn);
      assert snapshots[..n - 1][..turn] == snapshots[..turn];
    } else {
      assert snapshots[..turn] == snapshots;
    }
  }

  lemma FlatTurn(snapshots: seq<seq<Pod>>, turn: nat)
    requires turn < |snapshots|
    ensures var before := |Flat(snapshots[..turn])|;
      && |Flat(snapshots[..turn + 1])| == before + |snapshots[turn]| <= |Flat(snapshots)|
      && forall i :: 0 <= i < |snapshots[turn]| ==> Flat(snapshots)[before + i] == snapshots[turn][i]
  {
    FlatPrefix(snapshots, turn + 1);
    assert snapshots[..turn + 1][..turn] == snapshots[..turn];
    assert Flat(snapshots[..turn + 1]) == Flat(snapshots[..turn]) + snapshots[turn];
  }

  // ------------------------------------------------------------------ single pods

  // What the loop does to the cluster, and the looks it takes at it
  datatype Event = Create | Delete | Look(seen: Option<Pod>)

  // Where the log leaves the loop: to create the pod, polling it, to delete it, waiting for it
  // to disappear, or done
  datatype Stage = ToCreate | Polling | ToDelete | Removing | Done

  // A failed pod that never got containers
  predicate NeverStarted(p: Pod) {
    p.phase.Failed? && p.containers.None?
  }

  function Next(before: Stage, e: Event): Stage {
    match e
    case Create => Polling
    case Delete => Removing
    case Look(None) => ToCreate
    case Look(Some(p)) =>
      if before.Removing? then Removing
      else if p.phase.Running? then Done
      else if NeverStarted(p) then ToDelete
      else if Hopeless(p) then Done
      else Polling
  }

  function StageAfter(log: seq<Event>): Stage {
    if log == [] then ToCreate else Next(StageAfter(log[..|log| - 1]), log[|log| - 1])
  }

  predicate Asks(before: Stage, e: Event) {
    match before
    case ToCreate => e.Create?
    case ToDelete => e.Delete?
    case Polling => e.Look?
    case Removing => e.Look?
    case Done => false
  }

  // Every event is the one the stage before it asks for
  predicate Follows(log: seq<Event>) {
    log == [] || (Follows(log[..|log| - 1]) && Asks(StageAfter(log[..|log| - 1]), log[|log| - 1]))
  }

  lemma {:induction false} FollowsPrefix(log: seq<Event>, k: nat)
    requires Follows(log) && k <= |log|
    ensures Follows(log[..k])
    decreases |log|
  {
    if k < |log| {
      FollowsPrefix(log[..|log| - 1], k);
      assert log[..|log| - 1][..k] == log[..k];
    } else {
      assert log[..k] == log;
    }
  }

  // The pod is created again only right after a look that does not find it
  lemma CreateFollowsAbsence(log: seq<Event>, k: nat)
    requires Follows(log) && k < |log| && log[k].Create?
    ensures k > 0 ==> log[k - 1] == Look(None)
  {
    FollowsPrefix(log, k + 1);
    assert log[..k + 1][..k] == log[..k];
    if k > 0 { assert log[..k][k - 1] == log[k - 1]; }
  }

  // It is deleted exactly after a look, while polling, that finds it failed without containers
  lemma DeleteFollowsFailure(log: seq<Event>, k: nat)
    requires Follows(log) && 0 < k < |log|
    ensures log[k].Delete? <==>
      log[k - 1].Look? && log[k - 1].seen.Some? && NeverStarted(log[k - 1].seen.value)
      && StageAfter(log[..k - 1]).Polling?
  {
    FollowedByNext(log, k - 1);
    FollowedByNext(log, k);
  }

  // One event at a time: what the stage before asks for, and the stage after
  lemma FollowedByNext(log: seq<Event>, k: nat)
    requires Follows(log) && k < |log|
    ensures Asks(StageAfter(log[..k]), log[k])
    ensures StageAfter(log[..k + 1]) == Next(StageAfter(log[..k]), log[k])
  {
    FollowsPrefix(log, k + 1);
    assert log[..k + 1][..k] == log[..k];
  }

  // ------------------------------------------------------------------ what a look leads to

  // A look at a pod that was there at every look since it was last created
  predicate IsPolled(log: seq<Event>, k: nat) {
    && k < |log| && log[k].Look?
    && exists c :: 0 <= c < k && log[c].Create? && FoundBetween(log, c, k)
  }

  predicate FoundBetween(log: seq<Event>, c: nat, k: nat)
    requires c < k < |log|
  {
    forall i :: c < i < k ==> log[i].Look? && log[i].seen.Some?
  }

  // The pod seen runs, or it has a container that waits in vain and is not one to be created again
  predicate IsDecisive(log: seq<Event>, k: nat) {
    && IsPolled(log, k) && log[k].seen.Some?
    && var p := log[k].seen.value;
      p.phase.Running? || (WaitsInVain(p) && !(p.phase.Failed? && p.containers.None?))
  }

  lemma {:induction false} PolledWhilePolling(log: seq<Event>, k: nat)
    requires Follows(log) && k < |log| && log[k].Look?
    ensures StageAfter(log[..k]).Polling? <==> IsPolled(log, k)
  {
    if k > 0 {
      FollowedByNext(log, k - 1);
      if log[k - 1].Look? { PolledWhilePolling(log, k - 1); }
      PolledFromBefore(log, k);
    }
    FollowedByNext(log, k);
  }

  // Right after the creation, or after such a look that found the pod
  lemma PolledFromBefore(log: seq<Event>, k: nat)
    requires 0 < k < |log| && log[k].Look?
    ensures IsPolled(log, k) <==> log[k - 1].Create? || (IsPolled(log, k - 1) && log[k - 1].seen.Some?)
  {
    if log[k - 1].Create? { assert FoundBetween(log, k - 1, k); }
    if IsPolled(log, k) {
      var c :| 0 <= c < k && log[c].Create? && FoundBetween(log, c, k);
      if c < k - 1 { assert FoundBetween(log, c, k - 1); }
    }
    if IsPolled(log, k - 1) && log[k - 1].seen.Some? {
      var c :| 0 <= c < k - 1 && log[c].Create? && FoundBetween(log, c, k - 1);
      assert FoundBetween(log, c, k);
    }
  }

  // What comes after a look: an absent pod is created; of a pod that is polled, one that is
  // decisive ends the loop, a failed one without containers is deleted, and any other is looked
  // at again, as is one that is to be removed
  lemma LookLeadsTo(log: seq<Event>, k: nat)
    requires Follows(log) && k + 1 < |log| && log[k].Look?
    ensures !IsDecisive(log, k)
    ensures log[k + 1].Create? <==> log[k].seen.None?
    ensures log[k + 1].Delete? <==>
      IsPolled(log, k) && log[k].seen.Some? && log[k].seen.value.phase.Failed? && log[k].seen.value.containers.None?
  {
    PolledWhilePolling(log, k);
    FollowedByNext(log, k);
    FollowedByNext(log, k + 1);
    if log[k].seen.Some? { KindsAreTests(log[k].seen.value, ""); }
  }

  // The verdict is told by the last event
  predicate IsVerdict(log: seq<Event>, v: Verdict) {
    var k := |log| - 1;
    match v
    case Ready(p) => log != [] && IsDecisive(log, k) && log[k].seen == Some(p) && p.phase.Running?
    case ContainerError => log != [] && IsDecisive(log, k) && !log[k].seen.value.phase.Running?
    case TimedOut => log != [] ==> !IsDecisive(log, k)
    case _ => false
  }

  lemma DoneWhenDecisive(log: seq<Event>)
    requires Follows(log) && log != []
    ensures StageAfter(log).Done? <==> IsDecisive(log, |log| - 1)
    ensures StageAfter(log).Done? ==> log[|log| - 1].Look? && log[|log| - 1].seen.Some?
  {
    var k := |log| - 1;
    assert log[..k + 1] == log;
    FollowedByNext(log, k);
    if log[k].Look? {
      PolledWhilePolling(log, k);
      if log[k].seen.Some? { KindsAreTests(log[k].seen.value, ""); }
    }
  }

  // After a deletion it is created again only once a look has found it gone
  lemma {:induction false} RemovedBeforeCreated(log: seq<Event>, i: nat, j: nat)
    requires Follows(log) && i < j < |log| && log[i].Delete? && log[j].Create?
    ensures exists k :: i < k < j && log[k] == Look(None)
  {
    CreateFollowsAbsence(log, j);
    assert i < j - 1;
  }

  // Each test of the deadline takes one unit of time; it precedes every event but a deletion
  function Ticks(log: seq<Event>): nat {
    if log == [] then 0 else Ticks(log[..|log| - 1]) + if log[|log| - 1].Delete? then 0 else 1
  }

  // The log of the loop against this cluster: what is asked for, and true looks at their times
  predicate Logged(log: seq<Event>, cluster: nat -> Option<Pod>) {
    log == [] ||
    (var before, e := log[..|log| - 1], log[|log| - 1];
      Logged(before, cluster) && Asks(StageAfter(before), e) && (e.Look? ==> e.seen == cluster(Ticks(before))))
  }

  lemma {:induction false} LoggedFollows(log: seq<Event>, cluster: nat -> Option<Pod>)
    requires Logged(log, cluster)
    ensures Follows(log)
  {
    if log != [] { LoggedFollows(log[..|log| - 1], cluster); }
  }

  // Nothing else could have happened: two logs of the same cluster are the same, as far as both go
  lemma {:induction false} LogIsDetermined(a: seq<Event>, b: seq<Event>, cluster: nat -> Option<Pod>)
    requires Logged(a, cluster) && Logged(b, cluster) && |a| <= |b|
    ensures a <= b
    decreases |b|
  {
    if |a| < |b| {
      LogIsDetermined(a, b[..|b| - 1], cluster);
    } else if a != [] {
      LogIsDetermined(a[..|a| - 1], b[..|b| - 1], cluster);
      assert a[..|a| - 1] == b[..|b| - 1] && a[|a| - 1] == b[|b| - 1];
      assert a == a[..|a| - 1] + [a[|a| - 1]] && b == b[..|b| - 1] + [b[|b| - 1]];
    }
  }

  lemma LogOneMore(log: seq<Event>, cluster: nat -> Option<Pod>, e: Event)
    requires Logged(log, cluster) && Asks(StageAfter(log), e) && (e.Look? ==> e.seen == cluster(Ticks(log)))
    ensures Logged(log + [e], cluster) && StageAfter(log + [e]) == Next(StageAfter(log), e)
    ensures Ticks(log + [e]) == Ticks(log) + if e.Delete? then 0 else 1
  {
    assert (log + [e])[..|log|] == log;
  }

  // Apart from the first time, the pod is created only right after a look that does not find it,
  // and at the time of that look the cluster did not have it
  lemma CreatedWhenAbsent(log: seq<Event>, cluster: nat -> Option<Pod>, k: nat)
    requires Logged(log, cluster) && 0 < k < |log| && log[k].Create?
    ensures log[k - 1] == Look(None) && cluster(Ticks(log[..k - 1])) == None
  {
    LoggedFollows(log, cluster);
    CreateFollowsAbsence(log, k);
    LoggedPrefix(log, cluster, k);
    assert log[..k][..k - 1] == log[..k - 1] && log[..k][k - 1] == log[k - 1];
  }

  lemma {:induction false} LoggedPrefix(log: seq<Event>, cluster: nat -> Option<Pod>, k: nat)
    requires Logged(log, cluster) && k <= |log|
    ensures Logged(log[..k], cluster)
    decreases |log|
  {
    if k < |log| {
      LoggedPrefix(log[..|log| - 1], cluster, k);
      assert log[..|log| - 1][..k] == log[..k];
    } else {
      assert log[..k] == log;
    }
  }

  // Waits until the pod is gone, or the deadline
  method AwaitRemoval(log0: seq<Event>, cluster: nat -> Option<Pod>, now: nat, deadline: nat)
    returns (log: seq<Event>, time: nat)
    requires Logged(log0, cluster) && StageAfter(log0).Removing? && now == Ticks(log0) <= deadline
    ensures Logged(log, cluster) && now <= time == Ticks(log) <= deadline
    ensures StageAfter(log).ToCreate? || (StageAfter(log).Removing? && time == deadline)
  {
    log, time := log0, now;
    while time < deadline
      invariant now <= time == Ticks(log) <= deadline
      invariant Logged(log, cluster) && StageAfter(log).Removing?
    {
      var seen := cluster(time);
      LogOneMore(log, cluster, Look(seen));
      log, time := log + [Look(seen)], time + 1;
      if seen.None? { return; }
    }
  }

  // The verdict the log stands for
  predicate Concludes(log: seq<Event>, verdict: Verdict) {
    match verdict
    case Ready(p) => StageAfter(log).Done? && log[|log| - 1] == Look(Some(p)) && p.phase.Running?
    case ContainerError => StageAfter(log).Done? && !log[|log| - 1].seen.value.phase.Running?
    case TimedOut => !StageAfter(log).Done?
    case _ => false
  }

  // The looks alone tell the verdict: the last one is decisive, and no other
  lemma VerdictIsTold(log: seq<Event>, v: Verdict)
    requires Follows(log) && Concludes(log, v)
    ensures IsVerdict(log, v) && forall k :: 0 <= k < |log| - 1 ==> !IsDecisive(log, k)
  {
    if log != [] { DoneWhenDecisive(log); }
    forall k | 0 <= k < |log| - 1 ensures !IsDecisive(log, k) {
      if log[k].Look? { LookLeadsTo(log, k); }
    }
  }

  // Polls until there is a verdict, or the pod is gone and to be created again
  method Poll(log0: seq<Event>, cluster: nat -> Option<Pod>, now: nat, deadline: nat)
    returns (verdict: Verdict, log: seq<Event>, time: nat)
    requires Logged(log0, cluster) && StageAfter(log0).Polling? && now == Ticks(log0) <= deadline
    ensures Logged(log, cluster) && now <= time == Ticks(log) <= deadline && Concludes(log, verdict)
    ensures verdict.TimedOut? ==> StageAfter(log).ToCreate? || time == deadline
  {
    log, time := log0, now;
    while time < deadline
      invariant now <= time == Ticks(log) <= deadline
      invariant Logged(log, cluster) && StageAfter(log).Polling?
    {
      var seen := cluster(time);
      LogOneMore(log, cluster, Look(seen));
      log, time := log + [Look(seen)], time + 1;
      if seen.None? { return TimedOut, log, time; }
      var p := seen.value;
      if p.phase.Running? { return Ready(p), log, time; }
      if p.phase.Failed? && p.containers.None? {
        LogOneMore(log, cluster, Delete);
        log, time := AwaitRemoval(log + [Delete], cluster, time, deadline);
        return TimedOut, log, time;
      }
      if Hopeless(p) { return ContainerError, log, time; }
    }
    return TimedOut, log, time;
  }

  // create_pod_until_scheduled.  The cluster says at each time whether the pod is there.
  method CreatePod(cluster: nat -> Option<Pod>, deadline: nat) returns (verdict: Verdict, log: seq<Event>)
    ensures Logged(log, cluster) && Ticks(log) <= deadline
    ensures IsVerdict(log, verdict) && forall k :: 0 <= k < |log| - 1 ==> !IsDecisive(log, k)
    ensures verdict.TimedOut? ==> Ticks(log) == deadline
    ensures forall k :: 0 < k < |log| && log[k].Create? ==>
                log[k - 1] == Look(None) && cluster(Ticks(log[..k - 1])) == None
  {
    log, verdict := [], TimedOut;
    var time := 0;
    while time < deadline
      invariant time == Ticks(log) <= deadline && Logged(log, cluster)
      invariant !StageAfter(log).Done? && (time < deadline ==> StageAfter(log).ToCreate?)
      invariant verdict.TimedOut?
    {
      LogOneMore(log, cluster, Create);
      log, time := log + [Create], time + 1;
      verdict, log, time := Poll(log, cluster, time, deadline);
      if !verdict.TimedOut? { break; }
    }
    LoggedFollows(log, cluster);
    VerdictIsTold(log, verdict);
    forall k | 0 < k < |log| && log[k].Create?
      ensures log[k - 1] == Look(None) && cluster(Ticks(log[..k - 1])) == None
    {
      CreatedWhenAbsent(log, cluster, k);
    }
  }
}
