/**
 What the calls of the UE agent do to its clients: whose UE a Start switches on and a Stop off,
 what is launched, and which IMSI a client is given, call by call and over whole runs.
 */
module UeSessions {
  import opened Wrappers
  import opened Decimal
  import opened UeLifecycle

  // No client has two entries
  predicate OneEntryEach(a: Agent) {
    forall i, j :: 0 <= i < j < |a.subscribers| ==> a.subscribers[i].peer != a.subscribers[j].peer
  }

  // The client's UE is switched on
  predicate IsOn(a: Agent, peer: Peer) {
    exists s <- a.subscribers :: s.peer == peer && s.started
  }

  predicate HasEntry(a: Agent, peer: Peer) {
    exists s <- a.subscribers :: s.peer == peer
  }

  lemma HasEntryIsKnown(a: Agent, peer: Peer)
    ensures HasEntry(a, peer) <==> Knows(a, peer)
  {
    if Knows(a, peer) { assert a.subscribers[Find(a.subscribers, peer)] in a.subscribers; }
  }

  // Only the flags of these clients have changed, and they are what they are said to be
  predicate OnlyFlags(a: Agent, a': Agent, on: Subscriber -> bool) {
    && a'.count == a.count && |a'.subscribers| == |a.subscribers|
    && forall i :: 0 <= i < |a.subscribers| ==> IsFlag(a.subscribers[i], a'.subscribers[i], on)
  }

  predicate IsFlag(s: Subscriber, s': Subscriber, on: Subscriber -> bool) {
    s' == Subscriber(s.peer, s.id, s.imsi, on(s))
  }

  // ------------------------------------------------------------------ launching

  // The link is to a process that runs
  predicate LinkIsLive(a: Agent) {
    a.link.Open? ==> a.running
  }

  // The attempt gets as far as looking at the license
  predicate Runs(t: Attempt) {
    !t.badConfig && !t.cannotRun && !t.dryrun
  }

  // The n-th attempt is the first one not to find the license in use, and nothing goes wrong with it
  predicate LaunchesAt(a: Agent, attempts: seq<Attempt>, n: nat) {
    && n < |attempts|
    && !QuitRaises(a, attempts[0].stop)
    && (forall k :: 0 <= k < n ==> Runs(attempts[k]) && attempts[k].license.InUse?)
    && Runs(attempts[n]) && attempts[n].license.Available? && !attempts[n].refused && !attempts[n].setupRaises
  }

  predicate LaunchSucceeds(a: Agent, attempts: seq<Attempt>) {
    exists n :: 0 <= n < |attempts| && LaunchesAt(a, attempts, n)
  }

  // While no UE is started, a launch succeeds exactly so, after launching once per attempt; no
  // client is touched
  lemma {:induction false} LaunchesWhen(a: Agent, peer: Peer, attempts: seq<Attempt>)
    requires !AnyStarted(a) && LinkIsLive(a)
    ensures var (a', launched) := Launch(a, peer, attempts);
      && a'.subscribers == a.subscribers && a'.count == a.count && LinkIsLive(a')
      && (launched <==> LaunchSucceeds(a, attempts))
      && (launched ==> exists n :: LaunchesAt(a, attempts, n) && a'.launches == a.launches + n + 1)
    decreases |attempts|
  {
    if attempts != [] {
      var t := attempts[0];
      var a1 := StopUnlock(a, peer, t.stop, Live).0;
      var a3 := a1.(running := true, launches := a1.launches + 1);
      if !QuitRaises(a, t.stop) && Runs(t) {
        if t.license.InUse? {
          LaunchesWhen(a3, peer, attempts[1..]);
          LaunchesLater(a, a3, attempts);
        } else if t.license.Available? && !t.refused && !t.setupRaises {
          assert LaunchesAt(a, attempts, 0);
        }
      }
    }
  }

  // After an attempt that found the license in use it is as if the others came first
  lemma LaunchesLater(a: Agent, a3: Agent, attempts: seq<Attempt>)
    requires attempts != [] && !QuitRaises(a, attempts[0].stop) && !a3.link.Open?
    requires Runs(attempts[0]) && attempts[0].license.InUse?
    ensures forall n: nat :: LaunchesAt(a3, attempts[1..], n) ==> LaunchesAt(a, attempts, n + 1)
    ensures forall n: nat :: LaunchesAt(a, attempts, n) ==> n > 0 && LaunchesAt(a3, attempts[1..], n - 1)
  {
  }

  // The attempt launches a process, and before that it has stopped the one there was
  predicate GetsToRun(a: Agent, attempts: seq<Attempt>, n: nat) {
    n < |attempts| && Runs(attempts[n]) && (n == 0 ==> !QuitRaises(a, attempts[0].stop))
  }

  predicate GetsToStop(a: Agent, attempts: seq<Attempt>, n: nat) {
    n < |attempts| && !attempts[n].badConfig && (n == 0 ==> !QuitRaises(a, attempts[0].stop))
  }

  predicate TriesAgain(a: Agent, attempts: seq<Attempt>, n: nat) {
    GetsToRun(a, attempts, n) && attempts[n].license.InUse?
  }

  // Attempt n is the last: the ones before found the license in use.  What a launch leaves of the
  // process, launched or not: it runs if attempt n got as far as that, or if one ran before and
  // attempt n did not get to stop it.
  predicate EndsWithAttempt(a: Agent, a': Agent, attempts: seq<Attempt>, n: nat) {
    && n <= |attempts| && (forall k :: 0 <= k < n ==> TriesAgain(a, attempts, k)) && !TriesAgain(a, attempts, n)
    && a'.launches == a.launches + n + (if GetsToRun(a, attempts, n) then 1 else 0)
    && a'.running == (GetsToRun(a, attempts, n) || (!GetsToStop(a, attempts, n) && (n > 0 || a.running)))
  }

  lemma {:induction false} LaunchLeaves(a: Agent, peer: Peer, attempts: seq<Attempt>) returns (n: nat)
    requires !AnyStarted(a) && LinkIsLive(a)
    ensures EndsWithAttempt(a, Launch(a, peer, attempts).0, attempts, n)
    decreases |attempts|
  {
    n := 0;
    if TriesAgain(a, attempts, 0) {
      var a1 := StopUnlock(a, peer, attempts[0].stop, Live).0;
      var a3 := a1.(running := true, launches := a1.launches + 1);
      n := LaunchLeaves(a3, peer, attempts[1..]);
      EndsLater(a, a3, Launch(a, peer, attempts).0, attempts, n);
      n := n + 1;
    }
  }

  lemma EndsLater(a: Agent, a3: Agent, a': Agent, attempts: seq<Attempt>, n: nat)
    requires attempts != [] && TriesAgain(a, attempts, 0) && !a3.link.Open?
    requires a3.running && a3.launches == a.launches + 1 && EndsWithAttempt(a3, a', attempts[1..], n)
    ensures EndsWithAttempt(a, a', attempts, n + 1)
  {
    forall k | 0 <= k < n + 1 ensures TriesAgain(a, attempts, k) {
      if k > 0 { assert TriesAgain(a3, attempts[1..], k - 1); }
    }
  }

  // ------------------------------------------------------------------ starting

  // The process is there for the client's UE, already or after a launch
  predicate ProcessIsThere(a: Agent, env: StartEnv) {
    if AnyStarted(a) then a.link.Open? else LaunchSucceeds(a, env.attempts)
  }

  // The call comes to switch the client's UE on, and nothing goes wrong with that
  predicate SwitchesOn(a: Agent, peer: Peer, env: StartEnv) {
    ProcessIsThere(a, env) && HasEntry(a, peer) && !env.powerOnRaises
  }

  // A Start switches on the UE of its client and of nobody else, and forgets nobody; it returns,
  // instead of raising, exactly when it has switched it on, or there are no clients at all, and
  // the process has not died.  So a Start that returns leaves its client's UE on, and starts
  // nobody exactly when the dictionary is empty.
  lemma StartStarts(a: Agent, peer: Peer, env: StartEnv)
    requires OneEntryEach(a) && LinkIsLive(a)
    ensures var (a', ok) := Start(a, peer, env);
      && OnlyFlags(a, a', (s: Subscriber) => s.started || (s.peer == peer && SwitchesOn(a, peer, env)))
      && (ok <==>
          ProcessIsThere(a, env) && !env.diedAfter && (a.subscribers == [] || SwitchesOn(a, peer, env)))
      && (ok ==> (IsOn(a', peer) <==> a.subscribers != []) && (AnyStarted(a') <==> a.subscribers != []))
  {
    if AnyStarted(a) {
      PowerOnStarts(a, peer, env);
    } else {
      LaunchesWhen(a, peer, env.attempts);
      LaunchEnds(a, peer, env.attempts);
      PowerOnStarts(Launch(a, peer, env.attempts).0, peer, env);
    }
    OnMeansStarted(Start(a, peer, env).0, peer);
    assert a.subscribers != [] && HasEntry(a, peer) ==> IsOn(Start(a, peer, env).0, peer) || !Start(a, peer, env).1;
  }

  lemma OnMeansStarted(a: Agent, peer: Peer)
    ensures IsOn(a, peer) ==> AnyStarted(a)
  {
  }

  lemma PowerOnStarts(a: Agent, peer: Peer, env: StartEnv)
    requires OneEntryEach(a)
    ensures var (a', ok) := PowerOn(a, peer, env);
      var reached := a.link.Open? && HasEntry(a, peer) && !env.powerOnRaises;
      && OnlyFlags(a, a', (s: Subscriber) => s.started || (s.peer == peer && reached))
      && (ok <==> a.link.Open? && !env.diedAfter && (a.subscribers == [] || reached))
      && (reached ==> IsOn(a', peer))
  {
    HasEntryIsKnown(a, peer);
    var a', i := PowerOn(a, peer, env).0, Find(a.subscribers, peer);
    if i < |a.subscribers| { assert a'.subscribers[i] in a'.subscribers; }
  }

  // ------------------------------------------------------------------ stopping

  // Stopping all comes to a UE that cannot be switched off, this one or one before it
  predicate Blocked(a: Agent, env: StopEnv, s: Subscriber) {
    exists r <- a.subscribers :: r.started && PowerOffRaises(a, r, env) && r.id <= s.id
  }

  // The client's Stop does not switch off this UE, which is on
  predicate StaysOn(a: Agent, peer: Peer, env: StopEnv, s: Subscriber) {
    if HasEntry(a, peer) then s.peer != peer || PowerOffRaises(a, s, env) else Blocked(a, env, s)
  }

  // What a Stop leaves: while some UE stays on, the flags alone have changed; else all clients
  // are forgotten, if there was a UE to stop, and the link is closed, if the farewell succeeds
  predicate StopsOnly(a: Agent, a': Agent, peer: Peer, env: StopEnv) {
    && a'.launches == a.launches
    && (SomeStays(a, peer, env) ==>
        OnlyFlags(a, a', (s: Subscriber) => s.started && StaysOn(a, peer, env, s)) && a'.link == a.link)
    && (!SomeStays(a, peer, env) ==>
        && a'.link == (if a.running && a.link.Open? && !env.quitRaises then Closed else a.link)
        && if AnyStarted(a) then a'.subscribers == [] && a'.count == 0
           else a'.subscribers == a.subscribers && a'.count == a.count)
  }

  // The entry of the client is found, and no other has its name
  lemma OwnEntry(a: Agent, i: nat, env: StopEnv)
    requires OneEntryEach(a) && i < |a.subscribers|
    ensures HasEntry(a, a.subscribers[i].peer) && Knows(a, a.subscribers[i].peer)
    ensures Find(a.subscribers, a.subscribers[i].peer) == i
    ensures forall j :: 0 <= j < |a.subscribers| && j != i ==> StaysOn(a, a.subscribers[i].peer, env, a.subscribers[j])
  {
    FindEntry(a.subscribers, i);
    assert a.subscribers[i] in a.subscribers;
  }

  lemma NothingSwitchedOff(a: Agent, i: nat, env: StopEnv)
    requires OneEntryEach(a) && i < |a.subscribers|
    requires !a.subscribers[i].started || PowerOffRaises(a, a.subscribers[i], env)
    ensures OnlyFlags(a, a, (s: Subscriber) => s.started && StaysOn(a, a.subscribers[i].peer, env, s))
  {
    OwnEntry(a, i, env);
  }

  lemma OwnSwitchedOff(a: Agent, i: nat, env: StopEnv)
    requires OneEntryEach(a) && i < |a.subscribers| && !PowerOffRaises(a, a.subscribers[i], env)
    ensures OnlyFlags(a, SwitchOff(a, i), (s: Subscriber) => s.started && StaysOn(a, a.subscribers[i].peer, env, s))
  {
    OwnEntry(a, i, env);
  }

  // What a stop by the client of entry i comes to
  lemma StopKnownIs(a: Agent, i: nat, env: StopEnv)
    requires i < |a.subscribers| && AnyStarted(a)
    ensures var s := a.subscribers[i];
      var (a', outcome) := StopKnown(a, i, env);
      && (!s.started ==> a' == a && outcome == Response && OtherStarted(a, i))
      && (s.started && PowerOffRaises(a, s, env) ==> a' == a && outcome == Raised)
      && (s.started && !PowerOffRaises(a, s, env) && OtherStarted(a, i) ==>
          a' == SwitchOff(a, i) && outcome == Response)
      && (s.started && !PowerOffRaises(a, s, env) && !OtherStarted(a, i) ==> StopsAll(a, a', env) && !outcome.Response?)
  {
    KnownStays(a, i, env);
  }

  lemma StopKnownStops(a: Agent, i: nat, env: StopEnv)
    requires i < |a.subscribers| && AnyStarted(a) && OneEntryEach(a)
    ensures StopsOnly(a, StopKnown(a, i, env).0, a.subscribers[i].peer, env)
    ensures var s := a.subscribers[i];
      StopKnown(a, i, env).1.Response? <==>
        SomeStays(a, s.peer, env) && !(s.started && PowerOffRaises(a, s, env))
  {
    StopKnownIs(a, i, env);
    OwnEntry(a, i, env);
    if !a.subscribers[i].started || PowerOffRaises(a, a.subscribers[i], env) {
      NothingSwitchedOff(a, i, env);
    } else {
      OwnSwitchedOff(a, i, env);
    }
  }

  predicate StopsAll(a: Agent, a': Agent, env: StopEnv) {
    && a'.subscribers == [] && a'.count == 0 && a'.launches == a.launches
    && a'.link == if a.running && a.link.Open? && !env.quitRaises then Closed else a.link
  }

  predicate IdsAscend(a: Agent) {
    forall i, j :: 0 <= i < j < |a.subscribers| ==> a.subscribers[i].id < a.subscribers[j].id
  }

  // Switching a UE off that can be does not change who is blocked
  lemma SameBlocked(a: Agent, i: nat, env: StopEnv)
    requires i < |a.subscribers| && !PowerOffRaises(a, a.subscribers[i], env)
    ensures forall s :: Blocked(SwitchOff(a, i), env, s) <==> Blocked(a, env, s)
  {
    var off := SwitchOff(a, i);
    forall s ensures Blocked(off, env, s) <==> Blocked(a, env, s) {
      if Blocked(a, env, s) {
        var r :| r in a.subscribers && r.started && PowerOffRaises(a, r, env) && r.id <= s.id;
        var j :| 0 <= j < |a.subscribers| && a.subscribers[j] == r;
        assert off.subscribers[j] in off.subscribers;
      }
      if Blocked(off, env, s) {
        var r :| r in off.subscribers && r.started && PowerOffRaises(off, r, env) && r.id <= s.id;
        var j :| 0 <= j < |off.subscribers| && off.subscribers[j] == r;
        assert a.subscribers[j] in a.subscribers;
      }
    }
  }

  // One turn of the loop over all entries
  lemma StopAllTurn(a: Agent, i: nat, env: StopEnv, mode: Iteration)
    requires i < |a.subscribers| && AnyStarted(a)
    ensures var s := a.subscribers[i];
      && (!s.started ==> StopAll(a, i, env, mode) == StopAll(a, i + 1, env, mode))
      && (s.started && PowerOffRaises(a, s, env) ==> StopAll(a, i, env, mode) == (a, Raised))
      && (s.started && !PowerOffRaises(a, s, env) && OtherStarted(a, i) ==>
          StopAll(a, i, env, mode) == StopAll(SwitchOff(a, i), i + 1, env, mode))
      && (s.started && !PowerOffRaises(a, s, env) && !OtherStarted(a, i) ==>
          StopsAll(a, StopAll(a, i, env, mode).0, env))
  {
    StopKnownIs(a, i, env);
  }

  predicate StopsUpToBlocked(a: Agent, a': Agent, outcome: Outcome, env: StopEnv) {
    && outcome.Raised? && a'.launches == a.launches && a'.link == a.link
    && OnlyFlags(a, a', (s: Subscriber) => s.started && Blocked(a, env, s))
  }

  predicate NoneOnBefore(a: Agent, i: nat) {
    i <= |a.subscribers| && forall j :: 0 <= j < i ==> !a.subscribers[j].started
  }

  // From entry i on, stopping all stops the UEs up to the first that cannot be switched off
  predicate StopsUpFrom(a: Agent, i: nat, env: StopEnv, mode: Iteration) {
    i <= |a.subscribers| && var (a', outcome) := StopAll(a, i, env, mode); StopsUpToBlocked(a, a', outcome, env)
  }

  // Stopping all, from entry i on, while some UE cannot be switched off
  lemma {:induction false} StopAllIsBlocked(a: Agent, i: nat, env: StopEnv, mode: Iteration)
    requires SomeRaises(a, env) && IdsAscend(a) && NoneOnBefore(a, i)
    ensures StopsUpFrom(a, i, env, mode)
    decreases |a.subscribers| - i
  {
    OneIsLeft(a, i, env);
    if !a.subscribers[i].started {
      StopAllIsBlocked(a, i + 1, env, mode);
      PassedBy(a, i, env, mode);
    } else if PowerOffRaises(a, a.subscribers[i], env) {
      StoppedHere(a, i, env, mode);
    } else {
      RaisesElsewhere(a, i, env);
      StopAllIsBlocked(SwitchOff(a, i), i + 1, env, mode);
      StoppedLater(a, i, env, mode);
    }
  }

  lemma OneIsLeft(a: Agent, i: nat, env: StopEnv)
    requires SomeRaises(a, env) && NoneOnBefore(a, i)
    ensures AnyStarted(a) && i < |a.subscribers|
  {
  }

  lemma PassedBy(a: Agent, i: nat, env: StopEnv, mode: Iteration)
    requires i < |a.subscribers| && !a.subscribers[i].started && StopsUpFrom(a, i + 1, env, mode)
    ensures StopsUpFrom(a, i, env, mode)
  {
  }

  lemma StoppedHere(a: Agent, i: nat, env: StopEnv, mode: Iteration)
    requires IdsAscend(a) && NoneOnBefore(a, i) && i < |a.subscribers|
    requires a.subscribers[i].started && PowerOffRaises(a, a.subscribers[i], env)
    ensures StopsUpFrom(a, i, env, mode)
  {
    assert a.subscribers[i] in a.subscribers;
    StopAllTurn(a, i, env, mode);
    BlockedHere(a, i, env);
  }

  lemma StoppedLater(a: Agent, i: nat, env: StopEnv, mode: Iteration)
    requires IdsAscend(a) && NoneOnBefore(a, i) && i < |a.subscribers| && OtherStarted(a, i)
    requires a.subscribers[i].started && !PowerOffRaises(a, a.subscribers[i], env)
    requires StopsUpFrom(SwitchOff(a, i), i + 1, env, mode)
    ensures StopsUpFrom(a, i, env, mode)
  {
    assert a.subscribers[i] in a.subscribers;
    StopAllTurn(a, i, env, mode);
    NotYetBlocked(a, i, env);
    FlagsAfterOff(a, i, StopAll(SwitchOff(a, i), i + 1, env, mode).0, env);
  }

  lemma RaisesElsewhere(a: Agent, i: nat, env: StopEnv)
    requires i < |a.subscribers| && SomeRaises(a, env) && !PowerOffRaises(a, a.subscribers[i], env)
    ensures AnyStarted(a) && OtherStarted(a, i) && SomeRaises(SwitchOff(a, i), env)
    ensures IdsAscend(a) ==> IdsAscend(SwitchOff(a, i))
  {
    var r :| r in a.subscribers && r.started && PowerOffRaises(a, r, env);
    var j :| 0 <= j < |a.subscribers| && a.subscribers[j] == r;
    SameRaises(a, i, env);
  }

  lemma FlagsAfterOff(a: Agent, i: nat, a': Agent, env: StopEnv)
    requires i < |a.subscribers| && !PowerOffRaises(a, a.subscribers[i], env) && !Blocked(a, env, a.subscribers[i])
    requires OnlyFlags(SwitchOff(a, i), a', (s: Subscriber) => s.started && Blocked(SwitchOff(a, i), env, s))
    ensures OnlyFlags(a, a', (s: Subscriber) => s.started && Blocked(a, env, s))
  {
    var off := SwitchOff(a, i);
    SameBlocked(a, i, env);
    forall j | 0 <= j < |a.subscribers|
      ensures IsFlag(a.subscribers[j], a'.subscribers[j], (s: Subscriber) => s.started && Blocked(a, env, s))
    {
      assert IsFlag(off.subscribers[j], a'.subscribers[j], (s: Subscriber) => s.started && Blocked(off, env, s));
    }
  }

  // From the first UE that cannot be switched off on, all stay as they are
  lemma BlockedHere(a: Agent, i: nat, env: StopEnv)
    requires i < |a.subscribers| && IdsAscend(a)
    requires a.subscribers[i].started && PowerOffRaises(a, a.subscribers[i], env)
    requires forall j :: 0 <= j < i ==> !a.subscribers[j].started
    ensures OnlyFlags(a, a, (s: Subscriber) => s.started && Blocked(a, env, s))
  {
    assert a.subscribers[i] in a.subscribers;
    assert forall j :: i <= j < |a.subscribers| ==> a.subscribers[i].id <= a.subscribers[j].id;
  }

  lemma NotYetBlocked(a: Agent, i: nat, env: StopEnv)
    requires i < |a.subscribers| && IdsAscend(a) && !PowerOffRaises(a, a.subscribers[i], env)
    requires forall j :: 0 <= j < i ==> !a.subscribers[j].started
    ensures !Blocked(a, env, a.subscribers[i])
  {
    forall r | r in a.subscribers && r.started && PowerOffRaises(a, r, env) ensures a.subscribers[i].id < r.id {
      var j :| 0 <= j < |a.subscribers| && a.subscribers[j] == r;
      assert i < j;
    }
  }

  // Stopping all, from entry i on, when all UEs can be switched off
  lemma {:induction false} StopAllForgets(a: Agent, i: nat, env: StopEnv, mode: Iteration)
    requires i <= |a.subscribers| && AnyStarted(a) && !SomeRaises(a, env)
    requires forall j :: 0 <= j < i ==> !a.subscribers[j].started
    ensures StopsAll(a, StopAll(a, i, env, mode).0, env)
    decreases |a.subscribers| - i
  {
    if i < |a.subscribers| {
      StopAllTurn(a, i, env, mode);
      if !a.subscribers[i].started {
        StopAllForgets(a, i + 1, env, mode);
      } else {
        assert a.subscribers[i] in a.subscribers;
        if OtherStarted(a, i) {
          SameRaises(a, i, env);
          KnownStays(a, i, env);
          StopAllForgets(SwitchOff(a, i), i + 1, env, mode);
        }
      }
    }
  }

  // The client's own UE is on, and cannot be switched off
  predicate OwnRaises(a: Agent, peer: Peer, env: StopEnv) {
    exists s <- a.subscribers :: s.peer == peer && s.started && PowerOffRaises(a, s, env)
  }

  // A Stop switches off the UE of its client and of nobody else; of a client without an entry,
  // all UEs up to the first that cannot be switched off.  Clients are forgotten, and the link is
  // closed, only when that leaves none on.  It is answered at once exactly when it comes from a
  // client with an entry, some UE stays on, and its own is not one that cannot be switched off.
  lemma StopStops(a: Agent, peer: Peer, env: StopEnv, mode: Iteration)
    requires OneEntryEach(a) && IdsAscend(a)
    ensures var (a', outcome, stopped) := Stop(a, peer, env, mode);
      && StopsOnly(a, a', peer, env)
      && (outcome.Response? <==> HasEntry(a, peer) && SomeStays(a, peer, env) && !OwnRaises(a, peer, env))
      && (outcome.Nothing? <==> stopped) && a'.running == (a.running && !stopped)
  {
    StopReachesProcess(a, peer, env, mode);
    if !AnyStarted(a) {
      NoneToStop(a, peer, env, mode);
    } else if HasEntry(a, peer) {
      KnownStops(a, peer, env, mode);
    } else {
      UnknownStops(a, peer, env, mode);
    }
  }

  lemma NoneToStop(a: Agent, peer: Peer, env: StopEnv, mode: Iteration)
    requires !AnyStarted(a)
    ensures var (a', outcome) := StopUnlock(a, peer, env, mode);
      StopsOnly(a, a', peer, env) && !outcome.Response? && !SomeStays(a, peer, env)
  {
  }

  lemma KnownStops(a: Agent, peer: Peer, env: StopEnv, mode: Iteration)
    requires OneEntryEach(a) && AnyStarted(a) && HasEntry(a, peer)
    ensures var (a', outcome) := StopUnlock(a, peer, env, mode);
      && StopsOnly(a, a', peer, env)
      && (outcome.Response? <==> SomeStays(a, peer, env) && !OwnRaises(a, peer, env))
  {
    HasEntryIsKnown(a, peer);
    var i := Find(a.subscribers, peer);
    StopKnownStops(a, i, env);
    OwnIsEntry(a, i, env);
  }

  lemma OwnIsEntry(a: Agent, i: nat, env: StopEnv)
    requires OneEntryEach(a) && i < |a.subscribers|
    ensures OwnRaises(a, a.subscribers[i].peer, env) <==>
      a.subscribers[i].started && PowerOffRaises(a, a.subscribers[i], env)
  {
    assert a.subscribers[i] in a.subscribers;
  }

  lemma UnknownStops(a: Agent, peer: Peer, env: StopEnv, mode: Iteration)
    requires OneEntryEach(a) && IdsAscend(a) && AnyStarted(a) && !HasEntry(a, peer)
    ensures var (a', outcome) := StopUnlock(a, peer, env, mode);
      StopsOnly(a, a', peer, env) && !outcome.Response?
  {
    HasEntryIsKnown(a, peer);
    StopAllEnds(a, 0, env, mode);
    if SomeRaises(a, env) {
      StopAllIsBlocked(a, 0, env, mode);
      BlockedStaysOn(a, StopUnlock(a, peer, env, mode).0, peer, env);
    } else {
      StopAllForgets(a, 0, env, mode);
    }
  }

  lemma BlockedStaysOn(a: Agent, a': Agent, peer: Peer, env: StopEnv)
    requires !HasEntry(a, peer) && OnlyFlags(a, a', (s: Subscriber) => s.started && Blocked(a, env, s))
    ensures OnlyFlags(a, a', (s: Subscriber) => s.started && StaysOn(a, peer, env, s))
  {
    forall i | 0 <= i < |a.subscribers|
      ensures IsFlag(a.subscribers[i], a'.subscribers[i], (s: Subscriber) => s.started && StaysOn(a, peer, env, s))
    {
      assert IsFlag(a.subscribers[i], a'.subscribers[i], (s: Subscriber) => s.started && Blocked(a, env, s));
    }
  }

  // ------------------------------------------------------------------ runs of many clients

  lemma FlagsTellWhoIsOn(a: Agent, a': Agent, on: Subscriber -> bool, p: Peer)
    requires OnlyFlags(a, a', on)
    ensures IsOn(a', p) <==> exists s <- a.subscribers :: s.peer == p && on(s)
  {
    if IsOn(a', p) {
      var i :| 0 <= i < |a'.subscribers| && a'.subscribers[i].peer == p && a'.subscribers[i].started;
      assert IsFlag(a.subscribers[i], a'.subscribers[i], on) && a.subscribers[i] in a.subscribers;
    }
    if exists s <- a.subscribers :: s.peer == p && on(s) {
      var i :| 0 <= i < |a.subscribers| && a.subscribers[i].peer == p && on(a.subscribers[i]);
      assert IsFlag(a.subscribers[i], a'.subscribers[i], on) && a'.subscribers[i] in a'.subscribers;
    }
  }

  // The UE of p is on, and a Stop by this client leaves it so
  predicate Spares(a: Agent, peer: Peer, env: StopEnv, p: Peer) {
    exists s <- a.subscribers :: s.peer == p && s.started && StaysOn(a, peer, env, s)
  }

  lemma SparingStays(a: Agent, peer: Peer, env: StopEnv, p: Peer)
    requires Spares(a, peer, env, p)
    ensures SomeStays(a, peer, env)
  {
    HasEntryIsKnown(a, peer);
    var i :| 0 <= i < |a.subscribers| && a.subscribers[i].peer == p && a.subscribers[i].started
      && StaysOn(a, peer, env, a.subscribers[i]);
    assert a.subscribers[i] in a.subscribers;
  }

  lemma StopLeavesOn(a: Agent, peer: Peer, env: StopEnv, mode: Iteration, p: Peer)
    requires OneEntryEach(a) && IdsAscend(a) && IsOn(a, p)
    ensures IsOn(Stop(a, peer, env, mode).0, p) <==> Spares(a, peer, env, p)
  {
    StopStops(a, peer, env, mode);
    OnMeansStarted(a, p);
    if SomeStays(a, peer, env) {
      var on := (s: Subscriber) => s.started && StaysOn(a, peer, env, s);
      FlagsTellWhoIsOn(a, Stop(a, peer, env, mode).0, on, p);
    } else if Spares(a, peer, env, p) {
      SparingStays(a, peer, env, p);
    }
  }

  lemma StartLeavesOn(a: Agent, peer: Peer, env: StartEnv, p: Peer)
    requires OneEntryEach(a) && LinkIsLive(a) && IsOn(a, p)
    ensures IsOn(Start(a, peer, env).0, p)
  {
    StartStarts(a, peer, env);
    var on := (s: Subscriber) => s.started || (s.peer == peer && SwitchesOn(a, peer, env));
    FlagsTellWhoIsOn(a, Start(a, peer, env).0, on, p);
  }

  // What holds in every run, and with it that the link is to a process that runs
  ghost predicate RunInv(s: System, base: string) {
    Inv(s, base) && LinkIsLive(s.agent) && OneEntryEach(s.agent) && IdsAscend(s.agent)
  }

  lemma StepKeepsRunInv(s: System, act: Action, base: string)
    requires RunInv(s, base) && Enabled(s, act)
    ensures RunInv(Step(s, act, base), base)
  {
    StepKeepsInv(s, act, base);
    match act
    case CallStart(p, env) => StartKeepsLink(s.agent, p, env);
    case CallStop(p, env, mode) => StopKeepsLink(s.agent, p, env, mode);
    case _ =>
  }

  lemma StopKeepsLink(a: Agent, peer: Peer, env: StopEnv, mode: Iteration)
    requires OneEntryEach(a) && IdsAscend(a) && LinkIsLive(a)
    ensures LinkIsLive(Stop(a, peer, env, mode).0)
  {
    StopStops(a, peer, env, mode);
    StopReachesProcessWhen(a, peer, env, mode);
  }

  lemma StartKeepsLink(a: Agent, peer: Peer, env: StartEnv)
    requires LinkIsLive(a)
    ensures LinkIsLive(Start(a, peer, env).0)
  {
    if !AnyStarted(a) { LaunchesWhen(a, peer, env.attempts); }
  }

  lemma {:induction false} RunKeepsRunInv(s: System, run: seq<Action>, base: string)
    requires RunInv(s, base) && CanRun(s, run, base)
    ensures RunInv(After(s, run, base), base)
    decreases |run|
  {
    if run != [] {
      StepKeepsRunInv(s, run[0], base);
      RunKeepsRunInv(Step(s, run[0], base), run[1..], base);
    }
  }

  predicate KeepsOn(s: System, act: Action, p: Peer) {
    act.CallStop? ==> Spares(s.agent, act.peer, act.stopEnv, p)
  }

  lemma StepKeepsOn(s: System, act: Action, base: string, p: Peer)
    requires RunInv(s, base) && Enabled(s, act) && IsOn(s.agent, p)
    ensures IsOn(Step(s, act, base).agent, p) <==> KeepsOn(s, act, p)
  {
    match act
    case CallStart(q, env) => StartLeavesOn(s.agent, q, env, p);
    case CallStop(q, env, mode) => StopLeavesOn(s.agent, q, env, mode, p);
    case Put(q) => InsertLeavesOn(s.agent, q, base, p);
    case _ =>
  }

  lemma InsertLeavesOn(a: Agent, peer: Peer, base: string, p: Peer)
    requires IsOn(a, p)
    ensures IsOn(Insert(a, peer, base).0, p)
  {
    var a' := Insert(a, peer, base).0;
    assert forall s :: s in a.subscribers ==> s in a'.subscribers;
  }

  // Every Stop of the run leaves the UE of p on
  predicate AllKeepOn(s: System, run: seq<Action>, base: string, p: Peer)
    decreases |run|
  {
    run == [] || (KeepsOn(s, run[0], p) && AllKeepOn(Step(s, run[0], base), run[1..], base, p))
  }

  predicate AlwaysOn(states: seq<System>, p: Peer) {
    forall t <- states :: IsOn(t.agent, p)
  }

  lemma {:induction false} OnUntilStopped(s: System, run: seq<Action>, base: string, p: Peer)
    requires RunInv(s, base) && CanRun(s, run, base) && IsOn(s.agent, p)
    ensures AlwaysOn(States(s, run, base), p) <==> AllKeepOn(s, run, base, p)
    decreases |run|
  {
    if run != [] {
      var s' := Step(s, run[0], base);
      var later := States(s', run[1..], base);
      StepKeepsRunInv(s, run[0], base);
      StepKeepsOn(s, run[0], base, p);
      assert States(s, run, base) == [s] + later && later[0] == s';
      if IsOn(s'.agent, p) {
        OnUntilStopped(s', run[1..], base, p);
      } else {
        assert later[0] in States(s, run, base);
      }
    }
  }

  lemma IdleHasRunInv(base: string)
    requires IsNumber(base)
    ensures RunInv(Idle, base)
  {
  }

  // Whatever happened before: after a Start that returned, while there are clients, the UE of the
  // client is on, and it stays on exactly as long as every Stop leaves it on: one of another
  // client with an entry always does; one of its own only when it cannot be switched off; and one
  // of a client without an entry only when it, or one before it, cannot be
  lemma StartedUntilStopped(before: seq<Action>, p: Peer, env: StartEnv, run: seq<Action>, base: string)
    requires IsNumber(base) && CanRun(Idle, before, base) && Enabled(After(Idle, before, base), CallStart(p, env))
    requires Start(After(Idle, before, base).agent, p, env).1 && After(Idle, before, base).agent.subscribers != []
    requires CanRun(Step(After(Idle, before, base), CallStart(p, env), base), run, base)
    ensures var s := Step(After(Idle, before, base), CallStart(p, env), base);
      IsOn(s.agent, p) && (AlwaysOn(States(s, run, base), p) <==> AllKeepOn(s, run, base, p))
  {
    IdleHasRunInv(base);
    RunKeepsRunInv(Idle, before, base);
    var s := After(Idle, before, base);
    StartStarts(s.agent, p, env);
    StepKeepsRunInv(s, CallStart(p, env), base);
    OnUntilStopped(Step(s, CallStart(p, env), base), run, base, p);
  }

  // ------------------------------------------------------------------ the IMSIs handed out

  // The client has an entry, with this IMSI and the id that the IMSI comes from
  predicate HasImsi(a: Agent, peer: Peer, imsi: string, base: string) {
    IsNumber(base) && exists s <- a.subscribers ::
      s.peer == peer && s.imsi == imsi && IsNumber(imsi) && Value(imsi) == Value(base) + s.id
  }

  lemma ImsiIs(base: string, id: nat)
    requires IsNumber(base)
    ensures IsNumber(Imsi(base, id)) && Value(Imsi(base, id)) == Value(base) + id
  {
    ValueOfPadded(Value(base) + id, |base|);
  }

  lemma EntryHasImsi(a: Agent, i: nat, base: string)
    requires i < |a.subscribers| && ImsisFollow(a, base)
    ensures HasImsi(a, a.subscribers[i].peer, a.subscribers[i].imsi, base)
  {
    assert a.subscribers[i] in a.subscribers;
    ImsiIs(base, a.subscribers[i].id);
  }

  // One entry more, of a UE that is off, with the next id
  predicate NewEntry(a: Agent, a': Agent, peer: Peer) {
    && |a'.subscribers| == |a.subscribers| + 1 && a.subscribers <= a'.subscribers
    && a' == a.(subscribers := a'.subscribers, count := a.count + 1)
    && var s := a'.subscribers[|a.subscribers|]; s.peer == peer && s.id == a.count + 1 && !s.started
  }

  // GetDefinition hands out the IMSI of the client's own entry, a new one or the one it has: as a
  // number, the configured one and the subscriber id together.  Other entries stay as they are.
  lemma ImsiIsOwn(a: Agent, peer: Peer, base: string)
    requires Sound(a, base)
    ensures var (a', imsi) := GetDefinition(a, peer, base);
      && imsi.Some? && HasImsi(a', peer, imsi.value, base)
      && (if HasEntry(a, peer) then a' == a else NewEntry(a, a', peer))
  {
    HasEntryIsKnown(a, peer);
    if Knows(a, peer) {
      EntryHasImsi(a, Find(a.subscribers, peer), base);
    } else {
      InsertKeepsSound(a, peer, base);
      EntryHasImsi(Insert(a, peer, base).0, |a.subscribers|, base);
    }
  }

  lemma DefinitionKeepsSound(a: Agent, peer: Peer, base: string)
    requires Sound(a, base)
    ensures Sound(GetDefinition(a, peer, base).0, base)
  {
    if !Knows(a, peer) { InsertKeepsSound(a, peer, base); }
  }

  lemma OtherImsi(a: Agent, p: Peer, q: Peer, imsi: string, base: string)
    requires HasImsi(a, p, imsi, base) && Numbered(a) && p != q
    ensures !HasImsi(a, q, imsi, base)
  {
    var i :| 0 <= i < |a.subscribers| && a.subscribers[i].peer == p && Value(imsi) == Value(base) + a.subscribers[i].id;
    assert forall j :: 0 <= j < |a.subscribers| && a.subscribers[j].peer == q ==> a.subscribers[j].id != i + 1;
  }

  lemma SecondImsiDiffers(a: Agent, p: Peer, q: Peer, imsi: string, base: string)
    requires Sound(a, base) && HasImsi(a, p, imsi, base) && p != q
    ensures GetDefinition(a, q, base).1 != Some(imsi)
  {
    var a' := GetDefinition(a, q, base).0;
    ImsiIsOwn(a, q, base);
    DefinitionKeepsSound(a, q, base);
    assert forall s :: s in a.subscribers ==> s in a'.subscribers;
    assert HasImsi(a', p, imsi, base);
    OtherImsi(a', p, q, imsi, base);
  }

  // In every run, two clients that ask one after the other are handed different IMSIs
  lemma ClientsDiffer(run: seq<Action>, base: string, p: Peer, q: Peer)
    requires IsNumber(base) && CanRun(Idle, run, base) && p != q
    ensures var (a', imsi) := GetDefinition(After(Idle, run, base).agent, p, base);
      imsi.Some? && imsi != GetDefinition(a', q, base).1
  {
    IdleHasRunInv(base);
    RunKeepsRunInv(Idle, run, base);
    var a := After(Idle, run, base).agent;
    ImsiIsOwn(a, p, base);
    DefinitionKeepsSound(a, p, base);
    var (a', imsi) := GetDefinition(a, p, base);
    SecondImsiDiffers(a', p, q, imsi.value, base);
  }
}
