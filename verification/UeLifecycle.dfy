/**
 The Amarisoft UE agent: several clients share one process as virtual UEs.  The first Start
 launches the process, the last Stop ends it.

 The agent is modelled on values first: what each call makes of the state, given what the
 environment does during the call.  The class runs the calls on its fields, and the runs
 interleave the calls of any number of clients.
 */
module UeLifecycle {
  import opened Wrappers
  import opened Decimal

  type Peer = string

  // One entry of the subscriber dictionary, which keeps its entries in order of insertion
  datatype Subscriber = Subscriber(peer: Peer, id: nat, imsi: string, started: bool)

  datatype Link = NoLink | Open | Closed

  datatype Agent = Agent(
    subscribers: seq<Subscriber>,
    count: nat,
    running: bool,      // the process, as launched and stopped by the agent
    link: Link,         // the websocket to it
    launches: nat       // how many times the process was launched
  )

  const Fresh: Agent := Agent([], 0, false, NoLink, 0)

  predicate AnyStarted(a: Agent) {
    exists s <- a.subscribers :: s.started
  }

  // Position of a client's entry, or the number of entries
  function Find(subscribers: seq<Subscriber>, peer: Peer): (i: nat)
    ensures i <= |subscribers|
    ensures i < |subscribers| ==> subscribers[i].peer == peer
    ensures forall j :: 0 <= j < i ==> subscribers[j].peer != peer
  {
    if subscribers == [] || subscribers[0].peer == peer then 0 else 1 + Find(subscribers[1..], peer)
  }

  predicate Knows(a: Agent, peer: Peer) {
    Find(a.subscribers, peer) < |a.subscribers|
  }

  // ------------------------------------------------------------------ GetDefinition

  function Imsi(base: string, id: nat): string
    requires IsNumber(base)
  {
    ZFill(Str(Value(base) + id), |base|)
  }

  // The insertion branch.  The counter moves before the configured IMSI is read as a number.
  function Insert(a: Agent, peer: Peer, base: string): (Agent, Option<string>) {
    var a' := a.(count := a.count + 1);
    if !IsNumber(base) then (a', None)
    else (a'.(subscribers := a.subscribers + [Subscriber(peer, a'.count, Imsi(base, a'.count), false)]),
          Some(Imsi(base, a'.count)))
  }

  function GetDefinition(a: Agent, peer: Peer, base: string): (Agent, Option<string>) {
    if Knows(a, peer) then (a, Some(a.subscribers[Find(a.subscribers, peer)].imsi)) else Insert(a, peer, base)
  }

  // ------------------------------------------------------------------ Stop

  // What _stop_unlock ends with: a response to give at once, nothing, or an exception
  datatype Outcome = Response | Nothing | Raised

  // The environment of a stop: whose power-off raises, whether the farewell on the websocket does
  datatype StopEnv = StopEnv(powerOffRaises: set<Peer>, quitRaises: bool)

  // How the stop-all loop goes over the dictionary.  The source iterates the live one, and
  // Python refuses to go on once its size has changed; the intent is a snapshot.
  datatype Iteration = Live | Snapshot

  predicate QuitRaises(a: Agent, env: StopEnv) {
    a.running && a.link.Open? && env.quitRaises
  }

  // The last part of _stop_unlock: say goodbye to the process
  function Farewell(a: Agent, env: StopEnv): (Agent, Outcome) {
    if QuitRaises(a, env) then (a, Raised)
    else if a.running && a.link.Open? then (a.(link := Closed), Nothing)
    else (a, Nothing)
  }

  function SwitchOff(a: Agent, i: nat): Agent
    requires i < |a.subscribers|
  {
    a.(subscribers := a.subscribers[i := a.subscribers[i].(started := false)])
  }

  // A known client's stop, while some UE is started
  function StopKnown(a: Agent, i: nat, env: StopEnv): (Agent, Outcome)
    requires i < |a.subscribers|
  {
    if !a.subscribers[i].started then (a, Response)
    else if a.link.Open? && a.subscribers[i].peer in env.powerOffRaises then (a, Raised)
    else
      var a' := SwitchOff(a, i);
      if AnyStarted(a') then (a', Response) else Farewell(a'.(subscribers := [], count := 0), env)
  }

  // An unknown client's stop: every started UE from entry i on is stopped
  function StopAll(a: Agent, i: nat, env: StopEnv, mode: Iteration): (Agent, Outcome)
    requires i <= |a.subscribers|
    decreases |a.subscribers| - i
  {
    if i == |a.subscribers| then (a, Nothing)
    else if !a.subscribers[i].started then StopAll(a, i + 1, env, mode)
    else
      var (a', outcome) := StopKnown(a, i, env);
      if outcome.Raised? then (a', Raised)
      else if |a'.subscribers| != |a.subscribers| then (a', if mode.Live? then Raised else Nothing)
      else StopAll(a', i + 1, env, mode)
  }

  function StopUnlock(a: Agent, peer: Peer, env: StopEnv, mode: Iteration): (Agent, Outcome) {
    if !AnyStarted(a) then Farewell(a, env)
    else if Knows(a, peer) then StopKnown(a, Find(a.subscribers, peer), env)
    else StopAll(a, 0, env, mode)
  }

  // Whether the call reached the stop of the process is its third result
  function Stop(a: Agent, peer: Peer, env: StopEnv, mode: Iteration): (Agent, Outcome, bool) {
    var (a', outcome) := StopUnlock(a, peer, env, mode);
    if outcome.Nothing? then (a'.(running := false), outcome, true) else (a', outcome, false)
  }

  // ------------------------------------------------------------------ Start

  datatype License = Available | InUse | Unreachable

  // One attempt to launch: the steps that may raise, in order
  datatype Attempt = Attempt(
    stop: StopEnv, badConfig: bool, cannotRun: bool, dryrun: bool, license: License, refused: bool, setupRaises: bool)

  datatype StartEnv = StartEnv(attempts: seq<Attempt>, powerOnRaises: bool, diedAfter: bool)

  // The launching half of _start_unlock, run when no UE is started; a license in use makes it
  // start over.  The websocket connects only to a process this agent launched.
  function Launch(a: Agent, peer: Peer, attempts: seq<Attempt>): (Agent, bool)
    decreases |attempts|
  {
    if attempts == [] then (a, false)
    else
      var t := attempts[0];
      var (a1, outcome) := StopUnlock(a, peer, t.stop, Live);
      if outcome.Raised? || t.badConfig then (a1, false)
      else
        var a2 := a1.(running := false);
        if t.cannotRun then (a2, false)
        else
          var a3 := if t.dryrun then a2 else a2.(running := true, launches := a2.launches + 1);
          if !t.dryrun && t.license.Unreachable? then (a3, false)
          else if !t.dryrun && t.license.InUse? then Launch(a3, peer, attempts[1..])
          else if t.refused || !a3.running then (a3, false)
          else (a3.(link := Open), !t.setupRaises)
  }

  // The other half: power the caller's UE on
  function PowerOn(a: Agent, peer: Peer, env: StartEnv): (Agent, bool) {
    if !a.link.Open? then (a, false)
    else if a.subscribers == [] then (a, !env.diedAfter)
    else
      var i := Find(a.subscribers, peer);
      if i == |a.subscribers| || env.powerOnRaises then (a, false)
      else (a.(subscribers := a.subscribers[i := a.subscribers[i].(started := true)]), !env.diedAfter)
  }

  // True when the call returns without raising
  function Start(a: Agent, peer: Peer, env: StartEnv): (Agent, bool) {
    if AnyStarted(a) then PowerOn(a, peer, env)
    else
      var (a', launched) := Launch(a, peer, env.attempts);
      if launched then PowerOn(a', peer, env) else (a', false)
  }

  // ------------------------------------------------------------------ what every call keeps

  // Entry number i belongs to subscriber i + 1, and no client has two entries: the map from
  // clients to subscriber ids is a bijection onto 1..count
  predicate Numbered(a: Agent) {
    && a.count == |a.subscribers|
    && (forall i :: 0 <= i < |a.subscribers| ==> a.subscribers[i].id == i + 1)
    && (forall i, j :: 0 <= i < j < |a.subscribers| ==> a.subscribers[i].peer != a.subscribers[j].peer)
  }

  predicate StartedIsLaunched(a: Agent) {
    AnyStarted(a) ==> a.running
  }

  predicate ImsisFollow(a: Agent, base: string) {
    IsNumber(base) && forall s <- a.subscribers :: s.imsi == Imsi(base, s.id)
  }

  predicate Sound(a: Agent, base: string) {
    Numbered(a) && StartedIsLaunched(a) && ImsisFollow(a, base)
  }

  // A call that leaves entries, ids and IMSIs in place, or clears them all
  predicate SameClients(a: Agent, a': Agent) {
    || (a'.subscribers == [] && a'.count == 0)
    || (&& |a'.subscribers| == |a.subscribers| && a'.count == a.count
        && forall i :: 0 <= i < |a.subscribers| ==>
              a'.subscribers[i].(started := a.subscribers[i].started) == a.subscribers[i])
  }

  lemma SameClientsKeepIds(a: Agent, a': Agent, base: string)
    requires Numbered(a) && ImsisFollow(a, base) && SameClients(a, a')
    ensures Numbered(a') && ImsisFollow(a', base)
  {
    forall s | s in a'.subscribers ensures s.imsi == Imsi(base, s.id) {
      var i :| 0 <= i < |a'.subscribers| && a'.subscribers[i] == s;
      assert a.subscribers[i] in a.subscribers;
    }
  }

  // ------------------------------------------------------------------ stopping

  lemma FindEntry(subscribers: seq<Subscriber>, i: nat)
    requires i < |subscribers|
    requires forall j, k :: 0 <= j < k < |subscribers| ==> subscribers[j].peer != subscribers[k].peer
    ensures Find(subscribers, subscribers[i].peer) == i
  {}

  // Stopping a known client either leaves some UE started, or clears the dictionary
  lemma StopKnownEnds(a: Agent, i: nat, env: StopEnv)
    requires i < |a.subscribers| && AnyStarted(a)
    ensures var (a', outcome) := StopKnown(a, i, env);
      && SameClients(a, a') && a'.running == a.running && a'.launches == a.launches
      && (AnyStarted(a') ==> !outcome.Nothing?)
      && (!AnyStarted(a') ==> a'.subscribers == [] && outcome == if QuitRaises(a, env) then Raised else Nothing)
  {}

  // Stopping all, from the first entry that may be started on
  lemma {:induction false} StopAllEnds(a: Agent, i: nat, env: StopEnv, mode: Iteration)
    requires i <= |a.subscribers| && AnyStarted(a)
    requires forall j :: 0 <= j < i ==> !a.subscribers[j].started
    ensures var (a', outcome) := StopAll(a, i, env, mode);
      && SameClients(a, a') && a'.running == a.running && a'.launches == a.launches
      && (AnyStarted(a') ==> outcome.Raised?)
      && (!AnyStarted(a') ==> a'.subscribers == [])
      && (!AnyStarted(a') ==> outcome == if mode.Live? || QuitRaises(a, env) then Raised else Nothing)
    decreases |a.subscribers| - i
  {
    if i == |a.subscribers| {
      assert false;
    } else if !a.subscribers[i].started {
      StopAllEnds(a, i + 1, env, mode);
    } else {
      StopKnownEnds(a, i, env);
      var (a', outcome) := StopKnown(a, i, env);
      if !outcome.Raised? && |a'.subscribers| == |a.subscribers| {
        assert a' == SwitchOff(a, i);
        StopAllEnds(a', i + 1, env, mode);
      }
    }
  }

  // A client without an entry asks while some UE is started, and the loop is over the live dictionary
  predicate CutShort(a: Agent, peer: Peer, mode: Iteration) {
    mode.Live? && AnyStarted(a) && !Knows(a, peer)
  }

  lemma StopUnlockEnds(a: Agent, peer: Peer, env: StopEnv, mode: Iteration)
    ensures var (a', outcome) := StopUnlock(a, peer, env, mode);
      && SameClients(a, a') && a'.running == a.running && a'.launches == a.launches
      && (AnyStarted(a') ==> AnyStarted(a) && !outcome.Nothing?)
      && (!AnyStarted(a') ==> outcome == if QuitRaises(a, env) || CutShort(a, peer, mode) then Raised else Nothing)
  {
    if AnyStarted(a) {
      if Knows(a, peer) { StopKnownEnds(a, Find(a.subscribers, peer), env); } else { StopAllEnds(a, 0, env, mode); }
    }
  }

  // A Stop reaches the process exactly when no UE remains started, save in two cases: the
  // farewell raised, or a client without an entry asked while some UE was started.  The second
  // exception is what going over the live dictionary costs; over a snapshot it disappears.
  lemma StopReachesProcess(a: Agent, peer: Peer, env: StopEnv, mode: Iteration)
    ensures var (a', outcome, stopped) := Stop(a, peer, env, mode);
      && (stopped <==> !AnyStarted(a') && !QuitRaises(a, env) && !CutShort(a, peer, mode))
      && (stopped ==> !a'.running)
      && (!stopped ==> a'.running == a.running)
  {
    StopUnlockEnds(a, peer, env, mode);
  }

  // Switching this UE off raises
  predicate PowerOffRaises(a: Agent, s: Subscriber, env: StopEnv) {
    a.link.Open? && s.peer in env.powerOffRaises
  }

  predicate SomeRaises(a: Agent, env: StopEnv) {
    exists s <- a.subscribers :: s.started && PowerOffRaises(a, s, env)
  }

  predicate OtherStarted(a: Agent, i: nat) {
    exists j :: 0 <= j < |a.subscribers| && j != i && a.subscribers[j].started
  }

  // Some UE stays started: of a known client, another one, or its own, which cannot be switched
  // off; of an unknown client, one that cannot be
  predicate SomeStays(a: Agent, peer: Peer, env: StopEnv) {
    if !AnyStarted(a) then false
    else if Knows(a, peer) then
      var i := Find(a.subscribers, peer);
      OtherStarted(a, i) || PowerOffRaises(a, a.subscribers[i], env)
    else SomeRaises(a, env)
  }

  lemma KnownStays(a: Agent, i: nat, env: StopEnv)
    requires i < |a.subscribers| && AnyStarted(a)
    ensures AnyStarted(StopKnown(a, i, env).0) <==> OtherStarted(a, i) || PowerOffRaises(a, a.subscribers[i], env)
  {
    if OtherStarted(a, i) {
      var j :| 0 <= j < |a.subscribers| && j != i && a.subscribers[j].started;
      assert a.subscribers[j] in a.subscribers;
      var off := SwitchOff(a, i);
      assert off.subscribers[j] in off.subscribers;
    }
  }

  lemma {:induction false} SomeStaysOfAll(a: Agent, i: nat, env: StopEnv, mode: Iteration)
    requires i <= |a.subscribers| && AnyStarted(a)
    requires forall j :: 0 <= j < i ==> !a.subscribers[j].started
    ensures AnyStarted(StopAll(a, i, env, mode).0) <==> SomeRaises(a, env)
    decreases |a.subscribers| - i
  {
    if i == |a.subscribers| {
      assert false;
    } else if !a.subscribers[i].started {
      SomeStaysOfAll(a, i + 1, env, mode);
    } else if PowerOffRaises(a, a.subscribers[i], env) {
      assert a.subscribers[i] in a.subscribers;
    } else {
      KnownStays(a, i, env);
      StopKnownEnds(a, i, env);
      if OtherStarted(a, i) {
        var off := SwitchOff(a, i);
        SameRaises(a, i, env);
        SomeStaysOfAll(off, i + 1, env, mode);
      } else {
        OnlyOneRaises(a, i, env);
      }
    }
  }

  lemma SameRaises(a: Agent, i: nat, env: StopEnv)
    requires i < |a.subscribers| && !PowerOffRaises(a, a.subscribers[i], env)
    ensures SomeRaises(SwitchOff(a, i), env) <==> SomeRaises(a, env)
  {
    var off := SwitchOff(a, i);
    if SomeRaises(a, env) {
      var j :| 0 <= j < |a.subscribers| && a.subscribers[j].started && PowerOffRaises(a, a.subscribers[j], env);
      assert off.subscribers[j] in off.subscribers;
    }
    if SomeRaises(off, env) {
      var j :| 0 <= j < |off.subscribers| && off.subscribers[j].started && PowerOffRaises(off, off.subscribers[j], env);
      assert a.subscribers[j] in a.subscribers;
    }
  }

  lemma OnlyOneRaises(a: Agent, i: nat, env: StopEnv)
    requires i < |a.subscribers| && !OtherStarted(a, i) && !PowerOffRaises(a, a.subscribers[i], env)
    ensures !SomeRaises(a, env)
  {
  }

  // The same in terms of the state before the call: a Stop reaches the process exactly when none
  // stays started, and neither of the two exceptions occurs
  lemma StopReachesProcessWhen(a: Agent, peer: Peer, env: StopEnv, mode: Iteration)
    ensures Stop(a, peer, env, mode).2 <==>
      !SomeStays(a, peer, env) && !QuitRaises(a, env) && !CutShort(a, peer, mode)
  {
    StopReachesProcess(a, peer, env, mode);
    if AnyStarted(a) {
      if Knows(a, peer) {
        KnownStays(a, Find(a.subscribers, peer), env);
      } else {
        SomeStaysOfAll(a, 0, env, mode);
      }
    }
  }

  // The live iteration at work: one started UE, and the agent's own final stop.  Every UE is
  // switched off and forgotten, yet the call raises and the process is left running.
  lemma UnknownStopLeavesProcessRunning()
    ensures
      var a := Agent([Subscriber("client", 1, "1", true)], 1, true, Open, 1);
      var (a', outcome, stopped) := Stop(a, "unknown", StopEnv({}, false), Live);
      Numbered(a) && a'.subscribers == [] && outcome == Raised && !stopped && a'.running
  {
    var a := Agent([Subscriber("client", 1, "1", true)], 1, true, Open, 1);
    assert a.subscribers[0] in a.subscribers;
    StopAllEnds(a, 0, StopEnv({}, false), Live);
    assert StopKnown(a, 0, StopEnv({}, false)).0.subscribers == [] by {
      assert SwitchOff(a, 0).subscribers == [Subscriber("client", 1, "1", false)];
    }
  }

  lemma StopKeepsSound(a: Agent, peer: Peer, env: StopEnv, mode: Iteration, base: string)
    requires Sound(a, base)
    ensures Sound(Stop(a, peer, env, mode).0, base)
  {
    StopUnlockEnds(a, peer, env, mode);
    SameClientsKeepIds(a, StopUnlock(a, peer, env, mode).0, base);
  }

  // ------------------------------------------------------------------ starting

  lemma {:induction false} LaunchEnds(a: Agent, peer: Peer, attempts: seq<Attempt>)
    requires !AnyStarted(a)
    ensures var (a', launched) := Launch(a, peer, attempts);
      && SameClients(a, a') && !AnyStarted(a')
      && (launched ==> a'.running && a'.link.Open? && a'.launches > a.launches)
    decreases |attempts|
  {
    if attempts != [] {
      StopUnlockEnds(a, peer, attempts[0].stop, Live);
      var (a1, _) := StopUnlock(a, peer, attempts[0].stop, Live);
      var a3 := a1.(running := true, launches := a1.launches + 1);
      LaunchEnds(a3, peer, attempts[1..]);
    }
  }

  lemma StartKeepsSound(a: Agent, peer: Peer, env: StartEnv, base: string)
    requires Sound(a, base)
    ensures Sound(Start(a, peer, env).0, base)
  {
    if !AnyStarted(a) {
      LaunchEnds(a, peer, env.attempts);
      SameClientsKeepIds(a, Launch(a, peer, env.attempts).0, base);
    }
    var a1 := if AnyStarted(a) then a else Launch(a, peer, env.attempts).0;
    SameClientsKeepIds(a1, Start(a, peer, env).0, base);
  }

  // While some UE is started, a Start neither launches nor stops the process
  lemma StartSparesRunningProcess(a: Agent, peer: Peer, env: StartEnv)
    requires AnyStarted(a)
    ensures Start(a, peer, env).0.running == a.running && Start(a, peer, env).0.launches == a.launches
  {}

  // ------------------------------------------------------------------ identities

  lemma InsertKeepsSound(a: Agent, peer: Peer, base: string)
    requires Sound(a, base) && !Knows(a, peer)
    ensures Sound(Insert(a, peer, base).0, base)
  {
    var a' := Insert(a, peer, base).0;
    assert a'.subscribers[..|a.subscribers|] == a.subscribers;
    assert AnyStarted(a') ==> AnyStarted(a);
  }

  // A new client keeps the numbering exactly when the configured IMSI is a number: otherwise
  // the counter has moved and no entry was made.
  lemma NumberingNeedsNumericImsi(a: Agent, peer: Peer, base: string)
    requires Numbered(a) && !Knows(a, peer)
    ensures Numbered(Insert(a, peer, base).0) <==> IsNumber(base)
  {}

  // Distinct ids have distinct IMSIs
  lemma ImsisDiffer(base: string, id: nat, other: nat)
    requires IsNumber(base) && Imsi(base, id) == Imsi(base, other)
    ensures id == other
  {
    ValueOfPadded(Value(base) + id, |base|);
    ValueOfPadded(Value(base) + other, |base|);
  }

  // An IMSI keeps the length of the configured one exactly while the sum fits in it
  lemma ImsiLength(base: string, id: nat)
    requires IsNumber(base)
    ensures |Imsi(base, id)| == |base| <==> Value(base) + id < Pow10(|base|)
  {
    PaddedLength(Value(base) + id, |base|);
  }

  // ------------------------------------------------------------------ runs of many clients

  // The membership test of GetDefinition is made before the lock is taken: a client that found
  // itself absent is asking until it inserts its entry.  The calls of one client do not overlap.
  datatype System = System(agent: Agent, asking: set<Peer>)

  datatype Action =
    | Ask(peer: Peer)
    | Put(peer: Peer)
    | CallStart(peer: Peer, startEnv: StartEnv)
    | CallStop(peer: Peer, stopEnv: StopEnv, mode: Iteration)
    | Drop

  predicate Enabled(s: System, act: Action) {
    match act
    case Ask(p) => p !in s.asking
    case Put(p) => p in s.asking
    case CallStart(p, _) => p !in s.asking
    case CallStop(p, _, _) => p !in s.asking
    case Drop => s.agent.link.Open?
  }

  function Step(s: System, act: Action, base: string): System {
    match act
    case Ask(p) => if Knows(s.agent, p) then s else s.(asking := s.asking + {p})
    case Put(p) => System(Insert(s.agent, p, base).0, s.asking - {p})
    case CallStart(p, env) => s.(agent := Start(s.agent, p, env).0)
    case CallStop(p, env, mode) => s.(agent := Stop(s.agent, p, env, mode).0)
    case Drop => s.(agent := s.agent.(link := Closed))
  }

  ghost predicate Inv(s: System, base: string) {
    Sound(s.agent, base) && forall p <- s.asking :: !Knows(s.agent, p)
  }

  lemma StartKeepsClients(a: Agent, peer: Peer, env: StartEnv)
    ensures SameClients(a, Start(a, peer, env).0)
  {
    if !AnyStarted(a) { LaunchEnds(a, peer, env.attempts); }
  }

  lemma FoundBefore(a: Agent, a': Agent, peer: Peer)
    requires SameClients(a, a') && Knows(a', peer)
    ensures Knows(a, peer)
  {
    var i := Find(a'.subscribers, peer);
    assert a.subscribers[i].peer == peer;
  }

  lemma SameClientsSameAbsent(a: Agent, a': Agent, peer: Peer)
    requires SameClients(a, a') && !Knows(a, peer)
    ensures !Knows(a', peer)
  {
    if Knows(a', peer) { FoundBefore(a, a', peer); }
  }

  lemma StepKeepsInv(s: System, act: Action, base: string)
    requires Inv(s, base) && Enabled(s, act)
    ensures Inv(Step(s, act, base), base)
  {
    match act
    case Ask(p) =>
    case Put(p) => InsertKeepsSound(s.agent, p, base);
    case CallStart(p, env) =>
      StartKeepsSound(s.agent, p, env, base);
      StartKeepsClients(s.agent, p, env);
      forall q <- s.asking ensures !Knows(Step(s, act, base).agent, q) {
        SameClientsSameAbsent(s.agent, Step(s, act, base).agent, q);
      }
    case CallStop(p, env, mode) =>
      StopKeepsSound(s.agent, p, env, mode, base);
      StopUnlockEnds(s.agent, p, env, mode);
      forall q <- s.asking ensures !Knows(Step(s, act, base).agent, q) {
        SameClientsSameAbsent(s.agent, Step(s, act, base).agent, q);
      }
    case Drop =>
  }

  predicate CanRun(s: System, run: seq<Action>, base: string)
    decreases |run|
  {
    run == [] || (Enabled(s, run[0]) && CanRun(Step(s, run[0], base), run[1..], base))
  }

  // The states a run goes through, the first one included
  function States(s: System, run: seq<Action>, base: string): (states: seq<System>)
    ensures |states| == |run| + 1 && states[0] == s
    decreases |run|
  {
    if run == [] then [s] else [s] + States(Step(s, run[0], base), run[1..], base)
  }

  function After(s: System, run: seq<Action>, base: string): System {
    States(s, run, base)[|run|]
  }

  lemma {:induction false} RunKeepsInv(s: System, run: seq<Action>, base: string)
    requires Inv(s, base) && CanRun(s, run, base)
    ensures forall t <- States(s, run, base) :: Inv(t, base)
    decreases |run|
  {
    if run != [] {
      StepKeepsInv(s, run[0], base);
      RunKeepsInv(Step(s, run[0], base), run[1..], base);
    }
  }

  const Idle: System := System(Fresh, {})

  // In every state of every run: a started UE has a running process; clients and subscriber
  // ids are in bijection with 1..count; and distinct clients have distinct IMSIs.
  lemma EveryRunIsSound(run: seq<Action>, base: string)
    requires IsNumber(base) && CanRun(Idle, run, base)
    ensures var a := After(Idle, run, base).agent;
      && (AnyStarted(a) ==> a.running)
      && Numbered(a)
      && forall i, j :: 0 <= i < j < |a.subscribers| ==> a.subscribers[i].imsi != a.subscribers[j].imsi
  {
    RunKeepsInv(Idle, run, base);
    assert After(Idle, run, base) in States(Idle, run, base);
    var a := After(Idle, run, base).agent;
    forall i, j | 0 <= i < j < |a.subscribers| ensures a.subscribers[i].imsi != a.subscribers[j].imsi {
      assert a.subscribers[i] in a.subscribers && a.subscribers[j] in a.subscribers;
      if a.subscribers[i].imsi == a.subscribers[j].imsi { ImsisDiffer(base, i + 1, j + 1); }
    }
  }

  lemma SessionStep(s: System, act: Action, base: string)
    requires Inv(s, base) && Enabled(s, act)
    requires AnyStarted(s.agent) && AnyStarted(Step(s, act, base).agent)
    ensures Step(s, act, base).agent.running && Step(s, act, base).agent.launches == s.agent.launches
  {
    StepKeepsInv(s, act, base);
    if act.CallStop? { StopUnlockEnds(s.agent, act.peer, act.stopEnv, act.mode); }
  }

  // As long as some UE is started, the process runs and is never launched again
  lemma {:induction false} OneLaunchPerSession(s: System, run: seq<Action>, base: string)
    requires Inv(s, base) && CanRun(s, run, base)
    requires forall t <- States(s, run, base) :: AnyStarted(t.agent)
    ensures forall t <- States(s, run, base) :: t.agent.running && t.agent.launches == s.agent.launches
    decreases |run|
  {
    assert s in States(s, run, base);
    if run != [] {
      var s' := Step(s, run[0], base);
      var later := States(s', run[1..], base);
      assert States(s, run, base) == [s] + later && later[0] in later;
      SessionStep(s, run[0], base);
      StepKeepsInv(s, run[0], base);
      OneLaunchPerSession(s', run[1..], base);
    }
  }

  // A step that leaves the dictionary filled keeps a client's entry where it is
  lemma EntryStays(s: System, act: Action, base: string, i: nat)
    requires Inv(s, base) && Enabled(s, act) && i < |s.agent.subscribers|
    requires Step(s, act, base).agent.subscribers != []
    ensures var subscribers := Step(s, act, base).agent.subscribers;
      i < |subscribers| && subscribers[i].peer == s.agent.subscribers[i].peer
        && subscribers[i].imsi == s.agent.subscribers[i].imsi
  {
    match act
    case CallStart(p, env) => StartKeepsClients(s.agent, p, env);
    case CallStop(p, env, mode) => StopUnlockEnds(s.agent, p, env, mode);
    case _ =>
  }

  lemma ImsiStep(s: System, act: Action, base: string, peer: Peer)
    requires Inv(s, base) && Enabled(s, act) && Knows(s.agent, peer)
    requires Step(s, act, base).agent.subscribers != []
    ensures Knows(Step(s, act, base).agent, peer)
    ensures GetDefinition(Step(s, act, base).agent, peer, base).1 == GetDefinition(s.agent, peer, base).1
  {
    var i := Find(s.agent.subscribers, peer);
    EntryStays(s, act, base, i);
    StepKeepsInv(s, act, base);
    FindEntry(Step(s, act, base).agent.subscribers, i);
  }

  // A client's IMSI does not change until the dictionary is cleared
  lemma {:induction false} ImsiIsStable(s: System, run: seq<Action>, base: string, peer: Peer)
    requires Inv(s, base) && CanRun(s, run, base) && Knows(s.agent, peer)
    requires forall t <- States(s, run, base) :: t.agent.subscribers != []
    ensures Knows(After(s, run, base).agent, peer)
    ensures GetDefinition(After(s, run, base).agent, peer, base).1 == GetDefinition(s.agent, peer, base).1
    decreases |run|
  {
    if run != [] {
      StepKeepsInv(s, run[0], base);
      var s' := Step(s, run[0], base);
      assert States(s, run, base) == [s] + States(s', run[1..], base);
      assert s' in States(s', run[1..], base);
      ImsiStep(s, run[0], base, peer);
      ImsiIsStable(s', run[1..], base, peer);
    }
  }

  // ------------------------------------------------------------------ the driver

  class AmarisoftUe {
    const imsi: string
    var subscribers: seq<Subscriber>
    var count: nat
    var running: bool
    var link: Link
    var launches: nat

    function State(): Agent
      reads this
    {
      Agent(subscribers, count, running, link, launches)
    }

    constructor (imsi: string)
      ensures State() == Fresh && this.imsi == imsi
    {
      this.imsi := imsi;
      subscribers, count, running, link, launches := [], 0, false, NoLink, 0;
    }

    method CallGetDefinition(peer: Peer) returns (r: Option<string>)
      modifies this
      ensures (State(), r) == GetDefinition(old(State()), peer, imsi)
    {
      var i := Find(subscribers, peer);
      if i < |subscribers| { return Some(subscribers[i].imsi); }
      count := count + 1;
      if !IsNumber(imsi) { return None; }
      subscribers := subscribers + [Subscriber(peer, count, Imsi(imsi, count), false)];
      return Some(Imsi(imsi, count));
    }

    method SayFarewell(env: StopEnv) returns (outcome: Outcome)
      modifies this`link
      ensures (State(), outcome) == Farewell(old(State()), env)
    {
      if running && link.Open? {
        if env.quitRaises { return Raised; }
        link := Closed;
      }
      return Nothing;
    }

    method CallStopKnown(i: nat, env: StopEnv) returns (outcome: Outcome)
      requires i < |subscribers|
      modifies this
      ensures (State(), outcome) == StopKnown(old(State()), i, env)
    {
      var s := subscribers[i];
      if !s.started { return Response; }
      if link.Open? && s.peer in env.powerOffRaises { return Raised; }
      subscribers := subscribers[i := s.(started := false)];
      if AnyStarted(State()) { return Response; }
      subscribers, count := [], 0;
      outcome := SayFarewell(env);
    }

    // The loop of the unknown client goes over the live dictionary, or over a snapshot of it
    method CallStopUnlock(peer: Peer, env: StopEnv, mode: Iteration) returns (outcome: Outcome)
      modifies this
      ensures (State(), outcome) == StopUnlock(old(State()), peer, env, mode)
    {
      if !AnyStarted(State()) {
        outcome := SayFarewell(env);
        return;
      }
      var i := Find(subscribers, peer);
      if i < |subscribers| {
        outcome := CallStopKnown(i, env);
        return;
      }
      var size := |subscribers|;
      i := 0;
      while i < size
        invariant i <= size == |subscribers|
        invariant StopUnlock(old(State()), peer, env, mode) == StopAll(State(), i, env, mode)
      {
        if subscribers[i].started {
          outcome := CallStopKnown(i, env);
          if outcome.Raised? { return; }
          if |subscribers| != size { return if mode.Live? then Raised else Nothing; }
        }
        i := i + 1;
      }
      return Nothing;
    }

    method CallStop(peer: Peer, env: StopEnv, mode: Iteration) returns (outcome: Outcome, stopped: bool)
      modifies this
      ensures (State(), outcome, stopped) == Stop(old(State()), peer, env, mode)
    {
      outcome := CallStopUnlock(peer, env, mode);
      stopped := outcome.Nothing?;
      if stopped { running := false; }
    }

    method CallStart(peer: Peer, env: StartEnv) returns (ok: bool)
      modifies this
      ensures (State(), ok) == Start(old(State()), peer, env)
    {
      if !AnyStarted(State()) {
        ok := CallLaunch(peer, env.attempts);
        if !ok { return; }
      }
      if !link.Open? { return false; }
      if subscribers != [] {
        var i := Find(subscribers, peer);
        if i == |subscribers| || env.powerOnRaises { return false; }
        subscribers := subscribers[i := subscribers[i].(started := true)];
      }
      return !env.diedAfter;
    }

    method CallLaunch(peer: Peer, attempts: seq<Attempt>) returns (ok: bool)
      modifies this
      ensures (State(), ok) == Launch(old(State()), peer, attempts)
      decreases |attempts|
    {
      if attempts == [] { return false; }
      var t := attempts[0];
      var outcome := CallStopUnlock(peer, t.stop, Live);
      if outcome.Raised? || t.badConfig { return false; }
      running := false;
      if t.cannotRun { return false; }
      if !t.dryrun {
        running, launches := true, launches + 1;
        match t.license {
          case Unreachable => return false;
          case InUse => ok := CallLaunch(peer, attempts[1..]); return;
          case Available =>
        }
      }
      if t.refused || !running { return false; }
      link := Open;
      return !t.setupRaises;
    }
  }
}
