/** When the ConfigMap of an orchestration id is left behind for good. */
module IdentityLeaks {
  import opened Orchestration
  import opened Cluster

  // The event is a create of the id that takes effect
  predicate Takes(e: Event, o: OrchId) {
    e.Step? && e.a.ReserveId? && e.a.o == o && TookEffect(e.a.reply)
  }

  // The run gives an id up although its create took effect, before one is accepted
  predicate GivesUp(run: seq<Event>, o: OrchId) {
    run != [] && if Takes(run[0], o) then !run[0].a.reply.Accepted? else GivesUp(run[1..], o)
  }

  lemma LeakedIdentityStep(w: World, o: OrchId, e: Event)
    requires Sound(w.state) && SweepsAreOwn(w) && Occurs(w, e)
    requires o !in w.state.stages && Identity(o) in w.state.objects
    ensures o !in Happen(w, e).state.stages && Identity(o) in Happen(w, e).state.objects
  {
    match e
    case Step(a) => LeakedIdentityAction(w.state, o, a);
    case SweepOne(p, n) => SweepsItsOwn(w, p, n);
    case _ =>
  }

  lemma LeakedIdentityAction(s: State, o: OrchId, a: Action)
    requires SnapshotsAreComplete(s) && NamesTellOwners(s) && Enabled(s, a)
    requires o !in s.stages && Identity(o) in s.objects
    ensures o !in Apply(s, a).stages && Identity(o) in Apply(s, a).objects
  {
    if a.DeleteOne? { assert SnapshotIsComplete(s, a.o); }
  }

  // An id whose create reported an error but took effect is given up for a fresh one, and its
  // ConfigMap outlives every later run: no orchestration of that id ever exists to delete it.
  lemma {:induction false} LeakedIdentityStays(w: World, o: OrchId, run: seq<Event>)
    requires Inv(w) && CanRun(w, run)
    requires o !in w.state.stages && Identity(o) in w.state.objects
    ensures o !in After(w, run).state.stages && Identity(o) in After(w, run).state.objects
    decreases |run|
  {
    if run != [] {
      LeakedIdentityStep(w, o, run[0]);
      StepKeepsInv(w, run[0]);
      LeakedIdentityStays(Happen(w, run[0]), o, run[1..]);
    }
  }

  lemma {:induction false} KnownIdStays(w: World, o: OrchId, run: seq<Event>)
    requires CanRun(w, run) && o in w.state.stages
    ensures o in After(w, run).state.stages
    decreases |run|
  {
    if run != [] { KnownIdStays(Happen(w, run[0]), o, run[1..]); }
  }

  lemma IdentityStep(w: World, o: OrchId, e: Event)
    requires Occurs(w, e) && o !in w.state.stages && Identity(o) !in w.state.objects
    ensures Identity(o) in Happen(w, e).state.objects <==> Takes(e, o)
    ensures o in Happen(w, e).state.stages <==> Takes(e, o) && e.a.reply.Accepted?
  {
    if e.Step? { IdentityAction(w.state, o, e.a); }
  }

  lemma IdentityAction(s: State, o: OrchId, a: Action)
    requires Enabled(s, a) && o !in s.stages && Identity(o) !in s.objects
    ensures var took := a.ReserveId? && a.o == o && TookEffect(a.reply);
      && (Identity(o) in Apply(s, a).objects <==> took)
      && (o in Apply(s, a).stages <==> took && a.reply.Accepted?)
  {}

  // The ConfigMap of an id is left without an orchestration exactly when the run gives the id up
  // although its create took effect
  lemma {:induction false} IdentityLeaksWhen(w: World, o: OrchId, run: seq<Event>)
    requires Inv(w) && CanRun(w, run)
    requires o !in w.state.stages && Identity(o) !in w.state.objects
    ensures Identity(o) in After(w, run).state.objects && o !in After(w, run).state.stages <==> GivesUp(run, o)
    decreases |run|
  {
    if run != [] {
      var w' := Happen(w, run[0]);
      IdentityStep(w, o, run[0]);
      StepKeepsInv(w, run[0]);
      if o in w'.state.stages {
        KnownIdStays(w', o, run[1..]);
      } else if Identity(o) in w'.state.objects {
        LeakedIdentityStays(w', o, run[1..]);
      } else {
        IdentityLeaksWhen(w', o, run[1..]);
      }
    }
  }

  // Such a leak is reachable
  lemma IdentityCanLeak(o: OrchId)
    ensures var run := [Step(ReserveId(o, Refused(true)))];
      && CanRun(Empty, run)
      && o !in After(Empty, run).state.stages && Identity(o) in After(Empty, run).state.objects
  {
    RunsOn(Empty, Step(ReserveId(o, Refused(true))), []);
    assert [Step(ReserveId(o, Refused(true)))] + [] == [Step(ReserveId(o, Refused(true)))];
  }
}
