/**
 What the tallies of events tell, over whole runs: for each event and key, how many of the
 messages read were first recognised by a handler of that event, and attributed to that key.
 */
module EventTallies {
  import opened Wrappers
  import opened Tally
  import opened WebSocket

  // The first handler there was to recognise the message is of this event, and gives it this key
  predicate IsCounted(r: Reading, event: string, key: Key) {
    var i := FirstMatch(r.handlers, r.packet.message);
    i < |r.handlers| && r.handlers[i].event == event && r.handlers[i].key(r.packet.message) == key
  }

  function HowMany(read: seq<Reading>, event: string, key: Key): nat {
    if read == [] then 0
    else HowMany(read[..|read| - 1], event, key) + if IsCounted(read[|read| - 1], event, key) then 1 else 0
  }

  ghost predicate TalliesTell(w: World) {
    forall event, key :: TallyOf(w.socket.counts, event, key) == HowMany(w.read, event, key)
  }

  lemma ReadTells(w: World, event: string, key: Key)
    requires Countable(w.socket) && TalliesTell(w) && Enabled(w, Read)
    ensures TallyOf(Apply(w, Read).socket.counts, event, key) == HowMany(Apply(w, Read).read, event, key)
  {
    var r := ReadingOf(w.socket, w.wire[0]);
    var i := FirstMatch(w.socket.handlers, w.wire[0].message);
    assert (w.read + [r])[..|w.read|] == w.read;
    if i < |w.socket.handlers| { CountedOnce(w.socket.counts, w.socket.handlers[i], w.wire[0].message); }
  }

  lemma StepTells(w: World, a: Action)
    requires Countable(w.socket) && TalliesTell(w) && Enabled(w, a)
    ensures TalliesTell(Apply(w, a))
  {
    forall event, key
      ensures TallyOf(Apply(w, a).socket.counts, event, key) == HowMany(Apply(w, a).read, event, key)
    {
      if a.Read? { ReadTells(w, event, key); }
    }
  }

  lemma {:induction false} RunTells(w: World, run: seq<Action>)
    requires Inv(w) && TalliesTell(w) && CanRun(w, run)
    ensures TalliesTell(After(w, run))
    decreases |run|
  {
    if run != [] {
      StepTells(w, run[0]);
      StepKeepsInv(w, run[0]);
      RunTells(Apply(w, run[0]), run[1..]);
    }
  }

  // In every interleaving the tally of an event and a key is the number of messages read that a
  // handler of the event was the first to recognise, and gave this key
  lemma TalliesAreExact(run: seq<Action>, event: string, key: Key)
    requires CanRun(Connected, run)
    ensures TallyOf(After(Connected, run).socket.counts, event, key) == HowMany(After(Connected, run).read, event, key)
  {
    RunTells(Connected, run);
  }

  // ------------------------------------------------------------------ registered handlers

  // No event has two handlers
  predicate OneHandlerEach(handlers: seq<Handler>) {
    forall i, j :: 0 <= i < j < |handlers| ==> handlers[i].event != handlers[j].event
  }

  predicate HasEvent(handlers: seq<Handler>, event: string) {
    exists i :: 0 <= i < |handlers| && handlers[i].event == event
  }

  // Registering replaces the handler of the event where it stands, or goes last, and touches no
  // other; it keeps every tally, and gives the event a table
  lemma RegisteringStores(s: Socket, h: Handler)
    requires OneHandlerEach(s.handlers)
    ensures var after := Registered(s, h).handlers;
      && OneHandlerEach(after) && |after| == |s.handlers| + (if HasEvent(s.handlers, h.event) then 0 else 1)
      && (forall i :: 0 <= i < |s.handlers| ==>
            after[i] == if s.handlers[i].event == h.event then h else s.handlers[i])
      && (!HasEvent(s.handlers, h.event) ==> after[|s.handlers|] == h)
    ensures forall event, key ::
              TallyOf(Registered(s, h).counts, event, key) == TallyOf(s.counts, event, key)
    ensures Registered(s, h).counts.Keys == s.counts.Keys + {h.event}
  {
    var i := IndexOf(s.handlers, h.event);
    assert i == |s.handlers| <==> !HasEvent(s.handlers, h.event);
  }

  lemma {:induction false} RunKeepsOneHandlerEach(w: World, run: seq<Action>)
    requires OneHandlerEach(w.socket.handlers) && CanRun(w, run)
    ensures OneHandlerEach(After(w, run).socket.handlers)
    decreases |run|
  {
    if run != [] {
      if run[0].Register? { RegisteringStores(w.socket, run[0].h); }
      RunKeepsOneHandlerEach(Apply(w, run[0]), run[1..]);
    }
  }

  // In every interleaving no event has two handlers
  lemma HandlersAreOneEach(run: seq<Action>)
    requires CanRun(Connected, run)
    ensures OneHandlerEach(After(Connected, run).socket.handlers)
  {
    RunKeepsOneHandlerEach(Connected, run);
  }

  // ------------------------------------------------------------------ public warnings

  // A public warning for this UE and with this identifier, read once the handler was registered
  predicate IsWarning(r: Reading, ueId: Option<int>, id: MessageId) {
    && r.handlers != [] && r.packet.message.serialNumber && r.packet.message.payload.List?
    && r.packet.message.ueId == ueId && r.packet.message.messageId == id
  }

  function Warnings(read: seq<Reading>, ueId: Option<int>, id: MessageId): nat {
    if read == [] then 0
    else Warnings(read[..|read| - 1], ueId, id) + if IsWarning(read[|read| - 1], ueId, id) then 1 else 0
  }

  // Nothing but the handler of public warnings is registered
  ghost predicate OnlyPws(run: seq<Action>) {
    forall a <- run :: a.Register? ==> a.h == PwsHandler()
  }

  ghost predicate PwsAlone(handlers: seq<Handler>) {
    handlers == [] || handlers == [PwsHandler()]
  }

  ghost predicate PwsAtMost(w: World) {
    PwsAlone(w.socket.handlers) && forall r <- w.read :: PwsAlone(r.handlers)
  }

  lemma {:induction false} RunKeepsPws(w: World, run: seq<Action>)
    requires PwsAtMost(w) && CanRun(w, run) && OnlyPws(run)
    ensures PwsAtMost(After(w, run))
    decreases |run|
  {
    if run != [] {
      assert run[0] in run;
      StepKeepsPws(w, run[0]);
      RunKeepsPws(Apply(w, run[0]), run[1..]);
    }
  }

  lemma StepKeepsPws(w: World, a: Action)
    requires PwsAtMost(w) && Enabled(w, a) && (a.Register? ==> a.h == PwsHandler())
    ensures PwsAtMost(Apply(w, a))
  {
  }

  lemma {:induction false} WarningsAreCounted(read: seq<Reading>, ueId: Option<int>, id: MessageId)
    requires forall r <- read :: PwsAlone(r.handlers)
    ensures HowMany(read, "pws_msg", Key(ueId, id)) == Warnings(read, ueId, id)
  {
    if read != [] {
      var r := read[|read| - 1];
      WarningsAreCounted(read[..|read| - 1], ueId, id);
      assert r in read;
    }
  }

  // In every interleaving the tally of public warnings for a UE and an identifier is the number of
  // such warnings read since the handler was registered
  lemma PwsTalliesAreExact(run: seq<Action>, ueId: Option<int>, id: MessageId)
    requires CanRun(Connected, run) && OnlyPws(run)
    ensures var w := After(Connected, run);
      TallyOf(w.socket.counts, "pws_msg", Key(ueId, id)) == Warnings(w.read, ueId, id)
  {
    TalliesAreExact(run, "pws_msg", Key(ueId, id));
    RunKeepsPws(Connected, run);
    WarningsAreCounted(After(Connected, run).read, ueId, id);
  }
}
