/**
 One websocket shared by many callers.  A caller takes a fresh id, opens a queue for it, sends
 its command and waits on the queue.  A single reader routes each arriving message: tallied
 under the first registered event that matches it, else put in the queue its id names.
 */
module WebSocket {
  import opened Wrappers
  import opened Tally

  // A message id as int() sees it
  datatype MessageId = NoId | Numeric(n: int) | NotANumber

  datatype Payload = NoPayload | Name(name: string) | List(items: seq<string>)

  datatype Message = Message(messageId: MessageId, ueId: Option<int>, serialNumber: bool, payload: Payload)

  // What the occurrences of an event are attributed to
  datatype Key = Key(ueId: Option<int>, messageId: MessageId)

  datatype Handler = Handler(event: string, matches: Message -> bool, key: Message -> Key)

  // The handler registered for the public warning events
  function PwsHandler(): Handler {
    Handler("pws_msg", (m: Message) => m.serialNumber && m.payload.List?, (m: Message) => Key(m.ueId, m.messageId))
  }

  type Counts = map<string, map<Key, nat>>

  // The socket's own state.  It is not running once the reader thread has ended.
  datatype Socket = Socket(
    counter: nat,
    queues: map<int, seq<Message>>,
    handlers: seq<Handler>,
    counts: Counts,
    running: bool
  )

  // ------------------------------------------------------------------ registering and counting

  function IndexOf(handlers: seq<Handler>, event: string): (i: nat)
    ensures i <= |handlers|
    ensures i < |handlers| ==> handlers[i].event == event
    ensures forall j :: 0 <= j < i ==> handlers[j].event != event
  {
    if handlers == [] || handlers[0].event == event then 0 else 1 + IndexOf(handlers[1..], event)
  }

  // Assigning to a dictionary: an existing key keeps its place, a new one goes last
  function Assign(handlers: seq<Handler>, h: Handler): seq<Handler> {
    var i := IndexOf(handlers, h.event);
    if i < |handlers| then handlers[i := h] else handlers + [h]
  }

  function Registered(s: Socket, h: Handler): Socket {
    s.(counts := if h.event in s.counts then s.counts else s.counts[h.event := map[]],
       handlers := Assign(s.handlers, h))
  }

  // Index of the first handler that recognises the message
  function FirstMatch(handlers: seq<Handler>, m: Message): (i: nat)
    ensures i <= |handlers|
    ensures i < |handlers| ==> handlers[i].matches(m)
    ensures forall j :: 0 <= j < i ==> !handlers[j].matches(m)
  {
    if handlers == [] || handlers[0].matches(m) then 0 else 1 + FirstMatch(handlers[1..], m)
  }

  predicate IsEvent(s: Socket, m: Message) {
    FirstMatch(s.handlers, m) < |s.handlers|
  }

  // Every registered event has its table of counts
  predicate Countable(s: Socket) {
    forall i :: 0 <= i < |s.handlers| ==> s.handlers[i].event in s.counts
  }

  function Counted(counts: Counts, h: Handler, m: Message): Counts
    requires h.event in counts
  {
    counts[h.event := Add(counts[h.event], h.key(m), 1)]
  }

  // How often an event was counted under a key
  function TallyOf(counts: Counts, event: string, key: Key): nat {
    if event in counts then Get(counts[event], key) else 0
  }

  // The message was counted once, under the event and the key that the handler gives it
  ghost predicate CountsOnce(before: Counts, after: Counts, h: Handler, m: Message) {
    && after.Keys == before.Keys
    && forall e, k ::
        TallyOf(after, e, k) == TallyOf(before, e, k) + if e == h.event && k == h.key(m) then 1 else 0
  }

  lemma CountedOnce(counts: Counts, h: Handler, m: Message)
    requires h.event in counts
    ensures CountsOnce(counts, Counted(counts, h, m), h, m)
  {
  }

  // One message through the reader.  A missing or unknown id is ignored; an id that is not a
  // number raises an error nothing catches, and ends the reader, as would a missing table.
  function Routed(s: Socket, m: Message): Socket {
    var i := FirstMatch(s.handlers, m);
    if i < |s.handlers| then
      if s.handlers[i].event in s.counts then s.(counts := Counted(s.counts, s.handlers[i], m))
      else s.(running := false)
    else match m.messageId
      case NoId => s
      case NotANumber => s.(running := false)
      case Numeric(k) => if k in s.queues then s.(queues := s.queues[k := s.queues[k] + [m]]) else s
  }

  class AmarisoftWebSocket {
    var msgIdCounter: nat
    var queueDict: map<int, seq<Message>>
    var eventHandlers: seq<Handler>
    var eventCounts: Counts
    var reading: bool

    function State(): Socket
      reads this
    {
      Socket(msgIdCounter, queueDict, eventHandlers, eventCounts, reading)
    }

    predicate Valid()
      reads this
    {
      Countable(State()) && forall k <- queueDict :: k <= msgIdCounter
    }

    constructor ()
      ensures Valid() && State() == Socket(0, map[], [], map[], true)
    {
      msgIdCounter, queueDict, eventHandlers, eventCounts, reading := 0, map[], [], map[], true;
    }

    method RegisterEvent(h: Handler)
      requires Valid()
      modifies this
      ensures Valid() && State() == Registered(old(State()), h)
    {
      if h.event !in eventCounts { eventCounts := eventCounts[h.event := map[]]; }
      eventHandlers := Assign(eventHandlers, h);
    }

    // The locked part of _send_command: an id no queue has, as in the world's choosing
    method TakeId() returns (id: int)
      requires Valid()
      modifies this`msgIdCounter
      ensures Valid() && id == msgIdCounter && id !in queueDict
      ensures forall w: World, c :: w.socket == old(State()) && Enabled(w, Choose(c)) ==>
        Apply(w, Choose(c)) == w.(socket := State(), callers := w.callers[c := Chosen(id)])
    {
      msgIdCounter := msgIdCounter + 1;
      id := msgIdCounter;
    }

    // The queue of an id, as in the world's opening; no message of any queue is lost
    method CreateQueue(id: int)
      requires Valid() && id <= msgIdCounter
      modifies this`queueDict
      ensures Valid() && id in queueDict
      ensures forall k :: k in old(queueDict) ==> k in queueDict && queueDict[k] == old(queueDict)[k]
      ensures id !in old(queueDict) ==> queueDict == old(queueDict)[id := []]
      ensures forall w: World, c :: w.socket == old(State()) && Enabled(w, Open(c)) && w.callers[c].id == id ==>
        Apply(w, Open(c)) == w.(socket := State(), callers := w.callers[c := Listening(id)])
    {
      if id !in queueDict { queueDict := queueDict[id := []]; }
    }

    // _send_command: the id is fresh and its queue there, and empty, before the command is sent
    method SendCommand() returns (id: int)
      requires Valid()
      modifies this`msgIdCounter, this`queueDict
      ensures Valid() && id !in old(queueDict) && queueDict == old(queueDict)[id := []]
      ensures forall w: World, c :: w.socket == old(State()) && Enabled(w, Choose(c)) ==>
        CanSend(w, c)
        && Sent(w, c) == w.(socket := State(), callers := w.callers[c := Waiting(id)], sent := w.sent + {id})
    {
      id := TakeId();
      CreateQueue(id);
    }

    method CountIfEvent(m: Message) returns (counted: bool)
      requires Valid()
      modifies this`eventCounts
      ensures Valid()
      ensures counted == IsEvent(old(State()), m)
      ensures counted ==> var h := eventHandlers[FirstMatch(eventHandlers, m)];
        CountsOnce(old(eventCounts), eventCounts, h, m) && eventCounts == Counted(old(eventCounts), h, m)
      ensures !counted ==> eventCounts == old(eventCounts)
    {
      for i := 0 to |eventHandlers|
        invariant eventCounts == old(eventCounts)
        invariant forall j :: 0 <= j < i ==> !eventHandlers[j].matches(m)
      {
        var h := eventHandlers[i];
        if h.matches(m) {
          CountedOnce(eventCounts, h, m);
          var key := h.key(m);
          eventCounts := eventCounts[h.event := Add(eventCounts[h.event], key, 1)];
          return true;
        }
      }
      return false;
    }

    // One turn of the reader's loop, on a message that is not empty
    method ReadOne(m: Message)
      requires Valid()
      modifies this
      ensures Valid() && State() == Routed(old(State()), m)
    {
      var counted := CountIfEvent(m);
      if counted { return; }
      match m.messageId
      case NoId =>
      case NotANumber => reading := false;
      case Numeric(k) => if k in queueDict { queueDict := queueDict[k := queueDict[k] + [m]]; }
    }

    // event_count: one key's tally, or the total over all keys
    method EventCount(event: string, key: Option<Key>) returns (n: nat)
      ensures key.Some? ==> n == if event in eventCounts then Get(eventCounts[event], key.value) else 0
      ensures key.None? ==> n == if event in eventCounts then Sum(eventCounts[event]) else 0
    {
      var counts := if event in eventCounts then eventCounts[event] else map[];
      if key.Some? { return Get(counts, key.value); }
      n := 0;
      var rest := counts;
      while rest != map[]
        invariant n + Sum(rest) == Sum(counts)
        decreases |rest|
      {
        var k :| k in rest;
        SumRemove(rest, k);
        n := n + rest[k];
        rest := rest - {k};
      }
    }
  }

  // ------------------------------------------------------------------ callers, server and reader

  type CallerId = nat

  // Where a caller is in send_command_and_wait_response
  datatype Caller =
    | Chosen(id: int)
    | Listening(id: int)
    | Waiting(id: int)
    | Answered(id: int, reply: Message)
    | TimedOut(id: int)

  // A message the server put on the wire: a reply to a command, or something unsolicited
  datatype Packet = Packet(message: Message, solicited: bool)

  // A packet the reader has read, and what there was then: the registered handlers, and whether
  // the id it carries had a queue
  datatype Reading = Reading(packet: Packet, handlers: seq<Handler>, hasQueue: bool)

  datatype World = World(
    socket: Socket,
    callers: map<CallerId, Caller>,
    sent: set<int>,
    wire: seq<Packet>,
    // history: the packets read so far, the messages handed out per id, and the events counted
    read: seq<Reading>,
    handed: map<int, seq<Message>>,
    events: seq<string>
  )

  datatype Action =
    | Register(h: Handler)
    | Choose(c: CallerId)
    | Open(c: CallerId)
    | Send(c: CallerId)
    | Serve(p: Packet)
    | Read
    | Take(c: CallerId)
    | GiveUp(c: CallerId)

  // A reply names its command in the message field, and echoes the id of the command
  predicate WellFormed(p: Packet) {
    p.solicited ==> p.message.payload.Name? && p.message.messageId.Numeric?
  }

  ghost predicate RejectsReplies(h: Handler, p: Packet) {
    p.solicited && WellFormed(p) ==> !h.matches(p.message)
  }

  lemma PwsRejectsReplies(p: Packet)
    ensures RejectsReplies(PwsHandler(), p)
  {}

  ghost predicate Enabled(w: World, a: Action) {
    match a
    // assumed of matchers: they reject replies
    case Register(h) => forall p :: RejectsReplies(h, p)
    case Choose(c) => c !in w.callers
    case Open(c) => c in w.callers && w.callers[c].Chosen?
    case Send(c) => c in w.callers && w.callers[c].Listening?
    // assumed of the server: it replies to what was sent, with the id it was sent with
    case Serve(p) => WellFormed(p) && (p.solicited ==> p.message.messageId.n in w.sent)
    case Read => w.socket.running && w.wire != []
    case Take(c) =>
      && c in w.callers && w.callers[c].Waiting?
      && w.callers[c].id in w.socket.queues && w.socket.queues[w.callers[c].id] != []
    case GiveUp(c) => c in w.callers && w.callers[c].Waiting?
  }

  function Handed(w: World, k: int): seq<Message> {
    if k in w.handed then w.handed[k] else []
  }

  function Queued(w: World, k: int): seq<Message> {
    if k in w.socket.queues then w.socket.queues[k] else []
  }

  ghost function Apply(w: World, a: Action): World
    requires Enabled(w, a)
  {
    match a
    case Register(h) => w.(socket := Registered(w.socket, h))
    case Choose(c) =>
      var id := w.socket.counter + 1;
      w.(socket := w.socket.(counter := id), callers := w.callers[c := Chosen(id)])
    case Open(c) =>
      var id := w.callers[c].id;
      var queues := if id in w.socket.queues then w.socket.queues else w.socket.queues[id := []];
      w.(socket := w.socket.(queues := queues), callers := w.callers[c := Listening(id)])
    case Send(c) =>
      var id := w.callers[c].id;
      w.(callers := w.callers[c := Waiting(id)], sent := w.sent + {id})
    case Serve(p) => w.(wire := w.wire + [p])
    case Read =>
      var p, i := w.wire[0], FirstMatch(w.socket.handlers, w.wire[0].message);
      w.(socket := Routed(w.socket, p.message), wire := w.wire[1..], read := w.read + [ReadingOf(w.socket, p)],
         events := if i < |w.socket.handlers| then w.events + [w.socket.handlers[i].event] else w.events)
    case Take(c) =>
      var id := w.callers[c].id;
      var reply := w.socket.queues[id][0];
      w.(socket := w.socket.(queues := w.socket.queues[id := w.socket.queues[id][1..]]),
         callers := w.callers[c := Answered(id, reply)],
         handed := w.handed[id := Handed(w, id) + [reply]])
    case GiveUp(c) => w.(callers := w.callers[c := TimedOut(w.callers[c].id)])
  }

  function ReadingOf(s: Socket, p: Packet): Reading {
    Reading(p, s.handlers, p.message.messageId.Numeric? && p.message.messageId.n in s.queues)
  }

  // What a caller does in _send_command, in the world's three steps
  ghost predicate CanSend(w: World, c: CallerId) {
    && Enabled(w, Choose(c))
    && var w1 := Apply(w, Choose(c)); Enabled(w1, Open(c)) && Enabled(Apply(w1, Open(c)), Send(c))
  }

  ghost function Sent(w: World, c: CallerId): World
    requires CanSend(w, c)
  {
    Apply(Apply(Apply(w, Choose(c)), Open(c)), Send(c))
  }

  predicate GoesToQueue(s: Socket, m: Message) {
    !IsEvent(s, m) && m.messageId.Numeric? && m.messageId.n in s.queues
  }

  const Connected: World := World(Socket(0, map[], [], map[], true), map[], {}, [], [], map[], [])

  // The reading was put in the queue of id k: no handler recognised it, and the queue was there
  predicate Delivered(r: Reading, k: int) {
    && r.packet.message.messageId == Numeric(k) && r.hasQueue
    && FirstMatch(r.handlers, r.packet.message) == |r.handlers|
  }

  // The messages put in the queue of id k, in order
  function Carrying(read: seq<Reading>, k: int): seq<Message> {
    if read == [] then []
    else
      var r := read[|read| - 1];
      Carrying(read[..|read| - 1], k) + if Delivered(r, k) then [r.packet.message] else []
  }

  ghost predicate Inv(w: World) {
    && Countable(w.socket)
    && IdsAreTaken(w)
    && IdsAreDistinct(w)
    && QueuesPrecedeSends(w)
    && QueuesHoldTheirOwn(w)
    && Matchers(w)
    && Tallied(w)
    && NothingIsLost(w)
    && RepliesAreDelivered(w)
    && OneAnswerEach(w)
  }

  // Ids are positive and at most the counter
  predicate IdsAreTaken(w: World) {
    && (forall c <- w.callers :: 1 <= w.callers[c].id <= w.socket.counter)
    && (forall k <- w.socket.queues :: 1 <= k <= w.socket.counter)
  }

  predicate IdsAreDistinct(w: World) {
    forall c <- w.callers, d <- w.callers :: w.callers[c].id == w.callers[d].id ==> c == d
  }

  predicate QueuesPrecedeSends(w: World) {
    && (forall k <- w.sent :: k in w.socket.queues)
    && (forall c <- w.callers ::
          w.callers[c].Listening? || w.callers[c].Waiting? ==> w.callers[c].id in w.socket.queues)
    && (forall p <- w.wire :: WellFormed(p) && (p.solicited ==> p.message.messageId.n in w.sent))
  }

  predicate QueuesHoldTheirOwn(w: World) {
    && (forall k <- w.socket.queues :: forall m <- w.socket.queues[k] :: m.messageId == Numeric(k))
    && (forall c <- w.callers :: w.callers[c].Answered? ==> w.callers[c].reply.messageId == Numeric(w.callers[c].id))
  }

  ghost predicate Matchers(w: World) {
    forall i, p :: 0 <= i < |w.socket.handlers| ==> RejectsReplies(w.socket.handlers[i], p)
  }

  function Occurrences(events: seq<string>, event: string): nat {
    if events == [] then 0
    else Occurrences(events[..|events| - 1], event) + if events[|events| - 1] == event then 1 else 0
  }

  ghost predicate Tallied(w: World) {
    forall event :: Occurrences(w.events, event) == if event in w.socket.counts then Sum(w.socket.counts[event]) else 0
  }

  // Each queue holds, after what was handed out, exactly the messages delivered to its id
  ghost predicate NothingIsLost(w: World) {
    forall k: int :: LosesNothing(w, k)
  }

  predicate LosesNothing(w: World, k: int) {
    Handed(w, k) + Queued(w, k) == Carrying(w.read, k)
  }

  ghost predicate RepliesAreDelivered(w: World) {
    forall i, k :: 0 <= i < |w.read| && IsReply(w.read[i], k) ==> Delivered(w.read[i], k)
  }

  // A caller is handed one message, the one that answers it
  predicate OneAnswerEach(w: World) {
    && (forall c <- w.callers ::
          Handed(w, w.callers[c].id) == if w.callers[c].Answered? then [w.callers[c].reply] else [])
    && (forall k <- w.handed :: k <= w.socket.counter)
  }

  lemma StepKeepsIds(w: World, a: Action)
    requires IdsAreTaken(w) && Enabled(w, a)
    ensures IdsAreTaken(Apply(w, a))
  {}

  lemma StepKeepsDistinctIds(w: World, a: Action)
    requires IdsAreTaken(w) && IdsAreDistinct(w) && Enabled(w, a)
    ensures IdsAreDistinct(Apply(w, a))
  {
    var w' := Apply(w, a);
    forall c, d | c in w'.callers && d in w'.callers && w'.callers[c].id == w'.callers[d].id ensures c == d {
      if c in w.callers && d in w.callers {
        assert w.callers[c].id == w'.callers[c].id && w.callers[d].id == w'.callers[d].id;
      }
    }
  }

  lemma StepKeepsQueues(w: World, a: Action)
    requires QueuesPrecedeSends(w) && Enabled(w, a)
    ensures QueuesPrecedeSends(Apply(w, a))
  {}

  lemma StepKeepsContents(w: World, a: Action)
    requires QueuesHoldTheirOwn(w) && Enabled(w, a)
    ensures QueuesHoldTheirOwn(Apply(w, a))
  {}

  lemma StepKeepsMatchers(w: World, a: Action)
    requires Matchers(w) && Countable(w.socket) && Enabled(w, a)
    ensures Matchers(Apply(w, a)) && Countable(Apply(w, a).socket)
  {}

  lemma StepKeepsTallies(w: World, a: Action)
    requires Countable(w.socket) && Tallied(w) && Enabled(w, a)
    ensures Tallied(Apply(w, a))
  {
    if a.Read? {
      var m := w.wire[0].message;
      var i := FirstMatch(w.socket.handlers, m);
      if i < |w.socket.handlers| {
        var h := w.socket.handlers[i];
        assert (w.events + [h.event])[..|w.events|] == w.events;
        SumAdd(w.socket.counts[h.event], h.key(m), 1);
      }
    }
  }

  // A genuine reply finds its queue, because the queue was opened before the command was sent
  lemma ReplyGoesToQueue(w: World)
    requires Inv(w) && Enabled(w, Read) && w.wire[0].solicited
    ensures GoesToQueue(w.socket, w.wire[0].message)
  {
    var p := w.wire[0];
    assert p in w.wire;
    var i := FirstMatch(w.socket.handlers, p.message);
    assert i < |w.socket.handlers| ==> RejectsReplies(w.socket.handlers[i], p);
  }

  // Reading a packet adds to the queue of id k just when it is delivered to it
  lemma ReadQueues(w: World, k: int)
    requires Enabled(w, Read)
    ensures var r := ReadingOf(w.socket, w.wire[0]);
      Queued(Apply(w, Read), k) == Queued(w, k) + (if Delivered(r, k) then [r.packet.message] else [])
    ensures Handed(Apply(w, Read), k) == Handed(w, k)
  {
  }

  lemma CarryingAppend(read: seq<Reading>, r: Reading, k: int)
    ensures Carrying(read + [r], k) == Carrying(read, k) + if Delivered(r, k) then [r.packet.message] else []
  {
    assert (read + [r])[..|read|] == read;
  }

  lemma Regroup(a: seq<Message>, b: seq<Message>, c: seq<Message>)
    ensures a + (b + c) == (a + b) + c
  {
  }

  lemma ReadLosesNothing(w: World, k: int)
    requires LosesNothing(w, k) && Enabled(w, Read)
    ensures LosesNothing(Apply(w, Read), k)
  {
    var r := ReadingOf(w.socket, w.wire[0]);
    ReadQueues(w, k);
    CarryingAppend(w.read, r, k);
    Regroup(Handed(w, k), Queued(w, k), if Delivered(r, k) then [r.packet.message] else []);
  }

  lemma TakeLosesNothing(w: World, c: CallerId, k: int)
    requires LosesNothing(w, k) && Enabled(w, Take(c))
    ensures LosesNothing(Apply(w, Take(c)), k)
  {
    if w.callers[c].id == k {
      var reply := Queued(w, k)[0];
      assert Handed(w, k) + [reply] + Queued(w, k)[1..] == Handed(w, k) + Queued(w, k);
    }
  }

  lemma StepLosesNothing(w: World, a: Action)
    requires NothingIsLost(w) && Enabled(w, a)
    ensures NothingIsLost(Apply(w, a))
  {
    forall k: int
      ensures LosesNothing(Apply(w, a), k)
    {
      assert LosesNothing(w, k);
      match a
      case Read => ReadLosesNothing(w, k);
      case Take(c) => TakeLosesNothing(w, c, k);
      case _ => assert Handed(Apply(w, a), k) == Handed(w, k) && Queued(Apply(w, a), k) == Queued(w, k);
    }
  }

  lemma StepDeliversReplies(w: World, a: Action)
    requires Inv(w) && Enabled(w, a)
    ensures RepliesAreDelivered(Apply(w, a))
  {
    if a.Read? && w.wire[0].solicited { ReplyGoesToQueue(w); }
  }

  lemma StepKeepsAnswers(w: World, a: Action)
    requires IdsAreTaken(w) && IdsAreDistinct(w) && OneAnswerEach(w) && Enabled(w, a)
    ensures OneAnswerEach(Apply(w, a))
  {
    var w' := Apply(w, a);
    forall c | c in w'.callers
      ensures Handed(w', w'.callers[c].id) == if w'.callers[c].Answered? then [w'.callers[c].reply] else []
    {
      if c in w.callers { assert w'.callers[c].id == w.callers[c].id; }
    }
  }

  lemma StepKeepsInv(w: World, a: Action)
    requires Inv(w) && Enabled(w, a)
    ensures Inv(Apply(w, a))
  {
    StepKeepsIds(w, a);
    StepKeepsDistinctIds(w, a);
    StepKeepsQueues(w, a);
    StepKeepsContents(w, a);
    StepKeepsMatchers(w, a);
    StepKeepsTallies(w, a);
    StepLosesNothing(w, a);
    StepDeliversReplies(w, a);
    StepKeepsAnswers(w, a);
  }

  // ------------------------------------------------------------------ runs and main results

  ghost predicate CanRun(w: World, run: seq<Action>)
    decreases |run|
  {
    run == [] || (Enabled(w, run[0]) && CanRun(Apply(w, run[0]), run[1..]))
  }

  ghost function After(w: World, run: seq<Action>): World
    requires CanRun(w, run)
    decreases |run|
  {
    if run == [] then w else After(Apply(w, run[0]), run[1..])
  }

  lemma {:induction false} RunKeepsInv(w: World, run: seq<Action>)
    requires Inv(w) && CanRun(w, run)
    ensures Inv(After(w, run))
    decreases |run|
  {
    if run != [] {
      StepKeepsInv(w, run[0]);
      RunKeepsInv(Apply(w, run[0]), run[1..]);
    }
  }

  // The j-th reading is the first one put in the queue of id k
  predicate FirstFor(read: seq<Reading>, k: int, j: nat) {
    j < |read| && Delivered(read[j], k) && forall i :: 0 <= i < j ==> !Delivered(read[i], k)
  }

  lemma {:induction false} FirstCarried(read: seq<Reading>, k: int)
    requires Carrying(read, k) != []
    ensures exists j: nat :: FirstFor(read, k, j) && Carrying(read, k)[0] == read[j].packet.message
  {
    var n := |read| - 1;
    if Carrying(read[..n], k) == [] {
      NoneCarried(read[..n], k);
      assert forall i :: 0 <= i < n ==> read[i] == read[..n][i];
      assert FirstFor(read, k, n);
    } else {
      FirstCarried(read[..n], k);
      var j: nat :| FirstFor(read[..n], k, j) && Carrying(read[..n], k)[0] == read[..n][j].packet.message;
      assert forall i :: 0 <= i <= j ==> read[i] == read[..n][i];
      assert FirstFor(read, k, j);
    }
  }

  lemma {:induction false} NoneCarried(read: seq<Reading>, k: int)
    requires Carrying(read, k) == []
    ensures forall i :: 0 <= i < |read| ==> !Delivered(read[i], k)
  {
    if read != [] {
      var n := |read| - 1;
      NoneCarried(read[..n], k);
      assert forall i :: 0 <= i < n ==> read[i] == read[..n][i];
    }
  }

  // In every interleaving: callers never share an id, and an answered caller holds the message
  // of the first reading put in the queue of its id: it carries that id, and no handler that was
  // registered when it was read recognises it.
  lemma AnswersAreNoEvents(run: seq<Action>, c: CallerId, d: CallerId)
    requires CanRun(Connected, run)
    requires c in After(Connected, run).callers && d in After(Connected, run).callers
    ensures var w := After(Connected, run);
      && (w.callers[c].id == w.callers[d].id ==> c == d)
      && (w.callers[c].Answered? ==>
          exists j: nat :: FirstFor(w.read, w.callers[c].id, j) && w.read[j].packet.message == w.callers[c].reply)
  {
    RunKeepsInv(Connected, run);
    var w := After(Connected, run);
    if w.callers[c].Answered? {
      var k := w.callers[c].id;
      assert LosesNothing(w, k);
      FirstCarried(w.read, k);
    }
  }

  // An unsolicited packet that no handler recognised, carrying id k, read while k had a queue
  predicate Stray(r: Reading, k: int) {
    Delivered(r, k) && !r.packet.solicited
  }

  // No stray packet of id k was read before a reply to it
  predicate RepliedBeforeStrays(read: seq<Reading>, k: int) {
    forall i :: 0 <= i < |read| && Stray(read[i], k) ==> exists h :: 0 <= h < i && IsReply(read[h], k)
  }

  predicate IsReply(r: Reading, k: int) {
    r.packet.solicited && r.packet.message.messageId == Numeric(k)
  }

  // The answer of a caller is a genuine reply exactly when no stray packet of its id came first;
  // what came after the answer is still in the queue, which nobody waits on any more.
  lemma AnswerIsGenuine(run: seq<Action>, c: CallerId, j: nat)
    requires CanRun(Connected, run)
    requires c in After(Connected, run).callers && After(Connected, run).callers[c].Answered?
    requires FirstFor(After(Connected, run).read, After(Connected, run).callers[c].id, j)
    ensures var w, k := After(Connected, run), After(Connected, run).callers[c].id;
      && (w.read[j].packet.solicited <==> RepliedBeforeStrays(w.read, k))
      && Carrying(w.read, k) == [w.callers[c].reply] + Queued(w, k)
  {
    RunKeepsInv(Connected, run);
    var w, k := After(Connected, run), After(Connected, run).callers[c].id;
    assert LosesNothing(w, k);
    if w.read[j].packet.solicited {
      assert IsReply(w.read[j], k);
    } else {
      assert Stray(w.read[j], k);
    }
  }

  // So every answer is genuine when no stray packet was ever read
  lemma NoStraysNoFalseAnswers(run: seq<Action>, c: CallerId, j: nat)
    requires CanRun(Connected, run)
    requires c in After(Connected, run).callers && After(Connected, run).callers[c].Answered?
    requires FirstFor(After(Connected, run).read, After(Connected, run).callers[c].id, j)
    requires var w := After(Connected, run);
      forall i :: 0 <= i < |w.read| ==> !Stray(w.read[i], w.callers[c].id)
    ensures IsReply(After(Connected, run).read[j], After(Connected, run).callers[c].id)
  {
    AnswerIsGenuine(run, c, j);
  }

  ghost predicate AnsweredBy(w: World, run: seq<Action>, c: CallerId, p: Packet) {
    CanRun(w, run) && c in After(w, run).callers && After(w, run).callers[c] == Answered(1, p.message)
  }

  // A caller can be answered by a warning, as long as no handler for warnings is registered
  lemma WarningCanAnswer()
    ensures exists run: seq<Action>, p: Packet ::
              !p.solicited && PwsHandler().matches(p.message) && AnsweredBy(Connected, run, 0, p)
  {
    var m := Message(Numeric(1), None, true, List([]));
    var p := Packet(m, false);
    var sent := World(Socket(1, map[1 := []], [], map[], true), map[0 := Waiting(1)], {1}, [], [], map[], []);
    SentFirst(sent);
    AnsweredByStray(sent, p);
    AfterConcat(Connected, [Choose(0), Open(0), Send(0)], [Serve(p), Read, Take(0)]);
    assert AnsweredBy(Connected, [Choose(0), Open(0), Send(0)] + [Serve(p), Read, Take(0)], 0, p);
  }

  lemma SentFirst(sent: World)
    requires sent == World(Socket(1, map[1 := []], [], map[], true), map[0 := Waiting(1)], {1}, [], [], map[], [])
    ensures CanRun(Connected, [Choose(0), Open(0), Send(0)]) && After(Connected, [Choose(0), Open(0), Send(0)]) == sent
  {
    var w1 := Apply(Connected, Choose(0));
    var w2 := Apply(w1, Open(0));
    RunsOn(sent, [], sent);
    RunsOn(w2, [Send(0)], sent);
    RunsOn(w1, [Open(0), Send(0)], sent);
    RunsOn(Connected, [Choose(0), Open(0), Send(0)], sent);
  }

  lemma AnsweredByStray(w: World, p: Packet)
    requires w == World(Socket(1, map[1 := []], [], map[], true), map[0 := Waiting(1)], {1}, [], [], map[], [])
    requires !p.solicited && p.message.messageId == Numeric(1)
    ensures AnsweredBy(w, [Serve(p), Read, Take(0)], 0, p)
  {
    var w1 := Apply(w, Serve(p));
    var w2 := Apply(w1, Read);
    assert FirstMatch([], p.message) == 0 && w1.wire[0] == p && !IsEvent(w1.socket, p.message);
    assert w2.socket == Routed(w1.socket, p.message) && [] + [p.message] == [p.message];
    assert w2.socket.queues[1] == [p.message];
    var w3 := Apply(w2, Take(0));
    RunsOn(w3, [], w3);
    RunsOn(w2, [Take(0)], w3);
    RunsOn(w1, [Read, Take(0)], w3);
    RunsOn(w, [Serve(p), Read, Take(0)], w3);
  }

  lemma {:induction false} AfterConcat(w: World, a: seq<Action>, b: seq<Action>)
    requires CanRun(w, a) && CanRun(After(w, a), b)
    ensures CanRun(w, a + b) && After(w, a + b) == After(After(w, a), b)
    decreases |a|
  {
    if a == [] {
      assert a + b == b;
    } else {
      assert (a + b)[1..] == a[1..] + b;
      AfterConcat(Apply(w, a[0]), a[1..], b);
    }
  }

  // One step more at the front of a run
  lemma RunsOn(w: World, run: seq<Action>, end: World)
    requires run == [] ==> w == end
    requires run != [] ==>
      Enabled(w, run[0]) && CanRun(Apply(w, run[0]), run[1..]) && After(Apply(w, run[0]), run[1..]) == end
    ensures CanRun(w, run) && After(w, run) == end
  {
  }

  // In every interleaving: what was handed out for an id and what still waits in its queue are
  // together, in order, all that was ever delivered to that id, and every reply that was read
  // was delivered to its id.
  lemma NoReplyIsLost(run: seq<Action>, k: int)
    requires CanRun(Connected, run)
    ensures var w := After(Connected, run);
      && Handed(w, k) + Queued(w, k) == Carrying(w.read, k)
      && forall i :: 0 <= i < |w.read| && IsReply(w.read[i], k) ==> Delivered(w.read[i], k)
  {
    RunKeepsInv(Connected, run);
    assert LosesNothing(After(Connected, run), k);
  }

  // The reader never stops on a reply or a recognised event, only on an id that is no number
  lemma ReaderStopsOnJunkOnly(run: seq<Action>)
    requires CanRun(Connected, run) && Enabled(After(Connected, run), Read)
    ensures var w := After(Connected, run);
      Apply(w, Read).socket.running <==>
        IsEvent(w.socket, w.wire[0].message) || w.wire[0].message.messageId != NotANumber
  {
    RunKeepsInv(Connected, run);
  }

  // Such an input: one message whose id is no number, which no reply follows any more
  lemma JunkStopsReader()
    ensures exists p: Packet :: StopsReader(p)
  {
    var p := Packet(Message(NotANumber, None, false, NoPayload), false);
    var w1 := Apply(Connected, Serve(p));
    assert w1.wire[0] == p && FirstMatch([], p.message) == 0;
    assert StopsReader(p);
  }

  ghost predicate StopsReader(p: Packet) {
    && Enabled(Connected, Serve(p)) && Enabled(Apply(Connected, Serve(p)), Read)
    && !Apply(Apply(Connected, Serve(p)), Read).socket.running
  }

  ghost predicate HasHandler(w: World, h: Handler) {
    exists i :: 0 <= i < |w.socket.handlers| && w.socket.handlers[i] == h
  }

  lemma StepKeepsEventsOut(w: World, h: Handler, a: Action)
    requires Enabled(w, a) && HasHandler(w, h)
    requires a.Register? ==> a.h.event != h.event
    ensures HasHandler(Apply(w, a), h)
    ensures w.read <= Apply(w, a).read
    ensures var read := Apply(w, a).read;
      forall j, k :: |w.read| <= j < |read| && Delivered(read[j], k) ==> !h.matches(read[j].packet.message)
  {
    var i :| 0 <= i < |w.socket.handlers| && w.socket.handlers[i] == h;
    assert Apply(w, a).socket.handlers[i] == h;
  }

  // Once a handler is registered, and until its event is registered anew, no message it
  // recognises enters a queue, not even one whose own id is that of a waiting caller.
  lemma {:induction false} EventsStayOutOfQueues(w: World, h: Handler, run: seq<Action>)
    requires CanRun(w, run) && HasHandler(w, h)
    requires forall a <- run :: a.Register? ==> a.h.event != h.event
    ensures w.read <= After(w, run).read
    ensures var read := After(w, run).read;
      forall j, k :: |w.read| <= j < |read| && Delivered(read[j], k) ==> !h.matches(read[j].packet.message)
    decreases |run|
  {
    if run != [] {
      StepKeepsEventsOut(w, h, run[0]);
      EventsStayOutOfQueues(Apply(w, run[0]), h, run[1..]);
    }
  }

  // In every interleaving, the total over all keys of an event's tallies is the number of
  // messages counted under it
  lemma TalliesAreConserved(run: seq<Action>, event: string)
    requires CanRun(Connected, run)
    ensures var w := After(Connected, run);
      Occurrences(w.events, event) == if event in w.socket.counts then Sum(w.socket.counts[event]) else 0
  {
    RunKeepsInv(Connected, run);
  }
}
