/**
 Public warning metrics: per-message counts taken from the websocket's event tallies, and
 their split into ETWS and CMAS messages.
 */
module PwsMetrics {
  import opened Wrappers
  import opened Tally
  import opened WebSocket

  // Identifiers below it are ETWS, from it on CMAS: section 9.4.1.2.2 of 3GPP TS 23.041
  const CMAS_MESSAGE_ID_THRESHOLD: int := 0x1112

  predicate Selected(k: Key, subscriber: Option<int>) {
    subscriber.None? || k.ueId == subscriber
  }

  function OfSubscriber(subscriber: Option<int>): Key -> bool {
    (k: Key) => Selected(k, subscriber)
  }

  function OfMessage(id: MessageId, subscriber: Option<int>): Key -> bool {
    (k: Key) => k.messageId == id && Selected(k, subscriber)
  }

  function IdsOf(events: map<Key, nat>, subscriber: Option<int>): set<MessageId> {
    set k | k in events && Selected(k, subscriber) :: k.messageId
  }

  function Plus(counts: map<MessageId, nat>, k: Key, n: nat, subscriber: Option<int>): map<MessageId, nat> {
    if Selected(k, subscriber) then Add(counts, k.messageId, n) else counts
  }

  // What is tallied in counts and what is left of the events add up to all the events: for
  // each message, in all, and in the identifiers they have
  ghost predicate IdAddsUp(counts: map<MessageId, nat>, rest: map<Key, nat>, events: map<Key, nat>,
      subscriber: Option<int>, id: MessageId) {
    Get(counts, id) + Sum(Where(rest, OfMessage(id, subscriber))) == Sum(Where(events, OfMessage(id, subscriber)))
  }

  ghost predicate TotalAddsUp(counts: map<MessageId, nat>, rest: map<Key, nat>, events: map<Key, nat>,
      subscriber: Option<int>) {
    Sum(counts) + Sum(Where(rest, OfSubscriber(subscriber))) == Sum(Where(events, OfSubscriber(subscriber)))
  }

  predicate IdsAddUp(counts: map<MessageId, nat>, rest: map<Key, nat>, events: map<Key, nat>, subscriber: Option<int>) {
    counts.Keys + IdsOf(rest, subscriber) == IdsOf(events, subscriber)
  }

  lemma IdAddsUpStep(counts: map<MessageId, nat>, rest: map<Key, nat>, events: map<Key, nat>,
      subscriber: Option<int>, k: Key, id: MessageId)
    requires k in rest && IdAddsUp(counts, rest, events, subscriber, id)
    ensures IdAddsUp(Plus(counts, k, rest[k], subscriber), rest - {k}, events, subscriber, id)
  {
    WhereRemove(rest, OfMessage(id, subscriber), k);
  }

  lemma TotalAddsUpStep(counts: map<MessageId, nat>, rest: map<Key, nat>, events: map<Key, nat>,
      subscriber: Option<int>, k: Key)
    requires k in rest && TotalAddsUp(counts, rest, events, subscriber)
    ensures TotalAddsUp(Plus(counts, k, rest[k], subscriber), rest - {k}, events, subscriber)
  {
    WhereRemove(rest, OfSubscriber(subscriber), k);
    SumAdd(counts, k.messageId, rest[k]);
  }

  lemma IdsAddUpStep(counts: map<MessageId, nat>, rest: map<Key, nat>, events: map<Key, nat>,
      subscriber: Option<int>, k: Key)
    requires k in rest && IdsAddUp(counts, rest, events, subscriber)
    ensures IdsAddUp(Plus(counts, k, rest[k], subscriber), rest - {k}, events, subscriber)
  {
    if Selected(k, subscriber) {
      assert IdsOf(rest, subscriber) == IdsOf(rest - {k}, subscriber) + {k.messageId};
    } else {
      assert IdsOf(rest, subscriber) == IdsOf(rest - {k}, subscriber);
    }
  }

  ghost predicate AddUp(counts: map<MessageId, nat>, rest: map<Key, nat>, events: map<Key, nat>,
      subscriber: Option<int>) {
    && (forall id :: IdAddsUp(counts, rest, events, subscriber, id))
    && TotalAddsUp(counts, rest, events, subscriber)
    && IdsAddUp(counts, rest, events, subscriber)
  }

  lemma AddUpStep(counts: map<MessageId, nat>, rest: map<Key, nat>, events: map<Key, nat>,
      subscriber: Option<int>, k: Key)
    requires k in rest && AddUp(counts, rest, events, subscriber)
    ensures AddUp(Plus(counts, k, rest[k], subscriber), rest - {k}, events, subscriber)
  {
    forall id ensures IdAddsUp(Plus(counts, k, rest[k], subscriber), rest - {k}, events, subscriber, id) {
      IdAddsUpStep(counts, rest, events, subscriber, k, id);
    }
    TotalAddsUpStep(counts, rest, events, subscriber, k);
    IdsAddUpStep(counts, rest, events, subscriber, k);
  }

  lemma AllAddUp(counts: map<MessageId, nat>, events: map<Key, nat>, subscriber: Option<int>)
    requires AddUp(counts, map[], events, subscriber)
    ensures counts.Keys == IdsOf(events, subscriber)
    ensures forall id :: Get(counts, id) == Sum(Where(events, OfMessage(id, subscriber)))
    ensures Sum(counts) == Sum(Where(events, OfSubscriber(subscriber)))
  {
    forall id ensures Get(counts, id) == Sum(Where(events, OfMessage(id, subscriber))) {
      assert IdAddsUp(counts, map[], events, subscriber, id);
      assert Where(map[], OfMessage(id, subscriber)) == map[];
    }
    assert Where(map[], OfSubscriber(subscriber)) == map[];
  }

  // _pws_msg_counts_by_id: the selected tallies, summed per message identifier
  method PwsMsgCountsById(events: map<Key, nat>, subscriber: Option<int>) returns (counts: map<MessageId, nat>)
    ensures forall id :: Get(counts, id) == Sum(Where(events, OfMessage(id, subscriber)))
    ensures counts.Keys == IdsOf(events, subscriber)
    ensures Sum(counts) == Sum(Where(events, OfSubscriber(subscriber)))
  {
    counts := map[];
    var rest := events;
    while rest != map[]
      invariant AddUp(counts, rest, events, subscriber)
      decreases |rest|
    {
      var k :| k in rest;
      AddUpStep(counts, rest, events, subscriber, k);
      if subscriber.None? || k.ueId == subscriber {
        counts := Add(counts, k.messageId, rest[k]);
      }
      rest := rest - {k};
    }
    AllAddUp(counts, events, subscriber);
  }

  // The per-UE counts of one message, added up over some UEs
  ghost function SumOverUes(events: map<Key, nat>, id: MessageId, ues: seq<int>): nat {
    if ues == [] then 0 else Sum(Where(events, OfMessage(id, Some(ues[0])))) + SumOverUes(events, id, ues[1..])
  }

  function Among(id: MessageId, ues: seq<int>): Key -> bool {
    (k: Key) => k.messageId == id && k.ueId.Some? && k.ueId.value in ues
  }

  lemma {:induction false} SumOverUesIsAmong(events: map<Key, nat>, id: MessageId, ues: seq<int>)
    requires forall i, j :: 0 <= i < j < |ues| ==> ues[i] != ues[j]
    ensures SumOverUes(events, id, ues) == Sum(Where(events, Among(id, ues)))
  {
    if ues == [] {
      assert Where(events, Among(id, ues)) == map[];
    } else {
      SumOverUesIsAmong(events, id, ues[1..]);
      assert forall x :: x in ues <==> x == ues[0] || x in ues[1..];
      WherePartition(events, Among(id, ues), OfMessage(id, Some(ues[0])), Among(id, ues[1..]));
    }
  }

  function Unattributed(id: MessageId): Key -> bool {
    (k: Key) => k.messageId == id && k.ueId.None?
  }

  // The counts of a message over distinct UEs, all those it was tallied for, sum to its count
  // over all UEs, less the messages that came without a UE id, which no UE's count includes.
  lemma UeCountsSumToTotal(events: map<Key, nat>, id: MessageId, ues: seq<int>)
    requires forall i, j :: 0 <= i < j < |ues| ==> ues[i] != ues[j]
    requires forall k <- events :: k.ueId.Some? ==> k.ueId.value in ues
    ensures Sum(Where(events, OfMessage(id, None))) ==
      SumOverUes(events, id, ues) + Sum(Where(events, Unattributed(id)))
  {
    SumOverUesIsAmong(events, id, ues);
    WherePartition(events, OfMessage(id, None), Among(id, ues), Unattributed(id));
  }

  predicate IsEtws(id: MessageId) {
    id.Numeric? && id.n < CMAS_MESSAGE_ID_THRESHOLD
  }

  datatype Metrics = Metrics(nofEtws: nat, nofCmas: nat)

  // The loop of GetMetrics.  Comparing an identifier that is no number raises: None.
  method GetMetrics(before: Metrics, counts: map<MessageId, nat>) returns (after: Option<Metrics>)
    ensures after.None? <==> exists id <- counts :: !id.Numeric?
    ensures after.Some? ==>
      && after.value.nofEtws
        == before.nofEtws + Sum(Where(counts, (id: MessageId) => id.Numeric? && id.n < CMAS_MESSAGE_ID_THRESHOLD))
      && after.value.nofEtws + after.value.nofCmas == before.nofEtws + before.nofCmas + Sum(counts)
  {
    var etws, cmas := before.nofEtws, before.nofCmas;
    var rest := counts;
    while rest != map[]
      invariant forall id <- rest :: id in counts && rest[id] == counts[id]
      invariant forall id <- counts :: id !in rest ==> id.Numeric?
      invariant etws + Sum(Where(rest, IsEtws)) == before.nofEtws + Sum(Where(counts, IsEtws))
      invariant etws + cmas + Sum(rest) == before.nofEtws + before.nofCmas + Sum(counts)
      decreases |rest|
    {
      var id :| id in rest;
      if !id.Numeric? { return None; }
      SumRemove(rest, id);
      WhereRemove(rest, IsEtws, id);
      if id.n < CMAS_MESSAGE_ID_THRESHOLD { etws := etws + rest[id]; } else { cmas := cmas + rest[id]; }
      rest := rest - {id};
    }
    assert Where(rest, IsEtws) == map[];
    assert Where(counts, IsEtws)
      == Where(counts, (id: MessageId) => id.Numeric? && id.n < CMAS_MESSAGE_ID_THRESHOLD);
    after := Some(Metrics(etws, cmas));
  }
}
