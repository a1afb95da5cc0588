/** One thread's attempts to reserve a port. */
module PortReservation {
  import opened Sequences
  import opened Orchestration

  datatype Reservation = Reserved(port: int) | NoPortLeft | RequestFailed

  // An index below n, any there is
  function Pick(choice: nat, n: nat): (i: nat)
    requires n > 0
    ensures i < n
  {
    if choice < n then choice else 0
  }

  // The thread's run of attempts, given the random picks and the replies it gets
  function Attempts(possible: seq<int>, picks: nat -> nat, replies: nat -> Reply, k: nat): Reservation
    decreases |possible|
  {
    if possible == [] then NoPortLeft
    else match AfterReply(possible, Pick(picks(k), |possible|), replies(k))
      case Reserving(rest) => Attempts(rest, picks, replies, k + 1)
      case Holding(port) => Reserved(port)
      case _ => RequestFailed
  }

  // Every port of the range is either still possible or already tried, never both
  ghost predicate Splits(possible: seq<int>, tried: seq<int>) {
    && Distinct(possible) && Distinct(tried)
    && (forall p <- possible :: InRange(p) && p !in tried)
    && (forall p <- tried :: InRange(p))
    && (forall p :: InRange(p) ==> p in tried || p in possible)
  }

  lemma SplitsAtFirst()
    ensures Splits(AllPorts(), [])
  {
    assert forall p :: InRange(p) ==> AllPorts()[p - NUMBER_PORT_INIT] == p;
  }

  lemma SplitsStep(possible: seq<int>, tried: seq<int>, i: nat)
    requires Splits(possible, tried) && i < |possible|
    ensures Splits(Without(possible, i), tried + [possible[i]])
  {
    var rest, more := Without(possible, i), tried + [possible[i]];
    var port := possible[i];
    assert port in possible;
    assert InRange(port) && port !in tried;
    DistinctAppend(tried, port);
    forall p | p in rest ensures p in possible && p != possible[i] {
      var k :| 0 <= k < |rest| && rest[k] == p;
      assert p == possible[if k < i then k else k + 1];
    }
    forall p | InRange(p) ensures p in more || p in rest {
      if p !in more {
        var k :| 0 <= k < |possible| && possible[k] == p;
        assert rest[if k < i then k else k - 1] == p;
      }
    }
  }

  // reserve_port.  `tried` lists the ports asked for, in order: no port twice, so at most
  // NUMBER_OF_PORTS of them, and giving up means every port was refused.
  method ReservePort(picks: nat -> nat, replies: nat -> Reply) returns (r: Reservation, tried: seq<int>)
    ensures r == Attempts(AllPorts(), picks, replies, 0)
    ensures |tried| <= NUMBER_OF_PORTS && Distinct(tried) && forall p <- tried :: InRange(p)
    ensures forall i :: 0 <= i < |tried| - 1 ==> replies(i).Refused?
    ensures r.Reserved? ==> tried != [] && r.port == tried[|tried| - 1] && replies(|tried| - 1).Accepted?
    ensures r.RequestFailed? ==> tried != [] && replies(|tried| - 1).Raised?
    ensures r.NoPortLeft? ==>
      (forall i :: 0 <= i < |tried| ==> replies(i).Refused?) && (forall p :: InRange(p) ==> p in tried)
  {
    var possible := AllPorts();
    tried := [];
    SplitsAtFirst();
    ghost var result := Attempts(possible, picks, replies, 0);
    while possible != []
      invariant Splits(possible, tried)
      invariant |possible| + |tried| == NUMBER_OF_PORTS
      invariant forall i :: 0 <= i < |tried| ==> replies(i).Refused?
      invariant Attempts(possible, picks, replies, |tried|) == result
      decreases |possible|
    {
      var i := Pick(picks(|tried|), |possible|);
      var port := possible[i];
      var reply := replies(|tried|);
      SplitsStep(possible, tried, i);
      possible := Without(possible, i);
      tried := tried + [port];
      if reply.Accepted? { return Reserved(port), tried; }
      if reply.Raised? { return RequestFailed, tried; }
    }
    r := NoPortLeft;
  }
}
