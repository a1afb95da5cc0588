/**
 Synchronising the licenses in use on the license server with the reservations Retina holds:
 a greedy matching in three phases over two lists edited in place, whose result depends on the
 order the reservations are sorted in beforehand.
 */
module LicenseSync {
  import opened Sequences

  const FAKE_USER: string := "amarisoft"

  datatype License = License(name: string, tag: string, username: string)

  // ------------------------------------------------------------------ counting

  predicate IsFake(l: License, tag: string) { l.tag == tag && l.username == FAKE_USER }
  predicate IsOther(l: License, tag: string) { l.tag == tag && l.username != "" && l.username != FAKE_USER }
  predicate IsFree(l: License, tag: string) { l.tag == tag && l.username == "" }
  predicate HasTag(l: License, tag: string) { l.tag == tag }

  // Number of licenses in a list that satisfy p for the tag
  function Count(ls: seq<License>, p: (License, string) -> bool, tag: string): nat {
    if ls == [] then 0 else (if p(ls[0], tag) then 1 else 0) + Count(ls[1..], p, tag)
  }

  function Fake(ls: seq<License>, tag: string): nat { Count(ls, IsFake, tag) }
  function Other(ls: seq<License>, tag: string): nat { Count(ls, IsOther, tag) }
  function Free(ls: seq<License>, tag: string): nat { Count(ls, IsFree, tag) }
  function Used(ls: seq<License>, tag: string): nat { Count(ls, HasTag, tag) }

  function Min(a: int, b: int): int { if a < b then a else b }
  function Max(a: int, b: int): int { if a > b then a else b }

  lemma {:induction false} CountAppend(a: seq<License>, b: seq<License>, p: (License, string) -> bool, tag: string)
    ensures Count(a + b, p, tag) == Count(a, p, tag) + Count(b, p, tag)
  {
    if a == [] {
      assert a + b == b;
    } else {
      assert (a + b)[1..] == a[1..] + b;
      CountAppend(a[1..], b, p, tag);
    }
  }

  lemma CountWithout(ls: seq<License>, i: nat, p: (License, string) -> bool, tag: string)
    requires i < |ls|
    ensures Count(ls, p, tag) == Count(Without(ls, i), p, tag) + (if p(ls[i], tag) then 1 else 0)
  {
    assert ls == ls[..i] + ([ls[i]] + ls[i + 1..]);
    CountAppend(ls[..i], [ls[i]] + ls[i + 1..], p, tag);
    CountAppend([ls[i]], ls[i + 1..], p, tag);
    CountAppend(ls[..i], ls[i + 1..], p, tag);
  }

  lemma CountReplace(ls: seq<License>, i: nat, l: License, p: (License, string) -> bool, tag: string)
    requires i < |ls|
    ensures Count(ls[i := l], p, tag) ==
      Count(ls, p, tag) - (if p(ls[i], tag) then 1 else 0) + (if p(l, tag) then 1 else 0)
  {
    assert Without(ls[i := l], i) == Without(ls, i);
    CountWithout(ls, i, p, tag);
    CountWithout(ls[i := l], i, p, tag);
  }

  lemma {:induction false} CountZero(ls: seq<License>, p: (License, string) -> bool, tag: string)
    requires forall l <- ls :: !p(l, tag)
    ensures Count(ls, p, tag) == 0
  {
    if ls != [] {
      assert ls[0] in ls;
      CountZero(ls[1..], p, tag);
    }
  }

  lemma {:induction false} CountPositive(ls: seq<License>, p: (License, string) -> bool, tag: string, i: nat)
    requires i < |ls| && p(ls[i], tag)
    ensures Count(ls, p, tag) > 0
  {
    CountWithout(ls, i, p, tag);
  }

  // ------------------------------------------------------------------ the sort

  // The fake user's reservations first, then other users', then the free ones
  function Rank(l: License): nat {
    if l.username == FAKE_USER then 0 else if l.username != "" then 1 else 2
  }

  predicate LexLess(a: string, b: string) {
    b != [] && (a == [] || a[0] < b[0] || (a[0] == b[0] && LexLess(a[1..], b[1..])))
  }

  predicate KeyLess(a: License, b: License) {
    Rank(a) < Rank(b) || (Rank(a) == Rank(b) && LexLess(a.tag, b.tag))
  }

  predicate Ranked(ls: seq<License>) {
    forall i, j :: 0 <= i < j < |ls| ==> Rank(ls[i]) <= Rank(ls[j])
  }

  // sorted(), which is stable: an insertion goes after the entries it does not precede
  function Insert(ls: seq<License>, l: License): seq<License> {
    if ls == [] then [l]
    else if KeyLess(l, ls[0]) then [l] + ls
    else [ls[0]] + Insert(ls[1..], l)
  }

  function Sorted(ls: seq<License>): seq<License> {
    if ls == [] then [] else Insert(Sorted(ls[..|ls| - 1]), ls[|ls| - 1])
  }

  lemma {:induction false} InsertPermutes(ls: seq<License>, l: License)
    ensures multiset(Insert(ls, l)) == multiset(ls) + multiset{l}
  {
    if ls != [] {
      assert ls == [ls[0]] + ls[1..];
      InsertPermutes(ls[1..], l);
    }
  }

  lemma {:induction false} InsertRanked(ls: seq<License>, l: License)
    requires Ranked(ls)
    ensures Ranked(Insert(ls, l))
  {
    if ls != [] && !KeyLess(l, ls[0]) {
      InsertRanked(ls[1..], l);
      var r := Insert(ls[1..], l);
      InsertPermutes(ls[1..], l);
      forall j | 0 <= j < |r| ensures Rank(ls[0]) <= Rank(r[j]) {
        assert r[j] in multiset(r);
        assert r[j] == l || r[j] in ls[1..];
      }
    }
  }

  lemma {:induction false} SortedIsRanked(ls: seq<License>)
    ensures Ranked(Sorted(ls)) && multiset(Sorted(ls)) == multiset(ls)
  {
    if ls != [] {
      var front, last := ls[..|ls| - 1], ls[|ls| - 1];
      assert ls == front + [last];
      SortedIsRanked(front);
      InsertRanked(Sorted(front), last);
      InsertPermutes(Sorted(front), last);
    }
  }

  lemma DropMatching(a: seq<License>, b: seq<License>, i: nat)
    requires a != [] && multiset(a) == multiset(b) && i < |b| && b[i] == a[0]
    ensures multiset(a[1..]) == multiset(Without(b, i))
  {
    assert a == [a[0]] + a[1..];
    assert b == b[..i] + ([b[i]] + b[i + 1..]);
    assert multiset(a[1..]) == multiset(a) - multiset{a[0]};
    assert multiset(Without(b, i)) == multiset(b) - multiset{b[i]};
  }

  // Counting does not see the order of a list
  lemma {:induction false} CountPermuted(a: seq<License>, b: seq<License>, p: (License, string) -> bool, tag: string)
    requires multiset(a) == multiset(b)
    ensures Count(a, p, tag) == Count(b, p, tag)
  {
    if a == [] {
      assert |multiset(a)| == |multiset(b)|;
    } else {
      assert a[0] in multiset(b);
      var i :| 0 <= i < |b| && b[i] == a[0];
      DropMatching(a, b, i);
      CountPermuted(a[1..], Without(b, i), p, tag);
      CountWithout(b, i, p, tag);
    }
  }

  // ------------------------------------------------------------------ the synchroniser

  // What the fake user holds of a tag at the end, from what was used, held by it, held by
  // others and free at the start
  function Target(used: nat, fake: nat, other: nat, free: nat): nat {
    Min(used, fake) + Min(Max(0, used - fake - other), free)
  }

  predicate UniqueNames(ls: seq<License>) {
    forall i, j :: 0 <= i < j < |ls| ==> ls[i].name != ls[j].name
  }

  predicate Within(part: seq<License>, whole: seq<License>) {
    forall l <- part :: l in whole
  }

  lemma {:induction false} InsertKeepsNames(ls: seq<License>, l: License)
    requires UniqueNames(ls) && forall x <- ls :: x.name != l.name
    ensures UniqueNames(Insert(ls, l)) && forall x <- Insert(ls, l) :: x == l || x in ls
  {
    if ls != [] && !KeyLess(l, ls[0]) {
      assert forall x <- ls[1..] :: x in ls;
      InsertKeepsNames(ls[1..], l);
      assert forall x <- Insert(ls[1..], l) :: x.name != ls[0].name;
    }
  }

  lemma {:induction false} SortedKeepsNames(ls: seq<License>)
    requires UniqueNames(ls)
    ensures UniqueNames(Sorted(ls)) && Within(Sorted(ls), ls)
  {
    if ls != [] {
      var front := ls[..|ls| - 1];
      SortedKeepsNames(front);
      assert forall x <- front :: x in ls && x.name != ls[|ls| - 1].name;
      InsertKeepsNames(Sorted(front), ls[|ls| - 1]);
    }
  }

  lemma WithoutKeeps(ls: seq<License>, i: nat)
    requires i < |ls|
    ensures Ranked(ls) ==> Ranked(Without(ls, i))
    ensures UniqueNames(ls) ==> UniqueNames(Without(ls, i)) && forall l <- Without(ls, i) :: l.name != ls[i].name
    ensures Within(Without(ls, i), ls)
  {}

  lemma WithinTransitive(a: seq<License>, b: seq<License>, c: seq<License>)
    requires Within(a, b) && Within(b, c)
    ensures Within(a, c)
  {}

  // The state of the first phase once `done` used licenses of a tag were looked at
  ghost predicate Matched(done: nat, used: nat, servers: seq<License>, all: seq<License>, before: seq<License>,
      tag: string) {
    && Fake(all, tag) == Fake(before, tag) - Min(done, Fake(before, tag))
    && Other(all, tag) == Other(before, tag) - Min(Max(0, done - Fake(before, tag)), Other(before, tag))
    && Free(all, tag) == Free(before, tag)
    && Used(servers, tag) == used - Min(done, Fake(before, tag) + Other(before, tag))
  }

  ghost predicate MatchedAll(done: seq<License>, used: seq<License>, servers: seq<License>, all: seq<License>,
      before: seq<License>) {
    forall tag :: Matched(Used(done, tag), Used(used, tag), servers, all, before, tag)
  }

  // Taking the first reserved license of a tag takes the fake user's while it has one
  lemma MatchOneTag(done: seq<License>, used: nat, servers: seq<License>, all: seq<License>, before: seq<License>,
      i: nat, j: nat, tag: string)
    requires i < |servers| && j < |all| && Ranked(all)
    requires servers[i].tag == all[j].tag && all[j].username != ""
    requires forall k :: 0 <= k < j ==> all[k].tag != all[j].tag || all[k].username == ""
    requires Matched(Used(done, tag), used, servers, all, before, tag)
    ensures Matched(Used(done + [servers[i]], tag), used, Without(servers, i), Without(all, j), before, tag)
  {
    CountAppend(done, [servers[i]], HasTag, tag);
    CountWithout(servers, i, HasTag, tag);
    CountWithout(all, j, IsFake, tag);
    CountWithout(all, j, IsOther, tag);
    CountWithout(all, j, IsFree, tag);
    if tag == all[j].tag && !IsFake(all[j], tag) {
      CountPositive(all, IsOther, tag, j);
      forall l <- all ensures !IsFake(l, tag) {
        var k :| 0 <= k < |all| && all[k] == l;
      }
      CountZero(all, IsFake, tag);
    }
  }

  lemma MatchOne(done: seq<License>, used: seq<License>, servers: seq<License>, all: seq<License>,
      before: seq<License>, i: nat, j: nat)
    requires i < |servers| && j < |all| && Ranked(all)
    requires servers[i].tag == all[j].tag && all[j].username != ""
    requires forall k :: 0 <= k < j ==> all[k].tag != all[j].tag || all[k].username == ""
    requires MatchedAll(done, used, servers, all, before)
    ensures MatchedAll(done + [servers[i]], used, Without(servers, i), Without(all, j), before)
  {
    var more := done + [servers[i]];
    forall tag ensures Matched(Used(more, tag), Used(used, tag), Without(servers, i), Without(all, j), before, tag) {
      assert Matched(Used(done, tag), Used(used, tag), servers, all, before, tag);
      MatchOneTag(done, Used(used, tag), servers, all, before, i, j, tag);
    }
  }

  // Finding none, the tag has no reserved license left
  lemma MatchNone(done: seq<License>, server: License, used: seq<License>, servers: seq<License>, all: seq<License>,
      before: seq<License>)
    requires forall l <- all :: l.tag != server.tag || l.username == ""
    requires MatchedAll(done, used, servers, all, before)
    ensures MatchedAll(done + [server], used, servers, all, before)
  {
    forall tag ensures Matched(Used(done + [server], tag), Used(used, tag), servers, all, before, tag) {
      assert Matched(Used(done, tag), Used(used, tag), servers, all, before, tag);
      CountAppend(done, [server], HasTag, tag);
      if tag == server.tag {
        CountZero(all, IsFake, tag);
        CountZero(all, IsOther, tag);
      }
    }
  }

  function IndexOf(ls: seq<License>, l: License): (i: nat)
    requires l in ls
    ensures i < |ls| && ls[i] == l
  {
    if ls[0] == l then 0 else 1 + IndexOf(ls[1..], l)
  }

  // Dropping the same license from both sides
  lemma StillIncluded(rest: seq<License>, servers: seq<License>, i: nat)
    requires rest != [] && i < |servers| && servers[i] == rest[0]
    requires multiset(rest) <= multiset(servers)
    ensures multiset(rest[1..]) <= multiset(Without(servers, i))
  {
    assert rest == [rest[0]] + rest[1..];
    assert servers == servers[..i] + [servers[i]] + servers[i + 1..];
    forall y ensures multiset(rest[1..])[y] <= multiset(Without(servers, i))[y] {
      assert multiset(rest)[y] <= multiset(servers)[y];
    }
  }

  // Phase one: match the used licenses with the reservations there are
  method MatchReserved(used: seq<License>, before: seq<License>) returns (servers: seq<License>, all: seq<License>)
    requires Ranked(before) && UniqueNames(before)
    requires forall l <- used :: l.username == FAKE_USER
    ensures MatchedAll(used, used, servers, all, before)
    ensures Ranked(all) && UniqueNames(all) && Within(all, before)
  {
    servers, all := used, before;
    for n := 0 to |used|
      invariant MatchedAll(used[..n], used, servers, all, before)
      invariant Ranked(all) && UniqueNames(all) && Within(all, before)
      invariant multiset(used[n..]) <= multiset(servers)
    {
      var server := used[n];
      assert used[..n + 1] == used[..n] + [server] && used[n..][0] == server && used[n..][1..] == used[n + 1..];
      assert server in multiset(used[n..]);
      var j := 0;
      while j < |all|
        invariant j <= |all|
        invariant forall k :: 0 <= k < j ==> all[k].tag != server.tag || all[k].username == ""
      {
        if all[j].tag == server.tag {
          if server.username == all[j].username { break; }
          if all[j].username != "" && server.username != all[j].username { break; }
        }
        j := j + 1;
      }
      if j < |all| {
        var i := IndexOf(servers, server);
        MatchOne(used[..n], used, servers, all, before, i, j);
        StillIncluded(used[n..], servers, i);
        WithoutKeeps(all, j);
        WithinTransitive(Without(all, j), all, before);
        all, servers := Without(all, j), Without(servers, i);
      } else {
        MatchNone(used[..n], server, used, servers, all, before);
        assert used[n..] == [server] + used[n + 1..];
        assert multiset(used[n + 1..]) <= multiset(used[n..]);
      }
    }
    assert used[..|used|] == used;
  }

  // ------------------------------------------------------------------ reserving and releasing

  // The cluster's record of one resource, by its full name
  function SetUser(resources: seq<License>, name: string, username: string): (r: seq<License>)
    ensures |r| == |resources|
  {
    seq(|resources|, i requires 0 <= i < |resources| =>
      if resources[i].name == name then resources[i].(username := username) else resources[i])
  }

  lemma SetUserReplaces(resources: seq<License>, l: License, username: string)
    requires UniqueNames(resources) && l in resources
    ensures SetUser(resources, l.name, username) == resources[IndexOf(resources, l) := l.(username := username)]
  {}

  // Everything but the user stays
  predicate SameLicenses(a: seq<License>, b: seq<License>) {
    |a| == |b| && forall i :: 0 <= i < |a| ==> b[i].name == a[i].name && b[i].tag == a[i].tag
  }

  // A user other than the fake one keeps what it has, and gets nothing
  predicate OthersUntouched(a: seq<License>, b: seq<License>) {
    SameLicenses(a, b) && forall i :: 0 <= i < |a| ==>
      (a[i].username != "" && a[i].username != FAKE_USER ==> b[i] == a[i])
      && (b[i].username != "" && b[i].username != FAKE_USER ==> b[i] == a[i])
  }

  lemma SetUserCounts(resources: seq<License>, l: License, username: string, tag: string)
    requires UniqueNames(resources) && l in resources
    requires (l.username == "" && username == FAKE_USER) || (l.username == FAKE_USER && username == "")
    ensures var r := SetUser(resources, l.name, username);
      && UniqueNames(r) && OthersUntouched(resources, r)
      && Fake(r, tag) == Fake(resources, tag) + (if l.tag != tag then 0 else if username == FAKE_USER then 1 else -1)
      && Free(r, tag) == Free(resources, tag) - (if l.tag != tag then 0 else if username == FAKE_USER then 1 else -1)
      && Other(r, tag) == Other(resources, tag)
  {
    SetUserReplaces(resources, l, username);
    var i := IndexOf(resources, l);
    CountReplace(resources, i, l.(username := username), IsFake, tag);
    CountReplace(resources, i, l.(username := username), IsFree, tag);
    CountReplace(resources, i, l.(username := username), IsOther, tag);
  }

  lemma SetUserKeeps(resources: seq<License>, name: string, username: string, part: seq<License>)
    requires Within(part, resources) && forall l <- part :: l.name != name
    ensures Within(part, SetUser(resources, name, username))
  {
    forall l <- part ensures l in SetUser(resources, name, username) {
      var i :| 0 <= i < |resources| && resources[i] == l;
      assert SetUser(resources, name, username)[i] == l;
    }
  }

  predicate Lists(ls: seq<License>, name: string) {
    exists l <- ls :: l.name == name
  }

  // Exactly the listed licenses have got this user, and nothing else has changed
  predicate GivenTo(start: seq<License>, now: seq<License>, listed: seq<License>, user: string) {
    |now| == |start| && forall i :: 0 <= i < |start| ==>
      now[i] == if Lists(listed, start[i].name) then start[i].(username := user) else start[i]
  }

  // They were there, with the other user
  predicate TakenFrom(start: seq<License>, listed: seq<License>, user: string) {
    forall l <- listed :: l in start && l.username == user
  }

  // None of these is listed
  predicate Apart(ls: seq<License>, listed: seq<License>) {
    forall l <- ls :: !Lists(listed, l.name)
  }

  lemma GivenOneMore(start: seq<License>, now: seq<License>, listed: seq<License>, l: License, from: string, to: string)
    requires GivenTo(start, now, listed, to) && TakenFrom(start, listed, from)
    requires l in now && l.username == from != to
    ensures GivenTo(start, SetUser(now, l.name, to), listed + [l], to) && TakenFrom(start, listed + [l], from)
  {
    var i :| 0 <= i < |now| && now[i] == l;
    assert start[i] == l;
    forall k | 0 <= k < |start|
      ensures Lists(listed + [l], start[k].name) <==> Lists(listed, start[k].name) || start[k].name == l.name
    {
      ListsOneMore(listed, l, start[k].name);
    }
  }

  lemma ListsOneMore(listed: seq<License>, l: License, name: string)
    ensures Lists(listed + [l], name) <==> Lists(listed, name) || l.name == name
  {
    if Lists(listed, name) {
      var x :| x in listed && x.name == name;
      assert x in listed + [l];
    }
    assert l in listed + [l];
  }

  lemma ApartOneMore(ls: seq<License>, j: nat, listed: seq<License>)
    requires j < |ls| && UniqueNames(ls) && Apart(ls, listed)
    ensures Apart(Without(ls, j), listed + [ls[j]])
  {
    WithoutKeeps(ls, j);
    forall l | l in Without(ls, j) ensures !Lists(listed + [ls[j]], l.name) {
      ListsOneMore(listed, ls[j], l.name);
    }
  }

  // Of the two lists of a run, exactly the reserved ones have become the fake user's, and exactly
  // the released ones free, and none is on both
  predicate RunChanges(start: seq<License>, end: seq<License>, reserved: seq<License>, released: seq<License>) {
    && TakenFrom(start, reserved, "") && TakenFrom(start, released, FAKE_USER) && Apart(released, reserved)
    && |end| == |start| && forall i :: 0 <= i < |start| ==>
      end[i] == if Lists(reserved, start[i].name) then start[i].(username := FAKE_USER)
        else if Lists(released, start[i].name) then start[i].(username := "")
        else start[i]
  }

  lemma PhasesChange(start: seq<License>, middle: seq<License>, end: seq<License>,
                     reserved: seq<License>, released: seq<License>)
    requires GivenTo(start, middle, reserved, FAKE_USER) && TakenFrom(start, reserved, "")
    requires GivenTo(middle, end, released, "") && TakenFrom(middle, released, FAKE_USER) && Apart(released, reserved)
    ensures RunChanges(start, end, reserved, released)
  {
    forall l | l in released ensures l in start {
      var i :| 0 <= i < |middle| && middle[i] == l;
      assert start[i] == l;
    }
    forall i | 0 <= i < |start| ensures !(Lists(reserved, start[i].name) && Lists(released, start[i].name)) {
      if Lists(released, start[i].name) {
        var l :| l in released && l.name == start[i].name;
      }
    }
  }

  class RetinaCluster {
    var resources: seq<License>

    predicate Valid()
      reads this
    {
      UniqueNames(resources)
    }

    constructor (resources: seq<License>)
      requires UniqueNames(resources)
      ensures Valid() && this.resources == resources
    {
      this.resources := resources;
    }

    method Reserve(name: string)
      modifies this
      ensures resources == SetUser(old(resources), name, FAKE_USER)
    {
      resources := SetUser(resources, name, FAKE_USER);
    }

    method Release(name: string)
      modifies this
      ensures resources == SetUser(old(resources), name, "")
    {
      resources := SetUser(resources, name, "");
    }

    // Phase two: reserve a free license for each used one that is still unmatched
    method ReserveFree(servers: seq<License>, before: seq<License>) returns (all: seq<License>, reserved: seq<License>)
      requires Valid() && UniqueNames(before) && Within(before, resources)
      modifies this
      ensures Valid() && OthersUntouched(old(resources), resources)
      ensures UniqueNames(all) && Within(all, resources)
      ensures ReservedAll(servers, old(resources), resources, before, all, reserved)
      ensures GivenTo(old(resources), resources, reserved, FAKE_USER) && TakenFrom(old(resources), reserved, "")
      ensures Apart(all, reserved) && Within(all, before)
      ensures reserved == [] ==> resources == old(resources)
    {
      all, reserved := before, [];
      for n := 0 to |servers|
        invariant Valid() && OthersUntouched(old(resources), resources)
        invariant UniqueNames(all) && Within(all, resources)
        invariant ReservedAll(servers[..n], old(resources), resources, before, all, reserved)
        invariant GivenTo(old(resources), resources, reserved, FAKE_USER) && TakenFrom(old(resources), reserved, "")
        invariant Apart(all, reserved) && Within(all, before)
        invariant reserved == [] ==> resources == old(resources)
      {
        var server := servers[n];
        var j := 0;
        while j < |all| && !(all[j].tag == server.tag && all[j].username == "")
          invariant j <= |all|
          invariant forall k :: 0 <= k < j ==> !IsFree(all[k], server.tag)
        {
          j := j + 1;
        }
        assert servers[..n + 1] == servers[..n] + [server];
        if j < |all| {
          var l := all[j];
          ReserveOne(servers[..n], server, old(resources), resources, before, all, reserved, j);
          GivenOneMore(old(resources), resources, reserved, l, "", FAKE_USER);
          ApartOneMore(all, j, reserved);
          WithoutKeeps(all, j);
          WithinTransitive(Without(all, j), all, before);
          Reserve(l.name);
          all, reserved := Without(all, j), reserved + [l];
        } else {
          ReserveNone(servers[..n], server, old(resources), resources, before, all, reserved);
        }
      }
      assert servers[..|servers|] == servers;
    }

    // Phase three: release what the fake user holds beyond what is used
    method ReleaseUnused(all: seq<License>) returns (released: seq<License>)
      requires Valid() && UniqueNames(all) && Within(all, resources)
      modifies this
      ensures Valid() && OthersUntouched(old(resources), resources)
      ensures ReleasedAll(all, old(resources), resources, released)
      ensures GivenTo(old(resources), resources, released, "") && TakenFrom(old(resources), released, FAKE_USER)
      ensures Within(released, all)
      ensures released == [] ==> resources == old(resources)
    {
      released := [];
      for n := 0 to |all|
        invariant Valid() && OthersUntouched(old(resources), resources)
        invariant Within(all[n..], resources)
        invariant ReleasedAll(all[..n], old(resources), resources, released)
        invariant GivenTo(old(resources), resources, released, "") && TakenFrom(old(resources), released, FAKE_USER)
        invariant Within(released, all)
        invariant released == [] ==> resources == old(resources)
      {
        var l := all[n];
        assert all[n..][0] == l && all[n + 1..] == all[n..][1..] && all[..n + 1] == all[..n] + [l];
        ReleaseOne(all, n, old(resources), resources, released);
        if l.username == FAKE_USER {
          GivenOneMore(old(resources), resources, released, l, FAKE_USER, "");
          Release(l.name);
          released := released + [l];
        }
      }
      assert all[..|all|] == all;
    }

    // _sync_license_reservations: `used` are the ids and tags the license server reports
    method Sync(used: seq<(string, string)>) returns (reserved: seq<License>, released: seq<License>)
      requires Valid()
      modifies this
      ensures Valid() && OthersUntouched(old(resources), resources)
      ensures forall tag :: Synced(InUse(used, tag), old(resources), resources, reserved, released, tag)
      ensures RunChanges(old(resources), resources, reserved, released)
      ensures reserved == [] && released == [] ==> resources == old(resources)
    {
      var servers: seq<License> := [];
      for n := 0 to |used|
        invariant forall l <- servers :: l.username == FAKE_USER
        invariant forall tag :: Used(servers, tag) == InUse(used[..n], tag)
      {
        assert used[..n + 1][..n] == used[..n];
        if used[n].1 != "" {
          var l := License(used[n].0, used[n].1, FAKE_USER);
          forall tag ensures Used(servers + [l], tag) == Used(servers, tag) + (if l.tag == tag then 1 else 0) {
            CountAppend(servers, [l], HasTag, tag);
          }
          servers := servers + [l];
        }
      }
      assert used[..|used|] == used;
      SortedIsRanked(resources);
      SortedKeepsNames(resources);
      ghost var start := resources;
      var all := Sorted(resources);
      ghost var wanted := servers;
      servers, all := MatchReserved(servers, all);
      WithinTransitive(all, Sorted(start), start);
      ghost var matched := all;
      all, reserved := ReserveFree(servers, all);
      ghost var middle := resources;
      ghost var left := all;
      released := ReleaseUnused(all);
      PhasesChange(start, middle, resources, reserved, released);
      forall tag ensures Synced(InUse(used, tag), start, resources, reserved, released, tag) {
        PhasesSync(wanted, servers, start, matched, middle, left, resources, reserved, released, tag);
      }
    }

    // Running it again, while the same licenses are used, touches nothing
    method SyncTwice(used: seq<(string, string)>) returns (reserved: seq<License>, released: seq<License>)
      requires Valid()
      modifies this
      ensures reserved == [] && released == []
    {
      var r1, r2 := Sync(used);
      ghost var start, first := old(resources), resources;
      reserved, released := Sync(used);
      forall tag ensures Used(reserved, tag) == 0 && Used(released, tag) == 0 {
        assert Synced(InUse(used, tag), start, first, r1, r2, tag);
        assert Synced(InUse(used, tag), first, resources, reserved, released, tag);
        TargetIsStable(InUse(used, tag), Fake(start, tag), Other(start, tag), Free(start, tag));
      }
      if reserved != [] {
        SomeTagIsUsed(reserved);
        assert false;
      }
      if released != [] {
        SomeTagIsUsed(released);
        assert false;
      }
    }
  }

  // Used licenses of a tag; those reported without one are skipped
  function InUse(used: seq<(string, string)>, tag: string): nat {
    if used == [] then 0
    else InUse(used[..|used| - 1], tag) + if used[|used| - 1].1 == tag && tag != "" then 1 else 0
  }

  // Where the license server reports a use of the tag
  function UsesOf(used: seq<(string, string)>, tag: string): set<nat> {
    set n: nat | n < |used| && used[n].1 == tag
  }

  // Of each tag but the empty one, what is in use is what the license server reports of it
  lemma {:induction false} InUseIsReported(used: seq<(string, string)>, tag: string)
    ensures InUse(used, tag) == if tag == "" then 0 else |UsesOf(used, tag)|
  {
    if used != [] {
      var n := |used| - 1;
      InUseIsReported(used[..n], tag);
      assert UsesOf(used, tag) == UsesOf(used[..n], tag) + if used[n].1 == tag then {n} else {};
    }
  }

  // Counting is counting places
  lemma {:induction false} CountIsSize(ls: seq<License>, p: (License, string) -> bool, tag: string)
    ensures Count(ls, p, tag) == |PlacesOf(ls, p, tag)|
  {
    if ls != [] {
      var n := |ls| - 1;
      CountIsSize(ls[..n], p, tag);
      CountWithout(ls, n, p, tag);
      assert Without(ls, n) == ls[..n];
      assert PlacesOf(ls, p, tag) == PlacesOf(ls[..n], p, tag) + if p(ls[n], tag) then {n} else {};
    }
  }

  function PlacesOf(ls: seq<License>, p: (License, string) -> bool, tag: string): set<nat> {
    set n: nat | n < |ls| && p(ls[n], tag)
  }

  // The whole effect of a run on one tag
  ghost predicate Synced(used: nat, start: seq<License>, end: seq<License>, reserved: seq<License>,
      released: seq<License>, tag: string) {
    var f, o, e := Fake(start, tag), Other(start, tag), Free(start, tag);
    && Used(reserved, tag) == Min(Max(0, used - f - o), e)
    && Used(released, tag) == f - Min(used, f)
    && Fake(end, tag) == Target(used, f, o, e)
    && Other(end, tag) == o
    && Free(end, tag) == f + e - Fake(end, tag)
  }

  // A second run finds nothing to reserve and nothing to release
  lemma TargetIsStable(used: nat, fake: nat, other: nat, free: nat)
    ensures var held := Target(used, fake, other, free);
      && held <= used
      && Min(Max(0, used - held - other), fake + free - held) == 0
      && Target(used, held, other, fake + free - held) == held
  {}

  lemma SomeTagIsUsed(ls: seq<License>)
    requires ls != []
    ensures exists tag :: Used(ls, tag) > 0
  {
    CountPositive(ls, HasTag, ls[0].tag, 0);
    assert Used(ls, ls[0].tag) > 0;
  }

  // The state of the second phase once some unmatched licenses of a tag were looked at
  ghost predicate Reserved(done: nat, start: seq<License>, now: seq<License>, before: seq<License>,
      all: seq<License>, reserved: seq<License>, tag: string) {
    && Free(all, tag) == Free(before, tag) - Min(done, Free(before, tag))
    && Fake(all, tag) == Fake(before, tag)
    && Used(reserved, tag) == Min(done, Free(before, tag))
    && Fake(now, tag) == Fake(start, tag) + Used(reserved, tag)
    && Free(now, tag) == Free(start, tag) - Used(reserved, tag)
    && Other(now, tag) == Other(start, tag)
  }

  ghost predicate ReservedAll(done: seq<License>, start: seq<License>, now: seq<License>, before: seq<License>,
      all: seq<License>, reserved: seq<License>) {
    forall tag :: Reserved(Used(done, tag), start, now, before, all, reserved, tag)
  }

  lemma ReserveOne(done: seq<License>, server: License, start: seq<License>, now: seq<License>, before: seq<License>,
      all: seq<License>, reserved: seq<License>, j: nat)
    requires UniqueNames(now) && UniqueNames(all) && Within(all, now) && OthersUntouched(start, now)
    requires j < |all| && IsFree(all[j], server.tag)
    requires ReservedAll(done, start, now, before, all, reserved)
    ensures var next := SetUser(now, all[j].name, FAKE_USER);
      && UniqueNames(next) && OthersUntouched(start, next)
      && UniqueNames(Without(all, j)) && Within(Without(all, j), next)
      && ReservedAll(done + [server], start, next, before, Without(all, j), reserved + [all[j]])
  {
    var l, next := all[j], SetUser(now, all[j].name, FAKE_USER);
    SetUserCounts(now, l, FAKE_USER, l.tag);
    WithoutKeeps(all, j);
    WithinTransitive(Without(all, j), all, now);
    SetUserKeeps(now, l.name, FAKE_USER, Without(all, j));
    forall tag ensures Reserved(Used(done + [server], tag), start, next, before, Without(all, j), reserved + [l], tag) {
      assert Reserved(Used(done, tag), start, now, before, all, reserved, tag);
      SetUserCounts(now, l, FAKE_USER, tag);
      CountWithout(all, j, IsFree, tag);
      CountWithout(all, j, IsFake, tag);
      CountAppend(reserved, [l], HasTag, tag);
      CountAppend(done, [server], HasTag, tag);
      if l.tag == tag { CountPositive(all, IsFree, tag, j); }
    }
  }

  lemma ReserveNone(done: seq<License>, server: License, start: seq<License>, now: seq<License>,
      before: seq<License>, all: seq<License>, reserved: seq<License>)
    requires forall l <- all :: !IsFree(l, server.tag)
    requires ReservedAll(done, start, now, before, all, reserved)
    ensures ReservedAll(done + [server], start, now, before, all, reserved)
  {
    forall tag ensures Reserved(Used(done + [server], tag), start, now, before, all, reserved, tag) {
      assert Reserved(Used(done, tag), start, now, before, all, reserved, tag);
      CountAppend(done, [server], HasTag, tag);
      if tag == server.tag { CountZero(all, IsFree, tag); }
    }
  }

  ghost predicate Released(done: seq<License>, start: seq<License>, now: seq<License>, released: seq<License>,
      tag: string) {
    && Used(released, tag) == Fake(done, tag)
    && Fake(now, tag) == Fake(start, tag) - Fake(done, tag)
    && Free(now, tag) == Free(start, tag) + Fake(done, tag)
    && Other(now, tag) == Other(start, tag)
  }

  ghost predicate ReleasedAll(done: seq<License>, start: seq<License>, now: seq<License>, released: seq<License>) {
    forall tag :: Released(done, start, now, released, tag)
  }

  lemma ReleaseOne(all: seq<License>, n: nat, start: seq<License>, now: seq<License>, released: seq<License>)
    requires n < |all| && UniqueNames(all) && UniqueNames(now) && Within(all[n..], now) && OthersUntouched(start, now)
    requires ReleasedAll(all[..n], start, now, released)
    ensures var fake := all[n].username == FAKE_USER;
      var next := if fake then SetUser(now, all[n].name, "") else now;
      && UniqueNames(next) && OthersUntouched(start, next) && Within(all[n + 1..], next)
      && ReleasedAll(all[..n] + [all[n]], start, next, if fake then released + [all[n]] else released)
  {
    var l := all[n];
    var next := if l.username == FAKE_USER then SetUser(now, l.name, "") else now;
    assert all[n..][0] == l && forall x <- all[n + 1..] :: x in all[n..] && x.name != l.name;
    if l.username == FAKE_USER { ReleaseKeeps(l, start, now, all[n + 1..]); }
    var more := if l.username == FAKE_USER then released + [l] else released;
    forall tag ensures Released(all[..n] + [l], start, next, more, tag) {
      assert Released(all[..n], start, now, released, tag);
      if l.username == FAKE_USER {
        ReleaseOneTag(all[..n], l, start, now, released, tag);
      } else {
        CountAppend(all[..n], [l], IsFake, tag);
      }
    }
  }

  lemma ReleaseKeeps(l: License, start: seq<License>, now: seq<License>, rest: seq<License>)
    requires UniqueNames(now) && l in now && l.username == FAKE_USER && OthersUntouched(start, now)
    requires Within(rest, now) && forall x <- rest :: x.name != l.name
    ensures var next := SetUser(now, l.name, "");
      UniqueNames(next) && OthersUntouched(start, next) && Within(rest, next)
  {
    SetUserCounts(now, l, "", l.tag);
    SetUserKeeps(now, l.name, "", rest);
  }

  lemma ReleaseOneTag(
    done: seq<License>, l: License, start: seq<License>, now: seq<License>, released: seq<License>, tag: string
  )
    requires UniqueNames(now) && l in now && l.username == FAKE_USER && Released(done, start, now, released, tag)
    ensures Released(done + [l], start, SetUser(now, l.name, ""), released + [l], tag)
  {
    CountAppend(done, [l], IsFake, tag);
    CountAppend(released, [l], HasTag, tag);
    SetUserCounts(now, l, "", tag);
  }

  lemma PhasesSync(wanted: seq<License>, servers: seq<License>, start: seq<License>, matched: seq<License>,
                   middle: seq<License>, left: seq<License>, end: seq<License>,
                   reserved: seq<License>, released: seq<License>, tag: string)
    requires MatchedAll(wanted, wanted, servers, matched, Sorted(start))
    requires ReservedAll(servers, start, middle, matched, left, reserved)
    requires ReleasedAll(left, middle, end, released)
    ensures Synced(Used(wanted, tag), start, end, reserved, released, tag)
  {
    SortedIsRanked(start);
    CountPermuted(Sorted(start), start, IsFake, tag);
    CountPermuted(Sorted(start), start, IsOther, tag);
    CountPermuted(Sorted(start), start, IsFree, tag);
    var s, f, o, e := Used(wanted, tag), Fake(start, tag), Other(start, tag), Free(start, tag);
    assert Matched(s, s, servers, matched, Sorted(start), tag);
    assert Used(servers, tag) == Max(0, s - f - o) && Fake(matched, tag) == f - Min(s, f) && Free(matched, tag) == e;
    assert Reserved(Used(servers, tag), start, middle, matched, left, reserved, tag);
    assert Used(reserved, tag) == Min(Max(0, s - f - o), e) && Fake(left, tag) == f - Min(s, f);
    assert Released(left, middle, end, released, tag);
  }
}
