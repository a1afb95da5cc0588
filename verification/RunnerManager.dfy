/**
 Pausing CI runners: which runners a cron run disables and enables, how it changes each of
 them, and who owns a pause when administrators pause runners too.
 */
module RunnerManager {
  import opened Wrappers
  import opened Sequences

  const RETINA_TAG := "paused-by-retina"

  // A runner as the server keeps it
  datatype Runner = Runner(online: bool, paused: bool, tags: seq<string>)

  // ------------------------------------------------------------------ tags

  function IndexOf(tags: seq<string>, tag: string): (i: nat)
    requires tag in tags
    ensures i < |tags| && tags[i] == tag && tag !in tags[..i]
  {
    if tags[0] == tag then 0 else 1 + IndexOf(tags[1..], tag)
  }

  function Pop(tags: seq<string>, i: nat): seq<string>
    requires i < |tags|
  {
    tags[..i] + tags[i + 1..]
  }

  function Count(tags: seq<string>): (n: nat)
    ensures n == 0 <==> RETINA_TAG !in tags
  {
    if tags == [] then 0 else (if tags[0] == RETINA_TAG then 1 else 0) + Count(tags[1..])
  }

  // The tags that are not Retina's
  function Others(tags: seq<string>): seq<string> {
    if tags == [] then [] else (if tags[0] == RETINA_TAG then [] else [tags[0]]) + Others(tags[1..])
  }

  lemma {:induction false} TagsOfConcat(a: seq<string>, b: seq<string>)
    ensures Count(a + b) == Count(a) + Count(b) && Others(a + b) == Others(a) + Others(b)
  {
    if a == [] {
      assert a + b == b;
    } else {
      assert (a + b)[1..] == a[1..] + b;
      TagsOfConcat(a[1..], b);
    }
  }

  lemma {:induction false} NoTagNoChange(tags: seq<string>)
    requires RETINA_TAG !in tags
    ensures Others(tags) == tags
  {
    if tags != [] { NoTagNoChange(tags[1..]); }
  }

  lemma PopCons(tag: string, tags: seq<string>, i: nat)
    requires i < |tags|
    ensures Pop([tag] + tags, i + 1) == [tag] + Pop(tags, i)
  {
  }

  lemma TagsOfCons(tag: string, tags: seq<string>)
    ensures Count([tag] + tags) == (if tag == RETINA_TAG then 1 else 0) + Count(tags)
    ensures Others([tag] + tags) == (if tag == RETINA_TAG then [] else [tag]) + Others(tags)
  {
    assert ([tag] + tags)[1..] == tags;
  }

  lemma {:induction false} PopTag(tags: seq<string>)
    requires RETINA_TAG in tags
    ensures var left := Pop(tags, IndexOf(tags, RETINA_TAG));
      Count(left) == Count(tags) - 1 && Others(left) == Others(tags)
  {
    var rest := tags[1..];
    if tags[0] == RETINA_TAG {
      assert Pop(tags, 0) == rest;
    } else {
      var i := IndexOf(rest, RETINA_TAG);
      PopTag(rest);
      PopCons(tags[0], rest, i);
      TagsOfCons(tags[0], Pop(rest, i));
      assert tags == [tags[0]] + rest;
    }
  }

  lemma PushTag(tags: seq<string>)
    ensures Count(tags + [RETINA_TAG]) == Count(tags) + 1 && Others(tags + [RETINA_TAG]) == Others(tags)
  {
    TagsOfConcat(tags, [RETINA_TAG]);
    assert Count([RETINA_TAG]) == 1 && Others([RETINA_TAG]) == [];
  }

  // ------------------------------------------------------------------ changing one runner

  // A runner paused by somebody else
  predicate Foreign(r: Runner) {
    r.paused && RETINA_TAG !in r.tags
  }

  function Changed(r: Runner, paused: bool): Runner {
    if !r.online || r.paused == paused || Foreign(r) then r
    else if paused then r.(paused := true, tags := r.tags + [RETINA_TAG])
    else r.(paused := false, tags := Pop(r.tags, IndexOf(r.tags, RETINA_TAG)))
  }

  // What a change may do: never to a foreign pause, never to other tags, and the number of
  // Retina's tags follows the change of the pause.
  lemma ChangeIsOwned(r: Runner, paused: bool)
    ensures var c := Changed(r, paused);
      && (Foreign(r) || !r.online ==> c == r)
      && (r.online && !Foreign(r) ==> c.paused == paused)
      && Others(c.tags) == Others(r.tags)
      && Count(c.tags) - Count(r.tags) == (if c.paused then 1 else 0) - (if r.paused then 1 else 0)
      && c.online == r.online
      && (c.paused == r.paused ==> c == r)
      && (c.paused && !r.paused ==> c.tags == r.tags + [RETINA_TAG])
      && (!c.paused && r.paused ==> FirstTagRemoved(r.tags, c.tags))
  {
    if r.online && r.paused != paused && !Foreign(r) {
      if paused { PushTag(r.tags); } else { PopTag(r.tags); }
    }
  }

  // The first of Retina's tags is gone, and no other tag
  predicate FirstTagRemoved(before: seq<string>, after: seq<string>) {
    exists i :: 0 <= i < |before| && before[i] == RETINA_TAG && RETINA_TAG !in before[..i]
      && after == before[..i] + before[i + 1..]
  }

  // Pausing and enabling an untagged runner gives it back as it was
  lemma EnableUndoesPause(r: Runner)
    requires r.online && !r.paused && RETINA_TAG !in r.tags
    ensures Changed(r, true) != r && Changed(Changed(r, true), false) == r
  {
    var tagged := r.tags + [RETINA_TAG];
    PushedTagIsLast(r.tags);
    assert Pop(tagged, |r.tags|) == r.tags;
  }

  lemma {:induction false} PushedTagIsLast(tags: seq<string>)
    requires RETINA_TAG !in tags
    ensures IndexOf(tags + [RETINA_TAG], RETINA_TAG) == |tags|
  {
    if tags != [] {
      PushedTagIsLast(tags[1..]);
      assert (tags + [RETINA_TAG])[1..] == tags[1..] + [RETINA_TAG];
    }
  }

  // One request to change a runner, and whether the server saved it
  datatype Call = Call(id: int, paused: bool, saved: bool)

  function Called(runners: map<int, Runner>, c: Call): map<int, Runner> {
    if c.id in runners && c.saved then runners[c.id := Changed(runners[c.id], c.paused)] else runners
  }

  // ------------------------------------------------------------------ choosing the runners

  // A runner of the configuration, and the modes in which it is disabled
  datatype Entry = Entry(id: int, disableWhen: seq<string>)

  function Lower(s: string): string {
    if s == [] then [] else [if 'A' <= s[0] <= 'Z' then s[0] - 'A' + 'a' else s[0]] + Lower(s[1..])
  }

  function Ids(entries: seq<Entry>): (ids: set<int>) {
    set e | e in entries :: e.id
  }

  // The runners of one node; a node without an entry has none
  function OfNode(byNode: map<string, seq<Entry>>, node: string): seq<Entry> {
    if node in byNode then byNode[node] else []
  }

  function IdsOfNodes(byNode: map<string, seq<Entry>>, nodes: seq<string>): set<int> {
    set node, e | node in nodes && e in OfNode(byNode, node) :: e.id
  }

  predicate DisabledByTime(e: Entry, mode: string) {
    mode != "" && Lower(mode) in e.disableWhen
  }

  // A runner of a blocked node, or one the mode disables
  predicate ToDisable(byNode: map<string, seq<Entry>>, nodes: seq<string>, blocked: seq<string>, mode: string,
      id: int) {
    exists node, e :: node in nodes && e in OfNode(byNode, node) && e.id == id
      && (node in blocked || DisabledByTime(e, mode))
  }

  // The same letters, in lower case
  predicate IsInLowerCase(low: string, s: string) {
    |low| == |s| && forall i :: 0 <= i < |s| ==> IsLetterInLowerCase(low[i], s[i])
  }

  predicate IsLetterInLowerCase(low: char, c: char) {
    low as int == c as int + if 'A' <= c <= 'Z' then 32 else 0
  }

  lemma {:induction false} LowerIsLowerCase(s: string)
    ensures IsInLowerCase(Lower(s), s)
  {
    if s != [] {
      var low, rest := Lower(s), Lower(s[1..]);
      LowerIsLowerCase(s[1..]);
      assert low == [low[0]] + rest && IsLetterInLowerCase(low[0], s[0]);
      forall i | 0 <= i < |s| ensures IsLetterInLowerCase(low[i], s[i]) {
        if i > 0 { assert IsLetterInLowerCase(rest[i - 1], s[1..][i - 1]); }
      }
    }
  }

  lemma OneLowerCase(low: string, s: string)
    ensures IsInLowerCase(low, s) <==> low == Lower(s)
  {
    LowerIsLowerCase(s);
    if IsInLowerCase(low, s) {
      forall i | 0 <= i < |s| ensures low[i] == Lower(s)[i] {
        assert IsLetterInLowerCase(low[i], s[i]) && IsLetterInLowerCase(Lower(s)[i], s[i]);
      }
    }
  }

  // A runner is to be disabled exactly when it is one of a blocked node, or there is a mode, and
  // the modes listed for it have it in lower case
  lemma DisabledWhen(byNode: map<string, seq<Entry>>, nodes: seq<string>, blocked: seq<string>, mode: string, id: int)
    ensures ToDisable(byNode, nodes, blocked, mode, id) <==>
      exists node, e :: node in nodes && node in byNode && e in byNode[node] && e.id == id
        && (node in blocked || (mode != "" && exists low <- e.disableWhen :: IsInLowerCase(low, mode)))
  {
    forall low ensures IsInLowerCase(low, mode) <==> low == Lower(mode) { OneLowerCase(low, mode); }
  }

  method Pick<T>(s: set<T>) returns (x: T)
    requires s != {}
    ensures x in s
  {
    x :| x in s;
  }

  // The elements in an order that nothing is known about
  method ListOf(s: set<int>) returns (r: seq<int>)
    ensures Distinct(r) && Elements(r) == s
  {
    r := [];
    var left := s;
    while left != {}
      invariant Distinct(r) && Elements(r) !! left && Elements(r) + left == s
      decreases left
    {
      var x := Pick(left);
      r := r + [x];
      left := left - {x};
    }
  }

  // get_runner_to_disable_by_time
  method RunnersToDisableByTime(entries: seq<Entry>, mode: string) returns (ids: seq<int>)
    ensures forall id :: id in ids <==> exists e :: e in entries && DisabledByTime(e, mode) && e.id == id
  {
    ids := [];
    if mode == "" { return; }
    for k := 0 to |entries|
      invariant forall id :: id in ids <==> exists e :: e in entries[..k] && DisabledByTime(e, mode) && e.id == id
    {
      assert entries[..k + 1] == entries[..k] + [entries[k]];
      if Lower(mode) in entries[k].disableWhen { ids := ids + [entries[k].id]; }
    }
    assert entries[..|entries|] == entries;
  }

  // get_runners_to_disable_enable: disjoint lists without repetitions, which share out all the
  // runners of the cluster's nodes
  method GetRunnersToDisableEnable(
    byNode: map<string, seq<Entry>>, nodes: seq<string>, blocked: seq<string>, mode: string
  ) returns (disable: seq<int>, enable: seq<int>)
    ensures Distinct(disable) && Distinct(enable)
    ensures Elements(disable) !! Elements(enable) && Elements(disable) + Elements(enable) == IdsOfNodes(byNode, nodes)
    ensures forall id :: id in disable <==> ToDisable(byNode, nodes, blocked, mode, id)
  {
    var all: seq<Entry> := [];
    for k := 0 to |nodes|
      invariant forall e :: e in all <==> exists node :: node in nodes[..k] && e in OfNode(byNode, node)
    {
      assert nodes[..k + 1] == nodes[..k] + [nodes[k]];
      all := all + OfNode(byNode, nodes[k]);
    }
    assert nodes[..|nodes|] == nodes;
    var busy: seq<Entry> := [];
    for k := 0 to |blocked|
      invariant forall e :: e in busy <==>
                  exists node :: node in blocked[..k] && node in nodes && e in OfNode(byNode, node)
    {
      assert blocked[..k + 1] == blocked[..k] + [blocked[k]];
      if blocked[k] in nodes { busy := busy + OfNode(byNode, blocked[k]); }
    }
    assert blocked[..|blocked|] == blocked;
    var byTime := RunnersToDisableByTime(all, mode);
    var off := Ids(busy) + Elements(byTime);
    assert off <= Ids(all) by {
      forall id | id in off
        ensures id in Ids(all)
      {
        if id in byTime {
          var e :| e in all && DisabledByTime(e, mode) && e.id == id;
        } else {
          var e :| e in busy && e.id == id;
          assert e in all;
        }
      }
    }
    enable := ListOf(Ids(all) - off);
    disable := ListOf(off);
    assert Ids(all) == IdsOfNodes(byNode, nodes);
    assert forall id :: id in disable <==> id in Elements(disable);
  }

  // ------------------------------------------------------------------ a cron run

  // The runners after a run over these sets; saves says whose change the server saved
  function Ran(runners: map<int, Runner>, disable: set<int>, enable: set<int>, saves: int -> bool)
    : (after: map<int, Runner>)
    ensures after.Keys == runners.Keys
  {
    map id | id in runners ::
      if !saves(id) then runners[id]
      else if id in disable then Changed(runners[id], true)
      else if id in enable then Changed(runners[id], false)
      else runners[id]
  }

  // After a saved run with every runner online, a runner is paused exactly when it is to be
  // disabled or somebody else had paused it
  lemma FullRunSettles(runners: map<int, Runner>, disable: set<int>, enable: set<int>, saves: int -> bool, id: int)
    requires id in runners && id in disable + enable
    requires runners[id].online && saves(id)
    ensures Ran(runners, disable, enable, saves)[id].paused <==> id in disable || Foreign(runners[id])
  {
    ChangeIsOwned(runners[id], id in disable);
  }

  // The run changes only runners of its two lists whose change is saved, which are online and not
  // paused by somebody else: those are then paused exactly when they are to be disabled
  lemma RunIs(runners: map<int, Runner>, disable: set<int>, enable: set<int>, saves: int -> bool, id: int)
    requires id in runners && disable !! enable
    ensures var before, after := runners[id], Ran(runners, disable, enable, saves)[id];
      var changes := saves(id) && id in disable + enable && before.online && !Foreign(before);
      && after.paused == (if changes then id in disable else before.paused)
      && (after.paused == before.paused ==> after == before)
      && after.online == before.online && Others(after.tags) == Others(before.tags)
  {
    ChangeIsOwned(runners[id], true);
    ChangeIsOwned(runners[id], false);
  }

  class RunnerManager {
    // The runners the server knows
    var runners: map<int, Runner>

    // change_runner_status; an unknown runner, and a change that is not saved, are only logged
    method ChangeRunnerStatus(c: Call)
      modifies this
      ensures runners == Called(old(runners), c)
      ensures c.id !in old(runners) || !c.saved ==> runners == old(runners)
      ensures c.id in old(runners) && c.saved ==>
        runners == old(runners)[c.id := Changed(old(runners)[c.id], c.paused)]
    {
      if c.id !in runners { return; }
      var r := runners[c.id];
      var tags := r.tags;
      if r.online && r.paused != c.paused {
        if r.paused && RETINA_TAG !in tags { return; }
        if c.paused {
          tags := tags + [RETINA_TAG];
        } else {
          tags := Pop(tags, IndexOf(tags, RETINA_TAG));
        }
        if c.saved { runners := runners[c.id := Runner(r.online, c.paused, tags)]; }
      }
    }

    // main: enables, then disables, the runners of the two lists
    method RunOnce(byNode: map<string, seq<Entry>>, nodes: seq<string>, blocked: seq<string>, mode: string,
        saves: int -> bool)
      returns (disable: seq<int>, enable: seq<int>)
      modifies this
      ensures Elements(disable) !! Elements(enable) && Elements(disable) + Elements(enable) == IdsOfNodes(byNode, nodes)
      ensures forall id :: id in disable <==> ToDisable(byNode, nodes, blocked, mode, id)
      ensures runners == Ran(old(runners), Elements(disable), Elements(enable), saves)
    {
      disable, enable := GetRunnersToDisableEnable(byNode, nodes, blocked, mode);
      for k := 0 to |enable|
        invariant runners == Ran(old(runners), {}, Elements(enable[..k]), saves)
      {
        NextCall(old(runners), {}, Elements(enable[..k]), saves, enable[k], false);
        NextElement(enable, k);
        ChangeRunnerStatus(Call(enable[k], false, saves(enable[k])));
      }
      assert enable[..|enable|] == enable && disable[..|disable|] == disable;
      for k := 0 to |disable|
        invariant runners == Ran(old(runners), Elements(disable[..k]), Elements(enable), saves)
      {
        assert disable[k] in Elements(disable);
        NextCall(old(runners), Elements(disable[..k]), Elements(enable), saves, disable[k], true);
        NextElement(disable, k);
        ChangeRunnerStatus(Call(disable[k], true, saves(disable[k])));
      }
    }
  }

  lemma NextElement(s: seq<int>, k: nat)
    requires k < |s|
    ensures Elements(s[..k + 1]) == Elements(s[..k]) + {s[k]}
  {
    assert s[..k + 1] == s[..k] + [s[k]];
  }

  // A call for a runner the run has not reached yet
  lemma NextCall(runners: map<int, Runner>, disable: set<int>, enable: set<int>, saves: int -> bool, id: int,
      paused: bool)
    requires id !in disable && id !in enable
    ensures Called(Ran(runners, disable, enable, saves), Call(id, paused, saves(id)))
      == Ran(runners, if paused then disable + {id} else disable, if paused then enable else enable + {id}, saves)
  {
  }

  // ------------------------------------------------------------------ any number of runs

  // Who paused a runner
  datatype Pauser = Nobody | Admin | Retina

  // What a change has read of a runner, before it is saved
  datatype Reading = Reading(id: int, runner: Runner, paused: bool)

  // The server's runners, who paused each, and the change under way
  datatype Fleet = Fleet(runners: map<int, Runner>, pausers: map<int, Pauser>, reading: Option<Reading>)

  // What happens between and during runs: a change reads a runner, and saves it; runners go on
  // and off line; administrators pause and unpause
  datatype Event =
    | Fetch(id: int, paused: bool)
    | Save(saved: bool)
    | Reach(id: int, online: bool)
    | AdminPause(id: int)
    | AdminUnpause(id: int)

  // Saving overwrites the pause and the tags with those made from what was read
  function Saved(f: Fleet, r: Reading): (after: Fleet)
    requires f.pausers.Keys == f.runners.Keys
    ensures after.pausers.Keys == after.runners.Keys == f.runners.Keys
  {
    var change := Changed(r.runner, r.paused);
    if change == r.runner || r.id !in f.runners then f
    else
      var now := f.runners[r.id];
      f.(runners := f.runners[r.id := now.(paused := change.paused, tags := change.tags)],
         pausers := if now.paused == change.paused then f.pausers
           else f.pausers[r.id := if change.paused then Retina else Nobody])
  }

  function Happen(f: Fleet, e: Event): (after: Fleet)
    requires f.pausers.Keys == f.runners.Keys
    ensures after.pausers.Keys == after.runners.Keys == f.runners.Keys
  {
    match e
    case Fetch(id, paused) => f.(reading := if id in f.runners then Some(Reading(id, f.runners[id], paused)) else None)
    case Save(saved) => (if saved && f.reading.Some? then Saved(f, f.reading.value) else f).(reading := None)
    case Reach(id, online) =>
      if id in f.runners then f.(runners := f.runners[id := f.runners[id].(online := online)]) else f
    case AdminPause(id) =>
      if id in f.runners && !f.runners[id].paused
      then f.(runners := f.runners[id := f.runners[id].(paused := true)], pausers := f.pausers[id := Admin]) else f
    case AdminUnpause(id) =>
      if id in f.runners && f.runners[id].paused
      then f.(runners := f.runners[id := f.runners[id].(paused := false)], pausers := f.pausers[id := Nobody]) else f
  }

  // Reading and saving with nothing in between is one call
  lemma FetchThenSave(f: Fleet, c: Call)
    requires f.pausers.Keys == f.runners.Keys
    ensures Happen(Happen(f, Fetch(c.id, c.paused)), Save(c.saved)).runners == Called(f.runners, c)
  {
    if c.id in f.runners { ChangeIsOwned(f.runners[c.id], c.paused); }
  }

  // The tag is there once on the runners Retina paused, and nowhere else
  predicate TagTells(r: Runner, pauser: Pauser) {
    (r.paused <==> pauser != Nobody) && Count(r.tags) == if pauser == Retina then 1 else 0
  }

  // A change that would pause, and one that would enable, if it is saved
  predicate WouldPause(r: Reading) { r.paused && Changed(r.runner, true) != r.runner }
  predicate WouldEnable(r: Reading) { !r.paused && Changed(r.runner, false) != r.runner }

  // What was read is sound, and a runner about to be enabled is still Retina's
  predicate ReadingIsSound(f: Fleet, r: Reading) {
    && r.id in f.runners && r.id in f.pausers
    && Count(r.runner.tags) <= 1 && (!r.runner.paused ==> Count(r.runner.tags) == 0)
    && (WouldEnable(r) ==> f.pausers[r.id] == Retina)
  }

  // The tags of all runners tell who paused them
  predicate AllTell(f: Fleet) {
    f.pausers.Keys == f.runners.Keys && forall id :: id in f.runners ==> TagTells(f.runners[id], f.pausers[id])
  }

  predicate Sound(f: Fleet) {
    && AllTell(f)
    && (f.reading.Some? ==> ReadingIsSound(f, f.reading.value))
  }

  // An administrator unpauses only runners without the tag, and pauses none between the reading
  // and the saving of a change that pauses it
  predicate Careful(f: Fleet, e: Event) {
    && (e.AdminUnpause? && e.id in f.runners && f.runners[e.id].paused ==> RETINA_TAG !in f.runners[e.id].tags)
    && (e.Save? && e.saved && f.reading.Some? && WouldPause(f.reading.value) && f.reading.value.id in f.runners ==>
          !Foreign(f.runners[f.reading.value.id]))
  }

  lemma SaveKeepsSound(f: Fleet, saved: bool)
    requires Sound(f)
    ensures if Careful(f, Save(saved)) then Sound(Happen(f, Save(saved))) else !AllTell(Happen(f, Save(saved)))
  {
    if saved && f.reading.Some? {
      var r := f.reading.value;
      ChangeIsOwned(r.runner, r.paused);
      assert TagTells(f.runners[r.id], f.pausers[r.id]);
      var after := Happen(f, Save(saved));
      if Careful(f, Save(saved)) {
        assert TagTells(after.runners[r.id], after.pausers[r.id]);
      } else {
        assert !TagTells(after.runners[r.id], after.pausers[r.id]);
      }
    }
  }

  lemma UnpauseKeepsSound(f: Fleet, id: int)
    requires Sound(f)
    ensures if Careful(f, AdminUnpause(id)) then Sound(Happen(f, AdminUnpause(id)))
      else !AllTell(Happen(f, AdminUnpause(id)))
  {
    if id in f.runners && f.runners[id].paused {
      assert TagTells(f.runners[id], f.pausers[id]);
      var after := Happen(f, AdminUnpause(id));
      if !Careful(f, AdminUnpause(id)) { assert !TagTells(after.runners[id], after.pausers[id]); }
    }
  }

  lemma FetchKeepsSound(f: Fleet, id: int, paused: bool)
    requires Sound(f)
    ensures Sound(Happen(f, Fetch(id, paused)))
  {
    if id in f.runners { assert TagTells(f.runners[id], f.pausers[id]); }
  }

  // The tags tell who paused as long as administrators are careful, and no longer
  lemma StepKeepsSound(f: Fleet, e: Event)
    requires Sound(f)
    ensures if Careful(f, e) then Sound(Happen(f, e)) else !AllTell(Happen(f, e))
  {
    match e
    case Fetch(id, paused) => FetchKeepsSound(f, id, paused);
    case Save(saved) => SaveKeepsSound(f, saved);
    case AdminUnpause(id) => UnpauseKeepsSound(f, id);
    case _ =>
  }

  function History(f: Fleet, events: seq<Event>): (after: Fleet)
    requires f.pausers.Keys == f.runners.Keys
    ensures after.pausers.Keys == after.runners.Keys == f.runners.Keys
    decreases |events|
  {
    if events == [] then f else History(Happen(f, events[0]), events[1..])
  }

  predicate AlwaysCareful(f: Fleet, events: seq<Event>)
    requires f.pausers.Keys == f.runners.Keys
    decreases |events|
  {
    events == [] || (Careful(f, events[0]) && AlwaysCareful(Happen(f, events[0]), events[1..]))
  }

  // The tags tell who paused at every moment of the history
  predicate AlwaysTell(f: Fleet, events: seq<Event>)
    requires f.pausers.Keys == f.runners.Keys
    decreases |events|
  {
    AllTell(f) && (events == [] || AlwaysTell(Happen(f, events[0]), events[1..]))
  }

  // Over any history: the tag tells who paused at every moment exactly when no administrator ever
  // unpaused a tagged runner, nor paused one that a change had read and was about to pause
  lemma {:induction false} TagTellsWhoPaused(f: Fleet, events: seq<Event>)
    requires Sound(f)
    ensures AlwaysTell(f, events) <==> AlwaysCareful(f, events)
    decreases |events|
  {
    if events != [] {
      StepKeepsSound(f, events[0]);
      if Careful(f, events[0]) { TagTellsWhoPaused(Happen(f, events[0]), events[1..]); }
    }
  }

  lemma AdminPauseStep(f: Fleet, e: Event, id: int)
    requires Sound(f) && Careful(f, e) && id in f.runners && f.pausers[id] == Admin && e != AdminUnpause(id)
    ensures var after := Happen(f, e);
      after.pausers[id] == Admin && after.runners[id].paused && after.runners[id].tags == f.runners[id].tags
  {
    assert TagTells(f.runners[id], f.pausers[id]) && Foreign(f.runners[id]);
  }

  // An administrator's pause lasts, whatever the runs do, until an administrator ends it
  lemma {:induction false} AdminPauseLasts(f: Fleet, events: seq<Event>, id: int)
    requires Sound(f) && id in f.runners && f.pausers[id] == Admin
    requires AlwaysCareful(f, events) && AdminUnpause(id) !in events
    ensures var after := History(f, events);
      after.pausers[id] == Admin && after.runners[id].paused && after.runners[id].tags == f.runners[id].tags
    decreases |events|
  {
    if events != [] {
      var e := events[0];
      StepKeepsSound(f, e);
      AdminPauseStep(f, e, id);
      AdminPauseLasts(Happen(f, e), events[1..], id);
    }
  }

  // What was read has the other tags that the runner still has
  predicate ReadingFits(f: Fleet) {
    f.reading.Some? && f.reading.value.id in f.runners ==>
      Others(f.reading.value.runner.tags) == Others(f.runners[f.reading.value.id].tags)
  }

  lemma SaveKeepsOthers(f: Fleet, saved: bool, id: int)
    requires f.pausers.Keys == f.runners.Keys && id in f.runners && ReadingFits(f)
    ensures Others(Happen(f, Save(saved)).runners[id].tags) == Others(f.runners[id].tags)
  {
    if saved && f.reading.Some? {
      var r := f.reading.value;
      ChangeIsOwned(r.runner, r.paused);
    }
  }

  lemma OtherTagsStep(f: Fleet, e: Event, id: int)
    requires f.pausers.Keys == f.runners.Keys && id in f.runners && ReadingFits(f)
    ensures Others(Happen(f, e).runners[id].tags) == Others(f.runners[id].tags)
  {
    if e.Save? { SaveKeepsOthers(f, e.saved, id); }
  }

  lemma ReadingStep(f: Fleet, e: Event)
    requires f.pausers.Keys == f.runners.Keys && ReadingFits(f)
    ensures ReadingFits(Happen(f, e))
  {
    if !e.Fetch? && f.reading.Some? && f.reading.value.id in f.runners { OtherTagsStep(f, e, f.reading.value.id); }
  }

  // Whatever happens, the other tags of a runner stay, in order
  lemma {:induction false} OtherTagsStay(f: Fleet, events: seq<Event>, id: int)
    requires f.pausers.Keys == f.runners.Keys && id in f.runners && ReadingFits(f)
    ensures Others(History(f, events).runners[id].tags) == Others(f.runners[id].tags)
    decreases |events|
  {
    if events != [] {
      OtherTagsStep(f, events[0], id);
      ReadingStep(f, events[0]);
      OtherTagsStay(Happen(f, events[0]), events[1..], id);
    }
  }

  // One change with nothing in between
  function Change(f: Fleet, id: int, paused: bool): Fleet
    requires f.pausers.Keys == f.runners.Keys
  {
    Happen(Happen(f, Fetch(id, paused)), Save(true))
  }

  // An administrator who unpauses a tagged runner: Retina can tag it twice, and can end a pause
  // the administrator makes afterwards
  lemma CarelessUnpause()
    ensures exists f, id :: TagsTwice(f, id)
    ensures exists f, id :: EndsAdminPause(f, id)
  {
    var f := Fleet(map[1 := Runner(true, true, [RETINA_TAG])], map[1 := Retina], None);
    assert Count([RETINA_TAG]) == 1;
    assert Sound(f);
    PushTag([RETINA_TAG]);
    assert Change(Happen(f, AdminUnpause(1)), 1, true).runners[1].tags == [RETINA_TAG] + [RETINA_TAG];
    assert TagsTwice(f, 1);
    PauseIsEnded(f);
  }

  lemma PauseIsEnded(f: Fleet)
    requires f == Fleet(map[1 := Runner(true, true, [RETINA_TAG])], map[1 := Retina], None) && Sound(f)
    ensures EndsAdminPause(f, 1)
  {
  }

  predicate TagsTwice(f: Fleet, id: int) {
    && Sound(f) && id in f.runners
    && Count(Change(Happen(f, AdminUnpause(id)), id, true).runners[id].tags) == 2
  }

  predicate EndsAdminPause(f: Fleet, id: int) {
    && Sound(f) && id in f.runners
    && var paused := Happen(Happen(f, AdminUnpause(id)), AdminPause(id));
      paused.pausers[id] == Admin && !Change(paused, id, false).runners[id].paused
  }

  // An administrator who pauses a runner between its reading and its saving: Retina tags it, and
  // ends the pause with its next change
  lemma PauseBetweenReadAndSave()
    ensures exists f, id :: TakesAdminPause(f, id)
  {
    var f := Fleet(map[1 := Runner(true, false, [])], map[1 := Nobody], None);
    var paused := Happen(Happen(f, Fetch(1, true)), AdminPause(1));
    var tagged := Happen(paused, Save(true));
    assert tagged.runners[1] == Runner(true, true, [RETINA_TAG]);
    assert TakesAdminPause(f, 1);
  }

  predicate TakesAdminPause(f: Fleet, id: int) {
    && Sound(f) && id in f.runners
    && var paused := Happen(Happen(f, Fetch(id, true)), AdminPause(id));
      && paused.pausers[id] == Admin && RETINA_TAG !in paused.runners[id].tags
      && var tagged := Happen(paused, Save(true));
      RETINA_TAG in tagged.runners[id].tags && !Change(tagged, id, false).runners[id].paused
  }
}
