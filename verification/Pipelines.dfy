/**
 Generating the pipelines: a walk over the test suites' folders gives each pipeline its jobs
 and stages, and one stages file serves them all.
 */
module Pipelines {
  import opened Wrappers
  import opened Sequences
  import opened MarkerScanner
  import opened MarkerExpression

  // A folder's children come in sorted order.  A suite file holds the marker set of each test case.
  datatype Node = File(name: string, cases: seq<set<string>>) | Folder(name: string, children: seq<Node>)

  datatype Suite = Suite(name: string, stage: string, cases: seq<set<string>>)

  datatype Job = Job(name: string, stage: string, pipeline: string)

  // ------------------------------------------------------------------ names of files

  // Position of the last dot, or the length of the name
  function LastDot(name: string): (i: nat)
    ensures i <= |name|
  {
    if '.' !in name then |name|
    else if name[|name| - 1] == '.' then |name| - 1
    else
      assert name == name[..|name| - 1] + [name[|name| - 1]];
      LastDot(name[..|name| - 1])
  }

  // A dot that begins or ends the name makes no suffix
  predicate HasSuffix(name: string) {
    0 < LastDot(name) < |name| - 1
  }

  function Suffix(name: string): string {
    if HasSuffix(name) then name[LastDot(name)..] else ""
  }

  function Stem(name: string): string {
    if HasSuffix(name) then name[..LastDot(name)] else name
  }

  predicate IsSuite(name: string) {
    Suffix(name) == ".yml" || Suffix(name) == ".yaml"
  }

  // ------------------------------------------------------------------ what the walk visits

  // The suites below a node, in traversal order: folders of the first level are stages, and
  // anything of the second level with a suite's extension is a suite.  A folder named like a
  // suite cannot be read as one, and counts as a suite without test cases.
  function Suites(node: Node, level: nat, parent: string): seq<Suite>
    decreases node, 0
  {
    if level == 1 && node.File? then []
    else if level == 2 then
      if IsSuite(node.name) then [Suite(Stem(node.name), parent, if node.File? then node.cases else [])] else []
    else if level > 2 || node.File? then []
    else SuitesOfAll(node.children, level + 1, node.name)
  }

  function SuitesOfAll(nodes: seq<Node>, level: nat, parent: string): seq<Suite>
    decreases nodes, 1
  {
    if nodes == [] then []
      else SuitesOfAll(nodes[..|nodes| - 1], level, parent) + Suites(nodes[|nodes| - 1], level, parent)
  }

  // ------------------------------------------------------------------ selection

  // any(): the first test case selected, or the first that raises, decides
  function AnySelected(markers: string, cases: seq<set<string>>): Result<bool, Error> {
    if cases == [] then Ok(false)
    else match Meaning(markers, cases[0])
      case Ok(false) => AnySelected(markers, cases[1..])
      case other => other
  }

  function Runs(markers: string, cases: seq<set<string>>): Result<bool, Error> {
    if markers == "" then Ok(true) else AnySelected(markers, cases)
  }

  predicate Selected(markers: string, suite: Suite) {
    Runs(markers, suite.cases) == Ok(true)
  }

  // Without an error, a suite is selected when some test case of it is
  lemma {:induction false} SelectedWhenSomeCaseIs(markers: string, suite: Suite)
    requires Runs(markers, suite.cases).Ok?
    ensures Selected(markers, suite) <==> markers == "" || exists c <- suite.cases :: Meaning(markers, c) == Ok(true)
    decreases |suite.cases|
  {
    if suite.cases != [] && markers != "" {
      var rest := suite.(cases := suite.cases[1..]);
      assert suite.cases == [suite.cases[0]] + rest.cases;
      if Meaning(markers, suite.cases[0]) == Ok(false) { SelectedWhenSomeCaseIs(markers, rest); }
    }
  }

  // The first test case that the expression does not refuse decides, also when it raises; without
  // one the suite is not selected
  lemma {:induction false} FirstCaseDecides(markers: string, cases: seq<set<string>>) returns (k: nat)
    requires markers != ""
    ensures k <= |cases| && forall j :: 0 <= j < k ==> Meaning(markers, cases[j]) == Ok(false)
    ensures k < |cases| ==> Meaning(markers, cases[k]) != Ok(false)
    ensures Runs(markers, cases) == if k < |cases| then Meaning(markers, cases[k]) else Ok(false)
    decreases |cases|
  {
    k := 0;
    if cases != [] && Meaning(markers, cases[0]) == Ok(false) {
      var rest := FirstCaseDecides(markers, cases[1..]);
      k := rest + 1;
      assert forall j :: 1 <= j < |cases| ==> cases[j] == cases[1..][j - 1];
    }
  }

  function JobsOf(name: string, markers: string, suites: seq<Suite>): seq<Job> {
    if suites == [] then []
    else
      var last := suites[|suites| - 1];
      JobsOf(name, markers, suites[..|suites| - 1])
      + if Selected(markers, last) then [Job(last.name, last.stage, name)] else []
  }

  lemma {:induction false} JobsOfAppend(name: string, markers: string, a: seq<Suite>, b: seq<Suite>)
    ensures JobsOf(name, markers, a + b) == JobsOf(name, markers, a) + JobsOf(name, markers, b)
  {
    if b == [] {
      assert a + b == a;
    } else {
      assert (a + b)[..|a + b| - 1] == a + b[..|b| - 1];
      JobsOfAppend(name, markers, a, b[..|b| - 1]);
    }
  }

  // ------------------------------------------------------------------ duplicates

  // First occurrences only, in order: the pipeline's own test, and dict.fromkeys
  function Dedup(xs: seq<string>): seq<string> {
    if xs == [] then []
    else
      var r, last := Dedup(xs[..|xs| - 1]), xs[|xs| - 1];
      if last in r then r else r + [last]
  }

  function FirstIndex(xs: seq<string>, x: string): (i: nat)
    requires x in xs
    ensures i < |xs| && xs[i] == x
    ensures forall k :: 0 <= k < i ==> xs[k] != x
  {
    if xs[0] == x then 0 else 1 + FirstIndex(xs[1..], x)
  }

  lemma {:induction false} DedupElements(xs: seq<string>)
    ensures forall x :: x in Dedup(xs) <==> x in xs
    ensures forall i, j :: 0 <= i < j < |Dedup(xs)| ==> Dedup(xs)[i] != Dedup(xs)[j]
  {
    if xs != [] {
      assert xs == xs[..|xs| - 1] + [xs[|xs| - 1]];
      DedupElements(xs[..|xs| - 1]);
    }
  }

  // The order kept is that of first use
  lemma {:induction false} DedupOrder(xs: seq<string>, i: nat, j: nat)
    requires i < j < |Dedup(xs)|
    ensures (DedupElements(xs); FirstIndex(xs, Dedup(xs)[i]) < FirstIndex(xs, Dedup(xs)[j]))
  {
    var front, last := xs[..|xs| - 1], xs[|xs| - 1];
    assert xs == front + [last];
    DedupElements(xs);
    DedupElements(front);
    FirstIndexAppend(front, last, Dedup(xs)[i]);
    if j < |Dedup(front)| {
      DedupOrder(front, i, j);
      FirstIndexAppend(front, last, Dedup(xs)[j]);
    }
  }

  lemma FirstIndexAppend(front: seq<string>, last: string, x: string)
    requires x in front
    ensures FirstIndex(front + [last], x) == FirstIndex(front, x)
  {
    assert (front + [last])[FirstIndex(front, x)] == x;
    assert forall k :: 0 <= k < |front| ==> (front + [last])[k] == front[k];
  }

  // A prefix without duplicates stays in front
  lemma {:induction false} DedupPrefix(fixed: seq<string>, more: seq<string>)
    requires forall i, j :: 0 <= i < j < |fixed| ==> fixed[i] != fixed[j]
    ensures fixed <= Dedup(fixed + more)
  {
    if more != [] {
      assert (fixed + more)[..|fixed + more| - 1] == fixed + more[..|more| - 1];
      DedupPrefix(fixed, more[..|more| - 1]);
    } else if fixed != [] {
      assert fixed + more == fixed;
      DedupDistinct(fixed);
    }
  }

  lemma {:induction false} DedupDistinct(xs: seq<string>)
    requires forall i, j :: 0 <= i < j < |xs| ==> xs[i] != xs[j]
    ensures Dedup(xs) == xs
  {
    if xs != [] {
      DedupDistinct(xs[..|xs| - 1]);
      assert xs == xs[..|xs| - 1] + [xs[|xs| - 1]];
    }
  }

  // ------------------------------------------------------------------ the walk

  function StagesOf(jobs: seq<Job>): (r: seq<string>)
    ensures |r| == |jobs| && forall i :: 0 <= i < |jobs| ==> r[i] == jobs[i].stage
  {
    seq(|jobs|, i requires 0 <= i < |jobs| => jobs[i].stage)
  }

  class Pipeline {
    const name: string
    const markers: string
    var stages: seq<string>
    var jobs: seq<Job>

    // The stages are those of the jobs, once each, in order of first use
    predicate Valid()
      reads this
    {
      stages == Dedup(StagesOf(jobs))
    }

    constructor (name: string, markers: string)
      ensures Valid() && this.name == name && this.markers == markers && jobs == []
    {
      this.name, this.markers, stages, jobs := name, markers, [], [];
    }

    method RunsSuite(cases: seq<set<string>>) returns (r: Result<bool, Error>)
      ensures r == Runs(markers, cases)
    {
      if markers == "" { return Ok(true); }
      var n := 0;
      while n < |cases|
        invariant n <= |cases|
        invariant Runs(markers, cases) == AnySelected(markers, cases[n..])
      {
        r := EvaluateMarkerExpression(markers, cases[n]);
        if r != Ok(false) { return; }
        n := n + 1;
      }
      return Ok(false);
    }

    method AddJob(suite: Suite)
      requires Valid()
      modifies this
      ensures Valid() && jobs == old(jobs) + [Job(suite.name, suite.stage, name)]
    {
      if suite.stage !in stages { stages := stages + [suite.stage]; }
      jobs := jobs + [Job(suite.name, suite.stage, name)];
      assert StagesOf(jobs)[..|jobs| - 1] == StagesOf(old(jobs));
    }
  }

  predicate AllValid(pipelines: seq<Pipeline>)
    reads pipelines
  {
    forall i :: 0 <= i < |pipelines| ==> pipelines[i].Valid()
  }

  // The jobs of each pipeline
  function JobLists(pipelines: seq<Pipeline>): (lists: seq<seq<Job>>)
    reads pipelines
    ensures |lists| == |pipelines| && forall i :: 0 <= i < |lists| ==> lists[i] == pipelines[i].jobs
  {
    seq(|pipelines|, i requires 0 <= i < |pipelines| reads pipelines => pipelines[i].jobs)
  }

  predicate GainedOne(pipeline: Pipeline, before: seq<Job>, after: seq<Job>, suites: seq<Suite>) {
    after == before + JobsOf(pipeline.name, pipeline.markers, suites)
  }

  // Each pipeline has gained its jobs of these suites
  predicate Gained(pipelines: seq<Pipeline>, before: seq<seq<Job>>, after: seq<seq<Job>>, suites: seq<Suite>) {
    && |before| == |after| == |pipelines|
    && forall i :: 0 <= i < |pipelines| ==> GainedOne(pipelines[i], before[i], after[i], suites)
  }

  lemma GainedTwice(pipelines: seq<Pipeline>, before: seq<seq<Job>>, mid: seq<seq<Job>>, after: seq<seq<Job>>,
      a: seq<Suite>, b: seq<Suite>)
    requires Gained(pipelines, before, mid, a) && Gained(pipelines, mid, after, b)
    ensures Gained(pipelines, before, after, a + b)
  {
    forall i | 0 <= i < |pipelines| ensures GainedOne(pipelines[i], before[i], after[i], a + b) {
      assert GainedOne(pipelines[i], before[i], mid[i], a) && GainedOne(pipelines[i], mid[i], after[i], b);
      JobsOfAppend(pipelines[i].name, pipelines[i].markers, a, b);
    }
  }

  // Some pipeline's expression raises on some suite
  ghost predicate Raises(pipelines: seq<Pipeline>, suites: seq<Suite>) {
    exists p, s :: p in pipelines && s in suites && Runs(p.markers, s.cases).Err?
  }

  // Which pipelines select the suite file; None when asking one raises
  method SelectedBy(suite: Suite, pipelines: seq<Pipeline>) returns (r: Option<seq<bool>>)
    ensures r.None? <==> Raises(pipelines, [suite])
    ensures r.Some? ==> |r.value| == |pipelines|
    ensures r.Some? ==> forall i :: 0 <= i < |pipelines| ==> r.value[i] == Selected(pipelines[i].markers, suite)
  {
    assert suite in [suite];
    var selected: seq<bool> := [];
    for n := 0 to |pipelines|
      invariant |selected| == n
      invariant forall i :: 0 <= i < n ==> Runs(pipelines[i].markers, suite.cases) == Ok(selected[i])
    {
      var runs := pipelines[n].RunsSuite(suite.cases);
      if runs.Err? {
        assert pipelines[n] in pipelines;
        return None;
      }
      selected := selected + [runs.value];
    }
    return Some(selected);
  }

  // A suite file: the pipelines that select it get a job
  method VisitSuite(suite: Suite, pipelines: seq<Pipeline>) returns (ok: bool)
    requires Distinct(pipelines) && AllValid(pipelines)
    modifies pipelines
    ensures AllValid(pipelines)
    ensures ok <==> !Raises(pipelines, [suite])
    ensures ok ==> Gained(pipelines, old(JobLists(pipelines)), JobLists(pipelines), [suite])
    ensures !ok ==> JobLists(pipelines) == old(JobLists(pipelines))
  {
    var selected := SelectedBy(suite, pipelines);
    if selected.None? { return false; }
    for n := 0 to |pipelines|
      invariant AllValid(pipelines)
      invariant forall i :: 0 <= i < n ==> GainedOne(pipelines[i], old(pipelines[i].jobs), pipelines[i].jobs, [suite])
      invariant forall i :: n <= i < |pipelines| ==> pipelines[i].jobs == old(pipelines[i].jobs)
    {
      JobsOfOne(pipelines[n].name, pipelines[n].markers, suite);
      if selected.value[n] { pipelines[n].AddJob(suite); }
      assert GainedOne(pipelines[n], old(pipelines[n].jobs), pipelines[n].jobs, [suite]);
    }
    ok := true;
  }

  lemma JobsOfOne(name: string, markers: string, suite: Suite)
    ensures JobsOf(name, markers, [suite])
      == if Selected(markers, suite) then [Job(suite.name, suite.stage, name)] else []
  {
    assert [suite][..0] == [];
  }

  lemma RaisesAppend(pipelines: seq<Pipeline>, a: seq<Suite>, b: seq<Suite>)
    ensures Raises(pipelines, a + b) <==> Raises(pipelines, a) || Raises(pipelines, b)
  {
    if Raises(pipelines, a) {
      var p, s :| p in pipelines && s in a && Runs(p.markers, s.cases).Err?;
      assert s in a + b;
    }
    if Raises(pipelines, b) {
      var p, s :| p in pipelines && s in b && Runs(p.markers, s.cases).Err?;
      assert s in a + b;
    }
  }

  // iterate_ordered_hierarchy
  method Iterate(node: Node, level: nat, parent: string, pipelines: seq<Pipeline>) returns (ok: bool)
    requires Distinct(pipelines) && AllValid(pipelines)
    modifies pipelines
    ensures AllValid(pipelines)
    ensures ok <==> !Raises(pipelines, Suites(node, level, parent))
    ensures ok ==> Gained(pipelines, old(JobLists(pipelines)), JobLists(pipelines), Suites(node, level, parent))
    decreases node
  {
    if level == 1 && node.File? { return true; }
    if level == 2 {
      if !IsSuite(node.name) { return true; }
      var suite := Suite(Stem(node.name), parent, if node.File? then node.cases else []);
      ok := VisitSuite(suite, pipelines);
      return;
    }
    if level > 2 || node.File? { return true; }
    ghost var seen: seq<Suite> := [];
    for n := 0 to |node.children|
      invariant AllValid(pipelines)
      invariant seen == SuitesOfAll(node.children[..n], level + 1, node.name) && !Raises(pipelines, seen)
      invariant Gained(pipelines, old(JobLists(pipelines)), JobLists(pipelines), seen)
    {
      ghost var mid := JobLists(pipelines);
      ghost var next := Suites(node.children[n], level + 1, node.name);
      SuitesOneMore(node.children, n, level + 1, node.name);
      ok := Iterate(node.children[n], level + 1, node.name, pipelines);
      if !ok {
        RaisesBelow(pipelines, node.children, n, level + 1, node.name);
        return;
      }
      RaisesAppend(pipelines, seen, next);
      GainedTwice(pipelines, old(JobLists(pipelines)), mid, JobLists(pipelines), seen, next);
      seen := seen + next;
    }
    assert node.children[..|node.children|] == node.children;
    ok := true;
  }

  lemma SuitesOneMore(nodes: seq<Node>, n: nat, level: nat, parent: string)
    requires n < |nodes|
    ensures SuitesOfAll(nodes[..n + 1], level, parent)
      == SuitesOfAll(nodes[..n], level, parent) + Suites(nodes[n], level, parent)
  {
    assert nodes[..n + 1][..n] == nodes[..n];
  }

  lemma RaisesBelow(pipelines: seq<Pipeline>, nodes: seq<Node>, n: nat, level: nat, parent: string)
    requires n < |nodes| && Raises(pipelines, Suites(nodes[n], level, parent))
    ensures Raises(pipelines, SuitesOfAll(nodes, level, parent))
  {
    SuitesBelow(nodes, n, level, parent);
  }

  lemma {:induction false} SuitesBelow(nodes: seq<Node>, n: nat, level: nat, parent: string)
    requires n < |nodes|
    ensures forall s <- Suites(nodes[n], level, parent) :: s in SuitesOfAll(nodes, level, parent)
  {
    if n < |nodes| - 1 {
      SuitesBelow(nodes[..|nodes| - 1], n, level, parent);
      assert nodes[..|nodes| - 1][n] == nodes[n];
    }
  }

  // ------------------------------------------------------------------ the stages file

  const FIXED_STAGES: seq<string> := ["ci", "static", "build", "e2e", "viavi"]

  // A stage comes after the fixed ones exactly when it is not itself one of them
  lemma StageFollowsFixed(dynamicStages: seq<string>, stage: string)
    requires stage in Dedup(FIXED_STAGES + dynamicStages)
    ensures |FIXED_STAGES| <= FirstIndex(Dedup(FIXED_STAGES + dynamicStages), stage) <==> stage !in FIXED_STAGES
  {
    var stages := Dedup(FIXED_STAGES + dynamicStages);
    DedupPrefix(FIXED_STAGES, dynamicStages);
    assert stages[..|FIXED_STAGES|] == FIXED_STAGES;
    if stage in FIXED_STAGES {
      var k :| 0 <= k < |FIXED_STAGES| && FIXED_STAGES[k] == stage;
      assert stages[k] == stage;
    }
    var i := FirstIndex(stages, stage);
    assert i < |FIXED_STAGES| ==> stages[i] == FIXED_STAGES[i];
  }

  // Such an input: tests in a folder named like the first fixed stage
  lemma FixedStageStaysFirst()
    ensures Dedup(FIXED_STAGES + ["ci"]) == FIXED_STAGES && FirstIndex(FIXED_STAGES, "ci") == 0
  {
    assert (FIXED_STAGES + ["ci"])[..|FIXED_STAGES|] == FIXED_STAGES;
    DedupDistinct(FIXED_STAGES);
    assert FIXED_STAGES[0] == "ci";
  }

  // The stages file for what the pipelines hold: stages of pipelines without jobs are left out
  function DynamicStages(pipelines: seq<Pipeline>): seq<string>
    reads pipelines
  {
    if pipelines == [] then []
    else
      var last := pipelines[|pipelines| - 1];
      DynamicStages(pipelines[..|pipelines| - 1]) + if last.jobs == [] then [] else last.stages
  }

  lemma {:induction false} StagesReachTheFile(pipelines: seq<Pipeline>, i: nat)
    requires i < |pipelines|
    requires pipelines[i].Valid()
    ensures forall j <- pipelines[i].jobs :: j.stage in DynamicStages(pipelines)
  {
    if i < |pipelines| - 1 {
      StagesReachTheFile(pipelines[..|pipelines| - 1], i);
    } else {
      DedupElements(StagesOf(pipelines[i].jobs));
      forall j <- pipelines[i].jobs ensures j.stage in pipelines[i].stages {
        var k :| 0 <= k < |pipelines[i].jobs| && pipelines[i].jobs[k] == j;
        assert StagesOf(pipelines[i].jobs)[k] == j.stage;
      }
    }
  }

  predicate IsJobStage(stage: string, pipelines: seq<Pipeline>)
    reads pipelines
  {
    exists i :: 0 <= i < |pipelines| && stage in StagesOf(pipelines[i].jobs)
  }

  lemma {:induction false} DynamicStagesAreOfJobs(pipelines: seq<Pipeline>)
    requires AllValid(pipelines)
    ensures forall stage <- DynamicStages(pipelines) :: IsJobStage(stage, pipelines)
  {
    if pipelines != [] {
      var n := |pipelines| - 1;
      DynamicStagesAreOfJobs(pipelines[..n]);
      assert pipelines[n].Valid();
      DedupElements(StagesOf(pipelines[n].jobs));
      forall stage | stage in DynamicStages(pipelines) ensures IsJobStage(stage, pipelines) {
        if stage in DynamicStages(pipelines[..n]) {
          var i :| 0 <= i < n && stage in StagesOf(pipelines[..n][i].jobs);
          assert stage in StagesOf(pipelines[i].jobs);
        }
      }
    }
  }

  // The fixed stages, then every stage of a job and no other, once each
  predicate StagesFile(stages: seq<string>, pipelines: seq<Pipeline>)
    reads pipelines
  {
    && FIXED_STAGES <= stages
    && (forall i, j :: 0 <= i < j < |stages| ==> stages[i] != stages[j])
    && (forall i, job :: 0 <= i < |pipelines| && job in pipelines[i].jobs ==> job.stage in stages)
    && (forall stage <- stages :: stage in FIXED_STAGES || IsJobStage(stage, pipelines))
  }

  // generate_stages_file, for the stages of the pipelines with jobs
  method GenerateStagesFile(pipelines: seq<Pipeline>) returns (stages: seq<string>)
    requires AllValid(pipelines)
    ensures StagesFile(stages, pipelines) && stages == Dedup(FIXED_STAGES + DynamicStages(pipelines))
  {
    var dynamicStages: seq<string> := [];
    for n := 0 to |pipelines|
      invariant dynamicStages == DynamicStages(pipelines[..n])
    {
      assert pipelines[..n + 1][..n] == pipelines[..n];
      if pipelines[n].jobs != [] { dynamicStages := dynamicStages + pipelines[n].stages; }
    }
    assert pipelines[..|pipelines|] == pipelines;
    stages := Dedup(FIXED_STAGES + dynamicStages);
    DedupElements(FIXED_STAGES + dynamicStages);
    DedupPrefix(FIXED_STAGES, dynamicStages);
    DynamicStagesAreOfJobs(pipelines);
    forall i, job | 0 <= i < |pipelines| && job in pipelines[i].jobs ensures job.stage in stages {
      StagesReachTheFile(pipelines, i);
    }
  }

  // generate_pipelines_dynamically: walk the folders, then collect the stages
  method Generate(root: Node, pipelines: seq<Pipeline>) returns (ok: bool, stages: seq<string>)
    requires Distinct(pipelines) && AllValid(pipelines) && forall i :: 0 <= i < |pipelines| ==> pipelines[i].jobs == []
    modifies pipelines
    ensures ok <==> !Raises(pipelines, Suites(root, 0, ""))
    ensures AllValid(pipelines)
    ensures ok ==> forall i :: 0 <= i < |pipelines| ==>
      pipelines[i].jobs == JobsOf(pipelines[i].name, pipelines[i].markers, Suites(root, 0, ""))
    ensures ok ==> StagesFile(stages, pipelines) && stages == Dedup(FIXED_STAGES + DynamicStages(pipelines))
  {
    stages := [];
    ok := Iterate(root, 0, "", pipelines);
    if ok { stages := GenerateStagesFile(pipelines); }
  }

  // ------------------------------------------------------------------ the pipelines there are

  const WEEKLY_MARKER: string := "weekly"

  // (a or b) and [not] weekly
  function OnTestbeds(a: string, b: string, weekly: bool): Expr<string> {
    And(Group(Or(Lit(a), Lit(b))), if weekly then Lit(WEEKLY_MARKER) else Not(Lit(WEEKLY_MARKER)))
  }

  lemma OnTestbedsSelects(a: string, b: string, weekly: bool, markers: set<string>)
    requires IsName(a) && IsName(b)
    ensures var e := OnTestbeds(a, b, weekly);
      && Boolean(e) && WritableExpr(e)
      && Selects(e, markers) == ((a in markers || b in markers) && (weekly <==> WEEKLY_MARKER in markers))
  {
    var either := Or(Lit(a), Lit(b));
    assert Boolean(Lit(a)) && WritableExpr(Lit(a)) && Boolean(Lit(b)) && WritableExpr(Lit(b));
    assert Boolean(either) && WritableExpr(either);
    var w := Lit(WEEKLY_MARKER);
    assert Boolean(w) && WritableExpr(w) && Selects(w, markers) == (WEEKLY_MARKER in markers);
    assert Boolean(Not(w)) && WritableExpr(Not(w)) && Selects(Not(w), markers) == (WEEKLY_MARKER !in markers);
    assert Selects(either, markers) == (a in markers || b in markers);
    assert Boolean(Group(either)) && WritableExpr(Group(either))
      && Selects(Group(either), markers) == Selects(either, markers);
  }

  // However it is laid out, the expression of a testbed's pipeline never raises.  Of the two
  // pipelines of the same testbeds, one weekly and one not, each test case runs in exactly one.
  lemma TestbedsAreSharedOut(a: string, b: string, gaps: seq<string>, weeklyGaps: seq<string>, markers: set<string>)
    requires IsName(a) && IsName(b)
    requires IsLayout(Print(OnTestbeds(a, b, false), 0), gaps)
    requires IsLayout(Print(OnTestbeds(a, b, true), 0), weeklyGaps)
    ensures var daily := Meaning(Text(Print(OnTestbeds(a, b, false), 0), gaps), markers);
      var weekly := Meaning(Text(Print(OnTestbeds(a, b, true), 0), weeklyGaps), markers);
      && daily.Ok? && weekly.Ok? && !(daily.value && weekly.value)
      && (daily.value || weekly.value <==> a in markers || b in markers)
  {
    var e, f := OnTestbeds(a, b, false), OnTestbeds(a, b, true);
    OnTestbedsSelects(a, b, false, markers);
    OnTestbedsSelects(a, b, true, markers);
    MeaningOfPrintedTree(e, gaps, markers);
    MeaningOfPrintedTree(f, weeklyGaps, markers);
  }
}
