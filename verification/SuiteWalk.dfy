/**
 What the walk over the folders visits: one suite for every file of the second level that has a
 suite's extension, named like the file, with its folder as the stage.
 */
module SuiteWalk {
  import opened Wrappers
  import opened Sequences
  import opened MarkerExpression
  import opened Pipelines

  // ------------------------------------------------------------------ names of suite files

  // The file is called like the suite, with one of the two extensions
  predicate IsFileOf(file: string, suite: string) {
    suite != "" && (file == suite + ".yml" || file == suite + ".yaml")
  }

  // The last dot of a text with a dot in its second part is the one of that
  lemma {:induction false} LastDotAppend(a: string, b: string)
    requires '.' in b
    ensures LastDot(a + b) == |a| + LastDot(b)
    decreases |b|
  {
    var n := |b| - 1;
    assert b == b[..n] + [b[n]] && (a + b)[..|a| + n] == a + b[..n] && (a + b)[|a| + n] == b[n];
    if b[n] != '.' { LastDotAppend(a, b[..n]); }
  }

  lemma StemOfFile(suite: string, extension: string)
    requires suite != "" && (extension == ".yml" || extension == ".yaml")
    ensures IsSuite(suite + extension) && Stem(suite + extension) == suite
  {
    LastDotFirst(extension);
    LastDotAppend(suite, extension);
    assert (suite + extension)[|suite|..] == extension && (suite + extension)[..|suite|] == suite;
  }

  lemma LastDotFirst(extension: string)
    requires extension == ".yml" || extension == ".yaml"
    ensures LastDot(extension) == 0 && '.' in extension
  {
    assert ".yml"[..3] == ".ym" && ".ym"[..2] == ".y" && ".y"[..1] == ".";
    assert ".yaml"[..4] == ".yam" && ".yam"[..3] == ".ya" && ".ya"[..2] == ".y";
    assert LastDot(".") == 0 && LastDot(".y") == 0 && LastDot(".ym") == 0 && LastDot(".ya") == 0;
    assert '.' in ".ym" && '.' in ".yam" && LastDot(".yam") == 0;
  }

  // A name is that of a suite file exactly when it is a name that is not empty and an extension
  // after it; and there is only one such name, its stem
  lemma SuiteFileNames(file: string, suite: string)
    ensures IsFileOf(file, suite) <==> IsSuite(file) && suite == Stem(file)
  {
    if IsFileOf(file, suite) {
      StemOfFile(suite, file[|suite|..]);
    }
    if IsSuite(file) {
      assert file == Stem(file) + Suffix(file);
    }
  }

  // ------------------------------------------------------------------ what is visited

  // An entry of a folder of the first level, in the order of the walk
  datatype Place = Place(folder: nat, entry: nat)

  predicate Before(a: Place, b: Place) {
    a.folder < b.folder || (a.folder == b.folder && a.entry < b.entry)
  }

  predicate IsPlace(root: Node, at: Place) {
    && root.Folder? && at.folder < |root.children| && root.children[at.folder].Folder?
    && at.entry < |root.children[at.folder].children|
  }

  function EntryAt(root: Node, at: Place): Node
    requires IsPlace(root, at)
  {
    root.children[at.folder].children[at.entry]
  }

  // The entry is a suite file; a folder that is called like one has no test cases
  predicate HoldsSuite(root: Node, at: Place, suite: Suite) {
    && IsPlace(root, at) && IsFileOf(EntryAt(root, at).name, suite.name)
    && suite.stage == root.children[at.folder].name
    && suite.cases == if EntryAt(root, at).File? then EntryAt(root, at).cases else []
  }

  // The suites are those of these places, which come in order and leave out no suite file
  ghost predicate Visits(root: Node, suites: seq<Suite>, places: seq<Place>) {
    && |places| == |suites|
    && (forall i, j :: 0 <= i < j < |places| ==> Before(places[i], places[j]))
    && (forall i :: 0 <= i < |places| ==> HoldsSuite(root, places[i], suites[i]))
    && (forall at, suite :: HoldsSuite(root, at, suite) ==> at in places)
  }

  // The same up to a place
  ghost predicate VisitsUpTo(root: Node, end: Place, suites: seq<Suite>, places: seq<Place>) {
    && |places| == |suites|
    && (forall i, j :: 0 <= i < j < |places| ==> Before(places[i], places[j]))
    && (forall i :: 0 <= i < |places| ==> HoldsSuite(root, places[i], suites[i]) && Before(places[i], end))
    && (forall at, suite :: HoldsSuite(root, at, suite) && Before(at, end) ==> at in places)
  }

  lemma VisitsOneMore(root: Node, end: Place, suites: seq<Suite>, places: seq<Place>, suite: Suite)
    requires VisitsUpTo(root, end, suites, places) && HoldsSuite(root, end, suite)
    ensures VisitsUpTo(root, Place(end.folder, end.entry + 1), suites + [suite], places + [end])
  {
    var next := Place(end.folder, end.entry + 1);
    forall at, s | HoldsSuite(root, at, s) && Before(at, next) ensures at in places + [end] {
      if at != end { assert Before(at, end); }
    }
  }

  lemma VisitsNoMore(root: Node, end: Place, next: Place, suites: seq<Suite>, places: seq<Place>)
    requires VisitsUpTo(root, end, suites, places) && Before(end, next)
    requires forall at, suite :: HoldsSuite(root, at, suite) && Before(at, next) ==> Before(at, end)
    ensures VisitsUpTo(root, next, suites, places)
  {
  }

  // What the walk makes of one entry of a folder of the first level
  lemma SuitesOfEntry(root: Node, at: Place)
    requires IsPlace(root, at)
    ensures var d, entry := root.children[at.folder], EntryAt(root, at);
      var suite := Suite(Stem(entry.name), d.name, if entry.File? then entry.cases else []);
      && Suites(entry, 2, d.name) == (if IsSuite(entry.name) then [suite] else [])
      && (IsSuite(entry.name) <==> HoldsSuite(root, at, suite))
      && forall s :: HoldsSuite(root, at, s) ==> s == suite
  {
    var entry := EntryAt(root, at);
    SuiteFileNames(entry.name, Stem(entry.name));
    forall s | HoldsSuite(root, at, s) ensures s.name == Stem(entry.name) { SuiteFileNames(entry.name, s.name); }
  }

  // One entry more of a folder of the first level
  lemma EntryIsVisited(root: Node, at: Place, suites: seq<Suite>, places: seq<Place>) returns (more: seq<Place>)
    requires IsPlace(root, at) && VisitsUpTo(root, at, suites, places)
    ensures var next := Suites(EntryAt(root, at), 2, root.children[at.folder].name);
      VisitsUpTo(root, Place(at.folder, at.entry + 1), suites + next, more)
  {
    var next := Suites(EntryAt(root, at), 2, root.children[at.folder].name);
    SuitesOfEntry(root, at);
    if next == [] {
      more := places;
      assert suites + next == suites;
      VisitsNoMore(root, at, Place(at.folder, at.entry + 1), suites, places);
    } else {
      more := places + [at];
      VisitsOneMore(root, at, suites, places, next[0]);
    }
  }

  lemma {:induction false} SuitesOfFolder(root: Node, f: nat, n: nat, before: seq<Suite>, places: seq<Place>)
    returns (more: seq<Place>)
    requires root.Folder? && f < |root.children| && root.children[f].Folder? && n <= |root.children[f].children|
    requires VisitsUpTo(root, Place(f, 0), before, places)
    ensures var d := root.children[f];
      VisitsUpTo(root, Place(f, n), before + SuitesOfAll(d.children[..n], 2, d.name), more)
  {
    var d := root.children[f];
    if n == 0 {
      more := places;
      assert before + SuitesOfAll(d.children[..0], 2, d.name) == before;
    } else {
      more := SuitesOfFolder(root, f, n - 1, before, places);
      var suites := before + SuitesOfAll(d.children[..n - 1], 2, d.name);
      more := EntryIsVisited(root, Place(f, n - 1), suites, more);
      SuitesOneMore(d.children, n - 1, 2, d.name);
      assert before + SuitesOfAll(d.children[..n], 2, d.name) == suites + Suites(d.children[n - 1], 2, d.name);
    }
  }

  lemma {:induction false} SuitesOfFolders(root: Node, f: nat) returns (places: seq<Place>)
    requires root.Folder? && f <= |root.children|
    ensures VisitsUpTo(root, Place(f, 0), SuitesOfAll(root.children[..f], 1, root.name), places)
  {
    if f == 0 {
      places := [];
    } else {
      var some := SuitesOfFolders(root, f - 1);
      var d, suites := root.children[f - 1], SuitesOfAll(root.children[..f - 1], 1, root.name);
      SuitesOneMore(root.children, f - 1, 1, root.name);
      if d.Folder? {
        places := SuitesOfFolder(root, f - 1, |d.children|, suites, some);
        assert d.children[..|d.children|] == d.children;
        VisitsNoMore(root, Place(f - 1, |d.children|), Place(f, 0), suites + Suites(d, 1, root.name), places);
      } else {
        places := some;
        assert suites + Suites(d, 1, root.name) == suites;
        VisitsNoMore(root, Place(f - 1, 0), Place(f, 0), suites, places);
      }
    }
  }

  // The walk from any root visits exactly the suite files on the second level, in order: each
  // gives a suite called like the file without its extension, with the name of the folder as its
  // stage, and the test cases of the file
  lemma WalkVisits(root: Node) returns (places: seq<Place>)
    ensures Visits(root, Suites(root, 0, ""), places)
  {
    if root.Folder? {
      places := SuitesOfFolders(root, |root.children|);
      assert root.children[..|root.children|] == root.children;
    } else {
      places := [];
    }
  }

  // ------------------------------------------------------------------ whose jobs they become

  // In order, one job for each suite that is selected, with its name and stage
  ghost predicate JobsFor(jobs: seq<Job>, name: string, markers: string, suites: seq<Suite>, places: seq<nat>) {
    && Picks(places, |suites|, (k: nat) => k < |suites| && Selected(markers, suites[k]))
    && |jobs| == |places| && (forall i :: 0 <= i < |places| ==> places[i] < |suites|)
    && forall i :: 0 <= i < |jobs| ==> jobs[i] == Job(suites[places[i]].name, suites[places[i]].stage, name)
  }

  // Suite k is selected, and becomes this job, exactly as p and f say
  predicate IsToldBy(name: string, markers: string, suites: seq<Suite>, k: nat, p: nat -> bool, f: nat -> Job) {
    k < |suites| ==> p(k) == Selected(markers, suites[k]) && f(k) == Job(suites[k].name, suites[k].stage, name)
  }

  lemma JobsOneMore(name: string, markers: string, suites: seq<Suite>, n: nat, p: nat -> bool, f: nat -> Job)
    requires n < |suites| && IsToldBy(name, markers, suites, n, p, f)
    ensures JobsOf(name, markers, suites[..n + 1])
      == JobsOf(name, markers, suites[..n]) + if p(n) then [f(n)] else []
  {
    assert suites[..n + 1][..n] == suites[..n];
  }

  lemma {:induction false} JobsOfPrefix(
      name: string, markers: string, suites: seq<Suite>, n: nat, p: nat -> bool, f: nat -> Job)
    requires n <= |suites| && forall k :: 0 <= k < |suites| ==> IsToldBy(name, markers, suites, k, p, f)
    ensures JobsOf(name, markers, suites[..n]) == Images(Where(n, p), f)
  {
    if n > 0 {
      JobsOfPrefix(name, markers, suites, n - 1, p, f);
      JobsOneMore(name, markers, suites, n - 1, p, f);
      ImagesOneMore(n - 1, p, f);
    }
  }

  // A pipeline's jobs are, in order, one for each suite of the walk that its expression selects
  lemma JobsAreSelected(name: string, markers: string, suites: seq<Suite>) returns (places: seq<nat>)
    ensures JobsFor(JobsOf(name, markers, suites), name, markers, suites, places)
  {
    var p := (k: nat) => k < |suites| && Selected(markers, suites[k]);
    var f := (k: nat) => if k < |suites| then Job(suites[k].name, suites[k].stage, name) else Job("", "", name);
    places := Where(|suites|, p);
    WherePicks(|suites|, p);
    JobsOfPrefix(name, markers, suites, |suites|, p, f);
    assert suites[..|suites|] == suites;
  }
}
