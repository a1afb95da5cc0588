/**
 Reading a process's output through a queue: one thread fills the queue line by line, the
 reader drains it, and stops once the thread is dead and the queue is empty.  The reader looks
 at the thread before it looks at the queue, and that order is what makes it lossless.
 */
module StdoutReader {
  import opened MarkerScanner

  // ------------------------------------------------------------------ cleaning a line

  // encode("ascii", errors="ignore")
  function Ascii(s: string): string {
    if s == [] then [] else (if s[0] < '\U{80}' then [s[0]] else []) + Ascii(s[1..])
  }

  function RStrip(s: string): string {
    if s != [] && IsSpace(s[|s| - 1]) then RStrip(s[..|s| - 1]) else s
  }

  function Clean(line: string): string {
    RStrip(Ascii(line))
  }

  // The lines to yield: cleaned, without the blank ones
  function Wanted(lines: seq<string>): seq<string> {
    if lines == [] then []
    else Wanted(lines[..|lines| - 1]) + if Blank(Clean(lines[|lines| - 1])) then [] else [Clean(lines[|lines| - 1])]
  }

  lemma WantedAppend(lines: seq<string>, line: string)
    ensures Wanted(lines + [line]) == Wanted(lines) + if Blank(Clean(line)) then [] else [Clean(line)]
  {
    assert (lines + [line])[..|lines|] == lines;
  }

  // A blank line is one with nothing left after cleaning
  lemma {:induction false} BlankMeansEmpty(s: string)
    ensures Blank(RStrip(s)) <==> RStrip(s) == ""
  {
    if s != [] {
      if IsSpace(s[|s| - 1]) { BlankMeansEmpty(s[..|s| - 1]); }
    }
  }

  // ------------------------------------------------------------------ the two threads

  datatype Order = AliveFirst | EmptyFirst

  // Where the reader is.  Half: the first of its two tests would let it stop.
  datatype Position = Testing | Half | Getting | Finished | TimedOut

  datatype State = State(
    unread: seq<string>,      // lines the process has still to print
    alive: bool,              // whether the filling thread is
    queue: seq<string>,
    at: Position,
    yielded: seq<string>
  )

  datatype Action = Put | Exit | Test | TestAgain | Get | GetNothing | Deadline

  function Begin(lines: seq<string>): State {
    State(lines, true, [], Testing, [])
  }

  predicate Enabled(s: State, a: Action) {
    match a
    case Put => s.alive && s.unread != []
    case Exit => s.alive && s.unread == []
    case Test => s.at.Testing?
    case TestAgain => s.at.Half?
    case Get => s.at.Getting? && s.queue != []
    case GetNothing => s.at.Getting? && s.queue == []
    case Deadline => s.at.Testing?
  }

  function Step(order: Order, s: State, a: Action): State
    requires Enabled(s, a)
  {
    match a
    case Put => s.(unread := s.unread[1..], queue := s.queue + [s.unread[0]])
    case Exit => s.(alive := false)
    case Test => s.(at := if (if order.AliveFirst? then s.alive else s.queue != []) then Getting else Half)
    case TestAgain => s.(at := if (if order.AliveFirst? then s.queue != [] else s.alive) then Getting else Finished)
    case Get =>
      var line := Clean(s.queue[0]);
      s.(queue := s.queue[1..], at := Testing, yielded := s.yielded + if Blank(line) then [] else [line])
    case GetNothing => s.(at := Testing)
    case Deadline => s.(at := TimedOut)
  }

  predicate CanRun(order: Order, s: State, run: seq<Action>)
    decreases |run|
  {
    run == [] || (Enabled(s, run[0]) && CanRun(order, Step(order, s, run[0]), run[1..]))
  }

  function After(order: Order, s: State, run: seq<Action>): State
    requires CanRun(order, s, run)
    decreases |run|
  {
    if run == [] then s else After(order, Step(order, s, run[0]), run[1..])
  }

  // How many lines were taken out of the queue
  function Taken(lines: seq<string>, s: State): int {
    |lines| - |s.queue + s.unread|
  }

  // The lines taken out were cleaned and yielded; the rest are in order in the queue and with
  // the process
  predicate InOrder(lines: seq<string>, s: State) {
    && 0 <= Taken(lines, s)
    && lines[Taken(lines, s)..] == s.queue + s.unread
    && s.yielded == Wanted(lines[..Taken(lines, s)])
  }

  predicate Inv(lines: seq<string>, s: State) {
    && InOrder(lines, s)
    && (!s.alive ==> s.unread == [])
    && (s.at.Half? ==> !s.alive)
    && (s.at.Finished? ==> !s.alive && s.queue == [])
  }

  lemma BeginInOrder(lines: seq<string>)
    ensures Inv(lines, Begin(lines))
  {
    assert [] + lines == lines;
  }

  lemma PutKeepsOrder(lines: seq<string>, s: State)
    requires InOrder(lines, s) && Enabled(s, Put)
    ensures InOrder(lines, Step(AliveFirst, s, Put))
  {
    assert (s.queue + [s.unread[0]]) + s.unread[1..] == s.queue + s.unread;
  }

  lemma GetKeepsOrder(lines: seq<string>, s: State)
    requires InOrder(lines, s) && Enabled(s, Get)
    ensures InOrder(lines, Step(AliveFirst, s, Get))
  {
    var k := Taken(lines, s);
    assert lines[k..][0] == (s.queue + s.unread)[0];
    assert lines[..k + 1] == lines[..k] + [s.queue[0]];
    assert lines[k + 1..] == lines[k..][1..];
    assert (s.queue + s.unread)[1..] == s.queue[1..] + s.unread;
    WantedAppend(lines[..k], s.queue[0]);
  }

  lemma StepKeepsInv(lines: seq<string>, s: State, a: Action)
    requires Inv(lines, s) && Enabled(s, a)
    ensures Inv(lines, Step(AliveFirst, s, a))
  {
    match a
    case Put => PutKeepsOrder(lines, s);
    case Get => GetKeepsOrder(lines, s);
    case _ =>
  }

  lemma {:induction false} RunKeepsInv(lines: seq<string>, s: State, run: seq<Action>)
    requires Inv(lines, s) && CanRun(AliveFirst, s, run)
    ensures Inv(lines, After(AliveFirst, s, run))
    decreases |run|
  {
    if run != [] {
      StepKeepsInv(lines, s, run[0]);
      RunKeepsInv(lines, Step(AliveFirst, s, run[0]), run[1..]);
    }
  }

  lemma YieldedSoFar(lines: seq<string>, s: State)
    requires Inv(lines, s)
    ensures s.yielded <= Wanted(lines)
    ensures s.queue == [] && !s.alive ==> s.yielded == Wanted(lines)
  {
    var k := Taken(lines, s);
    assert lines[..k] + lines[k..] == lines;
    WantedPrefix(lines[..k], lines[k..]);
    if s.queue == [] && !s.alive { assert lines[..k] == lines; }
  }

  // In every interleaving that ends without a timeout, exactly the wanted lines were yielded,
  // in order; until then, and on a timeout, the beginning of them
  lemma NothingIsLost(lines: seq<string>, run: seq<Action>)
    requires CanRun(AliveFirst, Begin(lines), run)
    ensures After(AliveFirst, Begin(lines), run).yielded <= Wanted(lines)
    ensures After(AliveFirst, Begin(lines), run).at.Finished?
      ==> After(AliveFirst, Begin(lines), run).yielded == Wanted(lines)
  {
    BeginInOrder(lines);
    RunKeepsInv(lines, Begin(lines), run);
    YieldedSoFar(lines, After(AliveFirst, Begin(lines), run));
  }

  lemma {:induction false} WantedPrefix(a: seq<string>, b: seq<string>)
    ensures Wanted(a) <= Wanted(a + b)
  {
    if b == [] {
      assert a + b == a;
    } else {
      assert a + b == a + b[..|b| - 1] + [b[|b| - 1]];
      WantedPrefix(a, b[..|b| - 1]);
      WantedAppend(a + b[..|b| - 1], b[|b| - 1]);
    }
  }

  predicate Loses(order: Order, lines: seq<string>, run: seq<Action>) {
    && CanRun(order, Begin(lines), run)
    && After(order, Begin(lines), run).at.Finished?
    && After(order, Begin(lines), run).yielded != Wanted(lines)
  }

  // With the tests the other way round, the last line can arrive between them and be lost
  lemma EmptyFirstLosesALine()
    ensures exists run :: Loses(EmptyFirst, ["a"], run)
  {
    var s0 := Begin(["a"]);
    var s1 := Step(EmptyFirst, s0, Test);
    var s2 := Step(EmptyFirst, s1, Put);
    var s3 := Step(EmptyFirst, s2, Exit);
    var s4 := Step(EmptyFirst, s3, TestAgain);
    var run := [Test, Put, Exit, TestAgain];
    assert run[1..] == [Put, Exit, TestAgain] && [Put, Exit, TestAgain][1..] == [Exit, TestAgain];
    assert [Exit, TestAgain][1..] == [TestAgain] && [TestAgain][1..] == [];
    assert CanRun(EmptyFirst, s3, [TestAgain]) && After(EmptyFirst, s3, [TestAgain]) == s4;
    assert CanRun(EmptyFirst, s2, [Exit, TestAgain]) && After(EmptyFirst, s2, [Exit, TestAgain]) == s4;
    assert CanRun(EmptyFirst, s1, [Put, Exit, TestAgain]) && After(EmptyFirst, s1, [Put, Exit, TestAgain]) == s4;
    assert CanRun(EmptyFirst, s0, run) && After(EmptyFirst, s0, run) == s4;
    assert Clean("a") == "a" && !Blank("a");
    assert ["a"] == [] + ["a"];
    WantedAppend([], "a");
    assert Loses(EmptyFirst, ["a"], run);
  }

  // ------------------------------------------------------------------ the reader's loop

  // What the filling thread does in n steps of its own
  function Fill(s: State, n: nat): State
    decreases n
  {
    if n == 0 || !s.alive then s
    else Fill(Step(AliveFirst, s, if s.unread != [] then Put else Exit), n - 1)
  }

  lemma {:induction false} FillKeepsInv(lines: seq<string>, s: State, n: nat)
    requires Inv(lines, s)
    ensures Inv(lines, Fill(s, n)) && Fill(s, n).at == s.at
    ensures !s.alive ==> Fill(s, n) == s
    decreases n
  {
    if n > 0 && s.alive {
      var a := if s.unread != [] then Put else Exit;
      StepKeepsInv(lines, s, a);
      FillKeepsInv(lines, Step(AliveFirst, s, a), n - 1);
    }
  }

  // Meanwhile the filling thread works on
  method Meanwhile(ghost lines: seq<string>, s: State, n: nat) returns (after: State)
    requires Inv(lines, s)
    ensures Inv(lines, after) && after.at == s.at
    ensures !s.alive ==> after == s
  {
    FillKeepsInv(lines, s, n);
    after := Fill(s, n);
  }

  // Gets a line within the time limit, or nothing
  method TakeOne(ghost lines: seq<string>, s: State) returns (after: State)
    requires Inv(lines, s) && s.at.Testing?
    ensures Inv(lines, after) && after.at.Testing?
  {
    var getting := s.(at := Getting);
    var a := if s.queue != [] then Get else GetNothing;
    StepKeepsInv(lines, getting, a);
    after := Step(AliveFirst, getting, a);
  }

  // read_from_process_stdout.  Before each of its own looks at the thread and at the queue, the
  // filling thread takes as many steps as the schedule says; the deadline bounds the turns.
  method ReadFromProcessStdout(lines: seq<string>, schedule: nat -> nat, turns: nat)
    returns (yielded: seq<string>, timedOut: bool, taken: nat)
    ensures !timedOut ==> yielded == Wanted(lines)
    ensures yielded <= Wanted(lines)
    ensures taken <= turns && (timedOut ==> taken == turns)
  {
    var s := Begin(lines);
    BeginInOrder(lines);
    taken := 0;
    timedOut := true;
    while taken < turns
      invariant taken <= turns
      invariant Inv(lines, s) && s.at.Testing? && timedOut
    {
      s := Meanwhile(lines, s, schedule(3 * taken));
      if !s.alive {
        s := Meanwhile(lines, s, schedule(3 * taken + 1));
        if s.queue == [] {
          timedOut := false;
          break;
        }
      }
      s := Meanwhile(lines, s, schedule(3 * taken + 2));
      s := TakeOne(lines, s);
      taken := taken + 1;
    }
    yielded := s.yielded;
    YieldedSoFar(lines, s);
  }
}
