/** The marker expressions of the pipelines there are, as they are written, and Python's precedence. */
module PipelineMarkers {
  import opened Wrappers
  import opened MarkerScanner
  import opened MarkerExpression
  import opened Pipelines

  // ------------------------------------------------------------------ precedence

  function Or3(a: string, b: string, c: string): seq<Token<string>> {
    [Operand(a), OrOp, Operand(b), AndOp, Operand(c)]
  }

  function And3(a: string, b: string, c: string): seq<Token<string>> {
    [Operand(a), AndOp, Operand(b), OrOp, Operand(c)]
  }

  function NotAnd(a: string, b: string): seq<Token<string>> {
    [NotOp, Operand(a), AndOp, Operand(b)]
  }

  // Without parentheses, however it is laid out: and binds more tightly than or, and not more
  // tightly than and
  lemma PythonPrecedence(a: string, b: string, c: string, gaps: seq<string>, markers: set<string>)
    requires IsName(a) && IsName(b) && IsName(c)
    ensures IsLayout(Or3(a, b, c), gaps) ==>
      Meaning(Text(Or3(a, b, c), gaps), markers) == Ok(a in markers || (b in markers && c in markers))
    ensures IsLayout(And3(a, b, c), gaps) ==>
      Meaning(Text(And3(a, b, c), gaps), markers) == Ok((a in markers && b in markers) || c in markers)
    ensures IsLayout(NotAnd(a, b), gaps) ==>
      Meaning(Text(NotAnd(a, b), gaps), markers) == Ok(a !in markers && b in markers)
  {
    if IsLayout(Or3(a, b, c), gaps) { AndBeforeOr(a, b, c, gaps, markers); }
    if IsLayout(And3(a, b, c), gaps) { OrAfterAnd(a, b, c, gaps, markers); }
    if IsLayout(NotAnd(a, b), gaps) { NotBeforeAnd(a, b, gaps, markers); }
  }

  lemma LitMeans(a: string, markers: set<string>)
    requires IsName(a)
    ensures Boolean(Lit(a)) && WritableExpr(Lit(a)) && Selects(Lit(a), markers) == (a in markers)
  {
  }

  lemma AndBeforeOr(a: string, b: string, c: string, gaps: seq<string>, markers: set<string>)
    requires IsName(a) && IsName(b) && IsName(c) && IsLayout(Or3(a, b, c), gaps)
    ensures Meaning(Text(Or3(a, b, c), gaps), markers) == Ok(a in markers || (b in markers && c in markers))
  {
    var right := And(Lit(b), Lit(c));
    PrintAndIs(Lit(b), Lit(c), 0);
    PrintOrIs(Lit(a), right);
    assert Print(Or(Lit(a), right), 0) == Or3(a, b, c);
    LitMeans(b, markers);
    LitMeans(c, markers);
    assert Boolean(right) && WritableExpr(right) && Selects(right, markers) == (b in markers && c in markers);
    MeaningOfPrintedTree(Or(Lit(a), right), gaps, markers);
  }

  lemma OrAfterAnd(a: string, b: string, c: string, gaps: seq<string>, markers: set<string>)
    requires IsName(a) && IsName(b) && IsName(c) && IsLayout(And3(a, b, c), gaps)
    ensures Meaning(Text(And3(a, b, c), gaps), markers) == Ok((a in markers && b in markers) || c in markers)
  {
    var left := And(Lit(a), Lit(b));
    PrintAndIs(Lit(a), Lit(b), 1);
    PrintOrIs(left, Lit(c));
    assert Print(Or(left, Lit(c)), 0) == And3(a, b, c);
    LitMeans(a, markers);
    LitMeans(b, markers);
    assert Boolean(left) && WritableExpr(left) && Selects(left, markers) == (a in markers && b in markers);
    MeaningOfPrintedTree(Or(left, Lit(c)), gaps, markers);
  }

  lemma NotBeforeAnd(a: string, b: string, gaps: seq<string>, markers: set<string>)
    requires IsName(a) && IsName(b) && IsLayout(NotAnd(a, b), gaps)
    ensures Meaning(Text(NotAnd(a, b), gaps), markers) == Ok(a !in markers && b in markers)
  {
    var left := Not(Lit(a));
    assert Print(left, 2) == [NotOp] + Print(Lit(a), 2);
    PrintAndIs(left, Lit(b), 0);
    assert Print(And(left, Lit(b)), 0) == NotAnd(a, b);
    LitMeans(a, markers);
    assert Boolean(left) && WritableExpr(left) && Selects(left, markers) == (a !in markers);
    MeaningOfPrintedTree(And(left, Lit(b)), gaps, markers);
  }

  lemma PrintAndIs(l: Expr<string>, r: Expr<string>, level: nat)
    requires level <= 1
    ensures Print(And(l, r), level) == Print(l, 2) + [AndOp] + Print(r, 1)
  {
  }

  lemma PrintOrIs(l: Expr<string>, r: Expr<string>)
    ensures Print(Or(l, r), 0) == Print(l, 1) + [OrOp] + Print(r, 0)
  {
  }

  // ------------------------------------------------------------------ the expressions as written

  lemma TextMore(t: Token<string>, ts: seq<Token<string>>, gap: string, gaps: seq<string>)
    requires |gaps| == |ts| + 1
    ensures Text([t] + ts, [gap] + gaps) == gap + Lexeme(t) + Text(ts, gaps)
  {
    assert ([t] + ts)[1..] == ts && ([gap] + gaps)[1..] == gaps;
  }

  lemma NamesOfMarkers()
    ensures IsName("zmq") && IsName("test_mode_ue") && IsName("interop") && IsName("s72")
    ensures IsName("test_mode_ru") && IsName("rf") && IsName("android") && IsName(WEEKLY_MARKER)
  {
  }

  // The tokens of (a or b) and [not] weekly, and the blanks with which the pipelines write them
  function TestbedTokens(a: string, b: string, weekly: bool): seq<Token<string>> {
    [LParen, Operand(a), OrOp, Operand(b), RParen, AndOp] + LastTokens(weekly)
  }

  function LastTokens(weekly: bool): seq<Token<string>> {
    if weekly then [Operand(WEEKLY_MARKER)] else [NotOp, Operand(WEEKLY_MARKER)]
  }

  function TestbedGaps(weekly: bool): seq<string> {
    ["", "", " ", " ", "", " "] + LastGaps(weekly)
  }

  lemma PrintTestbeds(a: string, b: string, weekly: bool)
    ensures Print(OnTestbeds(a, b, weekly), 0) == TestbedTokens(a, b, weekly)
  {
    var either := Or(Lit(a), Lit(b));
    PrintOrIs(Lit(a), Lit(b));
    assert Print(Group(either), 2) == [LParen] + Print(either, 0) + [RParen];
    var last := if weekly then Lit(WEEKLY_MARKER) else Not(Lit(WEEKLY_MARKER));
    assert Print(Not(Lit(WEEKLY_MARKER)), 1) == [NotOp] + Print(Lit(WEEKLY_MARKER), 2);
    PrintAndIs(Group(either), last, 0);
  }

  lemma TextOfLast(weekly: bool)
    ensures Text(LastTokens(weekly), LastGaps(weekly))
      == if weekly then " weekly" else " not weekly"
  {
    var w := Operand(WEEKLY_MARKER);
    TextMore(w, [], " ", [""]);
    TextMore(NotOp, [w], " ", [" ", ""]);
    assert [w] + [] == [w] && [" "] + [""] == [" ", ""];
    assert [NotOp] + [w] == [NotOp, w] && [" "] + [" ", ""] == [" ", " ", ""];
  }

  function TestbedText(a: string, b: string, weekly: bool): string {
    "(" + a + " or " + b + ") and" + if weekly then " weekly" else " not weekly"
  }

  lemma Cons3<T>(a: T, b: T, c: T, rest: seq<T>)
    ensures [a] + ([b] + ([c] + rest)) == [a, b, c] + rest
  {
  }

  lemma TextMore3(
      t: Token<string>, u: Token<string>, v: Token<string>, ts: seq<Token<string>>,
      g: string, h: string, i: string, gaps: seq<string>)
    requires |gaps| == |ts| + 1
    ensures Text([t, u, v] + ts, [g, h, i] + gaps)
      == g + Lexeme(t) + (h + Lexeme(u) + (i + Lexeme(v) + Text(ts, gaps)))
  {
    var ts1, gaps1 := [v] + ts, [i] + gaps;
    var ts2, gaps2 := [u] + ts1, [h] + gaps1;
    TextMore(v, ts, i, gaps);
    TextMore(u, ts1, h, gaps1);
    TextMore(t, ts2, g, gaps2);
    Cons3(t, u, v, ts);
    Cons3(g, h, i, gaps);
  }

  function LastGaps(weekly: bool): seq<string> {
    if weekly then [" ", ""] else [" ", " ", ""]
  }

  lemma TestbedsAreWritten(a: string, b: string, weekly: bool)
    ensures Text(TestbedTokens(a, b, weekly), TestbedGaps(weekly)) == TestbedText(a, b, weekly)
  {
    var ts, gaps := LastTokens(weekly), LastGaps(weekly);
    TextOfLast(weekly);
    TextMore3(Operand(b), RParen, AndOp, ts, " ", "", " ", gaps);
    TextMore3(LParen, Operand(a), OrOp, [Operand(b), RParen, AndOp] + ts, "", "", " ", [" ", "", " "] + gaps);
    assert TestbedTokens(a, b, weekly) == [LParen, Operand(a), OrOp] + ([Operand(b), RParen, AndOp] + ts);
    assert TestbedGaps(weekly) == ["", "", " "] + ([" ", "", " "] + gaps);
    SameText(a, b, if weekly then " weekly" else " not weekly");
  }

  lemma SameText(a: string, b: string, last: string)
    ensures "" + "(" + ("" + a + (" " + "or" + (" " + b + ("" + ")" + (" " + "and" + last)))))
      == "(" + a + " or " + b + ") and" + last
  {
    assert " " + "or" + (" " + b + ("" + ")" + (" " + "and" + last))) == " or " + b + (") and" + last);
  }

  lemma TestbedLayout(a: string, b: string, weekly: bool)
    ensures IsLayout(TestbedTokens(a, b, weekly), TestbedGaps(weekly))
  {
    assert Blank("") && Blank(" ");
  }

  // As the pipelines write it, the expression of two testbeds selects the test cases of either
  // that are, or are not, weekly
  lemma MeaningOnTestbeds(a: string, b: string, weekly: bool, markers: set<string>)
    requires IsName(a) && IsName(b)
    ensures Meaning(TestbedText(a, b, weekly), markers)
      == Ok((a in markers || b in markers) && (weekly <==> WEEKLY_MARKER in markers))
  {
    PrintTestbeds(a, b, weekly);
    TestbedLayout(a, b, weekly);
    TestbedsAreWritten(a, b, weekly);
    OnTestbedsSelects(a, b, weekly, markers);
    MeaningOfPrintedTree(OnTestbeds(a, b, weekly), TestbedGaps(weekly), markers);
  }

  lemma TextOfFunctional()
    ensures TestbedText("zmq", "test_mode_ue", false) == "(zmq or test_mode_ue) and not weekly"
  {
  }

  lemma TextOfPerformance(weekly: bool)
    ensures TestbedText("s72", "test_mode_ru", weekly)
      == if weekly then "(s72 or test_mode_ru) and weekly" else "(s72 or test_mode_ru) and not weekly"
  {
  }

  lemma TextOfRf()
    ensures TestbedText("rf", "android", false) == "(rf or android) and not weekly"
  {
  }

  // a and not weekly
  function Alone(a: string): Expr<string> {
    And(Lit(a), Not(Lit(WEEKLY_MARKER)))
  }

  lemma PrintAlone(a: string)
    ensures Print(Alone(a), 0) == [Operand(a)] + ([AndOp] + LastTokens(false))
  {
    assert Print(Not(Lit(WEEKLY_MARKER)), 1) == [NotOp] + Print(Lit(WEEKLY_MARKER), 2);
    PrintAndIs(Lit(a), Not(Lit(WEEKLY_MARKER)), 0);
  }

  lemma AloneIsWritten(a: string)
    ensures Text([Operand(a)] + ([AndOp] + LastTokens(false)), [""] + ([" "] + LastGaps(false)))
      == a + " and" + " not weekly"
  {
    TextOfLast(false);
    TextMore(AndOp, LastTokens(false), " ", LastGaps(false));
    TextMore(Operand(a), [AndOp] + LastTokens(false), "", [" "] + LastGaps(false));
    assert "" + a == a && " " + "and" == " and";
  }

  lemma AloneLayout(a: string)
    ensures IsLayout([Operand(a)] + ([AndOp] + LastTokens(false)), [""] + ([" "] + LastGaps(false)))
  {
    assert Blank("") && Blank(" ");
  }

  lemma MeaningAlone(a: string, markers: set<string>)
    requires IsName(a)
    ensures Meaning(a + " and" + " not weekly", markers) == Ok(a in markers && WEEKLY_MARKER !in markers)
  {
    PrintAlone(a);
    AloneLayout(a);
    AloneIsWritten(a);
    LitMeans(a, markers);
    LitMeans(WEEKLY_MARKER, markers);
    assert Selects(Not(Lit(WEEKLY_MARKER)), markers) == (WEEKLY_MARKER !in markers);
    MeaningOfPrintedTree(Alone(a), [""] + ([" "] + LastGaps(false)), markers);
  }

  lemma MeaningOfInterop(markers: set<string>)
    ensures Meaning("interop and not weekly", markers) == Ok("interop" in markers && "weekly" !in markers)
  {
    NamesOfMarkers();
    MeaningAlone("interop", markers);
    TextOfInterop();
  }

  lemma TextOfInterop()
    ensures "interop" + " and" + " not weekly" == "interop and not weekly"
  {
  }

  // The pipelines there are, as they are written, whatever the markers of a test case
  lemma MeaningOfPipelines(markers: set<string>)
    ensures Meaning("(zmq or test_mode_ue) and not weekly", markers)
      == Ok(("zmq" in markers || "test_mode_ue" in markers) && "weekly" !in markers)
    ensures Meaning("interop and not weekly", markers) == Ok("interop" in markers && "weekly" !in markers)
    ensures Meaning("(s72 or test_mode_ru) and not weekly", markers)
      == Ok(("s72" in markers || "test_mode_ru" in markers) && "weekly" !in markers)
    ensures Meaning("(rf or android) and not weekly", markers)
      == Ok(("rf" in markers || "android" in markers) && "weekly" !in markers)
    ensures Meaning("(s72 or test_mode_ru) and weekly", markers)
      == Ok(("s72" in markers || "test_mode_ru" in markers) && "weekly" in markers)
  {
    MeaningOfFunctional(markers);
    MeaningOfInterop(markers);
    MeaningOfPerformance(markers);
    MeaningOfRf(markers);
  }

  lemma MeaningOfFunctional(markers: set<string>)
    ensures Meaning("(zmq or test_mode_ue) and not weekly", markers)
      == Ok(("zmq" in markers || "test_mode_ue" in markers) && "weekly" !in markers)
  {
    NamesOfMarkers();
    MeaningOnTestbeds("zmq", "test_mode_ue", false, markers);
    TextOfFunctional();
  }

  lemma MeaningOfPerformance(markers: set<string>)
    ensures Meaning("(s72 or test_mode_ru) and not weekly", markers)
      == Ok(("s72" in markers || "test_mode_ru" in markers) && "weekly" !in markers)
    ensures Meaning("(s72 or test_mode_ru) and weekly", markers)
      == Ok(("s72" in markers || "test_mode_ru" in markers) && "weekly" in markers)
  {
    NamesOfMarkers();
    MeaningOnTestbeds("s72", "test_mode_ru", false, markers);
    MeaningOnTestbeds("s72", "test_mode_ru", true, markers);
    TextOfPerformance(false);
    TextOfPerformance(true);
  }

  lemma MeaningOfRf(markers: set<string>)
    ensures Meaning("(rf or android) and not weekly", markers)
      == Ok(("rf" in markers || "android" in markers) && "weekly" !in markers)
  {
    NamesOfMarkers();
    MeaningOnTestbeds("rf", "android", false, markers);
    TextOfRf();
  }
}
