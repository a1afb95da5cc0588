/**
 Which texts are marker expressions at all, and what they mean: the scanner accepts exactly the
 layouts of tokens, the parser exactly the printed trees, and the exceptions tell which failed.
 */
module MarkerTexts {
  import opened Wrappers
  import opened MarkerScanner
  import opened MarkerExpression

  // ------------------------------------------------------------------ texts and tokens

  predicate AllWritable(ts: seq<Token<string>>) {
    forall t <- ts :: Writable(t)
  }

  // The text is these tokens, with these blanks before, between and after them
  predicate IsLaidOut(s: string, ts: seq<Token<string>>, gaps: seq<string>) {
    AllWritable(ts) && IsLayout(ts, gaps) && Text(ts, gaps) == s
  }

  // The first n characters of the text are blanks and this token, which goes as far as it can
  predicate IsFirst(s: string, gap: string, t: Token<string>, n: nat) {
    && n <= |s| && Blank(gap) && Writable(t) && s[..n] == gap + Lexeme(t)
    && (IsWord(t) && n < |s| ==> !IsNameChar(s[n]))
  }

  lemma BlankMore(c: char, gap: string)
    requires IsSpace(c) && Blank(gap)
    ensures Blank([c] + gap)
  {
    assert ([c] + gap)[1..] == gap;
  }

  lemma AfterSpace(s: string, gap: string, t: Token<string>, n: nat)
    requires s != [] && IsSpace(s[0]) && IsFirst(s[1..], gap, t, n)
    ensures IsFirst(s, [s[0]] + gap, t, n + 1)
  {
    BlankMore(s[0], gap);
    assert s[..n + 1] == [s[0]] + s[1..][..n] == ([s[0]] + gap) + Lexeme(t);
  }

  lemma FirstWithoutSpace(s: string, t: Token<string>, n: nat)
    requires s != [] && !IsSpace(s[0]) && Match(s) == Some((t, n))
    ensures IsFirst(s, "", t, n)
  {
    assert s[..1] == [s[0]];
    if IsNameStart(s[0]) { WordIsWritable(s); }
    assert "" + Lexeme(t) == Lexeme(t);
  }

  lemma {:induction false} MatchIsFirst(s: string, t: Token<string>, n: nat) returns (gap: string)
    requires Match(s) == Some((t, n))
    ensures IsFirst(s, gap, t, n)
    decreases |s|
  {
    if IsSpace(s[0]) {
      gap := MatchIsFirst(s[1..], t, n - 1);
      AfterSpace(s, gap, t, n - 1);
      gap := [s[0]] + gap;
    } else {
      gap := "";
      FirstWithoutSpace(s, t, n);
    }
  }

  lemma WordIsWritable(s: string)
    requires s != [] && IsNameStart(s[0])
    ensures var word := s[..Span(IsNameChar, s)]; Writable(Classify(word)) && Lexeme(Classify(word)) == word
  {
  }

  lemma TextOfFirst(s: string, gap: string, t: Token<string>, n: nat, ts: seq<Token<string>>, gaps: seq<string>)
    requires IsFirst(s, gap, t, n) && IsLaidOut(s[n..], ts, gaps)
    ensures IsLaidOut(s, [t] + ts, [gap] + gaps)
  {
    var ts', gaps' := [t] + ts, [gap] + gaps;
    assert ts'[1..] == ts && gaps'[1..] == gaps && s == s[..n] + s[n..];
    forall i | 0 <= i < |ts'| - 1 && IsWord(ts'[i]) && IsWord(ts'[i + 1]) ensures gaps'[i + 1] != [] {
      if i == 0 {
        if gaps[0] == [] { FirstOfWord(ts, gaps); }
      } else {
        assert IsWord(ts[i - 1]) && IsWord(ts[i]);
      }
    }
  }

  // A text that starts with a word starts with a character that would prolong one
  lemma FirstOfWord(ts: seq<Token<string>>, gaps: seq<string>)
    requires ts != [] && |gaps| == |ts| + 1 && AllWritable(ts) && IsWord(ts[0]) && gaps[0] == []
    ensures Text(ts, gaps) != [] && IsNameChar(Text(ts, gaps)[0])
  {
    assert ts[0] in ts && Text(ts, gaps)[0] == Lexeme(ts[0])[0];
  }

  lemma {:induction false} ScannedIsLaidOut(s: string, ts: seq<Token<string>>) returns (gaps: seq<string>)
    requires Scan(s) == Some(ts)
    ensures IsLaidOut(s, ts, gaps)
    decreases |s|
  {
    if Blank(s) {
      gaps := [s];
    } else {
      var (t, n) := Match(s).value;
      var gap := MatchIsFirst(s, t, n);
      var rest := ScannedIsLaidOut(s[n..], ts[1..]);
      gaps := [gap] + rest;
      TextOfFirst(s, gap, t, n, ts[1..], rest);
      assert [t] + ts[1..] == ts;
    }
  }

  // The scanner gives these tokens exactly when the text is a layout of them: so it loses and
  // invents nothing, and refuses exactly the texts that are a layout of no tokens
  lemma ScanInvertsLayout(s: string, ts: seq<Token<string>>)
    ensures Scan(s) == Some(ts) <==> exists gaps :: IsLaidOut(s, ts, gaps)
  {
    if Scan(s) == Some(ts) { var gaps := ScannedIsLaidOut(s, ts); }
    if gaps :| IsLaidOut(s, ts, gaps) { ScanText(ts, gaps); }
  }

  // ------------------------------------------------------------------ tokens and trees

  // A tree that binds as tightly as asked for, and is parsed as e, is printed before the rest
  predicate IsPrinted<A(==)>(source: Expr<A>, level: nat, ts: seq<Token<A>>, e: Expr<A>, rest: seq<Token<A>>) {
    Level(source) >= level && Print(source, level) + rest == ts && Strip(source) == e
  }

  lemma LowerLevel<A>(source: Expr<A>, level: nat, ts: seq<Token<A>>, e: Expr<A>, rest: seq<Token<A>>, lower: nat)
    requires IsPrinted(source, level, ts, e, rest) && lower <= level
    ensures IsPrinted(source, lower, ts, e, rest)
  {
  }

  lemma FirstToken<A>(ts: seq<Token<A>>, t: Token<A>)
    requires Starts(ts, t)
    ensures ts == [t] + ts[1..]
  {
  }

  lemma {:induction false} OrIsPrinted<A>(ts: seq<Token<A>>, e: Expr<A>, rest: seq<Token<A>>)
    returns (source: Expr<A>)
    requires ParseOr(ts) == Some((e, rest))
    ensures IsPrinted(source, 0, ts, e, rest)
    decreases |ts|, 4
  {
    var (left, after) := ParseAnd(ts).value;
    var l := AndIsPrinted(ts, left, after);
    if Starts(after, OrOp) {
      var r := OrIsPrinted(after[1..], e.right, rest);
      source := Or(l, r);
      FirstToken(after, OrOp);
      PrintOr(source, rest);
    } else {
      source := l;
      LowerLevel(l, 1, ts, e, rest, 0);
    }
  }

  lemma {:induction false} AndIsPrinted<A>(ts: seq<Token<A>>, e: Expr<A>, rest: seq<Token<A>>)
    returns (source: Expr<A>)
    requires ParseAnd(ts) == Some((e, rest))
    ensures IsPrinted(source, 1, ts, e, rest)
    decreases |ts|, 3
  {
    var (left, after) := ParseNot(ts).value;
    var l := NotIsPrinted(ts, left, after);
    if Starts(after, AndOp) {
      var r := AndIsPrinted(after[1..], e.right, rest);
      source := And(l, r);
      FirstToken(after, AndOp);
      PrintAnd(source, rest);
    } else {
      source := l;
      LowerLevel(l, 2, ts, e, rest, 1);
    }
  }

  lemma {:induction false} NotIsPrinted<A>(ts: seq<Token<A>>, e: Expr<A>, rest: seq<Token<A>>)
    returns (source: Expr<A>)
    requires ParseNot(ts) == Some((e, rest))
    ensures IsPrinted(source, 2, ts, e, rest)
    decreases |ts|, 2
  {
    if Starts(ts, NotOp) {
      var arg := NotIsPrinted(ts[1..], e.arg, rest);
      source := Not(arg);
      FirstToken(ts, NotOp);
      PrintNot(source, rest);
    } else {
      source := PrimaryIsPrinted(ts, e, rest);
      LowerLevel(source, 3, ts, e, rest, 2);
    }
  }

  lemma {:induction false} PrimaryIsPrinted<A>(ts: seq<Token<A>>, e: Expr<A>, rest: seq<Token<A>>)
    returns (source: Expr<A>)
    requires ParsePrimary(ts) == Some((e, rest))
    ensures IsPrinted(source, 3, ts, e, rest)
    decreases |ts|, 1
  {
    if ts[0].Operand? {
      source := CallsArePrinted(ts[1..], Lit(ts[0].value), e, rest);
      assert Print(Lit(ts[0].value), 3) + ts[1..] == ts;
    } else if Starts(ts[1..], RParen) {
      source := CallsArePrinted(ts[2..], Unit, e, rest);
      assert Print(Unit, 3) + ts[2..] == ts;
    } else {
      var (_, after) := ParseOr(ts[1..]).value;
      var inner := OrIsPrinted(ts[1..], ParseOr(ts[1..]).value.0, after);
      FirstToken(after, RParen);
      source := CallsArePrinted(after[1..], Group(inner), e, rest);
      assert Print(Group(inner), 3) + after[1..] == [LParen] + (Print(inner, 0) + ([RParen] + after[1..]));
      FirstToken(ts, LParen);
    }
  }

  lemma {:induction false} CallsArePrinted<A>(
      ts: seq<Token<A>>, callee: Expr<A>, e: Expr<A>, rest: seq<Token<A>>) returns (source: Expr<A>)
    requires Level(callee) == 3 && ParseCalls(Strip(callee), ts) == Some((e, rest))
    ensures IsPrinted(source, 3, Print(callee, 3) + ts, e, rest)
    decreases |ts|, 0
  {
    if !Starts(ts, LParen) {
      source := callee;
    } else if Starts(ts[1..], RParen) {
      var call := Call(callee, None);
      source := CallsArePrinted(ts[2..], call, e, rest);
      PrintCall(call, ts[2..]);
      assert [LParen, RParen] + ts[2..] == ts;
    } else {
      var after := ParseOr(ts[1..]).value.1;
      var argument := OrIsPrinted(ts[1..], ParseOr(ts[1..]).value.0, after);
      var call := Call(callee, Some(argument));
      FirstToken(after, RParen);
      source := CallsArePrinted(after[1..], call, e, rest);
      PrintCall(call, after[1..]);
      FirstToken(ts, LParen);
    }
  }

  // The parser gives a tree exactly when the tokens are what is printed of it, with some choice of
  // further parentheses: so it accepts no other tokens
  lemma ParseInvertsPrint<A>(ts: seq<Token<A>>, e: Expr<A>)
    ensures Parse(ts) == Some(e) <==> exists source :: Print(source, 0) == ts && Strip(source) == e
  {
    if Parse(ts) == Some(e) {
      var source := OrIsPrinted(ts, e, []);
      assert Print(source, 0) + [] == Print(source, 0);
    }
    if source :| Print(source, 0) == ts && Strip(source) == e { ParsePrintRoundTrip(source); }
  }

  // ------------------------------------------------------------------ what a text means

  // The text is this tree, printed with these gaps
  predicate IsWritten(s: string, source: Expr<string>, gaps: seq<string>) {
    IsLaidOut(s, Print(source, 0), gaps)
  }

  ghost predicate IsTokens(s: string, ts: seq<Token<string>>) {
    exists gaps :: IsLaidOut(s, ts, gaps)
  }

  ghost predicate IsTree(ts: seq<Token<string>>) {
    exists source :: Print(source, 0) == ts
  }

  // What evaluating the tree comes to, operand by operand
  function ValueOf(source: Expr<string>, markers: set<string>): Result<bool, Error> {
    var truth := (name: string) => name in markers;
    if ReachesCall(Strip(source), truth) then Err(TypeError) else Ok(Value(Strip(source), truth))
  }

  // A text that is a tree means what the tree does, and no text is two trees that differ in that
  lemma WrittenMeans(s: string, source: Expr<string>, gaps: seq<string>, markers: set<string>)
    requires IsWritten(s, source, gaps)
    ensures Meaning(s, markers) == ValueOf(source, markers)
  {
    ScanText(Print(source, 0), gaps);
    ParsePrintRoundTrip(source);
    EvalRaisesAtCalls(Strip(source), (name: string) => name in markers);
    SameTruth(Strip(source), markers);
  }

  lemma {:induction false} SameTruth(e: Expr<string>, markers: set<string>)
    ensures Eval(e, name => name in markers) == Eval(e, (name: string) => name in markers)
  {
    EvalSubst(e, markers);
  }

  // Every text is of one of three kinds, and the exceptions tell which: it is no tokens, or its
  // tokens are no tree, or it is a tree and means what that does
  lemma MeaningOfText(s: string, markers: set<string>)
    ensures Meaning(s, markers) == Err(InvalidMarker) <==> !exists ts :: IsTokens(s, ts)
    ensures Meaning(s, markers) == Err(SyntaxError) <==> exists ts :: IsTokens(s, ts) && !IsTree(ts)
    ensures forall r: Result<bool, Error> :: r.Ok? || r == Err(TypeError) ==>
      (Meaning(s, markers) == r <==>
       exists source, gaps :: IsWritten(s, source, gaps) && ValueOf(source, markers) == r)
  {
    forall ts ensures Scan(s) == Some(ts) <==> IsTokens(s, ts) { ScanInvertsLayout(s, ts); }
    if Scan(s).Some? {
      var ts := Scan(s).value;
      assert IsTokens(s, ts);
      if Parse(ts).Some? {
        TreeIsWritten(s, ts);
        var source, gaps :| IsWritten(s, source, gaps);
        WrittenMeans(s, source, gaps, markers);
      } else {
        forall source ensures Print(source, 0) != ts { ParsePrintRoundTrip(source); }
      }
    }
    forall source, gaps | IsWritten(s, source, gaps) ensures Meaning(s, markers) == ValueOf(source, markers) {
      WrittenMeans(s, source, gaps, markers);
    }
  }

  lemma TreeIsWritten(s: string, ts: seq<Token<string>>)
    requires IsTokens(s, ts) && Parse(ts).Some?
    ensures IsTree(ts) && exists source, gaps :: IsWritten(s, source, gaps)
  {
    var gaps :| IsLaidOut(s, ts, gaps);
    ParseInvertsPrint(ts, Parse(ts).value);
    var source :| Print(source, 0) == ts && Strip(source) == Parse(ts).value;
    assert IsWritten(s, source, gaps);
  }
}
