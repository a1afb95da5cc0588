/** Texts and their lines, which end in a line break, but for the last one. */
module TextLines {
  predicate EndsLine(s: string) {
    s != [] && s[|s| - 1] == '\n'
  }

  // No line is left unfinished
  predicate Finished(s: string) {
    s == [] || EndsLine(s)
  }

  // One line, with or without its line break
  predicate IsLine(s: string) {
    s != [] && NoBreakInside(s)
  }

  predicate NoBreakInside(s: string) {
    forall i :: 0 <= i < |s| - 1 ==> s[i] != '\n'
  }

  // One more character goes to the last line, unless that is finished
  function Extend(lines: seq<string>, c: char): seq<string> {
    var n := |lines|;
    if n > 0 && !EndsLine(lines[n - 1]) then lines[..n - 1] + [lines[n - 1] + [c]] else lines + [[c]]
  }

  // readlines()
  function Lines(s: string): seq<string> {
    if s == [] then [] else Extend(Lines(s[..|s| - 1]), s[|s| - 1])
  }

  // readline() at i: where the line that starts there ends
  function LineEnd(s: string, i: nat): (n: nat)
    requires i <= |s|
    ensures i <= n <= |s| && (i < |s| ==> i < n)
    ensures forall k :: i <= k < n - 1 ==> s[k] != '\n'
    ensures i < n < |s| ==> s[n - 1] == '\n'
    decreases |s| - i
  {
    if i == |s| then i else if s[i] == '\n' then i + 1 else LineEnd(s, i + 1)
  }

  function Concat(parts: seq<string>): string {
    if parts == [] then "" else Concat(parts[..|parts| - 1]) + parts[|parts| - 1]
  }

  lemma Regroup<T>(a: seq<T>, b: seq<T>, c: seq<T>)
    ensures a + (b + c) == (a + b) + c
  {
  }

  lemma ConcatOneMore(parts: seq<string>, part: string)
    ensures Concat(parts + [part]) == Concat(parts) + part
  {
    assert (parts + [part])[..|parts|] == parts;
  }

  lemma {:induction false} ConcatAppend(a: seq<string>, b: seq<string>)
    ensures Concat(a + b) == Concat(a) + Concat(b)
  {
    if b == [] {
      assert a + b == a;
    } else {
      var front, last := b[..|b| - 1], b[|b| - 1];
      assert b == front + [last];
      Regroup(a, front, [last]);
      ConcatOneMore(a + front, last);
      ConcatAppend(a, front);
      Regroup(Concat(a), Concat(front), last);
    }
  }

  // ------------------------------------------------------------------ cutting a text into lines

  lemma LinesOneMore(s: string, c: char)
    ensures Lines(s + [c]) == Extend(Lines(s), c)
  {
    assert (s + [c])[..|s|] == s;
  }

  lemma ConcatOfExtend(lines: seq<string>, c: char)
    ensures Concat(Extend(lines, c)) == Concat(lines) + [c]
  {
    var n := |lines|;
    if n > 0 && !EndsLine(lines[n - 1]) {
      ConcatOneMore(lines[..n - 1], lines[n - 1] + [c]);
      Regroup(Concat(lines[..n - 1]), lines[n - 1], [c]);
    } else {
      ConcatOneMore(lines, [c]);
    }
  }

  // Of these lines only the last one may be unfinished
  predicate AreLines(lines: seq<string>) {
    && (forall k :: 0 <= k < |lines| ==> IsLine(lines[k]))
    && (forall k :: 0 <= k < |lines| - 1 ==> EndsLine(lines[k]))
  }

  predicate LastEnds(lines: seq<string>) {
    lines != [] && EndsLine(lines[|lines| - 1])
  }

  lemma ExtendKeepsLines(lines: seq<string>, c: char)
    requires AreLines(lines)
    ensures AreLines(Extend(lines, c)) && (LastEnds(Extend(lines, c)) <==> c == '\n')
  {
    if lines != [] && !LastEnds(lines) { ExtendLine(lines[|lines| - 1], c); }
  }

  lemma ExtendLine(line: string, c: char)
    requires IsLine(line) && !EndsLine(line)
    ensures IsLine(line + [c]) && (EndsLine(line + [c]) <==> c == '\n')
  {
  }

  // Lines cuts a text into lines and loses nothing of it; only the last one may be unfinished, and
  // it is exactly when the text is
  lemma {:induction false} LinesAreWhole(s: string)
    ensures Concat(Lines(s)) == s && (Lines(s) == [] <==> s == [])
    ensures AreLines(Lines(s)) && (LastEnds(Lines(s)) <==> EndsLine(s))
  {
    if s != [] {
      var front, c := s[..|s| - 1], s[|s| - 1];
      LinesAreWhole(front);
      ConcatOfExtend(Lines(front), c);
      ExtendKeepsLines(Lines(front), c);
      assert s == front + [c];
    }
  }

  lemma ExtendOfConcat(a: seq<string>, b: seq<string>, c: char)
    requires b != [] || a == [] || LastEnds(a)
    ensures Extend(a + b, c) == a + Extend(b, c)
  {
  }

  // After a text that leaves no line unfinished, the lines of another are its own
  lemma {:induction false} LinesAppend(a: string, b: string)
    requires Finished(a)
    ensures Lines(a + b) == Lines(a) + Lines(b)
  {
    if b == [] {
      assert a + b == a;
    } else {
      var front, c := b[..|b| - 1], b[|b| - 1];
      assert b == front + [c] && a + b == (a + front) + [c];
      LinesAppend(a, front);
      LinesOneMore(a + front, c);
      LinesAreWhole(a);
      LinesAreWhole(front);
      ExtendOfConcat(Lines(a), Lines(front), c);
    }
  }

  lemma {:induction false} LinesOfLine(s: string)
    requires IsLine(s)
    ensures Lines(s) == [s]
  {
    var front, c := s[..|s| - 1], s[|s| - 1];
    assert s == front + [c];
    if front != [] {
      assert !EndsLine(front);
      LinesOfLine(front);
    }
  }

  lemma ExtendIsLonger(lines: seq<string>, more: seq<string>, c: char)
    requires |lines| <= |more| && (lines != [] ==> (LastEnds(lines) <==> LastEnds(more)))
    ensures |Extend(lines, c)| <= |Extend(more, c)|
  {
  }

  // The end of a text has no more lines than the text
  lemma {:induction false} FewerLines(a: string, b: string)
    ensures |Lines(b)| <= |Lines(a + b)|
  {
    if b != [] {
      var front, c := b[..|b| - 1], b[|b| - 1];
      assert a + b == (a + front) + [c];
      FewerLines(a, front);
      LinesOneMore(a + front, c);
      LinesAreWhole(front);
      LinesAreWhole(a + front);
      ExtendIsLonger(Lines(front), Lines(a + front), c);
    }
  }

  // ------------------------------------------------------------------ reading on

  // The lines of a text that are still unread from n on
  function Unread(text: string, n: nat): nat {
    if n < |text| then |Lines(text[n..])| else 0
  }

  function Less(a: nat, b: nat): nat { if a > b then a - b else 0 }

  lemma UnreadIsLess(text: string, n: nat)
    ensures Unread(text, n) <= |Lines(text)|
  {
    if n < |text| {
      assert text == text[..n] + text[n..];
      FewerLines(text[..n], text[n..]);
    }
  }

  lemma OneLineLess(text: string, n: nat, m: nat)
    requires n < m <= |text| && text[m - 1] == '\n' && forall k :: n <= k < m - 1 ==> text[k] != '\n'
    ensures Unread(text, m) == Unread(text, n) - 1
  {
    var line, rest := text[n..m], text[m..];
    assert text[n..] == line + rest;
    assert IsLine(line) && EndsLine(line);
    LinesAppend(line, rest);
    LinesOfLine(line);
    LinesAreWhole(rest);
  }

  // Reading a line of a text passes a line of any earlier state of it
  lemma ReadPasses(before: string, text: string, n: nat)
    requires before <= text && n <= |text|
    ensures Unread(before, LineEnd(text, n)) <= Less(Unread(before, n), 1)
  {
    var m := LineEnd(text, n);
    if m < |before| || (m == |before| && m > n && before[m - 1] == '\n') {
      assert before[m - 1] == text[m - 1];
      assert forall k :: n <= k < m - 1 ==> before[k] == text[k];
      OneLineLess(before, n, m);
    }
  }
}
