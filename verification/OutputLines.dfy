/**
 What the reader of a process's output makes of the lines: which of them it yields, and what is
 left of those.
 */
module OutputLines {
  import opened Sequences
  import opened MarkerScanner
  import opened StdoutReader

  // The spaces there are below U+0080
  const ASCII_SPACES: string := "\t\n\U{0b}\U{0c}\r\U{1c}\U{1d}\U{1e}\U{1f} "

  lemma AsciiSpaces(c: char)
    requires c < '\U{80}'
    ensures IsSpace(c) <==> c in ASCII_SPACES
  {
    var spaces := ASCII_SPACES;
    assert spaces[0] == '\t' && spaces[1] == '\n' && spaces[2] == '\U{0b}' && spaces[3] == '\U{0c}';
    assert spaces[4] == '\r' && spaces[5] == '\U{1c}' && spaces[6] == '\U{1d}' && spaces[7] == '\U{1e}';
    assert spaces[8] == '\U{1f}' && spaces[9] == ' ' && |spaces| == 10;
  }

  // ------------------------------------------------------------------ the ASCII part

  // The characters below U+0080, in order
  ghost predicate IsAscii(line: string, part: string, places: seq<nat>) {
    && Picks(places, |line|, (k: nat) => k < |line| && line[k] < '\U{80}')
    && |part| == |places|
    && forall i :: 0 <= i < |places| ==> places[i] < |line| && part[i] == line[places[i]]
  }

  lemma {:induction false} AsciiAppend(a: string, b: string)
    ensures Ascii(a + b) == Ascii(a) + Ascii(b)
  {
    if a == [] {
      assert a + b == b;
    } else {
      assert (a + b)[1..] == a[1..] + b;
      AsciiAppend(a[1..], b);
    }
  }

  lemma {:induction false} AsciiOfPrefix(line: string, n: nat, p: nat -> bool, f: nat -> char)
    requires n <= |line| && forall k :: 0 <= k < |line| ==> p(k) == (line[k] < '\U{80}') && f(k) == line[k]
    ensures Ascii(line[..n]) == Images(Where(n, p), f)
  {
    if n > 0 {
      AsciiOfPrefix(line, n - 1, p, f);
      assert line[..n] == line[..n - 1] + [line[n - 1]];
      AsciiAppend(line[..n - 1], [line[n - 1]]);
      ImagesOneMore(n - 1, p, f);
    }
  }

  // Encoding keeps exactly the characters below U+0080, in order
  lemma AsciiKeeps(line: string) returns (places: seq<nat>)
    ensures IsAscii(line, Ascii(line), places)
  {
    var p := (k: nat) => k < |line| && line[k] < '\U{80}';
    places := Where(|line|, p);
    WherePicks(|line|, p);
    AsciiOfPrefix(line, |line|, p, (k: nat) => if k < |line| then line[k] else ' ');
    assert line[..|line|] == line;
  }

  // ------------------------------------------------------------------ trailing spaces

  predicate AllSpaces(s: string) {
    forall c <- s :: IsSpace(c)
  }

  // The text is this one with spaces after it, and this one does not end in a space
  predicate IsStripped(s: string, front: string) {
    && front <= s && AllSpaces(s[|front|..])
    && (front != "" ==> !IsSpace(front[|front| - 1]))
  }

  lemma {:induction false} RStripStrips(s: string)
    ensures IsStripped(s, RStrip(s))
  {
    if s != [] && IsSpace(s[|s| - 1]) {
      var n := |s| - 1;
      RStripStrips(s[..n]);
      assert s[|RStrip(s)|..] == s[..n][|RStrip(s)|..] + [s[n]];
    }
  }

  lemma LastIsSpace(s: string, a: string, b: string)
    requires a <= s && b <= s && |b| < |a| && AllSpaces(s[|b|..])
    ensures IsSpace(a[|a| - 1])
  {
    assert s[|b|..][|a| - 1 - |b|] == a[|a| - 1];
  }

  lemma StrippedOnce(s: string, a: string, b: string)
    requires IsStripped(s, a) && IsStripped(s, b)
    ensures |a| <= |b|
  {
    if |b| < |a| { LastIsSpace(s, a, b); }
  }

  // What is left of a line after cleaning is its ASCII part without the spaces at the end, and
  // nothing else is
  lemma CleanIs(line: string, cleaned: string)
    ensures cleaned == Clean(line) <==> IsStripped(Ascii(line), cleaned)
  {
    RStripStrips(Ascii(line));
    if IsStripped(Ascii(line), cleaned) {
      StrippedOnce(Ascii(line), cleaned, Clean(line));
      StrippedOnce(Ascii(line), Clean(line), cleaned);
    }
  }

  // ------------------------------------------------------------------ which lines are yielded

  // Some character of the line is below U+0080 and no space
  predicate IsPrinted(line: string) {
    exists c <- line :: c < '\U{80}' && c !in ASCII_SPACES
  }

  lemma AsciiOfPrinted(line: string)
    ensures AllSpaces(Ascii(line)) <==> !IsPrinted(line)
  {
    var places := AsciiKeeps(line);
    forall k | 0 <= k < |line| { AsciiIsKept(line, places, k); }
    if AllSpaces(Ascii(line)) {
      forall c | c in line && c < '\U{80}' ensures c in ASCII_SPACES { AsciiSpaces(c); }
    } else {
      var i :| 0 <= i < |places| && !IsSpace(Ascii(line)[i]);
      assert places[i] in places;
      AsciiSpaces(line[places[i]]);
    }
  }

  lemma AsciiIsKept(line: string, places: seq<nat>, k: nat)
    requires IsAscii(line, Ascii(line), places) && k < |line|
    ensures line[k] < '\U{80}' ==> line[k] in Ascii(line)
  {
    if line[k] < '\U{80}' {
      assert k in places;
      var i :| 0 <= i < |places| && places[i] == k;
      assert Ascii(line)[i] == line[k];
    }
  }

  // A line is yielded exactly when it has a character below U+0080 that is no space
  lemma YieldedWhenPrinted(line: string)
    ensures Blank(Clean(line)) <==> !IsPrinted(line)
  {
    BlankMeansEmpty(Ascii(line));
    CleanIs(line, Clean(line));
    AsciiOfPrinted(line);
    var rest := Ascii(line)[|Clean(line)|..];
    assert Clean(line) == "" ==> rest == Ascii(line);
  }

  // In order, of each line that has something to print, the ASCII part without the spaces at
  // its end
  ghost predicate IsOutput(lines: seq<string>, yielded: seq<string>, places: seq<nat>) {
    && Picks(places, |lines|, (k: nat) => k < |lines| && IsPrinted(lines[k]))
    && |yielded| == |places|
    && forall i :: 0 <= i < |places| ==> IsOutputOf(lines, places[i], yielded[i])
  }

  predicate IsOutputOf(lines: seq<string>, k: nat, yielded: string) {
    k < |lines| && IsStripped(Ascii(lines[k]), yielded)
  }

  // Line k is yielded, and as this, exactly as p and f say
  predicate IsToldBy(lines: seq<string>, k: nat, p: nat -> bool, f: nat -> string) {
    k < |lines| ==> p(k) == !Blank(Clean(lines[k])) && f(k) == Clean(lines[k])
  }

  lemma WantedOneMore(lines: seq<string>, n: nat, p: nat -> bool, f: nat -> string)
    requires n < |lines| && IsToldBy(lines, n, p, f)
    ensures Wanted(lines[..n + 1]) == Wanted(lines[..n]) + if p(n) then [f(n)] else []
  {
    assert lines[..n + 1] == lines[..n] + [lines[n]];
    WantedAppend(lines[..n], lines[n]);
  }

  lemma {:induction false} WantedOfPrefix(lines: seq<string>, n: nat, p: nat -> bool, f: nat -> string)
    requires n <= |lines| && forall k :: 0 <= k < |lines| ==> IsToldBy(lines, k, p, f)
    ensures Wanted(lines[..n]) == Images(Where(n, p), f)
  {
    if n > 0 {
      WantedOfPrefix(lines, n - 1, p, f);
      WantedOneMore(lines, n - 1, p, f);
      ImagesOneMore(n - 1, p, f);
    }
  }

  // What is to be yielded: one text for each line with something to print, in order, and each is
  // the ASCII part of the line without the spaces at its end
  lemma WantedIsOutput(lines: seq<string>) returns (places: seq<nat>)
    ensures IsOutput(lines, Wanted(lines), places)
  {
    var p := (k: nat) => k < |lines| && IsPrinted(lines[k]);
    var f := (k: nat) => if k < |lines| then Clean(lines[k]) else "";
    forall k | 0 <= k < |lines| ensures IsToldBy(lines, k, p, f) { YieldedWhenPrinted(lines[k]); }
    places := Where(|lines|, p);
    WherePicks(|lines|, p);
    WantedOfPrefix(lines, |lines|, p, f);
    assert lines[..|lines|] == lines;
    forall i | 0 <= i < |places| ensures IsOutputOf(lines, places[i], Wanted(lines)[i]) {
      CleanIs(lines[places[i]], Wanted(lines)[i]);
    }
  }

  // In every interleaving that ends without a timeout, that is what was yielded
  lemma OutputIsYielded(lines: seq<string>, run: seq<Action>) returns (places: seq<nat>)
    requires CanRun(AliveFirst, Begin(lines), run) && After(AliveFirst, Begin(lines), run).at.Finished?
    ensures IsOutput(lines, After(AliveFirst, Begin(lines), run).yielded, places)
  {
    NothingIsLost(lines, run);
    places := WantedIsOutput(lines);
  }
}
