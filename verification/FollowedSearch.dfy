/**
 Searching what the follower yields of all its files: the pieces are joined with a line break
 after each, so a line that was cut in two is searched as two lines.
 */
module FollowedSearch {
  import opened Wrappers
  import opened TextLines
  import opened LogFollower
  import opened LogSearch

  // ------------------------------------------------------------------ patterns that look at lines

  // A line without its line break
  function Strip(line: string): string {
    if EndsLine(line) then line[..|line| - 1] else line
  }

  // The lines that are not blank, without their line breaks
  function Words(lines: seq<string>): set<string> {
    set l | l in lines && Strip(l) != "" :: Strip(l)
  }

  function WordsOf(text: string): set<string> {
    Words(Lines(text))
  }

  function WordsOfAll(texts: seq<string>): set<string> {
    set t, w | t in texts && w in WordsOf(t) :: w
  }

  // A pattern that looks at one line at a time: it matches a text when it matches one of its lines
  ghost predicate Local(search: Search, i: nat) {
    forall text :: LocalAt(search, i, text)
  }

  ghost predicate LocalAt(search: Search, i: nat, text: string) {
    Matches(search, i, text) <==> AnyMatches(search, i, WordsOf(text))
  }

  ghost predicate AnyMatches(search: Search, i: nat, texts: set<string>) {
    exists w :: w in texts && Matches(search, i, w)
  }

  lemma WordsAppend(a: seq<string>, b: seq<string>)
    ensures Words(a + b) == Words(a) + Words(b)
  {
  }

  lemma WordsOfOne(line: string)
    ensures Words([line]) == if Strip(line) == "" then {} else {Strip(line)}
  {
    assert line in [line];
  }

  lemma WordsOfLine(line: string)
    requires IsLine(line)
    ensures WordsOf(line) == Words([line])
  {
    LinesOfLine(line);
  }

  // A line break at the end of a text adds at most a blank line
  lemma BreakAddsNothing(text: string)
    ensures WordsOf(text + "\n") == WordsOf(text)
  {
    var lines := Lines(text);
    LinesOneMore(text, '\n');
    if lines != [] && !LastEnds(lines) {
      var front, last := lines[..|lines| - 1], lines[|lines| - 1];
      assert lines == front + [last] && Extend(lines, '\n') == front + [last + "\n"];
      WordsAppend(front, [last]);
      WordsAppend(front, [last + "\n"]);
      WordsOfOne(last);
      WordsOfOne(last + "\n");
      assert (last + "\n")[..|last|] == last;
    } else {
      WordsAppend(lines, ["\n"]);
      WordsOfOne("\n");
    }
  }

  lemma OutputStep(before: string, text: string)
    requires Finished(before)
    ensures var after := before + text + "\n"; Finished(after) && WordsOf(after) == WordsOf(before) + WordsOf(text)
  {
    var line := text + "\n";
    Regroup(before, text, "\n");
    assert (before + line)[|before + line| - 1] == '\n';
    LinesAppend(before, line);
    BreakAddsNothing(text);
    WordsAppend(Lines(before), Lines(line));
  }

  lemma WordsOfPrefix(data: seq<string>, k: nat)
    requires 0 < k <= |data|
    ensures WordsOfAll(data[..k]) == WordsOfAll(data[..k - 1]) + WordsOf(data[k - 1])
  {
    assert data[..k] == data[..k - 1] + [data[k - 1]];
  }

  // The lines of the output are those of the data
  lemma {:induction false} WordsOfOutput(data: seq<string>, k: nat)
    requires k <= |data|
    ensures Finished(Output(data, k)) && WordsOf(Output(data, k)) == WordsOfAll(data[..k])
  {
    if k > 0 {
      WordsOfOutput(data, k - 1);
      OutputStep(Output(data, k - 1), data[k - 1]);
      WordsOfPrefix(data, k);
    }
  }

  // ------------------------------------------------------------------ searching data and texts

  // Searching the data finds a pattern that looks at lines exactly when one of the texts has it
  ghost predicate Agree(data: seq<string>, texts: seq<string>) {
    forall search, i :: Local(search, i) ==> (Matches(search, i, Output(data, |data|)) <==> AnyText(search, i, texts))
  }

  ghost predicate AnyText(search: Search, i: nat, texts: seq<string>) {
    exists t :: t in texts && Matches(search, i, t)
  }

  lemma WordOfText(text: string, w: string)
    requires w in WordsOf(text)
    ensures WordsOf(w) == {w}
  {
    LinesAreWhole(text);
    var l :| l in Lines(text) && Strip(l) == w;
    WordOfLine(l);
    WordsOfLine(w);
    WordsOfOne(w);
  }

  // A line without its line break has none
  lemma WordOfLine(line: string)
    requires IsLine(line) && Strip(line) != ""
    ensures IsLine(Strip(line)) && !EndsLine(Strip(line))
  {
    var w := Strip(line);
    assert forall i :: 0 <= i < |w| ==> w[i] == line[i] && w[i] != '\n';
  }

  // The search for one given line
  function SearchFor(w: string): Search {
    (i: nat, text: string) => if w in WordsOf(text) then Some((w, [])) else None
  }

  lemma SearchForIsLocal(w: string, i: nat)
    ensures Local(SearchFor(w), i)
  {
    forall text ensures LocalAt(SearchFor(w), i, text) {
      forall v | v in WordsOf(text) ensures Matches(SearchFor(w), i, v) <==> v == w {
        WordOfText(text, v);
      }
    }
  }

  lemma LocalTexts(search: Search, i: nat, texts: seq<string>)
    requires Local(search, i)
    ensures AnyText(search, i, texts) <==> AnyMatches(search, i, WordsOfAll(texts))
  {
    if AnyText(search, i, texts) {
      var t :| t in texts && Matches(search, i, t);
      assert LocalAt(search, i, t);
      var w :| w in WordsOf(t) && Matches(search, i, w);
      assert w in WordsOfAll(texts);
    }
    if AnyMatches(search, i, WordsOfAll(texts)) {
      var w :| w in WordsOfAll(texts) && Matches(search, i, w);
      var t :| t in texts && w in WordsOf(t);
      assert LocalAt(search, i, t) && AnyMatches(search, i, WordsOf(t));
    }
  }

  lemma WordsOfJoined(data: seq<string>)
    ensures WordsOf(Output(data, |data|)) == WordsOfAll(data)
  {
    WordsOfOutput(data, |data|);
    assert data[..|data|] == data;
  }

  lemma LocalOutput(search: Search, i: nat, data: seq<string>)
    requires Local(search, i)
    ensures Matches(search, i, Output(data, |data|)) <==> AnyMatches(search, i, WordsOfAll(data))
  {
    WordsOfJoined(data);
    assert LocalAt(search, i, Output(data, |data|));
  }

  // A line that one side has and the other has not
  lemma WordTells(w: string, data: seq<string>, texts: seq<string>)
    requires (w in WordsOfAll(data)) != (w in WordsOfAll(texts))
    ensures !Agree(data, texts)
    ensures Matches(SearchFor(w), 0, Output(data, |data|)) == (w in WordsOfAll(data))
  {
    WordsOfJoined(data);
    SearchForIsLocal(w, 0);
    SearchForTexts(w, texts);
  }

  lemma SearchForTexts(w: string, texts: seq<string>)
    ensures AnyText(SearchFor(w), 0, texts) <==> w in WordsOfAll(texts)
  {
    if w in WordsOfAll(texts) {
      var t :| t in texts && w in WordsOf(t);
      assert Matches(SearchFor(w), 0, t);
    }
  }

  // Searching the data is searching the texts, for every pattern that looks at lines, exactly when
  // they have the same lines, blank ones apart
  lemma PiecesAgree(data: seq<string>, texts: seq<string>)
    ensures Agree(data, texts) <==> WordsOfAll(data) == WordsOfAll(texts)
  {
    if WordsOfAll(data) == WordsOfAll(texts) {
      forall search, i | Local(search, i)
        ensures Matches(search, i, Output(data, |data|)) <==> AnyText(search, i, texts)
      {
        LocalOutput(search, i, data);
        LocalTexts(search, i, texts);
      }
    } else {
      var w :| (w in WordsOfAll(data)) != (w in WordsOfAll(texts));
      WordTells(w, data, texts);
    }
  }

  // ------------------------------------------------------------------ what the follower yields

  function Texts(pieces: seq<Piece>): (texts: seq<string>)
    ensures |texts| == |pieces| && forall k :: 0 <= k < |pieces| ==> texts[k] == pieces[k].text
  {
    seq(|pieces|, k requires 0 <= k < |pieces| => pieces[k].text)
  }

  lemma {:induction false} TextsOfFile(pieces: seq<Piece>, i: nat)
    ensures forall x :: x in Of(pieces, i) <==> exists k :: 0 <= k < |pieces| && pieces[k] == Piece(i, x)
  {
    if pieces != [] {
      var n := |pieces| - 1;
      TextsOfFile(pieces[..n], i);
      assert pieces == pieces[..n] + [pieces[n]];
    }
  }

  // What was read of a file, without the line that is kept
  function ReadOf(v: View, wanted: bool): string {
    if Start(v, wanted) + |v.partial| <= v.offset <= |v.text|
    then v.text[Start(v, wanted)..v.offset - |v.partial|] else ""
  }

  // The file did not end in an unfinished line on being opened, or what it held then is not wanted
  predicate Uncut(v: View, wanted: bool) {
    wanted ==> Finished(v.first)
  }

  lemma UncutIsRead(v: View, wanted: bool)
    requires v.first <= v.text && Follows(v, wanted) && Uncut(v, wanted)
    ensures v.yielded == Lines(ReadOf(v, wanted))
  {
    var read := v.text[|v.first|..v.offset];
    var done := read[..|read| - |v.partial|];
    assert done == v.text[|v.first|..v.offset - |v.partial|];
    if wanted {
      assert ReadOf(v, wanted) == v.first + done;
      LinesAppend(v.first, done);
    } else {
      assert [] + Lines(done) == Lines(done);
    }
  }

  lemma WordsOfPieces(lines: seq<string>)
    requires forall l :: l in lines ==> IsLine(l)
    ensures WordsOfAll(lines) == Words(lines)
  {
    forall l | l in lines ensures WordsOf(l) == Words([l]) && Words([l]) <= Words(lines) {
      WordsOfLine(l);
      WordsOfOne(l);
    }
    forall w | w in Words(lines) ensures w in WordsOfAll(lines) {
      var l :| l in lines && Strip(l) == w;
      WordsOfOne(l);
    }
  }

  lemma YieldedAreLines(v: View, wanted: bool)
    requires Follows(v, wanted)
    ensures forall l :: l in v.yielded ==> IsLine(l)
  {
    forall l | l in v.yielded ensures IsLine(l) {
      var k :| 0 <= k < |v.yielded| && v.yielded[k] == l;
      UnfinishedPiece(v, wanted, k);
    }
  }

  // One file: the words of what was yielded are those of what was read, unless a line was cut
  lemma UncutWords(v: View, wanted: bool)
    requires v.first <= v.text && Follows(v, wanted) && Uncut(v, wanted)
    ensures WordsOfAll(v.yielded) == WordsOf(ReadOf(v, wanted))
  {
    YieldedAreLines(v, wanted);
    WordsOfPieces(v.yielded);
    UncutIsRead(v, wanted);
  }

  // What was read of each file; nothing of one that is not open
  ghost function ReadTexts(files: Files, now: nat, p: Progress, wanted: seq<bool>): (texts: seq<string>)
    requires AllFollow(files, now, p, wanted)
    ensures |texts| == |wanted|
    ensures forall i :: 0 <= i < |wanted| ==> texts[i] == ReadText(files, now, p, i, wanted[i])
  {
    seq(|wanted|, i requires 0 <= i < |wanted| => ReadText(files, now, p, i, wanted[i]))
  }

  ghost function ReadText(files: Files, now: nat, p: Progress, i: nat, wanted: bool): string
    requires i < |p.offsets| == |p.partial| == |p.openedAt|
  {
    if IsOpen(files, now, p, i) then ReadOf(ViewOf(files, now, p, i), wanted) else ""
  }

  ghost predicate FileUncut(files: Files, now: nat, p: Progress, i: nat, wanted: bool)
    requires i < |p.offsets| == |p.partial| == |p.openedAt|
  {
    IsOpen(files, now, p, i) ==> Uncut(ViewOf(files, now, p, i), wanted)
  }

  lemma FileWords(files: Files, now: nat, p: Progress, i: nat, wanted: bool)
    requires AppendOnly(files) && i < |p.offsets| == |p.partial| == |p.openedAt|
    requires FileFollows(files, now, p, i, wanted) && FileUncut(files, now, p, i, wanted)
    ensures WordsOfAll(Of(p.pieces, i)) == WordsOf(ReadText(files, now, p, i, wanted))
  {
    if p.openedAt[i].Some? {
      var v := ViewOf(files, now, p, i);
      assert v.first <= v.text;
      UncutWords(v, wanted);
    }
  }

  lemma PieceIsOfFile(p: Progress, k: nat)
    requires k < |p.pieces|
    ensures p.pieces[k].text in Of(p.pieces, p.pieces[k].file)
  {
    TextsOfFile(p.pieces, p.pieces[k].file);
    assert p.pieces[k] == Piece(p.pieces[k].file, p.pieces[k].text);
  }

  lemma WordIsOfFile(p: Progress, count: nat, w: string) returns (i: nat)
    requires Counts(p, count) && w in WordsOfAll(Texts(p.pieces))
    ensures i < count && w in WordsOfAll(Of(p.pieces, i))
  {
    var x :| x in Texts(p.pieces) && w in WordsOf(x);
    var k :| 0 <= k < |p.pieces| && Texts(p.pieces)[k] == x;
    PieceIsOfFile(p, k);
    i := p.pieces[k].file;
  }

  lemma WordOfFileIsThere(p: Progress, i: nat, w: string)
    requires w in WordsOfAll(Of(p.pieces, i))
    ensures w in WordsOfAll(Texts(p.pieces))
  {
    var x :| x in Of(p.pieces, i) && w in WordsOf(x);
    TextsOfFile(p.pieces, i);
    var k :| 0 <= k < |p.pieces| && p.pieces[k] == Piece(i, x);
    assert Texts(p.pieces)[k] == x;
  }

  // All files together, as a search reads them: searching what is yielded is searching what was
  // read of the files exactly when both have the same lines, and they do when no line was cut
  lemma FollowedFilesAgree(files: Files, now: nat, p: Progress, wanted: seq<bool>)
    requires AppendOnly(files) && AllFollow(files, now, p, wanted)
    ensures var texts := ReadTexts(files, now, p, wanted);
      && (Agree(Texts(p.pieces), texts) <==> WordsOfAll(Texts(p.pieces)) == WordsOfAll(texts))
      && ((forall i :: 0 <= i < |wanted| ==> FileUncut(files, now, p, i, wanted[i])) ==> Agree(Texts(p.pieces), texts))
  {
    var data, texts := Texts(p.pieces), ReadTexts(files, now, p, wanted);
    PiecesAgree(data, texts);
    if forall i :: 0 <= i < |wanted| ==> FileUncut(files, now, p, i, wanted[i]) {
      UncutFilesHaveSameWords(files, now, p, wanted);
    }
  }

  lemma UncutFilesHaveSameWords(files: Files, now: nat, p: Progress, wanted: seq<bool>)
    requires AppendOnly(files) && AllFollow(files, now, p, wanted)
    requires forall i :: 0 <= i < |wanted| ==> FileUncut(files, now, p, i, wanted[i])
    ensures WordsOfAll(Texts(p.pieces)) == WordsOfAll(ReadTexts(files, now, p, wanted))
  {
    var texts := ReadTexts(files, now, p, wanted);
    forall i | 0 <= i < |wanted| ensures WordsOfAll(Of(p.pieces, i)) == WordsOf(texts[i]) {
      assert FileFollows(files, now, p, i, wanted[i]);
      FileWords(files, now, p, i, wanted[i]);
    }
    forall w | w in WordsOfAll(texts) ensures w in WordsOfAll(Texts(p.pieces)) {
      var t :| t in texts && w in WordsOf(t);
      var i :| 0 <= i < |wanted| && texts[i] == t;
      WordOfFileIsThere(p, i, w);
    }
    forall w | w in WordsOfAll(Texts(p.pieces)) ensures w in WordsOfAll(texts) {
      var i := WordIsOfFile(p, |wanted|, w);
      assert texts[i] in texts;
    }
  }

  // Such an input: of the line "12" only "1" was there on opening, so a search for a line "1" finds
  // one, which the file never holds
  lemma TruncatedLineMatches()
    ensures Follows(CutInTwo, true) && !Agree(CutInTwo.yielded, [CutInTwo.text])
    ensures Matches(SearchFor("1"), 0, Output(CutInTwo.yielded, 2)) && !Matches(SearchFor("1"), 0, CutInTwo.text)
  {
    LineCutInTwo();
    WordsOfLine("1");
    WordsOfOne("1");
    assert CutInTwo.yielded[0] in CutInTwo.yielded;
    WordsOfOne("12\n");
    NotTheWord("12\n");
    WordTells("1", CutInTwo.yielded, [CutInTwo.text]);
  }

  lemma NotTheWord(line: string)
    requires |line| > 2
    ensures "1" !in Words([line])
  {
    WordsOfOne(line);
  }
}
