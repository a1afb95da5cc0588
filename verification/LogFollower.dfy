/**
 Following the log files of a process: lines are taken from several growing files in turn, and
 a line that is not finished yet is kept until it is.
 */
module LogFollower {
  import opened Wrappers
  import opened TextLines

  // What the file system shows of each file at each moment; None while a file does not exist
  type Files = (nat, nat) -> Option<string>

  // Files are only ever created and appended to
  ghost predicate AppendOnly(files: Files) {
    forall i, t, u :: t <= u && files(i, t).Some? ==> files(i, u).Some? && files(i, t).value <= files(i, u).value
  }

  // ------------------------------------------------------------------ pieces

  // Something the follower yields, before escape sequences are removed
  datatype Piece = Piece(file: nat, text: string)

  // The texts yielded for one file, in order
  function Of(pieces: seq<Piece>, file: nat): seq<string> {
    if pieces == [] then []
    else
      var last := pieces[|pieces| - 1];
      Of(pieces[..|pieces| - 1], file) + if last.file == file then [last.text] else []
  }

  function PiecesOf(lines: seq<string>, file: nat): (r: seq<Piece>)
    ensures |r| == |lines| && forall k :: 0 <= k < |lines| ==> r[k] == Piece(file, lines[k])
  {
    seq(|lines|, k requires 0 <= k < |lines| => Piece(file, lines[k]))
  }

  lemma OfOne(pieces: seq<Piece>, p: Piece, file: nat)
    ensures Of(pieces + [p], file) == Of(pieces, file) + if p.file == file then [p.text] else []
  {
    assert (pieces + [p])[..|pieces|] == pieces;
  }

  lemma LastPiece(lines: seq<string>, file: nat)
    requires lines != []
    ensures var n := |lines| - 1; PiecesOf(lines, file) == PiecesOf(lines[..n], file) + [Piece(file, lines[n])]
  {
  }

  lemma {:induction false} OfMore(pieces: seq<Piece>, lines: seq<string>, target: nat, file: nat)
    ensures Of(pieces + PiecesOf(lines, target), file) == Of(pieces, file) + if target == file then lines else []
  {
    if lines == [] {
      assert pieces + PiecesOf(lines, target) == pieces;
    } else {
      var front, last := lines[..|lines| - 1], lines[|lines| - 1];
      LastPiece(lines, target);
      Regroup(pieces, PiecesOf(front, target), [Piece(target, last)]);
      OfMore(pieces, front, target, file);
      OfOne(pieces + PiecesOf(front, target), Piece(target, last), file);
      assert lines == front + [last];
      Regroup(Of(pieces, file), front, [last]);
    }
  }

  // ------------------------------------------------------------------ following one file

  // One file as the follower has it: its text on being opened, and now; how far it was read; what
  // was yielded of it, and the unfinished line that is kept
  datatype View = View(first: string, text: string, offset: nat, yielded: seq<string>, partial: string)

  // What is yielded of the text a file has when it is opened
  function First(wanted: bool, text: string): seq<string> {
    if wanted then Lines(text) else []
  }

  // After the lines of head come those of what was read, but for an unfinished one that is kept
  predicate Cut(read: string, head: seq<string>, yielded: seq<string>, partial: string) {
    |partial| <= |read| && CutAt(read[..|read| - |partial|], read, head, yielded, partial)
  }

  predicate CutAt(done: string, read: string, head: seq<string>, yielded: seq<string>, partial: string) {
    read == done + partial && '\n' !in partial && Finished(done) && yielded == head + Lines(done)
  }

  // What was yielded are the lines the file had on being opened, if they are wanted, and the lines
  // of what was appended since, up to where reading has come; the unfinished line there is kept
  predicate Follows(v: View, wanted: bool) {
    && |v.first| <= v.offset <= |v.text|
    && Cut(v.text[|v.first|..v.offset], First(wanted, v.first), v.yielded, v.partial)
  }

  lemma CutIs(done: string, read: string, head: seq<string>, yielded: seq<string>, partial: string)
    requires CutAt(done, read, head, yielded, partial)
    ensures Cut(read, head, yielded, partial)
  {
    assert read[..|read| - |partial|] == done;
  }

  lemma FollowsLonger(v: View, longer: string, wanted: bool)
    requires v.text <= longer && Follows(v, wanted)
    ensures Follows(v.(text := longer), wanted)
  {
    assert v.text[|v.first|..v.offset] == longer[|v.first|..v.offset];
  }

  function Start(v: View, wanted: bool): nat {
    if wanted then 0 else |v.first|
  }

  lemma CutIsLossless(read: string, head: seq<string>, yielded: seq<string>, partial: string)
    requires Cut(read, head, yielded, partial)
    ensures Concat(yielded) + partial == Concat(head) + read
  {
    var done := read[..|read| - |partial|];
    LinesAreWhole(done);
    ConcatAppend(head, Lines(done));
    Regroup(Concat(head), done, partial);
  }

  lemma FirstIsWhole(first: string, wanted: bool)
    ensures Concat(First(wanted, first)) == if wanted then first else ""
  {
    LinesAreWhole(first);
  }

  lemma StartAndRest(first: string, text: string, n: nat)
    requires first <= text && |first| <= n <= |text|
    ensures first + text[|first|..n] == text[0..n] && "" + text[|first|..n] == text[|first|..n]
  {
  }

  // Nothing is lost: what was yielded and the line kept are together the text of the file, from
  // its beginning or from the end it had when it was opened, to where reading has come
  lemma FollowedIsLossless(v: View, wanted: bool)
    requires v.first <= v.text && Follows(v, wanted)
    ensures Start(v, wanted) <= v.offset <= |v.text|
    ensures Concat(v.yielded) + v.partial == v.text[Start(v, wanted)..v.offset]
  {
    CutIsLossless(v.text[|v.first|..v.offset], First(wanted, v.first), v.yielded, v.partial);
    FirstIsWhole(v.first, wanted);
    StartAndRest(v.first, v.text, v.offset);
  }

  lemma UnfinishedLine(head: seq<string>, more: seq<string>, k: nat)
    requires AreLines(head) && AreLines(more) && (more != [] ==> LastEnds(more)) && k < |head + more|
    ensures IsLine((head + more)[k]) && (!EndsLine((head + more)[k]) <==> k == |head| - 1 && !LastEnds(head))
  {
    var line := if k < |head| then head[k] else more[k - |head|];
    assert (head + more)[k] == line;
  }

  lemma DoneIsWhole(done: string)
    requires Finished(done)
    ensures AreLines(Lines(done)) && (Lines(done) != [] ==> LastEnds(Lines(done)))
  {
    LinesAreWhole(done);
  }

  // A piece is not a whole line exactly when it is the last one yielded on opening the file, and
  // the file then ended in an unfinished line
  lemma UnfinishedPiece(v: View, wanted: bool, k: nat)
    requires Follows(v, wanted) && k < |v.yielded|
    ensures IsLine(v.yielded[k])
    ensures !EndsLine(v.yielded[k]) <==> wanted && k == |Lines(v.first)| - 1 && !EndsLine(v.first)
  {
    var read := v.text[|v.first|..v.offset];
    var done := read[..|read| - |v.partial|];
    LinesAreWhole(v.first);
    DoneIsWhole(done);
    UnfinishedLine(First(wanted, v.first), Lines(done), k);
  }

  // What is yielded is determined by what was read
  lemma CutIsUnique(read: string, head: seq<string>, y1: seq<string>, p1: string, y2: seq<string>, p2: string)
    requires Cut(read, head, y1, p1) && Cut(read, head, y2, p2)
    ensures y1 == y2 && p1 == p2
  {
    if |p1| < |p2| { LongerKeepsBreak(read, p1, p2); }
    if |p2| < |p1| { LongerKeepsBreak(read, p2, p1); }
  }

  lemma LongerKeepsBreak(read: string, short: string, long: string)
    requires |short| < |long| <= |read| && read == read[..|read| - |long|] + long
    requires Finished(read[..|read| - |short|])
    ensures '\n' in long
  {
    var n := |read| - |short|;
    assert read[n - 1] == long[n - 1 - (|read| - |long|)];
  }

  // ------------------------------------------------------------------ reading a line

  // What a readline at the offset adds: text without a line break before its end
  predicate IsNext(v: View, chunk: string) {
    v.offset + |chunk| <= |v.text| && v.text[v.offset..v.offset + |chunk|] == chunk && NoBreakInside(chunk)
  }

  lemma LineIsNext(v: View)
    requires v.offset <= |v.text|
    ensures IsNext(v, v.text[v.offset..LineEnd(v.text, v.offset)])
  {
  }

  function AfterLine(v: View, chunk: string): View {
    var line := v.partial + chunk;
    var next := v.(offset := v.offset + |chunk|);
    if EndsLine(line) then next.(yielded := v.yielded + [line], partial := "") else next.(partial := line)
  }

  lemma SliceExtends(text: string, start: nat, n: nat, chunk: string)
    requires start <= n && n + |chunk| <= |text| && text[n..n + |chunk|] == chunk
    ensures text[start..n + |chunk|] == text[start..n] + chunk
  {
  }

  lemma LineOf(partial: string, chunk: string)
    requires '\n' !in partial && NoBreakInside(chunk)
    ensures EndsLine(partial + chunk) ==> IsLine(partial + chunk)
    ensures !EndsLine(partial + chunk) ==> '\n' !in partial + chunk
  {
    var line := partial + chunk;
    forall i | 0 <= i < |line| - 1 ensures line[i] != '\n' {
      if i < |partial| { assert line[i] in partial; }
    }
  }

  lemma LineCompleted(read: string, head: seq<string>, yielded: seq<string>, partial: string, chunk: string)
    requires Cut(read, head, yielded, partial) && IsLine(partial + chunk) && EndsLine(partial + chunk)
    ensures Cut(read + chunk, head, yielded + [partial + chunk], "")
  {
    var done, line := read[..|read| - |partial|], partial + chunk;
    Regroup(done, partial, chunk);
    LinesAppend(done, line);
    LinesOfLine(line);
    Regroup(head, Lines(done), [line]);
    assert (done + line)[|done + line| - 1] == line[|line| - 1];
    assert (done + line) + "" == done + line;
    CutIs(done + line, read + chunk, head, yielded + [line], "");
  }

  lemma LineContinued(read: string, head: seq<string>, yielded: seq<string>, partial: string, chunk: string)
    requires Cut(read, head, yielded, partial) && '\n' !in partial + chunk
    ensures Cut(read + chunk, head, yielded, partial + chunk)
  {
    var done := read[..|read| - |partial|];
    Regroup(done, partial, chunk);
    CutIs(done, read + chunk, head, yielded, partial + chunk);
  }

  // One readline: a line it completes is yielded, and one that it does not complete is kept
  lemma ReadKeeps(v: View, wanted: bool, chunk: string)
    requires Follows(v, wanted) && IsNext(v, chunk)
    ensures Follows(AfterLine(v, chunk), wanted)
  {
    NextIsRead(v, chunk);
    LineIsFollowed(v, wanted, chunk, v.text[|v.first|..v.offset]);
  }

  lemma NextIsRead(v: View, chunk: string)
    requires |v.first| <= v.offset && IsNext(v, chunk)
    ensures |v.first| <= AfterLine(v, chunk).offset <= |v.text|
    ensures v.text[|v.first|..AfterLine(v, chunk).offset] == v.text[|v.first|..v.offset] + chunk
  {
    SliceExtends(v.text, |v.first|, v.offset, chunk);
  }

  lemma LineIsFollowed(v: View, wanted: bool, chunk: string, read: string)
    requires Cut(read, First(wanted, v.first), v.yielded, v.partial) && NoBreakInside(chunk)
    requires |v.first| <= AfterLine(v, chunk).offset <= |v.text|
    requires v.text[|v.first|..AfterLine(v, chunk).offset] == read + chunk
    ensures Follows(AfterLine(v, chunk), wanted)
  {
    LineIsCut(v, First(wanted, v.first), chunk, read);
    FollowsWhenCut(AfterLine(v, chunk), wanted, read + chunk);
  }

  lemma LineIsCut(v: View, head: seq<string>, chunk: string, read: string)
    requires Cut(read, head, v.yielded, v.partial) && NoBreakInside(chunk)
    ensures Cut(read + chunk, head, AfterLine(v, chunk).yielded, AfterLine(v, chunk).partial)
  {
    LineOf(v.partial, chunk);
    if EndsLine(v.partial + chunk) {
      LineCompleted(read, head, v.yielded, v.partial, chunk);
    } else {
      LineContinued(read, head, v.yielded, v.partial, chunk);
    }
  }

  lemma FollowsWhenCut(v: View, wanted: bool, read: string)
    requires |v.first| <= v.offset <= |v.text| && v.text[|v.first|..v.offset] == read
    requires Cut(read, First(wanted, v.first), v.yielded, v.partial)
    ensures Follows(v, wanted)
  {
  }

  // A file that was just opened
  lemma OpenedFollows(text: string, wanted: bool)
    ensures Follows(View(text, text, |text|, First(wanted, text), ""), wanted)
  {
    assert text[|text|..|text|] == "";
    assert First(wanted, text) + Lines("") == First(wanted, text);
    CutIs("", "", First(wanted, text), First(wanted, text), "");
  }

  // A file that held "1" when it was opened, and then had "2" and a line break appended: the line
  // is yielded in two pieces
  const CutInTwo: View := View("1", "12\n", 3, ["1", "2\n"], "")

  lemma OpenedBeforeCut(v: View)
    requires v == View("1", "12\n", 1, ["1"], "")
    ensures Follows(v, true) && IsNext(v, "2\n") && AfterLine(v, "2\n") == CutInTwo
  {
    LinesOfLine("1");
    OpenedFollows("1", true);
    FollowsLonger(View("1", "1", 1, ["1"], ""), "12\n", true);
    assert "" + "2\n" == "2\n" && ["1"] + ["2\n"] == ["1", "2\n"];
    assert "12\n"[1..3] == "2\n";
  }

  lemma LineCutInTwo()
    ensures Follows(CutInTwo, true) && !EndsLine(CutInTwo.yielded[0]) && Lines(CutInTwo.text) == ["12\n"]
  {
    var v := View("1", "12\n", 1, ["1"], "");
    OpenedBeforeCut(v);
    ReadKeeps(v, true, "2\n");
    LinesOfLine("12\n");
  }

  // Views of the same texts, read as far, are the same
  lemma ViewIsUnique(v: View, u: View, wanted: bool)
    requires Follows(v, wanted) && Follows(u, wanted)
    requires v.first == u.first && v.text == u.text && v.offset == u.offset
    ensures v == u
  {
    CutIsUnique(v.text[|v.first|..v.offset], First(wanted, v.first), v.yielded, v.partial, u.yielded, u.partial);
  }

  // ------------------------------------------------------------------ all files together

  // The follower's lists, and when each file was opened
  datatype Progress = Progress(
    offsets: seq<Option<nat>>, partial: seq<string>, pieces: seq<Piece>, openedAt: seq<Option<nat>>)

  predicate Counts(p: Progress, n: nat) {
    |p.offsets| == |p.partial| == |p.openedAt| == n && forall k :: 0 <= k < |p.pieces| ==> p.pieces[k].file < n
  }

  // The file is open, and there when it was opened and now
  ghost predicate IsOpen(files: Files, now: nat, p: Progress, i: nat) {
    && i < |p.openedAt| == |p.offsets| && p.openedAt[i].Some? && p.offsets[i].Some?
    && p.openedAt[i].value <= now && files(i, p.openedAt[i].value).Some? && files(i, now).Some?
  }

  ghost function ViewOf(files: Files, now: nat, p: Progress, i: nat): View
    requires IsOpen(files, now, p, i) && i < |p.partial|
  {
    View(files(i, p.openedAt[i].value).value, files(i, now).value, p.offsets[i].value, Of(p.pieces, i), p.partial[i])
  }

  ghost predicate FileFollows(files: Files, now: nat, p: Progress, i: nat, wanted: bool)
    requires i < |p.offsets| == |p.partial| == |p.openedAt|
  {
    if p.openedAt[i].None? then p.offsets[i] == None && Of(p.pieces, i) == [] && p.partial[i] == ""
    else IsOpen(files, now, p, i) && Follows(ViewOf(files, now, p, i), wanted)
  }

  ghost predicate AllFollow(files: Files, now: nat, p: Progress, wanted: seq<bool>) {
    Counts(p, |wanted|)
    && forall i {:trigger FileFollows(files, now, p, i, wanted[i])} :: 0 <= i < |wanted| ==>
          FileFollows(files, now, p, i, wanted[i])
  }

  lemma TimePasses(files: Files, now: nat, p: Progress, i: nat, wanted: bool)
    requires AppendOnly(files) && i < |p.offsets| == |p.partial| == |p.openedAt|
      && FileFollows(files, now, p, i, wanted)
    ensures FileFollows(files, now + 1, p, i, wanted)
  {
    if p.openedAt[i].Some? {
      assert files(i, now).value <= files(i, now + 1).value;
      FollowsLonger(ViewOf(files, now, p, i), files(i, now + 1).value, wanted);
    }
  }

  lemma AllTimePasses(files: Files, now: nat, p: Progress, wanted: seq<bool>)
    requires AppendOnly(files) && AllFollow(files, now, p, wanted)
    ensures AllFollow(files, now + 1, p, wanted)
  {
    var next := now + 1;
    forall i | 0 <= i < |wanted| ensures FileFollows(files, next, p, i, wanted[i]) {
      assert FileFollows(files, now, p, i, wanted[i]);
      TimePasses(files, now, p, i, wanted[i]);
    }
  }

  // A change of the follower that leaves file k alone
  predicate Spares(p: Progress, q: Progress, k: nat) {
    && |p.offsets| == |q.offsets| && |p.partial| == |q.partial| && |p.openedAt| == |q.openedAt|
    && k < |p.offsets| == |p.partial| == |p.openedAt|
    && q.offsets[k] == p.offsets[k] && q.partial[k] == p.partial[k] && q.openedAt[k] == p.openedAt[k]
    && Of(q.pieces, k) == Of(p.pieces, k)
  }

  lemma SparedFollows(files: Files, now: nat, p: Progress, q: Progress, k: nat, wanted: bool)
    requires Spares(p, q, k) && FileFollows(files, now, p, k, wanted)
    ensures FileFollows(files, now, q, k, wanted)
  {
  }

  // ------------------------------------------------------------------ opening and reading

  function Opened(p: Progress, i: nat, time: nat, text: string, wanted: bool): Progress
    requires i < |p.offsets| == |p.openedAt|
  {
    p.(offsets := p.offsets[i := Some(|text|)],
       pieces := p.pieces + PiecesOf(First(wanted, text), i),
       openedAt := p.openedAt[i := Some(time)])
  }

  lemma OpenedSpares(p: Progress, i: nat, time: nat, text: string, wanted: bool, k: nat)
    requires i < |p.offsets| == |p.partial| == |p.openedAt| && k < |p.offsets| && k != i
    ensures Spares(p, Opened(p, i, time, text, wanted), k)
  {
    OfMore(p.pieces, First(wanted, text), i, k);
  }

  lemma OpenedView(files: Files, now: nat, p: Progress, i: nat, wanted: bool)
    requires i < |p.offsets| == |p.partial| == |p.openedAt| && p.openedAt[i].None? && files(i, now).Some?
    requires FileFollows(files, now, p, i, wanted)
    ensures FileFollows(files, now, Opened(p, i, now, files(i, now).value, wanted), i, wanted)
  {
    var text := files(i, now).value;
    OfMore(p.pieces, First(wanted, text), i, i);
    assert [] + First(wanted, text) == First(wanted, text);
    OpenedFollows(text, wanted);
  }

  lemma OpenedCounts(p: Progress, i: nat, time: nat, text: string, wanted: bool)
    requires i < |p.offsets| && Counts(p, |p.offsets|)
    ensures Counts(Opened(p, i, time, text, wanted), |p.offsets|)
  {
  }

  lemma OpenedAllFollow(files: Files, now: nat, p: Progress, i: nat, wanted: seq<bool>)
    requires AllFollow(files, now, p, wanted) && i < |wanted| && p.openedAt[i].None? && files(i, now).Some?
    ensures AllFollow(files, now, Opened(p, i, now, files(i, now).value, wanted[i]), wanted)
  {
    var text := files(i, now).value;
    var q := Opened(p, i, now, text, wanted[i]);
    OpenedCounts(p, i, now, text, wanted[i]);
    forall k | 0 <= k < |wanted| ensures FileFollows(files, now, q, k, wanted[k]) {
      assert FileFollows(files, now, p, k, wanted[k]);
      if k == i {
        OpenedView(files, now, p, i, wanted[i]);
      } else {
        OpenedSpares(p, i, now, text, wanted[i], k);
        SparedFollows(files, now, p, q, k, wanted[k]);
      }
    }
  }

  function AfterRead(p: Progress, i: nat, chunk: string): Progress
    requires i < |p.offsets| == |p.partial| && p.offsets[i].Some?
  {
    var line := p.partial[i] + chunk;
    var q := p.(offsets := p.offsets[i := Some(p.offsets[i].value + |chunk|)]);
    if EndsLine(line) then q.(partial := p.partial[i := ""], pieces := p.pieces + [Piece(i, line)])
    else q.(partial := p.partial[i := line])
  }

  lemma ReadSpares(p: Progress, i: nat, chunk: string, k: nat)
    requires i < |p.offsets| == |p.partial| == |p.openedAt| && p.offsets[i].Some? && k < |p.offsets| && k != i
    ensures Spares(p, AfterRead(p, i, chunk), k)
  {
    OfOne(p.pieces, Piece(i, p.partial[i] + chunk), k);
  }

  lemma ReadView(files: Files, now: nat, p: Progress, i: nat, chunk: string)
    requires IsOpen(files, now, p, i) && |p.partial| == |p.offsets|
    ensures IsOpen(files, now, AfterRead(p, i, chunk), i)
    ensures ViewOf(files, now, AfterRead(p, i, chunk), i) == AfterLine(ViewOf(files, now, p, i), chunk)
  {
    OfOne(p.pieces, Piece(i, p.partial[i] + chunk), i);
  }

  // The chunk that readline gives of file i
  ghost predicate IsChunk(files: Files, now: nat, p: Progress, i: nat, chunk: string) {
    && IsOpen(files, now, p, i) && p.offsets[i].value <= |files(i, now).value|
    && chunk == files(i, now).value[p.offsets[i].value..LineEnd(files(i, now).value, p.offsets[i].value)]
  }

  lemma ReadOfFile(files: Files, now: nat, p: Progress, i: nat, chunk: string, wanted: bool)
    requires |p.partial| == |p.offsets| && IsChunk(files, now, p, i, chunk) && FileFollows(files, now, p, i, wanted)
    ensures FileFollows(files, now, AfterRead(p, i, chunk), i, wanted)
  {
    var v := ViewOf(files, now, p, i);
    LineIsNext(v);
    ReadKeeps(v, wanted, chunk);
    ReadView(files, now, p, i, chunk);
  }

  lemma ReadCounts(p: Progress, i: nat, chunk: string)
    requires i < |p.offsets| && Counts(p, |p.offsets|) && p.offsets[i].Some?
    ensures Counts(AfterRead(p, i, chunk), |p.offsets|)
  {
  }

  lemma ReadAllFollow(files: Files, now: nat, p: Progress, i: nat, chunk: string, wanted: seq<bool>)
    requires AllFollow(files, now, p, wanted) && i < |wanted| && IsChunk(files, now, p, i, chunk)
    ensures AllFollow(files, now, AfterRead(p, i, chunk), wanted)
  {
    var q := AfterRead(p, i, chunk);
    ReadCounts(p, i, chunk);
    forall k | 0 <= k < |wanted| ensures FileFollows(files, now, q, k, wanted[k]) {
      assert FileFollows(files, now, p, k, wanted[k]);
      if k == i {
        ReadOfFile(files, now, p, i, chunk, wanted[i]);
      } else {
        ReadSpares(p, i, chunk, k);
        SparedFollows(files, now, p, q, k, wanted[k]);
      }
    }
  }

  // Of all that is yielded, the pieces that are not whole lines are the last ones yielded on
  // opening a file that then ended in an unfinished line
  lemma OnlyOpeningCuts(files: Files, now: nat, p: Progress, i: nat, wanted: seq<bool>, k: nat)
    requires AllFollow(files, now, p, wanted) && i < |wanted| && k < |Of(p.pieces, i)|
    ensures IsOpen(files, now, p, i) && IsLine(Of(p.pieces, i)[k])
    ensures var first := files(i, p.openedAt[i].value).value;
      !EndsLine(Of(p.pieces, i)[k]) <==> wanted[i] && k == |Lines(first)| - 1 && !EndsLine(first)
  {
    assert FileFollows(files, now, p, i, wanted[i]);
    UnfinishedPiece(ViewOf(files, now, p, i), wanted[i], k);
  }

  // ------------------------------------------------------------------ progress

  // What was yielded stays, and so do the times of opening
  predicate Extends(p: Progress, q: Progress) {
    && p.pieces <= q.pieces && |p.openedAt| == |q.openedAt|
    && forall i :: 0 <= i < |p.openedAt| && p.openedAt[i].Some? ==> q.openedAt[i] == p.openedAt[i]
  }

  // The effect on file i of a turn that looks at it at time t: an open file has its next line
  // read; a file that has appeared is opened and read
  ghost predicate Polled(files: Files, t: nat, p: Progress, q: Progress, i: nat) {
    && i < |p.offsets| == |q.offsets| == |p.openedAt| == |q.openedAt|
    && match p.offsets[i]
       case Some(n) =>
         && q.openedAt[i] == p.openedAt[i] && files(i, t).Some? && n <= |files(i, t).value|
         && q.offsets[i] == Some(LineEnd(files(i, t).value, n))
       case None =>
         if files(i, t).None? then q.offsets[i] == None && q.openedAt[i] == p.openedAt[i]
         else
           && q.openedAt[i] == Some(t + 1) && files(i, t + 1).Some?
           && q.offsets[i].Some? && |files(i, t + 1).value| <= q.offsets[i].value
  }

  // These lines of file i are yielded more
  predicate YieldsLines(before: seq<Piece>, after: seq<Piece>, lines: seq<string>, i: nat) {
    && |after| == |before| + |lines| && before <= after
    && forall k :: 0 <= k < |lines| ==> after[|before| + k] == Piece(i, lines[k])
  }

  // What is yielded more is of file i
  predicate YieldsOnly(p: Progress, q: Progress, i: nat) {
    forall k :: |p.pieces| <= k < |q.pieces| ==> q.pieces[k].file == i
  }

  // What is yielded more comes in the order of the files, and is of the first n
  predicate YieldsInOrder(p: Progress, q: Progress, n: nat) {
    && (forall k :: |p.pieces| <= k < |q.pieces| ==> q.pieces[k].file < n)
    && (forall j, k :: |p.pieces| <= j < k < |q.pieces| ==> q.pieces[j].file <= q.pieces[k].file)
  }

  lemma YieldsMore(p: Progress, m: Progress, q: Progress, i: nat)
    requires YieldsOnly(p, m, i) && YieldsOnly(m, q, i) && m.pieces <= q.pieces
    ensures YieldsOnly(p, q, i)
  {
    assert forall k :: 0 <= k < |m.pieces| ==> q.pieces[k] == m.pieces[k];
  }

  lemma OneFileMore(p: Progress, m: Progress, q: Progress, i: nat)
    requires YieldsInOrder(p, m, i) && YieldsOnly(m, q, i) && Extends(p, m) && Extends(m, q)
    ensures YieldsInOrder(p, q, i + 1)
  {
    assert forall k :: 0 <= k < |m.pieces| ==> q.pieces[k] == m.pieces[k];
  }

  predicate Untouched(p: Progress, q: Progress, i: nat) {
    && i < |p.offsets| == |q.offsets| == |p.openedAt| == |q.openedAt|
    && q.offsets[i] == p.offsets[i] && q.openedAt[i] == p.openedAt[i]
  }

  predicate OthersUntouched(p: Progress, q: Progress, i: nat) {
    |q.offsets| == |p.offsets| && forall k :: 0 <= k < |p.offsets| && k != i ==> Untouched(p, q, k)
  }

  // Of the lines that file i held at time t, at least n were passed, or all of them
  ghost predicate Reached(files: Files, t: nat, offset: Option<nat>, i: nat, n: nat) {
    files(i, t).Some? ==>
      offset.Some? && Unread(files(i, t).value, offset.value) <= Less(|Lines(files(i, t).value)|, n)
  }

  // A turn reaches one line more of what the file held at an earlier time
  lemma PolledReaches(files: Files, t: nat, look: nat, p: Progress, q: Progress, i: nat, n: nat)
    requires AppendOnly(files) && t <= look && Polled(files, look, p, q, i)
    requires Reached(files, t, p.offsets[i], i, n) || (n == 0 && p.offsets[i].None?)
    ensures Reached(files, t, q.offsets[i], i, n + 1)
  {
    if files(i, t).Some? {
      assert files(i, t).value <= files(i, look).value;
      if p.offsets[i].Some? {
        ReadPasses(files(i, t).value, files(i, look).value, p.offsets[i].value);
      } else {
        assert files(i, t).value <= files(i, look + 1).value;
      }
    }
  }

  lemma OpenReachesNone(files: Files, t: nat, p: Progress, i: nat)
    requires i < |p.offsets|
    ensures Reached(files, t, p.offsets[i], i, 0) || p.offsets[i].None?
  {
    if files(i, t).Some? && p.offsets[i].Some? { UnreadIsLess(files(i, t).value, p.offsets[i].value); }
  }

  // ------------------------------------------------------------------ the loops

  // _open_log: reads all there is, and gives it to be yielded where it is wanted
  method OpenLog(i: nat, files: Files, now: nat, p: Progress, wanted: seq<bool>)
    returns (time: nat, q: Progress)
    requires AppendOnly(files) && i < |wanted| && AllFollow(files, now, p, wanted)
    requires p.openedAt[i].None? && files(i, now).Some?
    ensures time == now + 1 && files(i, time).Some? && AllFollow(files, time, q, wanted)
    ensures YieldsLines(p.pieces, q.pieces, First(wanted[i], files(i, time).value), i)
    ensures q.partial == p.partial && JustOpened(files, time, p, q, i)
  {
    assert files(i, now).value <= files(i, now + 1).value;
    time := now + 1;
    AllTimePasses(files, now, p, wanted);
    OpenedAllFollow(files, time, p, i, wanted);
    q := Opened(p, i, time, files(i, time).value, wanted[i]);
  }

  // readline, and what it completes
  method ReadLine(i: nat, files: Files, now: nat, p: Progress, ghost wanted: seq<bool>) returns (q: Progress)
    requires i < |wanted| && AllFollow(files, now, p, wanted) && p.offsets[i].Some?
    ensures AllFollow(files, now, q, wanted) && Extends(p, q) && |q.pieces| <= |p.pieces| + 1
    ensures Polled(files, now, p, q, i) && OthersUntouched(p, q, i) && YieldsOnly(p, q, i)
  {
    assert FileFollows(files, now, p, i, wanted[i]);
    var n := p.offsets[i].value;
    var chunk := files(i, now).value[n..LineEnd(files(i, now).value, n)];
    ReadIsPolled(files, now, p, i, chunk);
    if chunk == [] { return p; }
    ReadAllFollow(files, now, p, i, chunk, wanted);
    q := AfterRead(p, i, chunk);
  }

  lemma ReadIsPolled(files: Files, now: nat, p: Progress, i: nat, chunk: string)
    requires |p.partial| == |p.offsets| && IsChunk(files, now, p, i, chunk)
    ensures var q := AfterRead(p, i, chunk);
      Extends(p, q) && Polled(files, now, p, q, i) && OthersUntouched(p, q, i) && |q.pieces| <= |p.pieces| + 1
    ensures chunk == [] ==> Extends(p, p) && Polled(files, now, p, p, i) && OthersUntouched(p, p, i)
  {
  }

  // The file was opened at this time, and read to its end
  ghost predicate JustOpened(files: Files, time: nat, p: Progress, q: Progress, i: nat) {
    && i < |p.offsets| == |p.openedAt| && files(i, time).Some?
    && q.openedAt == p.openedAt[i := Some(time)] && q.offsets == p.offsets[i := Some(|files(i, time).value|)]
    && p.pieces <= q.pieces && YieldsOnly(p, q, i)
  }

  // A file that is opened and then read
  lemma OpenThenPolled(files: Files, now: nat, p: Progress, m: Progress, q: Progress, i: nat)
    requires i < |p.offsets| == |p.openedAt| && p.offsets[i].None? && p.openedAt[i].None?
    requires files(i, now).Some? && JustOpened(files, now + 1, p, m, i)
    requires Polled(files, now + 2, m, q, i) && OthersUntouched(m, q, i) && Extends(m, q) && YieldsOnly(m, q, i)
    ensures Extends(p, q) && Polled(files, now, p, q, i) && OthersUntouched(p, q, i) && YieldsOnly(p, q, i)
  {
    YieldsMore(p, m, q, i);
    forall k | 0 <= k < |p.offsets| && k != i ensures Untouched(p, q, k) {
      assert Untouched(m, q, k);
    }
  }

  method OpenAndReadLine(i: nat, files: Files, now: nat, p: Progress, wanted: seq<bool>)
    returns (time: nat, q: Progress)
    requires AppendOnly(files) && i < |wanted| && AllFollow(files, now, p, wanted)
    requires p.offsets[i].None? && p.openedAt[i].None? && files(i, now).Some?
    ensures now < time <= now + 2 && AllFollow(files, time, q, wanted)
    ensures Extends(p, q) && Polled(files, now, p, q, i) && OthersUntouched(p, q, i) && YieldsOnly(p, q, i)
  {
    var m;
    time, m := OpenLog(i, files, now, p, wanted);
    AllTimePasses(files, time, m, wanted);
    q := ReadLine(i, files, time + 1, m, wanted);
    OpenThenPolled(files, now, p, m, q, i);
    time := time + 1;
  }

  // One turn of the inner loop: open the file if it has appeared, then read at most one line.
  // Time advances before every look at the file system.
  method PollFile(i: nat, files: Files, now: nat, p: Progress, wanted: seq<bool>)
    returns (time: nat, q: Progress)
    requires AppendOnly(files) && i < |wanted| && AllFollow(files, now, p, wanted)
    ensures now < time <= now + 3 && AllFollow(files, time, q, wanted)
    ensures Extends(p, q) && Polled(files, now + 1, p, q, i) && OthersUntouched(p, q, i) && YieldsOnly(p, q, i)
  {
    time, q := now + 1, p;
    AllTimePasses(files, now, q, wanted);
    if q.offsets[i].Some? {
      q := ReadLine(i, files, time, q, wanted);
    } else if files(i, time).Some? {
      assert FileFollows(files, time, p, i, wanted[i]);
      time, q := OpenAndReadLine(i, files, time, q, wanted);
    }
  }

  // The turns of the files before file i, and when each was looked at
  ghost predicate Turns(files: Files, now: nat, p: Progress, time: nat, q: Progress, looks: seq<nat>, i: nat) {
    && |looks| == i <= |p.offsets| == |q.offsets|
    && Extends(p, q) && YieldsInOrder(p, q, i)
    && (forall j, k :: 0 <= j < k < i ==> looks[j] < looks[k])
    && (forall k :: 0 <= k < i ==> now < looks[k] <= time && Polled(files, looks[k], p, q, k))
    && (forall k :: i <= k < |p.offsets| ==> Untouched(p, q, k))
  }

  // What the turns before have done stays, and what is left for those after it
  lemma OneTurnMore(
    files: Files, now: nat, p: Progress, time: nat, m: Progress, looks: seq<nat>, i: nat, end: nat, q: Progress
  )
    requires Turns(files, now, p, time, m, looks, i) && i < |p.offsets| && now <= time < end
    requires Extends(m, q) && Polled(files, time + 1, m, q, i) && OthersUntouched(m, q, i) && YieldsOnly(m, q, i)
    ensures Turns(files, now, p, end, q, looks + [time + 1], i + 1)
  {
    OneFileMore(p, m, q, i);
    forall k | 0 <= k < i ensures Polled(files, looks[k], p, q, k) {
      assert Polled(files, looks[k], p, m, k) && Untouched(m, q, k);
    }
    forall k | i < k < |p.offsets| ensures Untouched(p, q, k) {
      assert Untouched(p, m, k) && Untouched(m, q, k);
    }
    assert Untouched(p, m, i);
  }

  // One turn over all files, and when it looked at each
  method PollAll(files: Files, now: nat, p: Progress, wanted: seq<bool>)
    returns (time: nat, q: Progress, ghost looks: seq<nat>)
    requires AppendOnly(files) && AllFollow(files, now, p, wanted)
    ensures now <= time <= now + 3 * |wanted| && AllFollow(files, time, q, wanted)
    ensures Extends(p, q) && YieldsInOrder(p, q, |wanted|) && |looks| == |wanted|
    ensures forall i, j :: 0 <= i < j < |looks| ==> looks[i] < looks[j]
    ensures forall i :: 0 <= i < |wanted| ==> now < looks[i] <= time && Polled(files, looks[i], p, q, i)
  {
    time, q, looks := now, p, [];
    for i := 0 to |wanted|
      invariant now <= time <= now + 3 * i && AllFollow(files, time, q, wanted)
      invariant Turns(files, now, p, time, q, looks, i)
    {
      ghost var before, m := time, q;
      time, q := PollFile(i, files, time, q, wanted);
      OneTurnMore(files, now, p, before, m, looks, i, time, q);
      looks := looks + [before + 1];
    }
  }

  // Round r of the following so far: a file that was there when it started was opened by its
  // end, and has had a line read for every round since, or all it held then
  ghost predicate RoundCounts(files: Files, p: Progress, starts: seq<nat>, r: nat, rounds: nat, i: nat)
    requires r <= rounds && rounds < |starts| && i < |p.offsets| == |p.openedAt|
  {
    && Reached(files, starts[r], p.offsets[i], i, rounds - r)
    && (r < rounds && files(i, starts[r]).Some? ==> p.openedAt[i].Some? && p.openedAt[i].value <= starts[r + 1])
  }

  ghost predicate RoundsCount(files: Files, p: Progress, starts: seq<nat>, rounds: nat, count: nat) {
    && |starts| == rounds + 1 && count == |p.offsets| == |p.openedAt|
    && forall r, i :: 0 <= r < rounds && 0 <= i < count ==> RoundCounts(files, p, starts, r, rounds, i)
  }

  // When each round started, and the last one ended
  predicate Timely(starts: seq<nat>, count: nat) {
    && starts != [] && starts[0] == count
    && (forall r :: 0 <= r < |starts| - 1 ==> starts[r] <= starts[r + 1] <= starts[r] + 3 * count)
    && (forall r :: 0 <= r < |starts| ==> starts[r] <= starts[|starts| - 1])
  }

  lemma RoundCountsOn(
    files: Files, p: Progress, q: Progress, starts: seq<nat>, time: nat, look: nat, r: nat, i: nat
  )
    requires AppendOnly(files) && r < |starts| && starts[r] <= starts[|starts| - 1] <= look <= time
    requires Extends(p, q) && Polled(files, look, p, q, i)
    requires q.openedAt[i].Some? ==> q.openedAt[i].value <= time
    requires p.offsets[i].Some? <==> p.openedAt[i].Some?
    requires r < |starts| - 1 ==> RoundCounts(files, p, starts, r, |starts| - 1, i)
    ensures RoundCounts(files, q, starts + [time], r, |starts|, i)
  {
    if r == |starts| - 1 { OpenReachesNone(files, starts[r], p, i); }
    PolledReaches(files, starts[r], look, p, q, i, |starts| - 1 - r);
    if files(i, starts[r]).Some? { assert files(i, starts[r]).value <= files(i, look).value; }
  }

  // One round, which looked at the files at these times
  ghost predicate Round(files: Files, now: nat, p: Progress, time: nat, q: Progress, looks: seq<nat>,
      wanted: seq<bool>) {
    && AllFollow(files, now, p, wanted) && AllFollow(files, time, q, wanted) && Extends(p, q) && |looks| == |wanted|
    && forall i :: 0 <= i < |wanted| ==> now < looks[i] <= time && Polled(files, looks[i], p, q, i)
  }

  lemma RoundsCountOn(
    files: Files, starts: seq<nat>, p: Progress, time: nat, q: Progress, looks: seq<nat>, wanted: seq<bool>
  )
    requires AppendOnly(files) && Timely(starts, |wanted|) && RoundsCount(files, p, starts, |starts| - 1, |wanted|)
    requires Round(files, starts[|starts| - 1], p, time, q, looks, wanted)
    ensures RoundsCount(files, q, starts + [time], |starts|, |wanted|)
  {
    var rounds := |starts|;
    forall r, i | 0 <= r < rounds && 0 <= i < |wanted|
      ensures RoundCounts(files, q, starts + [time], r, rounds, i)
    {
      assert FileFollows(files, starts[rounds - 1], p, i, wanted[i]) && FileFollows(files, time, q, i, wanted[i]);
      RoundCountsOn(files, p, q, starts, time, looks[i], r, i);
    }
  }

  // No file is opened before the following begins
  predicate OpenedAfter(p: Progress, t: nat) {
    forall i :: 0 <= i < |p.openedAt| && p.openedAt[i].Some? ==> t < p.openedAt[i].value
  }

  lemma StillOpenedAfter(
    files: Files, now: nat, p: Progress, time: nat, q: Progress, looks: seq<nat>, wanted: seq<bool>, t: nat
  )
    requires Round(files, now, p, time, q, looks, wanted) && t <= now && OpenedAfter(p, t)
    ensures OpenedAfter(q, t)
  {
    forall i | 0 <= i < |q.openedAt| && q.openedAt[i].Some? ensures t < q.openedAt[i].value {
      assert FileFollows(files, now, p, i, wanted[i]) && Polled(files, looks[i], p, q, i);
    }
  }

  // _get_log_line over `count` files, for as many rounds as the deadline allows and the process
  // lives, under any schedule of arrivals.  What a file holds on being opened is wanted unless it
  // was there when following began.
  method GetLogLines(count: nat, files: Files, rounds: nat, fromBeginning: bool)
    returns (p: Progress, wanted: seq<bool>, ghost starts: seq<nat>)
    requires AppendOnly(files)
    ensures |wanted| == count && forall i :: 0 <= i < count ==> wanted[i] == (fromBeginning || files(i, i).None?)
    ensures |starts| == rounds + 1 && Timely(starts, count)
    ensures AllFollow(files, starts[rounds], p, wanted)
    ensures OpenedAfter(p, count) && RoundsCount(files, p, starts, rounds, count)
  {
    var now := 0;
    wanted := [];
    for i := 0 to count
      invariant now == i == |wanted|
      invariant forall k :: 0 <= k < i ==> wanted[k] == (fromBeginning || files(k, k).None?)
    {
      wanted := wanted + [fromBeginning || files(i, now).None?];
      now := now + 1;
    }
    p := Progress(seq(count, _ => None), seq(count, _ => ""), [], seq(count, _ => None));
    starts := [now];
    for round := 0 to rounds
      invariant |starts| == round + 1 && Timely(starts, count) && starts[round] == now
      invariant AllFollow(files, now, p, wanted)
      invariant OpenedAfter(p, count) && RoundsCount(files, p, starts, round, count)
    {
      ghost var before, start := p, now;
      ghost var looks;
      now, p, looks := PollAll(files, now, p, wanted);
      StillOpenedAfter(files, start, before, now, p, looks, wanted, count);
      RoundsCountOn(files, starts, before, now, p, looks, wanted);
      starts := starts + [now];
    }
  }
}
