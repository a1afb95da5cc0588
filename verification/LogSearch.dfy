/**
 Searching a growing log for several patterns: every piece of output is added to what was read
 before, and the patterns still unanswered are tried on the whole of it.
 */
module LogSearch {
  import opened Wrappers

  // A pattern either finds nothing in a text, or a match and the groups it captures
  type Search = (nat, string) -> Option<(string, seq<string>)>

  // One slot per pattern, empty until the pattern has matched
  type Slot = seq<string>

  // The output accumulated from the first k pieces, a line break after each
  function Output(data: seq<string>, k: nat): string
    requires k <= |data|
  {
    if k == 0 then "" else Output(data, k - 1) + data[k - 1] + "\n"
  }

  predicate Matches(search: Search, i: nat, text: string) {
    search(i, text).Some?
  }

  function Answer(search: Search, i: nat, text: string): Slot {
    match search(i, text)
    case None => []
    case Some((whole, groups)) => [whole] + groups
  }

  // The slot holds what was found: the whole match first, then the groups in order; or nothing
  predicate Holds(slot: Slot, found: Option<(string, seq<string>)>) {
    match found
    case None => slot == []
    case Some((whole, groups)) =>
      && |slot| == 1 + |groups| && slot[0] == whole
      && forall g :: 0 <= g < |groups| ==> slot[1 + g] == groups[g]
  }

  lemma AnswerHolds(search: Search, i: nat, text: string)
    ensures Holds(Answer(search, i, text), search(i, text))
    ensures forall slot: Slot :: Holds(slot, search(i, text)) ==> slot == Answer(search, i, text)
  {
  }

  // What the slot of pattern i should hold after k pieces: the answer on the first accumulated
  // output the pattern matches
  function SlotAt(search: Search, i: nat, data: seq<string>, k: nat): Slot
    requires k <= |data|
  {
    if k == 0 then []
    else if SlotAt(search, i, data, k - 1) != [] then SlotAt(search, i, data, k - 1)
    else Answer(search, i, Output(data, k))
  }

  lemma {:induction false} SlotIsAnswer(search: Search, i: nat, data: seq<string>, k: nat)
    requires k <= |data|
    ensures SlotAt(search, i, data, k) == [] <==> forall j :: 1 <= j <= k ==> !Matches(search, i, Output(data, j))
    ensures forall j :: 1 <= j <= k && IsFirstMatch(search, i, data, j) ==>
      SlotAt(search, i, data, k) == Answer(search, i, Output(data, j))
  {
    if k > 0 {
      SlotIsAnswer(search, i, data, k - 1);
      assert Matches(search, i, Output(data, k)) <==> Answer(search, i, Output(data, k)) != [];
    }
  }

  // A slot is filled from the first output that matches, and is never filled again
  lemma SlotIsFirstAnswer(search: Search, i: nat, data: seq<string>, k: nat)
    requires k <= |data|
    ensures SlotAt(search, i, data, k) == [] <==> forall j :: 1 <= j <= k ==> !Matches(search, i, Output(data, j))
    ensures forall j :: 1 <= j <= k && IsFirstMatch(search, i, data, j) ==>
      Holds(SlotAt(search, i, data, k), search(i, Output(data, j)))
  {
    SlotIsAnswer(search, i, data, k);
    forall j | 1 <= j <= k ensures Holds(Answer(search, i, Output(data, j)), search(i, Output(data, j))) {
      AnswerHolds(search, i, Output(data, j));
    }
  }

  predicate IsFirstMatch(search: Search, i: nat, data: seq<string>, k: nat)
    requires 1 <= k <= |data|
  {
    Matches(search, i, Output(data, k)) && forall h :: 1 <= h < k ==> !Matches(search, i, Output(data, h))
  }

  predicate AllFilled(slots: seq<Slot>) {
    forall i :: 0 <= i < |slots| ==> slots[i] != []
  }

  // A slot that is filled stays; an empty one gets what is found
  predicate IsFilled(before: Slot, after: Slot, found: Option<(string, seq<string>)>) {
    if before != [] then after == before else Holds(after, found)
  }

  // Slot i is the lowest empty one whose pattern matches the text, and the only one filled
  predicate FillsFirst(slots: seq<Slot>, filled: seq<Slot>, search: Search, text: string, i: int) {
    && 0 <= i < |slots| == |filled| && slots[i] == [] && Matches(search, i, text)
    && Holds(filled[i], search(i, text)) && filled == slots[i := filled[i]]
    && forall j :: 0 <= j < i && slots[j] == [] ==> !Matches(search, j, text)
  }

  // _check_matches, filling the slots in place: whether the search is over
  method CheckMatches(slots: seq<Slot>, search: Search, text: string, foundAny: bool)
    returns (filled: seq<Slot>, over: bool)
    ensures |filled| == |slots|
    ensures !foundAny ==>
      forall i :: 0 <= i < |slots| ==> IsFilled(slots[i], filled[i], search(i, text))
    ensures !foundAny ==> (over <==> AllFilled(filled) && !AllFilled(slots))
    ensures foundAny && over ==> exists i :: FillsFirst(slots, filled, search, text, i)
    ensures foundAny && !over ==> filled == slots
    ensures foundAny && !over ==> forall i :: 0 <= i < |slots| && slots[i] == [] ==> !Matches(search, i, text)
  {
    filled := slots;
    for i := 0 to |slots|
      invariant |filled| == |slots|
      invariant forall j :: i <= j < |slots| ==> filled[j] == slots[j]
      invariant forall j :: 0 <= j < i ==> IsFilled(slots[j], filled[j], search(j, text))
      invariant foundAny ==> filled == slots && forall j :: 0 <= j < i && slots[j] == [] ==> !Matches(search, j, text)
      invariant AllFilled(filled) ==> filled == slots
    {
      AnswerHolds(search, i, text);
      if filled[i] == [] && search(i, text).Some? {
        filled := filled[i := Answer(search, i, text)];
        if foundAny || [] !in filled {
          assert forall j :: 0 <= j < |filled| ==> filled[j] in filled;
          assert foundAny ==> FillsFirst(slots, filled, search, text, i);
          return filled, true;
        }
        assert !AllFilled(filled);
      }
    }
    over := false;
  }

  function Empty(count: nat): seq<Slot> {
    seq(count, _ => [])
  }

  lemma SlotAfter(search: Search, i: nat, data: seq<string>, k: nat, slot: Slot)
    requires k < |data| && IsFilled(SlotAt(search, i, data, k), slot, search(i, Output(data, k + 1)))
    ensures slot == SlotAt(search, i, data, k + 1)
  {
    AnswerHolds(search, i, Output(data, k + 1));
  }

  // Some pattern is still unanswered after k pieces
  ghost predicate Missing(search: Search, count: nat, data: seq<string>, k: nat)
    requires k <= |data|
  {
    exists i: nat :: i < count && SlotAt(search, i, data, k) == []
  }

  // read_from_log: the slots to return and after how many pieces, or None when the pieces end,
  // by the deadline or the death of the process, before the search is over
  method ReadFromLog(count: nat, search: Search, data: seq<string>, foundAny: bool)
    returns (result: Option<(seq<Slot>, nat)>)
    ensures result.Some? ==> |result.value.0| == count && 1 <= result.value.1 <= |data|
    // any: the first output on which some pattern matches, and the first such pattern
    ensures foundAny && result.Some? ==> var (slots, k) := result.value;
      && (forall h, i :: 1 <= h < k && 0 <= i < count ==> !Matches(search, i, Output(data, h)))
      && exists i :: FillsFirst(Empty(count), slots, search, Output(data, k), i)
    ensures foundAny && result.None? ==>
      forall h, i :: 1 <= h <= |data| && 0 <= i < count ==> !Matches(search, i, Output(data, h))
    // all: every slot holds its first answer, and one was still missing a piece earlier
    ensures !foundAny && result.Some? ==> var (slots, k) := result.value;
      && (forall i :: 0 <= i < count ==> slots[i] == SlotAt(search, i, data, k) && slots[i] != [])
      && Missing(search, count, data, k - 1)
    ensures !foundAny && result.None? && count > 0 ==> Missing(search, count, data, |data|)
  {
    var slots: seq<Slot> := Empty(count);
    assert count > 0 ==> slots[0] == [];
    var output := "";
    for k := 0 to |data|
      invariant |slots| == count && output == Output(data, k)
      invariant foundAny ==> slots == Empty(count)
      invariant foundAny ==> forall h, i :: 1 <= h <= k && 0 <= i < count ==> !Matches(search, i, Output(data, h))
      invariant !foundAny ==> forall i :: 0 <= i < count ==> slots[i] == SlotAt(search, i, data, k)
      invariant count > 0 ==> !AllFilled(slots)
    {
      output := output + data[k] + "\n";
      assert output == Output(data, k + 1);
      var over;
      ghost var before := slots;
      assert !foundAny && !AllFilled(before) ==> Missing(search, count, data, k);
      slots, over := CheckMatches(slots, search, output, foundAny);
      if !foundAny {
        forall i | 0 <= i < count ensures slots[i] == SlotAt(search, i, data, k + 1) {
          SlotAfter(search, i, data, k, slots[i]);
        }
      }
      if over { return Some((slots, k + 1)); }
    }
    assert !foundAny && !AllFilled(slots) ==> Missing(search, count, data, |data|);
    return None;
  }
}
