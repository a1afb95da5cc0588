/**
 The average bitrate of a UE, kept row by row while its metrics file is read.  Rates are real
 numbers here; rounding is not part of the model.
 */
module RunningAverage {
  import opened Wrappers

  type Ratio = r: real | r >= 0.0

  // A line of the file: the end marker, or a row with its time in milliseconds
  datatype Line = Eof | Row(time: int, dlBler: Ratio, dlRate: real, ulBler: Ratio, ulRate: real)
  type Row = l: Line | l.Row? witness Row(0, 0.0, 0.0, 0.0, 0.0)

  datatype Direction = Down | Up

  function Rate(r: Row, d: Direction): real { if d.Down? then r.dlRate else r.ulRate }
  function Ko(r: Row, d: Direction): nat { if d.Down? then r.dlBler.Floor else r.ulBler.Floor }
  function Seconds(milliseconds: int): real { milliseconds as real / 1000.0 }

  // The rows before the end marker
  function Data(lines: seq<Line>): seq<Row> {
    if lines == [] || lines[0].Eof? then [] else [lines[0]] + Data(lines[1..])
  }

  // ------------------------------------------------------------------ the simple definition

  function Kos(rows: seq<Row>, d: Direction): nat {
    if rows == [] then 0 else Kos(rows[..|rows| - 1], d) + Ko(rows[|rows| - 1], d)
  }

  function Total(values: seq<nat>): nat {
    if values == [] then 0 else Total(values[..|values| - 1]) + values[|values| - 1]
  }

  // The columns dl_bler and ul_bler, integer parts only
  function DlBlers(rows: seq<Row>): (column: seq<nat>)
    ensures |column| == |rows| && forall k :: 0 <= k < |rows| ==> column[k] == rows[k].dlBler.Floor
  {
    seq(|rows|, k requires 0 <= k < |rows| => rows[k].dlBler.Floor)
  }

  function UlBlers(rows: seq<Row>): (column: seq<nat>)
    ensures |column| == |rows| && forall k :: 0 <= k < |rows| ==> column[k] == rows[k].ulBler.Floor
  {
    seq(|rows|, k requires 0 <= k < |rows| => rows[k].ulBler.Floor)
  }

  // The count of each direction is the total of its own column
  lemma {:induction false} CountsAreTotals(rows: seq<Row>)
    ensures Kos(rows, Down) == Total(DlBlers(rows)) && Kos(rows, Up) == Total(UlBlers(rows))
  {
    if rows != [] {
      var n := |rows| - 1;
      CountsAreTotals(rows[..n]);
      assert DlBlers(rows)[..n] == DlBlers(rows[..n]) && UlBlers(rows)[..n] == UlBlers(rows[..n]);
    }
  }

  // What was carried after the first row: each row's rate for the time since the row before
  function Carried(rows: seq<Row>, d: Direction): real {
    if |rows| <= 1 then 0.0
    else
      var n := |rows| - 1;
      Carried(rows[..n], d) + Rate(rows[n], d) * Seconds(rows[n].time - rows[n - 1].time)
  }

  function Elapsed(rows: seq<Row>): real
    requires rows != []
  {
    Seconds(rows[|rows| - 1].time - rows[0].time)
  }

  // rate is the average over the rows: the only rate that would have carried the same
  predicate IsAverage(rows: seq<Row>, d: Direction, rate: real) {
    if rows == [] then rate == 0.0
    else if |rows| == 1 then rate == Rate(rows[0], d)
    else rate * Elapsed(rows) == Carried(rows, d)
  }

  // A later row with the time of the first one has no average
  predicate HasAverage(rows: seq<Row>) {
    forall k :: 1 <= k < |rows| ==> rows[k].time != rows[0].time
  }

  lemma AverageIsUnique(rows: seq<Row>, d: Direction, r1: real, r2: real)
    requires HasAverage(rows) && IsAverage(rows, d, r1) && IsAverage(rows, d, r2)
    ensures r1 == r2
  {
    if |rows| > 1 {
      var t := Elapsed(rows);
      assert (r1 - r2) * t == 0.0;
    }
  }

  predicate InOrder(rows: seq<Row>) {
    forall k :: 1 <= k < |rows| ==> rows[k - 1].time <= rows[k].time
  }

  lemma LastRow(rows: seq<Row>, d: Direction)
    requires |rows| > 1
    ensures var n := |rows| - 1;
      var step := Seconds(rows[n].time - rows[n - 1].time);
      && Carried(rows, d) == Carried(rows[..n], d) + Rate(rows[n], d) * step
      && Elapsed(rows) == Elapsed(rows[..n]) + step
  {
  }

  // The sign says whether c is a lower bound of the rates (1) or an upper one (-1)
  predicate Bounds(rows: seq<Row>, d: Direction, c: real, sign: int) {
    forall k :: 1 <= k < |rows| ==> if sign > 0 then c <= Rate(rows[k], d) else Rate(rows[k], d) <= c
  }

  predicate CarriedBounds(rows: seq<Row>, d: Direction, c: real, sign: int)
    requires rows != []
  {
    if sign > 0 then c * Elapsed(rows) <= Carried(rows, d) else Carried(rows, d) <= c * Elapsed(rows)
  }

  lemma {:induction false} CarriedIsBounded(rows: seq<Row>, d: Direction, c: real, sign: int)
    requires rows != [] && InOrder(rows) && Bounds(rows, d, c, sign)
    ensures CarriedBounds(rows, d, c, sign)
  {
    var n := |rows| - 1;
    if n > 0 {
      CarriedIsBounded(rows[..n], d, c, sign);
      LastRowIsBounded(rows, d, c, sign);
    }
  }

  lemma LastRowIsBounded(rows: seq<Row>, d: Direction, c: real, sign: int)
    requires |rows| > 1 && rows[|rows| - 2].time <= rows[|rows| - 1].time
    requires if sign > 0 then c <= Rate(rows[|rows| - 1], d) else Rate(rows[|rows| - 1], d) <= c
    requires CarriedBounds(rows[..|rows| - 1], d, c, sign)
    ensures CarriedBounds(rows, d, c, sign)
  {
    var n := |rows| - 1;
    var carried, before := Carried(rows[..n], d), Elapsed(rows[..n]);
    var b, step := Rate(rows[n], d), Seconds(rows[n].time - rows[n - 1].time);
    LastRow(rows, d);
    OneMore(c, sign, carried, before, b, step);
  }

  lemma OneMore(c: real, sign: int, carried: real, before: real, b: real, step: real)
    requires step >= 0.0
    requires if sign > 0 then c * before <= carried && c <= b else carried <= c * before && b <= c
    ensures if sign > 0 then c * (before + step) <= carried + b * step else carried + b * step <= c * (before + step)
  {
    if sign > 0 { Scale(c, b, step); } else { Scale(b, c, step); }
    Distribute(c, before, step);
  }

  lemma Scale(a: real, b: real, t: real)
    requires a <= b && t >= 0.0
    ensures a * t <= b * t
  {
  }

  lemma Cancel(a: real, b: real, t: real)
    requires t > 0.0 && a * t <= b * t
    ensures a <= b
  {
    if a > b { StrictScale(b, a, t); }
  }

  lemma StrictScale(a: real, b: real, t: real)
    requires a < b && t > 0.0
    ensures a * t < b * t
  {
  }

  lemma Distribute(a: real, s: real, t: real)
    ensures a * (s + t) == a * s + a * t
  {
  }

  // Of rows in the order of their times, the average lies between the least and the greatest
  // rate of the rows after the first
  lemma AverageIsBetween(rows: seq<Row>, d: Direction, rate: real, low: real, high: real)
    requires |rows| > 1 && InOrder(rows) && Elapsed(rows) != 0.0 && IsAverage(rows, d, rate)
    requires Bounds(rows, d, low, 1) && Bounds(rows, d, high, -1)
    ensures low <= rate <= high
  {
    LaterIsLater(rows, |rows| - 1);
    CarriedIsBounded(rows, d, low, 1);
    CarriedIsBounded(rows, d, high, -1);
    var t, carried := Elapsed(rows), Carried(rows, d);
    assert t > 0.0;
    assert low * t <= carried <= high * t;
    assert rate * t == carried;
    Cancel(low, rate, t);
    Cancel(rate, high, t);
  }

  lemma {:induction false} LaterIsLater(rows: seq<Row>, k: nat)
    requires InOrder(rows) && k < |rows|
    ensures rows[0].time <= rows[k].time
  {
    if k > 0 { LaterIsLater(rows, k - 1); }
  }

  // The same rows with time running backwards
  function Mirror(rows: seq<Row>): (r: seq<Row>)
    ensures |r| == |rows| && forall k :: 0 <= k < |rows| ==> r[k] == rows[k].(time := -rows[k].time)
  {
    seq(|rows|, k requires 0 <= k < |rows| => rows[k].(time := -rows[k].time))
  }

  lemma {:induction false} MirrorCarries(rows: seq<Row>, d: Direction)
    ensures Carried(Mirror(rows), d) == -Carried(rows, d)
  {
    if |rows| > 1 {
      var n := |rows| - 1;
      assert Mirror(rows)[..n] == Mirror(rows[..n]);
      MirrorCarries(rows[..n], d);
      Negate(Rate(rows[n], d), Seconds(rows[n].time - rows[n - 1].time));
    }
  }

  lemma Negate(a: real, t: real)
    ensures a * (-t) == -(a * t)
  {
  }

  // Every step goes the way the whole goes, or nowhere
  predicate StepsAgree(rows: seq<Row>)
    requires rows != []
  {
    InOrder(if rows[0].time <= rows[|rows| - 1].time then rows else Mirror(rows))
  }

  // The average lies between all bounds of the rates after the first
  ghost predicate RangeHolds(rows: seq<Row>, d: Direction) {
    forall rate, low, high :: IsAverage(rows, d, rate) && Bounds(rows, d, low, 1) && Bounds(rows, d, high, -1)
      ==> low <= rate <= high
  }

  lemma AgreeingStepsHold(rows: seq<Row>, d: Direction)
    requires |rows| > 1 && rows[0].time != rows[|rows| - 1].time && StepsAgree(rows)
    ensures RangeHolds(rows, d)
  {
    forall rate, low, high | IsAverage(rows, d, rate) && Bounds(rows, d, low, 1) && Bounds(rows, d, high, -1)
      ensures low <= rate <= high
    {
      if rows[0].time <= rows[|rows| - 1].time {
        AverageIsBetween(rows, d, rate, low, high);
      } else {
        MirrorIsBetween(rows, d, rate, low, high);
      }
    }
  }

  lemma MirrorIsBetween(rows: seq<Row>, d: Direction, rate: real, low: real, high: real)
    requires |rows| > 1 && InOrder(Mirror(rows)) && rows[0].time != rows[|rows| - 1].time && IsAverage(rows, d, rate)
    requires Bounds(rows, d, low, 1) && Bounds(rows, d, high, -1)
    ensures low <= rate <= high
  {
    MirrorCarries(rows, d);
    assert Elapsed(Mirror(rows)) == -Elapsed(rows);
    Negate(rate, Elapsed(rows));
    AverageIsBetween(Mirror(rows), d, rate, low, high);
  }

  // The same timestamps, with the rate 1 at row k and 0 elsewhere
  function Spike(rows: seq<Row>, k: nat): (r: seq<Row>)
    ensures |r| == |rows|
    ensures forall i :: 0 <= i < |rows| ==>
      r[i].time == rows[i].time && forall d :: Rate(r[i], d) == if i == k then 1.0 else 0.0
  {
    seq(|rows|, i requires 0 <= i < |rows| =>
      var rate := if i == k then 1.0 else 0.0; rows[i].(dlRate := rate, ulRate := rate))
  }

  lemma {:induction false} SpikeCarries(rows: seq<Row>, d: Direction, k: nat)
    requires 1 <= k && forall i :: 1 <= i < |rows| ==> Rate(rows[i], d) == if i == k then 1.0 else 0.0
    ensures Carried(rows, d) == if k < |rows| then Seconds(rows[k].time - rows[k - 1].time) else 0.0
  {
    if |rows| > 1 { SpikeCarries(rows[..|rows| - 1], d, k); }
  }

  lemma Quotient(a: real, t: real)
    requires a < 0.0 < t || t < 0.0 < a
    ensures (a / t) * t == a && a / t < 0.0
  {
  }

  lemma DisagreeingStepFails(rows: seq<Row>, d: Direction, k: nat)
    requires 1 <= k < |rows| && rows[0].time != rows[|rows| - 1].time
    requires if rows[0].time < rows[|rows| - 1].time then rows[k].time < rows[k - 1].time
      else rows[k - 1].time < rows[k].time
    ensures !RangeHolds(Spike(rows, k), d)
  {
    var spike := Spike(rows, k);
    var step, t := Seconds(rows[k].time - rows[k - 1].time), Elapsed(rows);
    SpikeCarries(spike, d, k);
    Quotient(step, t);
    assert IsAverage(spike, d, step / t) && Bounds(spike, d, 0.0, 1) && Bounds(spike, d, 1.0, -1);
  }

  predicate SameTimes(rows: seq<Row>, others: seq<Row>) {
    |rows| == |others| && forall k :: 0 <= k < |rows| ==> others[k].time == rows[k].time
  }

  ghost predicate AlwaysInRange(rows: seq<Row>, d: Direction) {
    forall others :: SameTimes(rows, others) ==> RangeHolds(others, d)
  }

  // Whatever the rates, the average lies between the least and the greatest rate after the first
  // exactly when no step of the timestamps goes against the whole
  lemma InRangeWhenStepsAgree(rows: seq<Row>, d: Direction)
    requires |rows| > 1 && rows[0].time != rows[|rows| - 1].time
    ensures AlwaysInRange(rows, d) <==> StepsAgree(rows)
  {
    if StepsAgree(rows) {
      forall others | SameTimes(rows, others) ensures RangeHolds(others, d) {
        AgreeingStepsHold(others, d);
      }
    } else {
      var k := Disagreeing(rows);
      DisagreeingStepFails(rows, d, k);
      assert SameTimes(rows, Spike(rows, k));
    }
  }

  lemma Disagreeing(rows: seq<Row>) returns (k: nat)
    requires |rows| > 1 && rows[0].time != rows[|rows| - 1].time && !StepsAgree(rows)
    ensures 1 <= k < |rows|
    ensures if rows[0].time < rows[|rows| - 1].time then rows[k].time < rows[k - 1].time
      else rows[k - 1].time < rows[k].time
  {
    if rows[0].time < rows[|rows| - 1].time { k := OutOfOrder(rows); } else { k := OutOfOrder(Mirror(rows)); }
  }

  lemma OutOfOrder(rows: seq<Row>) returns (k: nat)
    requires !InOrder(rows)
    ensures 1 <= k < |rows| && rows[k].time < rows[k - 1].time
  {
    k :| 1 <= k < |rows| && rows[k].time < rows[k - 1].time;
  }

  predicate AboveItsRates(rows: seq<Row>) {
    |rows| == 3 && HasAverage(rows) && IsAverage(rows, Down, 2.0) && Rate(rows[1], Down) <= 1.0
      && Rate(rows[2], Down) <= 1.0
  }

  // Such an input: here both rates are at most 1, and the average is 2
  lemma OutOfOrderLeavesTheRange()
    ensures exists rows: seq<Row> :: AboveItsRates(rows)
  {
    var rows: seq<Row> := [Row(0, 0.0, 0.0, 0.0, 0.0), Row(10000, 0.0, 1.0, 0.0, 0.0), Row(5000, 0.0, 0.0, 0.0, 0.0)];
    assert rows[..2][..1] == rows[..1];
    assert Carried(rows[..2], Down) == 10.0;
    assert Carried(rows, Down) == 10.0 && Elapsed(rows) == 5.0;
    assert AboveItsRates(rows);
  }

  // ------------------------------------------------------------------ the code's definition

  // One step keeps the average: the old one for the old time, the new rate for the new time
  lemma StepKeepsAverage(rows: seq<Row>, r: Row, d: Direction, rate: real)
    requires rows != [] && IsAverage(rows, d, rate) && r.time != rows[0].time
    ensures var last := rows[|rows| - 1].time;
      var before := Seconds(last - rows[0].time);
      IsAverage(rows + [r], d, (rate * before + Rate(r, d) * Seconds(r.time - last)) / Seconds(r.time - rows[0].time))
  {
    var rows' := rows + [r];
    var last := rows[|rows| - 1].time;
    assert rows'[..|rows|] == rows;
    var carried := rate * Seconds(last - rows[0].time) + Rate(r, d) * Seconds(r.time - last);
    assert Carried(rows', d) == carried;
    var t := Seconds(r.time - rows[0].time);
    assert t != 0.0 && Elapsed(rows') == t;
    assert (carried / t) * t == carried;
  }

  datatype Aggregate = Aggregate(koDl: nat, rateDl: real, koUl: nat, rateUl: real)

  predicate Summarises(m: Aggregate, rows: seq<Row>) {
    && m.koDl == Kos(rows, Down) && IsAverage(rows, Down, m.rateDl)
    && m.koUl == Kos(rows, Up) && IsAverage(rows, Up, m.rateUl)
  }

  // Row k is the first with the time of the first one; it was counted, but not averaged
  predicate SummarisesUpTo(m: Aggregate, rows: seq<Row>, k: nat)
    requires k < |rows|
  {
    && rows[k].time == rows[0].time && HasAverage(rows[..k])
    && m.koDl == Kos(rows[..k + 1], Down) && IsAverage(rows[..k], Down, m.rateDl)
    && m.koUl == Kos(rows[..k + 1], Up) && IsAverage(rows[..k], Up, m.rateUl)
  }

  function Combined(rate: real, tOld: real, added: real, tNew: real, tBeginning: real): real
    requires tBeginning != 0.0
  {
    (rate * tOld + added * tNew) / tBeginning
  }

  // A row after the first one: its counts added, and the rates averaged anew
  function Next(m: Aggregate, r: Row, first: int, last: int): Aggregate
    requires r.time != first
  {
    var tOld, tNew, tBeginning := Seconds(last - first), Seconds(r.time - last), Seconds(r.time - first);
    Aggregate(
      m.koDl + Ko(r, Down), Combined(m.rateDl, tOld, r.dlRate, tNew, tBeginning),
      m.koUl + Ko(r, Up), Combined(m.rateUl, tOld, r.ulRate, tNew, tBeginning))
  }

  lemma NextSummarises(rows: seq<Row>, m: Aggregate, r: Row)
    requires rows != [] && Summarises(m, rows) && r.time != rows[0].time
    ensures Summarises(Next(m, r, rows[0].time, rows[|rows| - 1].time), rows + [r])
  {
    KosOneMore(rows, r, Down);
    KosOneMore(rows, r, Up);
    StepKeepsAverage(rows, r, Down, m.rateDl);
    StepKeepsAverage(rows, r, Up, m.rateUl);
  }

  lemma KosOneMore(rows: seq<Row>, r: Row, d: Direction)
    ensures Kos(rows + [r], d) == Kos(rows, d) + Ko(r, d)
  {
    assert (rows + [r])[..|rows|] == rows;
  }

  class SrsUe {
    var metric: Option<Aggregate>
    var timeFirst: Option<int>
    var timeLast: Option<int>

    predicate Valid()
      reads this
    {
      metric.None? ==> timeFirst.None? && timeLast.None?
    }

    // The fields after these rows
    predicate HasRead(rows: seq<Row>)
      reads this
    {
      && metric.Some? && Summarises(metric.value, rows) && HasAverage(rows)
      && if rows == [] then timeFirst.None?
        else timeFirst == Some(rows[0].time) && timeLast == Some(rows[|rows| - 1].time)
    }

    // Starting a UE forgets the metrics of the session before
    method Forget()
      modifies this
      ensures metric == None && timeFirst == None && timeLast == None
    {
      metric, timeFirst, timeLast := None, None, None;
    }

    method FirstRow(r: Row)
      requires HasRead([])
      modifies this
      ensures HasRead([r])
    {
      metric := Some(Aggregate(Ko(r, Down), r.dlRate, Ko(r, Up), r.ulRate));
      timeFirst, timeLast := Some(r.time), Some(r.time);
      assert [r][..0] == [];
    }

    // A later row with the time of the first: its counts are added before the division fails
    method RowWithoutAverage(r: Row, ghost rows: seq<Row>)
      requires rows != [] && HasRead(rows) && r.time == rows[0].time
      modifies this
      ensures metric.Some? && SummarisesUpTo(metric.value, rows + [r], |rows|)
    {
      var m := metric.value;
      CountedOnly(rows, m, r);
      metric := Some(m.(koDl := m.koDl + Ko(r, Down), koUl := m.koUl + Ko(r, Up)));
    }

    method LaterRow(r: Row, ghost rows: seq<Row>)
      requires rows != [] && HasRead(rows) && r.time != rows[0].time
      modifies this
      ensures HasRead(rows + [r])
    {
      NextSummarises(rows, metric.value, r);
      metric := Some(Next(metric.value, r, timeFirst.value, timeLast.value));
      timeLast := Some(r.time);
    }

    // The loop's body for one row
    method AddRow(r: Row, ghost rows: seq<Row>) returns (ok: bool)
      requires HasRead(rows)
      modifies this
      ensures metric.Some? && (ok <==> rows == [] || r.time != rows[0].time)
      ensures ok ==> HasRead(rows + [r])
      ensures !ok ==> SummarisesUpTo(metric.value, rows + [r], |rows|)
    {
      if timeFirst.None? {
        FirstRow(r);
        assert rows + [r] == [r];
      } else if r.time == timeFirst.value {
        RowWithoutAverage(r, rows);
        return false;
      } else {
        LaterRow(r, rows);
      }
      return true;
    }

    // _parse_metrics.  ok is false when a division by zero ended it; without a file, or with
    // the metrics already there, it does nothing.
    method ParseMetrics(file: Option<seq<Line>>) returns (ok: bool)
      requires Valid()
      modifies this
      ensures Valid()
      ensures file.None? || old(metric).Some?
        ==> ok && metric == old(metric) && timeFirst == old(timeFirst) && timeLast == old(timeLast)
      ensures file.Some? && old(metric).None? ==> metric.Some? && Parsed(metric.value, Data(file.value), ok)
    {
      if file.None? || metric.Some? { return true; }
      var lines := file.value;
      ghost var rows := Data(lines);
      metric := Some(Aggregate(0, 0.0, 0, 0.0));
      var k := 0;
      while k < |lines| && lines[k].Row?
        invariant k <= |rows| && k <= |lines| && Data(lines[k..]) == rows[k..]
        invariant HasRead(rows[..k])
      {
        NextLine(lines, k);
        ok := AddRow(lines[k], rows[..k]);
        if !ok {
          UpToPrefix(metric.value, rows, k);
          return;
        }
        k := k + 1;
      }
      assert rows[..k] == rows;
      return true;
    }

    // From Start to Stop: the metrics are those of this session's file, whatever was there before,
    // and stopping again changes nothing
    method Session(file: seq<Line>) returns (ok: bool)
      requires Valid()
      modifies this
      ensures Valid() && metric.Some? && Parsed(metric.value, Data(file), ok)
    {
      Forget();
      ok := ParseMetrics(Some(file));
      var again := ParseMetrics(Some(file));
    }
  }

  // What parsing leaves of the rows, and whether it ended well
  predicate Parsed(m: Aggregate, rows: seq<Row>, ok: bool) {
    && (ok <==> HasAverage(rows))
    && (ok ==> Summarises(m, rows))
    && (!ok ==> exists k :: 1 <= k < |rows| && SummarisesUpTo(m, rows, k))
  }

  lemma CountedOnly(rows: seq<Row>, m: Aggregate, r: Row)
    requires rows != [] && Summarises(m, rows) && HasAverage(rows) && r.time == rows[0].time
    ensures SummarisesUpTo(m.(koDl := m.koDl + Ko(r, Down), koUl := m.koUl + Ko(r, Up)), rows + [r], |rows|)
  {
    KosOneMore(rows, r, Down);
    KosOneMore(rows, r, Up);
    assert (rows + [r])[..|rows|] == rows && (rows + [r])[..|rows| + 1] == rows + [r];
  }

  lemma NextLine(lines: seq<Line>, k: nat)
    requires k < |lines| && lines[k].Row? && k <= |Data(lines)| && Data(lines[k..]) == Data(lines)[k..]
    ensures var rows := Data(lines); k < |rows| && rows[k] == lines[k] && rows[..k + 1] == rows[..k] + [lines[k]]
    ensures Data(lines[k + 1..]) == Data(lines)[k + 1..]
  {
    var rows, r := Data(lines), lines[k];
    assert Data(lines[k..]) == [r] + Data(lines[k..][1..]);
    assert rows[k] == rows[k..][0] == r;
    assert lines[k..][1..] == lines[k + 1..] && rows[k..][1..] == rows[k + 1..];
  }

  lemma UpToPrefix(m: Aggregate, rows: seq<Row>, k: nat)
    requires 0 < k < |rows| && SummarisesUpTo(m, rows[..k] + [rows[k]], k)
    ensures SummarisesUpTo(m, rows, k)
  {
    var prefix := rows[..k] + [rows[k]];
    assert prefix[..k] == rows[..k] && prefix[..k + 1] == rows[..k + 1];
  }
}
