/** Range queries: the step, what is sent, and how many points that asks for. Times in nanoseconds. */
module PromQuery {
  import opened Text

  const SECOND: int := 1_000_000_000

  /** The longest and the shortest duration of a 64-bit count of nanoseconds. */
  const MAX_DURATION: int := 0x7fff_ffff_ffff_ffff
  const MIN_DURATION: int := -0x8000_0000_0000_0000

  /** The difference of two times, cut off where a duration ends. */
  function Sub(end: int, start: int): int {
    if end - start > MAX_DURATION then MAX_DURATION
    else if end - start < MIN_DURATION then MIN_DURATION
    else end - start
  }

  /** Go's integer division. */
  function Quotient(a: int, b: int): int
    requires b > 0
  {
    if a >= 0 then a / b else -(-a / b)
  }

  function Step(start: int, end: int): int {
    var s := Quotient(Sub(end, start), 60);
    if s < 15 * SECOND then 15 * SECOND else s
  }

  /** The whole second a time lies in. */
  function Unix(t: int): int { t / SECOND }

  /** Nearest integer to a number of seconds, ties to even. */
  function RoundHalfEven(ns: int): int {
    var q, r := ns / SECOND, ns % SECOND;
    if 2 * r < SECOND then q else if 2 * r > SECOND then q + 1 else if q % 2 == 0 then q else q + 1
  }

  /**
   What the step may be printed as: a nearest integer, where the conversion to a 64-bit float
   has moved the number by at most sixteen nanoseconds.
   */
  predicate Printed(ns: int, seconds: int) {
    -(SECOND / 2 + 16) <= seconds * SECOND - ns <= SECOND / 2 + 16
  }

  lemma RoundHalfEvenIsPrinted(ns: int)
    ensures Printed(ns, RoundHalfEven(ns))
  {
  }

  /** It is a nearest integer, and of two nearest the even one. */
  lemma RoundHalfEvenIsNearest(ns: int, other: int)
    ensures var r := RoundHalfEven(ns);
      && Distance(r * SECOND, ns) <= Distance(other * SECOND, ns)
      && (other != r && Distance(r * SECOND, ns) == Distance(other * SECOND, ns) ==> r % 2 == 0)
  {
  }

  function Distance(a: int, b: int): int { if a < b then b - a else a - b }

  /** The points of an inclusive range query: one at the start and one after each step that fits. */
  function Points(startS: int, endS: int, stepS: int): int
    requires stepS > 0
  {
    Quotient(endS - startS, stepS) + 1
  }

  lemma QuotientBounds(a: int, b: int)
    requires b > 0 && a >= 0
    ensures Quotient(a, b) * b <= a < Quotient(a, b) * b + b
  {
  }

  lemma QuotientBelow(a: int, b: int, n: int)
    requires b > 0 && a >= 0
    ensures Quotient(a, b) < n <==> a < n * b
  {
    var q := Quotient(a, b);
    QuotientBounds(a, b);
    if q < n {
      Ordered(q + 1, n, b);
    } else {
      Ordered(n, q, b);
    }
  }

  lemma Ordered(x: int, y: int, b: int)
    requires x <= y && b > 0
    ensures x * b <= y * b
  {
  }

  /** The whole seconds between two times, against the time between them. */
  lemma Span(start: int, end: int)
    requires start < end
    ensures var w := Unix(end) - Unix(start);
      && end - start - SECOND < w * SECOND < end - start + SECOND
      && w >= (end - start) / SECOND >= 0
  {
  }

  /** The step in terms of the window, as long as a duration can hold the window. */
  lemma StepIs(start: int, end: int)
    requires start < end
    ensures var s := Step(start, end);
      && s >= 15 * SECOND
      && (end - start <= MAX_DURATION ==>
            (60 * s <= end - start < 60 * s + 60 || (s == 15 * SECOND && end - start < 60 * s)))
      && (end - start > MAX_DURATION ==> s == MAX_DURATION / 60)
  {
  }

  /** Below the saturation of durations the printed step is never too short for 63 points. */
  lemma ShortWindow(start: int, end: int, r: int)
    requires start < end && end - start <= MAX_DURATION && Printed(Step(start, end), r)
    ensures r >= 15 && Unix(end) - Unix(start) < 63 * r
  {
  }

  /** Above it the step no longer grows. */
  lemma LongWindow(start: int, end: int, r: int)
    requires start < end && end - start > MAX_DURATION && Printed(Step(start, end), r)
    ensures r == 153_722_867
  {
  }

  /**
   However the step is printed, a valid window asks for at most 63 points exactly when it spans
   fewer than 9 684 540 621 seconds: beyond that the saturated step is too short.
   */
  lemma PointsAtMost63(start: int, end: int, r: int)
    requires start < end && Printed(Step(start, end), r)
    ensures r >= 15
    ensures Points(Unix(start), Unix(end), r) <= 63 <==> Unix(end) - Unix(start) < 9_684_540_621
  {
    Span(start, end);
    if end - start <= MAX_DURATION {
      ShortWindow(start, end, r);
    } else {
      LongWindow(start, end, r);
    }
    QuotientBelow(Unix(end) - Unix(start), r, 63);
  }

  /** The shortest window with a sixty-fourth point, a little under 307 years. */
  lemma SixtyFourPoints()
    ensures var end := 9_684_540_621 * SECOND;
      Points(Unix(0), Unix(end), RoundHalfEven(Step(0, end))) == 64
  {
  }

  /** A window of fifteen minutes or more asks for at least 59 points. */
  lemma PointsAtLeast59(start: int, end: int, r: int)
    requires start + 900 * SECOND <= end && Printed(Step(start, end), r)
    ensures r >= 15
    ensures Points(Unix(start), Unix(end), r) >= 59
  {
    StepIs(start, end);
    Span(start, end);
    assert Unix(end) - Unix(start) >= 58 * r;
    QuotientBelow(Unix(end) - Unix(start), r, 58);
  }

  /******* The query *******/

  datatype Sample = Sample(timestamp: int, value: real)

  datatype Series = Series(metric: map<string, string>, samples: seq<Sample>)

  /** A raw pair as Prometheus sends it, and a parser of such pairs. */
  datatype Raw = Raw(timestamp: string, value: string)

  type SampleParser = Raw -> Option<Sample>

  datatype Row = Row(metric: map<string, string>, values: seq<Raw>)

  /** Prometheus's answer: None when the request or the decoding of its envelope failed. */
  type Matrix = Option<seq<Row>>

  datatype QueryError = NoTimeRange | EmptyTimeRange | RequestFailed | BadSample

  function ParseAll(parse: SampleParser, raws: seq<Raw>): Option<seq<Sample>> {
    if raws == [] then Some([])
    else
      var before, last := ParseAll(parse, raws[..|raws| - 1]), parse(raws[|raws| - 1]);
      if before.Some? && last.Some? then Some(before.value + [last.value]) else None
  }

  function ParseRows(parse: SampleParser, rows: seq<Row>): Option<seq<Series>> {
    if rows == [] then Some([])
    else
      var before, samples := ParseRows(parse, rows[..|rows| - 1]), ParseAll(parse, rows[|rows| - 1].values);
      if before.Some? && samples.Some? then Some(before.value + [Series(rows[|rows| - 1].metric, samples.value)])
      else None
  }

  lemma {:induction false} NoneStays(parse: SampleParser, raws: seq<Raw>, k: nat)
    requires k < |raws| && parse(raws[k]) == None
    ensures ParseAll(parse, raws) == None
  {
    if k == |raws| - 1 {
    } else {
      assert raws[..|raws| - 1][k] == raws[k];
      NoneStays(parse, raws[..|raws| - 1], k);
    }
  }

  lemma {:induction false} RowNoneStays(parse: SampleParser, rows: seq<Row>, k: nat)
    requires k < |rows| && ParseAll(parse, rows[k].values) == None
    ensures ParseRows(parse, rows) == None
  {
    if k == |rows| - 1 {
    } else {
      assert rows[..|rows| - 1][k] == rows[k];
      RowNoneStays(parse, rows[..|rows| - 1], k);
    }
  }

  lemma {:induction false} AllParsed(parse: SampleParser, raws: seq<Raw>)
    ensures ParseAll(parse, raws).Some? <==> forall k :: 0 <= k < |raws| ==> parse(raws[k]) != None
    ensures ParseAll(parse, raws).Some? ==>
      && |ParseAll(parse, raws).value| == |raws|
      && forall k :: 0 <= k < |raws| ==> Some(ParseAll(parse, raws).value[k]) == parse(raws[k])
  {
    if raws == [] {
    } else {
      var init := raws[..|raws| - 1];
      AllParsed(parse, init);
      assert forall k :: 0 <= k < |init| ==> init[k] == raws[k];
    }
  }

  /** The series is the row: its labels, and each of its pairs parsed. */
  ghost predicate Parsed(parse: SampleParser, row: Row, series: Series) {
    && series.metric == row.metric && |series.samples| == |row.values|
    && forall k :: 0 <= k < |row.values| ==> Some(series.samples[k]) == parse(row.values[k])
  }

  ghost predicate Parses(parse: SampleParser, row: Row) {
    forall k :: 0 <= k < |row.values| ==> parse(row.values[k]) != None
  }

  /** An answer is taken exactly when every pair in it parses, and then row by row. */
  lemma {:induction false} RowsParsed(parse: SampleParser, rows: seq<Row>)
    ensures ParseRows(parse, rows).Some? <==> forall k :: 0 <= k < |rows| ==> Parses(parse, rows[k])
    ensures ParseRows(parse, rows).Some? ==>
      && |ParseRows(parse, rows).value| == |rows|
      && forall k :: 0 <= k < |rows| ==> Parsed(parse, rows[k], ParseRows(parse, rows).value[k])
  {
    if rows == [] {
    } else {
      var init, last := rows[..|rows| - 1], rows[|rows| - 1];
      RowsParsed(parse, init);
      AllParsed(parse, last.values);
      assert Parses(parse, last) <==> ParseAll(parse, last.values).Some?;
      assert forall k :: 0 <= k < |init| ==> init[k] == rows[k];
    }
  }

  method ParseSamples(parse: SampleParser, raws: seq<Raw>) returns (samples: Option<seq<Sample>>)
    ensures samples == ParseAll(parse, raws)
  {
    var parsed: seq<Sample> := [];
    for k := 0 to |raws|
      invariant ParseAll(parse, raws[..k]) == Some(parsed)
    {
      var sample := parse(raws[k]);
      if sample.None? {
        NoneStays(parse, raws, k);
        return None;
      }
      assert raws[..k + 1][..k] == raws[..k];
      parsed := parsed + [sample.value];
    }
    assert raws[..|raws|] == raws;
    samples := Some(parsed);
  }

  /** All the series, each sample parsed; or nothing at the first sample that does not parse. */
  method ParseMatrix(parse: SampleParser, rows: seq<Row>) returns (series: Option<seq<Series>>)
    ensures series == ParseRows(parse, rows)
  {
    var grown: seq<Series> := [];
    for k := 0 to |rows|
      invariant ParseRows(parse, rows[..k]) == Some(grown)
    {
      var samples := ParseSamples(parse, rows[k].values);
      if samples.None? {
        RowNoneStays(parse, rows, k);
        return None;
      }
      assert rows[..k + 1][..k] == rows[..k];
      grown := grown + [Series(rows[k].metric, samples.value)];
    }
    assert rows[..|rows|] == rows;
    series := Some(grown);
  }

  /** A zero time is None. The answer may depend on what was asked. */
  method QueryRange(start: Option<int>, end: Option<int>, step: int, spell: int -> int,
                    ask: (int, int, int) -> Matrix, parse: SampleParser)
    returns (r: Result<seq<Series>, QueryError>)
    ensures r == (
      if start.None? || end.None? then Err(NoTimeRange)
      else if end.value <= start.value then Err(EmptyTimeRange)
      else
        var rows := ask(Unix(start.value), Unix(end.value), spell(if step <= 0 then 60 * SECOND else step));
        if rows.None? then Err(RequestFailed)
        else if ParseRows(parse, rows.value).None? then Err(BadSample)
        else Ok(ParseRows(parse, rows.value).value))
  {
    if start.None? || end.None? { return Err(NoTimeRange); }
    if end.value <= start.value { return Err(EmptyTimeRange); }
    var stepped := step;
    if stepped <= 0 { stepped := 60 * SECOND; }
    var rows := ask(Unix(start.value), Unix(end.value), spell(stepped));
    if rows.None? { return Err(RequestFailed); }
    var series := ParseMatrix(parse, rows.value);
    r := if series.None? then Err(BadSample) else Ok(series.value);
  }
}
