/** What a rate query is summarised to: a nested loop over all samples. */
module RateSummary {
  import opened PromQuery
  import opened Text

  /** Go's zero time, the first of January of the year 1, in nanoseconds. */
  const ZERO_TIME: int := -62_135_596_800 * SECOND

  predicate CompareThreshold(value: real, op: string, threshold: real) {
    match op
    case ">" => value > threshold
    case ">=" => value >= threshold
    case "<" => value < threshold
    case "<=" => value <= threshold
    case "==" => value == threshold
    case "!=" => value != threshold
    case _ => false
  }

  /** Which comparisons hold, by how the value lies to the threshold; an unknown one never does. */
  lemma ThresholdTable(value: real, op: string, threshold: real)
    ensures CompareThreshold(value, op, threshold) <==>
      op in (if value > threshold then {">", ">=", "!="}
             else if value < threshold then {"<", "<=", "!="}
             else {">=", "<=", "=="})
  {
  }

  /** The zero time lies 719 162 days before the first of January 1970. */
  lemma ZeroTimeIs()
    ensures ZERO_TIME == -(719_162 * 24 * 3600 * 1_000_000_000)
  {
  }

  function Flatten(series: seq<Series>): seq<Sample> {
    if series == [] then [] else Flatten(series[..|series| - 1]) + series[|series| - 1].samples
  }

  /** The flattened samples before those of series `k`. */
  function Before(series: seq<Series>, k: nat): nat
    requires k <= |series|
  {
    if k == 0 then 0 else Before(series, k - 1) + |series[k - 1].samples|
  }

  /** Every sample stands where the series before it end, and there are no others. */
  lemma {:induction false} FlattenAt(series: seq<Series>, k: nat, i: nat)
    ensures |Flatten(series)| == Before(series, |series|)
    ensures k < |series| && i < |series[k].samples| ==>
      Before(series, k) + i < |Flatten(series)| && Flatten(series)[Before(series, k) + i] == series[k].samples[i]
  {
    if series == [] {
    } else {
      var n := |series| - 1;
      FlattenAt(series[..n], k, i);
      BeforeInit(series, n, n);
      if k < n { BeforeInit(series, n, k); }
    }
  }

  lemma {:induction false} BeforeInit(series: seq<Series>, n: nat, k: nat)
    requires k <= n <= |series|
    ensures Before(series[..n], k) == Before(series, k)
  {
    if k == 0 {
    } else {
      BeforeInit(series, n, k - 1);
    }
  }

  function Above(samples: seq<Sample>, op: string, threshold: real): (n: nat)
    ensures n <= |samples|
  {
    if samples == [] then 0
    else
      Above(samples[..|samples| - 1], op, threshold)
        + if CompareThreshold(samples[|samples| - 1].value, op, threshold) then 1 else 0
  }

  /** The first sample with the greatest timestamp after the zero time, if any is after it. */
  predicate IsLatest(samples: seq<Sample>, k: nat) {
    && k < |samples| && samples[k].timestamp > ZERO_TIME
    && (forall i :: 0 <= i < |samples| ==> samples[i].timestamp <= samples[k].timestamp)
    && (forall i :: 0 <= i < k ==> samples[i].timestamp < samples[k].timestamp)
  }

  ghost predicate Reports(samples: seq<Sample>, value: real, at: int) {
    if exists i :: 0 <= i < |samples| && samples[i].timestamp > ZERO_TIME
    then exists k: nat :: IsLatest(samples, k) && value == samples[k].value && at == samples[k].timestamp
    else value == 0.0 && at == ZERO_TIME
  }

  /** The count is that of the samples that compare. */
  lemma {:induction false} AboveCounts(samples: seq<Sample>, op: string, threshold: real)
    ensures Above(samples, op, threshold)
      == |set k | 0 <= k < |samples| && CompareThreshold(samples[k].value, op, threshold)|
  {
    if samples == [] {
    } else {
      var n := |samples| - 1;
      var init := samples[..n];
      AboveCounts(init, op, threshold);
      var less := set k | 0 <= k < n && CompareThreshold(init[k].value, op, threshold);
      var all := set k | 0 <= k < |samples| && CompareThreshold(samples[k].value, op, threshold);
      assert all == less + if CompareThreshold(samples[n].value, op, threshold) then {n} else {};
    }
  }

  lemma AboveMore(samples: seq<Sample>, x: Sample, op: string, threshold: real)
    ensures Above(samples + [x], op, threshold)
      == Above(samples, op, threshold) + if CompareThreshold(x.value, op, threshold) then 1 else 0
  {
  }

  lemma ReportsMore(samples: seq<Sample>, x: Sample, value: real, at: int)
    requires Reports(samples, value, at)
    ensures if x.timestamp > at then Reports(samples + [x], x.value, x.timestamp) else Reports(samples + [x], value, at)
  {
    var more := samples + [x];
    if x.timestamp > at {
      assert more[|samples|] == x;
      assert IsLatest(more, |samples|);
    } else if exists i :: 0 <= i < |samples| && samples[i].timestamp > ZERO_TIME {
      var k: nat :| IsLatest(samples, k) && value == samples[k].value && at == samples[k].timestamp;
      assert more[k] == samples[k];
      assert IsLatest(more, k);
    }
  }

  datatype Summary = Summary(total: nat, above: nat, latestValue: real, latestAt: int)

  /** The counts are those of the flattened samples, and the latest is the first of the latest. */
  ghost predicate Summarises(samples: seq<Sample>, op: string, threshold: real, s: Summary) {
    && s.total == |samples| && s.above == Above(samples, op, threshold)
    && Reports(samples, s.latestValue, s.latestAt)
  }

  lemma SummarisesMore(samples: seq<Sample>, x: Sample, op: string, threshold: real, s: Summary, t: Summary)
    requires Summarises(samples, op, threshold, s)
    requires t.total == s.total + 1
    requires t.above == s.above + if CompareThreshold(x.value, op, threshold) then 1 else 0
    requires if x.timestamp > s.latestAt then t.latestValue == x.value && t.latestAt == x.timestamp
             else t.latestValue == s.latestValue && t.latestAt == s.latestAt
    ensures Summarises(samples + [x], op, threshold, t)
  {
    AboveMore(samples, x, op, threshold);
    ReportsMore(samples, x, s.latestValue, s.latestAt);
  }

  /** The inner loop, over the samples of one series. */
  method AddSeries(samples: seq<Sample>, op: string, threshold: real, s0: Summary, ghost before: seq<Sample>)
    returns (s: Summary)
    requires Summarises(before, op, threshold, s0)
    ensures Summarises(before + samples, op, threshold, s)
  {
    s := s0;
    assert before + samples[..0] == before;
    for k := 0 to |samples|
      invariant Summarises(before + samples[..k], op, threshold, s)
    {
      var x := samples[k];
      ghost var was := s;
      s := s.(total := s.total + 1);
      if CompareThreshold(x.value, op, threshold) { s := s.(above := s.above + 1); }
      if x.timestamp > s.latestAt { s := s.(latestValue := x.value, latestAt := x.timestamp); }
      SummarisesMore(before + samples[..k], x, op, threshold, was, s);
      assert before + samples[..k] + [x] == before + samples[..k + 1];
    }
    assert samples[..|samples|] == samples;
  }

  method Summarise(series: seq<Series>, op: string, threshold: real) returns (s: Summary, confidence: real)
    ensures Summarises(Flatten(series), op, threshold, s)
    ensures s.total > 0 ==> confidence * s.total as real == s.above as real
    ensures s.total == 0 ==> confidence == 0.0
    ensures 0.0 <= confidence <= 1.0
  {
    s := Summary(0, 0, 0.0, ZERO_TIME);
    assert series[..0] == [];
    for k := 0 to |series|
      invariant Summarises(Flatten(series[..k]), op, threshold, s)
    {
      s := AddSeries(series[k].samples, op, threshold, s, Flatten(series[..k]));
      assert series[..k + 1][..k] == series[..k];
    }
    assert series[..|series|] == series;
    confidence := 0.0;
    if s.total > 0 {
      confidence := s.above as real / s.total as real;
      Ratio(s.above, s.total);
      if confidence > 1.0 { confidence := 1.0; }
    }
  }

  lemma Ratio(a: nat, b: nat)
    requires a <= b && b > 0
    ensures 0.0 <= a as real / b as real <= 1.0
    ensures (a as real / b as real) * b as real == a as real
  {
  }

  /** There is one summary to report: the counts and the latest sample are determined. */
  lemma SummaryIsUnique(samples: seq<Sample>, op: string, threshold: real, s: Summary, t: Summary)
    requires Summarises(samples, op, threshold, s) && Summarises(samples, op, threshold, t)
    ensures s == t
  {
  }

  /** A query that fails is reported with no confidence; one that succeeds, by its samples. */
  method DispatchRate(start: Option<int>, end: Option<int>, spell: int -> int, ask: (int, int, int) -> Matrix,
                      parse: SampleParser, op: string, threshold: real)
    returns (r: Result<Summary, QueryError>, confidence: real)
    ensures r.Err? ==> confidence == 0.0
    ensures 0.0 <= confidence <= 1.0
    ensures start.Some? && end.Some? && start.value < end.value ==>
      var rows := ask(Unix(start.value), Unix(end.value), spell(Step(start.value, end.value)));
      && (r.Ok? <==> rows.Some? && ParseRows(parse, rows.value).Some?)
      && (r.Ok? ==> Summarises(Flatten(ParseRows(parse, rows.value).value), op, threshold, r.value))
    ensures r.Ok? && r.value.total > 0 ==> confidence * r.value.total as real == r.value.above as real
    ensures r.Ok? && r.value.total == 0 ==> confidence == 0.0
  {
    var step := if start.Some? && end.Some? then Step(start.value, end.value) else 15 * SECOND;
    var result := QueryRange(start, end, step, spell, ask, parse);
    if result.Err? { return Err(result.error), 0.0; }
    var s;
    s, confidence := Summarise(result.value, op, threshold);
    r := Ok(s);
  }
}
