/** The Loki collector: a capped nested loop over streams, one blob, one finding. */
module LokiCollector {
  import D = Dispatch
  import opened EvidenceStore
  import opened M = MinioWriter
  import opened Text

  datatype LogLine = LogLine(timestampNs: string, line: string, labels: map<string, string>)

  datatype Stream = Stream(labels: map<string, string>, values: seq<(string, string)>)

  function LinesOf(s: Stream): seq<LogLine> {
    seq(|s.values|, i requires 0 <= i < |s.values| => LogLine(s.values[i].0, s.values[i].1, s.labels))
  }

  /** All the lines of all the streams, in order. */
  function Flatten(streams: seq<Stream>): seq<LogLine> {
    if streams == [] then [] else Flatten(streams[..|streams| - 1]) + LinesOf(streams[|streams| - 1])
  }

  /** The flattened lines before those of stream `k`. */
  function Before(streams: seq<Stream>, k: nat): nat
    requires k <= |streams|
  {
    if k == 0 then 0 else Before(streams, k - 1) + |streams[k - 1].values|
  }

  lemma {:induction false} BeforeInit(streams: seq<Stream>, n: nat, k: nat)
    requires k <= n <= |streams|
    ensures Before(streams[..n], k) == Before(streams, k)
  {
    if k == 0 {
    } else {
      BeforeInit(streams, n, k - 1);
    }
  }

  /** Every value becomes one line, time first and text second, with its stream's labels, in order. */
  lemma {:induction false} FlattenAt(streams: seq<Stream>, k: nat, i: nat)
    ensures |Flatten(streams)| == Before(streams, |streams|)
    ensures k < |streams| && i < |streams[k].values| ==>
      var at, value := Before(streams, k) + i, streams[k].values[i];
      at < |Flatten(streams)| && Flatten(streams)[at] == LogLine(value.0, value.1, streams[k].labels)
  {
    if streams == [] {
    } else {
      var n := |streams| - 1;
      FlattenAt(streams[..n], k, i);
      BeforeInit(streams, n, n);
      if k < n { BeforeInit(streams, n, k); }
    }
  }

  function Min(a: int, b: int): int { if a < b then a else b }

  function First<T>(n: nat, s: seq<T>): seq<T> { s[..Min(n, |s|)] }

  /** Newline-delimited JSON: the encoded lines, one after the other. */
  function Encoded(encode: LogLine -> Payload, lines: seq<LogLine>): Payload {
    if lines == [] then [] else Encoded(encode, lines[..|lines| - 1]) + encode(lines[|lines| - 1])
  }

  lemma FlattenMore(streams: seq<Stream>, k: nat)
    requires k < |streams|
    ensures Flatten(streams[..k + 1]) == Flatten(streams[..k]) + LinesOf(streams[k])
  {
    assert streams[..k + 1][..k] == streams[..k];
  }

  lemma {:induction false} FlattenGrows(streams: seq<Stream>, k: nat)
    requires k <= |streams|
    ensures Flatten(streams[..k]) <= Flatten(streams)
  {
    if k == |streams| {
      assert streams[..k] == streams;
    } else {
      var init := streams[..|streams| - 1];
      assert init[..k] == streams[..k];
      FlattenGrows(init, k);
    }
  }

  lemma EncodedMore(encode: LogLine -> Payload, lines: seq<LogLine>, l: LogLine)
    ensures Encoded(encode, lines + [l]) == Encoded(encode, lines) + encode(l)
  {
  }

  /** The inner loop: encode lines of one stream until the cap is met. */
  method CollectStream(s: Stream, maxLines: nat, encode: LogLine -> Payload, buf0: Payload, count0: nat,
                       ghost lines0: seq<LogLine>)
    returns (buf: Payload, count: nat)
    requires count0 == |lines0| <= maxLines && buf0 == Encoded(encode, lines0)
    ensures buf == Encoded(encode, First(maxLines, lines0 + LinesOf(s)))
    ensures count == |First(maxLines, lines0 + LinesOf(s))|
  {
    buf, count := buf0, count0;
    var i := 0;
    assert lines0 + LinesOf(s)[..0] == lines0;
    while i < |s.values|
      invariant 0 <= i <= |s.values| && count == |lines0| + i <= maxLines
      invariant buf == Encoded(encode, lines0 + LinesOf(s)[..i])
    {
      if count >= maxLines { break; }
      var rec := LogLine(s.values[i].0, s.values[i].1, s.labels);
      EncodedMore(encode, lines0 + LinesOf(s)[..i], rec);
      assert lines0 + LinesOf(s)[..i] + [rec] == lines0 + LinesOf(s)[..i + 1];
      buf := buf + encode(rec);
      count := count + 1;
      i := i + 1;
    }
    assert lines0 + LinesOf(s)[..i] == First(maxLines, lines0 + LinesOf(s));
  }

  lemma FirstOfPrefix<T>(n: nat, a: seq<T>, b: seq<T>)
    requires a <= b && |a| >= n
    ensures First(n, a) == First(n, b)
  {
  }

  lemma FirstThenMore<T>(n: nat, a: seq<T>, b: seq<T>)
    ensures First(n, First(n, a) + b) == First(n, a + b)
  {
  }

  method CollectLines(streams: seq<Stream>, maxLines: nat, encode: LogLine -> Payload)
    returns (buf: Payload, count: nat)
    ensures buf == Encoded(encode, First(maxLines, Flatten(streams)))
    ensures count == Min(maxLines, |Flatten(streams)|)
  {
    buf, count := [], 0;
    assert streams[..0] == [];
    var k := 0;
    while k < |streams|
      invariant 0 <= k <= |streams|
      invariant count == |First(maxLines, Flatten(streams[..k]))|
      invariant buf == Encoded(encode, First(maxLines, Flatten(streams[..k])))
    {
      ghost var lines := First(maxLines, Flatten(streams[..k]));
      buf, count := CollectStream(streams[k], maxLines, encode, buf, count, lines);
      FirstThenMore(maxLines, Flatten(streams[..k]), LinesOf(streams[k]));
      FlattenMore(streams, k);
      k := k + 1;
      if count >= maxLines { break; }
    }
    FlattenGrows(streams, k);
    if k == |streams| {
      assert streams[..k] == streams;
    } else {
      FirstOfPrefix(maxLines, Flatten(streams[..k]), Flatten(streams));
    }
  }

  /******* One dispatch *******/

  datatype DispatchRequest = DispatchRequest(start: Option<int>, end: Option<int>, maxLines: int)

  datatype DispatchResult = DispatchResult(ndjson: Payload, matchCount: nat)

  datatype DispatchError = NoLines | NoWindow | EmptyWindow | QueryFailed

  /** Why a request is refused, if it is; a zero time is None. */
  function Refusal(r: DispatchRequest): Option<DispatchError> {
    if r.maxLines <= 0 then Some(NoLines)
    else if r.start.None? || r.end.None? then Some(NoWindow)
    else if r.end.value <= r.start.value then Some(EmptyWindow)
    else None
  }

  /** `streams` is Loki's answer, None when the query failed. An error comes with an empty result. */
  method Dispatch(r: DispatchRequest, streams: Option<seq<Stream>>, encode: LogLine -> Payload)
    returns (result: DispatchResult, error: Option<DispatchError>)
    ensures error == if Refusal(r).Some? then Refusal(r) else if streams.None? then Some(QueryFailed) else None
    ensures error == Some(NoLines) <==> r.maxLines <= 0
    ensures error == Some(NoWindow) <==> r.maxLines > 0 && (r.start == None || r.end == None)
    ensures error == Some(EmptyWindow) <==>
      r.maxLines > 0 && r.start.Some? && r.end.Some? && r.end.value <= r.start.value
    ensures error == None <==>
      r.maxLines > 0 && r.start.Some? && r.end.Some? && r.start.value < r.end.value && streams.Some?
    ensures error.Some? ==> result == DispatchResult([], 0)
    ensures error.None? ==>
      && result.ndjson == Encoded(encode, First(r.maxLines, Flatten(streams.value)))
      && result.matchCount == Min(r.maxLines, |Flatten(streams.value)|)
  {
    result := DispatchResult([], 0);
    if r.maxLines <= 0 { return result, Some(NoLines); }
    if r.start.None? || r.end.None? { return result, Some(NoWindow); }
    if r.end.value <= r.start.value { return result, Some(EmptyWindow); }
    if streams.None? { return result, Some(QueryFailed); }
    var buf, count := CollectLines(streams.value, r.maxLines, encode);
    result, error := DispatchResult(buf, count), None;
  }

  /******* The collector *******/

  datatype CollectorInput = CollectorInput(
    incidentId: string, question: string, hypothesisId: string, start: Option<int>, end: Option<int>,
    cluster: string, maxInternalIterations: int)

  predicate ValidInput(c: CollectorInput) {
    && c.incidentId != "" && c.question != "" && c.hypothesisId != ""
    && c.start.Some? && c.end.Some? && c.start.value < c.end.value
    && c.cluster != ""
  }

  function EffectiveIterations(c: CollectorInput): int {
    if c.maxInternalIterations <= 0 then 5
    else if c.maxInternalIterations > 10 then 10
    else c.maxInternalIterations
  }

  /** The cap for an input: 200 lines an iteration, never more than 1000 and never none. */
  function MaxLines(c: CollectorInput): (n: int)
    ensures 200 <= n <= 1000
  {
    Min(EffectiveIterations(c) * 200, 1000)
  }

  /** What the collector takes from its surroundings: encodings and texts. */
  datatype Setting = Setting(
    encode: LogLine -> Payload,
    errorPayload: (string, DispatchError) -> Payload,
    summarise: (Payload, nat) -> string,
    describe: DispatchError -> string)

  /** The bytes `{}`. */
  const EMPTY_OBJECT: Payload := [0x7b, 0x7d]

  function ErrorOf(c: CollectorInput, streams: Option<seq<Stream>>): Option<DispatchError> {
    var refusal := Refusal(DispatchRequest(c.start, c.end, MaxLines(c)));
    if refusal.Some? then refusal else if streams.None? then Some(QueryFailed) else None
  }

  function Collected(c: CollectorInput, streams: Option<seq<Stream>>): seq<LogLine> {
    if ErrorOf(c, streams).Some? then [] else First(MaxLines(c), Flatten(streams.value))
  }

  /** What is stored: the collected lines, or a record of the error, or an empty object. */
  function PayloadOf(c: CollectorInput, streams: Option<seq<Stream>>, s: Setting): Payload {
    var lines := Encoded(s.encode, Collected(c, streams));
    if lines != [] then lines
    else if ErrorOf(c, streams).Some? then s.errorPayload(c.question, ErrorOf(c, streams).value)
    else EMPTY_OBJECT
  }

  function Summary(c: CollectorInput, streams: Option<seq<Stream>>, s: Setting): string {
    if ErrorOf(c, streams).Some? then "loki query error: " + s.describe(ErrorOf(c, streams).value)
    else s.summarise(Encoded(s.encode, Collected(c, streams)), |Collected(c, streams)|)
  }

  /** The request `Collect` makes of the writer. */
  function BlobOf(c: CollectorInput, streams: Option<seq<Stream>>, s: Setting): Request {
    Request(c.incidentId, "application/x-ndjson", PayloadOf(c, streams, s))
  }

  /** The output for a reference: Go encodes the followups it never sets as `null`. */
  function Output(c: CollectorInput, streams: Option<seq<Stream>>, s: Setting, ref: EvidenceRef): D.WireOutput {
    D.WireOutput(
      D.WireFinding("f_" + ref.evidenceId, "loki", c.question, Summary(c, streams, s), ref.evidenceId,
        if Collected(c, streams) != [] then 0.7 else 0.0, None),
      ref.sizeBytes, 1, 0)
  }

  /** The blob is put before the output is built, and without a blob there is no output. */
  method Collect(c: CollectorInput, streams: Option<seq<Stream>>, s: Setting, writer: MinioWriter, id: string,
                 up: Upload, now: int)
    returns (r: Result<D.WireOutput, WriterError>)
    modifies writer.client
    ensures writer.client.objects == Stored(old(writer.client.objects), BlobOf(c, streams, s), id, up)
    ensures r.Ok? <==> c.incidentId != "" && up.how == Done
    ensures r.Ok? ==>
      && r.value.finding.evidenceId == id && id in writer.client.objects
      && writer.client.objects[id] == PayloadOf(c, streams, s)
      && r.value.finding.id == "f_" + id && r.value.finding.collector == "loki"
      && r.value.finding.question == c.question && r.value.finding.followups == None
      && r.value.finding.confidence == (if Collected(c, streams) == [] then 0.0 else 0.7)
      && r.value.sizeBytes == |writer.client.objects[id]| && r.value.toolCallsUsed == 1 && r.value.tokensUsed == 0
      && exists ref: EvidenceRef :: Refers(ref, writer.client.objects) && r.value == Output(c, streams, s, ref)
  {
    var maxLines := EffectiveIterations(c) * 200;
    if maxLines > 1000 { maxLines := 1000; }
    var dr, error := Dispatch(DispatchRequest(c.start, c.end, maxLines), streams, s.encode);
    assert dr.ndjson == Encoded(s.encode, Collected(c, streams)) && dr.matchCount == |Collected(c, streams)|;
    var payload := dr.ndjson;
    if |payload| == 0 {
      payload := if error.Some? then s.errorPayload(c.question, error.value) else EMPTY_OBJECT;
    }
    var put := writer.Put(Request(c.incidentId, "application/x-ndjson", payload), id, up, now);
    if put.Err? { return Err(put.error); }
    var ref := put.value;
    var confidence := 0.0;
    var summary;
    if error.Some? {
      summary := "loki query error: " + s.describe(error.value);
    } else {
      summary := s.summarise(dr.ndjson, dr.matchCount);
      if dr.matchCount > 0 { confidence := 0.7; }
    }
    r := Ok(D.WireOutput(
      D.WireFinding("f_" + ref.evidenceId, "loki", c.question, summary, ref.evidenceId, confidence, None),
      ref.sizeBytes, 1, 0));
    assert r.value == Output(c, streams, s, ref);
  }

  /** The iterations are what was asked for between one and ten, ten beyond, and five when nothing sensible was. */
  lemma IterationsAreClamped(c: CollectorInput)
    ensures 1 <= EffectiveIterations(c) <= 10
    ensures c.maxInternalIterations in {1, 2, 3, 4, 5, 6, 7, 8, 9, 10} ==>
      EffectiveIterations(c) == c.maxInternalIterations
    ensures c.maxInternalIterations > 10 ==> EffectiveIterations(c) == 10
    ensures c.maxInternalIterations < 1 ==> EffectiveIterations(c) == 5
    ensures MaxLines(c) == 1000 <==> c.maxInternalIterations < 1 || c.maxInternalIterations >= 5
    ensures MaxLines(c) < 1000 ==> MaxLines(c) == 200 * c.maxInternalIterations
  {
  }

  /**
   What is stored is the lines if there are any, else what went wrong, else an empty object; the
   summary goes with it.
   */
  lemma PayloadTells(c: CollectorInput, streams: Option<seq<Stream>>, s: Setting)
    requires ValidInput(c)
    ensures streams == None ==>
      && PayloadOf(c, streams, s) == s.errorPayload(c.question, QueryFailed)
      && Summary(c, streams, s) == "loki query error: " + s.describe(QueryFailed)
    ensures streams.Some? ==>
      var bytes := Encoded(s.encode, First(MaxLines(c), Flatten(streams.value)));
      && PayloadOf(c, streams, s) == (if bytes == [] then [0x7b, 0x7d] else bytes)
      && Summary(c, streams, s) == s.summarise(bytes, Min(MaxLines(c), |Flatten(streams.value)|))
  {
  }

  /** For every input and every answer of Loki at most a thousand lines; of a valid one all that fit the cap. */
  lemma LinesAreCapped(c: CollectorInput, streams: Option<seq<Stream>>)
    ensures |Collected(c, streams)| <= MaxLines(c) <= 1000
    ensures ValidInput(c) && streams.Some? ==>
      var all, got := Flatten(streams.value), Collected(c, streams);
      && got <= all && (got == all <==> |all| <= MaxLines(c)) && (|all| <= 200 ==> got == all)
  {
  }

  /** The missing list makes the orchestrator refuse every answer of this collector, whatever it found. */
  lemma OutputsAreRefused(c: CollectorInput, streams: Option<seq<Stream>>, s: Setting, ref: EvidenceRef,
                          hypothesisId: string, question: string, status: int)
    ensures var reply := D.Http(status, Some(Output(c, streams, s, ref)));
      D.DispatchReply(hypothesisId, "loki", question, reply)
        == D.Unanswered(D.FailureFinding(hypothesisId, "loki", question))
  {
  }
}
