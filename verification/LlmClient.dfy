/** The language-model client: one request, repeated with exponential backoff while the service is busy. */
module LlmClient {
  import opened Json
  import opened Text

  datatype Block = ToolUse(name: string, input: Json) | OtherBlock(text: string)

  /** What is wrong with a response. */
  datatype Detail = ToolNotCalled(tool: string) | Invalid(error: string)

  /** A turn of a conversation: given by the caller, echoed from the model, or asking it for a correction. */
  datatype Turn =
    | Given(user: bool, text: string)
    | Echo(blocks: seq<Block>)
    | Correction(detail: Detail, raw: Option<Json>)

  predicate IsUser(t: Turn) { t.Correction? || (t.Given? && t.user) }

  datatype Request = Request(system: string, messages: seq<Turn>, tool: Option<string>)

  datatype Settings = Settings(maxRetries: int, initialBackoff: real, maxBackoff: real, retryable: set<int>)

  /** One answer of the service; only a status error is ever retried. */
  datatype Reply = Replied(message: seq<Block>) | StatusError(status: int) | OtherError(error: string)

  datatype ApiError = Status(status: int) | Other(error: string)

  function Outcome(r: Reply): Result<seq<Block>, ApiError> {
    match r
    case Replied(m) => Ok(m)
    case StatusError(status) => Err(Status(status))
    case OtherError(e) => Err(Other(e))
  }

  predicate Retryable(s: Settings, r: Reply) { r.StatusError? && r.status in s.retryable }

  function StopFrom(s: Settings, replies: nat -> Reply, from: nat): (k: nat)
    ensures from <= k
    ensures s.maxRetries <= k || !Retryable(s, replies(k))
    ensures k == from || k <= s.maxRetries
    ensures forall j: nat :: from <= j < k ==> Retryable(s, replies(j))
    decreases s.maxRetries - from
  {
    if s.maxRetries <= from || !Retryable(s, replies(from)) then from else StopFrom(s, replies, from + 1)
  }

  /** The first reply that is not retried, because of what it is or because the retries are used up. */
  function Stop(s: Settings, replies: nat -> Reply): nat {
    StopFrom(s, replies, 0)
  }

  function Pow2(k: nat): nat {
    if k == 0 then 1 else 2 * Pow2(k - 1)
  }

  function MinReal(a: real, b: real): real { if a < b then a else b }

  /** `init` doubled `k` times: `init * 2**k`. */
  function Doubled(init: real, k: nat): real {
    if k == 0 then init else 2.0 * Doubled(init, k - 1)
  }

  lemma Twice(init: real, p: nat)
    ensures init * (2 * p) as real == 2.0 * (init * p as real)
  {
  }

  lemma {:induction false} DoubledIsPower(init: real, k: nat)
    ensures init * Pow2(k) as real == Doubled(init, k)
  {
    if k == 0 {
    } else {
      DoubledIsPower(init, k - 1);
      Twice(init, Pow2(k - 1));
    }
  }

  /** The pause after the failed attempt `k`. */
  function Backoff(s: Settings, k: nat): real {
    MinReal(Doubled(s.initialBackoff, k), s.maxBackoff)
  }

  method BackoffAfter(s: Settings, attempt: nat) returns (seconds: real)
    ensures seconds == Backoff(s, attempt)
  {
    DoubledIsPower(s.initialBackoff, attempt);
    seconds := MinReal(s.initialBackoff * Pow2(attempt) as real, s.maxBackoff);
  }

  /** What a client does, in order: calls of the service and pauses. */
  datatype Event = Call(request: Request) | Pause(seconds: real)

  /** A call retried `k` times: the same request each time, a pause before each retry. */
  function Trace(s: Settings, request: Request, k: nat): seq<Event> {
    if k == 0 then [Call(request)] else Trace(s, request, k - 1) + [Pause(Backoff(s, k - 1)), Call(request)]
  }

  lemma TraceGoesOn(before: seq<Event>, s: Settings, request: Request, k: nat)
    ensures before + Trace(s, request, k) + [Pause(Backoff(s, k))] + [Call(request)]
      == before + Trace(s, request, k + 1)
  {
    Regroup(before + Trace(s, request, k), [Pause(Backoff(s, k))], [Call(request)]);
    Regroup(before, Trace(s, request, k), [Pause(Backoff(s, k)), Call(request)]);
  }

  class Client {
    const settings: Settings
    var log: seq<Event>

    constructor (settings: Settings)
      ensures this.settings == settings && log == []
    {
      this.settings := settings;
      log := [];
    }

    /** Sends the request until a reply is not to be retried. */
    method Complete(request: Request, replies: nat -> Reply) returns (r: Result<seq<Block>, ApiError>)
      modifies this
      ensures r == Outcome(replies(Stop(settings, replies)))
      ensures log == old(log) + Trace(settings, request, Stop(settings, replies))
    {
      var attempt := 0;
      log := log + [Call(request)];
      while true
        invariant 0 <= attempt && (attempt == 0 || attempt <= settings.maxRetries)
        invariant Stop(settings, replies) == StopFrom(settings, replies, attempt)
        invariant log == old(log) + Trace(settings, request, attempt)
        decreases settings.maxRetries - attempt
      {
        var reply := replies(attempt);
        if reply.StatusError? {
          if reply.status !in settings.retryable { return Err(Status(reply.status)); }
          if attempt >= settings.maxRetries { return Err(Status(reply.status)); }
          var backoff := BackoffAfter(settings, attempt);
          log := log + [Pause(backoff)];
          log := log + [Call(request)];
          TraceGoesOn(old(log), settings, request, attempt);
          assert log == old(log) + Trace(settings, request, attempt + 1);
          attempt := attempt + 1;
        } else if reply.OtherError? {
          return Err(Other(reply.error));
        } else {
          return Ok(reply.message);
        }
      }
    }
  }

  /******* How often, how long *******/

  function Max(a: int, b: int): int { if a < b then b else a }

  /** At most one call and the retries; every reply but the last was retryable. */
  lemma StopsInTime(s: Settings, replies: nat -> Reply)
    ensures Stop(s, replies) <= Max(0, s.maxRetries)
  {
  }

  lemma {:induction false} StopAt(s: Settings, replies: nat -> Reply, from: nat, k: nat)
    requires from <= k && (k == from || k <= s.maxRetries)
    requires forall j: nat :: from <= j < k ==> Retryable(s, replies(j))
    requires !Retryable(s, replies(k)) || s.maxRetries <= k
    ensures StopFrom(s, replies, from) == k
    decreases k - from
  {
  }

  /** Every reply before `k` is a status error with one of the retryable codes. */
  ghost predicate OnlyRetried(s: Settings, replies: nat -> Reply, k: nat) {
    forall j: nat :: j < k ==> replies(j).StatusError? && replies(j).status in s.retryable
  }

  /** The call raises the error of this reply, and no other reply was waited for. */
  ghost predicate Raises(s: Settings, replies: nat -> Reply, k: nat, e: ApiError) {
    Stop(s, replies) == k && Outcome(replies(Stop(s, replies))) == Err(e)
  }

  lemma StopsAt(s: Settings, replies: nat -> Reply, k: nat)
    requires k <= Max(0, s.maxRetries) && OnlyRetried(s, replies, k)
    requires !(replies(k).StatusError? && replies(k).status in s.retryable) || k == Max(0, s.maxRetries)
    ensures Stop(s, replies) == k
  {
    StopAt(s, replies, 0, k);
  }

  /**
   A call succeeds exactly when a message comes within the retries and only errors with
   retryable codes before it; and it returns that message.
   */
  lemma SucceedsExactly(s: Settings, replies: nat -> Reply)
    ensures Outcome(replies(Stop(s, replies))).Ok? <==>
      exists k: nat :: k <= Max(0, s.maxRetries) && replies(k).Replied? && OnlyRetried(s, replies, k)
    ensures forall k: nat :: k <= Max(0, s.maxRetries) && replies(k).Replied? && OnlyRetried(s, replies, k) ==>
      Outcome(replies(Stop(s, replies))) == Ok(replies(k).message)
  {
    StopsInTime(s, replies);
    assert OnlyRetried(s, replies, Stop(s, replies));
    forall k: nat | k <= Max(0, s.maxRetries) && replies(k).Replied? && OnlyRetried(s, replies, k)
      ensures Stop(s, replies) == k
    {
      StopsAt(s, replies, k);
    }
  }

  /**
   After only retryable errors, a reply with any other error stops the call at once and is what it
   raises: a status that is not to be retried, or no status at all. When the retries are used up
   the last retryable error is raised.
   */
  lemma RaisesExactly(s: Settings, replies: nat -> Reply, k: nat)
    requires k <= Max(0, s.maxRetries) && OnlyRetried(s, replies, k)
    ensures replies(k).OtherError? ==> Raises(s, replies, k, Other(replies(k).error))
    ensures replies(k).StatusError? && replies(k).status !in s.retryable ==>
      Raises(s, replies, k, Status(replies(k).status))
    ensures replies(k).StatusError? && k == Max(0, s.maxRetries) ==> Raises(s, replies, k, Status(replies(k).status))
  {
    if !replies(k).Replied? && (k == Max(0, s.maxRetries) || !Retryable(s, replies(k))) {
      StopsAt(s, replies, k);
    }
  }

  /** A pause is the doubled one or the longest allowed, whichever is shorter. */
  lemma BackoffIsCapped(s: Settings, k: nat)
    ensures Backoff(s, k) == Doubled(s.initialBackoff, k) || Backoff(s, k) == s.maxBackoff
    ensures Backoff(s, k) <= Doubled(s.initialBackoff, k) && Backoff(s, k) <= s.maxBackoff
  {
  }

  /** Calls and pauses alternate: the same request every time, after the pause of its turn. */
  lemma {:induction false} TraceAlternates(s: Settings, request: Request, k: nat, j: nat)
    requires j <= k
    ensures |Trace(s, request, k)| == 2 * k + 1
    ensures Trace(s, request, k)[2 * j] == Call(request)
    ensures j < k ==> Trace(s, request, k)[2 * j + 1] == Pause(Backoff(s, j))
  {
    if k == 0 {
    } else {
      TraceAlternates(s, request, k - 1, if j < k then j else k - 1);
    }
  }

  function Calls(log: seq<Event>): nat {
    if log == [] then 0 else Calls(log[..|log| - 1]) + if log[|log| - 1].Call? then 1 else 0
  }

  /** The time spent in pauses. */
  function Wait(log: seq<Event>): real {
    if log == [] then 0.0 else Wait(log[..|log| - 1]) + if log[|log| - 1].Pause? then log[|log| - 1].seconds else 0.0
  }

  lemma {:induction false} Concat(a: seq<Event>, b: seq<Event>)
    ensures Calls(a + b) == Calls(a) + Calls(b)
    ensures Wait(a + b) == Wait(a) + Wait(b)
  {
    if b == [] {
      assert a + b == a;
    } else {
      Concat(a, b[..|b| - 1]);
      assert (a + b)[..|a + b| - 1] == a + b[..|b| - 1];
    }
  }

  lemma TraceMore(s: Settings, request: Request, k: nat)
    ensures Calls(Trace(s, request, k + 1)) == Calls(Trace(s, request, k)) + 1
    ensures Wait(Trace(s, request, k + 1)) == Wait(Trace(s, request, k)) + Backoff(s, k)
  {
    var pair := [Pause(Backoff(s, k)), Call(request)];
    assert pair[..1] == [Pause(Backoff(s, k))];
    assert Calls(pair[..1]) == 0 && Wait(pair[..1]) == Backoff(s, k);
    assert Calls(pair) == 1 && Wait(pair) == Backoff(s, k);
    Concat(Trace(s, request, k), pair);
  }

  lemma {:induction false} CallsOfTrace(s: Settings, request: Request, k: nat)
    ensures Calls(Trace(s, request, k)) == k + 1
  {
    if k == 0 {
    } else {
      CallsOfTrace(s, request, k - 1);
      TraceMore(s, request, k - 1);
    }
  }

  lemma {:induction false} DoubledGrows(init: real, k: nat)
    requires init >= 0.0
    ensures init <= Doubled(init, k) <= Doubled(init, k + 1)
  {
    if k == 0 {
    } else {
      DoubledGrows(init, k - 1);
    }
  }

  /** Waiting is bounded by the doubling series, `init * (2**k - 1)` ... */
  lemma {:induction false} WaitUnderDoubling(s: Settings, q: Request, k: nat)
    requires s.initialBackoff >= 0.0 && s.maxBackoff >= 0.0
    ensures 0.0 <= Wait(Trace(s, q, k)) <= Doubled(s.initialBackoff, k) - s.initialBackoff
  {
    if k == 0 {
    } else {
      WaitUnderDoubling(s, q, k - 1);
      TraceMore(s, q, k - 1);
      DoubledGrows(s.initialBackoff, k - 1);
    }
  }

  /** ... and by the longest pause each time; ... */
  lemma {:induction false} WaitUnderLongest(s: Settings, q: Request, k: nat)
    ensures Wait(Trace(s, q, k)) <= k as real * s.maxBackoff
  {
    if k == 0 {
    } else {
      WaitUnderLongest(s, q, k - 1);
      TraceMore(s, q, k - 1);
      OneMore(s.maxBackoff, k - 1);
    }
  }

  lemma OneMore(m: real, k: nat)
    ensures (k + 1) as real * m == k as real * m + m
  {
  }

  /** ... up to the longest pause the doubling series is met exactly. */
  lemma {:induction false} WaitIsExact(s: Settings, q: Request, k: nat)
    requires s.initialBackoff >= 0.0 && (k > 0 ==> Doubled(s.initialBackoff, k - 1) <= s.maxBackoff)
    ensures Wait(Trace(s, q, k)) == Doubled(s.initialBackoff, k) - s.initialBackoff
  {
    if k == 0 {
    } else {
      TraceMore(s, q, k - 1);
      if k > 1 { DoubledGrows(s.initialBackoff, k - 2); }
      WaitIsExact(s, q, k - 1);
    }
  }

  const DEFAULT := Settings(2, 1.0, 30.0, {429, 500, 502, 503, 504})

  /** By default a busy service is asked again, after 429 and four of the server errors; nothing else is. */
  lemma DefaultRetries(replies: nat -> Reply, code: int)
    requires replies(0) == StatusError(code)
    ensures code == 429 || code == 500 || 502 <= code <= 504 <==> Stop(DEFAULT, replies) > 0
  {
  }

  /** With the default settings a call is made at most three times and pauses at most three seconds. */
  lemma DefaultWait(q: Request, replies: nat -> Reply)
    ensures Stop(DEFAULT, replies) <= 2
    ensures Wait(Trace(DEFAULT, q, Stop(DEFAULT, replies))) in {0.0, 1.0, 3.0}
  {
    StopsInTime(DEFAULT, replies);
    assert Doubled(1.0, 1) == 2.0 && Doubled(1.0, 2) == 4.0;
    WaitIsExact(DEFAULT, q, Stop(DEFAULT, replies));
  }
}
