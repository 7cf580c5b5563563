/**
 Structured output: ask for one tool call, validate its input, and on failure ask again with the
 response and a correction appended to a copy of the conversation.
 */
module Structured {
  import opened Json
  import opened LlmClient
  import opened Text

  /** An output model: the tool's name, and strict validation of its input. */
  datatype Model<T> = Model(name: string, validate: Json -> Result<T, string>)

  /** The answers of the service: which attempt, which call within it. */
  type Replies = (nat, nat) -> Reply

  /** How one attempt ends; a rejected one may lack a validation error. */
  datatype Verdict<T> =
    | Failed(cause: ApiError)
    | Accepted(value: T)
    | Rejected(blocks: seq<Block>, detail: Detail, raw: Option<Json>, error: Option<string>)

  /** One attempt, and how many retries of its call it took. */
  datatype Round<T> = Round(verdict: Verdict<T>, retries: nat)

  datatype Completion<T> =
    | Returned(value: T)
    | Exhausted(raw: Json, error: string)
    | ApiFailed(cause: ApiError)
    | AssertionFailed

  /******* One attempt *******/

  /** The input of the first call of the tool, if there is one. */
  function ToolInput(blocks: seq<Block>, name: string): Option<Json> {
    if blocks == [] then None
    else if blocks[0].ToolUse? && blocks[0].name == name then Some(blocks[0].input)
    else ToolInput(blocks[1..], name)
  }

  function ErrorOn<T>(m: Model<T>, payload: Json): Option<string> {
    match m.validate(payload)
    case Ok(_) => None
    case Err(e) => Some(e)
  }

  /** A missing call is reported as the error an empty payload gives, if it gives one. */
  function Judge<T>(m: Model<T>, blocks: seq<Block>): Verdict<T> {
    match ToolInput(blocks, m.name)
    case None => Rejected(blocks, ToolNotCalled(m.name), None, ErrorOn(m, Obj([])))
    case Some(raw) =>
      match m.validate(raw)
      case Ok(v) => Accepted(v)
      case Err(e) => Rejected(blocks, Invalid(e), Some(raw), Some(e))
  }

  /** The input judged is that of the first call of the tool, whatever else the response holds. */
  lemma {:induction false} FirstCall(blocks: seq<Block>, name: string, k: nat)
    requires k < |blocks| && blocks[k].ToolUse? && blocks[k].name == name
    requires forall j :: 0 <= j < k ==> !(blocks[j].ToolUse? && blocks[j].name == name)
    ensures ToolInput(blocks, name) == Some(blocks[k].input)
  {
    if k == 0 {
    } else {
      FirstCall(blocks[1..], name, k - 1);
    }
  }

  lemma {:induction false} NoCall(blocks: seq<Block>, name: string)
    ensures ToolInput(blocks, name) == None <==>
      forall j :: 0 <= j < |blocks| ==> !(blocks[j].ToolUse? && blocks[j].name == name)
  {
    if blocks == [] {
    } else {
      NoCall(blocks[1..], name);
      assert forall j :: 1 <= j < |blocks| ==> blocks[j] == blocks[1..][j - 1];
    }
  }

  /** What a judgement says: the value, or what to correct, with the input that was wrong and the error. */
  lemma JudgementTells<T>(m: Model<T>, blocks: seq<Block>)
    ensures var v, input := Judge(m, blocks), ToolInput(blocks, m.name);
      && (input == None ==>
            && v.Rejected? && v.blocks == blocks && v.detail == ToolNotCalled(m.name) && v.raw == None
            && (v.error == None <==> m.validate(Obj([])).Ok?)
            && (v.error.Some? ==> m.validate(Obj([])) == Err(v.error.value)))
      && (input.Some? && m.validate(input.value).Ok? ==> v.Accepted? && m.validate(input.value) == Ok(v.value))
      && (input.Some? && m.validate(input.value).Err? ==>
            && v.Rejected? && v.blocks == blocks && v.raw == input && v.error.Some?
            && m.validate(input.value) == Err(v.error.value) && v.detail == Invalid(v.error.value))
  {
  }

  function Series(replies: Replies, k: nat): nat -> Reply {
    (j: nat) => replies(k, j)
  }

  /** What attempt `k` comes to, the service answering as it does. */
  function RoundOf<T>(s: Settings, m: Model<T>, replies: Replies, k: nat): Round<T> {
    var n := Stop(s, Series(replies, k));
    Round(match Outcome(replies(k, n)) case Err(e) => Failed(e) case Ok(blocks) => Judge(m, blocks), n)
  }

  /** An attempt fails exactly when its call does, with that error, and otherwise judges the message it got. */
  lemma RoundTells<T>(s: Settings, m: Model<T>, replies: Replies, k: nat)
    ensures var r, n := RoundOf(s, m, replies, k), Stop(s, Series(replies, k));
      && r.retries == n
      && (replies(k, n).Replied? ==> r.verdict == Judge(m, replies(k, n).message))
      && (replies(k, n).StatusError? ==> r.verdict == Failed(Status(replies(k, n).status)))
      && (replies(k, n).OtherError? ==> r.verdict == Failed(Other(replies(k, n).error)))
  {
  }

  function Rounds<T>(s: Settings, m: Model<T>, replies: Replies): nat -> Round<T> {
    (k: nat) => RoundOf(s, m, replies, k)
  }

  /******* All attempts *******/

  function LastFrom<T>(rounds: nat -> Round<T>, maxRetries: nat, from: nat): (k: nat)
    ensures from <= k && (k == from || k <= maxRetries)
    ensures maxRetries <= k || !rounds(k).verdict.Rejected?
    ensures forall j: nat :: from <= j < k ==> rounds(j).verdict.Rejected?
    decreases maxRetries as int - from
  {
    if maxRetries <= from || !rounds(from).verdict.Rejected? then from else LastFrom(rounds, maxRetries, from + 1)
  }

  /** The attempt that decides: the first that is not rejected, or the last allowed. */
  function Last<T>(rounds: nat -> Round<T>, maxRetries: nat): nat {
    LastFrom(rounds, maxRetries, 0)
  }

  function Attempts<T>(rounds: nat -> Round<T>, maxRetries: int): nat {
    if maxRetries < 0 then 0 else Last(rounds, maxRetries) + 1
  }

  /** The two turns a rejected attempt adds. */
  function TurnsOf<T>(v: Verdict<T>): seq<Turn> {
    if v.Rejected? then [Echo(v.blocks), Correction(v.detail, v.raw)] else []
  }

  /** The conversation of attempt `k`. */
  function Conversation<T>(rounds: nat -> Round<T>, messages: seq<Turn>, k: nat): seq<Turn> {
    if k == 0 then messages else Conversation(rounds, messages, k - 1) + TurnsOf(rounds(k - 1).verdict)
  }

  /** What every request of one completion has in common. */
  datatype Question = Question(settings: Settings, system: string, tool: string, messages: seq<Turn>)

  function RequestOf<T>(q: Question, rounds: nat -> Round<T>, k: nat): Request {
    Request(q.system, Conversation(rounds, q.messages, k), Some(q.tool))
  }

  /** `before`, then what the client does in the first `k` attempts. */
  function Logged<T>(before: seq<Event>, q: Question, rounds: nat -> Round<T>, k: nat): seq<Event> {
    if k == 0 then before
    else Logged(before, q, rounds, k - 1) + Trace(q.settings, RequestOf(q, rounds, k - 1), rounds(k - 1).retries)
  }

  function Later(error: Option<string>, before: Option<string>): Option<string> {
    if error.Some? then error else before
  }

  /** The latest validation error of the first `k` attempts. */
  function LastError<T>(rounds: nat -> Round<T>, k: nat): Option<string> {
    if k == 0 then None
    else
      var v := rounds(k - 1).verdict;
      Later(if v.Rejected? then v.error else None, LastError(rounds, k - 1))
  }

  function RawOf(raw: Option<Json>): Json { if raw.Some? then raw.value else Obj([]) }

  function Final<T>(rounds: nat -> Round<T>, maxRetries: int): Completion<T> {
    if maxRetries < 0 then AssertionFailed
    else
      var k := Last(rounds, maxRetries);
      match rounds(k).verdict
      case Failed(e) => ApiFailed(e)
      case Accepted(v) => Returned(v)
      case Rejected(_, _, raw, _) =>
        var error := LastError(rounds, k + 1);
        if error.Some? then Exhausted(RawOf(raw), error.value) else AssertionFailed
  }

  /******* The program *******/

  /** A list of turns, as its owner holds it. */
  class TurnList {
    var turns: seq<Turn>

    constructor (turns: seq<Turn>)
      ensures this.turns == turns
    {
      this.turns := turns;
    }
  }

  method Validate<T>(model: Model<T>, blocks: seq<Block>) returns (v: Verdict<T>)
    ensures v == Judge(model, blocks)
  {
    var rawInput := ToolInput(blocks, model.name);
    if rawInput.None? {
      var parsed := model.validate(Obj([]));
      return Rejected(blocks, ToolNotCalled(model.name), None, if parsed.Err? then Some(parsed.error) else None);
    }
    var parsed := model.validate(rawInput.value);
    v := if parsed.Ok? then Accepted(parsed.value)
         else Rejected(blocks, Invalid(parsed.error), rawInput, Some(parsed.error));
  }

  ghost predicate Agree<T>(rounds: nat -> Round<T>, s: Settings, m: Model<T>, replies: Replies, k: nat) {
    rounds(k) == RoundOf(s, m, replies, k)
  }

  /** One attempt. */
  method Attempt<T>(client: Client, q: Question, turns: seq<Turn>, model: Model<T>, replies: Replies, k: nat,
                    ghost rounds: nat -> Round<T>)
    returns (v: Verdict<T>)
    requires q.settings == client.settings && q.tool == model.name
    requires Agree(rounds, client.settings, model, replies, k)
    modifies client
    ensures v == rounds(k).verdict
    ensures client.log == old(client.log) + Trace(q.settings, Request(q.system, turns, Some(q.tool)), rounds(k).retries)
  {
    var message := client.Complete(Request(q.system, turns, Some(model.name)), Series(replies, k));
    if message.Err? { return Failed(message.error); }
    v := Validate(model, message.value);
  }

  /** The loop: ask, and while the response is rejected and a retry is left, correct and ask again. */
  method Converse<T>(client: Client, q: Question, model: Model<T>, maxRetries: nat, replies: Replies,
                     ghost rounds: nat -> Round<T>)
    returns (v: Verdict<T>, lastError: Option<string>)
    requires q.settings == client.settings && q.tool == model.name
    requires forall k: nat {:trigger Agree(rounds, client.settings, model, replies, k)} ::
      Agree(rounds, client.settings, model, replies, k)
    modifies client
    ensures var k := Last(rounds, maxRetries);
      && v == rounds(k).verdict && lastError == LastError(rounds, k + 1)
      && client.log == Logged(old(client.log), q, rounds, k + 1)
  {
    var conversation := q.messages;
    var attempt := 0;
    lastError := None;
    while true
      invariant 0 <= attempt <= maxRetries && Last(rounds, maxRetries) == LastFrom(rounds, maxRetries, attempt)
      invariant conversation == Conversation(rounds, q.messages, attempt)
      invariant lastError == LastError(rounds, attempt)
      invariant client.log == Logged(old(client.log), q, rounds, attempt)
      decreases maxRetries - attempt
    {
      v := Attempt(client, q, conversation, model, replies, attempt, rounds);
      if v.Rejected? && v.error.Some? { lastError := v.error; }
      if !v.Rejected? || attempt >= maxRetries { return; }
      conversation := conversation + [Echo(v.blocks), Correction(v.detail, v.raw)];
      attempt := attempt + 1;
    }
  }

  /** Only the client is modified: the caller's list keeps its turns. */
  method CompleteTyped<T>(client: Client, system: string, messages: TurnList, model: Model<T>, maxRetries: int,
                          replies: Replies)
    returns (r: Completion<T>)
    modifies client
    ensures var rounds := Rounds(client.settings, model, replies);
      && r == Final(rounds, maxRetries)
      && client.log == Logged(old(client.log), Question(client.settings, system, model.name, messages.turns), rounds,
                              Attempts(rounds, maxRetries))
  {
    if maxRetries < 0 { return AssertionFailed; }
    ghost var rounds := Rounds(client.settings, model, replies);
    forall k: nat ensures Agree(rounds, client.settings, model, replies, k) {}
    var q := Question(client.settings, system, model.name, messages.turns);
    var v, lastError := Converse(client, q, model, maxRetries, replies, rounds);
    r := match v
      case Failed(e) => ApiFailed(e)
      case Accepted(value) => Returned(value)
      case Rejected(_, _, raw, _) =>
        if lastError.Some? then Exhausted(RawOf(raw), lastError.value) else AssertionFailed;
  }

  /******* What the loop amounts to *******/

  /** At most one attempt and the retries; every attempt but the last was rejected. */
  lemma AttemptsAreBounded<T>(rounds: nat -> Round<T>, maxRetries: int)
    ensures Attempts(rounds, maxRetries) <= Max(0, maxRetries + 1)
    ensures forall k: nat :: k + 1 < Attempts(rounds, maxRetries) ==> rounds(k).verdict.Rejected?
  {
  }

  function Times(k: nat, m: nat): nat {
    if k == 0 then 0 else Times(k - 1, m) + m
  }

  lemma {:induction false} TimesIsProduct(k: nat, m: nat)
    ensures Times(k, m) == k * m
  {
    if k == 0 {
    } else {
      TimesIsProduct(k - 1, m);
      assert k * m == (k - 1) * m + m;
    }
  }

  lemma {:induction false} TimesGrows(j: nat, k: nat, m: nat)
    requires j <= k
    ensures Times(j, m) <= Times(k, m)
  {
    if j == k {
    } else {
      TimesGrows(j, k - 1, m);
    }
  }

  ghost predicate AddsUp(measure: seq<Event> -> int, a: seq<Event>, b: seq<Event>) {
    measure(a + b) == measure(a) + measure(b)
  }

  /** What one attempt adds to the log. */
  function Added<T>(q: Question, rounds: nat -> Round<T>, k: nat): seq<Event> {
    Trace(q.settings, RequestOf(q, rounds, k), rounds(k).retries)
  }

  /** A measure of logs that adds up grows by at most `m` at each attempt. */
  lemma {:induction false} GrowsByAtMost<T>(measure: seq<Event> -> int, before: seq<Event>, q: Question,
                                            rounds: nat -> Round<T>, m: nat, k: nat)
    requires forall a, b {:trigger AddsUp(measure, a, b)} :: AddsUp(measure, a, b)
    requires forall j: nat {:trigger Added(q, rounds, j)} :: j < k ==> measure(Added(q, rounds, j)) <= m
    ensures measure(Logged(before, q, rounds, k)) <= measure(before) + Times(k, m)
  {
    if k == 0 {
    } else {
      GrowsByAtMost(measure, before, q, rounds, m, k - 1);
      assert AddsUp(measure, Logged(before, q, rounds, k - 1), Added(q, rounds, k - 1));
      assert Logged(before, q, rounds, k) == Logged(before, q, rounds, k - 1) + Added(q, rounds, k - 1);
    }
  }

  lemma CallsAreBounded<T>(before: seq<Event>, q: Question, rounds: nat -> Round<T>, n: nat, k: nat)
    requires forall j: nat :: j < k ==> rounds(j).retries <= n
    ensures Calls(Logged(before, q, rounds, k)) <= Calls(before) + Times(k, n + 1)
  {
    var measure: seq<Event> -> int := log => Calls(log);
    forall a, b ensures AddsUp(measure, a, b) { Concat(a, b); }
    forall j: nat | j < k ensures measure(Added(q, rounds, j)) <= n + 1 {
      CallsOfTrace(q.settings, RequestOf(q, rounds, j), rounds(j).retries);
    }
    GrowsByAtMost(measure, before, q, rounds, n + 1, k);
  }

  /** The two retry loops together make at most (R + 1) * (r + 1) calls of the service. */
  lemma NestedBound<T>(before: seq<Event>, q: Question, model: Model<T>, replies: Replies, maxRetries: int)
    ensures var rounds := Rounds(q.settings, model, replies);
      Calls(Logged(before, q, rounds, Attempts(rounds, maxRetries)))
        <= Calls(before) + Max(0, maxRetries + 1) * (Max(0, q.settings.maxRetries) + 1)
  {
    var rounds, n := Rounds(q.settings, model, replies), Max(0, q.settings.maxRetries);
    forall j: nat ensures rounds(j).retries <= n {
      StopsInTime(q.settings, Series(replies, j));
    }
    AttemptsAreBounded(rounds, maxRetries);
    CallsAreBounded(before, q, rounds, n, Attempts(rounds, maxRetries));
    TimesGrows(Attempts(rounds, maxRetries), Max(0, maxRetries + 1), n + 1);
    TimesIsProduct(Max(0, maxRetries + 1), n + 1);
  }

  lemma {:induction false} ConversationGrows<T>(rounds: nat -> Round<T>, messages: seq<Turn>, k: nat)
    requires forall j: nat :: j < k ==> rounds(j).verdict.Rejected?
    ensures |Conversation(rounds, messages, k)| == |messages| + 2 * k
    ensures messages <= Conversation(rounds, messages, k)
  {
    if k == 0 {
    } else {
      ConversationGrows(rounds, messages, k - 1);
    }
  }

  lemma AppendedPair<T>(s: seq<T>, pair: seq<T>, j: nat)
    requires |pair| == 2
    ensures (s + pair)[|s|] == pair[0] && (s + pair)[|s| + 1] == pair[1]
    ensures j < |s| ==> (s + pair)[j] == s[j]
    ensures j + 1 < |s| ==> (s + pair)[j + 1] == s[j + 1]
  {
  }

  /**
   The conversation of attempt `k` is the caller's followed by `k` pairs of turns, the response
   of an earlier attempt and the correction it got, the model and the user alternating.
   */
  lemma {:induction false} ConversationShape<T>(rounds: nat -> Round<T>, messages: seq<Turn>, k: nat, i: nat)
    requires i < k && forall j: nat :: j < k ==> rounds(j).verdict.Rejected?
    ensures |Conversation(rounds, messages, k)| == |messages| + 2 * k && messages <= Conversation(rounds, messages, k)
    ensures rounds(i).verdict.Rejected?
    ensures var turns, v := Conversation(rounds, messages, k), rounds(i).verdict;
      && turns[|messages| + 2 * i] == Echo(v.blocks) && !IsUser(turns[|messages| + 2 * i])
      && turns[|messages| + 2 * i + 1] == Correction(v.detail, v.raw) && IsUser(turns[|messages| + 2 * i + 1])
  {
    ConversationGrows(rounds, messages, k);
    ConversationGrows(rounds, messages, k - 1);
    AppendedPair(Conversation(rounds, messages, k - 1), TurnsOf(rounds(k - 1).verdict), |messages| + 2 * i);
    if i == k - 1 {
    } else {
      ConversationShape(rounds, messages, k - 1, i);
    }
  }

  lemma {:induction false} LastIs<T>(rounds: nat -> Round<T>, maxRetries: nat, from: nat, k: nat)
    requires from <= k <= maxRetries && !rounds(k).verdict.Rejected?
    requires forall j: nat :: from <= j < k ==> rounds(j).verdict.Rejected?
    ensures LastFrom(rounds, maxRetries, from) == k
    decreases k - from
  {
  }

  ghost predicate FirstValid<T>(rounds: nat -> Round<T>, k: nat) {
    rounds(k).verdict.Accepted? && forall j: nat :: j < k ==> rounds(j).verdict.Rejected?
  }

  /** A value is returned exactly when some allowed attempt is the first that is not rejected, and is valid. */
  lemma ReturnsExactly<T>(rounds: nat -> Round<T>, maxRetries: int)
    ensures Final(rounds, maxRetries).Returned? <==> exists k: nat :: k <= maxRetries && FirstValid(rounds, k)
    ensures forall k: nat :: k <= maxRetries && FirstValid(rounds, k) ==>
      Final(rounds, maxRetries) == Returned(rounds(k).verdict.value)
  {
    if maxRetries >= 0 {
      var e := Last(rounds, maxRetries);
      if Final(rounds, maxRetries).Returned? { assert FirstValid(rounds, e); }
      forall k: nat | k <= maxRetries && FirstValid(rounds, k) ensures e == k {
        LastIs(rounds, maxRetries, 0, k);
      }
    }
  }

  ghost predicate Silent<T>(v: Verdict<T>) { v.Rejected? && v.error == None }

  lemma {:induction false} ErrorSeen<T>(rounds: nat -> Round<T>, k: nat)
    requires forall j: nat :: j < k ==> rounds(j).verdict.Rejected?
    ensures LastError(rounds, k) == None <==> forall j: nat :: j < k ==> Silent(rounds(j).verdict)
  {
    if k == 0 {
    } else {
      ErrorSeen(rounds, k - 1);
    }
  }

  /** The error of the latest of the first `k` attempts that has one. */
  ghost predicate LatestError<T>(rounds: nat -> Round<T>, k: nat, e: string) {
    exists j: nat :: j < k && HasError(rounds(j).verdict, e)
      && forall i: nat :: j < i < k ==> !rounds(i).verdict.Rejected? || rounds(i).verdict.error == None
  }

  ghost predicate HasError<T>(v: Verdict<T>, e: string) { v.Rejected? && v.error == Some(e) }

  lemma {:induction false} LastErrorIsLatest<T>(rounds: nat -> Round<T>, k: nat)
    ensures LastError(rounds, k).Some? ==> LatestError(rounds, k, LastError(rounds, k).value)
  {
    if k == 0 {
    } else {
      LastErrorIsLatest(rounds, k - 1);
      var v := rounds(k - 1).verdict;
      if v.Rejected? && v.error.Some? {
        assert HasError(rounds(k - 1).verdict, v.error.value);
      }
    }
  }

  /** When all attempts are used up: the last rejected input, or an empty object, and the latest error. */
  lemma ExhaustedTells<T>(rounds: nat -> Round<T>, maxRetries: nat)
    requires Final(rounds, maxRetries).Exhausted?
    ensures var f, v := Final(rounds, maxRetries), rounds(maxRetries).verdict;
      && v.Rejected? && (forall j: nat :: j <= maxRetries ==> rounds(j).verdict.Rejected?)
      && (v.raw.Some? ==> f.raw == v.raw.value) && (v.raw == None ==> f.raw == Obj([]))
      && LatestError(rounds, maxRetries + 1, f.error)
  {
    LastErrorIsLatest(rounds, maxRetries + 1);
    assert Last(rounds, maxRetries) == maxRetries;
  }

  /** A call of the service that some attempt makes: the system prompt, the tool, and that attempt's conversation. */
  ghost predicate Asks<T>(q: Question, rounds: nat -> Round<T>, r: Request, j: nat) {
    r.system == q.system && r.tool == Some(q.tool) && r.messages == Conversation(rounds, q.messages, j)
  }

  /** Every call that an attempt makes is of its own request. */
  lemma AttemptAsks<T>(q: Question, rounds: nat -> Round<T>, j: nat, n: nat)
    requires n < |Added(q, rounds, j)| && Added(q, rounds, j)[n].Call?
    ensures Asks(q, rounds, Added(q, rounds, j)[n].request, j)
  {
    TraceAlternates(q.settings, RequestOf(q, rounds, j), rounds(j).retries, 0);
    TraceAlternates(q.settings, RequestOf(q, rounds, j), rounds(j).retries, n / 2);
  }

  lemma AssertionFailsOnSilence<T>(rounds: nat -> Round<T>, maxRetries: nat)
    ensures Final(rounds, maxRetries).AssertionFailed?
      <==> forall k: nat :: k <= maxRetries ==> Silent(rounds(k).verdict)
  {
    var e := Last(rounds, maxRetries);
    if rounds(e).verdict.Rejected? {
      assert e == maxRetries;
      ErrorSeen(rounds, e + 1);
    } else {
      assert !Silent(rounds(e).verdict);
    }
  }

  /** Attempt `k` is answered, without the tool call. */
  ghost predicate NotCalled<T>(s: Settings, m: Model<T>, replies: Replies, k: nat) {
    var reply := replies(k, Stop(s, Series(replies, k)));
    reply.Replied? && ToolInput(reply.message, m.name) == None
  }

  /**
   The final assertion fails exactly when no attempt is allowed, or every allowed attempt got a
   response without the tool call and the model accepts an empty payload.
   */
  lemma AssertionFailsExactly<T>(s: Settings, m: Model<T>, replies: Replies, maxRetries: int)
    ensures Final(Rounds(s, m, replies), maxRetries).AssertionFailed? <==>
      maxRetries < 0
        || (ErrorOn(m, Obj([])) == None && forall k: nat :: k <= maxRetries ==> NotCalled(s, m, replies, k))
  {
    if maxRetries >= 0 {
      AssertionFailsOnSilence(Rounds(s, m, replies), maxRetries);
      forall k: nat
        ensures Silent(Rounds(s, m, replies)(k).verdict) <==> NotCalled(s, m, replies, k) && ErrorOn(m, Obj([])) == None
      {
      }
      assert Silent(Rounds(s, m, replies)(0).verdict) <==> NotCalled(s, m, replies, 0) && ErrorOn(m, Obj([])) == None;
    }
  }
}
