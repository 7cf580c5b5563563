/**
 The coordinator: verify every intent, re-check the diagnosis, execute, compensate, escalate.
 The method keeps the lists and the executor of the program; `Coordinated` says what comes
 out without either, in terms of the first intent that fails to verify, the first execution
 that raises, and which intents repeat an earlier hash.
 */
module Coordinator {
  import opened Executor
  import opened Schemas
  import opened Signing
  import opened Text

  /******* Preconditions *******/

  predicate Negative(h: Hypothesis) { h.status == refuted || h.status == abandoned }

  function CheckPreflight(hs: seq<Hypothesis>, intents: seq<ActionIntent>): Preflight {
    if intents == [] then
      if hs == [] then AlreadyResolved else ParameterDrift
    else if hs != [] && forall i :: 0 <= i < |hs| ==> Negative(hs[i]) then DiagnosisInvalidated
    else if hs != [] && !AnyConfirmed(hs) then ParameterDrift
    else if hs == [] then AlreadyResolved
    else Ready
  }

  /** Execution goes ahead exactly when there is something to do and a confirmed cause for it. */
  lemma PreflightTable(hs: seq<Hypothesis>, intents: seq<ActionIntent>)
    ensures CheckPreflight(hs, intents) == Ready <==> intents != [] && AnyConfirmed(hs)
    ensures CheckPreflight(hs, intents) == AlreadyResolved <==> hs == []
    ensures CheckPreflight(hs, intents) == DiagnosisInvalidated <==>
      intents != [] && hs != [] && forall i :: 0 <= i < |hs| ==> hs[i].status == refuted || hs[i].status == abandoned
  {
  }

  /******* The outcome *******/

  /** Which executions (by position) raise, whether the compensation does, and where in the call. */
  datatype Faults = Faults(execute: map<nat, Raise>, compensate: Option<Raise>)

  datatype Update = Update(phase: Phase, timeline: seq<Event>, actionsTaken: seq<Action>)

  function FirstBad(v: Verifier, intents: seq<ActionIntent>): nat {
    FirstIndex(intents, i => v(i) != Valid)
  }

  predicate AllVerify(v: Verifier, intents: seq<ActionIntent>) {
    forall k :: 0 <= k < |intents| ==> v(intents[k]) == Valid
  }

  function FirstRaiseFrom(raising: map<nat, Raise>, from: nat, n: nat): (k: nat)
    requires from <= n
    ensures from <= k <= n
    ensures k < n ==> k in raising
    ensures forall j: nat :: from <= j < k ==> j !in raising
    decreases n - from
  {
    if from == n || from in raising then from else FirstRaiseFrom(raising, from + 1, n)
  }

  /** The position of the first execution that raises, or `n` when none of the first `n` does. */
  function FirstRaise(faults: Faults, n: nat): nat {
    FirstRaiseFrom(faults.execute, 0, n)
  }

  /** An earlier intent has the same hash. */
  predicate Repeats(intents: seq<ActionIntent>, k: nat)
    requires k < |intents|
  {
    exists j :: 0 <= j < k && intents[j].hash == intents[k].hash
  }

  /** The actions of the first `n` intents when none of them raises. */
  function ForwardActions(intents: seq<ActionIntent>, n: nat): seq<Action>
    requires n <= |intents|
  {
    seq(n, k requires 0 <= k < n => ForwardAction(intents[k], Repeats(intents, k)))
  }

  function ForwardEvents(intents: seq<ActionIntent>, n: nat): seq<Event>
    requires n <= |intents|
  {
    seq(n, k requires 0 <= k < n => Event(CoordinatorExecuted, Some(intents[k].hash)))
  }

  function Prefix(hash: string): string { if |hash| < 8 then hash else hash[..8] }

  function VerifyFailedAction(i: ActionIntent): Action {
    Action(VerifyFail(Prefix(i.hash)), i.actionType, VerificationFailure, Failed, Some(i.hash))
  }

  function ExecFailedAction(i: ActionIntent): Action {
    Action(ExecFail(Prefix(i.hash)), i.actionType, ExecutionFailure, Failed, Some(i.hash))
  }

  const NO_OP := Action(SelfResolved, NoOp, ResolvedByItself, Succeeded, None)

  function FailureActions(i: ActionIntent, faults: Faults): seq<Action> {
    if faults.compensate.Some? then [ExecFailedAction(i)] else [ExecFailedAction(i), RollbackAction(i)]
  }

  function FailureEvents(i: ActionIntent, faults: Faults): seq<Event> {
    [Event(CoordinatorExecutionFailed, Some(i.hash)),
     Event(if faults.compensate.Some? then CoordinatorCompensationFailed else CoordinatorCompensated, Some(i.hash))]
  }

  /** The actions of the execution step: each intent up to the first that raises, then its failure. */
  function RemediationActions(intents: seq<ActionIntent>, faults: Faults): seq<Action> {
    var k := FirstRaise(faults, |intents|);
    ForwardActions(intents, k) + if k == |intents| then [] else FailureActions(intents[k], faults)
  }

  function RemediationEvents(s: IncidentState, faults: Faults): seq<Event> {
    var intents := s.actionIntents;
    var k := FirstRaise(faults, |intents|);
    ForwardEvents(intents, k)
      + if k == |intents| then [Event(CoordinatorResolved, None)]
        else FailureEvents(intents[k], faults) + [EscalatedEvent(s)]
  }

  function EscalatedEvent(s: IncidentState): Event { Event(CoordinatorEscalated, Some(s.incidentId)) }

  /** What follows once every intent has verified. */
  function DecidedActions(s: IncidentState, faults: Faults): seq<Action> {
    match CheckPreflight(s.hypotheses, s.actionIntents)
    case DiagnosisInvalidated => []
    case ParameterDrift => []
    case AlreadyResolved => [NO_OP]
    case Ready => RemediationActions(s.actionIntents, faults)
  }

  function DecidedEvents(s: IncidentState, faults: Faults): seq<Event> {
    var outcome := CheckPreflight(s.hypotheses, s.actionIntents);
    [Event(CoordinatorPreflight(outcome), None)] +
    match outcome
    case DiagnosisInvalidated => []
    case ParameterDrift => if s.actionIntents == [] then [EscalatedEvent(s)] else []
    case AlreadyResolved => [Event(CoordinatorResolvedNoOp, None)]
    case Ready => RemediationEvents(s, faults)
  }

  function DecidedPhase(s: IncidentState, faults: Faults): Phase {
    match CheckPreflight(s.hypotheses, s.actionIntents)
    case DiagnosisInvalidated => Investigating
    case ParameterDrift => if s.actionIntents == [] then Escalated else Planning
    case AlreadyResolved => Resolved
    case Ready =>
      if FirstRaise(faults, |s.actionIntents|) == |s.actionIntents| then Resolved else Escalated
  }

  /** The actions one run of the coordinator adds. */
  function NewActions(s: IncidentState, v: Verifier, faults: Faults): seq<Action> {
    var bad := FirstBad(v, s.actionIntents);
    if bad < |s.actionIntents| then [VerifyFailedAction(s.actionIntents[bad])] else DecidedActions(s, faults)
  }

  /** The events one run of the coordinator adds. */
  function NewEvents(s: IncidentState, v: Verifier, faults: Faults): seq<Event> {
    var bad := FirstBad(v, s.actionIntents);
    [Event(CoordinatorStarted, None)] +
    if bad < |s.actionIntents| then
      [Event(CoordinatorVerificationFailed, Some(s.actionIntents[bad].hash)), EscalatedEvent(s)]
    else DecidedEvents(s, faults)
  }

  /** The phase one run of the coordinator leaves. */
  function NewPhase(s: IncidentState, v: Verifier, faults: Faults): Phase {
    if FirstBad(v, s.actionIntents) < |s.actionIntents| then Escalated else DecidedPhase(s, faults)
  }

  /** Calls that execute the first `n` intents, none of them raising. */
  function ForwardCalls(intents: seq<ActionIntent>, n: nat): seq<Call>
    requires n <= |intents|
  {
    seq(n, k requires 0 <= k < n => Execute(intents[k], None))
  }

  function RaiseAt(faults: Faults, k: nat): Option<Raise> {
    if k in faults.execute then Some(faults.execute[k]) else None
  }

  /** What the executor is asked when it is asked at all. */
  function RemediationCalls(intents: seq<ActionIntent>, faults: Faults): seq<Call> {
    var k := FirstRaise(faults, |intents|);
    ForwardCalls(intents, k)
      + if k == |intents| then []
        else [Execute(intents[k], RaiseAt(faults, k)), Compensate(intents[k], faults.compensate)]
  }

  function DecidedCalls(s: IncidentState, faults: Faults): seq<Call> {
    if CheckPreflight(s.hypotheses, s.actionIntents) == Ready then RemediationCalls(s.actionIntents, faults) else []
  }

  /** The calls one run of the coordinator makes of executors. */
  function NewCalls(s: IncidentState, v: Verifier, faults: Faults): seq<Call> {
    if FirstBad(v, s.actionIntents) < |s.actionIntents| then [] else DecidedCalls(s, faults)
  }

  function Coordinated(s: IncidentState, v: Verifier, faults: Faults): Update {
    Update(NewPhase(s, v, faults), s.timeline + NewEvents(s, v, faults), s.actionsTaken + NewActions(s, v, faults))
  }

  /******* The program *******/

  method Escalate(s: IncidentState, timeline: seq<Event>, actionsTaken: seq<Action>) returns (u: Update)
    ensures u == Update(Escalated, timeline + [EscalatedEvent(s)], actionsTaken)
  {
    u := Update(Escalated, timeline + [EscalatedEvent(s)], actionsTaken);
  }

  /** The first loop: collect the intents that verify, stop at the first that does not. */
  method VerifyAll(v: Verifier, intents: seq<ActionIntent>) returns (verified: seq<ActionIntent>)
    ensures verified == intents[..FirstBad(v, intents)]
  {
    verified := [];
    for k := 0 to |intents|
      invariant verified == intents[..k]
      invariant forall j :: 0 <= j < k ==> v(intents[j]) == Valid
    {
      if v(intents[k]) != Valid {
        assert FirstBad(v, intents) == k;
        return;
      }
      verified := verified + [intents[k]];
    }
  }

  lemma ForwardCallsMore(intents: seq<ActionIntent>, k: nat)
    requires k < |intents|
    ensures ForwardCalls(intents, k + 1) == ForwardCalls(intents, k) + [Execute(intents[k], None)]
    ensures Seen({}, ForwardCalls(intents, k + 1)) == Seen({}, ForwardCalls(intents, k)) + {intents[k].hash}
    ensures ForwardEvents(intents, k + 1)
      == ForwardEvents(intents, k) + [Event(CoordinatorExecuted, Some(intents[k].hash))]
  {
    assert ForwardCalls(intents, k + 1)[..k] == ForwardCalls(intents, k);
  }

  lemma {:induction false} SeenForward(intents: seq<ActionIntent>, k: nat, h: string)
    requires k <= |intents|
    ensures h in Seen({}, ForwardCalls(intents, k)) <==> exists j :: 0 <= j < k && intents[j].hash == h
  {
    if k == 0 {
    } else {
      SeenForward(intents, k - 1, h);
      ForwardCallsMore(intents, k - 1);
    }
  }

  lemma ForwardActionsMore(intents: seq<ActionIntent>, k: nat)
    requires k < |intents|
    ensures var repeat := intents[k].hash in Seen({}, ForwardCalls(intents, k));
      ForwardActions(intents, k + 1) == ForwardActions(intents, k) + [ForwardAction(intents[k], repeat)]
  {
    SeenForward(intents, k, intents[k].hash);
  }

  /** So far the executor has had these calls and no others, and the journal nothing besides what it had before. */
  ghost predicate Carried(executor: IdempotentExecutor, calls: seq<Call>, calls0: seq<Call>,
                          records0: seq<ExecutionRecord>)
    reads executor, executor.journal
  {
    && executor.Valid() && executor.seed == {} && executor.calls == calls
    && executor.journal.calls == calls0 + calls
    && executor.journal.records == records0 + Records({}, calls)
  }

  method ExecuteNext(executor: IdempotentExecutor, intent: ActionIntent, raise: Option<Raise>,
                     ghost calls: seq<Call>, ghost calls0: seq<Call>, ghost records0: seq<ExecutionRecord>)
    returns (done: Option<Action>)
    requires Carried(executor, calls, calls0, records0)
    modifies executor, executor.journal
    ensures Carried(executor, calls + [Execute(intent, raise)], calls0, records0)
    ensures done == if raise.Some? then None else Some(ForwardAction(intent, intent.hash in Seen({}, calls)))
  {
    RecordsMore({}, calls, Execute(intent, raise));
    Regroup(records0, Records({}, calls), Made(Seen({}, calls), Execute(intent, raise)));
    Regroup(calls0, calls, [Execute(intent, raise)]);
    var pair := executor.Execute(intent, raise, false);
    done := if pair.Some? then Some(pair.value.1) else None;
  }

  method CompensateNext(executor: IdempotentExecutor, intent: ActionIntent, raise: Option<Raise>,
                        ghost calls: seq<Call>, ghost calls0: seq<Call>, ghost records0: seq<ExecutionRecord>)
    returns (done: Option<Action>)
    requires Carried(executor, calls, calls0, records0)
    modifies executor, executor.journal
    ensures Carried(executor, calls + [Compensate(intent, raise)], calls0, records0)
    ensures done == if raise.Some? then None else Some(RollbackAction(intent))
  {
    RecordsMore({}, calls, Compensate(intent, raise));
    Regroup(records0, Records({}, calls), Made(Seen({}, calls), Compensate(intent, raise)));
    Regroup(calls0, calls, [Compensate(intent, raise)]);
    var pair := executor.Compensate(intent, raise, false);
    done := if pair.Some? then Some(pair.value.1) else None;
  }

  /** What one more execution adds to the lists and to the calls. */
  lemma ForwardMore(intents: seq<ActionIntent>, k: nat, timeline0: seq<Event>, actions0: seq<Action>)
    requires k < |intents|
    ensures ForwardCalls(intents, k + 1) == ForwardCalls(intents, k) + [Execute(intents[k], None)]
    ensures timeline0 + ForwardEvents(intents, k) + [Event(CoordinatorExecuted, Some(intents[k].hash))]
      == timeline0 + ForwardEvents(intents, k + 1)
    ensures var repeat := intents[k].hash in Seen({}, ForwardCalls(intents, k));
      actions0 + ForwardActions(intents, k) + [ForwardAction(intents[k], repeat)]
      == actions0 + ForwardActions(intents, k + 1)
  {
    ForwardCallsMore(intents, k);
    ForwardActionsMore(intents, k);
  }

  lemma ForwardNone(intents: seq<ActionIntent>, faults: Faults, timeline0: seq<Event>, actions0: seq<Action>)
    ensures ForwardCalls(intents, 0) == []
    ensures timeline0 + ForwardEvents(intents, 0) == timeline0
    ensures actions0 + ForwardActions(intents, 0) == actions0
    ensures ForwardCalls(intents, |intents|) == ExecuteCalls(intents, faults, |intents|)
  {
  }

  lemma FirstRaiseIs(faults: Faults, n: nat, k: nat)
    requires k <= n && (k < n ==> k in faults.execute) && forall j: nat :: j < k ==> j !in faults.execute
    ensures FirstRaise(faults, n) == k
  {
  }

  /** The calls to execute the first `k` intents, and the next one too if there is one. */
  function ExecuteCalls(intents: seq<ActionIntent>, faults: Faults, k: nat): seq<Call>
    requires k <= |intents|
  {
    ForwardCalls(intents, k) + if k == |intents| then [] else [Execute(intents[k], RaiseAt(faults, k))]
  }

  /** One round of the loop. */
  method ExecuteOne(executor: IdempotentExecutor, intents: seq<ActionIntent>, faults: Faults, k: nat,
                    timeline1: seq<Event>, actions1: seq<Action>,
                    ghost timeline0: seq<Event>, ghost actions0: seq<Action>,
                    ghost calls0: seq<Call>, ghost records0: seq<ExecutionRecord>)
    returns (raised: bool, timeline: seq<Event>, actionsTaken: seq<Action>)
    requires k < |intents| && Carried(executor, ForwardCalls(intents, k), calls0, records0)
    requires timeline1 == timeline0 + ForwardEvents(intents, k) && actions1 == actions0 + ForwardActions(intents, k)
    modifies executor, executor.journal
    ensures raised <==> k in faults.execute
    ensures raised ==>
      && (timeline, actionsTaken) == (timeline1, actions1)
      && Carried(executor, ExecuteCalls(intents, faults, k), calls0, records0)
    ensures !raised ==>
      && timeline == timeline0 + ForwardEvents(intents, k + 1)
      && actionsTaken == actions0 + ForwardActions(intents, k + 1)
      && Carried(executor, ForwardCalls(intents, k + 1), calls0, records0)
  {
    var done := ExecuteNext(executor, intents[k], RaiseAt(faults, k), ForwardCalls(intents, k), calls0, records0);
    raised, timeline, actionsTaken := done.None?, timeline1, actions1;
    if !raised {
      ForwardMore(intents, k, timeline0, actions0);
      actionsTaken := actionsTaken + [done.value];
      timeline := timeline + [Event(CoordinatorExecuted, Some(intents[k].hash))];
    }
  }

  /** The second loop: execute in order; it stops at the first execution that raises. */
  method ExecuteUntilRaise(executor: IdempotentExecutor, intents: seq<ActionIntent>, faults: Faults,
                           timeline0: seq<Event>, actions0: seq<Action>,
                           ghost calls0: seq<Call>, ghost records0: seq<ExecutionRecord>)
    returns (timeline: seq<Event>, actionsTaken: seq<Action>, done: nat)
    requires Carried(executor, [], calls0, records0)
    modifies executor, executor.journal
    ensures done == FirstRaise(faults, |intents|)
    ensures timeline == timeline0 + ForwardEvents(intents, done)
    ensures actionsTaken == actions0 + ForwardActions(intents, done)
    ensures Carried(executor, ExecuteCalls(intents, faults, done), calls0, records0)
  {
    timeline, actionsTaken := timeline0, actions0;
    ForwardNone(intents, faults, timeline0, actions0);
    for k := 0 to |intents|
      invariant Carried(executor, ForwardCalls(intents, k), calls0, records0)
      invariant forall j: nat :: j < k ==> j !in faults.execute
      invariant timeline == timeline0 + ForwardEvents(intents, k)
      invariant actionsTaken == actions0 + ForwardActions(intents, k)
    {
      var raised;
      raised, timeline, actionsTaken := ExecuteOne(executor, intents, faults, k, timeline, actionsTaken,
                                                   timeline0, actions0, calls0, records0);
      if raised {
        FirstRaiseIs(faults, |intents|, k);
        return timeline, actionsTaken, k;
      }
    }
    FirstRaiseIs(faults, |intents|, |intents|);
    done := |intents|;
  }

  /** The loop, and what it records of the execution that raised. */
  method ExecuteAll(executor: IdempotentExecutor, intents: seq<ActionIntent>, faults: Faults,
                    timeline0: seq<Event>, actions0: seq<Action>,
                    ghost calls0: seq<Call>, ghost records0: seq<ExecutionRecord>)
    returns (timeline: seq<Event>, actionsTaken: seq<Action>, failed: Option<ActionIntent>)
    requires Carried(executor, [], calls0, records0)
    modifies executor, executor.journal
    ensures var k := FirstRaise(faults, |intents|);
      && Carried(executor, ExecuteCalls(intents, faults, k), calls0, records0)
      && if k == |intents| then
        && failed == None
        && timeline == timeline0 + ForwardEvents(intents, k)
        && actionsTaken == actions0 + ForwardActions(intents, k)
      else
        && failed == Some(intents[k])
        && timeline == timeline0 + ForwardEvents(intents, k)
             + [Event(CoordinatorExecutionFailed, Some(intents[k].hash))]
        && actionsTaken == actions0 + ForwardActions(intents, k) + [ExecFailedAction(intents[k])]
  {
    var k;
    timeline, actionsTaken, k := ExecuteUntilRaise(executor, intents, faults, timeline0, actions0, calls0, records0);
    failed := None;
    if k < |intents| {
      actionsTaken := actionsTaken + [ExecFailedAction(intents[k])];
      timeline := timeline + [Event(CoordinatorExecutionFailed, Some(intents[k].hash))];
      failed := Some(intents[k]);
    }
  }

  /** The journal has grown by these calls, made on an executor that had seen nothing, and by their records. */
  twostate predicate Journaled(journal: Journal, calls: seq<Call>)
    reads journal
  {
    journal.calls == old(journal.calls) + calls && journal.records == old(journal.records) + Records({}, calls)
  }

  /** The compensation of the intent that failed, and the escalation. */
  method CompensateAndEscalate(s: IncidentState, executor: IdempotentExecutor, failed: ActionIntent,
                               raise: Option<Raise>, timeline0: seq<Event>, actions0: seq<Action>,
                               ghost calls: seq<Call>, ghost calls0: seq<Call>, ghost records0: seq<ExecutionRecord>)
    returns (u: Update)
    requires Carried(executor, calls, calls0, records0)
    modifies executor, executor.journal
    ensures Carried(executor, calls + [Compensate(failed, raise)], calls0, records0)
    ensures var event := if raise.Some? then CoordinatorCompensationFailed else CoordinatorCompensated;
      u == Update(Escalated, timeline0 + [Event(event, Some(failed.hash)), EscalatedEvent(s)],
                  actions0 + if raise.Some? then [] else [RollbackAction(failed)])
  {
    var done := CompensateNext(executor, failed, raise, calls, calls0, records0);
    var timeline, actionsTaken := timeline0, actions0;
    if done.None? {
      timeline := timeline + [Event(CoordinatorCompensationFailed, Some(failed.hash))];
    } else {
      actionsTaken := actionsTaken + [done.value];
      timeline := timeline + [Event(CoordinatorCompensated, Some(failed.hash))];
    }
    u := Escalate(s, timeline, actionsTaken);
  }

  /** How the pieces of a failed remediation join up. */
  lemma FailurePieces(s: IncidentState, faults: Faults, timeline0: seq<Event>, k: nat)
    requires k == FirstRaise(faults, |s.actionIntents|) < |s.actionIntents|
    ensures var i := s.actionIntents[k];
      && timeline0 + RemediationEvents(s, faults)
           == timeline0 + ForwardEvents(s.actionIntents, k) + [FailureEvents(i, faults)[0]]
                + [FailureEvents(i, faults)[1], EscalatedEvent(s)]
      && s.actionsTaken + RemediationActions(s.actionIntents, faults)
           == s.actionsTaken + ForwardActions(s.actionIntents, k) + [ExecFailedAction(i)]
                + (if faults.compensate.Some? then [] else [RollbackAction(i)])
      && RemediationCalls(s.actionIntents, faults)
           == ExecuteCalls(s.actionIntents, faults, k) + [Compensate(i, faults.compensate)]
  {
  }

  /** Execution with compensation of the intent that failed. */
  method Remediate(s: IncidentState, faults: Faults, timeline0: seq<Event>, journal: Journal) returns (u: Update)
    modifies journal
    ensures u.phase == if FirstRaise(faults, |s.actionIntents|) == |s.actionIntents| then Resolved else Escalated
    ensures u.timeline == timeline0 + RemediationEvents(s, faults)
    ensures u.actionsTaken == s.actionsTaken + RemediationActions(s.actionIntents, faults)
    ensures Journaled(journal, RemediationCalls(s.actionIntents, faults))
  {
    ghost var calls0, records0, k := journal.calls, journal.records, FirstRaise(faults, |s.actionIntents|);
    var executor := new IdempotentExecutor(false, {}, journal);
    var timeline, actionsTaken, failed :=
      ExecuteAll(executor, s.actionIntents, faults, timeline0, s.actionsTaken, calls0, records0);
    if failed.Some? {
      FailurePieces(s, faults, timeline0, k);
      u := CompensateAndEscalate(s, executor, failed.value, faults.compensate, timeline, actionsTaken,
                                 ExecuteCalls(s.actionIntents, faults, k), calls0, records0);
    } else {
      u := Update(Resolved, timeline + [Event(CoordinatorResolved, None)], actionsTaken);
    }
  }

  /** The steps after verification. */
  method Decide(s: IncidentState, faults: Faults, timeline0: seq<Event>, journal: Journal) returns (u: Update)
    modifies journal
    ensures u.phase == DecidedPhase(s, faults)
    ensures u.timeline == timeline0 + DecidedEvents(s, faults)
    ensures u.actionsTaken == s.actionsTaken + DecidedActions(s, faults)
    ensures Journaled(journal, DecidedCalls(s, faults))
  {
    var outcome := CheckPreflight(s.hypotheses, s.actionIntents);
    var timeline := timeline0 + [Event(CoordinatorPreflight(outcome), None)];
    match outcome {
      case DiagnosisInvalidated =>
        u := Update(Investigating, timeline, s.actionsTaken);
      case ParameterDrift =>
        if s.actionIntents == [] {
          u := Escalate(s, timeline, s.actionsTaken);
        } else {
          u := Update(Planning, timeline, s.actionsTaken);
        }
      case AlreadyResolved =>
        u := Update(Resolved, timeline + [Event(CoordinatorResolvedNoOp, None)], s.actionsTaken + [NO_OP]);
      case Ready =>
        // There is an intent to run: the program's guard for none cannot fire here.
        u := Remediate(s, faults, timeline, journal);
    }
  }

  /** Phase, events and actions; and, in the journal of all executors, exactly the calls of this run. */
  method Coordinate(s: IncidentState, v: Verifier, faults: Faults, journal: Journal) returns (u: Update)
    modifies journal
    ensures u == Coordinated(s, v, faults)
    ensures Journaled(journal, NewCalls(s, v, faults))
  {
    var started := Event(CoordinatorStarted, None);
    var verified := VerifyAll(v, s.actionIntents);
    if |verified| < |s.actionIntents| {
      var intent := s.actionIntents[|verified|];
      var failed := Event(CoordinatorVerificationFailed, Some(intent.hash));
      u := Escalate(s, s.timeline + [started] + [failed], s.actionsTaken + [VerifyFailedAction(intent)]);
      Regroup(s.timeline, [started], [failed, EscalatedEvent(s)]);
      assert u.timeline == s.timeline + [started] + [failed, EscalatedEvent(s)];
    } else {
      u := Decide(s, faults, s.timeline + [started], journal);
      Regroup(s.timeline, [started], DecidedEvents(s, faults));
    }
  }

  /******* What the outcome guarantees *******/

  lemma FirstBadIsFirst(v: Verifier, intents: seq<ActionIntent>)
    ensures FirstBad(v, intents) < |intents| <==> !AllVerify(v, intents)
  {
  }

  predicate Ran(a: Action) { a.id == FreshId && a.status == Succeeded }

  /**
   Fail closed: with an intent that does not verify, the first of them at `k`, no executor is
   called. The one action added is a failed one, for that intent, and the incident is escalated.
   */
  lemma FailClosed(s: IncidentState, v: Verifier, faults: Faults, k: nat)
    requires k < |s.actionIntents| && v(s.actionIntents[k]) != Valid
    requires forall j :: 0 <= j < k ==> v(s.actionIntents[j]) == Valid
    ensures NewCalls(s, v, faults) == [] && Records({}, NewCalls(s, v, faults)) == []
    ensures NewPhase(s, v, faults) == Escalated
    ensures var i, added := s.actionIntents[k], NewActions(s, v, faults);
      && |added| == 1 && added[0].status == Failed && added[0].description == VerificationFailure
      && added[0].kind == i.actionType && added[0].intentHash == Some(i.hash)
      && added[0].id.VerifyFail? && added[0].id.prefix <= i.hash
      && |added[0].id.prefix| == (if |i.hash| < 8 then |i.hash| else 8)
    ensures Kinds(NewEvents(s, v, faults)) == [CoordinatorStarted, CoordinatorVerificationFailed, CoordinatorEscalated]
    ensures NewEvents(s, v, faults)[1].ref == Some(s.actionIntents[k].hash)
    ensures NewEvents(s, v, faults)[2].ref == Some(s.incidentId)
  {
    assert FirstBad(v, s.actionIntents) == k;
  }

  /** The kinds of some events. */
  function Kinds(events: seq<Event>): seq<EventKind> {
    seq(|events|, k requires 0 <= k < |events| => events[k].kind)
  }

  /**
   In particular a forged or altered intent stops everything: one whose signature does not check,
   or whose hash is not the digest of its fields, anywhere in the list.
   */
  lemma ForgeryFailsClosed(s: IncidentState, c: Crypto, faults: Faults, k: nat)
    requires k < |s.actionIntents|
    requires var i := s.actionIntents[k];
      !c.check(i.signature, i.hash) || i.hash != c.digest(Canonical(FieldsOf(i)))
    ensures NewCalls(s, VerifierOf(c), faults) == [] && Records({}, NewCalls(s, VerifierOf(c), faults)) == []
    ensures NewPhase(s, VerifierOf(c), faults) == Escalated
    ensures forall a :: a in NewActions(s, VerifierOf(c), faults) ==>
      a.status == Failed && a.description == VerificationFailure
  {
    VerifiesExactly(c, s.actionIntents[k]);
    assert VerifierOf(c)(s.actionIntents[k]) != Valid;
    FirstBadIsFirst(VerifierOf(c), s.actionIntents);
  }

  /**
   An executor is called exactly when there is an intent, every intent verifies, and a confirmed
   hypothesis stands behind them; an action that ran says the same.
   */
  lemma NothingRunsUnverified(s: IncidentState, v: Verifier, faults: Faults)
    ensures NewCalls(s, v, faults) != [] <==>
      s.actionIntents != [] && AllVerify(v, s.actionIntents) && AnyConfirmed(s.hypotheses)
    ensures forall a :: a in NewActions(s, v, faults) && Ran(a) ==> NewCalls(s, v, faults) != []
  {
    PreflightTable(s.hypotheses, s.actionIntents);
    FirstBadIsFirst(v, s.actionIntents);
  }

  /** The executor is asked about this intent. */
  ghost predicate Touched(calls: seq<Call>, i: ActionIntent) {
    exists c :: c in calls && c.i == i
  }

  /** The expected effect, marked as skipped exactly when an earlier intent has the same hash. */
  predicate Describes(d: Description, intents: seq<ActionIntent>, j: nat)
    requires j < |intents|
  {
    if exists h :: 0 <= h < j && intents[h].hash == intents[j].hash then d == Skipped(intents[j].expectedEffect)
    else d == Effect(intents[j].expectedEffect)
  }

  /**
   Compensation accounting, once every intent has verified and the diagnosis stands. The calls:
   each intent executed in order up to and including the first that raises, then that one
   compensated, and no other. The actions: one per intent so far, failed for the one that
   raised, then its rollback unless that raises too.
   */
  lemma CompensationAccounting(s: IncidentState, v: Verifier, faults: Faults)
    requires AllVerify(v, s.actionIntents) && CheckPreflight(s.hypotheses, s.actionIntents) == Ready
    ensures var calls, k := NewCalls(s, v, faults), FirstRaise(faults, |s.actionIntents|);
      && |calls| == (if k == |s.actionIntents| then k else k + 2)
      && (forall j :: 0 <= j < |calls| && j <= k ==> calls[j].Execute? && calls[j].i == s.actionIntents[j])
      && (forall j :: 0 <= j < k ==> calls[j].raise == None)
      && (k < |s.actionIntents| ==>
            && calls[k].raise == Some(faults.execute[k])
            && calls[k + 1] == Compensate(s.actionIntents[k], faults.compensate))
    ensures var added, k := NewActions(s, v, faults), FirstRaise(faults, |s.actionIntents|);
      && |added| == (if k == |s.actionIntents| then k else if faults.compensate.Some? then k + 1 else k + 2)
      && (forall j :: 0 <= j < |added| && j <= k ==>
            added[j].kind == s.actionIntents[j].actionType && added[j].intentHash == Some(s.actionIntents[j].hash)
            && added[j].status == if j < k then Succeeded else Failed)
      && (forall j :: 0 <= j < k ==> added[j].id == FreshId && Describes(added[j].description, s.actionIntents, j))
      && (k < |s.actionIntents| ==>
            added[k].id == ExecFail(Prefix(s.actionIntents[k].hash)) && added[k].description == ExecutionFailure)
      && (|added| == k + 2 ==> added[k + 1] == Action(FreshId, Rollback,
            Description.Compensation(s.actionIntents[k].rollbackHint), Succeeded, Some(s.actionIntents[k].hash)))
      && (NewPhase(s, v, faults) == Resolved <==> k == |s.actionIntents|)
      && (NewPhase(s, v, faults) == Escalated <==> k < |s.actionIntents|)
  {
  }

  lemma ReadyEvents(s: IncidentState, v: Verifier, faults: Faults)
    requires AllVerify(v, s.actionIntents) && CheckPreflight(s.hypotheses, s.actionIntents) == Ready
    ensures var k := FirstRaise(faults, |s.actionIntents|);
      NewEvents(s, v, faults) == [Event(CoordinatorStarted, None), Event(CoordinatorPreflight(Ready), None)]
        + ForwardEvents(s.actionIntents, k)
        + if k == |s.actionIntents| then [Event(CoordinatorResolved, None)]
          else FailureEvents(s.actionIntents[k], faults) + [EscalatedEvent(s)]
  {
    FirstBadIsFirst(v, s.actionIntents);
  }

  lemma ThirdPart<T>(a: seq<T>, b: seq<T>, c: seq<T>, j: nat)
    ensures |a + b + c| == |a| + |b| + |c|
    ensures j < |a| ==> (a + b + c)[j] == a[j]
    ensures j < |b| ==> (a + b + c)[|a| + j] == b[j]
    ensures j < |c| ==> (a + b + c)[|a| + |b| + j] == c[j]
  {
  }

  /**
   The events of such a run: it starts, the preflight is ready, each intent before the first that
   raises is executed, and then either the incident is resolved or that intent has failed, its
   compensation worked or not, and the incident is escalated.
   */
  lemma EventAccounting(s: IncidentState, v: Verifier, faults: Faults, j: nat)
    requires AllVerify(v, s.actionIntents) && CheckPreflight(s.hypotheses, s.actionIntents) == Ready
    ensures var events, k, n := NewEvents(s, v, faults), FirstRaise(faults, |s.actionIntents|), |s.actionIntents|;
      && |events| == (if k == n then k + 3 else k + 5)
      && events[0] == Event(CoordinatorStarted, None) && events[1] == Event(CoordinatorPreflight(Ready), None)
      && (j < k ==> events[2 + j] == Event(CoordinatorExecuted, Some(s.actionIntents[j].hash)))
      && (k == n ==> events[k + 2] == Event(CoordinatorResolved, None))
      && (k < n ==>
            && events[k + 2] == Event(CoordinatorExecutionFailed, Some(s.actionIntents[k].hash))
            && events[k + 3].ref == Some(s.actionIntents[k].hash)
            && events[k + 3].kind
                 == (if faults.compensate == None then CoordinatorCompensated else CoordinatorCompensationFailed)
            && events[k + 4] == Event(CoordinatorEscalated, Some(s.incidentId)))
  {
    var k := FirstRaise(faults, |s.actionIntents|);
    var a := [Event(CoordinatorStarted, None), Event(CoordinatorPreflight(Ready), None)];
    var b := ForwardEvents(s.actionIntents, k);
    var c := if k == |s.actionIntents| then [Event(CoordinatorResolved, None)]
             else FailureEvents(s.actionIntents[k], faults) + [EscalatedEvent(s)];
    ReadyEvents(s, v, faults);
    ThirdPart(a, b, c, 0);
    ThirdPart(a, b, c, 1);
    ThirdPart(a, b, c, 2);
    ThirdPart(a, b, c, j);
  }

  /** The events and actions of a run that stops at the preflight. */
  lemma StoppedEvents(s: IncidentState, v: Verifier, faults: Faults)
    requires AllVerify(v, s.actionIntents) && CheckPreflight(s.hypotheses, s.actionIntents) != Ready
    ensures var kinds := Kinds(NewEvents(s, v, faults));
      if s.hypotheses == [] then
        kinds == [CoordinatorStarted, CoordinatorPreflight(AlreadyResolved), CoordinatorResolvedNoOp]
      else if s.actionIntents == [] then
        kinds == [CoordinatorStarted, CoordinatorPreflight(ParameterDrift), CoordinatorEscalated]
      else if forall i :: 0 <= i < |s.hypotheses| ==> s.hypotheses[i].status in {refuted, abandoned} then
        kinds == [CoordinatorStarted, CoordinatorPreflight(DiagnosisInvalidated)]
      else kinds == [CoordinatorStarted, CoordinatorPreflight(ParameterDrift)]
    ensures NewActions(s, v, faults) == if s.hypotheses != [] then [] else
      [Action(SelfResolved, NoOp, ResolvedByItself, Succeeded, None)]
  {
    PreflightTable(s.hypotheses, s.actionIntents);
    FirstBadIsFirst(v, s.actionIntents);
  }

  /** An intent after the first that raises, unless it stands before it as well, is never touched. */
  lemma LaterIntentsUntouched(s: IncidentState, v: Verifier, faults: Faults, j: nat)
    requires FirstRaise(faults, |s.actionIntents|) < j < |s.actionIntents|
    requires s.actionIntents[j] !in s.actionIntents[..FirstRaise(faults, |s.actionIntents|) + 1]
    ensures !Touched(NewCalls(s, v, faults), s.actionIntents[j])
  {
    var calls, k := NewCalls(s, v, faults), FirstRaise(faults, |s.actionIntents|);
    forall c | c in calls ensures c.i in s.actionIntents[..k + 1] {
      var n :| 0 <= n < |calls| && calls[n] == c;
      assert c.i == s.actionIntents[..k + 1][if n <= k then n else k];
    }
  }

  function Effects(actions: seq<Action>): nat {
    if actions == [] then 0
    else Effects(actions[..|actions| - 1]) + if actions[|actions| - 1].description.Effect? then 1 else 0
  }

  function DistinctFields(intents: seq<ActionIntent>, n: nat): set<Fields>
    requires n <= |intents|
  {
    if n == 0 then {} else DistinctFields(intents, n - 1) + {FieldsOf(intents[n - 1])}
  }

  lemma {:induction false} InDistinctFields(intents: seq<ActionIntent>, n: nat, f: Fields)
    requires n <= |intents|
    ensures f in DistinctFields(intents, n) <==> exists j :: 0 <= j < n && FieldsOf(intents[j]) == f
  {
    if n == 0 {
    } else {
      InDistinctFields(intents, n - 1, f);
    }
  }

  ghost predicate HashIdentifies(i: ActionIntent, j: ActionIntent) {
    i.hash == j.hash <==> FieldsOf(i) == FieldsOf(j)
  }

  ghost predicate HashesIdentify(intents: seq<ActionIntent>) {
    forall j, k {:trigger HashIdentifies(intents[j], intents[k])} ::
      0 <= j < |intents| && 0 <= k < |intents| ==> HashIdentifies(intents[j], intents[k])
  }

  lemma VerifiedHashesIdentify(c: Crypto, intents: seq<ActionIntent>)
    requires CollisionFree(c) && AllVerify(VerifierOf(c), intents)
    ensures HashesIdentify(intents)
  {
    forall j, k | 0 <= j < |intents| && 0 <= k < |intents| ensures HashIdentifies(intents[j], intents[k]) {
      VerifiedHashIdentifies(c, intents[j], intents[k]);
    }
  }

  /** How many of the first `n` intents repeat no earlier hash. */
  function FirstUses(intents: seq<ActionIntent>, n: nat): nat
    requires n <= |intents|
  {
    if n == 0 then 0 else FirstUses(intents, n - 1) + if Repeats(intents, n - 1) then 0 else 1
  }

  lemma {:induction false} EffectsAreFirstUses(intents: seq<ActionIntent>, n: nat)
    requires n <= |intents|
    ensures Effects(ForwardActions(intents, n)) == FirstUses(intents, n)
  {
    if n == 0 {
    } else {
      EffectsAreFirstUses(intents, n - 1);
      var added := ForwardActions(intents, n);
      assert added[..n - 1] == ForwardActions(intents, n - 1);
    }
  }

  lemma RepeatsByFields(intents: seq<ActionIntent>, k: nat)
    requires HashesIdentify(intents) && k < |intents|
    ensures Repeats(intents, k) <==> FieldsOf(intents[k]) in DistinctFields(intents, k)
  {
    InDistinctFields(intents, k, FieldsOf(intents[k]));
    if Repeats(intents, k) {
      var j :| 0 <= j < k && intents[j].hash == intents[k].hash;
      assert HashIdentifies(intents[j], intents[k]);
    }
    if FieldsOf(intents[k]) in DistinctFields(intents, k) {
      var j :| 0 <= j < k && FieldsOf(intents[j]) == FieldsOf(intents[k]);
      assert HashIdentifies(intents[j], intents[k]);
    }
  }

  lemma {:induction false} FirstUsesCountFields(intents: seq<ActionIntent>, n: nat)
    requires HashesIdentify(intents) && n <= |intents|
    ensures FirstUses(intents, n) == |DistinctFields(intents, n)|
  {
    if n == 0 {
    } else {
      FirstUsesCountFields(intents, n - 1);
      RepeatsByFields(intents, n - 1);
      AddToSet(DistinctFields(intents, n - 1), FieldsOf(intents[n - 1]));
    }
  }

  lemma GrowTogether<A, B>(s: set<A>, a: A, t: set<B>, b: B)
    requires |s| == |t| && (a in s <==> b in t)
    ensures |s + {a}| == |t + {b}|
  {
    AddToSet(s, a);
    AddToSet(t, b);
  }

  lemma RepeatIsSeen(intents: seq<ActionIntent>, k: nat)
    requires k < |intents|
    ensures intents[k].hash in Seen({}, ForwardCalls(intents, k)) <==> Repeats(intents, k)
  {
    SeenForward(intents, k, intents[k].hash);
  }

  lemma {:induction false} SeenCountsFields(intents: seq<ActionIntent>, n: nat)
    requires HashesIdentify(intents) && n <= |intents|
    ensures |Seen({}, ForwardCalls(intents, n))| == |DistinctFields(intents, n)|
  {
    if n == 0 {
    } else {
      var k := n - 1;
      SeenCountsFields(intents, k);
      ForwardCallsMore(intents, k);
      RepeatIsSeen(intents, k);
      RepeatsByFields(intents, k);
      GrowTogether(Seen({}, ForwardCalls(intents, k)), intents[k].hash,
                   DistinctFields(intents, k), FieldsOf(intents[k]));
    }
  }

  /** How many of the intents take effect: those before the first that raises, and it too when it raises late. */
  function Effective(faults: Faults, n: nat): nat {
    var k := FirstRaise(faults, n);
    if k < n && faults.execute[k] == Late then k + 1 else k
  }

  lemma SeenAfterCalls(intents: seq<ActionIntent>, faults: Faults)
    ensures Effective(faults, |intents|) <= |intents|
    ensures Seen({}, RemediationCalls(intents, faults)) == Seen({}, ForwardCalls(intents, Effective(faults, |intents|)))
  {
    var k := FirstRaise(faults, |intents|);
    var calls := RemediationCalls(intents, faults);
    if k == |intents| {
      assert calls == ForwardCalls(intents, k);
    } else {
      var most := ForwardCalls(intents, k) + [Execute(intents[k], RaiseAt(faults, k))];
      assert calls[..k + 1] == most && most[..k] == ForwardCalls(intents, k);
      ForwardCallsMore(intents, k);
    }
  }

  /**
   Exactly once: whenever the coordinator executes at all, its executor really executes as many
   intents as there are distinct ones, told apart by their five signed fields, among those that
   take effect: each of those once, and no hash more than once.
   */
  lemma ExecutesEachOnce(s: IncidentState, c: Crypto, faults: Faults)
    requires CollisionFree(c) && AllVerify(VerifierOf(c), s.actionIntents)
    requires CheckPreflight(s.hypotheses, s.actionIntents) == Ready
    ensures var records, m := Records({}, NewCalls(s, VerifierOf(c), faults)), Effective(faults, |s.actionIntents|);
      && m <= |s.actionIntents|
      && Total(records) == |DistinctFields(s.actionIntents, m)|
      && (forall h :: Executions(records, h) == if exists j :: 0 <= j < m && s.actionIntents[j].hash == h then 1 else 0)
  {
    var calls, m := RemediationCalls(s.actionIntents, faults), Effective(faults, |s.actionIntents|);
    FirstBadIsFirst(VerifierOf(c), s.actionIntents);
    VerifiedHashesIdentify(c, s.actionIntents);
    SeenAfterCalls(s.actionIntents, faults);
    SeenCountsFields(s.actionIntents, m);
    TotalIsNew({}, calls);
    forall h ensures Executions(Records({}, calls), h)
      == if exists j :: 0 <= j < m && s.actionIntents[j].hash == h then 1 else 0
    {
      ExactlyOnce({}, calls, h);
      SeenExactly({}, calls, h);
      SeenForward(s.actionIntents, m, h);
    }
  }

  /** ... and the actions of a run that resolves by execution say so: one effect per distinct intent. */
  lemma ActionsShowEachOnce(s: IncidentState, c: Crypto, faults: Faults)
    requires CollisionFree(c)
    requires NewPhase(s, VerifierOf(c), faults) == Resolved && s.hypotheses != []
    ensures Effects(NewActions(s, VerifierOf(c), faults)) == |DistinctFields(s.actionIntents, |s.actionIntents|)|
  {
    var n := |s.actionIntents|;
    var v := VerifierOf(c);
    FirstBadIsFirst(v, s.actionIntents);
    PreflightTable(s.hypotheses, s.actionIntents);
    assert NewActions(s, v, faults) == ForwardActions(s.actionIntents, n);
    VerifiedHashesIdentify(c, s.actionIntents);
    EffectsAreFirstUses(s.actionIntents, n);
    FirstUsesCountFields(s.actionIntents, n);
  }

  function Apply(s: IncidentState, u: Update): IncidentState {
    s.(phase := u.phase, timeline := u.timeline, actionsTaken := u.actionsTaken)
  }

  /**
   The seen-set does not outlive the run: it starts empty each time and no record is stored,
   so coordinating an already coordinated incident performs everything again.
   */
  lemma SecondRunExecutesAgain(s: IncidentState, v: Verifier, faults: Faults)
    ensures NewActions(Apply(s, Coordinated(s, v, faults)), v, faults) == NewActions(s, v, faults)
    ensures NewPhase(Apply(s, Coordinated(s, v, faults)), v, faults) == NewPhase(s, v, faults)
    ensures NewCalls(Apply(s, Coordinated(s, v, faults)), v, faults) == NewCalls(s, v, faults)
  {
  }

  /** The phase the coordinator leaves, for every state. */
  lemma PhaseTable(s: IncidentState, v: Verifier, faults: Faults)
    ensures var ok := AllVerify(v, s.actionIntents);
      var hs, none := s.hypotheses, s.actionIntents == [];
      var negative := forall i :: 0 <= i < |hs| ==> hs[i].status in {refuted, abandoned};
      var undisturbed := forall k: nat :: k < |s.actionIntents| ==> k !in faults.execute;
      var phase := NewPhase(s, v, faults);
      && (phase == Resolved <==> ok && (hs == [] || (!none && AnyConfirmed(hs) && undisturbed)))
      && (phase == Investigating <==> ok && !none && hs != [] && negative)
      && (phase == Planning <==> ok && !none && hs != [] && !negative && !AnyConfirmed(hs))
      && (phase == Resolved || phase == Investigating || phase == Planning || phase == Escalated)
  {
  }
}
