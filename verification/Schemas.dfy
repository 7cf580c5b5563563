/** The incident state and what it is made of. Clock readings are left out. */
module Schemas {
  import opened Json
  import opened Text

  datatype HypothesisStatus = open | confirmed | refuted | abandoned

  datatype Hypothesis = Hypothesis(id: string, text: string, score: real, status: HypothesisStatus)

  datatype Phase =
    | Intake | Investigating | Planning | Fixing | Verifying | Reviewing | Escalated | Resolved

  datatype ActionType = Query | FixAttempt | Rollback | Scale | FlagFlip | Notification | NoOp

  datatype ActionStatus = Pending | Executing | Succeeded | Failed

  /** A parameter of an action: a string, an integer or a Boolean. */
  type Param = j: Json | j.Str? || j.Int? || j.Bool? witness Bool(true)

  datatype ActionIntent = ActionIntent(
    hash: string,
    actionType: ActionType,
    target: string,
    parameters: map<string, Param>,
    expectedEffect: string,
    rollbackHint: string,
    signer: string,
    signature: string,
    approvalStatus: string,
    approvedBy: Option<string>,
    approvedAt: Option<int>,
    expiresAt: int)

  /** Action ids: derived from the intent for failures, a fresh UUID otherwise. */
  datatype ActionId = VerifyFail(prefix: string) | ExecFail(prefix: string) | SelfResolved | FreshId

  datatype Description =
    | Effect(text: string)
    | Skipped(text: string)
    | Compensation(hint: string)
    | VerificationFailure
    | ExecutionFailure
    | ResolvedByItself

  datatype Action = Action(
    id: ActionId,
    kind: ActionType,
    description: Description,
    status: ActionStatus,
    intentHash: Option<string>)

  datatype Finding = Finding(
    id: string,
    collector: string,
    question: string,
    summary: string,
    evidenceId: string,
    confidence: real)

  datatype EventKind =
    | IntakeAccepted
    | InvestigatorTick | InvestigatorCapReached
    | DispatchNoFocus | DispatchCacheHit | DispatchSuccess | DispatchFailed
    | PlannerDecided
    | CoordinatorStarted | CoordinatorVerificationFailed | CoordinatorPreflight(outcome: Preflight)
    | CoordinatorExecuted | CoordinatorExecutionFailed
    | CoordinatorCompensated | CoordinatorCompensationFailed
    | CoordinatorResolved | CoordinatorResolvedNoOp | CoordinatorEscalated

  datatype Preflight = Ready | DiagnosisInvalidated | ParameterDrift | AlreadyResolved

  datatype Event = Event(kind: EventKind, ref: Option<string>)

  datatype IncidentState = IncidentState(
    incidentId: string,
    service: string,
    firedAt: int,
    hypotheses: seq<Hypothesis>,
    findings: seq<Finding>,
    timeline: seq<Event>,
    actionsTaken: seq<Action>,
    actionIntents: seq<ActionIntent>,
    servicesTouched: seq<string>,
    focus: Option<string>,
    attempts: nat,
    phase: Phase)

  predicate AnyConfirmed(hs: seq<Hypothesis>) {
    exists i :: 0 <= i < |hs| && hs[i].status == confirmed
  }
}
