/** The planner: the confidence gate, and the only writer of intents. */
module Planner {
  import opened Schemas
  import opened Signing
  import opened Text

  datatype PlanType = PullRequest | RollbackPlan | ScalePlan | FlagFlipPlan | Runbook | NoPlan

  /** The language model's flat answer, arbitrary within its types. */
  datatype Decision = Decision(
    planId: string, planType: PlanType, confidence: real,
    target: string, parameters: map<string, Param>, expectedEffect: string, rollbackHint: string)

  /** Fifteen minutes, in microseconds. */
  const APPROVAL_WINDOW: int := 900_000_000

  const CONFIDENCE_THRESHOLD: real := 0.5

  function EffectivePlan(d: Decision): PlanType {
    if d.confidence < CONFIDENCE_THRESHOLD then NoPlan else d.planType
  }

  function PlanAction(p: PlanType): Option<ActionType> {
    match p
    case RollbackPlan => Some(Rollback)
    case ScalePlan => Some(Scale)
    case FlagFlipPlan => Some(FlagFlip)
    case _ => None
  }

  /** The plan changes the system: only then is there an intent. */
  predicate Mutates(d: Decision) { PlanAction(EffectivePlan(d)).Some? }

  function BuildIntent(c: Crypto, d: Decision, now: int): ActionIntent
    requires Mutates(d)
  {
    Sign(c, ActionIntent("__unsigned__", PlanAction(EffectivePlan(d)).value, d.target, d.parameters, d.expectedEffect,
      d.rollbackHint, "orchestrator:planner", "__unsigned__", "pending", None, None, now + APPROVAL_WINDOW))
  }

  function PlannerNode(s: IncidentState, c: Crypto, d: Decision, now: int): IncidentState {
    s.(phase := Planning,
       timeline := s.timeline + [Event(PlannerDecided, Some(d.planId))],
       actionIntents := s.actionIntents + if Mutates(d) then [BuildIntent(c, d, now)] else [])
  }

  /** Below one half nothing mutates, at or above exactly the three mutating types do; what is built verifies. */
  lemma PlannerGate(c: Crypto, d: Decision, now: int)
    requires MatchingKeys(c)
    ensures Mutates(d) <==>
      d.confidence >= 0.5 && (d.planType == RollbackPlan || d.planType == ScalePlan || d.planType == FlagFlipPlan)
    ensures Mutates(d) ==>
      var i := BuildIntent(c, d, now);
      && Verify(c, i) == Valid
      && FieldsOf(i) == Fields(i.actionType, d.target, d.parameters, d.expectedEffect, d.rollbackHint)
      && i.actionType == (match d.planType case RollbackPlan => Rollback case ScalePlan => Scale case _ => FlagFlip)
      && i.expiresAt == now + 15 * 60 * 1_000_000 && i.approvalStatus == "pending" && i.signer == "orchestrator:planner"
      && i.approvedBy == None && i.approvedAt == None
  {
  }
}
