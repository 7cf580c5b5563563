/** The Reviewer: three hard rules, then the language model's judgement behind a guardrail. */
module Reviewer {
  import opened Dev
  import opened Schemas
  import opened Structured
  import opened Text

  datatype Rule = DiffRepos | CommitMessage | PrBodyEvidence

  predicate DiffReposHolds(p: FixProposal, plan: Plan) {
    plan.targetRepos != [] && InScope(plan, p.changes)
  }

  predicate CommitMessageHolds(p: FixProposal, h: Hypothesis) {
    Contains(p.commitMessage, h.id)
  }

  predicate PrBodyEvidenceHolds(p: FixProposal, findings: seq<Finding>) {
    exists i :: 0 <= i < |findings| && Contains(p.prBody, findings[i].evidenceId)
  }

  function CheckDiffRepos(p: FixProposal, plan: Plan): (r: Option<Rule>)
    ensures r.None? <==> DiffReposHolds(p, plan)
  {
    OutsideIsEmpty(plan, p.changes);
    if plan.targetRepos == [] then Some(DiffRepos)
    else if Outside(plan, p.changes) != [] then Some(DiffRepos)
    else None
  }

  function CheckCommitMessage(p: FixProposal, h: Hypothesis): Option<Rule> {
    if Contains(p.commitMessage, h.id) then None else Some(CommitMessage)
  }

  function CheckPrBodyEvidence(p: FixProposal, findings: seq<Finding>): (r: Option<Rule>)
    ensures r.None? <==> PrBodyEvidenceHolds(p, findings)
  {
    if findings == [] then Some(PrBodyEvidence)
    else if !exists i :: 0 <= i < |findings| && Contains(p.prBody, findings[i].evidenceId) then Some(PrBodyEvidence)
    else None
  }

  function Broken(rule: Rule, holds: bool): seq<Rule> { if holds then [] else [rule] }

  /** The rules a proposal breaks, in order. */
  function Violations(p: FixProposal, plan: Plan, h: Hypothesis, findings: seq<Finding>): seq<Rule> {
    Broken(DiffRepos, DiffReposHolds(p, plan)) + Broken(CommitMessage, CommitMessageHolds(p, h))
      + Broken(PrBodyEvidence, PrBodyEvidenceHolds(p, findings))
  }

  /** Which rules are broken, in terms of the texts and the repositories. */
  lemma ViolationsSay(p: FixProposal, plan: Plan, h: Hypothesis, findings: seq<Finding>)
    ensures var broken := Violations(p, plan, h, findings);
      && (DiffRepos in broken <==>
            plan.targetRepos == [] || exists i :: 0 <= i < |p.changes| && p.changes[i].repo !in plan.targetRepos)
      && (CommitMessage in broken <==> !exists before, after :: p.commitMessage == before + h.id + after)
      && (PrBodyEvidence in broken <==>
            forall i :: 0 <= i < |findings| ==>
              !exists before, after :: p.prBody == before + findings[i].evidenceId + after)
      && |broken| == (if DiffRepos in broken then 1 else 0) + (if CommitMessage in broken then 1 else 0)
           + (if PrBodyEvidence in broken then 1 else 0)
  {
    ContainsExactly(p.commitMessage, h.id);
    forall i | 0 <= i < |findings|
      ensures Contains(p.prBody, findings[i].evidenceId)
        <==> exists before, after :: p.prBody == before + findings[i].evidenceId + after
    {
      ContainsExactly(p.prBody, findings[i].evidenceId);
    }
  }

  method RunAllChecks(p: FixProposal, plan: Plan, h: Hypothesis, findings: seq<Finding>) returns (violations: seq<Rule>)
    ensures violations == Violations(p, plan, h, findings)
  {
    violations := [];
    var v1 := CheckDiffRepos(p, plan);
    assert v1.Some? ==> v1.value == DiffRepos;
    if v1.Some? { violations := violations + [v1.value]; }
    var v2 := CheckCommitMessage(p, h);
    if v2.Some? { violations := violations + [v2.value]; }
    var v3 := CheckPrBodyEvidence(p, findings);
    assert v3.Some? ==> v3.value == PrBodyEvidence;
    if v3.Some? { violations := violations + [v3.value]; }
  }

  datatype Decision = Approve | RequestChanges | ChallengeRootCause

  datatype Reasoning =
    | Judged(text: string) | NoHypothesis | RulesBroken(rules: seq<Rule>) | NothingCited(original: string)

  datatype Judgement = Judgement(decision: Decision, reasoning: string, cited: seq<string>)

  datatype Review = Review(decision: Decision, reasoning: Reasoning, cited: seq<string>)

  datatype Gate = NothingToReview | Decided(review: Review) | JudgementFailed

  /** A challenge needs citations. */
  function ApplyGuardrails(j: Judgement): Review {
    if j.decision == ChallengeRootCause && j.cited == [] then Review(RequestChanges, NothingCited(j.reasoning), [])
    else Review(j.decision, Judged(j.reasoning), j.cited)
  }

  function ReviewerNode(s: IncidentState, proposal: Option<FixProposal>, plan: Option<Plan>,
                        llm: Completion<Judgement>): Gate {
    if proposal.None? || plan.None? then NothingToReview
    else if FirstConfirmed(s.hypotheses).None? then Decided(Review(RequestChanges, NoHypothesis, []))
    else
      var violations := Violations(proposal.value, plan.value, FirstConfirmed(s.hypotheses).value, s.findings);
      if violations != [] then Decided(Review(RequestChanges, RulesBroken(violations), []))
      else if !llm.Returned? then JudgementFailed
      else Decided(ApplyGuardrails(llm.value))
  }

  /** Everything the rules ask of a proposal holds. */
  predicate Clean(s: IncidentState, p: FixProposal, plan: Plan) {
    var h := FirstConfirmed(s.hypotheses);
    h.Some? && DiffReposHolds(p, plan) && CommitMessageHolds(p, h.value) && PrBodyEvidenceHolds(p, s.findings)
  }

  /**
   The gate: approval means every rule holds and the model approved; a challenge means every
   rule holds and the model challenged with citations; nothing else leads to either.
   */
  lemma GateIsExact(s: IncidentState, p: FixProposal, plan: Plan, llm: Completion<Judgement>)
    ensures var v := ReviewerNode(s, Some(p), Some(plan), llm);
      && (v.Decided? && v.review.decision == Approve <==>
            Clean(s, p, plan) && llm.Returned? && llm.value.decision == Approve)
      && (v.Decided? && v.review.decision == ChallengeRootCause <==>
            Clean(s, p, plan) && llm.Returned? && llm.value.decision == ChallengeRootCause && llm.value.cited != [])
      && (v.JudgementFailed? <==> Clean(s, p, plan) && !llm.Returned?)
      && (v.Decided? && v.review.decision == ChallengeRootCause ==> v.review.cited != [])
      && (v.Decided? && v.review.decision != RequestChanges ==>
            v.review.cited == llm.value.cited && v.review.reasoning == Judged(llm.value.reasoning))
  {
  }

  /**
   Why changes are requested: no cause is confirmed, rules are broken, the model asks, or it
   challenges citing nothing.
   */
  lemma RequestsTell(s: IncidentState, p: FixProposal, plan: Plan, llm: Completion<Judgement>)
    ensures var v, h := ReviewerNode(s, Some(p), Some(plan), llm), FirstConfirmed(s.hypotheses);
      && (h.None? ==> v == Decided(Review(RequestChanges, NoHypothesis, [])))
      && (h.Some? && !Clean(s, p, plan) ==>
            v == Decided(Review(RequestChanges, RulesBroken(Violations(p, plan, h.value, s.findings)), [])))
      && (Clean(s, p, plan) && llm.Returned? && llm.value.decision == RequestChanges ==>
            v == Decided(Review(RequestChanges, Judged(llm.value.reasoning), llm.value.cited)))
      && (Clean(s, p, plan) && llm.Returned? && llm.value.decision == ChallengeRootCause && llm.value.cited == [] ==>
            v == Decided(Review(RequestChanges, NothingCited(llm.value.reasoning), [])))
    ensures ReviewerNode(s, None, Some(plan), llm) == NothingToReview
    ensures ReviewerNode(s, Some(p), None, llm) == NothingToReview
  {
  }

  /**
   What the Dev agent proposes for a plan and a state, reviewed against the same plan and state,
   can break the rule on the commit message and the rule on the evidence, and never the first.
   */
  lemma DevMeetsReviewer(first: Completion<Draft>, second: Completion<Draft>, parse: DiffParser, plan: Plan,
                         s: IncidentState, id: string)
    requires Outcome(first, second, parse, plan, s, id).Produced? && FirstConfirmed(s.hypotheses).Some?
    ensures var p, h := Outcome(first, second, parse, plan, s, id).proposal, FirstConfirmed(s.hypotheses).value;
      && Contains(p.prBody, h.id)
      && Violations(p, plan, h, s.findings)
           == Broken(CommitMessage, CommitMessageHolds(p, h))
                + Broken(PrBodyEvidence, PrBodyEvidenceHolds(p, s.findings))
  {
    ProposalsAreSound(first, second, parse, plan, s, id);
    var p := Outcome(first, second, parse, plan, s, id).proposal;
    assert p.changes[0].repo in plan.targetRepos;
  }

  /**
   The finding of a failed collector cites the empty id, which every body contains: with one the
   third rule always holds.
   */
  lemma FailureSatisfiesRuleThree(p: FixProposal, findings: seq<Finding>, i: nat)
    requires i < |findings| && findings[i].evidenceId == ""
    ensures PrBodyEvidenceHolds(p, findings)
  {
    assert OccursAt(p.prBody, "", 0);
  }
}
