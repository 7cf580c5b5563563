/**
 What the state believes, in terms of what the language model answered: under every id the last
 hypothesis proposed for it, so that a proposal can confirm, refute or reword a known one.
 */
module Diagnosis {
  import opened Graph
  import opened Investigator
  import opened Outcome
  import opened Runs
  import opened Schemas
  import opened Text

  /** The id under which an answered hypothesis counts: its own, or one made from its text. */
  function IdGiven(contentHash: string -> string, h: Hypothesis): string {
    if h.id != "" then h.id else contentHash(h.text)
  }

  /** The last answered hypothesis under an id. */
  function LastNamed(contentHash: string -> string, answered: seq<Hypothesis>, id: string): (last: Option<nat>)
    ensures last.None? ==> forall j :: 0 <= j < |answered| ==> IdGiven(contentHash, answered[j]) != id
    ensures last.Some? ==>
      && last.value < |answered| && IdGiven(contentHash, answered[last.value]) == id
      && forall j :: last.value < j < |answered| ==> IdGiven(contentHash, answered[j]) != id
  {
    if answered == [] then None
    else if IdGiven(contentHash, answered[|answered| - 1]) == id then Some(|answered| - 1)
    else
      var init := answered[..|answered| - 1];
      assert forall j :: 0 <= j < |init| ==> init[j] == answered[j];
      LastNamed(contentHash, init, id)
  }

  /** The hypothesis an answer puts under an id, if it names the id; unchanged but for a missing id. */
  function PutUnder(contentHash: string -> string, answered: seq<Hypothesis>, id: string): Option<Hypothesis> {
    var last := LastNamed(contentHash, answered, id);
    if last.None? then None else Some(answered[last.value].(id := id))
  }

  /** The hypothesis is held under this id. */
  ghost predicate Held(hs: seq<Hypothesis>, id: string, h: Hypothesis) { h in hs && h.id == id }

  lemma {:induction false} LookupIsPut(contentHash: string -> string, answered: seq<Hypothesis>, id: string)
    ensures Lookup(EnsureIds(answered, contentHash), id) == PutUnder(contentHash, answered, id)
  {
    var given := EnsureIds(answered, contentHash);
    if answered == [] {
    } else {
      var init := answered[..|answered| - 1];
      LookupIsPut(contentHash, init, id);
      assert given[..|given| - 1] == EnsureIds(init, contentHash);
    }
  }

  lemma HeldIsLookup(hs: seq<Hypothesis>, id: string, h: Hypothesis)
    requires Distinct(Ids(hs))
    ensures Held(hs, id, h) <==> Lookup(hs, id) == Some(h)
  {
    LookupFinds(hs, id);
    if Held(hs, id, h) {
      var i :| 0 <= i < |hs| && hs[i] == h;
      LookupDistinct(hs, i);
    }
  }

  /**
   A tick below the cap takes the answer: what it names is held as last answered, in place of
   whatever was held under the id, and what it does not name is held as before.
   */
  lemma TickTakesTheAnswer(s: IncidentState, contentHash: string -> string, p: Proposal, id: string, h: Hypothesis)
    requires s.attempts < 5 && Distinct(Ids(s.hypotheses))
    ensures Held(Investigator.InvestigatorNode(s, contentHash, p).hypotheses, id, h) <==>
      if PutUnder(contentHash, p.hypotheses, id).Some? then PutUnder(contentHash, p.hypotheses, id) == Some(h)
      else Held(s.hypotheses, id, h)
  {
    var proposed := EnsureIds(p.hypotheses, contentHash);
    MergeKeeps(s.hypotheses, proposed, id);
    LookupIsPut(contentHash, p.hypotheses, id);
    LookupFinds(proposed, id);
    HeldIsLookup(s.hypotheses, id, h);
    HeldIsLookup(Merge(s.hypotheses, proposed), id, h);
  }

  /**
   The focus is the model's choice when it names an answered hypothesis, otherwise the first
   answered with the highest score, and empty when nothing was answered.
   */
  lemma FocusIsTheChoice(s: IncidentState, contentHash: string -> string, p: Proposal)
    requires s.attempts < 5
    ensures var focus, answered := Investigator.InvestigatorNode(s, contentHash, p).focus, p.hypotheses;
      if exists i :: 0 <= i < |answered| && IdGiven(contentHash, answered[i]) == p.focus then focus == Some(p.focus)
      else if answered == [] then focus == Some("")
      else exists k: nat :: k < |answered| && FirstBest(answered, k) && focus == Some(IdGiven(contentHash, answered[k]))
  {
    var answered, given := p.hypotheses, EnsureIds(p.hypotheses, contentHash);
    assert forall i :: 0 <= i < |answered| ==> Ids(given)[i] == IdGiven(contentHash, answered[i]);
    if i :| 0 <= i < |answered| && IdGiven(contentHash, answered[i]) == p.focus {
      assert Ids(given)[i] == p.focus;
    } else if answered != [] {
      assert forall i :: 0 <= i < |answered| ==> given[i].score == answered[i].score;
      assert FirstBest(answered, BestIndex(given));
    }
  }

  predicate FirstBest(hs: seq<Hypothesis>, k: nat)
    requires k < |hs|
  {
    && (forall j :: 0 <= j < |hs| ==> hs[j].score <= hs[k].score)
    && (forall j :: 0 <= j < k ==> hs[j].score < hs[k].score)
  }

  /******* Over a whole run *******/

  /** The node is a tick that takes an answer. */
  predicate Takes(c: Config) { c.at == At(Node.InvestigatorNode) && c.state.attempts < 5 }

  /** The last hypothesis that some tick of the run was given under an id. */
  function Latest(w: World, run: seq<Answers> -> Config, answers: seq<Answers>, id: string): Option<Hypothesis> {
    if answers == [] then None
    else
      var before := answers[..|answers| - 1];
      var put := PutUnder(w.contentHash, answers[|answers| - 1].proposal.hypotheses, id);
      if Takes(run(before)) && put.Some? then put else Latest(w, run, before, id)
  }

  lemma StepNames(w: World, c: Config, x: Answers)
    requires Sound(w) && Named(c.state.hypotheses)
    ensures Named(Step(w, c, x).state.hypotheses)
  {
    if c.at == At(Node.InvestigatorNode) && c.state.attempts < 5 {
      MergeNamed(c.state.hypotheses, EnsureIds(x.proposal.hypotheses, w.contentHash));
    }
  }

  lemma StepHolds(w: World, c: Config, x: Answers, id: string, h: Hypothesis)
    requires Named(c.state.hypotheses)
    ensures Held(Step(w, c, x).state.hypotheses, id, h) <==>
      if Takes(c) && PutUnder(w.contentHash, x.proposal.hypotheses, id).Some?
      then PutUnder(w.contentHash, x.proposal.hypotheses, id) == Some(h)
      else Held(c.state.hypotheses, id, h)
  {
    if Takes(c) { TickTakesTheAnswer(c.state, w.contentHash, x.proposal, id, h); }
  }

  lemma {:induction false} RunNames(w: World, seed: IncidentState, answers: seq<Answers>)
    requires Sound(w) && seed.hypotheses == []
    ensures Named(Run(w, seed, answers).state.hypotheses)
  {
    if answers == [] {
    } else {
      var n := |answers| - 1;
      RunNames(w, seed, answers[..n]);
      StepNames(w, Run(w, seed, answers[..n]), answers[n]);
    }
  }

  /** In every state of a run from no hypotheses, what is held under an id is the latest proposal for it. */
  lemma {:induction false} LatestIsHeld(w: World, seed: IncidentState, answers: seq<Answers>, id: string, h: Hypothesis)
    requires Sound(w) && seed.hypotheses == []
    ensures Held(Run(w, seed, answers).state.hypotheses, id, h) <==>
      Latest(w, RunFrom(w, seed), answers, id) == Some(h)
  {
    if answers == [] {
    } else {
      var n := |answers| - 1;
      LatestIsHeld(w, seed, answers[..n], id, h);
      RunNames(w, seed, answers[..n]);
      StepHolds(w, Run(w, seed, answers[..n]), answers[n], id, h);
    }
  }

  /** Under some id the latest proposal is a confirmed hypothesis. */
  ghost predicate SomeLatestConfirmed(w: World, run: seq<Answers> -> Config, answers: seq<Answers>) {
    exists id :: Latest(w, run, answers, id).Some? && Latest(w, run, answers, id).value.status == confirmed
  }

  lemma ConfirmedByProposal(w: World, seed: IncidentState, answers: seq<Answers>)
    requires Sound(w) && seed.hypotheses == []
    ensures AnyConfirmed(Run(w, seed, answers).state.hypotheses)
      <==> SomeLatestConfirmed(w, RunFrom(w, seed), answers)
  {
    var hs, run := Run(w, seed, answers).state.hypotheses, RunFrom(w, seed);
    if i :| 0 <= i < |hs| && hs[i].status == confirmed {
      LatestIsHeld(w, seed, answers, hs[i].id, hs[i]);
    }
    if id :| Latest(w, run, answers, id).Some? && Latest(w, run, answers, id).value.status == confirmed {
      var h := Latest(w, run, answers, id).value;
      LatestIsHeld(w, seed, answers, id, h);
      var i :| 0 <= i < |hs| && hs[i] == h;
      assert hs[i].status == confirmed;
    }
  }

  /** Step `i` is a tick after which attempts are below five and some latest proposal is confirmed. */
  ghost predicate ConfirmsByProposal(w: World, run: seq<Answers> -> Config, answers: seq<Answers>, i: nat)
    requires i < |answers|
  {
    && run(answers[..i]).at == At(Node.InvestigatorNode)
    && run(answers[..i + 1]).state.attempts < 5
    && SomeLatestConfirmed(w, run, answers[..i + 1])
  }

  lemma ConfirmsIsByProposal(w: World, seed: IncidentState, answers: seq<Answers>, i: nat)
    requires Sound(w) && seed.hypotheses == [] && i < |answers|
    ensures HoldsAt(RunFrom(w, seed), answers, Confirms, i) <==> ConfirmsByProposal(w, RunFrom(w, seed), answers, i)
  {
    ConfirmedByProposal(w, seed, answers[..i + 1]);
  }

  /**
   The planner is reached exactly when, after some tick with attempts below five, the latest
   proposal for some id is confirmed: it does not matter on which tick the id first came up, nor
   what had been said of it before.
   */
  lemma PlannerFollowsProposals(w: World, seed: IncidentState, answers: seq<Answers>)
    requires Sound(w) && seed.hypotheses == []
    ensures Runs.Planned(Run(w, seed, answers), HistoryOf(w, seed, answers)) <==>
      exists i: nat :: i < |answers| && ConfirmsByProposal(w, RunFrom(w, seed), answers, i)
  {
    var run := RunFrom(w, seed);
    PlannerReachedExactly(w, seed, answers);
    if i: nat :| i < |answers| && HoldsAt(run, answers, Confirms, i) {
      ConfirmsIsByProposal(w, seed, answers, i);
    }
    if i: nat :| i < |answers| && ConfirmsByProposal(w, run, answers, i) {
      ConfirmsIsByProposal(w, seed, answers, i);
    }
  }
}
